/**
 The score extractor: the rating an answer encodes is the integer inside the
 first parenthesised group of decimal digits in the answer text (a
 `re.search` for `\((\d+)\)`), and 1 when the text has no such group.
 Digits are the ASCII digits '0'..'9'.
 */
module ScoreExtractor {

  import opened Wrappers

  predicate IsDigit(c: char)
  {
    '0' <= c <= '9'
  }

  function DigitValue(c: char): (d: nat)
    requires IsDigit(c)
    ensures d <= 9
  {
    c as int - '0' as int
  }

  predicate AllDigits(t: string)
  {
    forall k :: 0 <= k < |t| ==> IsDigit(t[k])
  }

  /** The value of a string of decimal digits, as Python's `int` reads it. */
  function DecimalValue(t: string): nat
    requires AllDigits(t)
  {
    if |t| == 0 then 0 else 10 * DecimalValue(t[..|t| - 1]) + DigitValue(t[|t| - 1])
  }

  /** `s[i..j+1]` is a match of the pattern: '(' at i, ')' at j, digits strictly between. */
  predicate GroupAt(s: string, i: int, j: int)
  {
    && 0 <= i && i + 1 < j < |s|
    && s[i] == '(' && s[j] == ')'
    && forall m :: i < m < j ==> IsDigit(s[m])
  }

  /** The match that a left-to-right search reports first. */
  ghost predicate IsFirstGroup(s: string, i: int, j: int)
  {
    GroupAt(s, i, j) && forall i', j' :: GroupAt(s, i', j') ==> i <= i'
  }

  /** Length of the run of digits that starts at index k. */
  function DigitRun(s: string, k: nat): (n: nat)
    requires k <= |s|
    ensures k + n <= |s|
    ensures forall m :: k <= m < k + n ==> IsDigit(s[m])
    ensures k + n == |s| || !IsDigit(s[k + n])
    decreases |s| - k
  {
    if k < |s| && IsDigit(s[k]) then 1 + DigitRun(s, k + 1) else 0
  }

  /** Where a match starting at index i ends, if one does. */
  function GroupEndAt(s: string, i: nat): (r: Option<nat>)
    ensures forall j :: GroupAt(s, i, j) <==> r == Some(j)
  {
    if i + 1 < |s| && s[i] == '(' then
      var n := DigitRun(s, i + 1);
      if 0 < n && i + 1 + n < |s| && s[i + 1 + n] == ')' then Some(i + 1 + n) else None
    else
      None
  }

  /** The leftmost match starting at or after `from`. */
  function FirstGroupFrom(s: string, from: nat): (r: Option<(nat, nat)>)
    requires from <= |s|
    ensures r.Some? ==> from <= r.value.0 && GroupAt(s, r.value.0, r.value.1)
    ensures r.Some? ==> forall i, j :: from <= i < r.value.0 ==> !GroupAt(s, i, j)
    ensures r.None? ==> forall i, j :: from <= i ==> !GroupAt(s, i, j)
    decreases |s| - from
  {
    if from == |s| then None
    else
      match GroupEndAt(s, from)
      case Some(j) => Some((from, j))
      case None => FirstGroupFrom(s, from + 1)
  }

  /**
   extract_score: the integer of the first `(digits)` group, or 1 when the
   answer contains no such group.
   */
  function ExtractScore(s: string): (r: nat)
    ensures forall i, j :: IsFirstGroup(s, i, j) ==> r == DecimalValue(s[i + 1..j])
    ensures (exists i, j :: GroupAt(s, i, j)) ==> exists i, j :: IsFirstGroup(s, i, j)
    ensures (forall i, j :: !GroupAt(s, i, j)) ==> r == 1
  {
    match FirstGroupFrom(s, 0)
    case Some((i, j)) =>
      assert forall i', j' :: IsFirstGroup(s, i', j') ==> i' == i && j' == j by {
        forall i', j' | IsFirstGroup(s, i', j')
          ensures i' == i && j' == j
        {
          assert GroupEndAt(s, i) == Some(j) && GroupEndAt(s, i') == Some(j');
        }
      }
      assert IsFirstGroup(s, i, j);
      DecimalValue(s[i + 1..j])
    case None => 1
  }

  /** The decimal digit character for d. */
  function DigitChar(d: nat): (c: char)
    requires d <= 9
    ensures IsDigit(c) && DigitValue(c) == d
  {
    ('0' as int + d) as char
  }

  /** The decimal numeral of n, without leading zeros (Python's `str(n)`). */
  function Numeral(n: nat): (t: string)
    ensures 0 < |t| && AllDigits(t)
  {
    if n < 10 then [DigitChar(n)] else Numeral(n / 10) + [DigitChar(n % 10)]
  }

  /** Reading back a rendered numeral gives the number. */
  lemma {:induction false} NumeralRoundTrip(n: nat)
    ensures DecimalValue(Numeral(n)) == n
  {
    if n >= 10 {
      var t := Numeral(n);
      assert t[..|t| - 1] == Numeral(n / 10);
      NumeralRoundTrip(n / 10);
    }
  }

  /** No '(' in t can open a match: each is followed, inside t, by a non-digit. */
  predicate NoGroupOpener(t: string)
  {
    forall i :: 0 <= i < |t| && t[i] == '(' ==> i + 1 < |t| && !IsDigit(t[i + 1])
  }

  /** No match of s starts inside a prefix of s that opens none. */
  lemma PrefixOpensNoGroup(prefix: string, s: string)
    requires NoGroupOpener(prefix) && prefix <= s
    ensures forall i, j :: 0 <= i < |prefix| ==> !GroupAt(s, i, j)
  {
    forall i, j | 0 <= i < |prefix|
      ensures !GroupAt(s, i, j)
    {
      assert s[i] == prefix[i];
      if prefix[i] == '(' {
        assert s[i + 1] == prefix[i + 1];
      }
    }
  }

  /**
   Only the first match counts: after a prefix that opens no match, the
   numeral in the first group is the score whatever text follows.
   */
  lemma FirstGroupWins(prefix: string, k: nat, rest: string)
    requires NoGroupOpener(prefix)
    ensures ExtractScore(prefix + "(" + Numeral(k) + ")" + rest) == k
  {
    var d := Numeral(k);
    var s := prefix + "(" + d + ")" + rest;
    var i0, j0 := |prefix|, |prefix| + 1 + |d|;
    assert s[i0 + 1..j0] == d;
    assert GroupAt(s, i0, j0);
    PrefixOpensNoGroup(prefix, s);
    assert IsFirstGroup(s, i0, j0);
    NumeralRoundTrip(k);
  }

  /** An answer option as displayed: its caption followed by " (k)". */
  function OptionText(caption: string, k: nat): string
  {
    caption + " (" + Numeral(k) + ")"
  }

  /** Every option whose caption opens no match scores the rating it displays. */
  lemma OptionTextScore(caption: string, k: nat)
    requires NoGroupOpener(caption)
    ensures ExtractScore(OptionText(caption, k)) == k
  {
    assert OptionText(caption, k) == (caption + " ") + "(" + Numeral(k) + ")" + "";
    FirstGroupWins(caption + " ", k, "");
  }

  /** The default answer " (1)" of every question scores 1. */
  lemma DefaultAnswerScore()
    ensures ExtractScore(" (1)") == 1
  {
    assert " (1)" == OptionText("", 1);
    OptionTextScore("", 1);
  }

  /** Answer text with no '(' at all, such as free text, scores the default 1. */
  lemma NoParenthesisScoresOne(s: string)
    requires '(' !in s
    ensures ExtractScore(s) == 1
  {
  }

  /** The second option of the first governance question scores 2. */
  lemma GovernanceOptionTwoScore()
    ensures ExtractScore("Some informal rules, but not enforced (2)") == 2
  {
    var caption := "Some informal rules, but not enforced";
    assert '(' !in caption;
    assert OptionText(caption, 2) == "Some informal rules, but not enforced (2)";
    OptionTextScore(caption, 2);
  }

  /** A parenthesised word before the rating does not hide the rating. */
  lemma RbacOptionScore()
    ensures ExtractScore("Role-based access control (RBAC) in place (3)") == 3
  {
    var caption := "Role-based access control (RBAC) in place";
    assert NoGroupOpener(caption) by {
      forall i | 0 <= i < |caption| && caption[i] == '('
        ensures i + 1 < |caption| && !IsDigit(caption[i + 1])
      {
        assert '(' !in caption[..26] && '(' !in caption[27..];
      }
    }
    assert OptionText(caption, 3) == "Role-based access control (RBAC) in place (3)";
    OptionTextScore(caption, 3);
  }
}
