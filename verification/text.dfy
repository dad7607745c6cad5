/**
 The three Python string operations the report code relies on, over
 `string` = `seq<char>` (one `char` per Unicode code point, as in Python 3):
 `str.replace` of a single code point, `str.strip()` with no argument, and
 `str.split(sep, 1)` unpacked into two names.
 */
module Text {

  import opened Wrappers

  /** The code points Python's `str.isspace` accepts (what `strip()` removes). */
  predicate IsSpace(c: char)
  {
    ('\t' <= c <= '\r') || ('\U{1c}' <= c <= ' ') || c == '\U{85}' || c == '\U{a0}'
    || c == '\U{1680}' || ('\U{2000}' <= c <= '\U{200a}') || c == '\U{2028}' || c == '\U{2029}'
    || c == '\U{202f}' || c == '\U{205f}' || c == '\U{3000}'
  }

  /** Leading whitespace removed: the result is the longest suffix starting with a non-space. */
  function StripLeft(s: string): (r: string)
    ensures |r| <= |s| && r == s[|s| - |r|..]
    ensures forall i :: 0 <= i < |s| - |r| ==> IsSpace(s[i])
    ensures |r| > 0 ==> !IsSpace(r[0])
  {
    if |s| > 0 && IsSpace(s[0]) then StripLeft(s[1..]) else s
  }

  /** Trailing whitespace removed: the result is the longest prefix ending in a non-space. */
  function StripRight(s: string): (r: string)
    ensures |r| <= |s| && r == s[..|r|]
    ensures forall i :: |r| <= i < |s| ==> IsSpace(s[i])
    ensures |r| > 0 ==> !IsSpace(r[|r| - 1])
  {
    if |s| > 0 && IsSpace(s[|s| - 1]) then StripRight(s[..|s| - 1]) else s
  }

  /** Python's `s.strip()`. */
  function Strip(s: string): string
  {
    StripRight(StripLeft(s))
  }

  /** A string whose two ends are not whitespace is left alone by `strip()`. */
  lemma StripTrimmed(s: string)
    requires |s| > 0 ==> !IsSpace(s[0]) && !IsSpace(s[|s| - 1])
    ensures Strip(s) == s
  {
  }

  /** One leading blank in front of a trimmed, non-empty string is exactly what `strip()` removes. */
  lemma StripLeadingBlank(s: string)
    requires |s| > 0 && !IsSpace(s[0]) && !IsSpace(s[|s| - 1])
    ensures Strip(" " + s) == s
  {
    assert (" " + s)[1..] == s;
    StripTrimmed(s);
  }

  /** `strip()` never leaves whitespace at either end, and a second strip changes nothing. */
  lemma StripIdempotent(s: string)
    ensures Strip(Strip(s)) == Strip(s)
  {
    var l := StripLeft(s);
    var r := StripRight(l);
    if |r| > 0 {
      assert r[0] == l[0];
    }
    StripTrimmed(r);
  }

  /** Python's `s.replace(c, r)` for a single code point `c`. */
  function ReplaceChar(s: string, c: char, r: string): (o: string)
    ensures forall i :: 0 <= i < |o| ==> (o[i] in s && o[i] != c) || o[i] in r
    ensures r == "" ==> |o| <= |s|
  {
    if |s| == 0 then "" else (if s[0] == c then r else [s[0]]) + ReplaceChar(s[1..], c, r)
  }

  /** Replacing distributes over concatenation. */
  lemma {:induction false} ReplaceConcat(a: string, b: string, c: char, r: string)
    ensures ReplaceChar(a + b, c, r) == ReplaceChar(a, c, r) + ReplaceChar(b, c, r)
    decreases |a|
  {
    if |a| == 0 {
      assert a + b == b;
    } else {
      assert (a + b)[1..] == a[1..] + b;
      ReplaceConcat(a[1..], b, c, r);
    }
  }

  /** Replacing a code point that does not occur changes nothing. */
  lemma {:induction false} ReplaceAbsent(s: string, c: char, r: string)
    requires c !in s
    ensures ReplaceChar(s, c, r) == s
    decreases |s|
  {
    if |s| > 0 {
      assert c !in s[1..];
      ReplaceAbsent(s[1..], c, r);
    }
  }

  /** A chain `s.replace(c1, r1).replace(c2, r2)…`, one table entry per call, in order. */
  function ReplaceEach(s: string, table: seq<(char, string)>): string
    decreases |table|
  {
    if |table| == 0 then s else ReplaceEach(ReplaceChar(s, table[0].0, table[0].1), table[1..])
  }

  /** Text made only of ASCII code points. */
  predicate IsPlain(s: string)
  {
    forall i :: 0 <= i < |s| ==> s[i] < '\U{80}'
  }

  /** A table that replaces non-ASCII code points by ASCII text. */
  predicate IsPlainTable(table: seq<(char, string)>)
  {
    forall j :: 0 <= j < |table| ==> '\U{80}' <= table[j].0 && IsPlain(table[j].1)
  }

  /** A replace chain distributes over concatenation. */
  lemma {:induction false} ReplaceEachConcat(a: string, b: string, table: seq<(char, string)>)
    ensures ReplaceEach(a + b, table) == ReplaceEach(a, table) + ReplaceEach(b, table)
    decreases |table|
  {
    if |table| > 0 {
      ReplaceConcat(a, b, table[0].0, table[0].1);
      ReplaceEachConcat(ReplaceChar(a, table[0].0, table[0].1), ReplaceChar(b, table[0].0, table[0].1), table[1..]);
    }
  }

  /** A chain that only replaces non-ASCII code points leaves ASCII text unchanged. */
  lemma {:induction false} ReplaceEachPlain(s: string, table: seq<(char, string)>)
    requires IsPlain(s) && IsPlainTable(table)
    ensures ReplaceEach(s, table) == s
    decreases |table|
  {
    if |table| > 0 {
      ReplaceAbsent(s, table[0].0, table[0].1);
      ReplaceEachPlain(s, table[1..]);
    }
  }

  /**
   A single code point that the k-th entry replaces, and no earlier entry, comes
   out of the chain as the k-th replacement text.
   */
  lemma {:induction false} ReplaceEachSingle(g: char, table: seq<(char, string)>, k: nat)
    requires IsPlainTable(table)
    requires k < |table| && table[k].0 == g
    requires forall j :: 0 <= j < k ==> table[j].0 != g
    ensures ReplaceEach([g], table) == table[k].1
    decreases k
  {
    if k == 0 {
      assert ReplaceChar([g], g, table[0].1) == table[0].1 + ReplaceChar([], g, table[0].1);
      assert table[0].1 + "" == table[0].1;
      ReplaceEachPlain(table[0].1, table[1..]);
      assert ReplaceEach([g], table) == ReplaceEach(table[0].1, table[1..]);
    } else {
      assert ReplaceChar([g], table[0].0, table[0].1) == [g] + ReplaceChar([], table[0].0, table[0].1);
      ReplaceEachSingle(g, table[1..], k - 1);
    }
  }

  /**
   `head, tail = s.split(sep, 1)`: the text before the first `sep` and the text
   after it; Python raises ValueError (None here) when `sep` does not occur.
   */
  function SplitOnce(s: string, sep: char): (r: Option<(string, string)>)
    ensures r.None? <==> sep !in s
    ensures r.Some? ==> sep !in r.value.0
  {
    if |s| == 0 then None
    else if s[0] == sep then Some(("", s[1..]))
    else match SplitOnce(s[1..], sep)
      case None => None
      case Some((h, t)) => Some(([s[0]] + h, t))
  }

  /** Joining the two halves of a split with the separator gives back the original text. */
  lemma {:induction false} SplitOnceRoundTrip(s: string, sep: char)
    requires sep in s
    ensures SplitOnce(s, sep).Some?
    ensures SplitOnce(s, sep).value.0 + [sep] + SplitOnce(s, sep).value.1 == s
    decreases |s|
  {
    if s[0] != sep {
      assert s == [s[0]] + s[1..];
      SplitOnceRoundTrip(s[1..], sep);
    }
  }

  /** Splitting a text built as head + sep + tail, with no sep in head, recovers head and tail. */
  lemma {:induction false} SplitOnceOfJoin(head: string, sep: char, tail: string)
    requires sep !in head
    ensures SplitOnce(head + [sep] + tail, sep) == Some((head, tail))
    decreases |head|
  {
    var s := head + [sep] + tail;
    if |head| == 0 {
      assert s == [sep] + tail;
    } else {
      assert s[1..] == head[1..] + [sep] + tail;
      assert sep !in head[1..];
      SplitOnceOfJoin(head[1..], sep, tail);
      assert [head[0]] + head[1..] == head;
    }
  }
}
