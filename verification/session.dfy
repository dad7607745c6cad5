/**
 The questionnaire's session state and the progress bar. Each button press
 is one event applied to the state by the branch the page runs for it; a
 press on a button the page does not currently show cannot happen and
 leaves the state unchanged. Sections open one after another: a section is
 shown once the previous one (the weighting stage for the first) is
 complete and it is not, and inside it a question counter runs 1, 2, 3 and
 back to 1 on submit.
 */
module Session {

  import opened Wrappers
  import opened Pillars
  import opened ScoreExtractor
  import opened Weights
  import opened Report

  datatype Session = Session(
    startAssessment: bool,
    privacyAccepted: bool,
    userInfoComplete: bool,
    weightsSet: bool,
    complete: PerPillar<bool>,        // the six `*_complete` flags
    allSectionsCompleted: bool,
    weights: PerPillar<real>,
    answers: PerPillar<PillarAnswers>,
    currentQuestion: nat)

  /** The session defaults, installed once per browser session. */
  function InitialSession(): Session
  {
    Session(false, false, false, false, Uniform(false), false, DefaultWeights(), DefaultAnswers(), 1)
  }

  datatype Event =
    | PressStart                                            // "Let's do this!"
    | PressContinue                                         // privacy notice
    | PressStartAssessment(firstName: string, lastName: string, email: string)
    | PressSetWeights(importance: PerPillar<string>)        // the six selected options
    | PressNext(section: Pillar, answer: string)
    | PressSubmit(section: Pillar, answer: string)

  /** Whether the section of pillar p is on the page. */
  predicate SectionOpen(s: Session, p: Pillar)
  {
    (match Previous(p)
     case None => s.weightsSet
     case Some(q) => s.complete.Get(q))
    && !s.complete.Get(p)
  }

  /** `answers[p]` with question k's answer replaced. */
  function Answer(a: PillarAnswers, k: nat, text: string): PillarAnswers
  {
    if k == 1 then a.(q1 := text) else if k == 2 then a.(q2 := text) else a.(q3 := text)
  }

  /** The effect of one button press. */
  function Step(s: Session, e: Event): Session
  {
    match e
    case PressStart =>
      s.(startAssessment := true, privacyAccepted := false)
    case PressContinue =>
      if s.startAssessment && !s.privacyAccepted then s.(privacyAccepted := true) else s
    case PressStartAssessment(first, last, email) =>
      if !s.privacyAccepted || s.userInfoComplete then s
      else if first == "" || last == "" || email == "" then s   // "Please fill in all required fields!"
      else s.(userInfoComplete := true)
    case PressSetWeights(importance) =>
      if !s.userInfoComplete || s.weightsSet then s
      else (match ComputeWeights(importance.Map(ExtractScore))
        case Failure(_) => s                                      // ZeroDivisionError aborts the run
        case Success(w) => s.(weights := w, weightsSet := true))
    case PressNext(p, answer) =>
      if !SectionOpen(s, p) || !(s.currentQuestion == 1 || s.currentQuestion == 2) then s
      else s.(answers := s.answers.With(p, Answer(s.answers.Get(p), s.currentQuestion, answer)),
              currentQuestion := s.currentQuestion + 1)
    case PressSubmit(p, answer) =>
      if !SectionOpen(s, p) || s.currentQuestion != 3 then s
      else s.(answers := s.answers.With(p, Answer(s.answers.Get(p), 3, answer)),
              complete := s.complete.With(p, true),
              currentQuestion := 1,
              allSectionsCompleted := if p == Security then true else s.allSectionsCompleted)
  }

  function Run(s: Session, events: seq<Event>): Session
    decreases |events|
  {
    if |events| == 0 then s else Run(Step(s, events[0]), events[1..])
  }

  /**
   What every reachable session satisfies: the counter is 1, 2 or 3; the
   sections are completed in order, the first only after the weights are
   set, and those only after the user details; the final flag is the last
   section's flag; the weights in force are a weight vector: the defaults
   until the weighting stage completes, and after it the weights computed
   from some importance ratings.
   */
  ghost predicate Inv(s: Session)
  {
    && 1 <= s.currentQuestion <= 3
    && (forall p, q :: Index(q) < Index(p) && s.complete.Get(p) ==> s.complete.Get(q))
    && (s.complete.Get(Governance) ==> s.weightsSet)
    && (s.weightsSet ==> s.userInfoComplete)
    && (s.allSectionsCompleted <==> s.complete.Get(Security))
    && IsWeightVector(s.weights)
    && (!s.weightsSet ==> s.weights == DefaultWeights())
    && (s.weightsSet ==> ComputedWeights(s.weights))
  }

  /** Weights that the weighting stage computes from some importance ratings. */
  ghost predicate ComputedWeights(w: PerPillar<real>)
  {
    exists ratings: PerPillar<nat> :: ComputeWeights(ratings) == Success(w)
  }

  lemma InitialSessionInv()
    ensures Inv(InitialSession())
  {
  }

  /** Every button press keeps the invariant. */
  lemma StepInv(s: Session, e: Event)
    requires Inv(s)
    ensures Inv(Step(s, e))
  {
    match e
    case PressSetWeights(importance) =>
      if s.userInfoComplete && !s.weightsSet {
        SetWeightsStoresComputed(s, importance);
      }
    case PressSubmit(p, answer) =>
      if SectionOpen(s, p) && s.currentQuestion == 3 {
        SubmitKeepsOrder(s, p);
      }
    case _ =>
  }

  /**
   "Set Weights" on the weighting stage stores the weights computed from the
   selected options' ratings and closes the stage; when those ratings total
   0 the run aborts and the session is unchanged.
   */
  lemma SetWeightsStoresComputed(s: Session, importance: PerPillar<string>)
    requires s.userInfoComplete && !s.weightsSet
    ensures var t, r := Step(s, PressSetWeights(importance)), ComputeWeights(importance.Map(ExtractScore));
            && (t.weightsSet <==> r.Success?)
            && (r.Success? ==> t == s.(weights := r.value, weightsSet := true))
            && (r.Failure? ==> t == s)
  {
  }

  /** Completing the open section keeps the completed sections a prefix of the pillar order. */
  lemma SubmitKeepsOrder(s: Session, p: Pillar)
    requires Inv(s) && SectionOpen(s, p)
    ensures var c := s.complete.With(p, true);
            forall u, v :: Index(v) < Index(u) && c.Get(u) ==> c.Get(v)
  {
    var c := s.complete.With(p, true);
    forall u, v | Index(v) < Index(u) && c.Get(u) ensures c.Get(v) {
      if u == p && v != p {
        var q := Previous(p).value;
        if v != q {
          assert Index(v) < Index(q);
        }
      }
    }
  }

  lemma {:induction false} RunInv(s: Session, events: seq<Event>)
    requires Inv(s)
    ensures Inv(Run(s, events))
    decreases |events|
  {
    if |events| > 0 {
      StepInv(s, events[0]);
      RunInv(Step(s, events[0]), events[1..]);
    }
  }

  /** Every session reachable from the defaults satisfies the invariant. */
  lemma ReachableInv(events: seq<Event>)
    ensures Inv(Run(InitialSession(), events))
  {
    InitialSessionInv();
    RunInv(InitialSession(), events);
  }

  /** At most one section is on the page at a time. */
  lemma OneSectionOpen(s: Session, p: Pillar, q: Pillar)
    requires Inv(s) && SectionOpen(s, p) && SectionOpen(s, q)
    ensures p == q
  {
  }

  /** No press ever clears a completion flag, the user-details flag or the weights flag. */
  lemma StepKeepsProgress(s: Session, e: Event)
    ensures forall p :: s.complete.Get(p) ==> Step(s, e).complete.Get(p)
    ensures s.userInfoComplete ==> Step(s, e).userInfoComplete
    ensures s.weightsSet ==> Step(s, e).weightsSet && Step(s, e).weights == s.weights
    ensures s.allSectionsCompleted ==> Step(s, e).allSectionsCompleted
  {
  }

  /** "Next" stores the answer of the current question in the open section and moves on by one. */
  lemma NextStoresAnswer(s: Session, p: Pillar, answer: string)
    requires SectionOpen(s, p) && (s.currentQuestion == 1 || s.currentQuestion == 2)
    ensures var t := Step(s, PressNext(p, answer));
            && t.currentQuestion == s.currentQuestion + 1
            && t.answers.Get(p) == Answer(s.answers.Get(p), s.currentQuestion, answer)
            && (forall q :: q != p ==> t.answers.Get(q) == s.answers.Get(q))
            && t.complete == s.complete
  {
  }

  /** Submit stores the third answer, completes the section and resets the counter to 1. */
  lemma SubmitCompletesSection(s: Session, p: Pillar, answer: string)
    requires SectionOpen(s, p) && s.currentQuestion == 3
    ensures var t := Step(s, PressSubmit(p, answer));
            && t.currentQuestion == 1
            && t.complete.Get(p)
            && t.answers.Get(p) == s.answers.Get(p).(q3 := answer)
            && (forall q :: q != p ==> t.answers.Get(q) == s.answers.Get(q) && t.complete.Get(q) == s.complete.Get(q))
            && (t.allSectionsCompleted <==> p == Security || s.allSectionsCompleted)
  {
  }

  /** Three presses in the open section (Next, Next, Submit) complete it with the three answers. */
  lemma SectionWalkthrough(s: Session, p: Pillar, a1: string, a2: string, a3: string)
    requires Inv(s) && SectionOpen(s, p) && s.currentQuestion == 1
    ensures var t := Run(s, [PressNext(p, a1), PressNext(p, a2), PressSubmit(p, a3)]);
            && t.complete.Get(p)
            && t.answers.Get(p) == PillarAnswers(a1, a2, a3)
            && t.currentQuestion == 1
  {
    var s1 := Step(s, PressNext(p, a1));
    var s2 := Step(s1, PressNext(p, a2));
    var s3 := Step(s2, PressSubmit(p, a3));
    assert SectionOpen(s1, p) && SectionOpen(s2, p);
    var es := [PressNext(p, a1), PressNext(p, a2), PressSubmit(p, a3)];
    assert es[1..] == [PressNext(p, a2), PressSubmit(p, a3)];
    assert es[1..][1..] == [PressSubmit(p, a3)];
    assert Run(s2, es[1..][1..]) == Run(s3, []);
    assert Run(s1, es[1..]) == Run(s2, es[1..][1..]);
    assert Run(s, es) == Run(s1, es[1..]);
  }

  /** When the results page shows, the weights in force are the ones computed from the user's ratings. */
  lemma ResultsUseSetWeights(s: Session)
    requires Inv(s) && s.allSectionsCompleted
    ensures s.weightsSet && IsWeightVector(s.weights)
    ensures exists ratings: PerPillar<nat> :: ComputeWeights(ratings) == Success(s.weights)
    ensures forall p :: s.complete.Get(p)
  {
    forall p ensures s.complete.Get(p) {
      if p != Security {
        assert Index(p) < Index(Security);
      }
    }
  }

  // ---------------------------------------------------------------------
  // The progress bar
  // ---------------------------------------------------------------------

  /** `int((completed / 6) * 100)`: truncation of the exact percentage. */
  function CalculateProgress(flags: PerPillar<bool>): (pct: int)
    ensures 0 <= pct <= 100
    ensures pct == (100 * Count(flags)) / 6
    ensures pct == 100 <==> forall p :: flags.Get(p)
    ensures pct == 0 <==> forall p :: !flags.Get(p)
  {
    var c := Count(flags);
    PercentOfSixths(c);
    ((c as real / 6.0) * 100.0).Floor
  }

  /** For 0..6 completed sections the real percentage truncates to the integer quotient 100c/6. */
  lemma PercentOfSixths(c: nat)
    requires c <= 6
    ensures ((c as real / 6.0) * 100.0).Floor == (100 * c) / 6
  {
    if c == 0 {
    } else if c == 1 {
      assert (c as real / 6.0) * 100.0 == 16.0 + 2.0 / 3.0;
    } else if c == 2 {
      assert (c as real / 6.0) * 100.0 == 33.0 + 1.0 / 3.0;
    } else if c == 3 {
      assert (c as real / 6.0) * 100.0 == 50.0;
    } else if c == 4 {
      assert (c as real / 6.0) * 100.0 == 66.0 + 2.0 / 3.0;
    } else if c == 5 {
      assert (c as real / 6.0) * 100.0 == 83.0 + 1.0 / 3.0;
    } else {
      assert (c as real / 6.0) * 100.0 == 100.0;
    }
  }

  /** The progress bar never goes back. */
  lemma ProgressMonotone(s: Session, e: Event)
    ensures CalculateProgress(s.complete) <= CalculateProgress(Step(s, e).complete)
  {
    StepKeepsProgress(s, e);
    CountMonotone(s.complete, Step(s, e).complete);
  }

  lemma CountMonotone(a: PerPillar<bool>, b: PerPillar<bool>)
    requires forall p :: a.Get(p) ==> b.Get(p)
    ensures Count(a) <= Count(b)
  {
    assert a.Get(Governance) ==> b.Get(Governance);
    assert a.Get(Quality) ==> b.Get(Quality);
    assert a.Get(Metadata) ==> b.Get(Metadata);
    assert a.Get(Integration) ==> b.Get(Integration);
    assert a.Get(Analytics) ==> b.Get(Analytics);
    assert a.Get(Security) ==> b.Get(Security);
  }

  /** In a reachable session the bar shows 100% exactly when the results page is shown. */
  lemma FullProgressIffResults(s: Session)
    requires Inv(s)
    ensures CalculateProgress(s.complete) == 100 <==> s.allSectionsCompleted
  {
    if s.allSectionsCompleted {
      ResultsUseSetWeights(s);
    }
  }
}
