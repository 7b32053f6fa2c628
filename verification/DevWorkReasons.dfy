/** Why a DevWork is sent back: the reason a tick records is what went wrong in it. */
module DevWorkReasons {
  import opened Options
  import opened Reviewer
  import opened Sessions
  import opened DevWorkSpec
  import opened DevWorkInvariant
  import opened DevWorkProgress
  import opened DevWorkTermination
  import PlanPattern

  /** `o` was parsed from something the agent produced in the tick described by `e`. */
  ghost predicate FromThisTick(o: Outcome, e: Env) {
    || (e.artifact.Some? && Parse(e.artifact.value) == Good(o))
    || Parse(e.stdout) == Good(o)
    || (e.artifactAgain.Some? && Parse(e.artifactAgain.value) == Good(o))
    || Parse(e.stdoutAgain) == Good(o)
  }

  /** `o` was read in the tick: from what the agent produced, or from a review file left behind. */
  ghost predicate ReadIn(s: State, o: Outcome, e: Env) {
    FromThisTick(o, e) || (Round(s) in s.artifacts && Parse(s.artifacts[Round(s)]) == Good(o))
  }

  /** The agent failed, or nothing it produced at first or on repair parses. */
  predicate NothingParsed(e: Env) {
    || !Succeeded(e.llm)
    || (&& !Parse(e.stdout).Good?
        && (e.artifact.Some? ==> !Parse(e.artifact.value).Good?)
        && (Succeeded(e.repair) ==>
              !Parse(e.stdoutAgain).Good? && (e.artifactAgain.Some? ==> !Parse(e.artifactAgain.value).Good?)))
  }

  /** The plan ids that the outcome just read leaves out. */
  ghost predicate LeftOut(s: State, ids: set<string>, e: Env) {
    ids != {} && exists o :: ReadIn(s, o, e) && ids == PlanPattern.Unanswered(NoteText(s), o.plan)
  }

  /** What went wrong in the tick described by `e` that leads from `s` to `t`, and back to the step `back`: the reason
      and the category say so. */
  ghost predicate Explains(s: State, e: Env, t: State, back: Step, reason: Reason, category: Option<Category>) {
    match s.step
    case Step2 =>
      && category == Some(ReqGap)
      && (if !Succeeded(e.llm) then reason == Step2Rc(ExitCode(e.llm))
          else if e.noteText.None? then reason == Step2Unreadable
          else reason == Step2MissingH2 && !e.headings)
    case Step3 =>
      && category == Some(ReqGap) && reason == Step3FailedTwice(ExitCode(e.llm)) && !(Succeeded(e.llm) && e.contextWritten)
    case Step4 =>
      && category == Some(ImplGap)
      && (if !Succeeded(e.llm) then reason == Step4Rc(ExitCode(e.llm))
          else
            && !Delivered(e)
            && (e.findings.Missing? ==> reason == Step4FindingsMissing)
            && (e.findings.Invalid? ==> reason == Step4FindingsInvalid)
            && (e.findings.Misshapen? ==> reason == Step4ShapeMismatch))
    case Step5 =>
      if back.Step4? then category == Some(ImplGap) && reason == Step5Preflight && !e.preflight.Clean?
      else if back.Step5? then
        && category == None
        && (|| (reason == Step5Unparseable && NothingParsed(e))
            || (reason.Step5MissingPlanIds? && LeftOut(s, reason.ids, e)))
      else if t.reviews == s.reviews then category == Some(ReqGap) && reason == Step5NoteUnreadable && !e.noteReadable
      else
        && t.reviews != []
        && var last := t.reviews[|t.reviews| - 1].outcome;
        && ReadIn(s, last, e) && reason == Scored(last.score) && category == last.category
        && (category == Some(ReqGap) || category == Some(ImplGap))
    case _ => false
  }

  /** Every reason that a tick leaves, for the next handler or in a resume descriptor, says what went wrong in it. */
  ghost predicate Explained(s: State, e: Env, t: State) {
    && (SendsBack(s, t) ==>
          && t.gates.feedback != []
          && var last := t.gates.feedback[|t.gates.feedback| - 1];
          && last.category == t.category && Explains(s, e, t, t.step, last.reason, last.category))
    && (t.gates.roundsResume.Some? ==>
          var r := t.gates.roundsResume.value;
          r.category == t.category && Explains(s, e, t, r.backTo, r.reason, r.category))
    && (t.gates.stepResume.Some? ==>
          var r := t.gates.stepResume.value;
          r.category == t.category && r.reason.AfterRetry? && Explains(s, e, t, r.backTo, r.reason.of, r.category))
  }

  /** What was read comes from somewhere; if nothing was, nothing parses. */
  lemma ReadingOrigin(s: State, e: Env)
    ensures Reading(s, e).Good? ==> ReadIn(s, Reading(s, e).value, e)
    ensures Reading(s, e).Bad? && CallsAgain(s, e) ==> NothingParsed(e)
  {
  }

  lemma MissingIsNotEmpty(s: State, e: Env)
    requires Reading(s, e).Good? && !PlanPattern.CoversNote(NoteText(s), Reading(s, e).value.plan)
    ensures PlanPattern.Unanswered(NoteText(s), Reading(s, e).value.plan) != {}
  {
    PlanPattern.MissingExactly(NoteText(s), Reading(s, e).value.plan);
  }

  lemma QuietExplained(s: State, e: Env, t: State)
    requires NoDescriptor(t) && !SendsBack(s, t)
    ensures Explained(s, e, t)
  {
  }

  lemma ToldIsLast(s: State, t: State, entry: Feedback)
    requires Tells(s, t, entry)
    ensures t.gates.feedback != [] && t.gates.feedback[|t.gates.feedback| - 1] == entry
  {
  }

  lemma LostExplained(s: State, e: Env, t: State, budget: int, reason: Reason, category: Option<Category>)
    requires LosesRound(s, t, budget, reason, category) && Explains(s, e, t, Step2, reason, category)
    ensures Explained(s, e, t)
  {
    if s.rounds + 1 < budget {
      ToldIsLast(s, t, Feedback(s.rounds + 2, Step2, reason, category));
    }
  }

  lemma AgainExplained(s: State, e: Env, t: State, budget: int, step: Step, reason: Reason, category: Option<Category>)
    requires Repeats(s, e, t, budget, step, reason, category)
    requires step.Step2? || step.Step4? || step.Step5?
    requires Explains(s, e, t, step, reason, category)
    ensures Explained(s, e, t)
  {
    if t.step.Escalated? {
      assert !SendsBack(s, t);
    } else if !step.Step2? {
      ToldIsLast(s, t, Feedback(s.rounds + 1, step, reason, category));
    }
  }

  lemma JudgedExplained(s: State, e: Env, t: State, budget: int, bar: int, o: Outcome)
    requires s.step.Step5? && Judges(s, e, t, budget, bar, o) && ReadIn(s, o, e)
    requires t.reviews == s.reviews + [Recorded(s.rounds + 1, o)]
    ensures Explained(s, e, t)
  {
    assert t.reviews[|t.reviews| - 1].outcome == o && |t.reviews| != |s.reviews|;
    if Terminal(t.step) && t.gates.roundsResume.None? {
      QuietExplained(s, e, t);
    } else {
      LostExplained(s, e, t, budget, Scored(o.score), o.category);
    }
  }

  lemma Step2Explained(s: State, e: Env, t: State, budget: int, bar: int)
    requires s.step.Step2? && RowFollows(s, e, t, budget, bar, Step2Fate(e))
    ensures Explained(s, e, t)
  {
    match Step2Fate(e)
    case Again(step, reason, category) => AgainExplained(s, e, t, budget, step, reason, category);
    case RoundLost(reason, category) => LostExplained(s, e, t, budget, reason, category);
    case _ => QuietExplained(s, e, t);
  }

  lemma Step3Explained(s: State, e: Env, t: State, budget: int, bar: int)
    requires s.step.Step3? && RowFollows(s, e, t, budget, bar, Step3Fate(e))
    ensures Explained(s, e, t)
  {
    if Step3Fate(e).Again? && Spent(s, Step3) {
      LostExplained(s, e, t, budget, Step3Fate(e).reason, Step3Fate(e).category);
    } else {
      QuietExplained(s, e, t);
    }
  }

  lemma Step4Explained(s: State, e: Env, t: State, budget: int, bar: int)
    requires s.step.Step4? && RowFollows(s, e, t, budget, bar, Step4Fate(e))
    ensures Explained(s, e, t)
  {
    match Step4Fate(e)
    case Again(step, reason, category) => AgainExplained(s, e, t, budget, step, reason, category);
    case _ => QuietExplained(s, e, t);
  }

  lemma ReviewExplained(s: State, e: Env, t: State, budget: int, bar: int)
    requires s.step.Step5? && RowFollows(s, e, t, budget, bar, ReviewFate(s, e)) && TablesFollow(s, e, t, ReviewFate(s, e))
    ensures Explained(s, e, t)
  {
    ReadingOrigin(s, e);
    match ReviewFate(s, e)
    case Judged(o) => JudgedExplained(s, e, t, budget, bar, o);
    case Again(step, reason, category) =>
      if reason.Step5MissingPlanIds? {
        MissingIsNotEmpty(s, e);
      }
      AgainExplained(s, e, t, budget, step, reason, category);
    case _ => QuietExplained(s, e, t);
  }

  lemma Step5Explained(s: State, e: Env, t: State, budget: int, bar: int)
    requires s.step.Step5? && RowFollows(s, e, t, budget, bar, Step5Fate(s, e)) && TablesFollow(s, e, t, Step5Fate(s, e))
    ensures Explained(s, e, t)
  {
    if AsksForReview(e) {
      ReviewExplained(s, e, t, budget, bar);
    } else {
      match Step5Fate(s, e)
      case Again(step, reason, category) => AgainExplained(s, e, t, budget, step, reason, category);
      case RoundLost(reason, category) => LostExplained(s, e, t, budget, reason, category);
      case _ => QuietExplained(s, e, t);
    }
  }

  /** Every tick: the reason and the category it leaves are those of what went wrong in it. */
  lemma TickExplained(s: State, e: Env)
    requires Inv(s) && !Terminal(s.step)
    ensures Explained(s, e, DriverTick(s, e))
  {
    var t, budget, bar := DriverTick(s, e), MaxRounds(s), Threshold(s);
    LimitsAreThese(s, budget);
    LimitsAreThese(s, bar);
    TickFollows(s, e, budget, bar);
    FollowingExplained(s, e, t, budget, bar);
  }

  lemma FollowingExplained(s: State, e: Env, t: State, budget: int, bar: int)
    requires !Terminal(s.step) && Follows(s, e, t, budget, bar)
    ensures Explained(s, e, t)
  {
    match s.step
    case Step2 => Step2Explained(s, e, t, budget, bar);
    case Step3 => Step3Explained(s, e, t, budget, bar);
    case Step4 => Step4Explained(s, e, t, budget, bar);
    case Step5 => Step5Explained(s, e, t, budget, bar);
    case _ => QuietExplained(s, e, t);
  }
}
