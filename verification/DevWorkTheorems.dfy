/** What holds in every reachable state of a DevWork: any sequence of driver ticks, cancels, reruns, continuations
    and step resumes, under any behaviour of the agent, the files and the sessions. */
module DevWorkTheorems {
  import opened Options
  import opened Reviewer
  import opened Sessions
  import opened DevWorkSpec
  import opened DevWorkInvariant
  import opened DevWorkProgress
  import opened DevWorkReasons
  import opened DevWorkSessions
  import opened DevWorkTermination
  import Json
  import PlanAudit
  import PlanPattern
  import ReviewAcceptance
  import SessionNames

  ghost predicate Reached(s: State) {
    exists cfg: Config, maxRounds: Option<int>, threshold: Option<int>, actions: seq<Action> ::
      ReachedBy(s, cfg, maxRounds, threshold, actions)
  }

  ghost predicate ReachedBy(s: State, cfg: Config, maxRounds: Option<int>, threshold: Option<int>, actions: seq<Action>) {
    var created := Create(cfg, maxRounds, threshold);
    ValidConfig(cfg) && created.Accepted? && s == Run(created.state, actions)
  }

  lemma {:induction false} RunHolds(s: State, actions: seq<Action>)
    requires Inv(s) && SessionsOk(s)
    ensures Inv(Run(s, actions)) && SessionsOk(Run(s, actions))
    decreases |actions|
  {
    if actions != [] {
      NextKeeps(s, actions[0]);
      NextHolds(s, actions[0]);
      RunHolds(Next(s, actions[0]), actions[1..]);
    }
  }

  /** Both invariants hold in every reachable state. */
  lemma ReachedHolds(s: State)
    requires Reached(s)
    ensures Inv(s) && SessionsOk(s)
  {
    var cfg: Config, maxRounds: Option<int>, threshold: Option<int>, actions: seq<Action> :|
      ReachedBy(s, cfg, maxRounds, threshold, actions);
    CreateHolds(cfg, maxRounds, threshold);
    RunHolds(Create(cfg, maxRounds, threshold).state, actions);
  }

  lemma CreatedIsReached(cfg: Config)
    requires ValidConfig(cfg)
    ensures Reached(Create(cfg, None, None).state)
  {
    assert ReachedBy(Create(cfg, None, None).state, cfg, None, None, []);
  }

  lemma ReachedNext(s: State, a: Action)
    requires Reached(s)
    ensures Reached(Next(s, a))
  {
    var cfg: Config, maxRounds: Option<int>, threshold: Option<int>, actions: seq<Action> :|
      ReachedBy(s, cfg, maxRounds, threshold, actions);
    RunOneMore(Create(cfg, maxRounds, threshold).state, actions, a);
    assert ReachedBy(Next(s, a), cfg, maxRounds, threshold, actions + [a]);
  }

  lemma {:induction false} RunOneMore(s: State, actions: seq<Action>, a: Action)
    ensures Run(s, actions + [a]) == Next(Run(s, actions), a)
    decreases |actions|
  {
    if actions == [] {
      assert ([] + [a])[1..] == [];
    } else {
      RunOneMore(Next(s, actions[0]), actions[1..], a);
      assert (actions + [a])[1..] == actions[1..] + [a];
    }
  }

  /** From any reachable state the driver reaches a terminal step within `2 + 9 * max(1, max_rounds)` ticks, at most
      452: the breaker at 600 never fires. */
  lemma DriverReachesTerminal(s: State, envs: seq<Env>, budget: int)
    requires Reached(s) && IsBudget(s, budget)
    requires |envs| >= 2 + 9 * if budget < 1 then 1 else budget
    ensures Terminal(Drive(s, envs).step)
    ensures budget <= 50 && 2 + 9 * 50 < MAX_TICKS
  {
    ReachedHolds(s);
    LimitsAreThese(s, budget);
    MeasureBound(s);
    DriverEnds(s, envs);
  }

  // ---- rounds ----

  lemma {:induction false} Pigeonhole(xs: seq<nat>, k: nat)
    requires Distinct(xs) && forall i :: 0 <= i < |xs| ==> 1 <= xs[i] <= k
    ensures |xs| <= k
    decreases k
  {
    if xs != [] {
      assert 1 <= xs[0] <= k;
      if exists i :: 0 <= i < |xs| && xs[i] == k {
        var i :| 0 <= i < |xs| && xs[i] == k;
        Pigeonhole(xs[..i] + xs[i + 1..], k - 1);
      } else {
        Pigeonhole(xs, k - 1);
      }
    }
  }

  function ReviewRounds(reviews: seq<Recorded>): (r: seq<nat>)
    ensures |r| == |reviews| && forall i :: 0 <= i < |r| ==> r[i] == reviews[i].round
  {
    seq(|reviews|, i requires 0 <= i < |reviews| => reviews[i].round)
  }

  /** The round budget: it never exceeds 50, work in progress is below it, and however often humans continue, there
      are at most 50 notes and 50 reviews. */
  lemma RoundBudget(s: State, budget: int)
    requires Reached(s) && IsBudget(s, budget)
    ensures 0 <= budget <= 50
    ensures s.rounds <= 50
    ensures !Terminal(s.step) ==> s.rounds < if budget < 1 then 1 else budget
    ensures |s.notes| <= 50 && |s.reviews| <= 50
  {
    ReachedHolds(s);
    LimitsAreThese(s, budget);
    NotesWithin(s);
    Pigeonhole(s.notes, HARD_MAX_ROUNDS);
    Pigeonhole(ReviewRounds(s.reviews), HARD_MAX_ROUNDS);
  }

  lemma NotesWithin(s: State)
    requires Inv(s)
    ensures forall i :: 0 <= i < |s.notes| ==> 1 <= s.notes[i] <= HARD_MAX_ROUNDS
    ensures forall i :: 0 <= i < |s.reviews| ==> 1 <= s.reviews[i].round <= HARD_MAX_ROUNDS
  {
    forall i | 0 <= i < |s.notes| ensures 1 <= s.notes[i] <= HARD_MAX_ROUNDS {
      assert s.notes[i] in s.notes;
    }
  }

  /** A tick by hand leaves the same round, gates, reviews, prompts and started sessions as one of the driver. */
  lemma ManualAsDriver(s: State, e: Env)
    ensures var t, u := DoManualTick(s, e), DriverTick(s, e);
            && t.rounds == u.rounds && t.gates == u.gates && t.reviews == u.reviews && t.prompts == u.prompts
            && t.pool.started == u.pool.started
  {
  }

  lemma NextRoundsGrow(s: State, a: Action)
    requires Inv(s)
    ensures s.rounds <= Next(s, a).rounds
  {
    if (a.Tick? || a.ManualTick?) && !Terminal(s.step) {
      TickDrops(s, a.env);
      ManualAsDriver(s, a.env);
    } else if a.CancelDuring? && !Terminal(s.step) {
      StoppedKeepsRow(s, a.env);
    }
  }

  /** The same row, gates, notes and reviews; the sessions, the prompts and the files of the step may differ. */
  ghost predicate SameRow(s: State, t: State) {
    && t.cfg == s.cfg && t.step == s.step && t.rounds == s.rounds && t.gates == s.gates
    && t.score == s.score && t.category == s.category && t.firstPass == s.firstPass
    && t.notes == s.notes && t.reviews == s.reviews
    && (!s.step.Step2? ==> t.noteText == s.noteText)
    && (!s.step.Step5? ==> t.artifacts == s.artifacts)
  }

  /** A handler that is stopped has moved neither the round nor the gates, and has recorded nothing. */
  lemma StoppedKeepsRow(s: State, e: Env)
    ensures SameRow(s, Stopped(s, e))
  {
    match s.step
    case Step2 => Step2KeepsRow(s, e);
    case Step5 => WaitingForReviewKeepsRow(s.(pool := CloseRole(s.pool, Session(Round(s), SessionNames.Build), e.stuck)), e);
    case _ =>
  }

  lemma Step2KeepsRow(s: State, e: Env)
    requires s.step.Step2?
    ensures SameRow(s, Waiting(s, e))
  {
  }

  lemma WaitingForReviewKeepsRow(s: State, e: Env)
    requires s.step.Step5?
    ensures SameRow(s, WaitingForReview(s, e))
  {
    var s1 := RunPreflight(s, e).0;
    assert s1 == s.(pool := s1.pool);
  }

  /** `iteration_rounds` never decreases. */
  lemma {:induction false} RoundsNeverDecrease(s: State, actions: seq<Action>)
    requires Inv(s)
    ensures s.rounds <= Run(s, actions).rounds
    decreases |actions|
  {
    if actions != [] {
      NextRoundsGrow(s, actions[0]);
      NextKeeps(s, actions[0]);
      RoundsNeverDecrease(Next(s, actions[0]), actions[1..]);
    }
  }

  // ---- notes ----

  /** INIT to Step2 have no note for their round, so the unique insert of Step2 never conflicts; Step3 to Step5 find
      their round's note as the latest, so the branches "no note" and "round mismatch" are never taken. */
  lemma NoteOfTheRound(s: State)
    requires Reached(s)
    ensures s.step.Init? || s.step.Step1? || s.step.Step2? ==> Round(s) !in s.notes
    ensures s.step.Step3? || s.step.Step4? || s.step.Step5? ==>
              s.notes != [] && Latest(s.notes) == Round(s) && Round(s) in s.noteText
    ensures Distinct(s.notes)
  {
    ReachedHolds(s);
    if s.step.Step3? || s.step.Step4? || s.step.Step5? {
      LatestNoteIsThisRounds(s);
    }
  }

  // ---- sessions ----

  /** Only the build session of the current round outlives a tick, and only in Step3 to Step5; terminal steps hold
      none. As long as every close succeeded, the cache is exactly what lives and no two sessions, a build and a
      review session in particular, ever lived at once. */
  lemma SessionDiscipline(s: State)
    requires Reached(s)
    ensures Cached(s.pool) == {} || Cached(s.pool) == {Session(Round(s), SessionNames.Build)}
    ensures !s.step.Step3? && !s.step.Step4? && !s.step.Step5? ==> Cached(s.pool) == {}
    ensures !s.pool.refused ==> Live(s.pool) == Cached(s.pool) && !s.pool.overlap
  {
    ReachedHolds(s);
    if s.pool.cache == map[] {
      assert Cached(s.pool) == {};
    } else {
      assert SessionNames.Build in s.pool.cache;
    }
  }

  // ---- reviews ----

  /** Each round has at most one review; every item of its round's note that is not cancelled, also after the note was
      patched, has a record of the review with its id; every recorded outcome is one the parser accepts. */
  lemma ReviewsCoverTheirNotes(s: State)
    requires Reached(s)
    ensures OneReviewEach(s.reviews)
    ensures forall i :: 0 <= i < |s.reviews| ==>
              && s.reviews[i].round in s.noteText
              && (forall item :: item in PlanAudit.Extract(s.noteText[s.reviews[i].round]) && !item.cancelled ==>
                    PlanPattern.Answers(s.reviews[i].outcome.plan, item.id))
              && WellFormed(s.reviews[i].outcome)
  {
    ReachedHolds(s);
    forall i | 0 <= i < |s.reviews|
      ensures PlanPattern.CoversNote(s.noteText[s.reviews[i].round], s.reviews[i].outcome.plan)
    {
      PlanPattern.MissingExactly(s.noteText[s.reviews[i].round], s.reviews[i].outcome.plan);
    }
  }

  /** At most the outcome of this tick is added to the reviews. */
  ghost predicate AddsFresh(s: State, t: State, e: Env) {
    t.reviews == s.reviews || exists o :: FromThisTick(o, e) && t.reviews == s.reviews + [Recorded(Round(s), o)]
  }

  /** A review file is there already, it parses, and it answers every active plan id of the note. */
  ghost predicate StaleReview(s: State) {
    && Round(s) in s.artifacts
    && var parsed := Parse(s.artifacts[Round(s)]);
    && parsed.Good? && PlanPattern.CoversNote(NoteText(s), parsed.value.plan)
  }

  /** What a Step5 may find at the path of its review file: nothing, unless an earlier visit of the same round was
      cancelled while its agent ran, or was ticked by hand and ended in an exception; in the second case the file does
      not parse. So a work that is only driven, retried, escalated, resumed and continued finds nothing. */
  lemma ReviewFileOnEntry(s: State)
    requires Reached(s) && s.step.Step5? && Round(s) in s.artifacts
    ensures Round(s) in s.cutOff || (Round(s) in s.cutShort && !Parse(s.artifacts[Round(s)]).Good?)
  {
    ReachedHolds(s);
  }

  /** A review recorded by a tick, of the driver or by hand, is for the current round and was parsed from what the
      agent produced in that same tick, if and only if no complete review was left at the path before. */
  lemma ReviewIsFresh(s: State)
    requires Reached(s)
    ensures (forall e :: AddsFresh(s, DriverTick(s, e), e)) <==> !(s.step.Step5? && StaleReview(s))
    ensures !(s.step.Step5? && StaleReview(s)) ==> forall e :: AddsFresh(s, DoManualTick(s, e), e)
  {
    ReachedHolds(s);
    if s.step.Step5? && StaleReview(s) {
      StaleReviewIsRecorded(s);
    } else {
      forall e ensures AddsFresh(s, DriverTick(s, e), e) && AddsFresh(s, DoManualTick(s, e), e) {
        TickAddsFresh(s, e);
      }
    }
  }

  lemma TickAddsFresh(s: State, e: Env)
    requires Inv(s) && !(s.step.Step5? && StaleReview(s))
    ensures AddsFresh(s, DriverTick(s, e), e) && AddsFresh(s, DoManualTick(s, e), e)
  {
    ManualAsDriver(s, e);
    if !Terminal(s.step) {
      TickFollowsRow(s, e);
      if FateOf(s, e).Judged? {
        ReadingOrigin(s, e);
        assert FromThisTick(FateOf(s, e).outcome, e);
      }
    }
  }

  /** Every tick of a work in progress does what the table says. */
  lemma TickFollowsRow(s: State, e: Env)
    requires Inv(s) && !Terminal(s.step)
    ensures Follows(s, e, DriverTick(s, e), MaxRounds(s), Threshold(s))
  {
    LimitsAreThese(s, MaxRounds(s));
    LimitsAreThese(s, Threshold(s));
    TickFollows(s, e, MaxRounds(s), Threshold(s));
  }

  /** An agent that ends well and writes nothing. */
  function SilentAgent(): Env {
    Env({}, true, false, Ran(0), "", Some(""), true, true, true, Found, Ran(0), false, true, true, Clean, Ran(0), Clean,
        None, Blank, true, None, Blank, true)
  }

  lemma StaleReviewIsRecorded(s: State)
    requires Inv(s) && s.step.Step5? && StaleReview(s)
    ensures !AddsFresh(s, DriverTick(s, SilentAgent()), SilentAgent())
  {
    StaleTick(s);
    StaleIsAdded(s, DriverTick(s, SilentAgent()), Parse(s.artifacts[Round(s)]).value);
  }

  lemma StaleTick(s: State)
    requires Inv(s) && s.step.Step5? && StaleReview(s)
    ensures DriverTick(s, SilentAgent()).reviews == s.reviews + [Recorded(Round(s), Parse(s.artifacts[Round(s)]).value)]
  {
    StaleFate(s);
    JudgedTick(s, SilentAgent());
  }

  lemma JudgedTick(s: State, e: Env)
    requires Inv(s) && !Terminal(s.step) && FateOf(s, e).Judged?
    ensures DriverTick(s, e).reviews == s.reviews + [Recorded(Round(s), FateOf(s, e).outcome)]
  {
    TickFollowsRow(s, e);
    JudgedRecords(s, e, DriverTick(s, e), FateOf(s, e));
  }

  lemma JudgedRecords(s: State, e: Env, t: State, fate: Fate)
    requires fate.Judged? && TablesFollow(s, e, t, fate)
    ensures t.reviews == s.reviews + [Recorded(Round(s), fate.outcome)]
  {
  }

  lemma StaleIsAdded(s: State, t: State, o: Outcome)
    requires t.reviews == s.reviews + [Recorded(Round(s), o)]
    ensures !AddsFresh(s, t, SilentAgent())
  {
    forall o' ensures !FromThisTick(o', SilentAgent()) {
      NothingFromSilence(o');
    }
    assert |t.reviews| != |s.reviews|;
  }

  lemma NothingFromSilence(o: Outcome)
    ensures !FromThisTick(o, SilentAgent())
  {
  }

  lemma StaleFate(s: State)
    requires s.step.Step5? && StaleReview(s)
    ensures FateOf(s, SilentAgent()) == Judged(Parse(s.artifacts[Round(s)]).value)
  {
    assert FileSeen(s, SilentAgent()) == Some(s.artifacts[Round(s)]);
    assert FirstReading(s, SilentAgent()) == Parse(s.artifacts[Round(s)]);
  }

  /** A first round that runs smoothly, seen before the step `step`. */
  ghost predicate Smooth(s: State, step: Step) {
    && s.step == step && s.rounds == 0 && s.artifacts == map[] && s.gates.retries == map[] && Threshold(s) == 80
    && s.notes == (if step.Step3? || step.Step4? || step.Step5? then [1] else [])
    && (step.Step3? || step.Step4? || step.Step5? ==> 1 in s.noteText && s.noteText[1] == "")
  }

  lemma SmoothStart() returns (t: State)
    ensures Reached(t) && Smooth(t, Step1)
  {
    var cfg := Config(1, None, 80);
    var s := Create(cfg, None, None).state;
    CreatedIsReached(cfg);
    t := Next(s, Tick(SilentAgent()));
    ReachedNext(s, Tick(SilentAgent()));
  }

  lemma SmoothStep(s: State, step: Step, next: Step) returns (t: State)
    requires Reached(s) && Smooth(s, step)
    requires match step
             case Step1 => next.Step2?
             case Step2 => next.Step3?
             case Step3 => next.Step4?
             case Step4 => next.Step5?
             case _ => false
    ensures Reached(t) && Smooth(t, next)
  {
    var e := SilentAgent();
    t := Next(s, Tick(e));
    ReachedNext(s, Tick(e));
    if step.Step2? {
      assert Step2Written(s, e).noteText == s.noteText[1 := ""][1 := ""];
    }
  }

  lemma SmoothToReview() returns (t: State)
    ensures Reached(t) && Smooth(t, Step5)
  {
    var s := SmoothStart();
    s := SmoothStep(s, Step1, Step2);
    s := SmoothStep(s, Step2, Step3);
    s := SmoothStep(s, Step3, Step4);
    t := SmoothStep(s, Step4, Step5);
  }

  const SAMPLE_REVIEW := Payload(Json.Obj(map["score" := Json.Int(90)]))

  /** The agent has written its review when the work is cancelled. */
  lemma SmoothCancelled(s: State) returns (t: State)
    requires Reached(s) && Smooth(s, Step5)
    ensures Reached(t) && t.step.Cancelled? && t.gates.cancelledFrom == Some(Step5) && t.rounds == 0
    ensures t.noteText == s.noteText && 1 in t.artifacts && t.artifacts[1] == SAMPLE_REVIEW
  {
    var e := SilentAgent().(artifact := Some(SAMPLE_REVIEW));
    t := Next(s, CancelDuring(e));
    ReachedNext(s, CancelDuring(e));
    StoppedKeepsRow(s, e);
    FileIsWritten(s.(pool := CloseRole(s.pool, Session(Round(s), SessionNames.Build), e.stuck)), e);
  }

  lemma FileIsWritten(s: State, e: Env)
    requires Smooth(s, Step5) && e == SilentAgent().(artifact := Some(SAMPLE_REVIEW))
    ensures WaitingForReview(s, e).artifacts == map[1 := SAMPLE_REVIEW]
  {
  }

  /** The exception of `ReviewIsFresh` does occur: a work is cancelled after its review agent has written the file, and
      rerun; if the next agent writes nothing, the old review is recorded. */
  lemma StaleReviewCanBeRecorded() returns (t: State)
    ensures Reached(t) && t.step.Step5? && StaleReview(t)
  {
    var s := SmoothToReview();
    s := SmoothCancelled(s);
    t := SmoothRerun(s);
  }

  lemma SmoothRerun(s: State) returns (t: State)
    requires Reached(s) && s.step.Cancelled? && s.gates.cancelledFrom == Some(Step5) && s.rounds == 0
    requires 1 in s.noteText && s.noteText[1] == "" && 1 in s.artifacts && s.artifacts[1] == SAMPLE_REVIEW
    ensures Reached(t) && t.step.Step5? && StaleReview(t)
  {
    t := Next(s, Rerun);
    ReachedNext(s, Rerun);
    ParsesAndCovers();
  }

  lemma ParsesAndCovers()
    ensures Parse(SAMPLE_REVIEW) == Good(Outcome(90, [], None, map[], [], [])) && PlanPattern.CoversNote("", [])
  {
    assert PlanAudit.Extract("") == [];
  }

  // ---- reviews that raise an error ----

  /** A review that makes the parser raise ends a driven work for good: ESCALATED, without a way to resume. */
  lemma EscapingReviewEndsTheWork() returns (s: State, t: State)
    ensures Reached(s) && s.step.Step5?
    ensures Reached(t) && t.step.Escalated? && t.gates.roundsResume.None? && t.gates.stepResume.None?
    ensures exists e :: t == DriverTick(s, e) && e.artifact == Some(Payload(NULL_SCORE)) && Rc(e.llm) == 0
    ensures forall a :: Next(t, a) == t
  {
    s := SmoothToReview();
    var e := SilentAgent().(artifact := Some(Payload(NULL_SCORE)));
    t := Next(s, Tick(e));
    ReachedNext(s, Tick(e));
    ReachedHolds(s);
    NullScoreRaises(s, e);
    forall a ensures Next(t, a) == t {
      FinalIsFinal(t, a);
    }
  }

  lemma NullScoreRaises(s: State, e: Env)
    requires Inv(s) && Smooth(s, Step5) && e == SilentAgent().(artifact := Some(Payload(NULL_SCORE)))
    ensures var t := DriverTick(s, e); t.step.Escalated? && t.gates.roundsResume.None? && t.gates.stepResume.None?
  {
    NullScoreFate(s, e);
    TickFollowsRow(s, e);
  }

  lemma NullScoreFate(s: State, e: Env)
    requires s.step.Step5? && e == SilentAgent().(artifact := Some(Payload(NULL_SCORE)))
    ensures FateOf(s, e) == Stuck(None)
  {
    NullScoreEscapes();
    assert Parse(Payload(NULL_SCORE)).Raise?;
    assert FirstReading(s, e).Raise?;
  }

  // ---- resuming ----

  /** The two resume descriptors never stand together and only in ESCALATED; the recorded prior step only in
      CANCELLED. */
  lemma ResumePointsExclusive(s: State)
    requires Reached(s)
    ensures s.gates.roundsResume.None? || s.gates.stepResume.None?
    ensures s.gates.roundsResume.Some? || s.gates.stepResume.Some? ==> s.step.Escalated?
    ensures s.gates.cancelledFrom.Some? <==> s.step.Cancelled?
  {
    ReachedHolds(s);
  }

  /** A step resume is possible exactly if its descriptor is there. It re-enters Step2, Step4 or Step5 of the same round
      with the same counters, budget, threshold, notes, reviews and review files, so without a retry gained, in a state
      that satisfies the whole invariant. */
  lemma StepResumeWorks(s: State)
    requires Reached(s)
    ensures DoResumeStep(s).Accepted? <==> s.gates.stepResume.Some?
    ensures s.gates.stepResume.Some? ==>
              var t, r := DoResumeStep(s).state, s.gates.stepResume.value;
              && t.step == r.backTo && (t.step.Step2? || t.step.Step4? || t.step.Step5?) && t.category == r.category
              && t.gates == s.gates.(stepResume := None, feedback := t.gates.feedback)
              && Tells(s, t, Feedback(s.rounds + 1, r.backTo, ManualResume(r.reason), r.category))
              && t == s.(step := t.step, category := t.category, gates := t.gates)
              && Inv(t) && SessionsOk(t)
  {
    ReachedHolds(s);
    NextKeeps(s, ResumeStep);
    NextHolds(s, ResumeStep);
  }

  /** A continuation is possible exactly if the work stopped at its last round, the request is well formed and the
      new budget stays within 50; it enters Step2 of the next round, which then is below the budget, and changes the
      score asked for exactly if it says so. */
  lemma ContinuationWorks(s: State, additional: int, threshold: Option<int>)
    requires Reached(s)
    ensures DoContinue(s, additional, threshold).Accepted? <==>
            && s.gates.roundsResume.Some? && additional >= 1
            && (threshold.Some? ==> 1 <= threshold.value <= 100)
            && s.rounds + additional <= 50
    ensures DoContinue(s, additional, threshold).Accepted? ==>
              var t, r := DoContinue(s, additional, threshold).state, s.gates.roundsResume.value;
              && t.step.Step2? && t.category == r.category
              && t.gates == s.gates.(
                   maxRounds := Some(s.rounds + additional), threshold := if threshold.Some? then threshold else s.gates.threshold,
                   roundsResume := None, feedback := t.gates.feedback)
              && Tells(s, t, Feedback(s.rounds + 1, Step2, r.reason, r.category))
              && t == s.(step := t.step, category := t.category, gates := t.gates)
              && Inv(t) && SessionsOk(t)
  {
    ReachedHolds(s);
    ContinuationAccepted(s, additional, threshold);
    if DoContinue(s, additional, threshold).Accepted? {
      ContinuesFrom(s, additional, threshold);
      AnswerHolds(s, Continue(additional, threshold), DoContinue(s, additional, threshold));
    }
  }

  lemma AnswerHolds(s: State, a: Action, r: Reply)
    requires Inv(s) && SessionsOk(s) && r.Accepted? && Next(s, a) == r.state
    ensures Inv(r.state) && SessionsOk(r.state)
  {
    NextKeeps(s, a);
    NextHolds(s, a);
  }

  lemma ContinuationAccepted(s: State, additional: int, threshold: Option<int>)
    requires Inv(s)
    ensures DoContinue(s, additional, threshold).Accepted? <==>
            && s.gates.roundsResume.Some? && additional >= 1
            && (threshold.Some? ==> 1 <= threshold.value <= 100)
            && s.rounds + additional <= 50
  {
  }

  lemma ContinuesFrom(s: State, additional: int, threshold: Option<int>)
    requires Inv(s) && DoContinue(s, additional, threshold).Accepted?
    ensures var t, r := DoContinue(s, additional, threshold).state, s.gates.roundsResume.value;
            && t.step.Step2? && t.category == r.category && t.rounds == s.rounds
            && t.gates == s.gates.(
                 maxRounds := Some(s.rounds + additional), threshold := if threshold.Some? then threshold else s.gates.threshold,
                 roundsResume := None, feedback := t.gates.feedback)
            && Tells(s, t, Feedback(s.rounds + 1, Step2, r.reason, r.category))
            && t == s.(step := t.step, category := t.category, gates := t.gates)
  {
  }

  /** So the limits of a continued work are those of the request. */
  lemma ContinuationLimits(s: State, additional: int, threshold: Option<int>)
    requires Reached(s) && DoContinue(s, additional, threshold).Accepted?
    ensures var t := DoContinue(s, additional, threshold).state;
            && IsBudget(t, s.rounds + additional) && s.rounds < s.rounds + additional
            && forall n :: IsBar(t, n) <==> if threshold.Some? then n == threshold.value else IsBar(s, n)
  {
    ContinuationWorks(s, additional, threshold);
  }

  /** A work can be cancelled exactly while it is in progress, and rerun exactly when it is cancelled. */
  lemma CancelAndRerunAccepted(s: State, stuck: set<Session>)
    requires Reached(s)
    ensures DoCancel(s, stuck).Accepted? <==> s.step !in {Completed, Escalated, Cancelled}
    ensures DoCancel(s, stuck).Accepted? ==>
              var t := DoCancel(s, stuck).state;
              && t.step.Cancelled? && t.gates == s.gates.(cancelledFrom := Some(s.step)) && t.pool == CloseAll(s.pool, stuck)
              && t == s.(step := t.step, gates := t.gates, pool := t.pool)
    ensures DoRerun(s).Accepted? <==> s.step == Cancelled
  {
    ReachedHolds(s);
  }

  /** Cancelling a work in progress and rerunning it undoes the cancel, but for the closed sessions; in particular
      no retry and no round is gained. */
  lemma CancelThenRerun(s: State, stuck: set<Session>)
    requires Reached(s) && !Terminal(s.step)
    ensures DoCancel(s, stuck).Accepted?
    ensures DoRerun(DoCancel(s, stuck).state) == Accepted(s.(pool := CloseAll(s.pool, stuck)))
  {
    ReachedHolds(s);
  }

  /** Cancelling a work while a handler waits for its agent, and rerunning it, repeats the step: the row, the gates,
      the notes and the reviews are as before, again without a retry or a round gained or lost. */
  lemma CancelDuringThenRerun(s: State, e: Env)
    requires Reached(s) && !Terminal(s.step)
    ensures DoCancelDuring(s, e).Accepted?
    ensures var t := DoRerun(DoCancelDuring(s, e).state); t.Accepted? && SameRow(s, t.state) && Inv(t.state)
  {
    ReachedHolds(s);
    StoppedKeepsRow(s, e);
    StoppedKeeps(s, e);
    var u := Stopped(s, e);
    CancelUndone(u, e.stuck);
    InvIgnoresPool(u, CloseAll(u.pool, e.stuck));
  }

  /** What a work leaves behind that is cancelled while its handler waits: the prompt of the step and the sessions started,
      the note of Step2 or the review file of Step5 as the agent has left it, the mark of a review cut off. */
  ghost predicate LeavesBehind(s: State, e: Env, u: State) {
    var n := s.rounds + 1;
    && u.prompts == s.prompts + NewPrompts(s, e) && u.pool.started == s.pool.started + NewSessions(s, e)
    && u.noteText == (if !s.step.Step2? || !e.ready then s.noteText
                      else if e.fault then s.noteText[n := e.header]
                      else if e.noteText.Some? then s.noteText[n := e.noteText.value]
                      else s.noteText - {n})
    && u.artifacts == (if s.step.Step5? && Asks(s, e) then Put(s.artifacts, n, FileSeen(s, e)) else s.artifacts)
    && u.cutOff == (if s.step.Step5? then s.cutOff + {n} else s.cutOff)
  }

  lemma CancelDuringLeaves(s: State, e: Env)
    requires Reached(s) && !Terminal(s.step)
    ensures DoCancelDuring(s, e).Accepted?
    ensures var t := DoCancelDuring(s, e).state;
            && t.step.Cancelled? && t.gates.cancelledFrom == Some(s.step) && t.pool.cache == map[]
            && LeavesBehind(s, e, t)
  {
    ReachedHolds(s);
    StoppedLeaves(s, e);
    StoppedKeepsRow(s, e);
  }

  lemma StoppedLeaves(s: State, e: Env)
    requires Inv(s) && SessionsOk(s) && !Terminal(s.step)
    ensures LeavesBehind(s, e, Stopped(s, e))
  {
    match s.step
    case Step2 => Step2Leaves(s, e);
    case Step3 =>
      LatestNoteIsThisRounds(s);
      Step3Leaves(s, e);
    case Step4 =>
      LatestNoteIsThisRounds(s);
      Step4Leaves(s, e);
    case Step5 =>
      LatestNoteIsThisRounds(s);
      Step5Leaves(s, e);
    case _ =>
  }

  lemma Step2Leaves(s: State, e: Env)
    requires s.step.Step2? && SessionsOk(s)
    ensures LeavesBehind(s, e, Stopped(s, e))
  {
    WrittenNote(s, e);
  }

  lemma Step3Leaves(s: State, e: Env)
    requires s.step.Step3? && s.notes != [] && SessionsOk(s)
    ensures LeavesBehind(s, e, Stopped(s, e))
  {
    if SessionNames.Build !in s.pool.cache {
      StartIs(s.pool, Session(Round(s), SessionNames.Build), e.llm, e.stuck);
    }
  }

  lemma Step4Leaves(s: State, e: Env)
    requires s.step.Step4? && s.notes != [] && SessionsOk(s)
    ensures LeavesBehind(s, e, Stopped(s, e))
  {
    var cold := s.(pool := CloseRole(s.pool, Session(Round(s), SessionNames.Build), e.stuck));
    StartIs(cold.pool, Session(Round(s), SessionNames.Build), e.llm, e.stuck);
  }

  lemma Step5Leaves(s: State, e: Env)
    requires s.step.Step5? && NoDescriptor(s) && RetriesOk(s.gates.retries, Round(s)) && SessionsOk(s)
    requires s.notes != [] && Latest(s.notes) == Round(s) && Round(s) in s.noteText
    ensures LeavesBehind(s, e, Stopped(s, e))
  {
    var cold := s.(pool := CloseRole(s.pool, Session(Round(s), SessionNames.Build), e.stuck));
    if e.ready && e.noteReadable {
      PreflightIs(cold, e);
      var u := RunPreflight(cold, e).0;
      if AsksForReview(e) {
        ReviewAsked(s, e, u);
        FileIsPut(s, e, Opened(AddPrompt(u, HandlerFeedback(u)), SessionNames.Review, e.llm, e.stuck));
      }
    }
  }

  lemma FileIsPut(s: State, e: Env, u: State)
    requires u.rounds == s.rounds && u.artifacts == s.artifacts
    ensures Written(u, e.artifact) == u.(artifacts := Put(s.artifacts, Round(s), FileSeen(s, e)))
  {
  }

  lemma CancelUndone(s: State, stuck: set<Session>)
    requires !Terminal(s.step) && s.gates.cancelledFrom.None?
    ensures DoCancel(s, stuck).Accepted?
    ensures DoRerun(DoCancel(s, stuck).state) == Accepted(s.(pool := CloseAll(s.pool, stuck)))
  {
  }

  /** A completed work, and an escalated one without a resume descriptor, never changes again. */
  lemma FinalIsFinal(s: State, a: Action)
    requires Reached(s)
    requires s.step.Completed? || (s.step.Escalated? && s.gates.roundsResume.None? && s.gates.stepResume.None?)
    ensures Next(s, a) == s
  {
  }

  /** A new round starts with all its retries, whether it was reached by a tick or by a continuation. */
  lemma NewRoundHasAllRetries(s: State, a: Action, step: Step)
    requires Reached(s)
    ensures var t := Next(s, a);
            !Terminal(t.step) && (t.rounds > s.rounds || (a.Continue? && s.step.Escalated?)) ==> Attempts(t, step) == 0
  {
    ReachedHolds(s);
    if (a.Tick? || a.ManualTick?) && !Terminal(s.step) {
      TickStartsFresh(s, a.env, step);
    } else if a.Continue? {
      ContinuationStartsFresh(s, a.additional, a.threshold, step);
    }
  }

  lemma TickStartsFresh(s: State, e: Env, step: Step)
    requires Inv(s) && !Terminal(s.step)
    ensures DriverTick(s, e).rounds > s.rounds ==> Attempts(DriverTick(s, e), step) == 0
    ensures DoManualTick(s, e).rounds > s.rounds ==> Attempts(DoManualTick(s, e), step) == 0
  {
    TickDrops(s, e);
    ManualAsDriver(s, e);
  }

  lemma ContinuationStartsFresh(s: State, additional: int, threshold: Option<int>, step: Step)
    requires Inv(s)
    ensures var r := DoContinue(s, additional, threshold); r.Accepted? ==> Attempts(r.state, step) == 0
  {
  }

  // ---- completion ----

  /** COMPLETED rests on a review of the current round without a category and with a score at the bar; if the review
      carries a breakdown, the plan score and the actual score both reach the bar. The bar is the override of the row, else
      the threshold of the document, else the default. The first-pass mark is set exactly if no round was burnt. */
  lemma CompletionIsSound(s: State, bar: int)
    requires Reached(s) && s.step.Completed? && IsBar(s, bar)
    ensures s.reviews != []
    ensures var last := s.reviews[|s.reviews| - 1];
            && last.round == Round(s) && last.outcome.category.None?
            && s.score == Some(last.outcome.score) && bar <= last.outcome.score <= 100
            && (last.outcome.breakdown != map[] ==>
                  && BreakdownHolds(last.outcome)
                  && bar <= last.outcome.breakdown["plan_score_a"].n
                  && bar <= last.outcome.breakdown["actual_score_b"].n)
    ensures s.firstPass == Some(s.rounds == 0)
  {
    ReachedHolds(s);
    LimitsAreThese(s, bar);
  }

  /** The rule of Step5 on the state `t` that the tick described by `e` makes of `s`. Without a new review the work is
      not completed. With one, and with the note patched, it is completed exactly if the score reaches the bar and there is
      no category; a gap ends the round; anything else escalates. */
  ghost predicate Decides(s: State, e: Env, t: State, budget: int, bar: int) {
    if t.reviews == s.reviews then !t.step.Completed?
    else
      && t.reviews != []
      && var o := t.reviews[|t.reviews| - 1].outcome;
      if !e.patched then t.step.Escalated? && t.rounds == s.rounds
      else if o.score >= bar && o.category.None? then t.step.Completed? && t.rounds == s.rounds
      else if o.category == Some(ReqGap) || o.category == Some(ImplGap) then
        t.rounds == s.rounds + 1 && (if s.rounds + 1 < budget then t.step.Step2? else t.step.Escalated?)
      else t.step.Escalated? && t.rounds == s.rounds
  }

  /** When a driver tick completes a work: exactly if it records a review, patches the note, and the review has a score at
      the bar and no category; a gap ends the round, and any other review escalates. */
  lemma CompletionIsExact(s: State, e: Env, budget: int, bar: int)
    requires Reached(s) && !Terminal(s.step) && IsBudget(s, budget) && IsBar(s, bar)
    ensures Decides(s, e, DriverTick(s, e), budget, bar)
    ensures var t := DriverTick(s, e);
            t.step.Completed? <==>
            && t.reviews != s.reviews && t.reviews != [] && e.patched
            && var o := t.reviews[|t.reviews| - 1].outcome;
            && o.score >= bar && o.category.None?
  {
    ReachedHolds(s);
    TickFollows(s, e, budget, bar);
    FollowingDecides(s, e, DriverTick(s, e), budget, bar);
  }

  lemma FollowingDecides(s: State, e: Env, t: State, budget: int, bar: int)
    requires !Terminal(s.step) && Follows(s, e, t, budget, bar)
    ensures Decides(s, e, t, budget, bar)
  {
    FatesAre(s, e);
    match FateOf(s, e)
    case Judged(o) => JudgingDecides(s, e, t, budget, bar, o);
    case _ =>
  }

  lemma JudgingDecides(s: State, e: Env, t: State, budget: int, bar: int, o: Outcome)
    requires Judges(s, e, t, budget, bar, o) && t.reviews == s.reviews + [Recorded(s.rounds + 1, o)]
    ensures Decides(s, e, t, budget, bar)
  {
    assert t.reviews[|t.reviews| - 1].outcome == o && |t.reviews| != |s.reviews|;
  }

  // ---- progress ----

  /** A driver tick of a work in progress: what happened in it decides the next step, the round, the retries, the reason
      recorded, the descriptors, the tables, the files, the prompt and the sessions started. */
  lemma TickIsExact(s: State, e: Env, budget: int, bar: int)
    requires Reached(s) && !Terminal(s.step) && IsBudget(s, budget) && IsBar(s, bar)
    ensures Follows(s, e, DriverTick(s, e), budget, bar)
  {
    ReachedHolds(s);
    TickFollows(s, e, budget, bar);
  }

  /** The handler of the current step is left by an exception. */
  ghost predicate Raises(s: State, e: Env) {
    match s.step
    case Step2 => e.ready && e.fault
    case Step3 => e.fault
    case Step4 => e.fault
    case Step5 => e.ready && e.noteReadable && Worktrees(e).Clean? && (e.fault || Reading(s, e).Raise?)
    case _ => false
  }

  /** A tick by hand is one of the driver unless its handler raises; then it leaves the step, the row and the gates as they
      were, and remembers the round. */
  lemma ManualTickIsExact(s: State, e: Env)
    requires Reached(s) && !Terminal(s.step)
    ensures !Raises(s, e) ==> DoManualTick(s, e) == DriverTick(s, e)
    ensures Raises(s, e) ==>
              var t, u := DoManualTick(s, e), DriverTick(s, e);
              && t.step == s.step && t.category == s.category && t.cutShort == s.cutShort + {s.rounds + 1}
              && u.step == Escalated && u.category == None
              && t == u.(step := t.step, category := t.category, cutShort := t.cutShort, pool := t.pool)
              && u.gates == s.gates && u.rounds == s.rounds && u.notes == s.notes && u.reviews == s.reviews
  {
    ReachedHolds(s);
    RaisingIs(s, e);
    if Raises(s, e) {
      RaisedStops(s, e);
    }
  }

  lemma RaisedStops(s: State, e: Env)
    requires Inv(s) && !Terminal(s.step) && Raises(s, e)
    ensures var u := DriverTick(s, e);
            && u.step == Escalated && u.category == None && u.cutShort == s.cutShort
            && u.rounds == s.rounds && u.notes == s.notes && u.reviews == s.reviews
  {
    TickFollowsRow(s, e);
    RaisedFate(s, e);
  }

  lemma RaisedFate(s: State, e: Env)
    requires Raises(s, e)
    ensures FateOf(s, e) == Stuck(None)
  {
  }

  lemma RaisingIs(s: State, e: Env)
    requires Inv(s) && !Terminal(s.step)
    ensures Handle(s, e).Raised? <==> Raises(s, e)
    ensures Handle(s, e).Raised? ==>
              var t := Handle(s, e).state;
              && t.step == s.step && t.category == s.category && t.cutShort == s.cutShort && t.gates == s.gates
  {
    match s.step
    case Step3 => LatestNoteIsThisRounds(s);
    case Step4 => LatestNoteIsThisRounds(s);
    case Step5 =>
      LatestNoteIsThisRounds(s);
      Step5Raising(s, e, s.(pool := CloseRole(s.pool, Session(Round(s), SessionNames.Build), e.stuck)));
    case _ =>
  }

  lemma Step5Raising(s: State, e: Env, u: State)
    requires s.step.Step5? && u == s.(pool := u.pool)
    requires s.notes != [] && Latest(s.notes) == Round(s) && Round(s) in s.noteText
    ensures var h := Step5Body(u, e);
            && (h.Raised? <==> Raises(s, e))
            && (h.Raised? ==> h.state == s.(pool := h.state.pool, prompts := h.state.prompts, artifacts := h.state.artifacts))
  {
    if e.ready && e.noteReadable {
      PreflightIs(u, e);
      var u1 := RunPreflight(u, e).0;
      if AsksForReview(e) {
        ReviewRaising(s, e, Opened(AddPrompt(u1, HandlerFeedback(u1)), SessionNames.Review, e.llm, e.stuck));
      }
    }
  }

  lemma ReviewRaising(s: State, e: Env, u: State)
    requires u == s.(pool := u.pool, prompts := u.prompts)
    ensures var h := JudgeReview(u, e);
            && (h.Raised? <==> Reading(s, e).Raise?)
            && (h.Raised? ==> h.state == s.(pool := h.state.pool, prompts := h.state.prompts, artifacts := h.state.artifacts))
  {
    FirstReadingIs(s, e, u);
    if CallsAgain(s, e) && Succeeded(e.llm) {
      SecondRaising(s, e, WithArtifact(u, FirstFile(s, e)));
    }
  }

  lemma SecondRaising(s: State, e: Env, u: State)
    requires Succeeded(e.llm) && FirstReading(s, e).Bad?
    requires u == s.(pool := u.pool, prompts := u.prompts, artifacts := u.artifacts)
    requires u.artifacts == Put(s.artifacts, Round(s), FirstFile(s, e))
    ensures var h := RepairReview(u, e);
            && (h.Raised? <==> SecondReading(s, e).Raise?)
            && (h.Raised? ==> h.state == s.(pool := h.state.pool, prompts := h.state.prompts, artifacts := h.state.artifacts))
  {
    var u1 := Written(Opened(u, SessionNames.Review, e.repair, e.stuck), e.artifactAgain);
    assert FirstFile(s, e) == FileSeen(s, e);
    assert ArtifactOf(u1) == FileSeenAgain(s, e);
    ReadingIs(FileSeenAgain(s, e), e.stdoutAgain);
  }

  /** When a work moves on to its next step. */
  lemma ForwardExactly(s: State, e: Env)
    requires Reached(s)
    ensures s.step == Init ==> (DriverTick(s, e).step == Step1 <==> e.ready)
    ensures s.step == Step1 ==> (DriverTick(s, e).step == Step2 <==> e.ready)
    ensures s.step == Step2 ==>
              (DriverTick(s, e).step == Step3 <==>
                 e.ready && !e.fault && e.llm == Ran(0) && e.noteText.Some? && e.headings && e.indexed)
    ensures s.step == Step3 ==> (DriverTick(s, e).step == Step4 <==> !e.fault && e.llm == Ran(0) && e.contextWritten)
    ensures s.step == Step4 ==>
              (DriverTick(s, e).step == Step5 <==>
                 && !e.fault && e.llm == Ran(0)
                 && (|| e.findings == Found
                     || ((e.findings == Missing || e.findings == Invalid) && e.repair == Ran(0) && e.repaired)))
  {
    if !Terminal(s.step) && !s.step.Step5? {
      ReachedHolds(s);
      TickMoves(s, e);
    }
  }

  lemma TickMoves(s: State, e: Env)
    requires Inv(s) && !Terminal(s.step) && !s.step.Step5?
    ensures DriverTick(s, e).step == After(s.step) <==> FateOf(s, e) == Forward(After(s.step))
  {
    TickFollowsRow(s, e);
    FateMoves(s, e, DriverTick(s, e), MaxRounds(s), Threshold(s));
  }

  function After(step: Step): Step {
    match step
    case Init => Step1
    case Step1 => Step2
    case Step2 => Step3
    case Step3 => Step4
    case _ => Step5
  }

  lemma FateMoves(s: State, e: Env, t: State, budget: int, bar: int)
    requires !Terminal(s.step) && !s.step.Step5? && RowFollows(s, e, t, budget, bar, FateOf(s, e))
    ensures t.step == After(s.step) <==> FateOf(s, e) == Forward(After(s.step))
  {
    FatesAre(s, e);
  }

  /** A tick starts a new session for every agent it asks, so no agent remembers another step; only the second try of
      Step3 goes on in the session of the first. */
  lemma AgentsStartCold(s: State, e: Env)
    requires Reached(s) && !Terminal(s.step)
    ensures DriverTick(s, e).pool.started == DoManualTick(s, e).pool.started == s.pool.started + NewSessions(s, e)
  {
    ReachedHolds(s);
    TickFollowsRow(s, e);
    ManualAsDriver(s, e);
  }

  /** The build session is there after the tick: Step3 has found or started one and did not give the round up, or Step4
      has delivered its findings. */
  ghost predicate KeepsBuild(s: State, e: Env, t: State) {
    match s.step
    case Step3 => !e.fault && (t.step.Step3? || t.step.Step4?) && (SessionNames.Build in s.pool.cache || e.llm.Ran?)
    case Step4 => t.step.Step5?
    case _ => false
  }

  /** What a driver tick leaves in the cache: the build session of the round, exactly in those cases, or nothing. */
  lemma SessionsLeft(s: State, e: Env)
    requires Reached(s) && !Terminal(s.step)
    ensures var t := DriverTick(s, e);
            t.pool.cache == if KeepsBuild(s, e, t) then map[SessionNames.Build := s.rounds + 1] else map[]
  {
    ReachedHolds(s);
    match s.step
    case Step2 => Step2Closes(s, e);
    case Step3 =>
      LatestNoteIsThisRounds(s);
      Step3SessionsLeft(s, e);
    case Step4 =>
      LatestNoteIsThisRounds(s);
      Step4SessionsLeft(s, e);
    case Step5 => Step5Closes(s, e);
    case _ =>
  }

  lemma Step3SessionsLeft(s: State, e: Env)
    requires s.step.Step3? && s.notes != [] && SessionsOk(s)
    ensures var t := DriverTick(s, e);
            t.pool.cache == if KeepsBuild(s, e, t) then map[SessionNames.Build := s.rounds + 1] else map[]
  {
    var build := Session(Round(s), SessionNames.Build);
    if !e.fault {
      if SessionNames.Build !in s.pool.cache {
        StartIs(s.pool, build, e.llm, e.stuck);
      }
      var u := Opened(AddPrompt(s, []), SessionNames.Build, e.llm, e.stuck);
      StartKeeps(s.pool, build, e.llm, e.stuck);
      BurnRoundCloses(u, Step3FailedTwice(Rc(e.llm)), Some(ReqGap), e.stuck, build);
      BurnIsNoStep3(u, Step3FailedTwice(Rc(e.llm)), e.stuck);
    }
  }

  lemma BurnIsNoStep3(u: State, reason: Reason, stuck: set<Session>)
    ensures var t := BurnRound(u, Step2, reason, Some(ReqGap), stuck); t.step.Step2? || t.step.Escalated?
  {
  }

  lemma Step4SessionsLeft(s: State, e: Env)
    requires s.step.Step4? && s.notes != [] && SessionsOk(s)
    ensures var t := DriverTick(s, e);
            t.pool.cache == if KeepsBuild(s, e, t) then map[SessionNames.Build := s.rounds + 1] else map[]
  {
    var build := Session(Round(s), SessionNames.Build);
    var cold := s.(pool := CloseRole(s.pool, build, e.stuck));
    CloseRoleKeeps(s.pool, build, e.stuck);
    if !e.fault {
      StartIs(cold.pool, build, e.llm, e.stuck);
      StartKeeps(cold.pool, build, e.llm, e.stuck);
      DevelopedLeaves(Opened(AddPrompt(cold, HandlerFeedback(cold)), SessionNames.Build, e.llm, e.stuck), e);
    }
  }

  lemma DevelopedLeaves(u: State, e: Env)
    requires u.step.Step4? && OnlyCaches(u.pool, Session(Round(u), SessionNames.Build))
    requires e.llm.Ran? ==> SessionNames.Build in u.pool.cache
    ensures var t := Step4Accept(u, e);
            t.pool.cache == if t.step.Step5? then map[SessionNames.Build := u.rounds + 1] else map[]
  {
    var build := Session(Round(u), SessionNames.Build);
    RetryStep4Closes(u, Step4Rc(Rc(e.llm)), Some(ImplGap), e, build);
    var u1 := if e.findings.Missing? || e.findings.Invalid? then Opened(u, SessionNames.Build, e.repair, e.stuck) else u;
    StartKeeps(u.pool, build, e.repair, e.stuck);
    RetryStep4Closes(u1, FindingsReason(FindingsAfterRepair(e)), Some(ImplGap), e, build);
  }

  /** A new work is created exactly if the rounds asked for are within the configuration; it starts at INIT of round 1,
      with the rounds and the score asked for, else those of the configuration and the document. */
  lemma CreationIsExact(cfg: Config, maxRounds: Option<int>, threshold: Option<int>)
    requires ValidConfig(cfg)
    ensures Create(cfg, maxRounds, threshold).Accepted? <==> maxRounds.None? || 0 <= maxRounds.value <= cfg.maxRounds
    ensures Create(cfg, maxRounds, threshold).Accepted? ==>
              var t := Create(cfg, maxRounds, threshold).state;
              && t.cfg == cfg && t.step == Init && t.rounds == 0 && t.score == None && t.category == None
              && t.notes == [] && t.reviews == [] && t.artifacts == map[] && t.pool.cache == map[]
              && IsBudget(t, if maxRounds.Some? then maxRounds.value else cfg.maxRounds)
              && (Percent(threshold) ==> IsBar(t, threshold.value))
              && (!Percent(threshold) ==>
                    forall n :: IsBar(t, n) <==>
                                if Percent(cfg.docThreshold) then n == cfg.docThreshold.value else n == cfg.defaultThreshold)
              && Inv(t) && SessionsOk(t) && Reached(t)
  {
    if Create(cfg, maxRounds, threshold).Accepted? {
      CreateHolds(cfg, maxRounds, threshold);
      assert ReachedBy(Create(cfg, maxRounds, threshold).state, cfg, maxRounds, threshold, []);
    }
  }

  /** What is taken for a review: JSON that `Accepts` admits, with that outcome; what makes the parser raise: something
      that cannot be loaded, and the JSON that `Escapes` lists. */
  lemma ParseExactly(output: Output, o: Outcome)
    ensures Parse(output) == Good(o) <==> output.Payload? && ReviewAcceptance.Accepts(output.json, o)
    ensures Parse(output).Raise? <==> output.Unloadable? || (output.Payload? && Escapes(output.json))
  {
    if output.Payload? {
      ReviewAcceptance.AcceptsExactly(output.json, o);
      RaisesExactly(output.json);
    }
  }

  /** A work is completed in its first round. */
  lemma CompletionCanHappen() returns (t: State)
    ensures Reached(t) && t.step.Completed? && t.firstPass == Some(true)
  {
    var s := SmoothToReview();
    ReachedHolds(s);
    t := SmoothEnd(s);
    ReachedHolds(t);
  }

  lemma SmoothEnd(s: State) returns (t: State)
    requires Reached(s) && Inv(s) && Smooth(s, Step5)
    ensures Reached(t) && t.step.Completed? && t.rounds == 0
  {
    var e := SilentAgent().(artifact := Some(SAMPLE_REVIEW));
    SmoothReview(s, e);
    ReachedNext(s, Tick(e));
    t := Next(s, Tick(e));
  }

  lemma SmoothReview(s: State, e: Env)
    requires Inv(s) && Smooth(s, Step5) && Threshold(s) <= 90 && e == SilentAgent().(artifact := Some(SAMPLE_REVIEW))
    ensures DriverTick(s, e).step.Completed? && DriverTick(s, e).rounds == s.rounds
  {
    SmoothFate(s, e);
    TickFollowsRow(s, e);
  }

  lemma SmoothFate(s: State, e: Env)
    requires Smooth(s, Step5) && e == SilentAgent().(artifact := Some(SAMPLE_REVIEW))
    ensures FateOf(s, e) == Judged(Outcome(90, [], None, map[], [], []))
  {
    ParsesAndCovers();
    assert FirstReading(s, e) == Parse(SAMPLE_REVIEW);
  }

  // ---- send-back reasons ----

  lemma {:induction false} FeedbackForHas(entries: seq<Feedback>, entry: Feedback)
    requires entry in entries
    ensures entry in FeedbackFor(entries, entry.round, entry.backTo)
  {
    if entry != entries[0] {
      FeedbackForHas(entries[1..], entry);
    }
  }

  /** A tick of the driver, or one by hand whose handler returns. */
  predicate Returns(s: State, a: Action) {
    a.Tick? || (a.ManualTick? && Handle(s, a.env).Done?)
  }

  predicate ByHuman(s: State, a: Action) {
    (a.Continue? || a.ResumeStep?) && s.step.Escalated?
  }

  /** A reason recorded for the current round and step is read, except by Step2 of round 1. */
  lemma ReasonIsRead(t: State, entry: Feedback)
    requires entry in t.gates.feedback && entry.round == Round(t) && entry.backTo == t.step
    requires t.step.Step2? || t.step.Step4? || t.step.Step5?
    ensures entry in HandlerFeedback(t) <==> !(t.step.Step2? && t.rounds == 0)
  {
    FeedbackForHas(t.gates.feedback, entry);
  }

  lemma TickSendsBackTo(s: State, e: Env)
    requires Inv(s) && !Terminal(s.step) && SendsBack(s, DriverTick(s, e))
    ensures ToldLast(s, DriverTick(s, e))
  {
    TickDrops(s, e);
  }

  lemma HumanSendsBackTo(s: State, a: Action)
    requires Inv(s) && ByHuman(s, a) && !Terminal(Next(s, a).step)
    ensures var t := Next(s, a);
            && ToldLast(s, t)
            && var last := t.gates.feedback[|t.gates.feedback| - 1];
            && last.category == t.category
            && (a.ResumeStep? ==>
                  var r := s.gates.stepResume.value; last.reason == ManualResume(r.reason) && last.category == r.category)
            && (a.Continue? ==>
                  var r := s.gates.roundsResume.value; last.reason == r.reason && last.category == r.category)
  {
    if a.Continue? {
      ContinueSendsBackTo(s, a.additional, a.threshold);
    }
  }

  lemma ContinueSendsBackTo(s: State, additional: int, threshold: Option<int>)
    requires Inv(s) && s.step.Escalated? && DoContinue(s, additional, threshold).Accepted?
    ensures var t, r := DoContinue(s, additional, threshold).state, s.gates.roundsResume.value;
            && ToldLast(s, t)
            && var last := t.gates.feedback[|t.gates.feedback| - 1];
            && last.reason == r.reason && last.category == r.category == t.category
  {
    ContinuesFrom(s, additional, threshold);
    var r := s.gates.roundsResume.value;
    TellsLast(s, DoContinue(s, additional, threshold).state, Feedback(s.rounds + 1, Step2, r.reason, r.category));
  }

  /** A tick that stops the work with a resume descriptor leaves in it what went wrong. */
  lemma DescriptorIsExplained(s: State, e: Env)
    requires Reached(s) && !Terminal(s.step)
    ensures var t := DriverTick(s, e);
            && (t.gates.roundsResume.Some? ==>
                  var r := t.gates.roundsResume.value; Explains(s, e, t, r.backTo, r.reason, r.category))
            && (t.gates.stepResume.Some? ==>
                  var r := t.gates.stepResume.value;
                  r.reason.AfterRetry? && Explains(s, e, t, r.backTo, r.reason.of, r.category))
  {
    ReachedHolds(s);
    TickExplained(s, e);
  }

  /** Every action that sends the work back records one reason, for exactly the round and the step that run next,
      despite the cap of 50 entries: what went wrong in the tick, or what the descriptor holds. The handler that runs
      next reads it, unless it is Step2 of round 1. */
  lemma SendBackIsRead(s: State, a: Action)
    requires Reached(s) && !Terminal(Next(s, a).step)
    requires ByHuman(s, a) || (Returns(s, a) && SendsBack(s, Next(s, a)))
    ensures var t := Next(s, a);
            && ToldLast(s, t)
            && var last := t.gates.feedback[|t.gates.feedback| - 1];
            && (last in HandlerFeedback(t) <==> !(t.step.Step2? && t.rounds == 0))
            && last.category == t.category
            && (Returns(s, a) ==> Explains(s, a.env, t, t.step, last.reason, last.category))
            && (a.ResumeStep? ==>
                  var r := s.gates.stepResume.value; last.reason == ManualResume(r.reason) && last.category == r.category)
            && (a.Continue? ==>
                  var r := s.gates.roundsResume.value; last.reason == r.reason && last.category == r.category)
  {
    ReachedHolds(s);
    var t := Next(s, a);
    if Returns(s, a) {
      assert t == DriverTick(s, a.env);
      assert !Terminal(s.step);
      TickExplained(s, a.env);
      TickSendsBackTo(s, a.env);
    } else {
      HumanSendsBackTo(s, a);
    }
    ReasonIsRead(t, t.gates.feedback[|t.gates.feedback| - 1]);
  }

  /** An outside world in which everything is at hand and the agent fails. */
  function FailingAgent(): Env {
    Env({}, true, false, Ran(1), "", None, true, true, true, Missing, Ran(1), false, true, true, Clean, Ran(1), Clean,
        None, Blank, true, None, Blank, true)
  }

  /** Planning fails twice in the first round. */
  lemma PlanningFailsTwice() returns (t: State)
    ensures Reached(t) && t.step.Escalated? && t.rounds == 0
    ensures t.gates.stepResume == Some(StepResume(Step2, AfterRetry(Step2Rc(1)), Some(ReqGap), 1))
  {
    var s := SmoothStart();
    s := SmoothStep(s, Step1, Step2);
    var tick := Tick(FailingAgent());
    var again := FailsOnce(s);
    t := Next(again, tick);
    ReachedNext(again, tick);
  }

  lemma FailsOnce(s: State) returns (t: State)
    requires Reached(s) && Smooth(s, Step2)
    ensures Reached(t) && t.step.Step2? && t.rounds == 0 && Tries(t.gates.retries, Step2, 1) == 1
  {
    t := Next(s, Tick(FailingAgent()));
    ReachedNext(s, Tick(FailingAgent()));
  }

  /** The exception of `SendBackIsRead` does occur: planning fails twice in round 1, the work is resumed by hand, and
      Step2 does not get to see why. */
  lemma ManualReasonCanBeLost() returns (t: State)
    ensures Reached(t) && t.step.Step2? && HandlerFeedback(t) == []
    ensures Feedback(1, Step2, ManualResume(AfterRetry(Step2Rc(1))), Some(ReqGap)) in t.gates.feedback && Round(t) == 1
  {
    var s := PlanningFailsTwice();
    t := Next(s, ResumeStep);
    ReachedNext(s, ResumeStep);
    assert t.gates.feedback[|t.gates.feedback| - 1] == Feedback(1, Step2, ManualResume(AfterRetry(Step2Rc(1))), Some(ReqGap));
  }

  predicate IsFor(entry: Feedback, round: nat, step: Step) {
    entry.round == round && entry.backTo == step
  }

  /** `picked` are the entries from the place `from` on for the round and the step, all of them and in their order; `at` are
      their places. */
  ghost predicate Picks(entries: seq<Feedback>, from: nat, round: nat, step: Step, picked: seq<Feedback>, at: seq<nat>) {
    && |at| == |picked|
    && (forall i :: 0 <= i < |at| ==> from <= at[i] < |entries| && picked[i] == entries[at[i]])
    && (forall i, j :: 0 <= i < j < |at| ==> at[i] < at[j])
    && (forall k: nat :: from <= k < |entries| ==> (k in at <==> IsFor(entries[k], round, step)))
  }

  lemma {:induction false} FeedbackForPicks(entries: seq<Feedback>, from: nat, round: nat, step: Step) returns (at: seq<nat>)
    requires from <= |entries|
    ensures Picks(entries, from, round, step, FeedbackFor(entries[from..], round, step), at)
    decreases |entries| - from
  {
    if from == |entries| {
      at := [];
    } else {
      at := FeedbackForPicks(entries, from + 1, round, step);
      assert entries[from..][1..] == entries[from + 1..] && entries[from..][0] == entries[from];
      var rest := FeedbackFor(entries[from + 1..], round, step);
      if IsFor(entries[from], round, step) {
        TakesOne(entries, from, round, step, rest, at);
        at := [from] + at;
      } else {
        SkipsOne(entries, from, round, step, rest, at);
        assert [] + rest == rest;
      }
    }
  }

  lemma SkipsOne(entries: seq<Feedback>, from: nat, round: nat, step: Step, picked: seq<Feedback>, at: seq<nat>)
    requires from < |entries| && Picks(entries, from + 1, round, step, picked, at) && !IsFor(entries[from], round, step)
    ensures Picks(entries, from, round, step, picked, at)
  {
  }

  lemma TakesOne(entries: seq<Feedback>, from: nat, round: nat, step: Step, picked: seq<Feedback>, at: seq<nat>)
    requires from < |entries| && Picks(entries, from + 1, round, step, picked, at) && IsFor(entries[from], round, step)
    ensures Picks(entries, from, round, step, [entries[from]] + picked, [from] + at)
  {
    var at', picked' := [from] + at, [entries[from]] + picked;
    forall i | 0 <= i < |at'| ensures from <= at'[i] < |entries| && picked'[i] == entries[at'[i]] {
      assert i > 0 ==> at'[i] == at[i - 1] && picked'[i] == picked[i - 1];
    }
    forall i, j | 0 <= i < j < |at'| ensures at'[i] < at'[j] {
      assert at'[j] == at[j - 1] && (i > 0 ==> at'[i] == at[i - 1]);
    }
  }

  ghost predicate AllFor(entries: seq<Feedback>, round: nat, step: Step, picked: seq<Feedback>) {
    exists at :: Picks(entries, 0, round, step, picked, at)
  }

  /** The reasons that belong into a prompt: all those for its round and step, in order; none for Step3, and none for Step2
      of round 1. */
  ghost predicate ReasonsIn(s: State, reasons: seq<Feedback>) {
    if s.step.Step3? || (s.step.Step2? && s.rounds == 0) then reasons == []
    else AllFor(s.gates.feedback, s.rounds + 1, s.step, reasons)
  }

  /** A tick of the driver or by hand writes one step prompt, for the current step and round and with exactly the reasons
      on record for them, if and only if the handler comes to ask its agent; otherwise it writes none. */
  lemma PromptCarriesReasons(s: State, e: Env)
    requires Reached(s)
    ensures DriverTick(s, e).prompts == DoManualTick(s, e).prompts ==
            s.prompts + if Asks(s, e) then [Prompt(s.step, s.rounds + 1, HandlerFeedback(s))] else []
    ensures Asks(s, e) ==> ReasonsIn(s, HandlerFeedback(s))
  {
    ReachedHolds(s);
    ManualAsDriver(s, e);
    HandlerReads(s, e);
    TickWrites(s, e);
  }

  lemma TickWrites(s: State, e: Env)
    requires Inv(s)
    ensures DriverTick(s, e).prompts == s.prompts + NewPrompts(s, e)
  {
    if !Terminal(s.step) {
      TickFollowsRow(s, e);
    } else {
      assert DriverTick(s, e) == s && NewPrompts(s, e) == [];
    }
  }

  lemma HandlerReads(s: State, e: Env)
    ensures Asks(s, e) ==> ReasonsIn(s, HandlerFeedback(s))
  {
    var at := FeedbackForPicks(s.gates.feedback, 0, s.rounds + 1, s.step);
    assert s.gates.feedback[0..] == s.gates.feedback;
  }

  /** The reason of a send-back stands in the prompt of the tick that follows, if that tick comes to ask its agent and
      the step is not Step2 of round 1; in that case alone it does not. */
  lemma ReasonReachesThePrompt(s: State, a: Action, e: Env)
    requires Reached(s) && !Terminal(Next(s, a).step)
    requires ByHuman(s, a) || (Returns(s, a) && SendsBack(s, Next(s, a)))
    requires Asks(Next(s, a), e)
    ensures var t, u := Next(s, a), DriverTick(Next(s, a), e);
            && |u.prompts| == |t.prompts| + 1 && t.prompts <= u.prompts && t.gates.feedback != []
            && var prompt := u.prompts[|t.prompts|];
            && prompt.step == t.step && prompt.round == Round(t)
            && (t.gates.feedback[|t.gates.feedback| - 1] in prompt.feedback <==> !(t.step.Step2? && t.rounds == 0))
  {
    SendBackIsRead(s, a);
    ReachedNext(s, a);
    PromptCarriesReasons(Next(s, a), e);
  }
}
