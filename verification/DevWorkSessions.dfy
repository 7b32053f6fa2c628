/** Sessions of a DevWork over all its runs. */
module DevWorkSessions {
  import opened Options
  import opened Reviewer
  import opened SessionNames
  import opened Sessions
  import opened DevWorkSpec

  /** Between ticks: Step3 to Step5 may hold the build session of their round, every other step holds none. */
  ghost predicate SessionsOk(s: State) {
    && OnlyCaches(s.pool, Session(Round(s), Build))
    && (s.step.Step3? || s.step.Step4? || s.step.Step5? || s.pool.cache == map[])
  }

  ghost predicate Closed(p: Pool) {
    PoolOk(p) && p.cache == map[]
  }

  lemma EscalateCloses(s: State, category: Option<Category>, stuck: set<Session>)
    requires PoolOk(s.pool)
    ensures Closed(Escalate(s, category, stuck).pool)
  {
    CloseAllKeeps(s.pool, stuck);
  }

  lemma BurnRoundCloses(s: State, reason: Reason, category: Option<Category>, stuck: set<Session>, session: Session)
    requires session.round == Round(s) && OnlyCaches(s.pool, session)
    ensures Closed(BurnRound(s, Step2, reason, category, stuck).pool)
  {
    if Round(s) >= MaxRounds(s) {
      EscalateCloses(StoreRoundsResume(s, Step2, reason, category).(rounds := Round(s)), category, stuck);
    } else {
      CloseRoundKeeps(s.pool, session, stuck);
    }
  }

  lemma RetryStep4Closes(s: State, reason: Reason, category: Option<Category>, e: Env, session: Session)
    requires session.round == Round(s) && OnlyCaches(s.pool, session)
    ensures Closed(RetryStep4(s, reason, category, e).pool)
  {
    CloseRoundKeeps(s.pool, session, e.stuck);
    CloseAllKeeps(s.pool, e.stuck);
  }

  lemma RetryStep5Closes(s: State, reason: Reason, category: Option<Category>, e: Env)
    requires OnlyCaches(s.pool, Session(Round(s), Review))
    ensures Closed(RetryStep5(s, reason, category, e).pool)
  {
    CloseRoleKeeps(s.pool, Session(Round(s), Review), e.stuck);
    CloseAllKeeps(s.pool, e.stuck);
  }

  lemma FinallyCloses(h: Handled, session: Session, stuck: set<Session>)
    requires OnlyCaches(h.state.pool, session)
    ensures Closed(Finally(h, session, stuck).state.pool)
  {
    CloseRoleKeeps(h.state.pool, session, stuck);
  }

  lemma Step2AcceptHolds(s: State, e: Env, plan: Session)
    requires plan == Session(Round(s), Plan) && OnlyCaches(s.pool, plan)
    ensures OnlyCaches(Step2Accept(s, e).pool, plan)
  {
    if Rc(e.llm) != 0 {
      CloseAllKeeps(s.pool, e.stuck);
    } else if Round(s) !in s.noteText {
      BurnRoundCloses(s, Step2Unreadable, Some(ReqGap), e.stuck, plan);
    } else if !e.headings {
      BurnRoundCloses(s, Step2MissingH2, Some(ReqGap), e.stuck, plan);
    } else {
      CloseAllKeeps(s.pool, e.stuck);
    }
  }

  lemma Step2Closes(s: State, e: Env)
    requires SessionsOk(s) && s.step.Step2?
    ensures Closed(HandleStep2(s, e).state.pool)
  {
    var plan := Session(Round(s), Plan);
    if !e.ready {
      CloseAllKeeps(s.pool, e.stuck);
    } else if !e.fault {
      StartKeeps(s.pool, plan, e.llm, e.stuck);
      Step2AcceptHolds(Step2Written(s, e), e, plan);
    }
    FinallyCloses(Step2Body(s, e), plan, e.stuck);
  }

  lemma Step3AcceptHolds(s: State, e: Env)
    requires s.step.Step3? && OnlyCaches(s.pool, Session(Round(s), Build))
    ensures SessionsOk(Step3Accept(s, e))
  {
    if !(Rc(e.llm) == 0 && e.contextWritten) && Attempts(s, Step3) >= 1 {
      BurnRoundCloses(s, Step3FailedTwice(Rc(e.llm)), Some(ReqGap), e.stuck, Session(Round(s), Build));
    }
  }

  lemma Step3Holds(s: State, e: Env)
    requires SessionsOk(s) && s.step.Step3?
    ensures SessionsOk(HandleStep3(s, e).state)
  {
    if s.notes == [] {
      BurnRoundCloses(s, Step3NoNote, Some(ReqGap), e.stuck, Session(Round(s), Build));
    } else if !e.fault {
      StartKeeps(s.pool, Session(Round(s), Build), e.llm, e.stuck);
      Step3AcceptHolds(Opened(AddPrompt(s, []), Build, e.llm, e.stuck), e);
    }
  }

  lemma Step4AcceptHolds(s: State, e: Env, build: Session)
    requires build == Session(Round(s), Build) && OnlyCaches(s.pool, build)
    ensures SessionsOk(Step4Accept(s, e))
  {
    if Rc(e.llm) != 0 {
      RetryStep4Closes(s, Step4Rc(Rc(e.llm)), Some(ImplGap), e, build);
    } else {
      var s1 := if e.findings.Missing? || e.findings.Invalid? then Opened(s, Build, e.repair, e.stuck) else s;
      StartKeeps(s.pool, build, e.repair, e.stuck);
      var found := FindingsAfterRepair(e);
      if !found.Found? {
        RetryStep4Closes(s1, FindingsReason(found), Some(ImplGap), e, build);
      }
    }
  }

  lemma Step4BodyHolds(s: State, e: Env)
    requires Closed(s.pool) && s.step.Step4?
    ensures SessionsOk(Step4Body(s, e).state)
  {
    var build := Session(Round(s), Build);
    if s.notes == [] {
      BurnRoundCloses(s, Step4NoNote, Some(ReqGap), e.stuck, build);
    } else if !e.fault {
      StartKeeps(s.pool, build, e.llm, e.stuck);
      Step4AcceptHolds(Opened(AddPrompt(s, HandlerFeedback(s)), Build, e.llm, e.stuck), e, build);
    }
  }

  lemma Step4Holds(s: State, e: Env)
    requires SessionsOk(s) && s.step.Step4?
    ensures SessionsOk(HandleStep4(s, e).state)
  {
    var build := Session(Round(s), Build);
    CloseRoleKeeps(s.pool, build, e.stuck);
    Step4BodyHolds(s.(pool := CloseRole(s.pool, build, e.stuck)), e);
  }

  /** In Step5 the state's pool holds the review session of round `n`, or nothing. */
  ghost predicate Reviews(s: State, n: nat) {
    OnlyCaches(s.pool, Session(n, Review))
  }

  lemma ReviewedHolds(s: State, outcome: Outcome, e: Env)
    requires Reviews(s, Round(s))
    ensures Reviews(Reviewed(s, outcome, e), Round(s))
  {
    var s1 := s.(reviews := s.reviews + [Recorded(Round(s), outcome)]);
    CloseAllKeeps(s.pool, e.stuck);
    if e.patched {
      var text := if Round(s) in s.noteText then s.noteText[Round(s)] else "";
      var s2 := s1.(noteText := s1.noteText[Round(s) := PlanAudit.Patch(text, PlanAudit.DoneIds(outcome.plan))],
                    score := Some(outcome.score), category := outcome.category);
      BurnRoundCloses(s2, Scored(outcome.score), outcome.category, e.stuck, Session(Round(s), Review));
    }
  }

  lemma AcceptReviewHolds(s: State, outcome: Outcome, e: Env)
    requires Reviews(s, Round(s))
    ensures Reviews(AcceptReview(s, outcome, e), Round(s))
  {
    var text := if Round(s) in s.noteText then s.noteText[Round(s)] else "";
    RetryStep5Closes(s, Step5MissingPlanIds(PlanAudit.MissingIds(text, outcome.plan)), None, e);
    ReviewedHolds(s, outcome, e);
  }

  /** Whatever the review says, its session is the only one cached. */
  lemma SettleHolds(s: State, parsed: Checked<Outcome>, e: Env)
    requires Reviews(s, Round(s))
    ensures parsed.Good? ==> Reviews(AcceptReview(s, parsed.value, e), Round(s))
    ensures Reviews(RetryStep5(s, Step5Unparseable, None, e), Round(s))
  {
    RetryStep5Closes(s, Step5Unparseable, None, e);
    if parsed.Good? {
      AcceptReviewHolds(s, parsed.value, e);
    }
  }

  lemma JudgeRepairHolds(s: State, e: Env)
    requires Reviews(s, Round(s))
    ensures Reviews(JudgeRepair(s, e).state, Round(s))
  {
    var s1 := Written(s, e.artifactAgain);
    if Rc(e.repair) != 0 {
      RetryStep5Closes(s1, Step5Unparseable, None, e);
    } else {
      var (parsed, file) := ReadReview(ArtifactOf(s1), e.stdoutAgain);
      SettleHolds(WithArtifact(s1, file), parsed, e);
    }
  }

  lemma RepairReviewHolds(s: State, e: Env)
    requires Reviews(s, Round(s))
    ensures Reviews(RepairReview(s, e).state, Round(s))
  {
    if Rc(e.llm) != 0 {
      RetryStep5Closes(s, Step5Unparseable, None, e);
    } else {
      StartKeeps(s.pool, Session(Round(s), Review), e.repair, e.stuck);
      JudgeRepairHolds(Opened(s, Review, e.repair, e.stuck), e);
    }
  }

  lemma JudgeReviewHolds(s: State, e: Env)
    requires Reviews(s, Round(s))
    ensures Reviews(JudgeReview(s, e).state, Round(s))
  {
    var s1 := Written(s, e.artifact);
    var (parsed, file) := if Rc(e.llm) == 0 then ReadReview(ArtifactOf(s1), e.stdout) else (Bad, ArtifactOf(s1));
    var s2 := WithArtifact(s1, file);
    if parsed.Good? {
      SettleHolds(s2, parsed, e);
    } else if parsed.Bad? {
      if e.logged {
        RepairReviewHolds(s2, e);
      } else {
        CloseAllKeeps(s2.pool, e.stuck);
      }
    }
  }

  lemma RunReviewHolds(s: State, e: Env)
    requires Closed(s.pool)
    ensures Reviews(RunReview(s, e).state, Round(s))
  {
    StartKeeps(s.pool, Session(Round(s), Review), e.llm, e.stuck);
    JudgeReviewHolds(Opened(AddPrompt(s, HandlerFeedback(s)), Review, e.llm, e.stuck), e);
  }

  lemma PreflightCloses(s: State, e: Env)
    requires Closed(s.pool)
    ensures Closed(RunPreflight(s, e).0.pool) && Round(RunPreflight(s, e).0) == Round(s)
  {
    var build := Session(Round(s), Build);
    StartKeeps(s.pool, build, e.cleanup, e.stuck);
    CloseRoleKeeps(Start(s.pool, build, e.cleanup, e.stuck), build, e.stuck);
  }

  lemma Step5BodyHolds(s: State, e: Env)
    requires Closed(s.pool)
    ensures Reviews(Step5Body(s, e).state, Round(s))
  {
    var review := Session(Round(s), Review);
    if !e.ready {
      CloseAllKeeps(s.pool, e.stuck);
    } else if s.notes == [] {
      BurnRoundCloses(s, Step5NoNote, Some(ReqGap), e.stuck, review);
    } else if Latest(s.notes) != Round(s) {
      CloseAllKeeps(s.pool, e.stuck);
    } else if !e.noteReadable || Round(s) !in s.noteText {
      BurnRoundCloses(s, Step5NoteUnreadable, Some(ReqGap), e.stuck, review);
    } else {
      PreflightCloses(s, e);
      AfterPreflightHolds(RunPreflight(s, e).0, RunPreflight(s, e).1, e);
    }
  }

  lemma AfterPreflightHolds(s: State, found: Preflight, e: Env)
    requires Closed(s.pool)
    ensures Reviews(AfterPreflight(s, found, e).state, Round(s))
  {
    CloseAllKeeps(s.pool, e.stuck);
    RetryStep4Closes(s, Step5Preflight, Some(ImplGap), e, Session(Round(s), Review));
    RunReviewHolds(s, e);
  }

  lemma Step5ColdCloses(s: State, e: Env)
    requires Closed(s.pool)
    ensures Closed(Step5Cold(s, e).state.pool)
  {
    Step5BodyHolds(s, e);
    FinallyCloses(Step5Body(s, e), Session(Round(s), Review), e.stuck);
  }

  lemma Step5Closes(s: State, e: Env)
    requires SessionsOk(s) && s.step.Step5?
    ensures Closed(HandleStep5(s, e).state.pool)
  {
    CloseRoleKeeps(s.pool, Session(Round(s), Build), e.stuck);
    Step5ColdCloses(s.(pool := CloseRole(s.pool, Session(Round(s), Build), e.stuck)), e);
  }

  lemma HandleHolds(s: State, e: Env)
    requires SessionsOk(s)
    ensures SessionsOk(Handle(s, e).state)
  {
    match s.step
    case Init => CloseAllKeeps(s.pool, e.stuck);
    case Step1 => CloseAllKeeps(s.pool, e.stuck);
    case Step2 => Step2Closes(s, e);
    case Step3 => Step3Holds(s, e);
    case Step4 => Step4Holds(s, e);
    case Step5 => Step5Closes(s, e);
    case _ =>
  }

  lemma WaitingHolds(s: State, e: Env)
    requires SessionsOk(s) && !s.step.Step5?
    ensures OnlyCaches(Waiting(s, e).pool, Session(Round(s), if s.step.Step2? then Plan else Build))
  {
    var plan, build := Session(Round(s), Plan), Session(Round(s), Build);
    match s.step
    case Step2 => StartKeeps(s.pool, plan, e.llm, e.stuck);
    case Step3 => StartKeeps(s.pool, build, e.llm, e.stuck);
    case Step4 =>
      CloseRoleKeeps(s.pool, build, e.stuck);
      StartKeeps(CloseRole(s.pool, build, e.stuck), build, e.llm, e.stuck);
    case _ =>
  }

  lemma WaitingForReviewHolds(s: State, e: Env)
    requires Closed(s.pool)
    ensures Reviews(WaitingForReview(s, e), Round(s))
  {
    PreflightCloses(s, e);
    StartKeeps(RunPreflight(s, e).0.pool, Session(Round(s), Review), e.llm, e.stuck);
  }

  lemma StoppedHolds(s: State, e: Env)
    requires SessionsOk(s)
    ensures PoolOk(Stopped(s, e).pool)
  {
    if s.step.Step5? {
      var build := Session(Round(s), Build);
      CloseRoleKeeps(s.pool, build, e.stuck);
      var cold := s.(pool := CloseRole(s.pool, build, e.stuck));
      WaitingForReviewHolds(cold, e);
      CloseRoleKeeps(WaitingForReview(cold, e).pool, Session(Round(s), Review), e.stuck);
    } else {
      WaitingHolds(s, e);
      CloseRoleKeeps(Waiting(s, e).pool, Session(Round(s), if s.step.Step2? then Plan else Build), e.stuck);
    }
  }

  lemma TickHolds(s: State, e: Env)
    requires SessionsOk(s)
    ensures SessionsOk(DriverTick(s, e)) && SessionsOk(DoManualTick(s, e))
  {
    HandleHolds(s, e);
    LandingHolds(Handle(s, e).state, e.stuck);
  }

  lemma LandingHolds(t: State, stuck: set<Session>)
    requires SessionsOk(t)
    ensures SessionsOk(Escalate(t, None, stuck)) && SessionsOk(CutShort(t))
  {
    EscalateCloses(t, None, stuck);
  }

  lemma CancelHolds(s: State, stuck: set<Session>)
    requires PoolOk(s.pool)
    ensures DoCancel(s, stuck).Accepted? ==> SessionsOk(DoCancel(s, stuck).state)
  {
    CloseAllKeeps(s.pool, stuck);
  }

  lemma CancelDuringHolds(s: State, e: Env)
    requires SessionsOk(s)
    ensures SessionsOk(Answer(s, DoCancelDuring(s, e)))
  {
    StoppedHolds(s, e);
    CancelHolds(Stopped(s, e), e.stuck);
  }

  /** Work that has stopped holds no session, and going on opens none. */
  lemma GoOnHolds(s: State, a: Action)
    requires SessionsOk(s) && (a.Rerun? || a.Continue? || a.ResumeStep?)
    ensures SessionsOk(Next(s, a))
  {
    assert Next(s, a).pool == s.pool;
    assert Next(s, a) == s || Closed(s.pool);
  }

  lemma NextHolds(s: State, a: Action)
    requires SessionsOk(s)
    ensures SessionsOk(Next(s, a))
  {
    match a
    case Tick(e) => TickHolds(s, e);
    case ManualTick(e) => TickHolds(s, e);
    case Cancel(stuck) => CancelHolds(s, stuck);
    case CancelDuring(e) => CancelDuringHolds(s, e);
    case _ => GoOnHolds(s, a);
  }
}
