/** The invariant of the DevWork machine, kept by every tick and every human action. */
module DevWorkInvariant {
  import opened Options
  import opened Reviewer
  import opened Sessions
  import opened DevWorkSpec
  import PlanAudit
  import SessionNames

  /** The effective number of rounds: `max_rounds` may be 0, the first round still runs. */
  function Cap(s: State): nat
    requires ValidConfig(s.cfg)
  {
    if MaxRounds(s) < 1 then 1 else MaxRounds(s)
  }

  ghost predicate Distinct<T>(xs: seq<T>) {
    forall i, j :: 0 <= i < j < |xs| ==> xs[i] != xs[j]
  }

  ghost predicate NotesOk(notes: seq<nat>, upTo: nat) {
    Distinct(notes) && forall n :: n in notes ==> 1 <= n <= upTo
  }

  ghost predicate RetriesOk(retries: map<RetryKey, nat>, upTo: nat) {
    forall key :: key in retries ==> key.round <= upTo && retries[key] <= 1
  }

  /** The review answers every active plan id of its round's note, as that note reads now. */
  ghost predicate Covers(noteText: map<nat, string>, v: Recorded) {
    v.round in noteText && PlanAudit.MissingIds(noteText[v.round], v.outcome.plan) == {}
  }

  ghost predicate OneReviewEach(reviews: seq<Recorded>) {
    forall i, j :: 0 <= i < j < |reviews| ==> reviews[i].round != reviews[j].round
  }

  ghost predicate ReviewsOk(reviews: seq<Recorded>, noteText: map<nat, string>, upTo: nat) {
    && OneReviewEach(reviews)
    && forall i :: 0 <= i < |reviews| ==>
         && 1 <= reviews[i].round <= upTo
         && Covers(noteText, reviews[i])
         && WellFormed(reviews[i].outcome)
  }

  ghost predicate ArtifactsOk(artifacts: map<nat, Output>, upTo: nat) {
    forall n :: n in artifacts ==> n <= upTo
  }

  /** Holds in every state, also in the middle of a handler. */
  ghost predicate Base(s: State) {
    && ValidConfig(s.cfg)
    && (s.gates.maxRounds.Some? ==> 0 <= s.gates.maxRounds.value <= HARD_MAX_ROUNDS)
    && s.rounds <= Cap(s)
    && NotesOk(s.notes, Round(s))
    && RetriesOk(s.gates.retries, Round(s))
    && ReviewsOk(s.reviews, s.noteText, Round(s))
    && ArtifactsOk(s.artifacts, Round(s))
    && |s.gates.feedback| <= FEEDBACK_CAP
  }

  ghost predicate NoResume(s: State) {
    s.gates.roundsResume.None? && s.gates.stepResume.None? && s.gates.cancelledFrom.None?
  }

  /** The round that comes next has no note, no review, no review file and all its retries. */
  ghost predicate FreshRound(s: State) {
    && Round(s) !in s.notes
    && Round(s) !in s.artifacts
    && ReviewsOk(s.reviews, s.noteText, s.rounds)
    && RetriesOk(s.gates.retries, s.rounds)
  }

  /** A review file that is there when a step is entered was left in this round by a Step5 that was cancelled while its
      agent ran, or by a manual tick that ended in an exception; in the second case it does not parse. */
  ghost predicate LeftBehind(s: State) {
    Round(s) in s.artifacts ==> Round(s) in s.cutOff || (Round(s) in s.cutShort && !Parse(s.artifacts[Round(s)]).Good?)
  }

  /** What step `p` may rely on when it is entered. */
  ghost predicate At(s: State, p: Step)
    requires ValidConfig(s.cfg)
  {
    && !Terminal(p)
    && s.rounds < Cap(s)
    && ReviewsOk(s.reviews, s.noteText, s.rounds)
    && LeftBehind(s)
    && (p.Init? || p.Step1? ==> s.rounds == 0 && FreshRound(s))
    && (p.Step2? ==> Round(s) !in s.notes)
    && (p.Step3? || p.Step4? || p.Step5? ==> Round(s) in s.notes && Round(s) in s.noteText)
    && (p.Step5? ==> Round(s) in s.gates.findings)
  }

  /** A planning round after the first starts from the latest send-back reason. */
  ghost predicate Told(s: State, p: Step) {
    p.Step2? && s.rounds >= 1 ==>
      && s.gates.feedback != []
      && var last := s.gates.feedback[|s.gates.feedback| - 1];
      && last.round == Round(s) && last.backTo.Step2?
  }

  ghost predicate ResumePoint(s: State)
    requires ValidConfig(s.cfg)
  {
    && (s.gates.roundsResume.None? ==> s.rounds < Cap(s))
    && (s.gates.roundsResume.Some? ==>
          && s.gates.stepResume.None?
          && s.gates.roundsResume.value.backTo.Step2?
          && s.gates.roundsResume.value.completed == s.rounds >= 1
          && FreshRound(s))
    && (s.gates.stepResume.Some? ==>
          var r := s.gates.stepResume.value;
          (r.backTo.Step2? || r.backTo.Step4? || r.backTo.Step5?) && r.round == Round(s) && At(s, r.backTo))
  }

  /** Completion rests on this round's review: no category, score at the threshold, first pass iff no round burnt. */
  ghost predicate CompletedBy(s: State)
    requires ValidConfig(s.cfg)
  {
    && s.rounds < Cap(s)
    && s.reviews != []
    && var last := s.reviews[|s.reviews| - 1];
    && last.round == Round(s)
    && last.outcome.category.None?
    && last.outcome.score >= Threshold(s)
    && s.score == Some(last.outcome.score)
    && s.firstPass == Some(s.rounds == 0)
  }

  /** What the current step implies. */
  ghost predicate StepPart(s: State)
    requires ValidConfig(s.cfg)
  {
    match s.step
    case Completed => NoResume(s) && CompletedBy(s)
    case Escalated => s.gates.cancelledFrom.None? && ResumePoint(s)
    case Cancelled =>
      && s.gates.roundsResume.None? && s.gates.stepResume.None? && s.gates.cancelledFrom.Some?
      && At(s, s.gates.cancelledFrom.value) && Told(s, s.gates.cancelledFrom.value)
    case p => NoResume(s) && At(s, p) && Told(s, p)
  }

  /** The invariant of the row and its tables. */
  ghost predicate Inv(s: State) {
    Base(s) && StepPart(s)
  }

  // ---- leaving a handler ----

  lemma EscalateKeeps(s: State, category: Option<Category>, stuck: set<Session>)
    requires Base(s) && s.gates.cancelledFrom.None? && ResumePoint(s)
    ensures Inv(Escalate(s, category, stuck))
  {
  }

  lemma EnterKeeps(s: State, p: Step)
    requires Base(s) && NoResume(s) && s.step == p && At(s, p) && Told(s, p)
    ensures Inv(s)
  {
  }

  lemma AppendFeedbackKeeps(s: State, entry: Feedback)
    requires Base(s)
    ensures Base(AppendFeedback(s, entry))
    ensures var f := AppendFeedback(s, entry).gates.feedback; f != [] && f[|f| - 1] == entry
  {
  }

  lemma CountAttemptKeeps(s: State, step: Step)
    requires Base(s) && Attempts(s, step) < 1
    ensures Base(CountAttempt(s, step))
  {
  }

  /** Moving on to the next round leaves nothing of it behind. */
  lemma NextRoundIsFresh(s: State)
    requires Base(s) && s.rounds < Cap(s)
    ensures var t := s.(rounds := Round(s)); Base(t) && FreshRound(t)
  {
    var t := s.(rounds := Round(s));
    assert ReviewsOk(t.reviews, t.noteText, t.rounds);
  }

  lemma BurnLastKeeps(s: State, reason: Reason, category: Option<Category>, stuck: set<Session>)
    requires Base(s) && NoResume(s) && s.rounds < Cap(s)
    ensures Inv(Escalate(StoreRoundsResume(s, Step2, reason, category).(rounds := Round(s)), category, stuck))
  {
    NextRoundIsFresh(s);
    var u := StoreRoundsResume(s, Step2, reason, category).(rounds := Round(s));
    assert ResumePoint(u) by {
      assert FreshRound(s.(rounds := Round(s)));
    }
    EscalateKeeps(u, category, stuck);
  }

  lemma BurnRoundKeeps(s: State, reason: Reason, category: Option<Category>, stuck: set<Session>)
    requires Base(s) && NoResume(s) && s.rounds < Cap(s)
    ensures Inv(BurnRound(s, Step2, reason, category, stuck))
  {
    if Round(s) >= MaxRounds(s) {
      BurnLastKeeps(s, reason, category, stuck);
    } else {
      BurnLoopKeeps(s, Feedback(Round(s) + 1, Step2, reason, category), CloseRound(s.pool, Round(s), stuck), category);
    }
  }

  lemma BurnLoopKeeps(s: State, entry: Feedback, pool: Pool, category: Option<Category>)
    requires Base(s) && NoResume(s) && Round(s) < MaxRounds(s)
    requires entry.round == Round(s) + 1 && entry.backTo.Step2?
    ensures Inv(AppendFeedback(s, entry).(pool := pool, rounds := Round(s), step := Step2, category := category))
  {
    AppendFeedbackKeeps(s, entry);
    NextRoundIsFresh(AppendFeedback(s, entry));
    EnterKeeps(AppendFeedback(s, entry).(pool := pool, rounds := Round(s), step := Step2, category := category), Step2);
  }

  /** Giving up on a step leaves a way back into it. */
  lemma ResumableKeeps(s: State, backTo: Step, reason: Reason, category: Option<Category>, stuck: set<Session>)
    requires Base(s) && NoResume(s) && At(s, backTo)
    requires backTo.Step2? || backTo.Step4? || backTo.Step5?
    ensures Inv(Escalate(StoreStepResume(s, backTo, reason, category), category, stuck))
  {
    EscalateKeeps(StoreStepResume(s, backTo, reason, category), category, stuck);
  }

  lemma RetryStep2Keeps(s: State, reason: Reason, stuck: set<Session>)
    requires Base(s) && NoResume(s) && s.step.Step2? && At(s, Step2) && Told(s, Step2)
    ensures Inv(RetryStep2(s, reason, stuck))
  {
    if Attempts(s, Step2) < 1 {
      CountAttemptKeeps(s, Step2);
      EnterKeeps(CountAttempt(s, Step2), Step2);
    } else {
      ResumableKeeps(s, Step2, AfterRetry(reason), Some(ReqGap), stuck);
    }
  }

  /** A retry in the same round: the reason is recorded, the attempt counted, the step entered again. */
  lemma RetryKeeps(s: State, step: Step, reason: Reason, category: Option<Category>, pool: Pool)
    requires Base(s) && NoResume(s) && Attempts(s, step) < 1
    requires (step.Step4? || step.Step5?) && At(s, step)
    ensures Inv(CountAttempt(AppendFeedback(s, Feedback(Round(s), step, reason, category)), step)
                .(pool := pool, step := step, category := category))
  {
    var told := AppendFeedback(s, Feedback(Round(s), step, reason, category));
    AppendFeedbackKeeps(s, Feedback(Round(s), step, reason, category));
    CountAttemptKeeps(told, step);
    EnterKeeps(CountAttempt(told, step).(pool := pool, step := step, category := category), step);
  }

  /** Clean-up failed: the work is escalated for good. */
  lemma UncleanKeeps(s: State, entry: Feedback, category: Option<Category>, stuck: set<Session>)
    requires Base(s) && NoResume(s) && s.rounds < Cap(s)
    ensures Inv(Escalate(AppendFeedback(s, entry), category, stuck))
  {
    AppendFeedbackKeeps(s, entry);
    EscalateKeeps(AppendFeedback(s, entry), category, stuck);
  }

  lemma RetryStep4Keeps(s: State, reason: Reason, category: Option<Category>, e: Env)
    requires Base(s) && NoResume(s) && At(s, Step4)
    ensures Inv(RetryStep4(s, reason, category, e))
  {
    if Attempts(s, Step4) >= 1 {
      ResumableKeeps(s, Step4, AfterRetry(reason), category, e.stuck);
    } else if !e.cleaned {
      UncleanKeeps(s, Feedback(Round(s), Step4, reason, category), category, e.stuck);
    } else {
      RetryKeeps(s, Step4, reason, category, CloseRound(s.pool, Round(s), e.stuck));
    }
  }

  /** As `At(s, Step5)`, except that the review file may be there. */
  ghost predicate Reviewing(s: State) {
    && Base(s) && NoResume(s) && s.rounds < Cap(s) && s.step.Step5?
    && ReviewsOk(s.reviews, s.noteText, s.rounds)
    && Round(s) in s.notes && Round(s) in s.noteText && Round(s) in s.gates.findings
  }

  lemma CleanKeeps(s: State)
    requires Reviewing(s)
    ensures var t := s.(artifacts := s.artifacts - {Round(s)}); Base(t) && NoResume(t) && At(t, Step5)
  {
  }

  lemma RetryStep5Keeps(s: State, reason: Reason, category: Option<Category>, e: Env)
    requires Reviewing(s)
    ensures Inv(RetryStep5(s, reason, category, e))
  {
    var clean := s.(artifacts := s.artifacts - {Round(s)});
    CleanKeeps(s);
    if !e.cleaned {
      UncleanKeeps(s, Feedback(Round(s), Step5, reason, category), category, e.stuck);
      EscalateKeeps(s, category, e.stuck);
    } else if Attempts(s, Step5) < 1 {
      RetryKeeps(clean, Step5, reason, category, CloseRole(s.pool, Session(Round(s), SessionNames.Review), e.stuck));
    } else {
      ResumableKeeps(clean, Step5, AfterRetry(reason), category, e.stuck);
    }
  }

  // ---- handlers ----

  /** A handler that returns leaves the invariant; so does one that raises, but for a review file it may leave. */
  ghost predicate HandledOk(h: Handled) {
    if h.Done? then Inv(h.state) else !Terminal(h.state.step) && Inv(CutShort(h.state))
  }

  lemma BaseIgnoresPool(s: State, pool: Pool)
    requires Base(s)
    ensures Base(s.(pool := pool))
  {
  }

  lemma AtIgnoresPool(s: State, pool: Pool, p: Step)
    requires ValidConfig(s.cfg) && At(s, p) && Told(s, p)
    ensures At(s.(pool := pool), p) && Told(s.(pool := pool), p)
  {
  }

  lemma ResumePointIgnoresPool(s: State, pool: Pool)
    requires ValidConfig(s.cfg) && ResumePoint(s)
    ensures ResumePoint(s.(pool := pool))
  {
  }

  lemma InvIgnoresPool(s: State, pool: Pool)
    requires Inv(s)
    ensures Inv(s.(pool := pool))
  {
    BaseIgnoresPool(s, pool);
    match s.step
    case Completed =>
    case Escalated => ResumePointIgnoresPool(s, pool);
    case Cancelled => AtIgnoresPool(s, pool, s.gates.cancelledFrom.value);
    case p => AtIgnoresPool(s, pool, p);
  }

  /** A handler that raises before it has changed anything that matters leaves the invariant. */
  lemma CutShortKeeps(s: State)
    requires Inv(s) && !Terminal(s.step)
    ensures HandledOk(Raised(s))
  {
  }

  lemma PoolDoesNotMatter(h: Handled, pool: Pool)
    requires HandledOk(h)
    ensures HandledOk(h.(state := h.state.(pool := pool)))
  {
    if h.Done? {
      InvIgnoresPool(h.state, pool);
    } else {
      InvIgnoresPool(CutShort(h.state), pool);
    }
  }

  lemma HandleInitKeeps(s: State, e: Env)
    requires Inv(s) && s.step.Init?
    ensures HandledOk(HandleInit(s, e))
  {
    if e.ready {
      EnterKeeps(s.(step := Step1), Step1);
    } else {
      EscalateKeeps(s, None, e.stuck);
    }
  }

  lemma HandleStep1Keeps(s: State, e: Env)
    requires Inv(s) && s.step.Step1?
    ensures HandledOk(HandleStep1(s, e))
  {
    if e.ready {
      EnterKeeps(s.(step := Step2), Step2);
    } else {
      EscalateKeeps(s, Some(DesignHollow), e.stuck);
    }
  }

  /** Reviews of other rounds do not care about this round's note. */
  lemma NoteTextElsewhere(reviews: seq<Recorded>, old': map<nat, string>, new': map<nat, string>, upTo: nat)
    requires ReviewsOk(reviews, old', upTo)
    requires forall n :: n <= upTo && n in old' ==> n in new' && new'[n] == old'[n]
    ensures ReviewsOk(reviews, new', upTo)
  {
  }

  lemma ReviewsUpTo(s: State)
    requires ReviewsOk(s.reviews, s.noteText, s.rounds)
    ensures ReviewsOk(s.reviews, s.noteText, Round(s))
  {
  }

  lemma NoteTextKeeps(s: State, text: map<nat, string>)
    requires Base(s) && NoResume(s) && At(s, Step2)
    requires forall n :: n <= s.rounds && n in s.noteText ==> n in text && text[n] == s.noteText[n]
    ensures var t := s.(noteText := text); Base(t) && At(t, Step2)
  {
    var t := s.(noteText := text);
    NoteTextElsewhere(s.reviews, s.noteText, text, s.rounds);
    ReviewsUpTo(t);
  }

  lemma Step2WrittenKeeps(s: State, e: Env)
    requires Inv(s) && s.step.Step2?
    ensures var t := Step2Written(s, e); Base(t) && NoResume(t) && At(t, Step2) && Told(t, Step2) && t.step.Step2?
  {
    NoteTextKeeps(s, Step2Written(s, e).noteText);
  }

  lemma Step2AcceptKeeps(s: State, e: Env)
    requires Base(s) && NoResume(s) && s.step.Step2? && At(s, Step2) && Told(s, Step2)
    ensures Inv(Step2Accept(s, e))
  {
    if Rc(e.llm) != 0 {
      RetryStep2Keeps(s, Step2Rc(Rc(e.llm)), e.stuck);
    } else if Round(s) !in s.noteText {
      BurnRoundKeeps(s, Step2Unreadable, Some(ReqGap), e.stuck);
    } else if !e.headings {
      BurnRoundKeeps(s, Step2MissingH2, Some(ReqGap), e.stuck);
    } else if !e.indexed {
      EscalateKeeps(s, None, e.stuck);
    } else {
      EnterKeeps(s.(notes := s.notes + [Round(s)], step := Step3), Step3);
    }
  }

  lemma HeaderKeeps(s: State, header: string)
    requires Inv(s) && s.step.Step2?
    ensures HandledOk(Raised(s.(noteText := s.noteText[Round(s) := header])))
  {
    var t := s.(noteText := s.noteText[Round(s) := header]);
    NoteTextKeeps(s, t.noteText);
    EnterKeeps(t, Step2);
    CutShortKeeps(t);
  }

  lemma HandleStep2Keeps(s: State, e: Env)
    requires Inv(s) && s.step.Step2?
    ensures HandledOk(HandleStep2(s, e))
  {
    if !e.ready {
      EscalateKeeps(s, Some(DesignHollow), e.stuck);
    } else if e.fault {
      HeaderKeeps(s, e.header);
    } else {
      Step2WrittenKeeps(s, e);
      Step2AcceptKeeps(Step2Written(s, e), e);
    }
    PoolDoesNotMatter(Step2Body(s, e), HandleStep2(s, e).state.pool);
  }

  lemma Step3AcceptKeeps(s: State, e: Env)
    requires Inv(s) && s.step.Step3?
    ensures Inv(Step3Accept(s, e))
  {
    if Rc(e.llm) == 0 && e.contextWritten {
      EnterKeeps(s.(step := Step4), Step4);
    } else if Attempts(s, Step3) < 1 {
      CountAttemptKeeps(s, Step3);
      EnterKeeps(CountAttempt(s, Step3), Step3);
    } else {
      BurnRoundKeeps(s, Step3FailedTwice(Rc(e.llm)), Some(ReqGap), e.stuck);
    }
  }

  lemma HandleStep3Keeps(s: State, e: Env)
    requires Inv(s) && s.step.Step3?
    ensures HandledOk(HandleStep3(s, e))
  {
    if s.notes != [] && !e.fault {
      var s1 := Opened(AddPrompt(s, []), SessionNames.Build, e.llm, e.stuck);
      EnterKeeps(s1, Step3);
      Step3AcceptKeeps(s1, e);
    }
  }

  lemma Step4AcceptKeeps(s: State, e: Env)
    requires Base(s) && NoResume(s) && At(s, Step4)
    ensures Inv(Step4Accept(s, e))
  {
    var s1 := if e.findings.Missing? || e.findings.Invalid? then Opened(s, SessionNames.Build, e.repair, e.stuck) else s;
    var found := FindingsAfterRepair(e);
    if Rc(e.llm) != 0 {
      RetryStep4Keeps(s, Step4Rc(Rc(e.llm)), Some(ImplGap), e);
    } else if found.Found? {
      EnterKeeps(s1.(gates := s1.gates.(findings := s1.gates.findings + {Round(s)}), step := Step5), Step5);
    } else {
      RetryStep4Keeps(s1, FindingsReason(found), Some(ImplGap), e);
    }
  }

  lemma HandleStep4Keeps(s: State, e: Env)
    requires Inv(s) && s.step.Step4?
    ensures HandledOk(HandleStep4(s, e))
  {
    var s0 := s.(pool := CloseRole(s.pool, Session(Round(s), SessionNames.Build), e.stuck));
    if s.notes != [] && !e.fault {
      Step4AcceptKeeps(Opened(AddPrompt(s0, HandlerFeedback(s0)), SessionNames.Build, e.llm, e.stuck), e);
    }
  }

  // ---- Step5 ----

  lemma AcceptedOutcomes(file: Option<Output>, stdout: Output)
    ensures ReadReview(file, stdout).0.Good? ==> WellFormed(ReadReview(file, stdout).0.value)
  {
    if file.Some? && file.value.Payload? && Coerce(file.value.json).Good? {
      AcceptedIsWellFormed(file.value.json);
    }
    if stdout.Payload? && Coerce(stdout.json).Good? {
      AcceptedIsWellFormed(stdout.json);
    }
  }

  lemma WithArtifactKeeps(s: State, file: Option<Output>)
    requires Reviewing(s)
    ensures Reviewing(WithArtifact(s, file))
  {
  }

  /** The recorded review covers the note before and after the patch. */
  lemma RecordKeeps(s: State, outcome: Outcome, text: string)
    requires Reviewing(s) && WellFormed(outcome)
    requires PlanAudit.ActiveIds(text) == PlanAudit.ActiveIds(s.noteText[Round(s)])
    requires PlanAudit.MissingIds(s.noteText[Round(s)], outcome.plan) == {}
    ensures ReviewsOk(s.reviews + [Recorded(Round(s), outcome)], s.noteText[Round(s) := text], Round(s))
  {
    var v := Recorded(Round(s), outcome);
    NoteTextElsewhere(s.reviews, s.noteText, s.noteText[Round(s) := text], s.rounds);
    assert Covers(s.noteText[Round(s) := text], v);
  }

  lemma ReviewedKeeps(s: State, outcome: Outcome, e: Env)
    requires Reviewing(s) && WellFormed(outcome)
    requires PlanAudit.MissingIds(s.noteText[Round(s)], outcome.plan) == {}
    ensures Inv(Reviewed(s, outcome, e))
  {
    if !e.patched {
      UnpatchedKeeps(s, outcome, e);
    } else {
      PatchedReviewsOk(s, outcome);
      var text := PlanAudit.Patch(s.noteText[Round(s)], PlanAudit.DoneIds(outcome.plan));
      DecidedKeeps(
        s.(reviews := s.reviews + [Recorded(Round(s), outcome)], noteText := s.noteText[Round(s) := text],
           score := Some(outcome.score), category := outcome.category),
        outcome, e);
    }
  }

  lemma UnpatchedKeeps(s: State, outcome: Outcome, e: Env)
    requires Reviewing(s) && WellFormed(outcome)
    requires PlanAudit.MissingIds(s.noteText[Round(s)], outcome.plan) == {}
    ensures Inv(Escalate(s.(reviews := s.reviews + [Recorded(Round(s), outcome)]), None, e.stuck))
  {
    RecordKeeps(s, outcome, s.noteText[Round(s)]);
    assert s.noteText[Round(s) := s.noteText[Round(s)]] == s.noteText;
    EscalateKeeps(s.(reviews := s.reviews + [Recorded(Round(s), outcome)]), None, e.stuck);
  }

  lemma PatchedReviewsOk(s: State, outcome: Outcome)
    requires Reviewing(s) && WellFormed(outcome)
    requires PlanAudit.MissingIds(s.noteText[Round(s)], outcome.plan) == {}
    ensures var text := PlanAudit.Patch(s.noteText[Round(s)], PlanAudit.DoneIds(outcome.plan));
            ReviewsOk(s.reviews + [Recorded(Round(s), outcome)], s.noteText[Round(s) := text], Round(s))
  {
    PlanAudit.PatchOnlyTicks(s.noteText[Round(s)], PlanAudit.DoneIds(outcome.plan));
    RecordKeeps(s, outcome, PlanAudit.Patch(s.noteText[Round(s)], PlanAudit.DoneIds(outcome.plan)));
  }

  /** The review is recorded last, the note patched, the score written. */
  lemma DecidedKeeps(s: State, outcome: Outcome, e: Env)
    requires Base(s) && NoResume(s) && s.rounds < Cap(s)
    requires s.reviews != [] && s.reviews[|s.reviews| - 1] == Recorded(Round(s), outcome) && s.score == Some(outcome.score)
    ensures Inv(Decided(s, outcome, e))
  {
    if outcome.score >= Threshold(s) && outcome.category.None? {
      CompleteKeeps(s, outcome);
    } else if outcome.category == Some(ReqGap) || outcome.category == Some(ImplGap) {
      BurnRoundKeeps(s, Scored(outcome.score), outcome.category, e.stuck);
    } else {
      EscalateKeeps(s, Some(DesignHollow), e.stuck);
    }
  }

  lemma CompleteKeeps(s: State, outcome: Outcome)
    requires Base(s) && NoResume(s) && s.rounds < Cap(s)
    requires s.reviews != [] && s.reviews[|s.reviews| - 1] == Recorded(Round(s), outcome) && s.score == Some(outcome.score)
    requires outcome.score >= Threshold(s) && outcome.category.None?
    ensures Inv(s.(step := Completed, firstPass := Some(s.rounds == 0)))
  {
  }

  lemma AcceptReviewKeeps(s: State, outcome: Outcome, e: Env)
    requires Reviewing(s) && WellFormed(outcome)
    ensures Inv(AcceptReview(s, outcome, e))
  {
    var missing := PlanAudit.MissingIds(s.noteText[Round(s)], outcome.plan);
    if missing != {} {
      RetryStep5Keeps(s, Step5MissingPlanIds(missing), None, e);
    } else {
      ReviewedKeeps(s, outcome, e);
    }
  }

  lemma WrittenKeeps(s: State, written: Option<Output>)
    requires Reviewing(s)
    ensures Reviewing(Written(s, written))
  {
    if written.Some? {
      WithArtifactKeeps(s, written);
    }
  }

  /** A file that did not parse may stay when the handler raises. */
  lemma UnparsedFileKeeps(s: State)
    requires Reviewing(s) && (Round(s) in s.artifacts ==> !Parse(s.artifacts[Round(s)]).Good?)
    ensures HandledOk(Raised(s))
  {
  }

  /** Reading the review, then settling it one way or the other. */
  lemma ReadKeeps(s: State, stdout: Output, e: Env)
    requires Reviewing(s)
    ensures var (parsed, file) := ReadReview(ArtifactOf(s), stdout);
            var s1 := WithArtifact(s, file);
            && Reviewing(s1)
            && (parsed.Good? ==> Inv(AcceptReview(s1, parsed.value, e)))
            && (parsed.Raise? ==> HandledOk(Raised(s1)))
            && Inv(RetryStep5(s1, Step5Unparseable, None, e))
  {
    var (parsed, file) := ReadReview(ArtifactOf(s), stdout);
    var s1 := WithArtifact(s, file);
    WithArtifactKeeps(s, file);
    AcceptedOutcomes(ArtifactOf(s), stdout);
    if parsed.Good? {
      AcceptReviewKeeps(s1, parsed.value, e);
    } else if parsed.Raise? {
      UnparsedFileKeeps(s1);
    }
    RetryStep5Keeps(s1, Step5Unparseable, None, e);
  }

  lemma JudgeRepairKeeps(s: State, e: Env)
    requires Reviewing(s)
    ensures HandledOk(JudgeRepair(s, e))
  {
    var s1 := Written(s, e.artifactAgain);
    WrittenKeeps(s, e.artifactAgain);
    RetryStep5Keeps(s1, Step5Unparseable, None, e);
    ReadKeeps(s1, e.stdoutAgain, e);
  }

  lemma RepairReviewKeeps(s: State, e: Env)
    requires Reviewing(s)
    ensures HandledOk(RepairReview(s, e))
  {
    if Rc(e.llm) != 0 {
      RetryStep5Keeps(s, Step5Unparseable, None, e);
    } else {
      JudgeRepairKeeps(Opened(s, SessionNames.Review, e.repair, e.stuck), e);
    }
  }

  lemma UnparsedKeeps(s: State, e: Env)
    requires Reviewing(s)
    ensures HandledOk(if !e.logged then Done(Escalate(s, None, e.stuck)) else RepairReview(s, e))
  {
    EscalateKeeps(s, None, e.stuck);
    RepairReviewKeeps(s, e);
  }

  lemma JudgeReviewKeeps(s: State, e: Env)
    requires Reviewing(s)
    ensures HandledOk(JudgeReview(s, e))
  {
    var s1 := Written(s, e.artifact);
    WrittenKeeps(s, e.artifact);
    if Rc(e.llm) == 0 {
      ReadKeeps(s1, e.stdout, e);
      UnparsedKeeps(WithArtifact(s1, ReadReview(ArtifactOf(s1), e.stdout).1), e);
    } else {
      WithArtifactKeeps(s1, ArtifactOf(s1));
      UnparsedKeeps(WithArtifact(s1, ArtifactOf(s1)), e);
    }
  }

  lemma RunReviewKeeps(s: State, e: Env)
    requires Reviewing(s)
    ensures HandledOk(RunReview(s, e))
  {
    JudgeReviewKeeps(Opened(AddPrompt(s, HandlerFeedback(s)), SessionNames.Review, e.llm, e.stuck), e);
  }

  lemma {:induction false} LatestIs(notes: seq<nat>, n: nat)
    requires n in notes && forall m :: m in notes ==> m <= n
    ensures Latest(notes) == n
  {
    if |notes| > 1 {
      assert forall m :: m in notes[1..] ==> m in notes;
      assert notes[0] in notes;
      if n in notes[1..] {
        LatestIs(notes[1..], n);
      } else {
        LatestBelow(notes[1..], n);
      }
    }
  }

  lemma {:induction false} LatestBelow(notes: seq<nat>, n: nat)
    requires notes != [] && forall m :: m in notes ==> m <= n
    ensures Latest(notes) <= n
  {
    assert notes[0] in notes;
    if |notes| > 1 {
      assert forall m :: m in notes[1..] ==> m in notes;
      assert notes[0] in notes;
      LatestBelow(notes[1..], n);
    }
  }

  /** Step3 to Step5 find a note, and the latest one is this round's: the branches for a missing note and for a
      round mismatch are never taken. */
  lemma LatestNoteIsThisRounds(s: State)
    requires Inv(s) && (s.step.Step3? || s.step.Step4? || s.step.Step5?)
    ensures s.notes != [] && Latest(s.notes) == Round(s) && Round(s) in s.noteText
  {
    LatestIs(s.notes, Round(s));
  }

  lemma Step5BodyKeeps(s: State, e: Env)
    requires Inv(s) && s.step.Step5?
    ensures HandledOk(Step5Body(s, e))
  {
    LatestNoteIsThisRounds(s);
    if !e.ready {
      EscalateKeeps(s, Some(DesignHollow), e.stuck);
    } else if !e.noteReadable {
      BurnRoundKeeps(s, Step5NoteUnreadable, Some(ReqGap), e.stuck);
    } else {
      CheckedKeeps(s, e);
      AfterPreflightKeeps(RunPreflight(s, e).0, RunPreflight(s, e).1, e);
    }
  }

  lemma CheckedKeeps(s: State, e: Env)
    requires Inv(s) && s.step.Step5?
    ensures var s1 := RunPreflight(s, e).0; Inv(s1) && s1.step.Step5?
  {
    var s1 := RunPreflight(s, e).0;
    assert s1 == s.(pool := s1.pool);
    InvIgnoresPool(s, s1.pool);
  }

  lemma AfterPreflightKeeps(s: State, found: Preflight, e: Env)
    requires Inv(s) && s.step.Step5?
    ensures HandledOk(AfterPreflight(s, found, e))
  {
    match found
    case Generated => EscalateKeeps(s, Some(ImplGap), e.stuck);
    case Dirty => RetryStep4Keeps(s, Step5Preflight, Some(ImplGap), e);
    case Clean =>
      CutShortKeeps(s);
      RunReviewKeeps(s, e);
  }

  lemma Step5ColdKeeps(s: State, e: Env)
    requires Inv(s) && s.step.Step5?
    ensures HandledOk(Step5Cold(s, e))
  {
    Step5BodyKeeps(s, e);
    PoolDoesNotMatter(Step5Body(s, e), Step5Cold(s, e).state.pool);
  }

  lemma HandleStep5Keeps(s: State, e: Env)
    requires Inv(s) && s.step.Step5?
    ensures HandledOk(HandleStep5(s, e))
  {
    var s0 := s.(pool := CloseRole(s.pool, Session(Round(s), SessionNames.Build), e.stuck));
    EnterKeeps(s0, Step5);
    Step5ColdKeeps(s0, e);
  }

  // ---- every action keeps the invariant ----

  lemma HandleKeeps(s: State, e: Env)
    requires Inv(s) && !Terminal(s.step)
    ensures HandledOk(Handle(s, e))
  {
    match s.step
    case Init => HandleInitKeeps(s, e);
    case Step1 => HandleStep1Keeps(s, e);
    case Step2 => HandleStep2Keeps(s, e);
    case Step3 => HandleStep3Keeps(s, e);
    case Step4 => HandleStep4Keeps(s, e);
    case Step5 => HandleStep5Keeps(s, e);
  }

  lemma DriverTickKeeps(s: State, e: Env)
    requires Inv(s)
    ensures Inv(DriverTick(s, e))
  {
    if !Terminal(s.step) {
      HandleKeeps(s, e);
      if Handle(s, e).Raised? {
        EscalateKeeps(Handle(s, e).state, None, e.stuck);
      }
    }
  }

  lemma ManualTickKeeps(s: State, e: Env)
    requires Inv(s)
    ensures Inv(DoManualTick(s, e))
  {
    if !Terminal(s.step) {
      HandleKeeps(s, e);
    }
  }

  lemma CancelKeeps(s: State, stuck: set<Session>)
    requires Inv(s)
    ensures Inv(Answer(s, DoCancel(s, stuck)))
  {
  }

  lemma WaitingForReviewKeeps(s: State, e: Env)
    requires Inv(s) && s.step.Step5?
    ensures var u := CutOff(WaitingForReview(s, e)); Inv(u) && u.step.Step5?
  {
    CheckedKeeps(s, e);
    CutOffKeeps(s, None);
    AskedKeeps(RunPreflight(s, e).0, e);
  }

  lemma AskedKeeps(s: State, e: Env)
    requires Inv(s) && s.step.Step5?
    ensures Inv(CutOff(s))
    ensures Inv(CutOff(Written(Opened(AddPrompt(s, HandlerFeedback(s)), SessionNames.Review, e.llm, e.stuck), e.artifact)))
  {
    CutOffKeeps(s, None);
    var u := Opened(AddPrompt(s, HandlerFeedback(s)), SessionNames.Review, e.llm, e.stuck);
    EnterKeeps(u, Step5);
    CutOffKeeps(u, e.artifact);
  }

  lemma CutOffKeeps(s: State, file: Option<Output>)
    requires Base(s) && NoResume(s) && s.step.Step5? && At(s, Step5)
    ensures Inv(CutOff(Written(s, file)))
  {
  }

  lemma WaitingKeeps(s: State, e: Env)
    requires Inv(s) && !Terminal(s.step) && !s.step.Step5?
    ensures Inv(Waiting(s, e)) && Waiting(s, e).step == s.step
  {
    if s.step.Step2? {
      PlanningKeeps(s, e);
    } else {
      var u := Waiting(s, e);
      assert u == s.(pool := u.pool, prompts := u.prompts);
      InvIgnoresPool(s, u.pool);
      EnterKeeps(u, s.step);
    }
  }

  lemma PlanningKeeps(s: State, e: Env)
    requires Inv(s) && s.step.Step2?
    ensures Inv(Waiting(s, e)) && Waiting(s, e).step.Step2?
  {
    if e.ready {
      if e.fault {
        NoteTextKeeps(s, s.noteText[Round(s) := e.header]);
      } else {
        Step2WrittenKeeps(s, e);
      }
      EnterKeeps(Waiting(s, e), Step2);
    }
  }

  /** A handler that is stopped while it waits for its agent leaves the invariant. */
  lemma StoppedKeeps(s: State, e: Env)
    requires Inv(s) && !Terminal(s.step)
    ensures Inv(Stopped(s, e)) && Stopped(s, e).step == s.step
  {
    if s.step.Step5? {
      var cold := s.(pool := CloseRole(s.pool, Session(Round(s), SessionNames.Build), e.stuck));
      InvIgnoresPool(s, cold.pool);
      WaitingForReviewKeeps(cold, e);
      InvIgnoresPool(CutOff(WaitingForReview(cold, e)), Stopped(s, e).pool);
    } else {
      WaitingKeeps(s, e);
      InvIgnoresPool(Waiting(s, e), Stopped(s, e).pool);
    }
  }

  lemma CancelDuringKeeps(s: State, e: Env)
    requires Inv(s)
    ensures Inv(Answer(s, DoCancelDuring(s, e)))
  {
    if !Terminal(s.step) {
      StoppedKeeps(s, e);
      CancelKeeps(Stopped(s, e), e.stuck);
    }
  }

  lemma RerunKeeps(s: State)
    requires Inv(s)
    ensures Inv(Answer(s, DoRerun(s)))
  {
    if s.step.Cancelled? {
      var back := s.gates.cancelledFrom.value;
      EnterKeeps(s.(step := back, gates := s.gates.(cancelledFrom := None)), back);
    }
  }

  lemma ContinueKeeps(s: State, additional: int, threshold: Option<int>)
    requires Inv(s)
    ensures Inv(Answer(s, DoContinue(s, additional, threshold)))
  {
    if DoContinue(s, additional, threshold).Accepted? {
      var resume := s.gates.roundsResume.value;
      var entry := Feedback(s.rounds + 1, Step2, resume.reason, resume.category);
      AppendFeedbackKeeps(s, entry);
      EnterKeeps(DoContinue(s, additional, threshold).state, Step2);
    }
  }

  lemma ResumeStepKeeps(s: State)
    requires Inv(s)
    ensures Inv(Answer(s, DoResumeStep(s)))
  {
    if DoResumeStep(s).Accepted? {
      var resume := s.gates.stepResume.value;
      var entry := Feedback(resume.round, resume.backTo, ManualResume(resume.reason), resume.category);
      AppendFeedbackKeeps(s, entry);
      EnterKeeps(DoResumeStep(s).state, resume.backTo);
    }
  }

  lemma TicksKeep(s: State, a: Action)
    requires Inv(s) && (a.Tick? || a.ManualTick?)
    ensures Inv(Next(s, a))
  {
    DriverTickKeeps(s, a.env);
    ManualTickKeeps(s, a.env);
  }

  lemma CancelsKeep(s: State, a: Action)
    requires Inv(s) && (a.Cancel? || a.CancelDuring?)
    ensures Inv(Next(s, a))
  {
    if a.Cancel? {
      CancelKeeps(s, a.stuck);
    } else {
      CancelDuringKeeps(s, a.env);
    }
  }

  lemma GoingOnKeeps(s: State, a: Action)
    requires Inv(s) && (a.Rerun? || a.Continue? || a.ResumeStep?)
    ensures Inv(Next(s, a))
  {
    match a
    case Rerun => RerunKeeps(s);
    case Continue(additional, threshold) => ContinueKeeps(s, additional, threshold);
    case ResumeStep => ResumeStepKeeps(s);
  }

  lemma NextKeeps(s: State, a: Action)
    requires Inv(s)
    ensures Inv(Next(s, a))
  {
    if a.Tick? || a.ManualTick? {
      TicksKeep(s, a);
    } else if a.Cancel? || a.CancelDuring? {
      CancelsKeep(s, a);
    } else {
      GoingOnKeeps(s, a);
    }
  }

  lemma CreateHolds(cfg: Config, maxRounds: Option<int>, threshold: Option<int>)
    requires ValidConfig(cfg) && Create(cfg, maxRounds, threshold).Accepted?
    ensures Inv(Create(cfg, maxRounds, threshold).state)
  {
  }
}
