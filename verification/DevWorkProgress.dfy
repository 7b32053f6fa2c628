/** What a driver tick makes of a DevWork, told apart from the handlers: first what happened in the tick, then what
    follows from it for the row, the gates, the notes, the reviews and the files. */
module DevWorkProgress {
  import opened Options
  import opened Reviewer
  import opened Sessions
  import opened DevWorkSpec
  import opened DevWorkInvariant
  import opened DevWorkSessions
  import PlanAudit
  import PlanPattern
  import SessionNames

  function NoteText(s: State): string {
    if Round(s) in s.noteText then s.noteText[Round(s)] else ""
  }

  ghost predicate NoDescriptor(s: State) {
    s.gates.roundsResume.None? && s.gates.stepResume.None?
  }

  // ---- the limits ----

  predicate Percent(n: Option<int>) {
    n.Some? && 1 <= n.value <= 100
  }

  /** The score that a review has to reach: the override of the row if it is valid, else that of the design document if
      it is valid, else the default. */
  predicate IsBar(s: State, n: int) {
    && (Percent(s.gates.threshold) ==> n == s.gates.threshold.value)
    && (!Percent(s.gates.threshold) && Percent(s.cfg.docThreshold) ==> n == s.cfg.docThreshold.value)
    && (!Percent(s.gates.threshold) && !Percent(s.cfg.docThreshold) ==> n == s.cfg.defaultThreshold)
  }

  predicate ValidOverride(n: Option<int>) {
    n.Some? && 0 <= n.value <= 50
  }

  /** The number of rounds the work may take: the override of the row if it is valid, else the configuration. */
  predicate IsBudget(s: State, n: int) {
    && (ValidOverride(s.gates.maxRounds) ==> n == s.gates.maxRounds.value)
    && (!ValidOverride(s.gates.maxRounds) ==> n == s.cfg.maxRounds)
  }

  /** There is one bar and one budget, and they are those the machine computes. */
  lemma LimitsAreThese(s: State, n: int)
    ensures IsBar(s, n) <==> n == Threshold(s)
    ensures IsBudget(s, n) <==> n == MaxRounds(s)
  {
  }

  // ---- what happened ----

  datatype Fate =
    | Forward(to: Step)                                              // the step is done
    | Again(step: Step, reason: Reason, category: Option<Category>)  // a step is to be done once more in this round
    | RoundLost(reason: Reason, category: Option<Category>)
    | Stuck(category: Option<Category>)                              // nothing to resume
    | Judged(outcome: Outcome)                                       // a review is taken

  predicate Succeeded(run: LlmRun) {
    run == Ran(0)
  }

  function ExitCode(run: LlmRun): int {
    match run
    case Ran(rc) => rc
    case StartFailed(_) => 124
  }

  function Step2Fate(e: Env): Fate {
    if !e.ready then Stuck(Some(DesignHollow))
    else if e.fault then Stuck(None)
    else if !Succeeded(e.llm) then Again(Step2, Step2Rc(ExitCode(e.llm)), Some(ReqGap))
    else if e.noteText.None? then RoundLost(Step2Unreadable, Some(ReqGap))
    else if !e.headings then RoundLost(Step2MissingH2, Some(ReqGap))
    else if !e.indexed then Stuck(None)
    else Forward(Step3)
  }

  function Step3Fate(e: Env): Fate {
    if e.fault then Stuck(None)
    else if Succeeded(e.llm) && e.contextWritten then Forward(Step4)
    else Again(Step3, Step3FailedTwice(ExitCode(e.llm)), Some(ReqGap))
  }

  /** The findings are there, or a second call delivers them. */
  predicate Delivered(e: Env) {
    e.findings.Found? || ((e.findings.Missing? || e.findings.Invalid?) && Succeeded(e.repair) && e.repaired)
  }

  function Step4Fate(e: Env): Fate {
    if e.fault then Stuck(None)
    else if !Succeeded(e.llm) then Again(Step4, Step4Rc(ExitCode(e.llm)), Some(ImplGap))
    else if Delivered(e) then Forward(Step5)
    else
      Again(Step4, match e.findings
                   case Missing => Step4FindingsMissing
                   case Invalid => Step4FindingsInvalid
                   case _ => Step4ShapeMismatch, Some(ImplGap))
  }

  /** What the worktrees look like when the review may begin. */
  function Worktrees(e: Env): Preflight {
    if e.preflight.Generated? && Succeeded(e.cleanup) then e.preflightAgain else e.preflight
  }

  /** The review file as the agent's first call leaves it. */
  function FileSeen(s: State, e: Env): Option<Output> {
    if e.artifact.Some? then e.artifact
    else if s.rounds + 1 in s.artifacts then Some(s.artifacts[s.rounds + 1])
    else None
  }

  /** The review file as the second call leaves it. */
  function FileSeenAgain(s: State, e: Env): Option<Output> {
    if e.artifactAgain.Some? then e.artifactAgain else FileSeen(s, e)
  }

  /** The file counts unless it is refused; then standard output does. */
  ghost function Preferred(file: Option<Output>, stdout: Output): Checked<Outcome> {
    if file.Some? && !Parse(file.value).Bad? then Parse(file.value) else Parse(stdout)
  }

  /** An outcome taken from standard output is written to the file. */
  ghost function FileKept(file: Option<Output>, stdout: Output): Option<Output> {
    if (file.None? || Parse(file.value).Bad?) && Parse(stdout).Good? then Some(Payload(ToPayload(Parse(stdout).value)))
    else file
  }

  ghost function FirstReading(s: State, e: Env): Checked<Outcome> {
    if Succeeded(e.llm) then Preferred(FileSeen(s, e), e.stdout) else Bad
  }

  ghost function SecondReading(s: State, e: Env): Checked<Outcome> {
    if Succeeded(e.llm) && Succeeded(e.repair) then Preferred(FileSeenAgain(s, e), e.stdoutAgain) else Bad
  }

  /** A second call is made if the first gave nothing and this could be stored. */
  ghost predicate CallsAgain(s: State, e: Env) {
    FirstReading(s, e).Bad? && e.logged
  }

  ghost function Reading(s: State, e: Env): Checked<Outcome> {
    if CallsAgain(s, e) then SecondReading(s, e) else FirstReading(s, e)
  }

  predicate AsksForReview(e: Env) {
    e.ready && e.noteReadable && Worktrees(e).Clean? && !e.fault
  }

  ghost function ReviewFate(s: State, e: Env): Fate {
    match Reading(s, e)
    case Raise => Stuck(None)
    case Bad => if CallsAgain(s, e) then Again(Step5, Step5Unparseable, None) else Stuck(None)
    case Good(o) =>
      if PlanPattern.CoversNote(NoteText(s), o.plan) then Judged(o)
      else Again(Step5, Step5MissingPlanIds(PlanPattern.Unanswered(NoteText(s), o.plan)), None)
  }

  ghost function Step5Fate(s: State, e: Env): Fate {
    if !e.ready then Stuck(Some(DesignHollow))
    else if !e.noteReadable then RoundLost(Step5NoteUnreadable, Some(ReqGap))
    else
      match Worktrees(e)
      case Generated => Stuck(Some(ImplGap))
      case Dirty => Again(Step4, Step5Preflight, Some(ImplGap))
      case Clean => if e.fault then Stuck(None) else ReviewFate(s, e)
  }

  /** What happened in the tick. */
  ghost function FateOf(s: State, e: Env): Fate
    requires !Terminal(s.step)
  {
    match s.step
    case Init => if e.ready then Forward(Step1) else Stuck(None)
    case Step1 => if e.ready then Forward(Step2) else Stuck(Some(DesignHollow))
    case Step2 => Step2Fate(e)
    case Step3 => Step3Fate(e)
    case Step4 => Step4Fate(e)
    case Step5 => Step5Fate(s, e)
  }

  // ---- what follows ----

  ghost predicate Stands(t: State, step: Step, rounds: nat, category: Option<Category>) {
    t.step == step && t.rounds == rounds && t.category == category
  }

  /** No retry is spent. */
  ghost predicate SpendsNothing(s: State, t: State) {
    t.gates.retries == s.gates.retries
  }

  ghost predicate Spends(s: State, t: State, step: Step) {
    t.gates.retries == s.gates.retries[RetryKey(step, s.rounds + 1) := 1]
  }

  predicate Spent(s: State, step: Step) {
    RetryKey(step, s.rounds + 1) in s.gates.retries && s.gates.retries[RetryKey(step, s.rounds + 1)] >= 1
  }

  ghost predicate TellsNothing(s: State, t: State) {
    t.gates.feedback == s.gates.feedback
  }

  /** The reason is recorded last; of all reasons the last fifty are kept. */
  ghost predicate Tells(s: State, t: State, entry: Feedback) {
    var all := s.gates.feedback + [entry];
    t.gates.feedback == if |all| <= 50 then all else all[|all| - 50..]
  }

  /** Escalated, with the step to resume. */
  ghost predicate Exhausts(s: State, t: State, step: Step, reason: Reason, category: Option<Category>) {
    && Stands(t, Escalated, s.rounds, category) && SpendsNothing(s, t) && TellsNothing(s, t)
    && t.gates.roundsResume == None
    && t.gates.stepResume == Some(StepResume(step, AfterRetry(reason), category, s.rounds + 1))
  }

  /** On to Step2 of the next round if the budget allows for one; else escalated, with the round to continue. */
  ghost predicate LosesRound(s: State, t: State, budget: int, reason: Reason, category: Option<Category>) {
    && SpendsNothing(s, t) && t.gates.stepResume == None
    && (if s.rounds + 1 < budget then
          && Stands(t, Step2, s.rounds + 1, category) && t.gates.roundsResume == None
          && Tells(s, t, Feedback(s.rounds + 2, Step2, reason, category))
        else
          && Stands(t, Escalated, s.rounds + 1, category) && TellsNothing(s, t)
          && t.gates.roundsResume == Some(RoundsResume(s.rounds + 1, budget, Step2, reason, category)))
  }

  /** One retry in a round: silent for Step2 and Step3, told for Step4 and Step5, and there only if the old file of the
      step could be deleted. After it Step3 gives the round up, the others the work. */
  ghost predicate Repeats(s: State, e: Env, t: State, budget: int, step: Step, reason: Reason, category: Option<Category>) {
    var entry := Feedback(s.rounds + 1, step, reason, category);
    match step
    case Step2 =>
      if Spent(s, Step2) then Exhausts(s, t, Step2, reason, category)
      else Stands(t, Step2, s.rounds, s.category) && Spends(s, t, Step2) && TellsNothing(s, t) && NoDescriptor(t)
    case Step3 =>
      if Spent(s, Step3) then LosesRound(s, t, budget, reason, category)
      else Stands(t, Step3, s.rounds, s.category) && Spends(s, t, Step3) && TellsNothing(s, t) && NoDescriptor(t)
    case Step4 =>
      if Spent(s, Step4) then Exhausts(s, t, Step4, reason, category)
      else if !e.cleaned then
        Stands(t, Escalated, s.rounds, category) && SpendsNothing(s, t) && Tells(s, t, entry) && NoDescriptor(t)
      else Stands(t, Step4, s.rounds, category) && Spends(s, t, Step4) && Tells(s, t, entry) && NoDescriptor(t)
    case _ =>
      if !e.cleaned then
        && Stands(t, Escalated, s.rounds, category) && SpendsNothing(s, t) && NoDescriptor(t)
        && (if Spent(s, Step5) then TellsNothing(s, t) else Tells(s, t, entry))
      else if Spent(s, Step5) then Exhausts(s, t, Step5, reason, category)
      else Stands(t, Step5, s.rounds, category) && Spends(s, t, Step5) && Tells(s, t, entry) && NoDescriptor(t)
  }

  ghost predicate Quiet(s: State, t: State) {
    SpendsNothing(s, t) && TellsNothing(s, t) && NoDescriptor(t)
  }

  /** A review is recorded: it completes the work, ends the round, or ends the work. */
  ghost predicate Judges(s: State, e: Env, t: State, budget: int, bar: int, o: Outcome) {
    if !e.patched then Stands(t, Escalated, s.rounds, None) && Quiet(s, t)
    else if o.category == None && o.score >= bar then Stands(t, Completed, s.rounds, None) && Quiet(s, t)
    else if o.category == Some(ReqGap) || o.category == Some(ImplGap) then
      LosesRound(s, t, budget, Scored(o.score), o.category)
    else Stands(t, Escalated, s.rounds, Some(DesignHollow)) && Quiet(s, t)
  }

  ghost predicate RowFollows(s: State, e: Env, t: State, budget: int, bar: int, fate: Fate) {
    match fate
    case Forward(to) => Stands(t, to, s.rounds, s.category) && Quiet(s, t)
    case Again(step, reason, category) => Repeats(s, e, t, budget, step, reason, category)
    case RoundLost(reason, category) => LosesRound(s, t, budget, reason, category)
    case Stuck(category) => Stands(t, Escalated, s.rounds, category) && Quiet(s, t)
    case Judged(o) => Judges(s, e, t, budget, bar, o)
  }

  /** Notes are added by Step2, findings by Step4, reviews with their score by Step5, and by nothing else. */
  ghost predicate TablesFollow(s: State, e: Env, t: State, fate: Fate) {
    && t.notes == (if fate == Forward(Step3) then s.notes + [s.rounds + 1] else s.notes)
    && t.gates.findings == (if fate == Forward(Step5) then s.gates.findings + {s.rounds + 1} else s.gates.findings)
    && t.reviews == (if fate.Judged? then s.reviews + [Recorded(s.rounds + 1, fate.outcome)] else s.reviews)
    && t.score == (if fate.Judged? && e.patched then Some(fate.outcome.score) else s.score)
    && t.firstPass == (if t.step == Completed then Some(s.rounds == 0) else s.firstPass)
    && t.cfg == s.cfg && t.gates.maxRounds == s.gates.maxRounds && t.gates.threshold == s.gates.threshold
    && t.gates.cancelledFrom == s.gates.cancelledFrom && t.cutShort == s.cutShort && t.cutOff == s.cutOff
  }

  /** The note is the agent's of Step2, with the boxes ticked that a review confirms. */
  ghost predicate NoteFollows(s: State, e: Env, t: State, fate: Fate) {
    var n := s.rounds + 1;
    if s.step.Step2? && e.ready then
      t.noteText == if e.fault then s.noteText[n := e.header]
                    else if e.noteText.Some? then s.noteText[n := e.noteText.value]
                    else s.noteText - {n}
    else if fate.Judged? && e.patched then
      t.noteText == s.noteText[n := PlanAudit.Patch(NoteText(s), PlanAudit.DoneIds(fate.outcome.plan))]
    else t.noteText == s.noteText
  }

  /** What lies at the path of the review once the agent was asked. */
  ghost function FileAfter(s: State, e: Env): Option<Output> {
    if !Succeeded(e.llm) then FileSeen(s, e)
    else if !FirstReading(s, e).Bad? then FileKept(FileSeen(s, e), e.stdout)
    else if !e.logged then FileSeen(s, e)
    else if Succeeded(e.repair) then FileKept(FileSeenAgain(s, e), e.stdoutAgain)
    else FileSeenAgain(s, e)
  }

  ghost function Put(files: map<nat, Output>, n: nat, file: Option<Output>): map<nat, Output> {
    if file.Some? then files[n := file.value] else files - {n}
  }

  /** The review file is what was read, and is deleted when Step5 is to be repeated. */
  ghost predicate FileFollows(s: State, e: Env, t: State, fate: Fate) {
    t.artifacts ==
    if !s.step.Step5? || !AsksForReview(e) then s.artifacts
    else if fate.Again? && e.cleaned then s.artifacts - {s.rounds + 1}
    else Put(s.artifacts, s.rounds + 1, FileAfter(s, e))
  }

  /** The handler of the current step comes to the point where it asks its agent. */
  predicate Asks(s: State, e: Env) {
    match s.step
    case Step2 => e.ready && !e.fault
    case Step3 => !e.fault
    case Step4 => !e.fault
    case Step5 => AsksForReview(e)
    case _ => false
  }

  /** The prompts a tick adds. */
  function NewPrompts(s: State, e: Env): seq<Prompt> {
    if Asks(s, e) then [Prompt(s.step, Round(s), HandlerFeedback(s))] else []
  }

  /** The session comes to life unless it cannot be started and leaves nothing behind. */
  function Begun(session: Session, run: LlmRun): seq<Session> {
    if run.Ran? || run.remnant then [session] else []
  }

  /** The sessions a tick starts: one for each agent that is asked; only Step3 goes on in one that is there. */
  function NewSessions(s: State, e: Env): seq<Session> {
    var plan, build, review := Session(s.rounds + 1, SessionNames.Plan), Session(s.rounds + 1, SessionNames.Build),
                               Session(s.rounds + 1, SessionNames.Review);
    match s.step
    case Step2 => if Asks(s, e) then Begun(plan, e.llm) else []
    case Step3 => if Asks(s, e) && SessionNames.Build !in s.pool.cache then Begun(build, e.llm) else []
    case Step4 => if Asks(s, e) then Begun(build, e.llm) else []
    case Step5 => Cleaning(s, e) + if Asks(s, e) then Begun(review, e.llm) else []
    case _ => []
  }

  /** Generated files are removed by an agent of its own. */
  function Cleaning(s: State, e: Env): seq<Session> {
    if e.ready && e.noteReadable && e.preflight.Generated? then Begun(Session(s.rounds + 1, SessionNames.Build), e.cleanup)
    else []
  }

  ghost predicate TraceFollows(s: State, e: Env, t: State) {
    t.prompts == s.prompts + NewPrompts(s, e) && (SessionsOk(s) ==> t.pool.started == s.pool.started + NewSessions(s, e))
  }

  ghost predicate FateFollows(s: State, e: Env, t: State, budget: int, bar: int, fate: Fate) {
    && RowFollows(s, e, t, budget, bar, fate) && TablesFollow(s, e, t, fate)
    && NoteFollows(s, e, t, fate) && FileFollows(s, e, t, fate)
  }

  /** What follows from the tick. */
  ghost predicate Follows(s: State, e: Env, t: State, budget: int, bar: int)
    requires !Terminal(s.step)
  {
    FateFollows(s, e, t, budget, bar, FateOf(s, e)) && TraceFollows(s, e, t)
  }

  // ---- the helpers of the handlers ----

  /** In the middle of a handler that started from `s`: the row, the gates and the tables are as they were. */
  ghost predicate Amid(s: State, u: State) {
    && u.cfg == s.cfg && u.rounds == s.rounds && u.category == s.category && u.gates == s.gates
    && u.score == s.score && u.firstPass == s.firstPass && u.notes == s.notes && u.reviews == s.reviews
    && u.cutShort == s.cutShort && u.cutOff == s.cutOff
    && NoDescriptor(s) && RetriesOk(s.gates.retries, Round(s))
  }

  ghost predicate SameElse(s: State, u: State, t: State) {
    t.noteText == u.noteText && t.artifacts == u.artifacts && SameTrace(s, u, t)
  }

  ghost predicate SameTrace(s: State, u: State, t: State) {
    t.prompts == u.prompts && (SessionsOk(s) ==> t.pool.started == u.pool.started)
  }

  lemma StuckFollows(s: State, e: Env, u: State, budget: int, bar: int, category: Option<Category>)
    requires Amid(s, u)
    ensures var t, fate := Escalate(u, category, e.stuck), Stuck(category);
            RowFollows(s, e, t, budget, bar, fate) && TablesFollow(s, e, t, fate) && SameElse(s, u, t)
  {
  }

  lemma LostFollows(s: State, e: Env, u: State, budget: int, bar: int, reason: Reason, category: Option<Category>)
    requires Amid(s, u) && IsBudget(s, budget)
    ensures var t, fate := BurnRound(u, Step2, reason, category, e.stuck), RoundLost(reason, category);
            RowFollows(s, e, t, budget, bar, fate) && TablesFollow(s, e, t, fate) && SameElse(s, u, t)
  {
  }

  lemma Again2Follows(s: State, e: Env, u: State, budget: int, bar: int, reason: Reason)
    requires Amid(s, u) && u.step.Step2?
    ensures var t, fate := RetryStep2(u, reason, e.stuck), Again(Step2, reason, Some(ReqGap));
            RowFollows(s, e, t, budget, bar, fate) && TablesFollow(s, e, t, fate) && SameElse(s, u, t)
  {
  }

  lemma TellingIs(s: State, u: State, entry: Feedback)
    requires Amid(s, u)
    ensures var t := AppendFeedback(u, entry);
            && Tells(s, t, entry) && SpendsNothing(s, t) && NoDescriptor(t)
            && t == u.(gates := s.gates.(feedback := t.gates.feedback))
  {
  }

  lemma CountingIs(s: State, u: State, step: Step)
    requires u.rounds == s.rounds && u.gates.retries == s.gates.retries && !Spent(s, step)
    ensures Attempts(u, step) == 0
    ensures var t := CountAttempt(u, step); Spends(s, t, step) && t == u.(gates := u.gates.(retries := t.gates.retries))
  {
  }

  lemma Again4Follows(s: State, e: Env, u: State, budget: int, bar: int, reason: Reason)
    requires Amid(s, u)
    ensures var t, fate := RetryStep4(u, reason, Some(ImplGap), e), Again(Step4, reason, Some(ImplGap));
            RowFollows(s, e, t, budget, bar, fate) && TablesFollow(s, e, t, fate) && SameElse(s, u, t)
  {
    if !Spent(s, Step4) {
      var entry := Feedback(Round(s), Step4, reason, Some(ImplGap));
      TellingIs(s, u, entry);
      CountingIs(s, AppendFeedback(u, entry), Step4);
    }
  }

  lemma Again5Follows(s: State, e: Env, u: State, budget: int, bar: int, reason: Reason)
    requires Amid(s, u)
    ensures var t, fate := RetryStep5(u, reason, None, e), Again(Step5, reason, None);
            && RowFollows(s, e, t, budget, bar, fate) && TablesFollow(s, e, t, fate)
            && t.noteText == u.noteText && SameTrace(s, u, t)
            && t.artifacts == if e.cleaned then u.artifacts - {Round(s)} else u.artifacts
  {
    if !Spent(s, Step5) {
      var entry := Feedback(Round(s), Step5, reason, None);
      var clean := u.(artifacts := u.artifacts - {Round(u)});
      TellingIs(s, u, entry);
      TellingIs(s, clean, entry);
      CountingIs(s, AppendFeedback(clean, entry), Step5);
    }
  }

  lemma PoolRowFollows(s: State, e: Env, t: State, budget: int, bar: int, fate: Fate, pool: Pool)
    requires RowFollows(s, e, t, budget, bar, fate)
    ensures RowFollows(s, e, t.(pool := pool), budget, bar, fate)
  {
  }

  /** What is cached or alive does not matter. */
  lemma PoolFollows(s: State, e: Env, t: State, budget: int, bar: int, pool: Pool)
    requires !Terminal(s.step) && Follows(s, e, t, budget, bar) && pool.started == t.pool.started
    ensures Follows(s, e, t.(pool := pool), budget, bar)
  {
    PoolRowFollows(s, e, t, budget, bar, FateOf(s, e), pool);
  }

  predicate InHand(u: State, role: SessionNames.Role) {
    role in u.pool.cache && u.pool.cache[role] == Round(u)
  }

  /** A session that is not cached is started. */
  lemma StartIs(p: Pool, session: Session, run: LlmRun, stuck: set<Session>)
    requires session.role !in p.cache
    ensures var q := Start(p, session, run, stuck);
            && q.started == p.started + Begun(session, run)
            && q.cache == if run.Ran? then p.cache[session.role := session.round] else p.cache
  {
  }

  // ---- INIT to Step4 ----

  /** The state a driver tick makes of what a handler leaves. */
  function Driven(h: Handled, stuck: set<Session>): State {
    match h
    case Done(t) => t
    case Raised(t) => Escalate(t, None, stuck)
  }

  lemma StartFollows(s: State, e: Env, budget: int, bar: int)
    requires s.step.Init? || s.step.Step1?
    requires NoDescriptor(s) && RetriesOk(s.gates.retries, Round(s))
    ensures Follows(s, e, DriverTick(s, e), budget, bar)
  {
    StuckFollows(s, e, s, budget, bar, None);
    StuckFollows(s, e, s, budget, bar, Some(DesignHollow));
  }

  lemma PlanFollows(s: State, e: Env, u: State, budget: int, bar: int)
    requires s.step.Step2? && Amid(s, u) && u.step.Step2? && IsBudget(s, budget)
    requires (Round(s) in u.noteText <==> e.noteText.Some?) && Round(s) !in s.notes && e.ready && !e.fault && Succeeded(e.llm)
    ensures var t, fate := Step2Accept(u, e), Step2Fate(e);
            RowFollows(s, e, t, budget, bar, fate) && TablesFollow(s, e, t, fate) && SameElse(s, u, t)
  {
    if e.noteText.None? {
      LostFollows(s, e, u, budget, bar, Step2Unreadable, Some(ReqGap));
    } else if !e.headings {
      LostFollows(s, e, u, budget, bar, Step2MissingH2, Some(ReqGap));
    } else if !e.indexed {
      StuckFollows(s, e, u, budget, bar, None);
    }
  }

  lemma Step2AcceptFollows(s: State, e: Env, u: State, budget: int, bar: int)
    requires s.step.Step2? && Amid(s, u) && u.step.Step2? && IsBudget(s, budget)
    requires (Round(s) in u.noteText <==> e.noteText.Some?) && Round(s) !in s.notes && e.ready && !e.fault
    ensures var t, fate := Step2Accept(u, e), Step2Fate(e);
            RowFollows(s, e, t, budget, bar, fate) && TablesFollow(s, e, t, fate) && SameElse(s, u, t)
  {
    if Rc(e.llm) != 0 {
      Again2Follows(s, e, u, budget, bar, Step2Rc(Rc(e.llm)));
    } else {
      PlanFollows(s, e, u, budget, bar);
    }
  }

  lemma WrittenNote(s: State, e: Env)
    requires s.step.Step2?
    ensures var u := Step2Written(s, e);
            && u.prompts == s.prompts + [Prompt(Step2, Round(s), HandlerFeedback(s))]
            && (SessionsOk(s) ==> u.pool.started == s.pool.started + Begun(Session(s.rounds + 1, SessionNames.Plan), e.llm))
    ensures Step2Written(s, e).noteText ==
            if e.noteText.Some? then s.noteText[Round(s) := e.noteText.value] else s.noteText - {Round(s)}
  {
    if SessionsOk(s) {
      StartIs(s.pool, Session(Round(s), SessionNames.Plan), e.llm, e.stuck);
    }
  }

  lemma Step2AskedFollows(s: State, e: Env, budget: int, bar: int)
    requires s.step.Step2? && Inv(s) && IsBudget(s, budget) && e.ready && !e.fault
    ensures Follows(s, e, Step2Accept(Step2Written(s, e), e), budget, bar)
  {
    var u := Step2Written(s, e);
    WrittenNote(s, e);
    Step2AcceptFollows(s, e, u, budget, bar);
    PlannedFollows(s, e, u, Step2Accept(u, e), budget, bar);
  }

  lemma PlannedFollows(s: State, e: Env, u: State, t: State, budget: int, bar: int)
    requires s.step.Step2? && e.ready && !e.fault && TraceFollows(s, e, u) && SameElse(s, u, t)
    requires u.noteText == if e.noteText.Some? then s.noteText[Round(s) := e.noteText.value] else s.noteText - {Round(s)}
    requires u.artifacts == s.artifacts
    requires RowFollows(s, e, t, budget, bar, Step2Fate(e)) && TablesFollow(s, e, t, Step2Fate(e))
    ensures Follows(s, e, t, budget, bar)
  {
    assert FateOf(s, e) == Step2Fate(e);
  }

  lemma Step2BodyFollows(s: State, e: Env, budget: int, bar: int)
    requires s.step.Step2? && Inv(s) && IsBudget(s, budget)
    ensures Follows(s, e, Driven(Step2Body(s, e), e.stuck), budget, bar)
  {
    if !e.ready {
      StuckFollows(s, e, s, budget, bar, Some(DesignHollow));
    } else if e.fault {
      StuckFollows(s, e, s.(noteText := s.noteText[Round(s) := e.header]), budget, bar, None);
    } else {
      Step2AskedFollows(s, e, budget, bar);
    }
  }

  lemma Step2Driven(s: State, e: Env)
    requires s.step.Step2?
    ensures var t := Driven(Step2Body(s, e), e.stuck);
            DriverTick(s, e) == t.(pool := DriverTick(s, e).pool) && DriverTick(s, e).pool.started == t.pool.started
  {
  }

  lemma Step2Follows(s: State, e: Env, budget: int, bar: int)
    requires s.step.Step2? && Inv(s) && IsBudget(s, budget)
    ensures Follows(s, e, DriverTick(s, e), budget, bar)
  {
    Step2BodyFollows(s, e, budget, bar);
    Step2Driven(s, e);
    PoolFollows(s, e, Driven(Step2Body(s, e), e.stuck), budget, bar, DriverTick(s, e).pool);
  }

  lemma Step3AcceptFollows(s: State, e: Env, u: State, budget: int, bar: int)
    requires s.step.Step3? && Amid(s, u) && u.step.Step3? && IsBudget(s, budget) && !e.fault
    ensures var t, fate := Step3Accept(u, e), Step3Fate(e);
            RowFollows(s, e, t, budget, bar, fate) && TablesFollow(s, e, t, fate) && SameElse(s, u, t)
  {
    if Succeeded(e.llm) && e.contextWritten {
    } else if Spent(s, Step3) {
      LostFollows(s, e, u, budget, bar, Step3FailedTwice(Rc(e.llm)), Some(ReqGap));
    }
  }

  lemma Step3AskedFollows(s: State, e: Env, budget: int, bar: int)
    requires s.step.Step3? && NoDescriptor(s) && RetriesOk(s.gates.retries, Round(s)) && IsBudget(s, budget)
    requires !e.fault
    ensures Follows(s, e, Step3Accept(Opened(AddPrompt(s, []), SessionNames.Build, e.llm, e.stuck), e), budget, bar)
  {
    if SessionNames.Build !in s.pool.cache {
      StartIs(s.pool, Session(Round(s), SessionNames.Build), e.llm, e.stuck);
    }
    Step3AcceptFollows(s, e, Opened(AddPrompt(s, []), SessionNames.Build, e.llm, e.stuck), budget, bar);
  }

  lemma Step3Follows(s: State, e: Env, budget: int, bar: int)
    requires s.step.Step3? && Inv(s) && IsBudget(s, budget)
    ensures Follows(s, e, DriverTick(s, e), budget, bar)
  {
    LatestNoteIsThisRounds(s);
    if e.fault {
      StuckFollows(s, e, s, budget, bar, None);
    } else {
      Step3AskedFollows(s, e, budget, bar);
    }
  }

  lemma FindingsFollow(s: State, e: Env, u: State, budget: int, bar: int)
    requires s.step.Step4? && Amid(s, u) && !e.fault && Succeeded(e.llm) && (SessionsOk(s) ==> InHand(u, SessionNames.Build))
    ensures var t, fate := Step4Accept(u, e), Step4Fate(e);
            RowFollows(s, e, t, budget, bar, fate) && TablesFollow(s, e, t, fate) && SameElse(s, u, t)
  {
    var u1 := if e.findings.Missing? || e.findings.Invalid? then Opened(u, SessionNames.Build, e.repair, e.stuck) else u;
    assert FindingsAfterRepair(e).Found? <==> Delivered(e);
    if !Delivered(e) {
      Again4Follows(s, e, u1, budget, bar, FindingsReason(FindingsAfterRepair(e)));
    }
  }

  lemma Step4AcceptFollows(s: State, e: Env, u: State, budget: int, bar: int)
    requires s.step.Step4? && Amid(s, u) && !e.fault && (SessionsOk(s) && Succeeded(e.llm) ==> InHand(u, SessionNames.Build))
    ensures var t, fate := Step4Accept(u, e), Step4Fate(e);
            RowFollows(s, e, t, budget, bar, fate) && TablesFollow(s, e, t, fate) && SameElse(s, u, t)
  {
    if Rc(e.llm) != 0 {
      Again4Follows(s, e, u, budget, bar, Step4Rc(Rc(e.llm)));
    } else {
      FindingsFollow(s, e, u, budget, bar);
    }
  }

  lemma Step4AskedFollows(s: State, e: Env, u: State, budget: int, bar: int)
    requires s.step.Step4? && NoDescriptor(s) && RetriesOk(s.gates.retries, Round(s)) && !e.fault
    requires u == s.(pool := u.pool) && (SessionsOk(s) ==> u.pool.cache == map[]) && u.pool.started == s.pool.started
    ensures Follows(s, e, Step4Accept(Opened(AddPrompt(u, HandlerFeedback(u)), SessionNames.Build, e.llm, e.stuck), e), budget, bar)
  {
    if SessionsOk(s) {
      StartIs(u.pool, Session(Round(s), SessionNames.Build), e.llm, e.stuck);
    }
    Step4AcceptFollows(s, e, Opened(AddPrompt(u, HandlerFeedback(u)), SessionNames.Build, e.llm, e.stuck), budget, bar);
  }

  lemma Step4Follows(s: State, e: Env, budget: int, bar: int)
    requires s.step.Step4? && Inv(s)
    ensures Follows(s, e, DriverTick(s, e), budget, bar)
  {
    LatestNoteIsThisRounds(s);
    var cold := s.(pool := CloseRole(s.pool, Session(Round(s), SessionNames.Build), e.stuck));
    if e.fault {
      StuckFollows(s, e, cold, budget, bar, None);
    } else {
      Step4AskedFollows(s, e, cold, budget, bar);
    }
  }

  // ---- Step5 ----

  lemma ReadingIs(file: Option<Output>, stdout: Output)
    ensures ReadReview(file, stdout) == (Preferred(file, stdout), FileKept(file, stdout))
  {
  }

  /** Asked for a review, with `file` at the path. */
  ghost predicate Asked(s: State, u: State, file: Option<Output>) {
    && s.step.Step5? && Amid(s, u) && u.noteText == s.noteText && Round(s) in s.noteText
    && u.artifacts == Put(s.artifacts, Round(s), file)
  }

  lemma DecidedFollows(s: State, e: Env, u: State, budget: int, bar: int, o: Outcome)
    requires s.step.Step5? && NoDescriptor(s) && IsBudget(s, budget) && IsBar(s, bar) && e.patched
    requires u.cfg == s.cfg && u.rounds == s.rounds && u.gates == s.gates && u.category == o.category
    ensures Judges(s, e, Decided(u, o, e), budget, bar, o)
    ensures var t := Decided(u, o, e);
            && t == u.(step := t.step, firstPass := t.firstPass, rounds := t.rounds, category := t.category,
                       gates := t.gates, pool := t.pool)
            && SameTrace(s, u, t)
            && t.gates == s.gates.(feedback := t.gates.feedback, roundsResume := t.gates.roundsResume)
            && t.firstPass == if t.step.Completed? then Some(s.rounds == 0) else u.firstPass
  {
  }

  lemma ReviewedFollows(s: State, e: Env, u: State, budget: int, bar: int, o: Outcome, file: Option<Output>)
    requires Asked(s, u, file) && IsBudget(s, budget) && IsBar(s, bar)
    ensures var t, fate := Reviewed(u, o, e), Judged(o);
            && RowFollows(s, e, t, budget, bar, fate) && TablesFollow(s, e, t, fate) && NoteFollows(s, e, t, fate)
            && t.artifacts == u.artifacts && SameTrace(s, u, t)
  {
    if e.patched {
      var patched := u.(reviews := u.reviews + [Recorded(Round(u), o)],
                        noteText := u.noteText[Round(u) := PlanAudit.Patch(NoteText(u), PlanAudit.DoneIds(o.plan))],
                        score := Some(o.score), category := o.category);
      DecidedFollows(s, e, patched, budget, bar, o);
    }
  }

  /** The state `t` is what follows from the review that was asked for in `u`. */
  ghost predicate Settles(s: State, e: Env, u: State, t: State, budget: int, bar: int) {
    FateFollows(s, e, t, budget, bar, ReviewFate(s, e)) && SameTrace(s, u, t)
  }

  lemma TakenFollows(s: State, e: Env, u: State, budget: int, bar: int, o: Outcome, file: Option<Output>)
    requires Asked(s, u, file) && IsBudget(s, budget) && IsBar(s, bar) && AsksForReview(e)
    requires Reading(s, e) == Good(o) && file == FileAfter(s, e) && PlanPattern.CoversNote(NoteText(s), o.plan)
    ensures Settles(s, e, u, Reviewed(u, o, e), budget, bar)
  {
    ReviewedFollows(s, e, u, budget, bar, o, file);
  }

  /** Step5 is to be repeated. */
  lemma RepeatFollows(s: State, e: Env, u: State, budget: int, bar: int, reason: Reason, file: Option<Output>)
    requires Asked(s, u, file) && AsksForReview(e)
    requires ReviewFate(s, e) == Again(Step5, reason, None) && file == FileAfter(s, e)
    ensures Settles(s, e, u, RetryStep5(u, reason, None, e), budget, bar)
  {
    Again5Follows(s, e, u, budget, bar, reason);
    assert Put(s.artifacts, Round(s), file) - {Round(s)} == s.artifacts - {Round(s)};
  }

  lemma IncompleteFollows(s: State, e: Env, u: State, budget: int, bar: int, o: Outcome, file: Option<Output>)
    requires Asked(s, u, file) && AsksForReview(e)
    requires Reading(s, e) == Good(o) && file == FileAfter(s, e) && !PlanPattern.CoversNote(NoteText(s), o.plan)
    ensures Settles(s, e, u, RetryStep5(u, Step5MissingPlanIds(PlanPattern.Unanswered(NoteText(s), o.plan)), None, e), budget, bar)
  {
    RepeatFollows(s, e, u, budget, bar, Step5MissingPlanIds(PlanPattern.Unanswered(NoteText(s), o.plan)), file);
  }

  lemma AcceptIs(u: State, o: Outcome, e: Env)
    ensures AcceptReview(u, o, e) ==
            if PlanPattern.CoversNote(NoteText(u), o.plan) then Reviewed(u, o, e)
            else RetryStep5(u, Step5MissingPlanIds(PlanPattern.Unanswered(NoteText(u), o.plan)), None, e)
  {
    PlanPattern.MissingExactly(NoteText(u), o.plan);
  }

  /** A review was read. */
  lemma ReadFollows(s: State, e: Env, u: State, budget: int, bar: int, o: Outcome, file: Option<Output>)
    requires Asked(s, u, file) && IsBudget(s, budget) && IsBar(s, bar) && AsksForReview(e)
    requires Reading(s, e) == Good(o) && file == FileAfter(s, e)
    ensures Settles(s, e, u, AcceptReview(u, o, e), budget, bar)
  {
    AcceptIs(u, o, e);
    assert NoteText(u) == NoteText(s);
    if PlanPattern.CoversNote(NoteText(s), o.plan) {
      TakenFollows(s, e, u, budget, bar, o, file);
    } else {
      IncompleteFollows(s, e, u, budget, bar, o, file);
    }
  }

  /** No review was read, and Step5 is to be repeated. */
  lemma UnreadFollows(s: State, e: Env, u: State, budget: int, bar: int, file: Option<Output>)
    requires Asked(s, u, file) && AsksForReview(e)
    requires Reading(s, e).Bad? && CallsAgain(s, e) && file == FileAfter(s, e)
    ensures Settles(s, e, u, RetryStep5(u, Step5Unparseable, None, e), budget, bar)
  {
    RepeatFollows(s, e, u, budget, bar, Step5Unparseable, file);
  }

  /** The tick ends without a review and without a retry. */
  lemma UnloggedFollows(s: State, e: Env, u: State, budget: int, bar: int, file: Option<Output>)
    requires Asked(s, u, file) && AsksForReview(e)
    requires Reading(s, e).Raise? || (Reading(s, e).Bad? && !CallsAgain(s, e))
    requires file == FileAfter(s, e)
    ensures Settles(s, e, u, Escalate(u, None, e.stuck), budget, bar)
  {
    StuckFollows(s, e, u, budget, bar, None);
  }

  /** Whatever the last reading gave. */
  lemma ReadingFollows(s: State, e: Env, u: State, budget: int, bar: int, file: Option<Output>)
    requires Asked(s, u, file) && IsBudget(s, budget) && IsBar(s, bar) && AsksForReview(e)
    requires file == FileAfter(s, e)
    ensures Reading(s, e).Good? ==> Settles(s, e, u, AcceptReview(u, Reading(s, e).value, e), budget, bar)
    ensures Reading(s, e).Bad? && CallsAgain(s, e) ==> Settles(s, e, u, RetryStep5(u, Step5Unparseable, None, e), budget, bar)
    ensures Reading(s, e).Raise? || (Reading(s, e).Bad? && !CallsAgain(s, e)) ==>
              Settles(s, e, u, Escalate(u, None, e.stuck), budget, bar)
  {
    match Reading(s, e)
    case Good(o) => ReadFollows(s, e, u, budget, bar, o, file);
    case Bad =>
      if CallsAgain(s, e) {
        UnreadFollows(s, e, u, budget, bar, file);
      } else {
        UnloggedFollows(s, e, u, budget, bar, file);
      }
    case Raise => UnloggedFollows(s, e, u, budget, bar, file);
  }

  lemma SecondFollows(s: State, e: Env, u: State, budget: int, bar: int)
    requires Asked(s, u, FileSeen(s, e)) && IsBudget(s, budget) && IsBar(s, bar) && AsksForReview(e)
    requires CallsAgain(s, e) && Succeeded(e.llm)
    ensures Settles(s, e, u, Driven(JudgeRepair(u, e), e.stuck), budget, bar)
  {
    var u1 := Written(u, e.artifactAgain);
    WrittenAgain(s, e, u);
    if !Succeeded(e.repair) {
      UnreadFollows(s, e, u1, budget, bar, FileSeenAgain(s, e));
    } else {
      ReadingIs(FileSeenAgain(s, e), e.stdoutAgain);
      SecondReadFollows(s, e, u1, budget, bar);
    }
  }

  lemma WrittenAgain(s: State, e: Env, u: State)
    requires Asked(s, u, FileSeen(s, e))
    ensures var u1 := Written(u, e.artifactAgain);
            Asked(s, u1, FileSeenAgain(s, e)) && ArtifactOf(u1) == FileSeenAgain(s, e) && SameTrace(s, u, u1)
  {
    var u1 := Written(u, e.artifactAgain);
    assert u1.artifacts == Put(s.artifacts, Round(s), FileSeenAgain(s, e));
  }

  lemma SecondReadFollows(s: State, e: Env, u: State, budget: int, bar: int)
    requires Asked(s, u, FileSeenAgain(s, e)) && IsBudget(s, budget) && IsBar(s, bar) && AsksForReview(e)
    requires CallsAgain(s, e) && Succeeded(e.llm) && Succeeded(e.repair)
    ensures var file := FileKept(FileSeenAgain(s, e), e.stdoutAgain);
            match Preferred(FileSeenAgain(s, e), e.stdoutAgain)
            case Good(o) => Settles(s, e, u, AcceptReview(WithArtifact(u, file), o, e), budget, bar)
            case Bad => Settles(s, e, u, RetryStep5(WithArtifact(u, file), Step5Unparseable, None, e), budget, bar)
            case Raise => Settles(s, e, u, Escalate(WithArtifact(u, file), None, e.stuck), budget, bar)
  {
    var file := FileKept(FileSeenAgain(s, e), e.stdoutAgain);
    assert WithArtifact(u, file).artifacts == Put(s.artifacts, Round(s), file);
    ReadingFollows(s, e, WithArtifact(u, file), budget, bar, file);
  }

  lemma RepairFollows(s: State, e: Env, u: State, budget: int, bar: int)
    requires Asked(s, u, FileSeen(s, e)) && IsBudget(s, budget) && IsBar(s, bar) && AsksForReview(e)
    requires CallsAgain(s, e) && (SessionsOk(s) && Succeeded(e.llm) ==> InHand(u, SessionNames.Review))
    ensures Settles(s, e, u, Driven(RepairReview(u, e), e.stuck), budget, bar)
  {
    if Succeeded(e.llm) {
      SecondFollows(s, e, Opened(u, SessionNames.Review, e.repair, e.stuck), budget, bar);
    } else {
      UnreadFollows(s, e, u, budget, bar, FileSeen(s, e));
    }
  }

  /** The file after the first reading. */
  ghost function FirstFile(s: State, e: Env): Option<Output> {
    if Succeeded(e.llm) then FileKept(FileSeen(s, e), e.stdout) else FileSeen(s, e)
  }

  lemma FirstReadingIs(s: State, e: Env, u: State)
    requires u.rounds == s.rounds && u.artifacts == s.artifacts
    ensures var u1 := WithArtifact(u, FirstFile(s, e));
            && u1.artifacts == Put(s.artifacts, Round(s), FirstFile(s, e))
            && JudgeReview(u, e) ==
               match FirstReading(s, e)
               case Good(o) => Done(AcceptReview(u1, o, e))
               case Bad => if !e.logged then Done(Escalate(u1, None, e.stuck)) else RepairReview(u1, e)
               case Raise => Raised(u1)
  {
    var u1 := Written(u, e.artifact);
    assert ArtifactOf(u1) == FileSeen(s, e);
    ReadingIs(FileSeen(s, e), e.stdout);
    assert WithArtifact(u1, FirstFile(s, e)) == WithArtifact(u, FirstFile(s, e));
  }

  lemma FirstFollows(s: State, e: Env, u: State, budget: int, bar: int)
    requires s.step.Step5? && Amid(s, u) && u.noteText == s.noteText && u.artifacts == s.artifacts && Round(s) in s.noteText
    requires (SessionsOk(s) && Succeeded(e.llm) ==> InHand(u, SessionNames.Review))
    requires IsBudget(s, budget) && IsBar(s, bar) && AsksForReview(e)
    ensures Settles(s, e, u, Driven(JudgeReview(u, e), e.stuck), budget, bar)
  {
    FirstReadingIs(s, e, u);
    var u1 := WithArtifact(u, FirstFile(s, e));
    if CallsAgain(s, e) {
      RepairFollows(s, e, u1, budget, bar);
    } else {
      ReadingFollows(s, e, u1, budget, bar, FirstFile(s, e));
    }
  }

  /** After the checks, with every session closed. */
  ghost predicate Checked(s: State, e: Env, u: State) {
    && s.step.Step5? && Amid(s, u) && u.step.Step5? && u.noteText == s.noteText && u.artifacts == s.artifacts
    && Round(s) in s.noteText && u.prompts == s.prompts
    && (SessionsOk(s) ==> u.pool.started == s.pool.started + Cleaning(s, e) && u.pool.cache == map[])
  }

  lemma ReviewAsked(s: State, e: Env, u: State)
    requires Checked(s, e, u) && AsksForReview(e)
    ensures var asked := Opened(AddPrompt(u, HandlerFeedback(u)), SessionNames.Review, e.llm, e.stuck);
            && TraceFollows(s, e, asked) && (SessionsOk(s) && Succeeded(e.llm) ==> InHand(asked, SessionNames.Review))
            && Amid(s, asked) && asked.noteText == s.noteText && asked.artifacts == s.artifacts
  {
    if SessionsOk(s) {
      StartIs(u.pool, Session(Round(s), SessionNames.Review), e.llm, e.stuck);
    }
  }

  lemma SettlingFollows(s: State, e: Env, u: State, t: State, budget: int, bar: int)
    requires s.step.Step5? && AsksForReview(e) && TraceFollows(s, e, u) && Settles(s, e, u, t, budget, bar)
    ensures Follows(s, e, t, budget, bar)
  {
    assert FateOf(s, e) == ReviewFate(s, e);
  }

  lemma ReviewAskedFollows(s: State, e: Env, u: State, budget: int, bar: int)
    requires Checked(s, e, u) && IsBudget(s, budget) && IsBar(s, bar) && AsksForReview(e)
    ensures Follows(s, e, Driven(RunReview(u, e), e.stuck), budget, bar)
  {
    var asked := Opened(AddPrompt(u, HandlerFeedback(u)), SessionNames.Review, e.llm, e.stuck);
    ReviewAsked(s, e, u);
    FirstFollows(s, e, asked, budget, bar);
    SettlingFollows(s, e, asked, Driven(JudgeReview(asked, e), e.stuck), budget, bar);
  }

  lemma ReviewFollows(s: State, e: Env, u: State, budget: int, bar: int)
    requires Checked(s, e, u)
    requires IsBudget(s, budget) && IsBar(s, bar) && e.ready && e.noteReadable && Worktrees(e).Clean?
    ensures Follows(s, e, Driven(AfterPreflight(u, Clean, e), e.stuck), budget, bar)
  {
    if e.fault {
      StuckFollows(s, e, u, budget, bar, None);
    } else {
      ReviewAskedFollows(s, e, u, budget, bar);
    }
  }

  lemma UncleanFollows(s: State, e: Env, u: State, budget: int, bar: int)
    requires Checked(s, e, u) && e.ready && e.noteReadable && !Worktrees(e).Clean?
    ensures Follows(s, e, Driven(AfterPreflight(u, Worktrees(e), e), e.stuck), budget, bar)
  {
    if Worktrees(e).Generated? {
      StuckFollows(s, e, u, budget, bar, Some(ImplGap));
    } else {
      Again4Follows(s, e, u, budget, bar, Step5Preflight);
    }
  }

  lemma AfterPreflightFollows(s: State, e: Env, u: State, budget: int, bar: int)
    requires Checked(s, e, u)
    requires IsBudget(s, budget) && IsBar(s, bar) && e.ready && e.noteReadable
    ensures Follows(s, e, Driven(AfterPreflight(u, Worktrees(e), e), e.stuck), budget, bar)
  {
    match Worktrees(e)
    case Generated => UncleanFollows(s, e, u, budget, bar);
    case Dirty => UncleanFollows(s, e, u, budget, bar);
    case Clean => ReviewFollows(s, e, u, budget, bar);
  }

  lemma PreflightIs(s: State, e: Env)
    ensures var (u, found) := RunPreflight(s, e);
            && found == Worktrees(e) && u == s.(pool := u.pool)
            && (s.pool.cache == map[] && e.ready && e.noteReadable ==>
                  u.pool.cache == map[] && u.pool.started == s.pool.started + Cleaning(s, e))
  {
    if s.pool.cache == map[] {
      StartIs(s.pool, Session(Round(s), SessionNames.Build), e.cleanup, e.stuck);
    }
  }

  lemma UnreadyFollows(s: State, e: Env, u: State, budget: int, bar: int)
    requires s.step.Step5? && Amid(s, u) && SameElse(s, s, u) && IsBudget(s, budget) && (!e.ready || !e.noteReadable)
    requires s.notes != [] && Latest(s.notes) == Round(s)
    ensures Follows(s, e, Driven(Step5Body(u, e), e.stuck), budget, bar)
  {
    if !e.ready {
      StuckFollows(s, e, u, budget, bar, Some(DesignHollow));
    } else {
      LostFollows(s, e, u, budget, bar, Step5NoteUnreadable, Some(ReqGap));
    }
  }

  lemma Step5BodyFollows(s: State, e: Env, u: State, budget: int, bar: int)
    requires s.step.Step5? && Amid(s, u) && u.step.Step5? && SameElse(s, s, u) && (SessionsOk(s) ==> u.pool.cache == map[])
    requires IsBudget(s, budget) && IsBar(s, bar)
    requires s.notes != [] && Latest(s.notes) == Round(s) && Round(s) in s.noteText
    ensures Follows(s, e, Driven(Step5Body(u, e), e.stuck), budget, bar)
  {
    if !e.ready || !e.noteReadable {
      UnreadyFollows(s, e, u, budget, bar);
    } else {
      PreflightIs(u, e);
      AfterPreflightFollows(s, e, RunPreflight(u, e).0, budget, bar);
    }
  }

  lemma Step5Follows(s: State, e: Env, budget: int, bar: int)
    requires s.step.Step5? && Inv(s) && IsBudget(s, budget) && IsBar(s, bar)
    ensures Follows(s, e, DriverTick(s, e), budget, bar)
  {
    LatestNoteIsThisRounds(s);
    var cold := s.(pool := CloseRole(s.pool, Session(Round(s), SessionNames.Build), e.stuck));
    Step5BodyFollows(s, e, cold, budget, bar);
    Step5Driven(s, e);
    PoolFollows(s, e, Driven(Step5Body(cold, e), e.stuck), budget, bar, DriverTick(s, e).pool);
  }

  lemma Step5Driven(s: State, e: Env)
    requires s.step.Step5?
    ensures var cold := s.(pool := CloseRole(s.pool, Session(Round(s), SessionNames.Build), e.stuck));
            var t := Driven(Step5Body(cold, e), e.stuck);
            DriverTick(s, e) == t.(pool := DriverTick(s, e).pool) && DriverTick(s, e).pool.started == t.pool.started
  {
  }

  /** Every driver tick does what the table says: what happened in it decides the next step, the round, the retries, the
      reason recorded, the descriptors, the tables and the files. */
  lemma TickFollows(s: State, e: Env, budget: int, bar: int)
    requires Inv(s) && !Terminal(s.step) && IsBudget(s, budget) && IsBar(s, bar)
    ensures Follows(s, e, DriverTick(s, e), budget, bar)
  {
    match s.step
    case Init => StartFollows(s, e, budget, bar);
    case Step1 => StartFollows(s, e, budget, bar);
    case Step2 => Step2Follows(s, e, budget, bar);
    case Step3 => Step3Follows(s, e, budget, bar);
    case Step4 => Step4Follows(s, e, budget, bar);
    case Step5 => Step5Follows(s, e, budget, bar);
  }
}
