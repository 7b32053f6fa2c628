/** The DevWork state machine on values: what one driver tick and each human action make of the row, its notes,
    reviews, artifacts and sessions. DevWorkMachine.dfy holds the machine that updates them in place. */
module DevWorkSpec {
  import opened Options
  import opened Reviewer
  import opened Sessions
  import Json
  import PlanAudit
  import SessionNames

  datatype Step = Init | Step1 | Step2 | Step3 | Step4 | Step5 | Completed | Escalated | Cancelled

  const HARD_MAX_ROUNDS := 50
  const MAX_TICKS := 600
  const FEEDBACK_CAP := 50

  predicate Terminal(step: Step) {
    step.Completed? || step.Escalated? || step.Cancelled?
  }

  /** Why a round was burnt, a step retried or the work escalated. */
  datatype Reason =
    | Step2Rc(rc: int) | Step2Unreadable | Step2MissingH2
    | Step3NoNote | Step3FailedTwice(rc: int)
    | Step4NoNote | Step4Rc(rc: int) | Step4FindingsMissing | Step4FindingsInvalid | Step4ShapeMismatch
    | Step5NoNote | Step5NoteUnreadable | Step5Preflight | Step5Unparseable | Step5MissingPlanIds(ids: set<string>)
    | Scored(score: int)
    | AfterRetry(of: Reason)
    | ManualResume(of: Reason)

  datatype Feedback = Feedback(round: nat, backTo: Step, reason: Reason, category: Option<Category>)

  datatype RoundsResume = RoundsResume(completed: nat, cap: int, backTo: Step, reason: Reason, category: Option<Category>)
  datatype StepResume = StepResume(backTo: Step, reason: Reason, category: Option<Category>, round: nat)

  /** `step{k}_retry_round{n}`. */
  datatype RetryKey = RetryKey(step: Step, round: nat)

  /** The entries of `gates_json` that decide something. */
  datatype Gates = Gates(
    retries: map<RetryKey, nat>,
    maxRounds: Option<int>,
    threshold: Option<int>,
    roundsResume: Option<RoundsResume>,
    stepResume: Option<StepResume>,
    cancelledFrom: Option<Step>,
    feedback: seq<Feedback>,
    findings: set<nat>)

  datatype Config = Config(maxRounds: int, docThreshold: Option<int>, defaultThreshold: int)

  datatype Recorded = Recorded(round: nat, outcome: Outcome)

  /** A prompt handed to the agent, with the send-back reasons written into it. */
  datatype Prompt = Prompt(step: Step, round: nat, feedback: seq<Feedback>)

  /** A review as it reaches the parser: nothing but blanks, no JSON, something that cannot even be read as such (not
      UTF-8, a number beyond the limit of `int`), or JSON. */
  datatype Output = Blank | NotJson | Unloadable | Payload(json: Json.Json)

  datatype State = State(
    cfg: Config,
    step: Step,
    rounds: nat,
    score: Option<int>,
    category: Option<Category>,
    firstPass: Option<bool>,
    gates: Gates,
    notes: seq<nat>,
    noteText: map<nat, string>,
    reviews: seq<Recorded>,
    artifacts: map<nat, Output>,
    prompts: seq<Prompt>,
    pool: Pool,
    cutShort: set<nat>,           // rounds in which a manual tick ended in an exception
    cutOff: set<nat>)             // rounds in which a cancel stopped Step5 while it waited for its agent

  datatype FindingsRead = Found | Missing | Invalid | Misshapen
  datatype Preflight = Clean | Dirty | Generated

  /** Everything a tick meets outside the machine. A handler reads the fields of its own step. */
  datatype Env = Env(
    stuck: set<Session>,          // sessions that refuse to close
    ready: bool,                  // INIT: worktrees; Step1: document valid; Step2: document row; Step5: readable, with rubric
    fault: bool,                  // an exception while the prompt is prepared
    llm: LlmRun,
    header: string,               // Step2: note text written by the machine
    noteText: Option<string>,     // Step2: note file after the agent ran
    headings: bool,               // Step2: the required H2 sections are there
    indexed: bool,                // Step2: the note could be registered
    contextWritten: bool,         // Step3
    findings: FindingsRead,       // Step4
    repair: LlmRun,               // Step4, Step5: the call that asks for the artifact only
    repaired: bool,               // Step4: the repair left well-shaped findings
    cleaned: bool,                // retries: the stale artifact could be deleted
    noteReadable: bool,           // Step5
    preflight: Preflight,         // Step5
    cleanup: LlmRun,              // Step5: repair of generated paths
    preflightAgain: Preflight,
    artifact: Option<Output>,     // Step5: review file written by the agent
    stdout: Output,
    logged: bool,                 // Step5: the failed attempt could be stored
    artifactAgain: Option<Output>,
    stdoutAgain: Output,
    patched: bool)                // Step5: the note could be read and rewritten

  /** A handler returns, or an exception leaves it. */
  datatype Handled = Done(state: State) | Raised(state: State)

  // ---- selectors ----

  function Round(s: State): nat {
    s.rounds + 1
  }

  function MaxRounds(s: State): int {
    match s.gates.maxRounds
    case Some(n) => if 0 <= n <= HARD_MAX_ROUNDS then n else s.cfg.maxRounds
    case None => s.cfg.maxRounds
  }

  function Threshold(s: State): int {
    if s.gates.threshold.Some? && 1 <= s.gates.threshold.value <= 100 then s.gates.threshold.value
    else if s.cfg.docThreshold.Some? && 1 <= s.cfg.docThreshold.value <= 100 then s.cfg.docThreshold.value
    else s.cfg.defaultThreshold
  }

  function Tries(retries: map<RetryKey, nat>, step: Step, round: nat): nat {
    if RetryKey(step, round) in retries then retries[RetryKey(step, round)] else 0
  }

  function Attempts(s: State, step: Step): nat {
    Tries(s.gates.retries, step, Round(s))
  }

  function FeedbackFor(entries: seq<Feedback>, round: nat, step: Step): seq<Feedback> {
    if entries == [] then []
    else
      (if entries[0].round == round && entries[0].backTo == step then [entries[0]] else [])
      + FeedbackFor(entries[1..], round, step)
  }

  /** The send-back reasons the handler of the current step puts into its prompt. */
  function HandlerFeedback(s: State): seq<Feedback> {
    match s.step
    case Step2 => if Round(s) > 1 then FeedbackFor(s.gates.feedback, Round(s), Step2) else []
    case Step4 => FeedbackFor(s.gates.feedback, Round(s), Step4)
    case Step5 => FeedbackFor(s.gates.feedback, Round(s), Step5)
    case _ => []
  }

  function Max(a: nat, b: nat): nat {
    if a < b then b else a
  }

  /** `latest_for`: the highest round with a note. */
  function Latest(notes: seq<nat>): nat
    requires notes != []
  {
    if |notes| == 1 then notes[0] else Max(notes[0], Latest(notes[1..]))
  }

  function LastFifty<T>(xs: seq<T>): seq<T> {
    if |xs| <= FEEDBACK_CAP then xs else xs[|xs| - FEEDBACK_CAP..]
  }

  // ---- gates ----

  function AppendFeedback(s: State, entry: Feedback): State {
    s.(gates := s.gates.(feedback := LastFifty(s.gates.feedback + [entry])))
  }

  function CountAttempt(s: State, step: Step): State {
    s.(gates := s.gates.(retries := s.gates.retries[RetryKey(step, Round(s)) := Attempts(s, step) + 1]))
  }

  function StoreStepResume(s: State, backTo: Step, reason: Reason, category: Option<Category>): State {
    s.(gates := s.gates.(stepResume := Some(StepResume(backTo, reason, category, Round(s)))))
  }

  function StoreRoundsResume(s: State, backTo: Step, reason: Reason, category: Option<Category>): State {
    s.(gates := s.gates.(roundsResume := Some(RoundsResume(Round(s), MaxRounds(s), backTo, reason, category))))
  }

  function AddPrompt(s: State, feedback: seq<Feedback>): State {
    s.(prompts := s.prompts + [Prompt(s.step, Round(s), feedback)])
  }

  function Opened(s: State, role: SessionNames.Role, run: LlmRun, stuck: set<Session>): State {
    s.(pool := Start(s.pool, Session(Round(s), role), run, stuck))
  }

  // ---- escalate, retry, burn a round ----

  function Escalate(s: State, category: Option<Category>, stuck: set<Session>): State {
    s.(pool := CloseAll(s.pool, stuck), step := Escalated, category := category)
  }

  /** `_loop_or_escalate` for a step before Step4: the round is over. */
  function BurnRound(s: State, backTo: Step, reason: Reason, category: Option<Category>, stuck: set<Session>): State {
    if Round(s) >= MaxRounds(s) then
      Escalate(StoreRoundsResume(s, backTo, reason, category).(rounds := Round(s)), category, stuck)
    else
      AppendFeedback(s, Feedback(Round(s) + 1, backTo, reason, category))
      .(pool := CloseRound(s.pool, Round(s), stuck), rounds := Round(s), step := backTo, category := category)
  }

  function RetryStep2(s: State, reason: Reason, stuck: set<Session>): State {
    if Attempts(s, Step2) < 1 then CountAttempt(s, Step2)
    else Escalate(StoreStepResume(s, Step2, AfterRetry(reason), Some(ReqGap)), Some(ReqGap), stuck)
  }

  function RetryStep4(s: State, reason: Reason, category: Option<Category>, e: Env): State {
    if Attempts(s, Step4) >= 1 then
      Escalate(StoreStepResume(s, Step4, AfterRetry(reason), category), category, e.stuck)
    else
      var told := AppendFeedback(s, Feedback(Round(s), Step4, reason, category));
      if !e.cleaned then Escalate(told, category, e.stuck)
      else CountAttempt(told, Step4).(pool := CloseRound(s.pool, Round(s), e.stuck), step := Step4, category := category)
  }

  function RetryStep5(s: State, reason: Reason, category: Option<Category>, e: Env): State {
    var again := Attempts(s, Step5) < 1;
    var entry := Feedback(Round(s), Step5, reason, category);
    var clean := s.(artifacts := s.artifacts - {Round(s)});
    if !e.cleaned then Escalate(if again then AppendFeedback(s, entry) else s, category, e.stuck)
    else if !again then Escalate(StoreStepResume(clean, Step5, AfterRetry(reason), category), category, e.stuck)
    else
      CountAttempt(AppendFeedback(clean, entry), Step5)
      .(pool := CloseRole(s.pool, Session(Round(s), SessionNames.Review), e.stuck), step := Step5, category := category)
  }

  // ---- handlers ----

  function HandleInit(s: State, e: Env): Handled {
    Done(if e.ready then s.(step := Step1) else Escalate(s, None, e.stuck))
  }

  function HandleStep1(s: State, e: Env): Handled {
    Done(if e.ready then s.(step := Step2) else Escalate(s, Some(DesignHollow), e.stuck))
  }

  function Step2Written(s: State, e: Env): State {
    var n := Round(s);
    var s1 := Opened(AddPrompt(s.(noteText := s.noteText[n := e.header]), HandlerFeedback(s)), SessionNames.Plan, e.llm, e.stuck);
    s1.(noteText := if e.noteText.Some? then s1.noteText[n := e.noteText.value] else s1.noteText - {n})
  }

  function Step2Accept(s: State, e: Env): State {
    if Rc(e.llm) != 0 then RetryStep2(s, Step2Rc(Rc(e.llm)), e.stuck)
    else if Round(s) !in s.noteText then BurnRound(s, Step2, Step2Unreadable, Some(ReqGap), e.stuck)
    else if !e.headings then BurnRound(s, Step2, Step2MissingH2, Some(ReqGap), e.stuck)
    else if !e.indexed || Round(s) in s.notes then Escalate(s, None, e.stuck)
    else s.(notes := s.notes + [Round(s)], step := Step3)
  }

  function Step2Body(s: State, e: Env): Handled {
    if !e.ready then Done(Escalate(s, Some(DesignHollow), e.stuck))
    else if e.fault then Raised(s.(noteText := s.noteText[Round(s) := e.header]))
    else Done(Step2Accept(Step2Written(s, e), e))
  }

  /** The `finally` that closes the handler's own session. */
  function Finally(h: Handled, session: Session, stuck: set<Session>): Handled {
    h.(state := h.state.(pool := CloseRole(h.state.pool, session, stuck)))
  }

  function HandleStep2(s: State, e: Env): Handled {
    Finally(Step2Body(s, e), Session(Round(s), SessionNames.Plan), e.stuck)
  }

  function Step3Accept(s: State, e: Env): State {
    if Rc(e.llm) == 0 && e.contextWritten then s.(step := Step4)
    else if Attempts(s, Step3) < 1 then CountAttempt(s, Step3)
    else BurnRound(s, Step2, Step3FailedTwice(Rc(e.llm)), Some(ReqGap), e.stuck)
  }

  function HandleStep3(s: State, e: Env): Handled {
    if s.notes == [] then Done(BurnRound(s, Step2, Step3NoNote, Some(ReqGap), e.stuck))
    else if e.fault then Raised(s)
    else Done(Step3Accept(Opened(AddPrompt(s, []), SessionNames.Build, e.llm, e.stuck), e))
  }

  /** The agent's second chance to write the findings; its session is the one already open. */
  function FindingsAfterRepair(e: Env): FindingsRead {
    if e.findings.Missing? || e.findings.Invalid? then if Rc(e.repair) == 0 && e.repaired then Found else e.findings
    else e.findings
  }

  function FindingsReason(f: FindingsRead): Reason {
    match f
    case Missing => Step4FindingsMissing
    case Invalid => Step4FindingsInvalid
    case _ => Step4ShapeMismatch
  }

  function Step4Accept(s: State, e: Env): State {
    if Rc(e.llm) != 0 then RetryStep4(s, Step4Rc(Rc(e.llm)), Some(ImplGap), e)
    else
      var s1 := if e.findings.Missing? || e.findings.Invalid? then Opened(s, SessionNames.Build, e.repair, e.stuck) else s;
      var found := FindingsAfterRepair(e);
      if found.Found? then s1.(gates := s1.gates.(findings := s1.gates.findings + {Round(s)}), step := Step5)
      else RetryStep4(s1, FindingsReason(found), Some(ImplGap), e)
  }

  function Step4Body(s: State, e: Env): Handled {
    if s.notes == [] then Done(BurnRound(s, Step2, Step4NoNote, Some(ReqGap), e.stuck))
    else if e.fault then Raised(s)
    else Done(Step4Accept(Opened(AddPrompt(s, HandlerFeedback(s)), SessionNames.Build, e.llm, e.stuck), e))
  }

  /** The session of Step3, or of the attempt before, goes first. */
  function HandleStep4(s: State, e: Env): Handled {
    Step4Body(s.(pool := CloseRole(s.pool, Session(Round(s), SessionNames.Build), e.stuck)), e)
  }

  // ---- Step5 ----

  function Parse(o: Output): Checked<Outcome> {
    match o
    case Payload(json) => Coerce(json)
    case Unloadable => Raise
    case _ => Bad
  }

  /** `_read_step5_review_outcome`: the review file if it parses, else stdout, which is then written to the file. */
  function ReadReview(file: Option<Output>, stdout: Output): (Checked<Outcome>, Option<Output>) {
    var fromFile := if file.Some? then Parse(file.value) else Bad;
    if !fromFile.Bad? then (fromFile, file)
    else
      var fromStdout := Parse(stdout);
      (fromStdout, if fromStdout.Good? then Some(Payload(ToPayload(fromStdout.value))) else file)
  }

  function ArtifactOf(s: State): Option<Output> {
    if Round(s) in s.artifacts then Some(s.artifacts[Round(s)]) else None
  }

  function WithArtifact(s: State, file: Option<Output>): State {
    s.(artifacts := if file.Some? then s.artifacts[Round(s) := file.value] else s.artifacts - {Round(s)})
  }

  function Written(s: State, written: Option<Output>): State {
    if written.Some? then WithArtifact(s, written) else s
  }

  /** The state after the worktree checks and, if they failed, what they found. */
  function RunPreflight(s: State, e: Env): (State, Preflight) {
    if !e.preflight.Generated? then (s, e.preflight)
    else
      var build := Session(Round(s), SessionNames.Build);
      var s1 := s.(pool := CloseRole(Start(s.pool, build, e.cleanup, e.stuck), build, e.stuck));
      (s1, if Rc(e.cleanup) == 0 then e.preflightAgain else Generated)
  }

  function Decided(s: State, outcome: Outcome, e: Env): State {
    if outcome.score >= Threshold(s) && outcome.category.None? then
      s.(step := Completed, firstPass := Some(s.rounds == 0))
    else if outcome.category == Some(ReqGap) || outcome.category == Some(ImplGap) then
      BurnRound(s, Step2, Scored(outcome.score), outcome.category, e.stuck)
    else Escalate(s, Some(DesignHollow), e.stuck)
  }

  function Reviewed(s: State, outcome: Outcome, e: Env): State {
    var s1 := s.(reviews := s.reviews + [Recorded(Round(s), outcome)]);
    if !e.patched then Escalate(s1, None, e.stuck)
    else
      var text := if Round(s) in s.noteText then s.noteText[Round(s)] else "";
      Decided(
        s1.(noteText := s1.noteText[Round(s) := PlanAudit.Patch(text, PlanAudit.DoneIds(outcome.plan))],
            score := Some(outcome.score), category := outcome.category),
        outcome, e)
  }

  function AcceptReview(s: State, outcome: Outcome, e: Env): State {
    var text := if Round(s) in s.noteText then s.noteText[Round(s)] else "";
    var missing := PlanAudit.MissingIds(text, outcome.plan);
    if missing != {} then RetryStep5(s, Step5MissingPlanIds(missing), None, e) else Reviewed(s, outcome, e)
  }

  function JudgeRepair(s: State, e: Env): Handled {
    var s1 := Written(s, e.artifactAgain);
    if Rc(e.repair) != 0 then Done(RetryStep5(s1, Step5Unparseable, None, e))
    else
      var (parsed, file) := ReadReview(ArtifactOf(s1), e.stdoutAgain);
      var s2 := WithArtifact(s1, file);
      match parsed
      case Good(outcome) => Done(AcceptReview(s2, outcome, e))
      case Bad => Done(RetryStep5(s2, Step5Unparseable, None, e))
      case Raise => Raised(s2)
  }

  /** The agent is asked, in the same session, to write the review file only. */
  function RepairReview(s: State, e: Env): Handled {
    if Rc(e.llm) != 0 then Done(RetryStep5(s, Step5Unparseable, None, e))
    else JudgeRepair(Opened(s, SessionNames.Review, e.repair, e.stuck), e)
  }

  function JudgeReview(s: State, e: Env): Handled {
    var s1 := Written(s, e.artifact);
    var (parsed, file) := if Rc(e.llm) == 0 then ReadReview(ArtifactOf(s1), e.stdout) else (Bad, ArtifactOf(s1));
    var s2 := WithArtifact(s1, file);
    match parsed
    case Good(outcome) => Done(AcceptReview(s2, outcome, e))
    case Bad => if !e.logged then Done(Escalate(s2, None, e.stuck)) else RepairReview(s2, e)
    case Raise => Raised(s2)
  }

  function RunReview(s: State, e: Env): Handled {
    JudgeReview(Opened(AddPrompt(s, HandlerFeedback(s)), SessionNames.Review, e.llm, e.stuck), e)
  }

  function Step5Body(s: State, e: Env): Handled {
    if !e.ready then Done(Escalate(s, Some(DesignHollow), e.stuck))
    else if s.notes == [] then Done(BurnRound(s, Step2, Step5NoNote, Some(ReqGap), e.stuck))
    else if Latest(s.notes) != Round(s) then Done(Escalate(s, None, e.stuck))
    else if !e.noteReadable || Round(s) !in s.noteText then
      Done(BurnRound(s, Step2, Step5NoteUnreadable, Some(ReqGap), e.stuck))
    else
      var (s1, found) := RunPreflight(s, e);
      AfterPreflight(s1, found, e)
  }

  function AfterPreflight(s: State, found: Preflight, e: Env): Handled {
    if found.Generated? then Done(Escalate(s, Some(ImplGap), e.stuck))
    else if found.Dirty? then Done(RetryStep4(s, Step5Preflight, Some(ImplGap), e))
    else if e.fault then Raised(s)
    else RunReview(s, e)
  }

  function Step5Cold(s: State, e: Env): Handled {
    Finally(Step5Body(s, e), Session(Round(s), SessionNames.Review), e.stuck)
  }

  /** A review starts cold: the build session goes first. */
  function HandleStep5(s: State, e: Env): Handled {
    Step5Cold(s.(pool := CloseRole(s.pool, Session(Round(s), SessionNames.Build), e.stuck)), e)
  }

  // ---- one tick of the driver ----

  function Handle(s: State, e: Env): Handled {
    match s.step
    case Init => HandleInit(s, e)
    case Step1 => HandleStep1(s, e)
    case Step2 => HandleStep2(s, e)
    case Step3 => HandleStep3(s, e)
    case Step4 => HandleStep4(s, e)
    case Step5 => HandleStep5(s, e)
    case _ => Done(s)
  }

  /** `tick` as `run_to_completion` calls it: an exception that leaves the handler ends in ESCALATED. */
  function DriverTick(s: State, e: Env): State {
    match Handle(s, e)
    case Done(t) => t
    case Raised(t) => Escalate(t, None, e.stuck)
  }

  function CutShort(s: State): State {
    s.(cutShort := s.cutShort + {Round(s)})
  }

  function CutOff(s: State): State {
    s.(cutOff := s.cutOff + {Round(s)})
  }

  /** `tick` called by hand: an exception is passed on and leaves the row where the handler got to. */
  function DoManualTick(s: State, e: Env): State {
    match Handle(s, e)
    case Done(t) => t
    case Raised(t) => CutShort(t)
  }

  // ---- human actions ----

  datatype Reply = Accepted(state: State) | Refused

  datatype Action =
    | Tick(env: Env)              // by the driver
    | ManualTick(env: Env)
    | Cancel(stuck: set<Session>)
    | CancelDuring(env: Env)      // while a handler waits for its agent
    | Rerun
    | Continue(additional: int, threshold: Option<int>)
    | ResumeStep

  function DoCancel(s: State, stuck: set<Session>): Reply {
    if Terminal(s.step) then Refused
    else Accepted(s.(step := Cancelled, gates := s.gates.(cancelledFrom := Some(s.step)), pool := CloseAll(s.pool, stuck)))
  }

  /** Where a handler before Step5 has got to while it waits for its agent, with what the agent has left so far. */
  function Waiting(s: State, e: Env): State {
    var cold := s.(pool := CloseRole(s.pool, Session(Round(s), SessionNames.Build), e.stuck));
    match s.step
    case Step2 =>
      if !e.ready then s
      else if e.fault then s.(noteText := s.noteText[Round(s) := e.header])
      else Step2Written(s, e)
    case Step3 =>
      if s.notes == [] || e.fault then s else Opened(AddPrompt(s, []), SessionNames.Build, e.llm, e.stuck)
    case Step4 =>
      if s.notes == [] || e.fault then cold
      else Opened(AddPrompt(cold, HandlerFeedback(cold)), SessionNames.Build, e.llm, e.stuck)
    case _ => s
  }

  function WaitingForReview(s: State, e: Env): State {
    if !e.ready || s.notes == [] || Latest(s.notes) != Round(s) || !e.noteReadable || Round(s) !in s.noteText then s
    else
      var (s1, found) := RunPreflight(s, e);
      if !found.Clean? || e.fault then s1
      else Written(Opened(AddPrompt(s1, HandlerFeedback(s1)), SessionNames.Review, e.llm, e.stuck), e.artifact)
  }

  function StoppedReview(s: State, e: Env): State {
    var u := WaitingForReview(s, e);
    CutOff(u).(pool := CloseRole(u.pool, Session(Round(s), SessionNames.Review), e.stuck))
  }

  /** The driver is stopped there: the `finally` of Step2 and Step5 still runs, the rest of the handler does not. */
  function Stopped(s: State, e: Env): State {
    match s.step
    case Step2 =>
      var u := Waiting(s, e);
      u.(pool := CloseRole(u.pool, Session(Round(s), SessionNames.Plan), e.stuck))
    case Step5 => StoppedReview(s.(pool := CloseRole(s.pool, Session(Round(s), SessionNames.Build), e.stuck)), e)
    case _ => Waiting(s, e)
  }

  function DoCancelDuring(s: State, e: Env): Reply {
    if Terminal(s.step) then Refused else DoCancel(Stopped(s, e), e.stuck)
  }

  /** Without a recorded step the work starts over at INIT. */
  function DoRerun(s: State): Reply {
    if !s.step.Cancelled? then Refused
    else
      var back := if s.gates.cancelledFrom.Some? then s.gates.cancelledFrom.value else Init;
      if Terminal(back) then Refused else Accepted(s.(step := back, gates := s.gates.(cancelledFrom := None)))
  }

  function DoContinue(s: State, additional: int, threshold: Option<int>): Reply {
    if additional < 1 || (threshold.Some? && !(1 <= threshold.value <= 100)) then Refused
    else if !s.step.Escalated? || s.gates.roundsResume.None? then Refused
    else
      var resume := s.gates.roundsResume.value;
      var completed := Max(resume.completed, s.rounds);
      if Terminal(resume.backTo) || completed + additional > HARD_MAX_ROUNDS then Refused
      else
        var entry := Feedback(completed + 1, resume.backTo, resume.reason, resume.category);
        var told := AppendFeedback(s, entry);
        Accepted(told.(
          rounds := completed, step := resume.backTo, category := resume.category,
          gates := told.gates.(
            maxRounds := Some(completed + additional),
            threshold := if threshold.Some? then threshold else s.gates.threshold,
            roundsResume := None)))
  }

  function DoResumeStep(s: State): Reply {
    if !s.step.Escalated? || s.gates.stepResume.None? then Refused
    else
      var resume := s.gates.stepResume.value;
      if Terminal(resume.backTo) then Refused
      else
        var told := AppendFeedback(s, Feedback(resume.round, resume.backTo, ManualResume(resume.reason), resume.category));
        Accepted(told.(step := resume.backTo, category := resume.category, gates := told.gates.(stepResume := None)))
  }

  function Answer(s: State, r: Reply): State {
    if r.Accepted? then r.state else s
  }

  function Next(s: State, a: Action): State {
    match a
    case Tick(e) => DriverTick(s, e)
    case ManualTick(e) => DoManualTick(s, e)
    case Cancel(stuck) => Answer(s, DoCancel(s, stuck))
    case CancelDuring(e) => Answer(s, DoCancelDuring(s, e))
    case Rerun => Answer(s, DoRerun(s))
    case Continue(additional, threshold) => Answer(s, DoContinue(s, additional, threshold))
    case ResumeStep => Answer(s, DoResumeStep(s))
  }

  function Run(s: State, actions: seq<Action>): State
    decreases |actions|
  {
    if actions == [] then s else Run(Next(s, actions[0]), actions[1..])
  }

  // ---- creation ----

  predicate ValidConfig(cfg: Config) {
    0 <= cfg.maxRounds <= HARD_MAX_ROUNDS
  }

  function Create(cfg: Config, maxRounds: Option<int>, threshold: Option<int>): Reply {
    if maxRounds.Some? && !(0 <= maxRounds.value <= cfg.maxRounds) then Refused
    else
      Accepted(State(
        cfg, Init, 0, None, None, None,
        Gates(map[], maxRounds, threshold, None, None, None, [], {}),
        [], map[], [], map[], [], EMPTY_POOL, {}, {}))
  }
}
