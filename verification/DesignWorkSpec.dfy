/** The DesignWork state machine on values: what one tick and each human action make of the row, its files and the
    rows of `design_docs` for its slug and version. DesignWorkMachine.dfy holds the machine that updates them in
    place. */
module DesignWorkSpec {
  import opened Options

  datatype Stage =
    | Init | ModeBranch | PreValidate | PromptCompose | LlmGenerate | Mockup | PostValidate | Persist
    | Completed | Escalated | Cancelled

  datatype Mode = New | Optimize

  /** A design text with the validator's verdict on it, which depends on nothing else. */
  datatype Text = Text(body: string, ok: bool, feedback: seq<string>)

  datatype PromptFile = PromptFile(stamp: nat, missing: seq<string>)

  /** The file at the output path. `loop` is the loop it was written in, if this work wrote it; `answers` counts the
      prompts composed and `lost` the prompt files lost before it was written. The code sees the text and the stamp
      only. */
  datatype OutputFile = OutputFile(text: Text, stamp: nat, loop: Option<nat>, answers: nat, lost: nat)

  /** A row of `design_docs`. */
  datatype Doc = Doc(ours: bool, text: Text, published: bool)

  /** What never changes: configuration and the constant columns. */
  datatype Work = Work(
    mode: Mode, hasParent: bool, needsMockup: bool, allowOptimize: bool,
    configLoops: int, maxLoops: Option<int>, allSections: seq<string>)

  datatype State = State(
    work: Work,
    stage: Stage,
    loop: nat,
    missing: seq<string>,
    lastPrompt: Option<nat>,
    cancelledFrom: Option<Stage>,
    prompts: map<nat, PromptFile>,
    output: Option<OutputFile>,
    docs: seq<Doc>,
    linked: Option<nat>,
    log: Log)

  /** What happened so far: executor calls by loop, prompts composed, prompt files lost, the last file stamp, and
      whether a file ever got the stamp of the file before it. */
  datatype Log = Log(calls: seq<nat>, composed: nat, losses: nat, clock: nat, stalled: bool)

  datatype Compose = Composed | DiedAfterPrompt | DiedAfterGates
  datatype Generate = Generate(wrote: Option<Text>, rc: int, died: bool)
  datatype PersistRun = Persisted | DiedAfterFile | InsertFailed(rolledBack: bool) | DiedAfterInsert | DiedAfterPublish

  /** Everything a tick meets outside the machine. */
  datatype Env = Env(
    lost: bool,            // the last prompt file disappears before the tick
    pause: nat,            // what the clock of file stamps advances before this tick's file is written
    fault: bool,           // an exception before the handler has any effect
    input: Option<nat>,    // PRE_VALIDATE: length of the stripped user input, if it can be read
    compose: Compose,
    generate: Generate,
    persist: PersistRun)

  datatype Handled = Done(state: State) | Raised(state: State)

  predicate Terminal(stage: Stage) {
    stage.Completed? || stage.Escalated? || stage.Cancelled?
  }

  /** Only mode `new` gives the row a version, and with it an output path. */
  predicate HasPath(w: Work) {
    w.mode.New?
  }

  function MaxLoops(w: Work): int {
    if w.maxLoops.Some? && 0 <= w.maxLoops.value <= 50 then w.maxLoops.value else w.configLoops
  }

  /** The file test of D4: the output is not older than the prompt. */
  predicate Recovers(s: State) {
    && HasPath(s.work) && s.output.Some? && s.lastPrompt.Some? && s.lastPrompt.value in s.prompts
    && s.output.value.stamp >= s.prompts[s.lastPrompt.value].stamp
  }

  // ---- files ----

  function Stamp(s: State, e: Env): nat {
    s.log.clock + e.pause
  }

  /** A file was written in this tick. */
  function Stamped(s: State, e: Env): State {
    s.(log := s.log.(clock := Stamp(s, e), stalled := s.log.stalled || e.pause == 0))
  }

  function WriteOutput(s: State, text: Text, loop: Option<nat>, e: Env): State {
    Stamped(s, e).(output := Some(OutputFile(text, Stamp(s, e), loop, s.log.composed, s.log.losses)))
  }

  function WritePrompt(s: State, e: Env): State {
    var s1 := Stamped(s, e);
    s1.(prompts := s1.prompts[s.loop := PromptFile(Stamp(s, e), s.missing)], log := s1.log.(composed := s.log.composed + 1))
  }

  function Lose(s: State, e: Env): State {
    if e.lost && s.lastPrompt.Some? && s.lastPrompt.value in s.prompts then
      s.(prompts := s.prompts - {s.lastPrompt.value}, log := s.log.(losses := s.log.losses + 1))
    else s
  }

  // ---- handlers ----

  function Escalate(s: State, missing: seq<string>): State {
    s.(stage := Escalated, missing := missing)
  }

  function LoopOrEscalate(s: State, missing: seq<string>): State {
    if s.loop + 1 > MaxLoops(s.work) then Escalate(s, missing)
    else s.(loop := s.loop + 1, missing := missing, stage := PromptCompose)
  }

  function HandleModeBranch(s: State): Handled {
    if s.work.mode.Optimize? && !s.work.allowOptimize then Raised(Escalate(s, []))
    else if s.work.mode.New? && s.work.hasParent then Raised(Escalate(s, []))
    else Done(s.(stage := PreValidate))
  }

  function HandlePreValidate(s: State, e: Env): Handled {
    if e.input.None? || e.input.value < 10 then Done(Escalate(s, [])) else Done(s.(stage := PromptCompose))
  }

  function HandleCompose(s: State, e: Env): Handled {
    var written := WritePrompt(s, e);
    if e.compose.DiedAfterPrompt? then Raised(written)
    else
      var noted := written.(lastPrompt := Some(s.loop));
      if e.compose.DiedAfterGates? then Raised(noted) else Done(noted.(stage := LlmGenerate))
  }

  function AfterLlm(s: State): State {
    s.(stage := if s.work.needsMockup then Mockup else PostValidate)
  }

  function CallExecutor(s: State, e: Env): State {
    var s1 := s.(log := s.log.(calls := s.log.calls + [s.loop]));
    if e.generate.wrote.Some? && HasPath(s.work) then WriteOutput(s1, e.generate.wrote.value, Some(s.loop), e) else s1
  }

  function HandleGenerate(s: State, e: Env): Handled {
    if s.lastPrompt.None? || s.lastPrompt.value !in s.prompts then Done(s.(stage := PromptCompose))
    else if Recovers(s) then Done(AfterLlm(s))
    else
      var s1 := CallExecutor(s, e);
      if e.generate.died then Raised(s1)
      else if e.generate.rc != 0 then Done(Escalate(s1, []))
      else Done(AfterLlm(s1))
  }

  function HandlePostValidate(s: State): Handled {
    if !HasPath(s.work) || s.output.None? then Done(LoopOrEscalate(s, s.work.allSections))
    else if s.output.value.text.ok then Done(s.(missing := [], stage := Persist))
    else Done(LoopOrEscalate(s, s.output.value.text.feedback))
  }

  /** The draft row, inserted after the file was written once more. */
  function InsertDraft(s: State, text: Text): State {
    s.(docs := s.docs + [Doc(true, text, false)])
  }

  /** `publish` of the row inserted last. */
  function PublishLast(s: State): State
    requires s.docs != []
  {
    var last := |s.docs| - 1;
    s.(docs := s.docs[last := s.docs[last].(published := true)], linked := Some(last))
  }

  function HandlePersist(s: State, e: Env): Handled {
    if s.output.None? || s.docs != [] then Raised(s)
    else
      var text := s.output.value.text;
      var written := WriteOutput(s, text, s.output.value.loop, e);
      match e.persist
      case DiedAfterFile => Raised(written)
      case InsertFailed(rolledBack) => Raised(if rolledBack then written.(output := None) else written)
      case DiedAfterInsert => Raised(InsertDraft(written, text))
      case DiedAfterPublish => Raised(PublishLast(InsertDraft(written, text)))
      case Persisted => Done(PublishLast(InsertDraft(written, text)).(stage := Completed))
  }

  function HandleStage(s: State, e: Env): Handled {
    match s.stage
    case Init => Done(s.(stage := ModeBranch))
    case ModeBranch => HandleModeBranch(s)
    case PreValidate => HandlePreValidate(s, e)
    case PromptCompose => HandleCompose(s, e)
    case LlmGenerate => HandleGenerate(s, e)
    case Mockup => Done(s.(stage := PostValidate))
    case PostValidate => HandlePostValidate(s)
    case Persist => HandlePersist(s, e)
    case _ => Done(s)
  }

  function Handle(s: State, e: Env): Handled {
    if e.fault then Raised(Lose(s, e)) else HandleStage(Lose(s, e), e)
  }

  /** `run_to_completion` over the given outside world, one entry a tick: it stops at a terminal state, and an
      exception ends it where it stands. */
  function Drive(s: State, envs: seq<Env>): Handled
    decreases |envs|
  {
    if envs == [] || Terminal(s.stage) then Done(s)
    else
      match Handle(s, envs[0])
      case Done(t) => Drive(t, envs[1..])
      case Raised(t) => Raised(t)
  }

  // ---- human actions ----

  datatype Reply = Accepted(state: State) | Refused

  datatype Action = Tick(env: Env) | Cancel | Rerun

  function DoCancel(s: State): Reply {
    if Terminal(s.stage) then Refused else Accepted(s.(stage := Cancelled, cancelledFrom := Some(s.stage)))
  }

  /** Without a recorded stage the work goes on at LLM_GENERATE if it has a prompt, else it starts over. */
  function DoRerun(s: State): Reply {
    if !s.stage.Cancelled? then Refused
    else
      var back := if s.cancelledFrom.Some? then s.cancelledFrom.value else if s.lastPrompt.Some? then LlmGenerate else Init;
      if Terminal(back) then Refused else Accepted(s.(stage := back, cancelledFrom := None))
  }

  function Answer(s: State, r: Reply): State {
    if r.Accepted? then r.state else s
  }

  function Next(s: State, a: Action): State {
    match a
    case Tick(e) => Handle(s, e).state
    case Cancel => Answer(s, DoCancel(s))
    case Rerun => Answer(s, DoRerun(s))
  }

  function Run(s: State, actions: seq<Action>): State
    decreases |actions|
  {
    if actions == [] then s else Run(Next(s, actions[0]), actions[1..])
  }

  // ---- creation ----

  predicate ValidWork(w: Work) {
    0 <= w.configLoops <= 50
  }

  /** A work may find a file at its output path, and a row of `design_docs` that another work inserted. */
  function Create(w: Work, found: Option<Text>, foreign: Option<Doc>): Reply {
    if w.maxLoops.Some? && !(0 <= w.maxLoops.value <= w.configLoops) then Refused
    else if w.mode.New? && w.hasParent then Refused
    else
      Accepted(State(
        w, Init, 0, [], None, None, map[],
        if found.Some? then Some(OutputFile(found.value, 0, None, 0, 0)) else None,
        if foreign.Some? then [foreign.value.(ours := false)] else [],
        None, Log([], 0, 0, 0, false)))
  }
}
