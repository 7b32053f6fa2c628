/** What a tick makes of a DesignWork, told field by field and apart from the handlers. */
module DesignWorkProgress {
  import opened Options
  import opened DesignWorkSpec

  predicate ValidOverride(n: Option<int>) {
    n.Some? && 0 <= n.value <= 50
  }

  /** The number of loops the work may take after the first: the override of the row if it is valid, else the
      configuration. */
  predicate IsLimit(w: Work, n: int) {
    && (ValidOverride(w.maxLoops) ==> n == w.maxLoops.value)
    && (!ValidOverride(w.maxLoops) ==> n == w.configLoops)
  }

  lemma LimitIsThis(w: Work, n: int)
    ensures IsLimit(w, n) <==> n == MaxLoops(w)
  {
  }

  // ---- what the handler finds ----

  /** The prompt named in the gates is there when the handler looks. */
  predicate PromptThere(s: State, e: Env) {
    s.lastPrompt.Some? && s.lastPrompt.value in s.prompts && !e.lost
  }

  /** The prompt files that are left. */
  function PromptsLeft(s: State, e: Env): map<nat, PromptFile> {
    if e.lost && s.lastPrompt.Some? then s.prompts - {s.lastPrompt.value} else s.prompts
  }

  function Losses(s: State, e: Env): nat {
    s.log.losses + if e.lost && s.lastPrompt.Some? && s.lastPrompt.value in s.prompts then 1 else 0
  }

  /** The file at the output path of the work. */
  function OutputThere(s: State): Option<OutputFile> {
    if s.work.mode.New? then s.output else None
  }

  predicate OutputIsValid(s: State) {
    OutputThere(s).Some? && OutputThere(s).value.text.ok
  }

  /** The output is not older than the prompt. */
  predicate UpToDate(s: State)
    requires s.lastPrompt.Some? && s.lastPrompt.value in s.prompts
  {
    OutputThere(s).Some? && OutputThere(s).value.stamp >= s.prompts[s.lastPrompt.value].stamp
  }

  /** D3 comes to write the prompt of the loop. */
  predicate Composes(s: State, e: Env) {
    !e.fault && s.stage.PromptCompose?
  }

  /** D4 comes to call the executor. */
  predicate Calls(s: State, e: Env) {
    !e.fault && s.stage.LlmGenerate? && PromptThere(s, e) && !UpToDate(s)
  }

  /** The executor leaves an output of this work. */
  predicate Delivers(s: State, e: Env) {
    Calls(s, e) && e.generate.wrote.Some? && s.work.mode.New?
  }

  /** D6 comes to write the document. */
  predicate Persists(s: State, e: Env) {
    !e.fault && s.stage.Persist? && s.output.Some? && s.docs == []
  }

  // ---- what follows ----

  function AfterCall(w: Work): Stage {
    if w.needsMockup then Mockup else PostValidate
  }

  predicate Forbidden(w: Work) {
    (w.mode.Optimize? && !w.allowOptimize) || (w.mode.New? && w.hasParent)
  }

  /** The stage after a tick that no exception cuts off at its start. */
  function StageAfter(s: State, e: Env, limit: int): Stage {
    match s.stage
    case Init => ModeBranch
    case ModeBranch => if Forbidden(s.work) then Escalated else PreValidate
    case PreValidate => if e.input.Some? && e.input.value >= 10 then PromptCompose else Escalated
    case PromptCompose => if e.compose.Composed? then LlmGenerate else PromptCompose
    case LlmGenerate =>
      if !PromptThere(s, e) then PromptCompose
      else if UpToDate(s) then AfterCall(s.work)
      else if e.generate.died then LlmGenerate
      else if e.generate.rc != 0 then Escalated
      else AfterCall(s.work)
    case Mockup => PostValidate
    case PostValidate =>
      if OutputIsValid(s) then Persist else if s.loop < limit then PromptCompose else Escalated
    case Persist => if Persists(s, e) && e.persist.Persisted? then Completed else Persist
    case final => final
  }

  /** An exception leaves the handler. */
  predicate Raises(s: State, e: Env) {
    || e.fault
    || (s.stage.ModeBranch? && Forbidden(s.work))
    || (Composes(s, e) && !e.compose.Composed?)
    || (Calls(s, e) && e.generate.died)
    || (s.stage.Persist? && !(Persists(s, e) && e.persist.Persisted?))
  }

  /** A loop that ends without a valid output. */
  predicate FailsLoop(s: State, e: Env) {
    !e.fault && s.stage.PostValidate? && !OutputIsValid(s)
  }

  function MissingAfter(s: State, e: Env, limit: int): seq<string> {
    if e.fault then s.missing
    else if FailsLoop(s, e) then
      if OutputThere(s).Some? then OutputThere(s).value.text.feedback else s.work.allSections
    else if s.stage.PostValidate? || (StageAfter(s, e, limit).Escalated? && !s.stage.Escalated?) then []
    else s.missing
  }

  function OutputAfter(s: State, e: Env): Option<OutputFile> {
    if Delivers(s, e) then
      Some(OutputFile(e.generate.wrote.value, s.log.clock + e.pause, Some(s.loop), s.log.composed, Losses(s, e)))
    else if Persists(s, e) then
      if e.persist == InsertFailed(true) then None
      else Some(OutputFile(s.output.value.text, s.log.clock + e.pause, s.output.value.loop, s.log.composed, Losses(s, e)))
    else s.output
  }

  /** The row is published in the tick. */
  predicate Publishes(s: State, e: Env) {
    Persists(s, e) && (e.persist.Persisted? || e.persist.DiedAfterPublish?)
  }

  function DocsAfter(s: State, e: Env): seq<Doc> {
    if Publishes(s, e) then [Doc(true, s.output.value.text, true)]
    else if Persists(s, e) && e.persist.DiedAfterInsert? then [Doc(true, s.output.value.text, false)]
    else s.docs
  }

  /** A file is written in the tick. */
  predicate WritesFile(s: State, e: Env) {
    Composes(s, e) || Delivers(s, e) || Persists(s, e)
  }

  /** The state after a tick, field by field. */
  function After(s: State, e: Env, limit: int): State {
    State(
      s.work,
      if e.fault then s.stage else StageAfter(s, e, limit),
      if FailsLoop(s, e) && s.loop < limit then s.loop + 1 else s.loop,
      MissingAfter(s, e, limit),
      if Composes(s, e) && !e.compose.DiedAfterPrompt? then Some(s.loop) else s.lastPrompt,
      s.cancelledFrom,
      if Composes(s, e) then PromptsLeft(s, e)[s.loop := PromptFile(s.log.clock + e.pause, s.missing)] else PromptsLeft(s, e),
      OutputAfter(s, e),
      DocsAfter(s, e),
      if Publishes(s, e) then Some(0) else s.linked,
      Log(
        if Calls(s, e) then s.log.calls + [s.loop] else s.log.calls,
        if Composes(s, e) then s.log.composed + 1 else s.log.composed,
        Losses(s, e),
        if WritesFile(s, e) then s.log.clock + e.pause else s.log.clock,
        s.log.stalled || (WritesFile(s, e) && e.pause == 0)))
  }

  // ---- the handlers do this ----

  lemma LossIs(s: State, e: Env)
    ensures Lose(s, e) == s.(prompts := PromptsLeft(s, e), log := s.log.(losses := Losses(s, e)))
    ensures PromptThere(s, e) <==> s.lastPrompt.Some? && s.lastPrompt.value in Lose(s, e).prompts
    ensures PromptThere(s, e) ==> PromptsLeft(s, e) == s.prompts
  {
  }

  lemma ComposeIs(s: State, e: Env, limit: int)
    requires Composes(s, e)
    ensures Handle(s, e) == if Raises(s, e) then Raised(After(s, e, limit)) else Done(After(s, e, limit))
  {
    LossIs(s, e);
  }

  lemma GenerateIs(s: State, e: Env, limit: int)
    requires s.stage.LlmGenerate? && !e.fault
    ensures Handle(s, e) == if Raises(s, e) then Raised(After(s, e, limit)) else Done(After(s, e, limit))
  {
    LossIs(s, e);
  }

  lemma ValidateIs(s: State, e: Env, limit: int)
    requires s.stage.PostValidate? && !e.fault && IsLimit(s.work, limit)
    ensures Handle(s, e) == if Raises(s, e) then Raised(After(s, e, limit)) else Done(After(s, e, limit))
  {
    LossIs(s, e);
  }

  lemma PersistIs(s: State, e: Env, limit: int)
    requires s.stage.Persist? && !e.fault
    ensures Handle(s, e) == if Raises(s, e) then Raised(After(s, e, limit)) else Done(After(s, e, limit))
  {
    LossIs(s, e);
  }

  /** Every tick leaves exactly that state, and raises exactly then. */
  lemma TickIs(s: State, e: Env, limit: int)
    requires IsLimit(s.work, limit)
    ensures Handle(s, e) == if Raises(s, e) then Raised(After(s, e, limit)) else Done(After(s, e, limit))
  {
    LossIs(s, e);
    if !e.fault {
      match s.stage
      case PromptCompose => ComposeIs(s, e, limit);
      case LlmGenerate => GenerateIs(s, e, limit);
      case PostValidate => ValidateIs(s, e, limit);
      case Persist => PersistIs(s, e, limit);
      case _ =>
    }
  }
}
