/** What holds in every reachable state of a DesignWork: any sequence of ticks, crashes, cancels and reruns. */
module DesignWorkTheorems {
  import opened Options
  import opened DesignWorkSpec
  import opened DesignWorkProgress

  /** The stage a cancelled work would resume at, else the stage it is in. */
  function At(s: State): Stage {
    if s.stage.Cancelled? && s.cancelledFrom.Some? then s.cancelledFrom.value else s.stage
  }

  ghost predicate Shape(s: State) {
    && ValidWork(s.work)
    && s.loop <= MaxLoops(s.work)
    && (s.cancelledFrom.Some? <==> s.stage.Cancelled?)
    && (s.cancelledFrom.Some? ==> !Terminal(s.cancelledFrom.value))
    && (At(s).Init? || At(s).ModeBranch? || At(s).PreValidate? ==> s.loop == 0 && s.log.composed == 0)
    && (s.output.Some? && s.output.value.loop.Some? ==> s.output.value.loop.value <= s.loop && s.log.composed > 0)
    && (At(s).LlmGenerate? ==> s.lastPrompt == Some(s.loop))
  }

  /** Stamps never exceed the clock; an output written after the present prompt is not older than it, and an output
      from before is not newer, strictly older if no two files share a stamp. */
  ghost predicate StampsOk(s: State) {
    && (forall n :: n in s.prompts ==> s.prompts[n].stamp <= s.log.clock)
    && (s.output.Some? ==> s.output.value.stamp <= s.log.clock && s.output.value.answers <= s.log.composed)
    && (At(s).LlmGenerate? && s.loop in s.prompts ==>
          && s.prompts[s.loop].missing == s.missing
          && s.log.composed > 0
          && (s.output.Some? ==>
                if s.output.value.answers == s.log.composed then
                  s.output.value.loop == Some(s.loop) && s.output.value.stamp >= s.prompts[s.loop].stamp
                else s.output.value.stamp <= s.prompts[s.loop].stamp
                     && (!s.log.stalled ==> s.output.value.stamp < s.prompts[s.loop].stamp)))
  }

  /** As long as no prompt file was lost since this loop's output was written, that output answers the prompt composed
      last, and the prompt stays until the work has moved on. */
  ghost predicate LosslessOk(s: State) {
    s.output.Some? ==>
      var output := s.output.value;
      && output.lost <= s.log.losses
      && (output.loop == Some(s.loop) && output.lost == s.log.losses ==>
            && output.answers == s.log.composed
            && !At(s).PromptCompose?
            && (At(s).LlmGenerate? ==> s.loop in s.prompts))
  }

  ghost predicate DocsOk(s: State) {
    && |s.docs| <= 1
    && (s.docs != [] && s.docs[0].ours ==> s.docs[0].text.ok && (At(s).Persist? || At(s).Completed?))
    && (s.linked.Some? <==> s.docs != [] && s.docs[0].ours && s.docs[0].published)
    && (s.linked.Some? ==> s.linked.value == 0)
    && (At(s).Persist? ==> HasPath(s.work) && (s.output.Some? ==> s.output.value.text.ok))
    && (At(s).Completed? ==> HasPath(s.work) && s.linked.Some? && s.output.Some? && s.output.value.text == s.docs[0].text)
  }

  ghost predicate Inv(s: State) {
    Shape(s) && StampsOk(s) && LosslessOk(s) && DocsOk(s)
  }

  lemma LoseKeeps(s: State, e: Env)
    requires Inv(s)
    ensures Inv(Lose(s, e))
  {
  }

  lemma LoopOrEscalateKeeps(s: State, missing: seq<string>)
    requires Inv(s) && s.stage.PostValidate?
    ensures Inv(LoopOrEscalate(s, missing))
  {
  }

  lemma ComposeKeeps(s: State, e: Env)
    requires Inv(s) && s.stage.PromptCompose?
    ensures Inv(HandleCompose(s, e).state)
  {
  }

  lemma CallExecutorKeeps(s: State, e: Env)
    requires Inv(s) && s.stage.LlmGenerate? && s.loop in s.prompts
    ensures Inv(CallExecutor(s, e))
  {
  }

  lemma LeaveLlmKeeps(s: State)
    requires Inv(s) && s.stage.LlmGenerate?
    ensures Inv(AfterLlm(s)) && Inv(Escalate(s, []))
  {
  }

  lemma GenerateKeeps(s: State, e: Env)
    requires Inv(s) && s.stage.LlmGenerate?
    ensures Inv(HandleGenerate(s, e).state)
  {
    LeaveLlmKeeps(s);
    if s.loop in s.prompts {
      CallExecutorKeeps(s, e);
      LeaveLlmKeeps(CallExecutor(s, e));
    }
  }

  lemma PersistKeeps(s: State, e: Env)
    requires Inv(s) && s.stage.Persist?
    ensures Inv(HandlePersist(s, e).state)
  {
  }

  lemma FirstStagesKeep(s: State, e: Env)
    requires Inv(s) && (s.stage.Init? || s.stage.ModeBranch? || s.stage.PreValidate? || s.stage.Mockup?)
    ensures Inv(HandleStage(s, e).state)
  {
  }

  lemma PostValidateKeeps(s: State)
    requires Inv(s) && s.stage.PostValidate?
    ensures Inv(HandlePostValidate(s).state)
  {
    LoopOrEscalateKeeps(s, s.work.allSections);
    if s.output.Some? {
      LoopOrEscalateKeeps(s, s.output.value.text.feedback);
    }
  }

  lemma StageKeeps(s: State, e: Env)
    requires Inv(s)
    ensures Inv(HandleStage(s, e).state)
  {
    match s.stage
    case PromptCompose => ComposeKeeps(s, e);
    case LlmGenerate => GenerateKeeps(s, e);
    case PostValidate => PostValidateKeeps(s);
    case Persist => PersistKeeps(s, e);
    case Completed =>
    case Escalated =>
    case Cancelled =>
    case _ => FirstStagesKeep(s, e);
  }

  lemma NextKeeps(s: State, a: Action)
    requires Inv(s)
    ensures Inv(Next(s, a))
  {
    if a.Tick? {
      LoseKeeps(s, a.env);
      StageKeeps(Lose(s, a.env), a.env);
    }
  }

  lemma {:induction false} RunKeeps(s: State, actions: seq<Action>)
    requires Inv(s)
    ensures Inv(Run(s, actions))
    decreases |actions|
  {
    if actions != [] {
      NextKeeps(s, actions[0]);
      RunKeeps(Next(s, actions[0]), actions[1..]);
    }
  }

  ghost predicate Reached(s: State) {
    exists w: Work, found: Option<Text>, foreign: Option<Doc>, actions: seq<Action> :: ReachedBy(s, w, found, foreign, actions)
  }

  ghost predicate ReachedBy(s: State, w: Work, found: Option<Text>, foreign: Option<Doc>, actions: seq<Action>) {
    var created := Create(w, found, foreign);
    ValidWork(w) && created.Accepted? && s == Run(created.state, actions)
  }

  lemma ReachedHolds(s: State)
    requires Reached(s)
    ensures Inv(s)
  {
    var w: Work, found: Option<Text>, foreign: Option<Doc>, actions: seq<Action> :| ReachedBy(s, w, found, foreign, actions);
    RunKeeps(Create(w, found, foreign).state, actions);
  }

  // ---- termination ----

  /** Ticks that may still follow in the present loop. A missing prompt file costs two more. */
  function StageWeight(s: State): nat {
    match s.stage
    case Init => 8
    case ModeBranch => 7
    case PreValidate => 6
    case PromptCompose => 5
    case LlmGenerate => if s.lastPrompt.Some? && s.lastPrompt.value in s.prompts then 4 else 6
    case Mockup => 3
    case PostValidate => 2
    case Persist => 1
    case _ => 0
  }

  function Measure(s: State): int {
    if Terminal(s.stage) then 0 else StageWeight(s) + 4 * (MaxLoops(s.work) - s.loop)
  }

  /** A tick that returns takes one off the measure, unless a prompt file was lost. */
  lemma TickDrops(s: State, e: Env)
    requires Inv(s) && !Terminal(s.stage)
    ensures var t := Handle(s, e).state;
            Handle(s, e).Done? ==> 1 + Measure(t) <= Measure(s) + 2 * (t.log.losses - s.log.losses)
  {
    LoseDrops(s, e);
    StageDrops(Lose(s, e), e);
  }

  lemma LoseDrops(s: State, e: Env)
    requires Inv(s) && !Terminal(s.stage)
    ensures var t := Lose(s, e); Inv(t) && t.stage == s.stage && Measure(t) <= Measure(s) + 2 * (t.log.losses - s.log.losses)
  {
    LoseKeeps(s, e);
  }

  lemma StageDrops(s: State, e: Env)
    requires Inv(s) && !Terminal(s.stage)
    ensures var h := HandleStage(s, e);
            h.state.log.losses == s.log.losses && (h.Done? ==> 1 + Measure(h.state) <= Measure(s))
  {
    match s.stage
    case LlmGenerate => GenerateDrops(s, e);
    case PostValidate =>
      LoopOrEscalateDrops(s, s.work.allSections);
      if s.output.Some? {
        LoopOrEscalateDrops(s, s.output.value.text.feedback);
      }
    case Persist => PersistDrops(s, e);
    case _ =>
  }

  lemma GenerateDrops(s: State, e: Env)
    requires Inv(s) && s.stage.LlmGenerate?
    ensures var h := HandleGenerate(s, e);
            h.state.log.losses == s.log.losses && (h.Done? ==> 1 + Measure(h.state) <= Measure(s))
  {
  }

  lemma LoopOrEscalateDrops(s: State, missing: seq<string>)
    requires Inv(s) && s.stage.PostValidate?
    ensures 1 + Measure(LoopOrEscalate(s, missing)) <= Measure(s)
  {
  }

  lemma PersistDrops(s: State, e: Env)
    requires Inv(s) && s.stage.Persist?
    ensures var h := HandlePersist(s, e);
            h.state.log.losses == s.log.losses && (h.Done? ==> 1 + Measure(h.state) <= Measure(s))
  {
  }

  /** The driver loop has no cap of its own. While it is still running after n ticks, n plus the measure left is at
      most the measure at the start plus two for every prompt file lost on the way. */
  lemma {:induction false} DriverBound(s: State, envs: seq<Env>)
    requires Inv(s)
    ensures var d := Drive(s, envs);
            && Inv(d.state)
            && (d.Done? && !Terminal(d.state.stage) ==>
                  |envs| + Measure(d.state) <= Measure(s) + 2 * (d.state.log.losses - s.log.losses))
    decreases |envs|
  {
    if envs != [] && !Terminal(s.stage) {
      NextKeeps(s, Tick(envs[0]));
      TickDrops(s, envs[0]);
      if Handle(s, envs[0]).Done? {
        DriverBound(Handle(s, envs[0]).state, envs[1..]);
      }
    }
  }

  lemma ReachedNext(s: State, a: Action)
    requires Reached(s)
    ensures Reached(Next(s, a))
  {
    var w: Work, found: Option<Text>, foreign: Option<Doc>, actions: seq<Action> :| ReachedBy(s, w, found, foreign, actions);
    RunOneMore(Create(w, found, foreign).state, actions, a);
    assert ReachedBy(Next(s, a), w, found, foreign, actions + [a]);
  }

  lemma {:induction false} RunOneMore(s: State, actions: seq<Action>, a: Action)
    ensures Run(s, actions + [a]) == Next(Run(s, actions), a)
    decreases |actions|
  {
    if actions == [] {
      assert ([] + [a])[1..] == [];
    } else {
      RunOneMore(Next(s, actions[0]), actions[1..], a);
      assert (actions + [a])[1..] == actions[1..] + [a];
    }
  }

  /** From any reachable state, if no prompt file is lost, the driver ends within `8 + 4 * max_loops` ticks: in a
      terminal state, or by an exception. */
  lemma DriverReachesTerminal(s: State, envs: seq<Env>, limit: int)
    requires Reached(s) && IsLimit(s.work, limit)
    requires |envs| >= 8 + 4 * limit
    requires forall i :: 0 <= i < |envs| ==> !envs[i].lost
    ensures Drive(s, envs).Raised? || Terminal(Drive(s, envs).state.stage)
  {
    ReachedHolds(s);
    LimitIsThis(s.work, limit);
    DriverBound(s, envs);
    NothingLost(s, envs);
  }

  lemma {:induction false} NothingLost(s: State, envs: seq<Env>)
    requires forall i :: 0 <= i < |envs| ==> !envs[i].lost
    ensures Drive(s, envs).state.log.losses == s.log.losses
    decreases |envs|
  {
    if envs != [] && !Terminal(s.stage) {
      var e := envs[0];
      assert Handle(s, e).state.log.losses == s.log.losses;
      if Handle(s, e).Done? {
        NothingLost(Handle(s, e).state, envs[1..]);
      }
    }
  }

  /** Without that condition there is no bound: a prompt file that always disappears before D4 keeps the driver
      between D3 and D4 for ever. */
  lemma {:induction false} LostPromptsNeverEnd(s: State, envs: seq<Env>)
    requires s.stage.PromptCompose? || s.stage.LlmGenerate?
    requires forall i :: 0 <= i < |envs| ==> envs[i].lost && !envs[i].fault && envs[i].compose.Composed?
    ensures var d := Drive(s, envs); d.Done? && (d.state.stage.PromptCompose? || d.state.stage.LlmGenerate?)
    ensures Drive(s, envs).state.log.calls == s.log.calls
    decreases |envs|
  {
    if envs != [] {
      LostPromptsNeverEnd(Handle(s, envs[0]).state, envs[1..]);
    }
  }

  // ---- crash recovery ----

  /** The file test of D4 passes exactly if the output was written after the present prompt, or by the coincidence of
      two files with one stamp; if no two files share a stamp, the coincidence is out. */
  lemma RecoveryIsExact(s: State)
    requires Reached(s) && s.stage.LlmGenerate? && s.loop in s.prompts
    ensures s.output.None? || !HasPath(s.work) ==> !Recovers(s)
    ensures s.output.Some? && HasPath(s.work) ==>
              (Recovers(s) <==> s.output.value.answers == s.log.composed || s.output.value.stamp == s.prompts[s.loop].stamp)
    ensures s.output.Some? && HasPath(s.work) && !s.log.stalled ==>
              (Recovers(s) <==> s.output.value.answers == s.log.composed)
  {
    ReachedHolds(s);
  }

  /** What D4 does in a reached work with its prompt: it goes on without a call exactly if the output was written after
      that prompt or shares its stamp. */
  lemma CallIsExact(s: State, e: Env)
    requires Reached(s) && s.stage.LlmGenerate? && s.loop in s.prompts && HasPath(s.work) && !e.lost && !e.fault
    ensures var t := Next(s, Tick(e));
            && (t.log.calls == s.log.calls || t.log.calls == s.log.calls + [s.loop])
            && (t.log.calls == s.log.calls <==>
                  && s.output.Some?
                  && (s.output.value.answers == s.log.composed || s.output.value.stamp == s.prompts[s.loop].stamp))
            && (!s.log.stalled ==>
                  (t.log.calls == s.log.calls <==> s.output.Some? && s.output.value.answers == s.log.composed))
  {
    ReachedHolds(s);
  }

  /** This loop's output has been written and no prompt file was lost since. */
  ghost predicate Answered(s: State) {
    HasPath(s.work) && s.output.Some? && s.output.value.loop == Some(s.loop) && s.output.value.lost == s.log.losses
  }

  /** Loop `n` needs no call any more: its output is there, or the work is past the loop. */
  ghost predicate Settled(s: State, n: nat) {
    || s.loop > n
    || (s.loop == n && (Answered(s) || At(s).Persist? || At(s).Completed? || At(s).Escalated?))
  }

  /** Between `s` and `t` the executor was called for later loops than `n` only. */
  ghost predicate CallsAfter(s: State, t: State, n: nat) {
    && s.log.calls <= t.log.calls
    && forall i :: |s.log.calls| <= i < |t.log.calls| ==> t.log.calls[i] > n
  }

  lemma StageStaysSettled(s: State, e: Env, n: nat)
    requires Inv(s) && Settled(s, n)
    ensures var t := HandleStage(s, e).state; Settled(t, n) && CallsAfter(s, t, n)
  {
    match s.stage
    case LlmGenerate => GenerateStaysSettled(s, e, n);
    case _ =>
  }

  lemma GenerateStaysSettled(s: State, e: Env, n: nat)
    requires Inv(s) && s.stage.LlmGenerate? && Settled(s, n)
    ensures var t := HandleGenerate(s, e).state; Settled(t, n) && CallsAfter(s, t, n)
  {
    if s.loop == n {
      assert s.loop in s.prompts && Recovers(s);
    }
  }

  lemma NextStaysSettled(s: State, a: Action, n: nat)
    requires Inv(s) && Settled(s, n)
    requires Next(s, a).loop == n ==> Next(s, a).log.losses == s.log.losses
    ensures Settled(Next(s, a), n) && CallsAfter(s, Next(s, a), n)
  {
    if a.Tick? {
      TickStaysSettled(s, a.env, n);
    }
  }

  lemma TickStaysSettled(s: State, e: Env, n: nat)
    requires Inv(s) && Settled(s, n)
    requires Next(s, Tick(e)).loop == n ==> Next(s, Tick(e)).log.losses == s.log.losses
    ensures Settled(Next(s, Tick(e)), n) && CallsAfter(s, Next(s, Tick(e)), n)
  {
    var u := Lose(s, e);
    LoseKeeps(s, e);
    if Settled(u, n) {
      StageStaysSettled(u, e, n);
    }
  }

  /** Once this loop's output exists and no prompt file was lost since, no sequence of ticks, crashes, cancels and
      reruns calls the executor for this loop again, as long as no prompt file is lost before the work leaves the
      loop: whatever calls it adds are for later loops. */
  lemma {:induction false} NoSecondCall(s: State, actions: seq<Action>)
    requires Reached(s) && Answered(s)
    requires forall k :: 0 <= k <= |actions| && Run(s, actions[..k]).loop == s.loop ==>
               Run(s, actions[..k]).log.losses == s.log.losses
    ensures CallsAfter(s, Run(s, actions), s.loop)
  {
    ReachedHolds(s);
    RunStaysSettled(s, actions, s.loop, s.log.losses);
  }

  lemma {:induction false} RunStaysSettled(s: State, actions: seq<Action>, n: nat, losses: nat)
    requires Inv(s) && Settled(s, n)
    requires forall k :: 0 <= k <= |actions| && Run(s, actions[..k]).loop == n ==> Run(s, actions[..k]).log.losses == losses
    ensures CallsAfter(s, Run(s, actions), n)
    decreases |actions|
  {
    if actions != [] {
      var t := Next(s, actions[0]);
      assert actions[..0] == [] && Run(s, actions[..0]) == s;
      assert actions[..1][0] == actions[0] && actions[..1][1..] == [] && Run(s, actions[..1]) == t;
      LoopGrows(s, actions[0]);
      NextKeeps(s, actions[0]);
      NextStaysSettled(s, actions[0], n);
      forall k | 0 <= k <= |actions| - 1 && Run(t, actions[1..][..k]).loop == n
        ensures Run(t, actions[1..][..k]).log.losses == losses
      {
        assert actions[..k + 1][0] == actions[0] && actions[..k + 1][1..] == actions[1..][..k];
      }
      RunStaysSettled(t, actions[1..], n, losses);
    }
  }

  lemma LoopGrows(s: State, a: Action)
    ensures s.loop <= Next(s, a).loop
  {
  }

  /** An output left by an earlier loop, or found at the start, never passes the file test of a later loop if no two
      files share a stamp: the executor is called. */
  lemma StaleOutputIsNotTaken(s: State, e: Env)
    requires Reached(s) && s.stage.LlmGenerate? && !s.log.stalled && !e.lost && !e.fault && s.loop in s.prompts
    requires s.output.Some? ==> s.output.value.loop != Some(s.loop)
    ensures Next(s, Tick(e)).log.calls == s.log.calls + [s.loop]
  {
    ReachedHolds(s);
  }

  // ---- what is published ----

  /** The row a completed work publishes: inserted by it, holding the text that D5 accepted and that is still at the
      output path, published and linked. */
  ghost predicate PublishedOnce(s: State) {
    && |s.docs| == 1 && s.docs[0].ours && s.docs[0].published && s.linked == Some(0)
    && s.docs[0].text.ok && s.output.Some? && s.output.value.text == s.docs[0].text
  }

  /** Whatever this work inserts or publishes has a text that passed the validation; there is at most one such row;
      COMPLETED means that it is there, published and linked. Mode `optimize` never gets so far. */
  lemma PublishedTextIsValid(s: State)
    requires Reached(s)
    ensures |s.docs| <= 1 && forall i :: 0 <= i < |s.docs| && s.docs[i].ours ==> s.docs[i].text.ok
    ensures s.linked.Some? ==> s.linked.value < |s.docs| && s.docs[s.linked.value].ours && s.docs[s.linked.value].published
    ensures s.stage.Completed? ==> PublishedOnce(s) && s.work.mode.New?
  {
    ReachedHolds(s);
  }

  /** D6 cannot be repeated once a row stands in the way, its own draft included, or once its file is gone. */
  ghost predicate Blocked(s: State) {
    !s.stage.Completed? && (s.docs != [] || (At(s).Persist? && s.output.None?))
  }

  lemma NextStaysBlocked(s: State, a: Action)
    requires Inv(s) && Blocked(s)
    ensures Blocked(Next(s, a)) && Next(s, a).docs == s.docs
  {
    if a.Tick? {
      var u := Lose(s, a.env);
      LoseKeeps(s, a.env);
      assert Blocked(u);
      StageStaysBlocked(u, a.env);
    }
  }

  lemma StageStaysBlocked(s: State, e: Env)
    requires Inv(s) && Blocked(s)
    ensures var t := HandleStage(s, e).state; Blocked(t) && t.docs == s.docs
  {
    match s.stage
    case Persist =>
    case LlmGenerate =>
    case PostValidate =>
    case _ =>
  }

  lemma {:induction false} BlockedForEver(s: State, actions: seq<Action>)
    requires Inv(s) && Blocked(s)
    ensures Blocked(Run(s, actions)) && Run(s, actions).docs == s.docs
    decreases |actions|
  {
    if actions != [] {
      NextKeeps(s, actions[0]);
      NextStaysBlocked(s, actions[0]);
      BlockedForEver(Next(s, actions[0]), actions[1..]);
    }
  }

  /** A calm outside world. */
  function Calm(): Env {
    Env(false, 1, false, Some(10), Composed, Generate(None, 0, false), Persisted)
  }

  /** A work at D6, cancelled or not, can still be completed exactly if no row stands in the way and its file is
      there. In particular a crash between the insert and the last update leaves a work that never completes, however
      often it is restarted, cancelled and rerun. */
  lemma PersistCanFinish(s: State)
    requires Reached(s) && At(s).Persist?
    ensures (exists actions :: Run(s, actions).stage.Completed?) <==> s.docs == [] && s.output.Some?
  {
    ReachedHolds(s);
    if s.docs == [] && s.output.Some? {
      var actions := FinishingActions(s);
      assert Run(s, actions).stage.Completed?;
    } else {
      forall actions ensures !Run(s, actions).stage.Completed? {
        BlockedForEver(s, actions);
      }
    }
  }

  lemma FinishingActions(s: State) returns (actions: seq<Action>)
    requires Inv(s) && At(s).Persist? && s.docs == [] && s.output.Some?
    ensures Run(s, actions).stage.Completed?
  {
    var finish := Tick(Calm());
    if s.stage.Cancelled? {
      actions := [Rerun, finish];
      assert Next(s, Rerun).stage.Persist? && Next(Next(s, Rerun), finish).stage.Completed?;
      assert actions[1..] == [finish] && [finish][1..] == [];
      assert Run(Next(s, Rerun), [finish]) == Run(Next(Next(s, Rerun), finish), []);
    } else {
      actions := [finish];
      assert Next(s, finish).stage.Completed?;
      assert actions[1..] == [];
    }
  }

  // ---- loops and human actions ----

  /** The loop counter never passes the limit. */
  lemma LoopBudget(s: State, limit: int)
    requires Reached(s) && IsLimit(s.work, limit)
    ensures s.loop <= limit <= 50
  {
    ReachedHolds(s);
    LimitIsThis(s.work, limit);
  }

  /** A loop whose output is missing or invalid is followed by another exactly if the limit allows for it; else the work
      is escalated. */
  lemma LoopsAreGiven(s: State, e: Env, limit: int)
    requires Reached(s) && s.stage.PostValidate? && !e.fault && IsLimit(s.work, limit)
    requires s.work.mode.Optimize? || s.output.None? || !s.output.value.text.ok
    ensures var t := Next(s, Tick(e));
            && (t.stage == PromptCompose && t.loop == s.loop + 1 <==> s.loop < limit)
            && (t.stage == Escalated && t.loop == s.loop <==> s.loop == limit)
  {
    LoopBudget(s, limit);
    TickIs(s, e, limit);
  }

  /** And every loop up to the limit can be reached: a work in mode `new` whose executor never delivers. */
  lemma {:induction false} EveryLoopCanBeReached(w: Work, limit: int, n: nat) returns (t: State)
    requires ValidWork(w) && w.mode.New? && !w.hasParent && IsLimit(w, limit) && n <= limit
    requires w.maxLoops.Some? ==> 0 <= w.maxLoops.value <= w.configLoops
    ensures Reached(t) && t.work == w && t.stage.PromptCompose? && t.loop == n && t.output.None?
  {
    if n == 0 {
      t := Create(w, None, None).state;
      assert ReachedBy(t, w, None, None, []);
      t := CalmTick(t, limit);
      t := CalmTick(t, limit);
      t := CalmTick(t, limit);
    } else {
      t := EveryLoopCanBeReached(w, limit, n - 1);
      t := OneMoreLoop(t, limit);
    }
  }

  lemma OneMoreLoop(s: State, limit: int) returns (t: State)
    requires Reached(s) && IsLimit(s.work, limit) && s.work.mode.New? && s.stage.PromptCompose? && s.output.None?
    requires s.loop < limit
    ensures Reached(t) && t.work == s.work && t.stage.PromptCompose? && t.loop == s.loop + 1 && t.output.None?
  {
    t := CalmTick(s, limit);
    t := CalmTick(t, limit);
    if s.work.needsMockup {
      t := CalmTick(t, limit);
    }
    t := CalmTick(t, limit);
  }

  lemma CalmTick(s: State, limit: int) returns (t: State)
    requires Reached(s) && IsLimit(s.work, limit)
    ensures Reached(t) && t == After(s, Calm(), limit)
  {
    t := Next(s, Tick(Calm()));
    ReachedNext(s, Tick(Calm()));
    TickIs(s, Calm(), limit);
  }

  /** A call that fails costs no loop: the work is escalated. */
  lemma FailedCallEscalates(s: State, e: Env)
    requires Reached(s) && s.stage.LlmGenerate? && Calls(s, e) && !e.generate.died
    ensures var t := Next(s, Tick(e));
            && t.loop == s.loop && t.log.calls == s.log.calls + [s.loop]
            && (t.stage == Escalated <==> e.generate.rc != 0)
            && (e.generate.rc == 0 ==> t.stage == if s.work.needsMockup then Mockup else PostValidate)
  {
    LimitIsThis(s.work, MaxLoops(s.work));
    TickIs(s, e, MaxLoops(s.work));
  }

  /** A new work is created exactly if the loops asked for are within the configuration and mode `new` has no parent; it
      starts at INIT with the limit asked for, else that of the configuration. */
  lemma CreationIsExact(w: Work, found: Option<Text>, foreign: Option<Doc>)
    requires ValidWork(w)
    ensures Create(w, found, foreign).Accepted? <==>
            (w.maxLoops.None? || 0 <= w.maxLoops.value <= w.configLoops) && !(w.mode.New? && w.hasParent)
    ensures Create(w, found, foreign).Accepted? ==>
              var t := Create(w, found, foreign).state;
              && t.work == w && t.stage == Init && t.loop == 0 && t.missing == [] && t.log.calls == []
              && IsLimit(w, if w.maxLoops.Some? then w.maxLoops.value else w.configLoops)
              && Inv(t) && Reached(t)
  {
    if Create(w, found, foreign).Accepted? {
      assert ReachedBy(Create(w, found, foreign).state, w, found, foreign, []);
    }
  }

  /** A new loop is told what the validator missed in the output of the loop before, and its prompt says so. */
  lemma FeedbackReachesThePrompt(s: State, e: Env)
    requires Reached(s)
    ensures var t := Next(s, Tick(e));
            t.loop > s.loop ==>
              && t.loop == s.loop + 1 && t.stage.PromptCompose?
              && t.missing == if HasPath(s.work) && s.output.Some? then s.output.value.text.feedback else s.work.allSections
    ensures s.stage.LlmGenerate? && s.loop in s.prompts ==> s.prompts[s.loop].missing == s.missing
  {
    ReachedHolds(s);
  }

  /** Rerunning a cancelled work undoes the cancel; a terminal work cannot be cancelled. */
  lemma CancelThenRerun(s: State)
    requires Reached(s)
    ensures if Terminal(s.stage) then DoCancel(s) == Refused else DoRerun(DoCancel(s).state) == Accepted(s)
  {
    ReachedHolds(s);
  }

  /** A rerun is accepted exactly in CANCELLED with a recorded stage that is not terminal, or with none; without one, as in
      rows from before the stage was recorded, the work goes on at LLM_GENERATE if it has a prompt, else at INIT. */
  lemma RerunIsExact(s: State)
    ensures DoRerun(s).Accepted? <==>
            s.stage == Cancelled && (s.cancelledFrom.Some? ==> s.cancelledFrom.value !in {Completed, Escalated, Cancelled})
    ensures DoRerun(s).Accepted? ==>
              var t := DoRerun(s).state;
              && t == s.(stage := t.stage, cancelledFrom := None)
              && (s.cancelledFrom.Some? ==> Some(t.stage) == s.cancelledFrom)
              && (s.cancelledFrom.None? && s.lastPrompt.Some? ==> t.stage == LlmGenerate)
              && (s.cancelledFrom.None? && s.lastPrompt.None? ==> t.stage == Init)
  {
  }

  /** The rows of `docs` are never taken back: each keeps its origin and its text, and one that is published stays so. */
  ghost predicate RowsStay(docs: seq<Doc>, later: seq<Doc>) {
    && |docs| <= |later|
    && forall i :: 0 <= i < |docs| ==>
         later[i].ours == docs[i].ours && later[i].text == docs[i].text && (docs[i].published ==> later[i].published)
  }

  lemma NextRowsStay(s: State, a: Action)
    ensures RowsStay(s.docs, Next(s, a).docs)
    ensures s.stage.Completed? || s.stage.Escalated? ==>
              && Next(s, a).stage == s.stage && Next(s, a).docs == s.docs && Next(s, a).linked == s.linked
              && Next(s, a).output == s.output && Next(s, a).log.calls == s.log.calls
  {
    if a.Tick? {
      LimitIsThis(s.work, MaxLoops(s.work));
      TickIs(s, a.env, MaxLoops(s.work));
      AfterRowsStay(s, a.env, MaxLoops(s.work));
    }
  }

  lemma AfterRowsStay(s: State, e: Env, limit: int)
    ensures RowsStay(s.docs, After(s, e, limit).docs)
    ensures s.stage.Completed? || s.stage.Escalated? ==>
              var t := After(s, e, limit);
              && t.stage == s.stage && t.docs == s.docs && t.linked == s.linked
              && t.output == s.output && t.log.calls == s.log.calls
  {
  }

  /** Over every run published rows are kept, and a completed or escalated work never changes again: not its state, its
      output, its rows, nor its link; and it calls no executor. */
  lemma {:induction false} FinalIsFinal(s: State, actions: seq<Action>)
    ensures var t := Run(s, actions);
            && RowsStay(s.docs, t.docs)
            && (s.stage.Completed? || s.stage.Escalated? ==>
                  && t.stage == s.stage && t.docs == s.docs && t.linked == s.linked
                  && t.output == s.output && t.log.calls == s.log.calls)
    decreases |actions|
  {
    if actions != [] {
      NextRowsStay(s, actions[0]);
      FinalIsFinal(Next(s, actions[0]), actions[1..]);
    }
  }

  // ---- the shortfalls do occur ----

  /** A work in mode `new` that ran smoothly up to `stage` in its first loop. */
  ghost predicate Smooth(s: State, stage: Stage) {
    && Reached(s) && s.stage == stage && HasPath(s.work) && !s.work.hasParent && !s.work.needsMockup && s.loop == 0
    && s.docs == [] && s.output.None? && s.log.calls == []
    && (stage.LlmGenerate? ==> s.lastPrompt == Some(0) && 0 in s.prompts)
  }

  const SOUND_TEXT := Text("", true, [])

  /** The executor writes a valid text. */
  function Writes(died: bool): Env {
    Calm().(generate := Generate(Some(SOUND_TEXT), 0, died))
  }

  lemma SmoothStart() returns (t: State)
    ensures Smooth(t, Init)
  {
    var w := Work(New, false, false, false, 3, None, []);
    t := Create(w, None, None).state;
    assert ReachedBy(t, w, None, None, []);
  }

  lemma SmoothStep(s: State, stage: Stage, next: Stage) returns (t: State)
    requires Smooth(s, stage)
    requires match stage
             case Init => next.ModeBranch?
             case ModeBranch => next.PreValidate?
             case PreValidate => next.PromptCompose?
             case PromptCompose => next.LlmGenerate?
             case _ => false
    ensures Smooth(t, next)
  {
    t := Next(s, Tick(Calm()));
    ReachedNext(s, Tick(Calm()));
  }

  lemma SmoothToCompose() returns (t: State)
    ensures Smooth(t, PromptCompose)
  {
    var s := SmoothStart();
    s := SmoothStep(s, Init, ModeBranch);
    s := SmoothStep(s, ModeBranch, PreValidate);
    t := SmoothStep(s, PreValidate, PromptCompose);
  }

  /** The condition of `DriverReachesTerminal` is needed: there is a reachable work whose driver never ends if its prompt
      file is lost before every D4. */
  lemma DriverNeedNotEnd() returns (t: State)
    ensures Reached(t)
    ensures forall envs: seq<Env> :: (forall i :: 0 <= i < |envs| ==> envs[i].lost && !envs[i].fault && envs[i].compose.Composed?)
              ==> Drive(t, envs).Done? && !Terminal(Drive(t, envs).state.stage)
  {
    t := SmoothToCompose();
    forall envs: seq<Env> | forall i :: 0 <= i < |envs| ==> envs[i].lost && !envs[i].fault && envs[i].compose.Composed?
      ensures Drive(t, envs).Done? && !Terminal(Drive(t, envs).state.stage)
    {
      LostPromptsNeverEnd(t, envs);
    }
  }

  /** The condition of `NoSecondCall` is needed: the executor has written this loop's output, the prompt file is lost, D3
      composes it again, and D4 calls the executor for the same loop a second time. */
  lemma SecondCallCanHappen() returns (s: State, t: State)
    ensures Reached(s) && s.output.Some? && s.output.value.loop == Some(s.loop) && s.log.calls == [s.loop]
    ensures Reached(t) && t.loop == s.loop && t.log.calls == [s.loop, s.loop]
  {
    var asked := SmoothToCompose();
    asked := SmoothStep(asked, PromptCompose, LlmGenerate);
    s := Next(asked, Tick(Writes(true)));
    ReachedNext(asked, Tick(Writes(true)));
    ReachedHolds(s);
    var again := PromptLost(s);
    t := Next(again, Tick(Writes(false)));
    ReachedNext(again, Tick(Writes(false)));
  }

  lemma PromptLost(s: State) returns (t: State)
    requires Reached(s) && Inv(s) && s.stage.LlmGenerate? && s.loop == 0 && 0 in s.prompts && s.output.Some? && HasPath(s.work)
    ensures Reached(t) && t.stage.LlmGenerate? && t.loop == 0 && HasPath(t.work) && t.log.calls == s.log.calls
    ensures t.lastPrompt == Some(0) && 0 in t.prompts && !Recovers(t)
  {
    var gone := Calm().(lost := true);
    var u := Next(s, Tick(gone));
    ReachedNext(s, Tick(gone));
    t := Next(u, Tick(Calm()));
    ReachedNext(u, Tick(Calm()));
  }

  /** A crash between the insert of D6 and its last update: a reachable work that no action ever completes, with its own
      draft in the way. */
  lemma DraftCanBlockForEver() returns (t: State)
    ensures Reached(t) && t.stage.Persist? && t.docs == [Doc(true, SOUND_TEXT, false)]
    ensures forall actions :: !Run(t, actions).stage.Completed?
  {
    var s := SmoothToCompose();
    s := SmoothStep(s, PromptCompose, LlmGenerate);
    s := WrittenAndValid(s);
    var crash := Calm().(persist := DiedAfterInsert);
    t := Next(s, Tick(crash));
    ReachedNext(s, Tick(crash));
    ReachedHolds(t);
    forall actions ensures !Run(t, actions).stage.Completed? {
      BlockedForEver(t, actions);
    }
  }

  lemma WrittenAndValid(s: State) returns (t: State)
    requires Smooth(s, LlmGenerate)
    ensures Reached(t) && t.stage.Persist? && t.docs == [] && t.output.Some? && t.output.value.text == SOUND_TEXT
  {
    var u := Next(s, Tick(Writes(false)));
    ReachedNext(s, Tick(Writes(false)));
    t := Next(u, Tick(Calm()));
    ReachedNext(u, Tick(Calm()));
  }
}
