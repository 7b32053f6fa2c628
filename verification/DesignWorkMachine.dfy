/** The DesignWork state machine as the code runs it: one row overwritten step by step, its files, the table of design
    documents, and a driver loop without a cap. Each method is proved to do what its namesake in DesignWorkSpec.dfy
    says. */
module DesignWorkMachine {
  import opened Options
  import opened DesignWorkSpec
  import opened DesignWorkTheorems

  /** What one turn of the driver loop does to the measure. */
  lemma DriverStep(s: State, e: Env)
    requires Inv(s)
    ensures var h := Handle(s, e); var t := h.state;
            && Inv(t) && 0 <= Measure(t) && (!Terminal(s.stage) ==> 1 <= Measure(s)) && s.log.losses <= t.log.losses
            && (!e.lost ==> t.log.losses == s.log.losses)
            && (if Terminal(s.stage) then t.stage == s.stage
                else h.Done? ==> 1 + Measure(t) <= Measure(s) + 2 * (t.log.losses - s.log.losses))
  {
    NextKeeps(s, Tick(e));
    LossesOnlyByLoss(s, e);
    if !Terminal(s.stage) {
      TickDrops(s, e);
    }
  }

  lemma LossesOnlyByLoss(s: State, e: Env)
    ensures Handle(s, e).state.log.losses == Lose(s, e).log.losses
    ensures Terminal(s.stage) ==> Handle(s, e).state.stage == s.stage
  {
  }

  /** What the driver meets in its first n ticks. */
  function Ticks(world: nat -> Env, n: nat): (envs: seq<Env>)
    ensures |envs| == n
  {
    seq(n, i requires 0 <= i => world(i))
  }

  lemma {:induction false} DriveOneMore(s: State, envs: seq<Env>, e: Env)
    ensures var d := Drive(s, envs);
            Drive(s, envs + [e]) == if d.Done? && !Terminal(d.state.stage) then Handle(d.state, e) else d
    decreases |envs|
  {
    if envs == [] {
      assert ([] + [e])[1..] == [];
    } else if !Terminal(s.stage) && Handle(s, envs[0]).Done? {
      DriveOneMore(Handle(s, envs[0]).state, envs[1..], e);
      assert (envs + [e])[1..] == envs[1..] + [e];
    }
  }

  lemma KeepsInv(s: State, a: Action)
    ensures Inv(s) ==> Inv(Next(s, a))
  {
    if Inv(s) {
      NextKeeps(s, a);
    }
  }

  class DesignWork {
    const work: Work
    var stage: Stage
    var loop: nat
    var missing: seq<string>
    var lastPrompt: Option<nat>
    var cancelledFrom: Option<Stage>
    var prompts: map<nat, PromptFile>
    var output: Option<OutputFile>
    var docs: seq<Doc>
    var linked: Option<nat>
    var log: Log

    ghost function Snapshot(): State
      reads this
    {
      State(work, stage, loop, missing, lastPrompt, cancelledFrom, prompts, output, docs, linked, log)
    }

    /** How a handler ended. */
    ghost function Ended(raised: bool): Handled
      reads this
    {
      if raised then Raised(Snapshot()) else Done(Snapshot())
    }

    constructor (work: Work, found: Option<Text>, foreign: Option<Doc>)
      requires ValidWork(work) && Create(work, found, foreign).Accepted?
      ensures Inv(Snapshot()) && Snapshot() == Create(work, found, foreign).state
    {
      this.work := work;
      stage, loop, missing, lastPrompt, cancelledFrom := Init, 0, [], None, None;
      prompts := map[];
      output := if found.Some? then Some(OutputFile(found.value, 0, None, 0, 0)) else None;
      docs := if foreign.Some? then [foreign.value.(ours := false)] else [];
      linked := None;
      log := Log([], 0, 0, 0, false);
    }

    // ---- files ----

    method TakeStamp(e: Env) returns (stamp: nat)
      modifies this`log
      ensures stamp == Stamp(old(Snapshot()), e) && Snapshot() == Stamped(old(Snapshot()), e)
    {
      stamp := log.clock + e.pause;
      log := log.(clock := stamp, stalled := log.stalled || e.pause == 0);
    }

    method PutOutput(text: Text, writer: Option<nat>, e: Env)
      modifies this`log, this`output
      ensures Snapshot() == WriteOutput(old(Snapshot()), text, writer, e)
    {
      var stamp := TakeStamp(e);
      output := Some(OutputFile(text, stamp, writer, log.composed, log.losses));
    }

    method PutPrompt(e: Env)
      modifies this`log, this`prompts
      ensures Snapshot() == WritePrompt(old(Snapshot()), e)
    {
      var stamp := TakeStamp(e);
      prompts := prompts[loop := PromptFile(stamp, missing)];
      log := log.(composed := log.composed + 1);
    }

    method LosePrompt(e: Env)
      modifies this`log, this`prompts
      ensures Snapshot() == Lose(old(Snapshot()), e)
    {
      if e.lost && lastPrompt.Some? && lastPrompt.value in prompts {
        prompts := prompts - {lastPrompt.value};
        log := log.(losses := log.losses + 1);
      }
    }

    // ---- handlers ----

    method DoEscalate(items: seq<string>)
      modifies this`stage, this`missing
      ensures Snapshot() == Escalate(old(Snapshot()), items)
    {
      stage := Escalated;
      missing := items;
    }

    method ResolveMaxLoops() returns (n: int)
      ensures n == MaxLoops(work)
    {
      var override := work.maxLoops;
      if override.Some? && 0 <= override.value && override.value <= 50 {
        return override.value;
      }
      n := work.configLoops;
    }

    method DoLoopOrEscalate(items: seq<string>)
      modifies this`stage, this`missing, this`loop
      ensures Snapshot() == LoopOrEscalate(old(Snapshot()), items)
    {
      var nextLoop := loop + 1;
      var maxLoops := ResolveMaxLoops();
      if nextLoop > maxLoops {
        DoEscalate(items);
        return;
      }
      loop := nextLoop;
      missing := items;
      stage := PromptCompose;
    }

    method D1ModeBranch() returns (raised: bool)
      modifies this
      ensures Ended(raised) == HandleModeBranch(old(Snapshot()))
    {
      if work.mode == Optimize && !work.allowOptimize {
        DoEscalate([]);
        return true;
      }
      if work.mode == New && work.hasParent {
        DoEscalate([]);
        return true;
      }
      stage := PreValidate;
      raised := false;
    }

    method D2PreValidate(e: Env)
      modifies this
      ensures Ended(false) == HandlePreValidate(old(Snapshot()), e)
    {
      if e.input.None? {
        DoEscalate([]);
        return;
      }
      if e.input.value < 10 {
        DoEscalate([]);
        return;
      }
      stage := PromptCompose;
    }

    method D3PromptCompose(e: Env) returns (raised: bool)
      modifies this
      ensures Ended(raised) == HandleCompose(old(Snapshot()), e)
    {
      PutPrompt(e);
      if e.compose.DiedAfterPrompt? {
        return true;
      }
      lastPrompt := Some(loop);
      if e.compose.DiedAfterGates? {
        return true;
      }
      stage := LlmGenerate;
      raised := false;
    }

    method D4LlmGenerate(e: Env) returns (raised: bool)
      modifies this
      ensures Ended(raised) == HandleGenerate(old(Snapshot()), e)
    {
      raised := false;
      if lastPrompt.None? || lastPrompt.value !in prompts {
        stage := PromptCompose;
        return;
      }
      var prompt := prompts[lastPrompt.value];
      if work.mode == New && output.Some? && output.value.stamp >= prompt.stamp {
        AdvanceAfterLlmSuccess();
        return;
      }
      RunExecutor(e);
      if e.generate.died {
        return true;
      }
      if e.generate.rc != 0 {
        DoEscalate([]);
        return;
      }
      AdvanceAfterLlmSuccess();
    }

    method RunExecutor(e: Env)
      modifies this`log, this`output
      ensures Snapshot() == CallExecutor(old(Snapshot()), e)
    {
      log := log.(calls := log.calls + [loop]);
      if e.generate.wrote.Some? && work.mode == New {
        PutOutput(e.generate.wrote.value, Some(loop), e);
      }
    }

    method AdvanceAfterLlmSuccess()
      modifies this`stage
      ensures Snapshot() == AfterLlm(old(Snapshot()))
    {
      if work.needsMockup {
        stage := Mockup;
      } else {
        stage := PostValidate;
      }
    }

    method D5PostValidate()
      modifies this
      ensures Ended(false) == HandlePostValidate(old(Snapshot()))
    {
      if work.mode != New || output.None? {
        DoLoopOrEscalate(work.allSections);
        return;
      }
      var report := output.value.text;
      if report.ok {
        missing := [];
        stage := Persist;
        return;
      }
      DoLoopOrEscalate(report.feedback);
    }

    method D6Persist(e: Env) returns (raised: bool)
      modifies this
      ensures Ended(raised) == HandlePersist(old(Snapshot()), e)
    {
      if output.None? {
        return true;
      }
      raised := PersistDoc(output.value.text, e);
      if raised {
        return;
      }
      var published := Publish(|docs| - 1);
      if !published || e.persist.DiedAfterPublish? {
        return true;
      }
      stage := Completed;
    }

    /** `persist`: refuse a second row, write the file, insert a draft; if the insert fails, delete the file. */
    method PersistDoc(text: Text, e: Env) returns (raised: bool)
      requires output.Some? && text == output.value.text
      modifies this
      ensures
        var s := old(Snapshot());
        var written := WriteOutput(s, text, s.output.value.loop, e);
        Ended(raised) ==
        if s.docs != [] then Raised(s)
        else
          match e.persist
          case DiedAfterFile => Raised(written)
          case InsertFailed(rolledBack) => Raised(if rolledBack then written.(output := None) else written)
          case DiedAfterInsert => Raised(InsertDraft(written, text))
          case _ => Done(InsertDraft(written, text))
    {
      if docs != [] {
        return true;
      }
      PutOutput(text, output.value.loop, e);
      if e.persist.DiedAfterFile? {
        return true;
      }
      if e.persist.InsertFailed? {
        if e.persist.rolledBack {
          output := None;
        }
        return true;
      }
      docs := docs + [Doc(true, text, false)];
      raised := e.persist.DiedAfterInsert?;
    }

    /** `publish`: a draft is published and linked; anything else is refused. */
    method Publish(id: nat) returns (ok: bool)
      requires id < |docs|
      modifies this`docs, this`linked
      ensures ok == !old(docs)[id].published
      ensures ok ==> docs == old(docs)[id := old(docs)[id].(published := true)] && linked == Some(id)
      ensures !ok ==> docs == old(docs) && linked == old(linked)
    {
      if docs[id].published {
        return false;
      }
      docs := docs[id := docs[id].(published := true)];
      linked := Some(id);
      ok := true;
    }

    // ---- the driver ----

    method TickOnce(e: Env) returns (raised: bool)
      modifies this
      ensures Ended(raised) == Handle(old(Snapshot()), e)
      ensures old(Inv(Snapshot())) ==> Inv(Snapshot())
    {
      KeepsInv(Snapshot(), Tick(e));
      raised := false;
      LosePrompt(e);
      if e.fault {
        return true;
      }
      match stage {
        case Init => stage := ModeBranch;
        case ModeBranch => raised := D1ModeBranch();
        case PreValidate => D2PreValidate(e);
        case PromptCompose => raised := D3PromptCompose(e);
        case LlmGenerate => raised := D4LlmGenerate(e);
        case Mockup => stage := PostValidate;
        case PostValidate => D5PostValidate();
        case Persist => raised := D6Persist(e);
        case Completed =>
        case Escalated =>
        case Cancelled =>
      }
    }

    /** `run_to_completion`: the loop has no cap, yet it ends, provided prompt files stop disappearing at some tick;
        `n` is the number of ticks it took. */
    method RunToCompletion(world: nat -> Env, ghost calmFrom: nat) returns (raised: bool, ghost n: nat)
      requires Inv(Snapshot()) && forall i :: calmFrom <= i ==> !world(i).lost
      modifies this
      ensures Inv(Snapshot()) && (raised || Terminal(stage))
      ensures !old(Terminal(stage)) ==>
                && Ended(raised) == Drive(old(Snapshot()), Ticks(world, n))
                && n <= Measure(old(Snapshot())) + 2 * (log.losses - old(log.losses))
    {
      var i: nat := 0;
      n := 0;
      while true
        invariant Inv(Snapshot()) && n == i
        invariant i > 0 ==> !Terminal(stage)
        invariant !old(Terminal(stage)) || i == 0
        invariant Drive(old(Snapshot()), Ticks(world, i)) == Done(Snapshot())
        invariant i + Measure(Snapshot()) <= Measure(old(Snapshot())) + 2 * (log.losses - old(log.losses))
        decreases if i < calmFrom then calmFrom - i else 0, Measure(Snapshot())
      {
        DriverStep(Snapshot(), world(i));
        DriveOneMore(old(Snapshot()), Ticks(world, i), world(i));
        assert Ticks(world, i + 1) == Ticks(world, i) + [world(i)];
        raised := TickOnce(world(i));
        i, n := i + 1, n + 1;
        if raised || Terminal(stage) {
          return;
        }
      }
    }

    // ---- human actions ----

    method CancelWork() returns (accepted: bool)
      modifies this
      ensures accepted == DoCancel(old(Snapshot())).Accepted?
      ensures Snapshot() == Answer(old(Snapshot()), DoCancel(old(Snapshot())))
      ensures old(Inv(Snapshot())) ==> Inv(Snapshot())
    {
      KeepsInv(Snapshot(), Cancel);
      if stage == Completed || stage == Escalated || stage == Cancelled {
        return false;
      }
      cancelledFrom := Some(stage);
      stage := Cancelled;
      accepted := true;
    }

    method RerunCancelled() returns (accepted: bool)
      modifies this
      ensures accepted == DoRerun(old(Snapshot())).Accepted?
      ensures Snapshot() == Answer(old(Snapshot()), DoRerun(old(Snapshot())))
      ensures old(Inv(Snapshot())) ==> Inv(Snapshot())
    {
      KeepsInv(Snapshot(), Rerun);
      if stage != Cancelled {
        return false;
      }
      var back := Init;
      if cancelledFrom.Some? {
        back := cancelledFrom.value;
      } else if lastPrompt.Some? {
        back := LlmGenerate;
      }
      if back == Completed || back == Escalated || back == Cancelled {
        return false;
      }
      cancelledFrom := None;
      stage := back;
      accepted := true;
    }
  }
}
