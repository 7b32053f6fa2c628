/** The DevWork state machine as the code runs it: one row whose fields every handler overwrites step by step, a
    session cache beside it, and a bounded driver loop. Each method is proved to do what its namesake in
    DevWorkSpec.dfy says, so every theorem about that machine holds of this one. */
module DevWorkMachine {
  import opened Options
  import opened Reviewer
  import opened Sessions
  import opened DevWorkSpec
  import opened DevWorkInvariant
  import opened DevWorkSessions
  import opened DevWorkTermination
  import opened SessionNames
  import opened SessionCache
  import PlanAudit

  /** One turn of the loop that collects the reasons for a round. */
  lemma FeedbackStep(entries: seq<Feedback>, i: nat, round: nat, backTo: Step, lines: seq<Feedback>)
    requires i < |entries|
    ensures lines + FeedbackFor(entries[i..], round, backTo) ==
            (if entries[i].round == round && entries[i].backTo == backTo then lines + [entries[i]] else lines)
            + FeedbackFor(entries[i + 1..], round, backTo)
  {
    assert entries[i..][1..] == entries[i + 1..];
  }

  /** What one turn of the driver loop does to the run that is left. */
  lemma DriveStep(s: State, envs: seq<Env>, i: nat)
    requires Inv(s) && i < |envs|
    ensures var t := DriverTick(s, envs[i]);
            && Inv(t) && (if Terminal(s.step) then t == s else Measure(t) < Measure(s))
            && Drive(t, envs[i + 1..]) == Drive(s, envs[i..])
  {
    assert envs[i..][0] == envs[i] && envs[i..][1..] == envs[i + 1..];
    if !Terminal(s.step) {
      TickStep(s, envs[i]);
    }
  }

  /** An action of the machine, done on values, keeps both invariants. */
  lemma KeepsSound(s: State, a: Action)
    ensures Inv(s) && SessionsOk(s) ==> Inv(Next(s, a)) && SessionsOk(Next(s, a))
  {
    if Inv(s) && SessionsOk(s) {
      NextKeeps(s, a);
      NextHolds(s, a);
    }
  }

  lemma CancelDuringSound(s: State, e: Env)
    ensures Inv(s) && SessionsOk(s) ==>
              var t := Answer(s, DoCancelDuring(s, e)); Inv(t) && SessionsOk(t)
  {
    if Inv(s) && SessionsOk(s) {
      CancelDuringKeeps(s, e);
      CancelDuringHolds(s, e);
    }
  }

  class DevWork {
    const cfg: Config
    const sessions: SessionCache
    var step: Step
    var rounds: nat
    var score: Option<int>
    var category: Option<Category>
    var firstPass: Option<bool>
    var gates: Gates
    var notes: seq<nat>
    var noteText: map<nat, string>
    var reviews: seq<Recorded>
    var artifacts: map<nat, Output>
    var prompts: seq<Prompt>
    ghost var cutShort: set<nat>
    ghost var cutOff: set<nat>

    ghost predicate Valid()
      reads this, sessions
    {
      sessions.Valid()
    }

    /** Valid, and in a state that satisfies both invariants. */
    ghost predicate Sound()
      reads this, sessions
    {
      Valid() && Inv(Snapshot()) && SessionsOk(Snapshot())
    }

    ghost function Snapshot(): State
      reads this, sessions
    {
      State(cfg, step, rounds, score, category, firstPass, gates, notes, noteText, reviews, artifacts, prompts, sessions.pool, cutShort,
            cutOff)
    }

    /** How a handler ended. */
    ghost function Ended(raised: bool): Handled
      reads this, sessions
    {
      if raised then Raised(Snapshot()) else Done(Snapshot())
    }

    /** `create`, after the override was validated. */
    constructor (cfg: Config, devId: string, maxRounds: Option<int>, threshold: Option<int>)
      requires IsDevId(devId) && ValidConfig(cfg) && Create(cfg, maxRounds, threshold).Accepted?
      ensures Sound() && fresh(sessions) && Snapshot() == Create(cfg, maxRounds, threshold).state
    {
      this.cfg := cfg;
      sessions := new SessionCache(devId);
      step, rounds, score, category, firstPass := Init, 0, None, None, None;
      gates := Gates(map[], maxRounds, threshold, None, None, None, [], {});
      notes, noteText, reviews, artifacts, prompts := [], map[], [], map[], [];
      cutShort, cutOff := {}, {};
      CreateHolds(cfg, maxRounds, threshold);
    }

    // ---- gates ----

    method ResolveMaxRounds() returns (n: int)
      ensures n == MaxRounds(Snapshot())
    {
      var override := gates.maxRounds;
      if override.Some? && 0 <= override.value && override.value <= HARD_MAX_ROUNDS {
        return override.value;
      }
      n := cfg.maxRounds;
    }

    method AppendLoopFeedback(forRound: nat, backTo: Step, reason: Reason, problem: Option<Category>)
      modifies this`gates
      ensures Snapshot() == AppendFeedback(old(Snapshot()), Feedback(forRound, backTo, reason, problem))
    {
      var entries := gates.feedback + [Feedback(forRound, backTo, reason, problem)];
      if |entries| > FEEDBACK_CAP {
        entries := entries[|entries| - FEEDBACK_CAP..];
      }
      gates := gates.(feedback := entries);
    }

    method LoopFeedbackForRound(round: nat, backTo: Step) returns (lines: seq<Feedback>)
      ensures lines == FeedbackFor(gates.feedback, round, backTo)
    {
      lines := [];
      var entries := gates.feedback;
      assert entries[0..] == entries;
      for i := 0 to |entries|
        invariant lines + FeedbackFor(entries[i..], round, backTo) == FeedbackFor(entries, round, backTo)
      {
        FeedbackStep(entries, i, round, backTo, lines);
        if entries[i].round == round && entries[i].backTo == backTo {
          lines := lines + [entries[i]];
        }
      }
      assert entries[|entries|..] == [];
    }

    method StoreMaxRoundsResume(completed: nat, cap: int, backTo: Step, reason: Reason, problem: Option<Category>)
      modifies this`gates
      ensures gates == old(gates).(roundsResume := Some(RoundsResume(completed, cap, backTo, reason, problem)))
    {
      gates := gates.(roundsResume := Some(RoundsResume(completed, cap, backTo, reason, problem)));
    }

    method StoreStepFailureResume(backTo: Step, reason: Reason, problem: Option<Category>)
      modifies this`gates
      ensures Snapshot() == StoreStepResume(old(Snapshot()), backTo, reason, problem)
    {
      gates := gates.(stepResume := Some(StepResume(backTo, reason, problem, rounds + 1)));
    }

    method GetAttempts(of: Step, round: nat) returns (n: nat)
      ensures n == Tries(gates.retries, of, round)
    {
      n := 0;
      if RetryKey(of, round) in gates.retries {
        n := gates.retries[RetryKey(of, round)];
      }
    }

    method SetAttempts(of: Step, round: nat, n: nat)
      modifies this`gates
      ensures gates == old(gates).(retries := old(gates).retries[RetryKey(of, round) := n])
    {
      gates := gates.(retries := gates.retries[RetryKey(of, round) := n]);
    }

    // ---- escalate, retry, burn a round ----

    method DoEscalate(problem: Option<Category>, ghost stuck: set<Session>)
      requires Valid()
      modifies this, sessions
      ensures Valid() && Snapshot() == Escalate(old(Snapshot()), problem, stuck)
    {
      sessions.DeleteAllSessions(stuck);
      step := Escalated;
      category := problem;
    }

    /** `_loop_or_escalate`: Step4 and Step5 are retried in the same round; any other target ends the round. */
    method LoopOrEscalate(backTo: Step, reason: Reason, problem: Option<Category>, e: Env)
      requires Valid()
      modifies this, sessions
      ensures Valid()
      ensures Snapshot() ==
              match backTo
              case Step4 => RetryStep4(old(Snapshot()), reason, problem, e)
              case Step5 => RetryStep5(old(Snapshot()), reason, problem, e)
              case _ => BurnRound(old(Snapshot()), backTo, reason, problem, e.stuck)
    {
      if backTo == Step4 {
        RetryStep4SameRoundOrEscalate(reason, problem, e);
        return;
      }
      if backTo == Step5 {
        RetryStep5SameRoundOrEscalate(reason, problem, e);
        return;
      }
      EndRound(backTo, reason, problem, e.stuck);
    }

    /** The part of `_loop_or_escalate` that ends the round. */
    method EndRound(backTo: Step, reason: Reason, problem: Option<Category>, ghost stuck: set<Session>)
      requires Valid()
      modifies this, sessions
      ensures Valid() && Snapshot() == BurnRound(old(Snapshot()), backTo, reason, problem, stuck)
    {
      var nextRound := rounds + 1;
      var maxRounds := ResolveMaxRounds();
      if nextRound >= maxRounds {
        StoreMaxRoundsResume(nextRound, maxRounds, backTo, reason, problem);
        rounds := nextRound;
        DoEscalate(problem, stuck);
        return;
      }
      StartNextRound(nextRound, backTo, reason, problem, stuck);
    }

    method StartNextRound(completed: nat, backTo: Step, reason: Reason, problem: Option<Category>, ghost stuck: set<Session>)
      requires Valid() && completed == rounds + 1
      modifies this, sessions
      ensures Valid()
      ensures Snapshot() ==
              AppendFeedback(old(Snapshot()), Feedback(completed + 1, backTo, reason, problem))
              .(pool := CloseRound(old(sessions.pool), completed, stuck), rounds := completed, step := backTo, category := problem)
    {
      AppendLoopFeedback(completed + 1, backTo, reason, problem);
      sessions.DeleteRoundSessions(completed, stuck);
      rounds := completed;
      step := backTo;
      category := problem;
    }

    method RetryStep2SameRoundOrEscalate(round: nat, reason: Reason, e: Env)
      requires Valid() && round == rounds + 1
      modifies this, sessions
      ensures Valid() && Snapshot() == RetryStep2(old(Snapshot()), reason, e.stuck)
    {
      var attempt := GetAttempts(Step2, round);
      if attempt < 1 {
        SetAttempts(Step2, round, attempt + 1);
        return;
      }
      GiveUp(Step2, reason, Some(ReqGap), e.stuck);
    }

    method RetryStep4SameRoundOrEscalate(reason: Reason, problem: Option<Category>, e: Env)
      requires Valid()
      modifies this, sessions
      ensures Valid() && Snapshot() == RetryStep4(old(Snapshot()), reason, problem, e)
    {
      var round := rounds + 1;
      var attempt := GetAttempts(Step4, round);
      if attempt >= 1 {
        GiveUp(Step4, reason, problem, e.stuck);
        return;
      }
      AppendLoopFeedback(round, Step4, reason, problem);
      if !e.cleaned {
        DoEscalate(problem, e.stuck);
        return;
      }
      DevelopAgain(round, attempt, problem, e.stuck);
    }

    method DevelopAgain(round: nat, attempt: nat, problem: Option<Category>, ghost stuck: set<Session>)
      requires Valid() && round == rounds + 1 && attempt == Tries(gates.retries, Step4, round)
      modifies this, sessions
      ensures Valid()
      ensures Snapshot() ==
              CountAttempt(old(Snapshot()), Step4)
              .(pool := CloseRound(old(Snapshot()).pool, round, stuck), step := Step4, category := problem)
    {
      SetAttempts(Step4, round, attempt + 1);
      sessions.DeleteRoundSessions(round, stuck);
      step := Step4;
      category := problem;
    }

    method RetryStep5SameRoundOrEscalate(reason: Reason, problem: Option<Category>, e: Env)
      requires Valid()
      modifies this, sessions
      ensures Valid() && Snapshot() == RetryStep5(old(Snapshot()), reason, problem, e)
    {
      var round := rounds + 1;
      var attempt := GetAttempts(Step5, round);
      var shouldRetry := attempt < 1;
      if shouldRetry {
        AppendLoopFeedback(round, Step5, reason, problem);
      }
      if !e.cleaned {
        DoEscalate(problem, e.stuck);
        return;
      }
      artifacts := artifacts - {round};
      if shouldRetry {
        ReviewAgain(round, attempt, problem, e.stuck);
      } else {
        GiveUp(Step5, reason, problem, e.stuck);
      }
    }

    /** The retry is used up: the work is escalated with a way back into the step. */
    method GiveUp(backTo: Step, reason: Reason, problem: Option<Category>, ghost stuck: set<Session>)
      requires Valid()
      modifies this, sessions
      ensures Valid()
      ensures Snapshot() == Escalate(StoreStepResume(old(Snapshot()), backTo, AfterRetry(reason), problem), problem, stuck)
    {
      StoreStepFailureResume(backTo, AfterRetry(reason), problem);
      DoEscalate(problem, stuck);
    }

    method ReviewAgain(round: nat, attempt: nat, problem: Option<Category>, ghost stuck: set<Session>)
      requires Valid() && round == rounds + 1 && attempt == Tries(gates.retries, Step5, round)
      modifies this, sessions
      ensures Valid()
      ensures Snapshot() ==
              CountAttempt(old(Snapshot()), Step5)
              .(pool := CloseRole(old(Snapshot()).pool, Session(round, Review), stuck), step := Step5, category := problem)
    {
      SetAttempts(Step5, round, attempt + 1);
      sessions.DeleteRoleSession(round, Review, stuck);
      step := Step5;
      category := problem;
    }

    // ---- handlers ----

    method PutPrompt(feedback: seq<Feedback>)
      modifies this`prompts
      ensures Snapshot() == AddPrompt(old(Snapshot()), feedback)
    {
      prompts := prompts + [Prompt(step, rounds + 1, feedback)];
    }

    /** `_transition`. */
    method Transition(to: Step)
      modifies this`step
      ensures step == to
    {
      step := to;
    }

    method S0Init(e: Env) returns (raised: bool)
      requires Valid()
      modifies this, sessions
      ensures Valid() && Ended(raised) == HandleInit(old(Snapshot()), e)
    {
      raised := false;
      if e.ready {
        Transition(Step1);
      } else {
        DoEscalate(None, e.stuck);
      }
    }

    method S1Validate(e: Env) returns (raised: bool)
      requires Valid()
      modifies this, sessions
      ensures Valid() && Ended(raised) == HandleStep1(old(Snapshot()), e)
    {
      raised := false;
      if !e.ready {
        DoEscalate(Some(DesignHollow), e.stuck);
        return;
      }
      Transition(Step2);
    }

    method S2Iteration(e: Env) returns (raised: bool)
      requires Valid() && step == Step2
      modifies this, sessions
      ensures Valid() && Ended(raised) == HandleStep2(old(Snapshot()), e)
    {
      var round := rounds + 1;
      raised := S2IterationBody(round, e);
      sessions.DeleteRoleSession(round, Plan, e.stuck);
    }

    method S2IterationBody(round: nat, e: Env) returns (raised: bool)
      requires Valid() && step == Step2 && round == rounds + 1
      modifies this, sessions
      ensures Valid() && Ended(raised) == Step2Body(old(Snapshot()), e)
    {
      raised := false;
      if !e.ready {
        DoEscalate(Some(DesignHollow), e.stuck);
        return;
      }
      if e.fault {
        noteText := noteText[round := e.header];
        return true;
      }
      var rc := AskToPlan(round, e);
      AcceptNote(round, rc, e);
    }

    /** The header is written, then the prompt, and the agent appends to the note. */
    method AskToPlan(round: nat, e: Env) returns (rc: int)
      requires Valid() && step == Step2 && round == rounds + 1
      modifies this, sessions
      ensures Valid() && rc == Rc(e.llm) && Snapshot() == Step2Written(old(Snapshot()), e)
    {
      noteText := noteText[round := e.header];
      var feedback := [];
      if round > 1 {
        feedback := LoopFeedbackForRound(round, Step2);
      }
      PutPrompt(feedback);
      rc := sessions.RunLlmSession(round, Plan, e.llm, e.stuck);
      noteText := if e.noteText.Some? then noteText[round := e.noteText.value] else noteText - {round};
    }

    method AcceptNote(round: nat, rc: int, e: Env)
      requires Valid() && round == rounds + 1 && rc == Rc(e.llm)
      modifies this, sessions
      ensures Valid() && Snapshot() == Step2Accept(old(Snapshot()), e)
    {
      if rc != 0 {
        RetryStep2SameRoundOrEscalate(round, Step2Rc(rc), e);
        return;
      }
      if round !in noteText {
        LoopOrEscalate(Step2, Step2Unreadable, Some(ReqGap), e);
        return;
      }
      if !e.headings {
        LoopOrEscalate(Step2, Step2MissingH2, Some(ReqGap), e);
        return;
      }
      if !e.indexed || round in notes {
        DoEscalate(None, e.stuck);
        return;
      }
      notes := notes + [round];
      Transition(Step3);
    }

    method S3Context(e: Env) returns (raised: bool)
      requires Valid() && step == Step3
      modifies this, sessions
      ensures Valid() && Ended(raised) == HandleStep3(old(Snapshot()), e)
    {
      raised := false;
      var round := rounds + 1;
      if notes == [] {
        LoopOrEscalate(Step2, Step3NoNote, Some(ReqGap), e);
        return;
      }
      if e.fault {
        return true;
      }
      PutPrompt([]);
      var attempt := GetAttempts(Step3, round);
      var rc := sessions.RunLlmSession(round, Build, e.llm, e.stuck);
      AcceptContext(round, attempt, rc, e);
    }

    method AcceptContext(round: nat, attempt: nat, rc: int, e: Env)
      requires Valid() && round == rounds + 1 && attempt == Tries(gates.retries, Step3, round) && rc == Rc(e.llm)
      modifies this, sessions
      ensures Valid() && Snapshot() == Step3Accept(old(Snapshot()), e)
    {
      if rc == 0 && e.contextWritten {
        Transition(Step4);
        return;
      }
      if attempt < 1 {
        SetAttempts(Step3, round, attempt + 1);
        return;
      }
      LoopOrEscalate(Step2, Step3FailedTwice(rc), Some(ReqGap), e);
    }

    method S4Develop(e: Env) returns (raised: bool)
      requires Valid() && step == Step4
      modifies this, sessions
      ensures Valid() && Ended(raised) == HandleStep4(old(Snapshot()), e)
    {
      var round := rounds + 1;
      sessions.DeleteRoleSession(round, Build, e.stuck);
      raised := Develop(round, e);
    }

    /** `_s4_develop` after the session of Step3 was closed. */
    method Develop(round: nat, e: Env) returns (raised: bool)
      requires Valid() && step == Step4 && round == rounds + 1
      modifies this, sessions
      ensures Valid() && Ended(raised) == Step4Body(old(Snapshot()), e)
    {
      raised := false;
      if notes == [] {
        LoopOrEscalate(Step2, Step4NoNote, Some(ReqGap), e);
        return;
      }
      if e.fault {
        return true;
      }
      DevelopOnce(round, e);
    }

    method DevelopOnce(round: nat, e: Env)
      requires Valid() && step == Step4 && round == rounds + 1
      modifies this, sessions
      ensures Valid()
      ensures var s := old(Snapshot());
              Snapshot() == Step4Accept(Opened(AddPrompt(s, HandlerFeedback(s)), Build, e.llm, e.stuck), e)
    {
      var rc := AskToDevelop(round, e);
      AcceptFindings(round, rc, e);
    }

    method AskToDevelop(round: nat, e: Env) returns (rc: int)
      requires Valid() && step == Step4 && round == rounds + 1
      modifies this, sessions
      ensures Valid() && rc == Rc(e.llm)
      ensures Snapshot() == Opened(AddPrompt(old(Snapshot()), HandlerFeedback(old(Snapshot()))), Build, e.llm, e.stuck)
    {
      var feedback := LoopFeedbackForRound(round, Step4);
      PutPrompt(feedback);
      rc := sessions.RunLlmSession(round, Build, e.llm, e.stuck);
    }

    method AcceptFindings(round: nat, rc: int, e: Env)
      requires Valid() && round == rounds + 1 && rc == Rc(e.llm)
      modifies this, sessions
      ensures Valid() && Snapshot() == Step4Accept(old(Snapshot()), e)
    {
      if rc != 0 {
        LoopOrEscalate(Step4, Step4Rc(rc), Some(ImplGap), e);
        return;
      }
      var found := e.findings;
      if found == Missing || found == Invalid {
        var repaired := RepairStep4FindingsArtifact(round, e);
        if repaired {
          found := Found;
        } else {
          LoopOrEscalate(Step4, FindingsReason(found), Some(ImplGap), e);
          return;
        }
      }
      if found == Misshapen {
        LoopOrEscalate(Step4, Step4ShapeMismatch, Some(ImplGap), e);
        return;
      }
      gates := gates.(findings := gates.findings + {round});
      Transition(Step5);
    }

    /** `_repair_step4_findings_artifact`: the open build session is asked to write the findings file only. */
    method RepairStep4FindingsArtifact(round: nat, e: Env) returns (repaired: bool)
      requires Valid() && round == rounds + 1
      modifies sessions
      ensures Valid() && repaired == (Rc(e.repair) == 0 && e.repaired)
      ensures Snapshot() == Opened(old(Snapshot()), Build, e.repair, e.stuck)
    {
      var rc := sessions.RunLlmSession(round, Build, e.repair, e.stuck);
      repaired := rc == 0 && e.repaired;
    }

    // ---- Step5 ----

    method S5Review(e: Env) returns (raised: bool)
      requires Valid() && step == Step5
      modifies this, sessions
      ensures Valid() && Ended(raised) == HandleStep5(old(Snapshot()), e)
    {
      var round := rounds + 1;
      sessions.DeleteRoleSession(round, Build, e.stuck);
      raised := ReviewCold(round, e);
    }

    method ReviewCold(round: nat, e: Env) returns (raised: bool)
      requires Valid() && step == Step5 && round == rounds + 1
      modifies this, sessions
      ensures Valid() && Ended(raised) == Step5Cold(old(Snapshot()), e)
    {
      raised := S5ReviewBody(round, e);
      sessions.DeleteRoleSession(round, Review, e.stuck);
    }

    method S5ReviewBody(round: nat, e: Env) returns (raised: bool)
      requires Valid() && step == Step5 && round == rounds + 1
      modifies this, sessions
      ensures Valid() && Ended(raised) == Step5Body(old(Snapshot()), e)
    {
      raised := false;
      if !e.ready {
        DoEscalate(Some(DesignHollow), e.stuck);
        return;
      }
      if notes == [] {
        LoopOrEscalate(Step2, Step5NoNote, Some(ReqGap), e);
        return;
      }
      if Latest(notes) != round {
        DoEscalate(None, e.stuck);
        return;
      }
      if !e.noteReadable || round !in noteText {
        LoopOrEscalate(Step2, Step5NoteUnreadable, Some(ReqGap), e);
        return;
      }
      var found := PreflightWorktrees(round, e);
      if found == Generated {
        DoEscalate(Some(ImplGap), e.stuck);
        return;
      }
      if found == Dirty {
        LoopOrEscalate(Step4, Step5Preflight, Some(ImplGap), e);
        return;
      }
      if e.fault {
        return true;
      }
      raised := ReviewOnce(round, e);
    }

    /** Generated files in the diff are handed to a build session of their own, then the check runs again. */
    method PreflightWorktrees(round: nat, e: Env) returns (found: Preflight)
      requires Valid() && round == rounds + 1
      modifies sessions
      ensures Valid() && (Snapshot(), found) == RunPreflight(old(Snapshot()), e)
    {
      found := e.preflight;
      if found == Generated {
        var rc := sessions.RunLlmSession(round, Build, e.cleanup, e.stuck);
        sessions.DeleteRoleSession(round, Build, e.stuck);
        if rc == 0 {
          found := e.preflightAgain;
        }
      }
    }

    method ReviewOnce(round: nat, e: Env) returns (raised: bool)
      requires Valid() && step == Step5 && round == rounds + 1
      modifies this, sessions
      ensures Valid() && Ended(raised) == RunReview(old(Snapshot()), e)
    {
      var rc := AskToReview(round, e);
      raised := JudgeOutput(round, rc, e);
    }

    method AskToReview(round: nat, e: Env) returns (rc: int)
      requires Valid() && step == Step5 && round == rounds + 1
      modifies this, sessions
      ensures Valid() && rc == Rc(e.llm)
      ensures Snapshot() == Opened(AddPrompt(old(Snapshot()), HandlerFeedback(old(Snapshot()))), Review, e.llm, e.stuck)
    {
      var feedback := LoopFeedbackForRound(round, Step5);
      PutPrompt(feedback);
      rc := sessions.RunLlmSession(round, Review, e.llm, e.stuck);
    }

    /** `_read_step5_review_outcome`: the review file first; if it does not parse, stdout, which then becomes the
        file. */
    method ReadStep5ReviewOutcome(round: nat, stdout: Output) returns (parsed: Checked<Outcome>)
      requires round == rounds + 1
      modifies this`artifacts
      ensures var (p, file) := ReadReview(ArtifactOf(old(Snapshot())), stdout);
              parsed == p && Snapshot() == WithArtifact(old(Snapshot()), file)
    {
      if round in artifacts {
        parsed := Parse(artifacts[round]);
        if !parsed.Bad? {
          assert artifacts == artifacts[round := artifacts[round]];
          return;
        }
      }
      assert round in artifacts ==> artifacts == artifacts[round := artifacts[round]];
      assert round !in artifacts ==> artifacts == artifacts - {round};
      parsed := Parse(stdout);
      if parsed.Good? {
        artifacts := artifacts[round := Payload(ToPayload(parsed.value))];
      }
    }

    /** What the agent leaves at the path of the review file. */
    method AgentWrites(round: nat, file: Option<Output>)
      requires round == rounds + 1
      modifies this`artifacts
      ensures Snapshot() == Written(old(Snapshot()), file)
    {
      if file.Some? {
        artifacts := artifacts[round := file.value];
      }
    }

    method JudgeOutput(round: nat, rc: int, e: Env) returns (raised: bool)
      requires Valid() && round == rounds + 1 && rc == Rc(e.llm)
      modifies this, sessions
      ensures Valid() && Ended(raised) == JudgeReview(old(Snapshot()), e)
    {
      raised := false;
      AgentWrites(round, e.artifact);
      var parsed := Bad;
      if rc == 0 {
        parsed := ReadStep5ReviewOutcome(round, e.stdout);
      } else {
        KeepArtifact();
      }
      match parsed {
        case Raise => raised := true;
        case Good(outcome) => AcceptOutcome(round, outcome, e);
        case Bad =>
          if !e.logged {
            DoEscalate(None, e.stuck);
          } else if rc == 0 {
            raised := RepairStep5ReviewArtifact(round, e);
          } else {
            LoopOrEscalate(Step5, Step5Unparseable, None, e);
          }
      }
    }

    lemma KeepArtifact()
      ensures WithArtifact(Snapshot(), ArtifactOf(Snapshot())) == Snapshot()
    {
      var n := rounds + 1;
      assert (if n in artifacts then artifacts[n := artifacts[n]] else artifacts - {n}) == artifacts;
    }

    method RepairStep5ReviewArtifact(round: nat, e: Env) returns (raised: bool)
      requires Valid() && round == rounds + 1 && Rc(e.llm) == 0
      modifies this, sessions
      ensures Valid() && Ended(raised) == RepairReview(old(Snapshot()), e)
    {
      var rc := sessions.RunLlmSession(round, Review, e.repair, e.stuck);
      raised := JudgeRepairOutput(round, rc, e);
    }

    method JudgeRepairOutput(round: nat, rc: int, e: Env) returns (raised: bool)
      requires Valid() && round == rounds + 1 && rc == Rc(e.repair)
      modifies this, sessions
      ensures Valid() && Ended(raised) == JudgeRepair(old(Snapshot()), e)
    {
      raised := false;
      AgentWrites(round, e.artifactAgain);
      if rc != 0 {
        LoopOrEscalate(Step5, Step5Unparseable, None, e);
        return;
      }
      var parsed := ReadStep5ReviewOutcome(round, e.stdoutAgain);
      match parsed {
        case Raise => raised := true;
        case Good(outcome) => AcceptOutcome(round, outcome, e);
        case Bad => LoopOrEscalate(Step5, Step5Unparseable, None, e);
      }
    }

    method AcceptOutcome(round: nat, outcome: Outcome, e: Env)
      requires Valid() && round == rounds + 1
      modifies this, sessions
      ensures Valid() && Snapshot() == AcceptReview(old(Snapshot()), outcome, e)
    {
      var body := if round in noteText then noteText[round] else "";
      var missing := PlanAudit.MissingIds(body, outcome.plan);
      if missing != {} {
        LoopOrEscalate(Step5, Step5MissingPlanIds(missing), None, e);
        return;
      }
      RecordOutcome(round, outcome, e);
    }

    method RecordOutcome(round: nat, outcome: Outcome, e: Env)
      requires Valid() && round == rounds + 1
      modifies this, sessions
      ensures Valid() && Snapshot() == Reviewed(old(Snapshot()), outcome, e)
    {
      reviews := reviews + [Recorded(round, outcome)];
      if !e.patched {
        DoEscalate(None, e.stuck);
        return;
      }
      PatchNote(round, outcome);
      Decide(outcome, e);
    }

    /** `_apply_step5_plan_verification`, and the score written to the row. */
    method PatchNote(round: nat, outcome: Outcome)
      modifies this`noteText, this`score, this`category
      ensures var text := if round in old(noteText) then old(noteText)[round] else "";
              noteText == old(noteText)[round := PlanAudit.Patch(text, PlanAudit.DoneIds(outcome.plan))]
      ensures score == Some(outcome.score) && category == outcome.category
    {
      var body := if round in noteText then noteText[round] else "";
      var patched := PlanAudit.ApplyPlanVerificationCheckboxes(body, outcome.plan);
      noteText := noteText[round := patched];
      score := Some(outcome.score);
      category := outcome.category;
    }

    /** A score at the threshold without a category completes the work; a gap burns the round. */
    method Decide(outcome: Outcome, e: Env)
      requires Valid()
      modifies this, sessions
      ensures Valid() && Snapshot() == Decided(old(Snapshot()), outcome, e)
    {
      var threshold := ResolveRubricThreshold();
      if outcome.score >= threshold && outcome.category == None {
        step := Completed;
        firstPass := Some(rounds == 0);
        return;
      }
      if outcome.category == Some(ReqGap) || outcome.category == Some(ImplGap) {
        LoopOrEscalate(Step2, Scored(outcome.score), outcome.category, e);
      } else {
        DoEscalate(Some(DesignHollow), e.stuck);
      }
    }

    method ResolveRubricThreshold() returns (n: int)
      ensures n == Threshold(Snapshot())
    {
      var override := gates.threshold;
      if override.Some? && 1 <= override.value && override.value <= 100 {
        return override.value;
      }
      if cfg.docThreshold.Some? && 1 <= cfg.docThreshold.value && cfg.docThreshold.value <= 100 {
        return cfg.docThreshold.value;
      }
      n := cfg.defaultThreshold;
    }

    // ---- the driver ----

    method TickOnce(e: Env) returns (raised: bool)
      requires Valid()
      modifies this, sessions
      ensures Valid() && Ended(raised) == Handle(old(Snapshot()), e)
    {
      raised := false;
      match step {
        case Init => raised := S0Init(e);
        case Step1 => raised := S1Validate(e);
        case Step2 => raised := S2Iteration(e);
        case Step3 => raised := S3Context(e);
        case Step4 => raised := S4Develop(e);
        case Step5 => raised := S5Review(e);
        case Completed =>
        case Escalated =>
        case Cancelled =>
      }
    }

    /** `tick` called by hand. */
    method ManualTickOnce(e: Env) returns (raised: bool)
      requires Valid()
      modifies this, sessions
      ensures Valid() && raised == Handle(old(Snapshot()), e).Raised?
      ensures Snapshot() == DoManualTick(old(Snapshot()), e)
      ensures old(Sound()) ==> Sound()
    {
      KeepsSound(Snapshot(), ManualTick(e));
      raised := TickOnce(e);
      if raised {
        cutShort := cutShort + {rounds + 1};
      }
    }

    /** `run_to_completion`: it leaves the loop at a terminal step, whatever the outside world does; the breaker behind
        the loop is never reached. `ticks` counts the handlers that ran. */
    method RunToCompletion(envs: seq<Env>) returns (ghost ticks: nat)
      requires Sound() && |envs| == MAX_TICKS
      modifies this, sessions
      ensures Sound() && Terminal(step)
      ensures Snapshot() == Drive(old(Snapshot()), envs)
      ensures ticks <= if old(Terminal(step)) then 1 else Measure(old(Snapshot()))
    {
      ticks := 0;
      MeasureBound(Snapshot());
      assert envs[0..] == envs;
      for i := 0 to MAX_TICKS
        invariant Sound() && ticks == i
        invariant i > 0 ==> !Terminal(step)
        invariant i > 0 || Snapshot() == old(Snapshot())
        invariant i + Measure(Snapshot()) <= Measure(old(Snapshot()))
        invariant Drive(Snapshot(), envs[i..]) == Drive(old(Snapshot()), envs)
      {
        ghost var before := Snapshot();
        DriveStep(before, envs, i);
        DriverTickOnce(envs[i]);
        ticks := i + 1;
        if Terminal(step) {
          return;
        }
      }
      MeasureBound(Snapshot());
      assert false;
    }

    /** One turn of the driver loop; an exception that leaves the handler escalates the work. */
    method DriverTickOnce(e: Env)
      requires Valid()
      modifies this, sessions
      ensures Valid() && Snapshot() == DriverTick(old(Snapshot()), e)
      ensures old(Sound()) ==> Sound()
    {
      KeepsSound(Snapshot(), Tick(e));
      var raised := TickOnce(e);
      if raised {
        DoEscalate(None, e.stuck);
      }
    }

    // ---- human actions ----

    method Cancel(ghost stuck: set<Session>) returns (accepted: bool)
      requires Valid()
      modifies this, sessions
      ensures Valid() && accepted == DoCancel(old(Snapshot()), stuck).Accepted?
      ensures Snapshot() == Answer(old(Snapshot()), DoCancel(old(Snapshot()), stuck))
      ensures old(Sound()) ==> Sound()
    {
      KeepsSound(Snapshot(), Action.Cancel(stuck));
      if step == Completed || step == Escalated || step == Cancelled {
        return false;
      }
      gates := gates.(cancelledFrom := Some(step));
      step := Cancelled;
      sessions.DeleteAllSessions(stuck);
      accepted := true;
    }

    /** `cancel` while the driver waits for an agent: the driver task is stopped there and its `finally` runs; the rest
        of the handler does not. */
    method CancelWhileWaiting(e: Env) returns (accepted: bool)
      requires Valid()
      modifies this, sessions
      ensures Valid() && accepted == DoCancelDuring(old(Snapshot()), e).Accepted?
      ensures Snapshot() == Answer(old(Snapshot()), DoCancelDuring(old(Snapshot()), e))
      ensures old(Sound()) ==> Sound()
    {
      CancelDuringSound(Snapshot(), e);
      if step == Completed || step == Escalated || step == Cancelled {
        return false;
      }
      ghost var before := Snapshot();
      StopDriver(e);
      assert DoCancelDuring(before, e) == DoCancel(Snapshot(), e.stuck);
      accepted := Cancel(e.stuck);
    }

    method StopDriver(e: Env)
      requires Valid() && !Terminal(step)
      modifies this, sessions
      ensures Valid() && Snapshot() == Stopped(old(Snapshot()), e) && step == old(step)
    {
      var round := rounds + 1;
      match step {
        case Step2 =>
          StopPlanning(round, e);
        case Step3 =>
          if notes != [] && !e.fault {
            PutPrompt([]);
            var rc := sessions.RunLlmSession(round, Build, e.llm, e.stuck);
          }
        case Step4 =>
          sessions.DeleteRoleSession(round, Build, e.stuck);
          if notes != [] && !e.fault {
            var rc := AskToDevelop(round, e);
          }
        case Step5 =>
          StopReview(round, e);
        case Init =>
        case Step1 =>
      }
    }

    method StopPlanning(round: nat, e: Env)
      requires Valid() && step == Step2 && round == rounds + 1
      modifies this, sessions
      ensures Valid() && Snapshot() == Stopped(old(Snapshot()), e) && step == Step2
    {
      PlanUntilStopped(round, e);
      sessions.DeleteRoleSession(round, Plan, e.stuck);
    }

    method StopReview(round: nat, e: Env)
      requires Valid() && step == Step5 && round == rounds + 1
      modifies this, sessions
      ensures Valid() && Snapshot() == Stopped(old(Snapshot()), e) && step == Step5
    {
      sessions.DeleteRoleSession(round, Build, e.stuck);
      StopColdReview(round, e);
    }

    method StopColdReview(round: nat, e: Env)
      requires Valid() && step == Step5 && round == rounds + 1
      modifies this, sessions
      ensures Valid() && Snapshot() == StoppedReview(old(Snapshot()), e) && step == Step5
    {
      ReviewUntilStopped(round, e);
      CloseStoppedReview(round, e.stuck);
    }

    method CloseStoppedReview(round: nat, ghost stuck: set<Session>)
      requires Valid() && round == rounds + 1
      modifies sessions, this`cutOff
      ensures Valid() && step == old(step)
      ensures Snapshot() == CutOff(old(Snapshot())).(pool := CloseRole(old(sessions.pool), Session(round, Review), stuck))
    {
      sessions.DeleteRoleSession(round, Review, stuck);
      cutOff := cutOff + {round};
    }

    method PlanUntilStopped(round: nat, e: Env)
      requires Valid() && step == Step2 && round == rounds + 1
      modifies this, sessions
      ensures Valid() && Snapshot() == Waiting(old(Snapshot()), e) && step == Step2
    {
      if !e.ready {
        return;
      }
      if e.fault {
        noteText := noteText[round := e.header];
        return;
      }
      var rc := AskToPlan(round, e);
    }

    method ReviewUntilStopped(round: nat, e: Env)
      requires Valid() && step == Step5 && round == rounds + 1
      modifies this, sessions
      ensures Valid() && Snapshot() == WaitingForReview(old(Snapshot()), e) && step == Step5 && rounds == old(rounds)
    {
      if !e.ready || notes == [] || Latest(notes) != round || !e.noteReadable || round !in noteText {
        return;
      }
      var found := PreflightWorktrees(round, e);
      if found != Clean || e.fault {
        return;
      }
      var rc := AskToReview(round, e);
      AgentWrites(round, e.artifact);
    }

    method RerunCancelled() returns (accepted: bool)
      requires Valid()
      modifies this
      ensures Valid() && accepted == DoRerun(old(Snapshot())).Accepted?
      ensures Snapshot() == Answer(old(Snapshot()), DoRerun(old(Snapshot())))
      ensures old(Sound()) ==> Sound()
    {
      KeepsSound(Snapshot(), Rerun);
      if step != Cancelled {
        return false;
      }
      var back := Init;
      if gates.cancelledFrom.Some? {
        back := gates.cancelledFrom.value;
      }
      if Terminal(back) {
        return false;
      }
      gates := gates.(cancelledFrom := None);
      step := back;
      accepted := true;
    }

    method ContinueAfterEscalation(additional: int, threshold: Option<int>) returns (accepted: bool)
      requires Valid()
      modifies this
      ensures Valid() && accepted == DoContinue(old(Snapshot()), additional, threshold).Accepted?
      ensures Snapshot() == Answer(old(Snapshot()), DoContinue(old(Snapshot()), additional, threshold))
      ensures old(Sound()) ==> Sound()
    {
      KeepsSound(Snapshot(), Continue(additional, threshold));
      accepted := CanContinue(additional, threshold);
      if accepted {
        var resume := gates.roundsResume.value;
        var completed := Max(resume.completed, rounds);
        GoOn(resume, completed, completed + additional, threshold);
      }
    }

    method CanContinue(additional: int, threshold: Option<int>) returns (ok: bool)
      ensures ok == DoContinue(Snapshot(), additional, threshold).Accepted?
    {
      if additional < 1 || (threshold.Some? && (threshold.value < 1 || threshold.value > 100)) {
        return false;
      }
      if step != Escalated || gates.roundsResume.None? {
        return false;
      }
      var resume := gates.roundsResume.value;
      if Terminal(resume.backTo) {
        return false;
      }
      ok := Max(resume.completed, rounds) + additional <= HARD_MAX_ROUNDS;
    }

    method GoOn(resume: RoundsResume, completed: nat, maxRounds: int, threshold: Option<int>)
      modifies this
      ensures
        var told := AppendFeedback(old(Snapshot()), Feedback(completed + 1, resume.backTo, resume.reason, resume.category));
        Snapshot() == told.(
          rounds := completed, step := resume.backTo, category := resume.category,
          gates := told.gates.(
            maxRounds := Some(maxRounds),
            threshold := if threshold.Some? then threshold else old(gates).threshold,
            roundsResume := None))
    {
      AppendLoopFeedback(completed + 1, resume.backTo, resume.reason, resume.category);
      SetBudget(maxRounds, threshold);
      rounds := completed;
      step := resume.backTo;
      category := resume.category;
    }

    method SetBudget(maxRounds: int, threshold: Option<int>)
      modifies this`gates
      ensures gates == old(gates).(
                maxRounds := Some(maxRounds),
                threshold := if threshold.Some? then threshold else old(gates).threshold,
                roundsResume := None)
    {
      gates := gates.(maxRounds := Some(maxRounds));
      if threshold.Some? {
        gates := gates.(threshold := threshold);
      }
      gates := gates.(roundsResume := None);
    }

    method ResumeStepAfterEscalation() returns (accepted: bool)
      requires Valid()
      modifies this
      ensures Valid() && accepted == DoResumeStep(old(Snapshot())).Accepted?
      ensures Snapshot() == Answer(old(Snapshot()), DoResumeStep(old(Snapshot())))
      ensures old(Sound()) ==> Sound()
    {
      KeepsSound(Snapshot(), ResumeStep);
      if step != Escalated || gates.stepResume.None? {
        return false;
      }
      var resume := gates.stepResume.value;
      if Terminal(resume.backTo) {
        return false;
      }
      ReenterStep(resume);
      accepted := true;
    }

    method ReenterStep(resume: StepResume)
      modifies this
      ensures
        var entry := Feedback(resume.round, resume.backTo, ManualResume(resume.reason), resume.category);
        var told := AppendFeedback(old(Snapshot()), entry);
        Snapshot() == told.(step := resume.backTo, category := resume.category, gates := told.gates.(stepResume := None))
    {
      AppendLoopFeedback(resume.round, resume.backTo, ManualResume(resume.reason), resume.category);
      gates := gates.(stepResume := None);
      step := resume.backTo;
      category := resume.category;
    }
  }
}
