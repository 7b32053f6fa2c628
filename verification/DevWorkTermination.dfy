/** Every run of the DevWork driver ends, well below its circuit breaker. */
module DevWorkTermination {
  import opened Options
  import opened Reviewer
  import opened Sessions
  import opened DevWorkSpec
  import opened DevWorkInvariant
  import opened DevWorkProgress

  /** Retries of `step` still unused in the round. */
  function Unused(retries: map<RetryKey, nat>, step: Step, round: nat): nat {
    if Tries(retries, step, round) < 1 then 1 else 0
  }

  /** Ticks the round may still take, from `step` on. */
  function Weight(step: Step, retries: map<RetryKey, nat>, round: nat): nat {
    var w5 := 1 + Unused(retries, Step5, round) + 2 * Unused(retries, Step4, round);
    var w3 := 2 + Unused(retries, Step3, round) + w5;
    var w2 := 1 + Unused(retries, Step2, round) + w3;
    match step
    case Init => 2 + w2
    case Step1 => 1 + w2
    case Step2 => w2
    case Step3 => w3
    case Step4 => 1 + w5
    case Step5 => w5
    case _ => 0
  }

  /** Ticks left to the whole work: what the round may take, and nine for every round after it. */
  function Measure(s: State): int
    requires ValidConfig(s.cfg)
  {
    if Terminal(s.step) then 0 else 9 * (Cap(s) - 1 - s.rounds) + Weight(s.step, s.gates.retries, Round(s))
  }

  /** The tick that led from `s` to `t` sent the work back: to a new round, or to Step4 or Step5 again. */
  predicate SendsBack(s: State, t: State) {
    && !Terminal(t.step)
    && (t.rounds > s.rounds || (t.step.Step4? && (s.step.Step4? || s.step.Step5?)) || (t.step.Step5? && s.step.Step5?))
  }

  /** One reason was recorded, last in the list, for the step and the round that run next. */
  ghost predicate ToldLast(s: State, t: State) {
    && t.gates.feedback != []
    && var last := t.gates.feedback[|t.gates.feedback| - 1];
    && last.round == Round(t) && last.backTo == t.step && (t.step.Step2? || t.step.Step4? || t.step.Step5?)
    && Tells(s, t, last)
  }

  /** What one tick may do to a work in progress. */
  ghost predicate Drops(s: State, t: State)
    requires ValidConfig(s.cfg) && s.rounds < Cap(s)
  {
    && t.cfg == s.cfg && t.gates.maxRounds == s.gates.maxRounds
    && 0 <= Measure(t) < Measure(s)
    && s.rounds <= t.rounds <= s.rounds + 1
    && (t.rounds > s.rounds ==> t.gates.retries == s.gates.retries)
    && (SendsBack(s, t) ==> ToldLast(s, t))
    && s.reviews <= t.reviews && |t.reviews| <= |s.reviews| + 1
  }

  /** The reason told is the last one on record. */
  lemma TellsLast(s: State, t: State, entry: Feedback)
    requires Tells(s, t, entry) && entry.round == Round(t) && entry.backTo == t.step
    requires t.step.Step2? || t.step.Step4? || t.step.Step5?
    ensures ToldLast(s, t)
  {
  }

  lemma StopDrops(s: State, t: State)
    requires ValidConfig(s.cfg) && s.rounds < Cap(s) && !Terminal(s.step) && Terminal(t.step)
    requires t.cfg == s.cfg && t.gates.maxRounds == s.gates.maxRounds && s.rounds <= t.rounds <= s.rounds + 1
    requires t.rounds > s.rounds ==> t.gates.retries == s.gates.retries
    requires s.reviews <= t.reviews && |t.reviews| <= |s.reviews| + 1
    ensures Drops(s, t)
  {
  }

  lemma LostDrops(s: State, t: State, budget: int, reason: Reason, category: Option<Category>)
    requires ValidConfig(s.cfg) && s.rounds < Cap(s) && !Terminal(s.step) && IsBudget(s, budget)
    requires LosesRound(s, t, budget, reason, category) && t.cfg == s.cfg && t.gates.maxRounds == s.gates.maxRounds
    requires s.reviews <= t.reviews && |t.reviews| <= |s.reviews| + 1
    ensures Drops(s, t)
  {
    if s.rounds + 1 < budget {
      TellsLast(s, t, Feedback(s.rounds + 2, Step2, reason, category));
    } else {
      StopDrops(s, t);
    }
  }

  /** A retry that is spent takes one off the weight of its step and of those before it. */
  lemma SpendingCounts(s: State, t: State, step: Step)
    requires Spends(s, t, step) && !Spent(s, step)
    ensures Unused(t.gates.retries, step, Round(s)) == 0 && Unused(s.gates.retries, step, Round(s)) == 1
    ensures forall other :: other != step ==> Unused(t.gates.retries, other, Round(s)) == Unused(s.gates.retries, other, Round(s))
  {
  }

  /** The steps that a tick of `step` may send back to in the same round. */
  predicate MayRepeat(step: Step, again: Step) {
    match again
    case Step2 => step.Step2?
    case Step3 => step.Step3?
    case Step4 => step.Step4? || step.Step5?
    case Step5 => step.Step5?
    case _ => false
  }

  lemma RetryDrops(s: State, t: State, step: Step)
    requires ValidConfig(s.cfg) && s.rounds < Cap(s) && MayRepeat(s.step, step) && !Spent(s, step)
    requires t.step == step && t.rounds == s.rounds && Spends(s, t, step)
    requires t.cfg == s.cfg && t.gates.maxRounds == s.gates.maxRounds && t.reviews == s.reviews
    requires step.Step4? || step.Step5? ==> ToldLast(s, t)
    ensures Drops(s, t)
  {
    SpendingCounts(s, t, step);
    assert Weight(t.step, t.gates.retries, Round(s)) < Weight(s.step, s.gates.retries, Round(s));
  }

  lemma AgainDrops(s: State, e: Env, t: State, budget: int, step: Step, reason: Reason, category: Option<Category>)
    requires ValidConfig(s.cfg) && s.rounds < Cap(s) && IsBudget(s, budget) && MayRepeat(s.step, step)
    requires Repeats(s, e, t, budget, step, reason, category)
    requires t.cfg == s.cfg && t.gates.maxRounds == s.gates.maxRounds && t.reviews == s.reviews
    ensures Drops(s, t)
  {
    if Terminal(t.step) {
      StopDrops(s, t);
    } else if Spent(s, step) {
      LostDrops(s, t, budget, reason, category);
    } else {
      if step.Step4? || step.Step5? {
        TellsLast(s, t, Feedback(s.rounds + 1, step, reason, category));
      }
      RetryDrops(s, t, step);
    }
  }

  /** The steps in their order. */
  predicate Leads(step: Step, to: Step) {
    match step
    case Init => to.Step1?
    case Step1 => to.Step2?
    case Step2 => to.Step3?
    case Step3 => to.Step4?
    case Step4 => to.Step5?
    case _ => false
  }

  lemma ForwardDrops(s: State, t: State, to: Step)
    requires ValidConfig(s.cfg) && s.rounds < Cap(s) && Stands(t, to, s.rounds, s.category) && Quiet(s, t)
    requires Leads(s.step, to)
    requires t.cfg == s.cfg && t.gates.maxRounds == s.gates.maxRounds && t.reviews == s.reviews
    ensures Drops(s, t)
  {
    assert Weight(to, s.gates.retries, Round(s)) < Weight(s.step, s.gates.retries, Round(s));
    assert !SendsBack(s, t);
  }

  lemma JudgedDrops(s: State, e: Env, t: State, budget: int, bar: int, o: Outcome)
    requires ValidConfig(s.cfg) && s.rounds < Cap(s) && !Terminal(s.step) && IsBudget(s, budget)
    requires Judges(s, e, t, budget, bar, o) && t.cfg == s.cfg && t.gates.maxRounds == s.gates.maxRounds
    requires t.reviews == s.reviews + [Recorded(s.rounds + 1, o)]
    ensures Drops(s, t)
  {
    if Terminal(t.step) {
      StopDrops(s, t);
    } else {
      LostDrops(s, t, budget, Scored(o.score), o.category);
    }
  }

  /** What a tick may come to, step by step. */
  lemma FatesAre(s: State, e: Env)
    requires !Terminal(s.step)
    ensures FateOf(s, e).Again? ==> MayRepeat(s.step, FateOf(s, e).step)
    ensures FateOf(s, e).Forward? ==> Leads(s.step, FateOf(s, e).to)
  {
  }

  lemma FateDrops(s: State, e: Env, t: State, budget: int, bar: int)
    requires ValidConfig(s.cfg) && s.rounds < Cap(s) && !Terminal(s.step) && IsBudget(s, budget)
    requires Follows(s, e, t, budget, bar)
    ensures Drops(s, t)
  {
    FatesAre(s, e);
    match FateOf(s, e)
    case Forward(to) => ForwardDrops(s, t, to);
    case Again(step, reason, category) => AgainDrops(s, e, t, budget, step, reason, category);
    case RoundLost(reason, category) => LostDrops(s, t, budget, reason, category);
    case Stuck(category) => StopDrops(s, t);
    case Judged(o) => JudgedDrops(s, e, t, budget, bar, o);
  }

  /** Each tick of a work in progress lowers the measure, whatever the agent, the files and the sessions do. */
  lemma TickDrops(s: State, e: Env)
    requires Inv(s) && !Terminal(s.step)
    ensures s.rounds < Cap(s) && Drops(s, DriverTick(s, e))
  {
    LimitsAreThese(s, MaxRounds(s));
    LimitsAreThese(s, Threshold(s));
    TickFollows(s, e, MaxRounds(s), Threshold(s));
    FateDrops(s, e, DriverTick(s, e), MaxRounds(s), Threshold(s));
  }

  /** A new work may take two ticks and nine for every round; so may a work that is resumed or continued. */
  lemma MeasureBound(s: State)
    requires Inv(s)
    ensures 0 <= Measure(s) <= 2 + 9 * Cap(s) <= 452 < MAX_TICKS
    ensures Measure(s) == 0 <==> Terminal(s.step)
  {
  }

  /** `run_to_completion` over the given outside world, one entry a tick; it stops at a terminal step. */
  function Drive(s: State, envs: seq<Env>): State
    decreases |envs|
  {
    if envs == [] || Terminal(s.step) then s else Drive(DriverTick(s, envs[0]), envs[1..])
  }

  lemma TickStep(s: State, e: Env)
    requires Inv(s) && !Terminal(s.step)
    ensures Inv(DriverTick(s, e)) && Measure(DriverTick(s, e)) < Measure(s)
  {
    TickDrops(s, e);
    DriverTickKeeps(s, e);
  }

  /** From every state any run of ticks and human actions can reach, the driver comes to a terminal step within
      the measure of that state, hence within `2 + 9 * max(1, max_rounds)` ticks and before the 600 of the breaker. */
  lemma {:induction false} DriverEnds(s: State, envs: seq<Env>)
    requires Inv(s) && Measure(s) <= |envs|
    ensures Terminal(Drive(s, envs).step) && Inv(Drive(s, envs))
    decreases |envs|
  {
    MeasureBound(s);
    if !Terminal(s.step) {
      TickStep(s, envs[0]);
      DriverEnds(DriverTick(s, envs[0]), envs[1..]);
    }
  }
}
