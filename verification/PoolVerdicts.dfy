/** What becomes of the items that the health job has locked: one check and one verdict each. */
module PoolVerdicts {
  import opened PoolItems
  import opened PoolMachine
  import opened PoolInvariant
  import opened PoolPreservation

  /** The item at position `k` of the batch is this one. */
  predicate InBatch(s: State, k: nat, x: Item) {
    s.health.Working? && k < |s.health.locked| && s.health.locked[k] == x
  }

  /** The step starts the check of the item at `k`. */
  predicate Starts(s: State, step: Step, k: nat) {
    step == Health(Begin) && s.health.Working? && |s.health.beganAt| == k
  }

  /** The step acts on the answer for the item at `k`. */
  predicate Settles(s: State, step: Step, k: nat) {
    step.Health? && step.health.Judge? && s.health.Working? && s.health.judged == k
  }

  function One(there: bool): nat {
    if there then 1 else 0
  }

  function ChecksStarted(c: Config, s: State, steps: seq<Step>, k: nat): nat
    requires Runs(c, s, steps)
    decreases |steps|
  {
    if steps == [] then 0
    else One(Starts(s, steps[0], k)) + ChecksStarted(c, Apply(c, s, steps[0]), steps[1..], k)
  }

  function VerdictsGiven(c: Config, s: State, steps: seq<Step>, k: nat): nat
    requires Runs(c, s, steps)
    decreases |steps|
  {
    if steps == [] then 0
    else One(Settles(s, steps[0], k)) + VerdictsGiven(c, Apply(c, s, steps[0]), steps[1..], k)
  }

  predicate Begun(s: State, k: nat) {
    s.health.Working? && k < |s.health.beganAt|
  }

  predicate Judged(s: State, k: nat) {
    s.health.Working? && k < s.health.judged
  }

  /** A step that ends the batch. */
  predicate EndsBatch(step: Step) {
    step == Health(ReleaseBatch) || step == Health(StartFails)
  }

  ghost predicate BatchGoesOn(steps: seq<Step>) {
    forall step | step in steps :: !EndsBatch(step)
  }

  lemma HealthBatch(c: Config, s: State, step: HealthStep, k: nat, x: Item)
    requires Inv(c, s) && HealthEnabled(c, s, step) && InBatch(s, k, x) && !EndsBatch(Health(step))
    ensures var t := ApplyHealth(c, s, step);
            && InBatch(t, k, x)
            && One(Begun(t, k)) == One(Begun(s, k)) + One(Starts(s, Health(step), k))
            && One(Judged(t, k)) == One(Judged(s, k)) + One(Settles(s, Health(step), k))
  {
    assert Holds(JobPart, c, s);
    match step
    case Judge(verdict) => JudgeBatch(c, s, verdict);
    case Probe =>
    case Decide =>
    case Begin =>
    case _ =>
  }

  lemma JudgeBatch(c: Config, s: State, verdict: Verdict)
    requires HealthEnabled(c, s, Judge(verdict))
    ensures ApplyJudge(c, s, verdict).health == s.health.(judged := s.health.judged + 1)
  {
  }

  /** Nothing but the two steps that end a batch takes an item out of it, and each step counts for it. */
  lemma BatchStep(c: Config, s: State, step: Step, k: nat, x: Item)
    requires Inv(c, s) && Enabled(c, s, step) && InBatch(s, k, x) && !EndsBatch(step)
    ensures var t := Apply(c, s, step);
            && InBatch(t, k, x)
            && One(Begun(t, k)) == One(Begun(s, k)) + One(Starts(s, step, k))
            && One(Judged(t, k)) == One(Judged(s, k)) + One(Settles(s, step, k))
  {
    match step
    case Get(_) =>
    case Keeper(_) =>
    case Health(h) => HealthBatch(c, s, h, k, x);
    case Caller(_) =>
  }

  lemma {:induction false} BatchRun(c: Config, s: State, steps: seq<Step>, k: nat, x: Item)
    requires Inv(c, s) && Runs(c, s, steps) && BatchGoesOn(steps) && InBatch(s, k, x)
    ensures var e := Exec(c, s, steps);
            && InBatch(e, k, x)
            && One(Begun(e, k)) == One(Begun(s, k)) + ChecksStarted(c, s, steps, k)
            && One(Judged(e, k)) == One(Judged(s, k)) + VerdictsGiven(c, s, steps, k)
    decreases |steps|
  {
    if steps != [] {
      BatchStep(c, s, steps[0], k, x);
      StepKeeps(c, s, steps[0]);
      assert forall step | step in steps[1..] :: step in steps;
      BatchRun(c, Apply(c, s, steps[0]), steps[1..], k, x);
    }
  }

  /** Follow an item from when the health job has locked it, its check not started yet, to the step with
      which it leaves the batch, with anything going on besides. Either the batch is released, and the item
      has had exactly one check and one verdict; or starting a check has failed, and no item of the batch
      has had a verdict. */
  lemma {:induction false} OneCheckOneVerdict(c: Config, s: State, steps: seq<Step>, last: Step, k: nat, x: Item)
    requires Reachable(c, s) && InBatch(s, k, x) && !Begun(s, k)
    requires Runs(c, s, steps) && BatchGoesOn(steps)
    requires Enabled(c, Exec(c, s, steps), last) && !InBatch(Apply(c, Exec(c, s, steps), last), k, x)
    ensures && EndsBatch(last)
            && (last == Health(ReleaseBatch) ==>
                  ChecksStarted(c, s, steps, k) == 1 && VerdictsGiven(c, s, steps, k) == 1)
            && (last == Health(StartFails) ==>
                  ChecksStarted(c, s, steps, k) <= 1 && VerdictsGiven(c, s, steps, k) == 0)
  {
    var e := Exec(c, s, steps);
    ReachableInv(c, s);
    RunKeeps(c, s, steps);
    assert Holds(CheckPart, c, s) && Holds(CheckPart, c, e);
    BatchRun(c, s, steps, k, x);
    if !EndsBatch(last) {
      BatchStep(c, e, last, k, x);
    }
  }
}
