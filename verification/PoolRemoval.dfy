/** When an unhealthy verdict finds its item to erase. */
module PoolRemoval {
  import opened PoolItems
  import opened PoolMachine
  import opened PoolInvariant
  import opened PoolMembership
  import opened PoolPreservationHealth
  import opened PoolPreservation
  import opened PoolSafety

  /** A trim does not remove what the health job holds: the job's reference is seen in the count. */
  lemma HeldIsNotTrimmed(c: Config, s: State, step: Step, r: Resource)
    requires Inv(c, s) && Enabled(c, s, step) && r in HealthRefs(s.health)
    ensures !Trims(s, step, r)
  {
    if Trims(s, step, r) {
      HeldIsUsed(c, s, s.mutex.at);
      assert false;
    }
  }

  /** Somebody else's call that takes the resource out of the pool. */
  predicate CallerRemoves(step: Step, r: Resource) {
    step == Caller(ClearPool) || step == Caller(Erase(r))
  }

  ghost predicate NobodyRemoves(steps: seq<Step>, r: Resource) {
    forall step | step in steps :: !CallerRemoves(step, r)
  }

  /** While the job holds a resource, only such a call and a bad verdict on it take it out, and nothing
      brings it back. */
  lemma HeldStep(c: Config, s: State, step: Step, r: Resource)
    requires Inv(c, s) && Enabled(c, s, step) && r in HealthRefs(s.health)
    ensures Pooled(Apply(c, s, step), r) <==> Pooled(s, r) && !CallerRemoves(step, r) && !Erases(s, step, r)
  {
    HealthRefsKnown(c, s, r);
    PublishedIsNotAdded(c, s, step, r);
    HeldIsNotTrimmed(c, s, step, r);
    PooledStep(c, s, step, r);
  }

  /** A bad verdict on the resource is acted on in the run. */
  predicate ErasedIn(c: Config, s: State, steps: seq<Step>, r: Resource)
    requires Runs(c, s, steps)
    decreases |steps|
  {
    steps != [] && (Erases(s, steps[0], r) || ErasedIn(c, Apply(c, s, steps[0]), steps[1..], r))
  }

  lemma {:induction false} FirstOrLater(steps: seq<Step>, r: Resource)
    requires steps != []
    ensures NobodyRemoves(steps, r) <==> !CallerRemoves(steps[0], r) && NobodyRemoves(steps[1..], r)
  {
    assert steps == [steps[0]] + steps[1..];
  }

  /** Over any run that keeps the job's reference, a resource is pooled at the end exactly when it was
      at the start, the pool was not cleared and the resource was not erased, by anyone. */
  lemma {:induction false} PooledAfter(c: Config, s: State, steps: seq<Step>, r: Resource)
    requires Inv(c, s) && Runs(c, s, steps) && HeldThroughout(c, s, steps, r)
    ensures Pooled(Exec(c, s, steps), r) <==> Pooled(s, r) && NobodyRemoves(steps, r) && !ErasedIn(c, s, steps, r)
    decreases |steps|
  {
    if steps != [] {
      var t := Apply(c, s, steps[0]);
      HeldStep(c, s, steps[0], r);
      StepKeeps(c, s, steps[0]);
      PooledAfter(c, t, steps[1..], r);
      FirstOrLater(steps, r);
    }
  }

  // ---- one verdict for each item of a batch ----

  ghost predicate AwaitsVerdict(s: State, r: Resource) {
    exists x :: x in Pending(s.mutex, s.health) && x.resource == r
  }

  /** While the job works on, nothing becomes pending. */
  lemma PendingShrinks(c: Config, s: State, step: Step)
    requires Inv(c, s) && Enabled(c, s, step) && s.health.Working? && Apply(c, s, step).health.Working?
    ensures var t := Apply(c, s, step); forall x | x in Pending(t.mutex, t.health) :: x in Pending(s.mutex, s.health)
  {
    var t := Apply(c, s, step);
    StepKeeps(c, s, step);
    assert !s.mutex.Snapshotting? && !t.mutex.Snapshotting? by { assert Holds(JobPart, c, s) && Holds(JobPart, c, t); }
    if step.Health? {
      HealthPendingShrinks(c, s, step.health);
    } else {
      HealthIsUntouched(c, s, step);
    }
  }

  lemma HealthIsUntouched(c: Config, s: State, step: Step)
    requires Enabled(c, s, step) && !step.Health?
    ensures Apply(c, s, step).health == s.health
  {
  }

  lemma HealthPendingShrinks(c: Config, s: State, step: HealthStep)
    requires Inv(c, s) && HealthEnabled(c, s, step) && s.health.Working? && ApplyHealth(c, s, step).health.Working?
    requires !s.mutex.Snapshotting? && !ApplyHealth(c, s, step).mutex.Snapshotting?
    ensures var t := ApplyHealth(c, s, step);
            forall x | x in Pending(t.mutex, t.health) :: x in Pending(s.mutex, s.health)
  {
    match step
    case Probe => ProbePending(c, s);
    case Decide => DecidePending(c, s);
    case Judge(verdict) => JudgeLeaves(c, s, verdict);
    case ReleaseBatch =>
    case _ =>
  }

  /** An item whose verdict was acted on awaits no other. */
  lemma ErasedIsDone(c: Config, s: State, step: Step, r: Resource)
    requires Inv(c, s) && Enabled(c, s, step) && Erases(s, step, r)
    ensures !AwaitsVerdict(Apply(c, s, step), r)
  {
    JudgeLeaves(c, s, Unhealthy);
  }

  lemma {:induction false} HeldMeansWorking(c: Config, s: State, steps: seq<Step>, r: Resource)
    requires Runs(c, s, steps) && HeldThroughout(c, s, steps, r)
    ensures s.health.Working? && (steps != [] ==> Apply(c, s, steps[0]).health.Working?)
  {
  }

  lemma {:induction false} DoneStaysDone(c: Config, s: State, steps: seq<Step>, r: Resource)
    requires Inv(c, s) && Runs(c, s, steps) && HeldThroughout(c, s, steps, r) && !AwaitsVerdict(s, r)
    ensures !AwaitsVerdict(Exec(c, s, steps), r)
    decreases |steps|
  {
    if steps != [] {
      HeldMeansWorking(c, s, steps, r);
      PendingShrinks(c, s, steps[0]);
      StepKeeps(c, s, steps[0]);
      DoneStaysDone(c, Apply(c, s, steps[0]), steps[1..], r);
    }
  }

  lemma {:induction false} AwaitedIsNotErased(c: Config, s: State, steps: seq<Step>, r: Resource)
    requires Inv(c, s) && Runs(c, s, steps) && HeldThroughout(c, s, steps, r) && AwaitsVerdict(Exec(c, s, steps), r)
    ensures !ErasedIn(c, s, steps, r)
    decreases |steps|
  {
    if steps != [] {
      var t := Apply(c, s, steps[0]);
      StepKeeps(c, s, steps[0]);
      AwaitedIsNotErased(c, t, steps[1..], r);
      if Erases(s, steps[0], r) {
        ErasedIsDone(c, s, steps[0], r);
        DoneStaysDone(c, t, steps[1..], r);
      }
    }
  }

  /** All checks of the batch have begun, and the next verdict is the one on `r`. */
  predicate VerdictIsDue(s: State, r: Resource) {
    && s.mutex.Free? && s.health.Working?
    && s.health.judged < |s.health.beganAt| == |s.health.locked|
    && s.health.locked[s.health.judged].resource == r
  }

  lemma DueIsAwaited(c: Config, s: State, r: Resource)
    requires Inv(c, s) && VerdictIsDue(s, r)
    ensures AwaitsVerdict(s, r)
  {
    assert Holds(JobPart, c, s);
    var h := s.health;
    assert h.locked[h.judged] == (h.locked[h.judged..] + h.probing + h.todo)[0];
    assert h.locked[h.judged] in Pending(s.mutex, h);
  }

  lemma DueFindsPooled(c: Config, s: State, r: Resource)
    requires VerdictIsDue(s, r)
    ensures HealthEnabled(c, s, Judge(Unhealthy)) <==> Pooled(s, r)
  {
  }

  /** Take any state in which the health job holds a resource, and any later one, the reference kept all
      the while, in which its verdict is due. Erasing finds the item exactly when the resource was in the
      pool at first and nobody has cleared the pool or erased the resource since. What a trim had already
      removed when the job took its reference is no longer in the pool, even if the trim is still under way. */
  lemma {:induction false} EraseFindsItsItem(c: Config, s: State, steps: seq<Step>, r: Resource)
    requires Reachable(c, s) && Runs(c, s, steps) && HeldThroughout(c, s, steps, r)
    requires VerdictIsDue(Exec(c, s, steps), r)
    ensures HealthEnabled(c, Exec(c, s, steps), Judge(Unhealthy)) <==> Pooled(s, r) && NobodyRemoves(steps, r)
  {
    ReachableInv(c, s);
    RunKeeps(c, s, steps);
    DueIsAwaited(c, Exec(c, s, steps), r);
    DueFindsPooled(c, Exec(c, s, steps), r);
    AwaitedIsNotErased(c, s, steps, r);
    PooledAfter(c, s, steps, r);
  }
}
