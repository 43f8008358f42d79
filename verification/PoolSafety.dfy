/** What holds in every run of the pool. */
module PoolSafety {
  import opened PoolItems
  import opened PoolMachine
  import opened PoolInvariant
  import opened PoolPreservation
  import opened PoolPreservationHealth

  lemma {:induction false} RunsConcat(c: Config, s: State, first: seq<Step>, step: Step)
    requires Runs(c, s, first) && Enabled(c, Exec(c, s, first), step)
    ensures Runs(c, s, first + [step])
    ensures Exec(c, s, first + [step]) == Apply(c, Exec(c, s, first), step)
    decreases |first|
  {
    if first == [] {
      assert first + [step] == [step];
      RunsOne(c, s, step);
    } else {
      assert (first + [step])[1..] == first[1..] + [step];
      RunsConcat(c, Apply(c, s, first[0]), first[1..], step);
    }
  }

  lemma RunsOne(c: Config, s: State, step: Step)
    requires Enabled(c, s, step)
    ensures Runs(c, s, [step]) && Exec(c, s, [step]) == Apply(c, s, step)
  {
    var steps := [step];
    assert steps[1..] == [];
    assert Runs(c, Apply(c, s, step), []) && Exec(c, Apply(c, s, step), []) == Apply(c, s, step);
  }

  lemma ReachStep(c: Config, s: State, step: Step)
    requires Reachable(c, s) && Enabled(c, s, step)
    ensures Reachable(c, Apply(c, s, step))
  {
    var steps :| Runs(c, INITIAL, steps) && Exec(c, INITIAL, steps) == s;
    RunsConcat(c, INITIAL, steps, step);
  }

  // ---- the pool itself ----

  /** No resource is pooled twice, and the assertion at the start of `get` never fails: the index fits
      whenever no trim is under way. */
  lemma PoolIsWellFormed(c: Config, s: State)
    requires Reachable(c, s)
    ensures s.mutex.Trimming? || (|s.pool| == 0 && s.poolIndex == 0) || (|s.pool| > 0 && s.poolIndex < |s.pool|)
    ensures forall i, j | 0 <= i < j < |s.pool| :: s.pool[i].resource != s.pool[j].resource
  {
    ReachableInv(c, s);
    assert Holds(ShapePart, c, s);
  }

  /** Every strong count is the number of references somebody holds. */
  lemma CountsAreHolders(c: Config, s: State, r: Resource)
    requires Reachable(c, s)
    ensures s.counts[r] == Refs(s.pool)[r] + s.users[r] + s.disposing[r] + (if r in s.made then 1 else 0)
                           + KeeperRefs(s.keeper)[r] + HealthRefs(s.health)[r]
  {
    ReachableInv(c, s);
    assert Holds(CountPart, c, s);
  }

  // ---- hand-outs ----

  predicate HandsOut(s: State, step: Step, r: Resource) {
    match step
    case Get(GetTake) => s.mutex.Selected? && s.mutex.at < |s.pool| && s.pool[s.mutex.at].resource == r
    case Get(GetAppend(q)) => q == r
    case _ => false
  }

  /** `get` never hands out a resource somebody still holds, although strong counts are read
      and changed by everyone without a common lock: the new user is its only user. */
  lemma HandOutIsExclusive(c: Config, s: State, step: Step, r: Resource)
    requires Reachable(c, s) && Enabled(c, s, step) && HandsOut(s, step, r)
    ensures r !in s.users && Apply(c, s, step).users[r] == 1
  {
    ReachableInv(c, s);
    assert Holds(SectionPart, c, s) && Holds(KnownRefPart, c, s) && Holds(OwnerPart, c, s);
  }

  /** With invalidation on access, between any two hand-outs of one resource there is a health
      check of it that began after the first and passed before the second. */
  lemma HandOutsAreRechecked(c: Config, s: State, i: nat, j: nat, r: Resource)
    requires Reachable(c, s) && c.invalidateOnAccess
    requires i < j < |s.log| && s.log[i] == s.log[j] == HandedOut(r)
    ensures exists b, p :: i < b < p < j && s.log[b] == CheckBegan(r) && s.log[p] == CheckPassed(r, b)
  {
    ReachableInv(c, s);
    assert Holds(RecheckPart, c, s) && Holds(PassPart, c, s);
    assert CheckedBetween(s.log, r, i, j);
    var p :| 0 <= i < p < j && p < |s.log| && s.log[p].CheckPassed? && s.log[p].resource == r && i < s.log[p].beganAt;
    assert s.log[s.log[p].beganAt] == CheckBegan(r);
  }

  // ---- health checks and users ----

  predicate SelectedIs(s: State, r: Resource) {
    s.mutex.Selected? && s.mutex.at < |s.pool| && s.pool[s.mutex.at].resource == r
  }

  /** Only the health job, besides the pool, may be using `r`. */
  predicate CheckerOnly(s: State, r: Resource) {
    r in HealthRefs(s.health) && r !in s.users && !SelectedIs(s, r)
  }

  /** The reference the health job has just locked is its only one to that resource. */
  lemma ProbeIsOnlyRef(c: Config, s: State)
    requires Inv(c, s) && HealthEnabled(c, s, Decide)
    ensures HealthRefs(s.health)[s.health.probing[0].resource] == 1
    ensures s.health.probing[0].resource in s.published
  {
    var h := s.health;
    DecidePending(c, s);
    assert Holds(KnownItemPart, c, s) && Holds(JobPart, c, s) && Holds(CheckPart, c, s) && Holds(PendingPart, c, s);
    ProbedOnce(h.probing, h.locked, h.todo);
  }

  lemma ProbedOnce(probing: seq<Item>, locked: seq<Item>, todo: seq<Item>)
    requires |probing| == 1 && Distinct(locked[0..] + probing + todo)
    ensures BatchRefs(probing, locked, 0)[probing[0].resource] == 1
  {
    assert locked[0..] + probing + todo == locked + (probing + todo);
    ProbeNotLocked(locked, probing + todo, probing[0]);
    RefsOne(probing);
  }

  lemma ProbeNotLocked(locked: seq<Item>, rest: seq<Item>, x: Item)
    requires Distinct(locked + rest) && x in rest
    ensures Refs(locked)[x.resource] == 0
  {
    RefsMember(locked, x.resource);
    var j :| 0 <= j < |rest| && rest[j] == x;
    var all := locked + rest;
    assert all[|locked| + j] == x;
    forall i | 0 <= i < |locked| ensures locked[i].resource != x.resource {
      assert all[i] == locked[i];
    }
  }

  /** When the weak lock reads a count of 2, its one other reference is the pool's (or one that is
      about to be destroyed) exactly when no user holds the resource. */
  lemma WeakLockMeaning(c: Config, s: State)
    requires Reachable(c, s) && HealthEnabled(c, s, Decide)
    requires s.counts[s.health.probing[0].resource] == 2
    ensures var r := s.health.probing[0].resource;
            r !in s.users <==> r in Refs(s.pool) || r in s.disposing
  {
    ReachableInv(c, s);
    var r := s.health.probing[0].resource;
    ProbeIsOnlyRef(c, s);
    CountsAreHolders(c, s, r);
    PublishedIsFree(c, s, r);
  }

  lemma PublishedIsFree(c: Config, s: State, r: Resource)
    requires Inv(c, s) && r in s.published
    ensures r !in s.made && KeeperRefs(s.keeper)[r] == 0
  {
    assert Holds(OwnerPart, c, s);
  }

  /** A run in which the health job keeps a reference to `r` throughout. */
  predicate HeldThroughout(c: Config, s: State, steps: seq<Step>, r: Resource)
    requires Runs(c, s, steps)
    decreases |steps|
  {
    r in HealthRefs(s.health) && (steps != [] ==> HeldThroughout(c, Apply(c, s, steps[0]), steps[1..], r))
  }

  /** A pooled resource the health job holds is not available. */
  lemma HeldIsUsed(c: Config, s: State, at: nat)
    requires Inv(c, s) && at < |s.pool| && s.pool[at].resource in HealthRefs(s.health)
    ensures IsUsed(s.counts, s.pool[at])
  {
    assert Holds(CountPart, c, s);
    RefsSplit(s.pool, at);
    CountedTwo(s.counts, Refs(s.pool), s.users, s.disposing, s.made, KeeperRefs(s.keeper), HealthRefs(s.health),
               s.pool[at].resource);
  }

  lemma GetLeavesChecked(c: Config, s: State, step: GetStep, r: Resource)
    requires Inv(c, s) && GetEnabled(s, step) && CheckerOnly(s, r)
    ensures r !in ApplyGet(c, s, step).users && !SelectedIs(ApplyGet(c, s, step), r)
  {
    match step
    case GetTest =>
      if s.pool[s.mutex.at].resource == r {
        HeldIsUsed(c, s, s.mutex.at);
      }
    case GetAppend(q) =>
      HealthRefsKnown(c, s, r);
      assert Holds(OwnerPart, c, s);
    case _ =>
  }

  /** The jobs neither give references to users nor select for `get`. */
  lemma JobsFrame(c: Config, s: State, step: Step)
    requires Enabled(c, s, step) && (step.Keeper? || step.Health?)
    ensures var t := Apply(c, s, step);
            t.users == s.users && (t.mutex.Selected? ==> t.mutex == s.mutex && t.pool == s.pool)
  {
    match step {
      case Keeper(k) =>
        match k { case Add => case TrimUnlock => case _ => }
      case Health(h) =>
        match h { case Judge(verdict) => case Probe => case Decide => case _ => }
    }
  }

  lemma CallerFrame(c: Config, s: State, step: CallerStep)
    requires CallerEnabled(s, step)
    ensures var t := ApplyCaller(s, step);
            (forall r | r in t.users :: r in s.users) && (t.mutex.Selected? ==> t.mutex == s.mutex && t.pool == s.pool)
  {
  }

  lemma CheckerStaysAlone(c: Config, s: State, step: Step, r: Resource)
    requires Inv(c, s) && Enabled(c, s, step) && CheckerOnly(s, r)
    ensures r !in Apply(c, s, step).users && !SelectedIs(Apply(c, s, step), r)
  {
    if step.Get? {
      GetLeavesChecked(c, s, step.get, r);
    } else if step.Caller? {
      CallerFrame(c, s, step.caller);
    } else {
      JobsFrame(c, s, step);
    }
  }

  /** From then on, and for as long as the health job keeps its reference, no `get` selects the
      resource and no user obtains it. */
  lemma {:induction false} CheckIsExclusive(c: Config, s: State, steps: seq<Step>, r: Resource)
    requires Reachable(c, s) && Runs(c, s, steps) && HeldThroughout(c, s, steps, r) && CheckerOnly(s, r)
    ensures CheckerOnly(Exec(c, s, steps), r)
    decreases |steps|
  {
    if steps != [] {
      ReachableInv(c, s);
      CheckerStaysAlone(c, s, steps[0], r);
      ReachStep(c, s, steps[0]);
      CheckIsExclusive(c, Apply(c, s, steps[0]), steps[1..], r);
    }
  }
}
