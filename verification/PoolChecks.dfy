/** Health checks and users: when a resource under a check can reach a user. */
module PoolChecks {
  import opened PoolItems
  import opened PoolMachine
  import opened PoolInvariant
  import opened PoolPreservation
  import opened PoolSafety

  /** Some run that keeps the health job's reference gives the resource to a user. */
  ghost predicate MayMeetUser(c: Config, s: State, r: Resource) {
    exists steps :: Runs(c, s, steps) && HeldThroughout(c, s, steps, r) && r in Exec(c, s, steps).users
  }

  /** The one way: a `get` that has selected the resource takes it. */
  lemma SelectedMayMeet(c: Config, s: State, r: Resource)
    requires SelectedIs(s, r) && r in HealthRefs(s.health)
    ensures MayMeetUser(c, s, r)
  {
    var steps := [Get(GetTake)];
    var t := Apply(c, s, Get(GetTake));
    RunsOne(c, s, Get(GetTake));
    assert steps[1..] == [] && HeldThroughout(c, t, [], r);
    assert HeldThroughout(c, s, steps, r);
  }

  /** While the health job holds a resource that no user has, it can reach a user exactly when a `get` had
      selected it already. */
  lemma MayMeetUserIff(c: Config, s: State, r: Resource)
    requires Reachable(c, s) && r in HealthRefs(s.health) && r !in s.users
    ensures MayMeetUser(c, s, r) <==> SelectedIs(s, r)
  {
    if SelectedIs(s, r) {
      SelectedMayMeet(c, s, r);
    } else {
      forall steps | Runs(c, s, steps) && HeldThroughout(c, s, steps, r)
        ensures r !in Exec(c, s, steps).users
      {
        CheckIsExclusive(c, s, steps, r);
      }
    }
  }

  /** A weak lock that succeeds leaves the job with its reference and changes nothing else. */
  lemma LockedState(c: Config, s: State)
    requires Inv(c, s) && HealthEnabled(c, s, Decide) && s.counts[s.health.probing[0].resource] == 2
    ensures var t, r := ApplyHealth(c, s, Decide), s.health.probing[0].resource;
            && t.users == s.users && t.mutex == s.mutex && t.pool == s.pool
            && r in HealthRefs(t.health)
  {
    var h, x := s.health, s.health.probing[0];
    assert (h.locked + [x])[|h.locked|] == x;
    RefsSplit(h.locked + [x], |h.locked|);
    assert Holds(CheckPart, c, s);
  }

  /** From the weak lock that reads a count of 2 to the verdict: a user can get hold of the resource while
      the job keeps its reference exactly when neither the pool nor a vector taken out of it held the other
      reference, which was then a user's, or a `get` had selected the resource before. */
  lemma WeakLockToVerdict(c: Config, s: State)
    requires Reachable(c, s) && HealthEnabled(c, s, Decide) && s.counts[s.health.probing[0].resource] == 2
    ensures var r := s.health.probing[0].resource;
            MayMeetUser(c, ApplyHealth(c, s, Decide), r)
            <==> !(r in Refs(s.pool) || r in s.disposing) || SelectedIs(s, r)
  {
    var t, r := ApplyHealth(c, s, Decide), s.health.probing[0].resource;
    ReachableInv(c, s);
    ReachStep(c, s, Health(Decide));
    WeakLockMeaning(c, s);
    LockedState(c, s);
    if r in s.users {
      assert Runs(c, t, []) && HeldThroughout(c, t, [], r) && Exec(c, t, []) == t;
    } else {
      MayMeetUserIff(c, t, r);
    }
  }
}
