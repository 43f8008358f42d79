/** Population ids: what storing a new one and clearing the pool achieve together. */
module PoolGenerations {
  import opened PoolItems
  import opened PoolMachine
  import opened PoolInvariant
  import opened PoolPreservation

  ghost predicate ValuesIn(ids: set<nat>, m: map<Resource, nat>) {
    forall r | r in m :: m[r] in ids
  }

  ghost predicate MissedIn(ids: set<nat>, missed: multiset<nat>) {
    forall p | p in missed :: p in ids
  }

  /** The population ids that steps in progress have read. */
  ghost predicate ReadIds(ids: set<nat>, s: State) {
    && s.populationId in ids
    && (s.mutex.Searching? ==> s.mutex.population in ids)
    && MissedIn(ids, s.missed)
    && ValuesIn(ids, s.waiting)
    && ValuesIn(ids, s.made)
    && (s.keeper.Requesting? || s.keeper.Adding? ==> s.keeper.population in ids)
  }

  lemma ValuesInKept(ids: set<nat>, m: map<Resource, nat>, r: Resource)
    requires ValuesIn(ids, m)
    ensures ValuesIn(ids, m - {r})
    ensures r in m ==> m[r] in ids
  {
  }

  lemma ValuesInMore(ids: set<nat>, m: map<Resource, nat>, r: Resource, id: nat)
    requires ValuesIn(ids, m) && id in ids
    ensures ValuesIn(ids, m[r := id])
  {
  }

  lemma MissedInKept(ids: set<nat>, missed: multiset<nat>, id: nat)
    requires MissedIn(ids, missed)
    ensures MissedIn(ids, missed - multiset{id})
    ensures id in missed ==> id in ids
    ensures id in ids ==> MissedIn(ids, missed + multiset{id})
  {
  }

  lemma GetReads(c: Config, s: State, step: GetStep)
    requires ReadIds(s.ids, s) && GetEnabled(s, step)
    ensures ReadIds(ApplyGet(c, s, step).ids, ApplyGet(c, s, step))
  {
    match step
    case GetMiss =>
      MissedInKept(s.ids, s.missed, s.mutex.population);
    case GetRequest(population) =>
      MissedInKept(s.ids, s.missed, population);
      ValuesInMore(s.ids, s.waiting, s.next, population);
    case GetMade(r) =>
      ValuesInKept(s.ids, s.waiting, r);
      ValuesInMore(s.ids, s.made, r, s.waiting[r]);
    case GetFailed(r) =>
      ValuesInKept(s.ids, s.waiting, r);
    case GetAppend(r) =>
      ValuesInKept(s.ids, s.made, r);
    case _ =>
  }

  lemma KeeperReads(c: Config, s: State, step: KeeperStep)
    requires ReadIds(s.ids, s) && KeeperEnabled(s, step)
    ensures ReadIds(ApplyKeeper(c, s, step).ids, ApplyKeeper(c, s, step))
  {
    match step case Add => case TrimUnlock => case _ =>
  }

  /** Neither step of the two reads ids or asks for creations. */
  ghost predicate SameIds(s: State, t: State) {
    && t.populationId == s.populationId && t.missed == s.missed && t.waiting == s.waiting && t.made == s.made
    && t.keeper == s.keeper && t.next == s.next && t.ids == s.ids
    && (t.mutex.Searching? || t.mutex.Appending? || t.mutex.Merging? ==> t.mutex == s.mutex)
  }

  lemma JudgeReads(c: Config, s: State, verdict: Verdict)
    requires HealthEnabled(c, s, Judge(verdict))
    ensures SameIds(s, ApplyJudge(c, s, verdict))
  {
  }

  /** The health job reads no ids and asks for no creations. */
  lemma HealthReads(c: Config, s: State, step: HealthStep)
    requires HealthEnabled(c, s, step)
    ensures SameIds(s, ApplyHealth(c, s, step))
  {
    if step.Judge? {
      JudgeReads(c, s, step.verdict);
    } else if step.SnapshotLock? || step.SnapshotTest? || step.SnapshotUnlock? {
      SnapshotReads(c, s, step);
    } else if step.Probe? || step.Decide? {
      LockReads(c, s, step);
    } else {
      BatchReads(c, s, step);
    }
  }

  lemma SnapshotReads(c: Config, s: State, step: HealthStep)
    requires HealthEnabled(c, s, step) && (step.SnapshotLock? || step.SnapshotTest? || step.SnapshotUnlock?)
    ensures SameIds(s, ApplyHealth(c, s, step))
  {
  }

  lemma LockReads(c: Config, s: State, step: HealthStep)
    requires HealthEnabled(c, s, step) && (step.Probe? || step.Decide?)
    ensures SameIds(s, ApplyHealth(c, s, step))
  {
  }

  lemma BatchReads(c: Config, s: State, step: HealthStep)
    requires HealthEnabled(c, s, step) && (step.Begin? || step.StartFails? || step.ReleaseBatch? || step.Rest?)
    ensures SameIds(s, ApplyHealth(c, s, step))
  {
  }

  lemma ReadIdsStep(c: Config, s: State, step: Step)
    requires ReadIds(s.ids, s) && Enabled(c, s, step)
    ensures ReadIds(Apply(c, s, step).ids, Apply(c, s, step))
  {
    match step
    case Get(g) => GetReads(c, s, g);
    case Keeper(k) => KeeperReads(c, s, k);
    case Health(h) => HealthReads(c, s, h);
    case Caller(u) => CallerReads(s, u);
  }

  lemma CallerReads(s: State, step: CallerStep)
    requires ReadIds(s.ids, s) && CallerEnabled(s, step)
    ensures ReadIds(ApplyCaller(s, step).ids, ApplyCaller(s, step))
  {
  }

  lemma {:induction false} ReadIdsRun(c: Config, s: State, steps: seq<Step>)
    requires ReadIds(s.ids, s) && Runs(c, s, steps)
    ensures ReadIds(Exec(c, s, steps).ids, Exec(c, s, steps))
    decreases |steps|
  {
    if steps != [] {
      ReadIdsStep(c, s, steps[0]);
      ReadIdsRun(c, Apply(c, s, steps[0]), steps[1..]);
    }
  }

  /** No id in `earlier` is current, and every creation under way carries one of them or was asked for
      from `since` on. Creations are numbered in the order they were asked for. */
  ghost predicate Renewing(s: State, earlier: set<nat>, since: Resource) {
    && s.populationId !in earlier
    && since <= s.next
    && (forall r | r in s.waiting :: s.waiting[r] in earlier || r >= since)
    && (forall r | r in s.made :: s.made[r] in earlier || r >= since)
    && (s.keeper.Requesting? || s.keeper.Adding? ==>
          s.keeper.population in earlier || forall r | r in KeeperOwned(s.keeper) :: r >= since)
  }

  /** Nor is anyone about to pool a creation from before because the ids were compared before. */
  ghost predicate Renewed(s: State, earlier: set<nat>, since: Resource) {
    && Renewing(s, earlier, since)
    && (s.mutex.Appending? && s.mutex.same ==> s.mutex.resource >= since)
    && (s.mutex.Merging? && s.mutex.same ==> forall r | r in KeeperOwned(s.keeper) :: r >= since)
  }

  ghost predicate PoolSince(pool: seq<Item>, since: Resource) {
    forall x | x in pool :: x.resource >= since
  }

  /** A step that makes none of the earlier ids current again. */
  predicate KeepsAway(step: Step, earlier: set<nat>) {
    step.Caller? && step.caller.StorePopulation? ==> step.caller.id !in earlier
  }

  lemma SucceededIn(tickets: seq<Resource>, succeeded: set<Resource>)
    ensures forall r | r in Succeeded(tickets, succeeded) :: r in tickets
  {
  }

  lemma GetRenewing(c: Config, s: State, step: GetStep, earlier: set<nat>, since: Resource)
    requires GetEnabled(s, step) && Renewing(s, earlier, since)
    ensures Renewing(ApplyGet(c, s, step), earlier, since)
  {
    match step case GetMade(_) => case GetAppend(_) => case _ =>
  }

  lemma KeeperRenewing(c: Config, s: State, step: KeeperStep, earlier: set<nat>, since: Resource)
    requires KeeperEnabled(s, step) && Renewing(s, earlier, since)
    ensures Renewing(ApplyKeeper(c, s, step), earlier, since)
  {
    match step
    case Request => CollectRenewed(s.keeper.tickets, s.keeper.tickets + [s.next], since, s.next);
    case Collect(succeeded) =>
      SucceededIn(s.keeper.tickets, succeeded);
      assert KeeperOwned(s.keeper) == s.keeper.tickets;
      assert KeeperOwned(ApplyKeeper(c, s, step).keeper) == Succeeded(s.keeper.tickets, succeeded);
    case _ =>
  }

  lemma CollectRenewed(tickets: seq<Resource>, more: seq<Resource>, since: Resource, next: Resource)
    requires more == tickets + [next] && since <= next
    ensures (forall r | r in tickets :: r >= since) ==> forall r | r in more :: r >= since
  {
  }

  lemma RenewingStep(c: Config, s: State, step: Step, earlier: set<nat>, since: Resource)
    requires Enabled(c, s, step) && Renewing(s, earlier, since) && KeepsAway(step, earlier)
    ensures Renewing(Apply(c, s, step), earlier, since)
  {
    match step
    case Get(g) => GetRenewing(c, s, g, earlier, since);
    case Keeper(k) => KeeperRenewing(c, s, k, earlier, since);
    case Health(h) => HealthReads(c, s, h);
    case Caller(u) => CallerRenewing(s, u, earlier, since);
  }

  lemma CallerRenewing(s: State, step: CallerStep, earlier: set<nat>, since: Resource)
    requires CallerEnabled(s, step) && Renewing(s, earlier, since) && KeepsAway(Caller(step), earlier)
    ensures Renewing(ApplyCaller(s, step), earlier, since)
  {
  }

  /** Others leave a comparison of population ids and what it is about alone. */
  lemma ComparedStays(c: Config, s: State, step: Step)
    requires Inv(c, s) && Enabled(c, s, step)
    ensures var t := Apply(c, s, step);
            && (t.mutex.Appending? ==> t.mutex == s.mutex || step == Get(GetCompare(t.mutex.resource)))
            && (t.mutex.Merging? ==> t.keeper == s.keeper && (t.mutex == s.mutex || step == Keeper(Compare)))
  {
    match step
    case Get(_) =>
    case Keeper(k) => KeeperCompared(c, s, k);
    case Health(h) => HealthReads(c, s, h);
    case Caller(_) =>
  }

  lemma KeeperCompared(c: Config, s: State, step: KeeperStep)
    requires Inv(c, s) && KeeperEnabled(s, step)
    ensures var t := ApplyKeeper(c, s, step);
            && (t.mutex.Appending? ==> t.mutex == s.mutex)
            && (t.mutex.Merging? ==> t.keeper == s.keeper && (t.mutex == s.mutex || step == Compare))
  {
    assert Holds(JobPart, c, s);
    match step case Add => case TrimTest => case _ =>
  }

  /** Creations under way that may still be pooled stay those asked for from `since` on. */
  lemma RenewedStep(c: Config, s: State, step: Step, earlier: set<nat>, since: Resource)
    requires Inv(c, s) && Enabled(c, s, step) && Renewed(s, earlier, since) && KeepsAway(step, earlier)
    ensures Renewed(Apply(c, s, step), earlier, since)
  {
    RenewingStep(c, s, step, earlier, since);
    ComparedStays(c, s, step);
  }

  lemma GetPoolSince(c: Config, s: State, step: GetStep, earlier: set<nat>, since: Resource)
    requires GetEnabled(s, step) && Renewed(s, earlier, since) && PoolSince(s.pool, since)
    ensures PoolSince(ApplyGet(c, s, step).pool, since)
  {
    match step case GetTake => case GetAppend(_) => case _ =>
  }

  lemma KeeperPoolSince(c: Config, s: State, step: KeeperStep, earlier: set<nat>, since: Resource)
    requires Inv(c, s) && KeeperEnabled(s, step) && Renewed(s, earlier, since) && PoolSince(s.pool, since)
    ensures PoolSince(ApplyKeeper(c, s, step).pool, since)
  {
    match step
    case Add =>
      assert KeeperOwned(s.keeper) == s.keeper.made;
      assert forall x | x in Valids(s.keeper.made) :: x.resource in s.keeper.made;
    case TrimUnlock => assert Holds(SectionPart, c, s);
    case _ =>
  }

  lemma JudgedItems(c: Config, s: State, verdict: Verdict)
    requires HealthEnabled(c, s, Judge(verdict)) && !verdict.Unhealthy?
    ensures forall x | x in ApplyJudge(c, s, verdict).pool :: exists y :: y in s.pool && y.resource == x.resource
  {
    forall x | x in ApplyJudge(c, s, verdict).pool ensures exists y :: y in s.pool && y.resource == x.resource {
      var i :| 0 <= i < |s.pool| && ApplyJudge(c, s, verdict).pool[i] == x;
      assert s.pool[i] in s.pool && s.pool[i].resource == x.resource;
    }
  }

  lemma HealthPoolSince(c: Config, s: State, step: HealthStep, since: Resource)
    requires HealthEnabled(c, s, step) && PoolSince(s.pool, since)
    ensures PoolSince(ApplyHealth(c, s, step).pool, since)
  {
    if step.Judge? {
      if step.verdict.Unhealthy? {
        ErasePoolSince(ApplyJudge(c, s, CheckFailed), s.health.locked[s.health.judged].resource, since);
      } else {
        JudgedItems(c, s, step.verdict);
      }
    }
  }

  lemma ErasePoolSince(s: State, r: Resource, since: Resource)
    requires r in Refs(s.pool) && PoolSince(s.pool, since)
    ensures PoolSince(EraseItem(s, r).pool, since)
  {
    RefsMember(s.pool, r);
    assert forall x | x in Without(s.pool, IndexOf(s.pool, r)) :: x in s.pool;
  }

  /** Then the pool only gains creations asked for from `since` on. */
  lemma PoolSinceStep(c: Config, s: State, step: Step, earlier: set<nat>, since: Resource)
    requires Inv(c, s) && Enabled(c, s, step) && Renewed(s, earlier, since) && PoolSince(s.pool, since)
    ensures PoolSince(Apply(c, s, step).pool, since)
  {
    match step
    case Get(g) => GetPoolSince(c, s, g, earlier, since);
    case Keeper(k) => KeeperPoolSince(c, s, k, earlier, since);
    case Health(h) => HealthPoolSince(c, s, h, since);
    case Caller(u) => if u.Erase? { ErasePoolSince(s, u.r, since); }
  }

  predicate AllKeepAway(steps: seq<Step>, earlier: set<nat>) {
    forall step | step in steps :: KeepsAway(step, earlier)
  }

  lemma {:induction false} RenewingRun(c: Config, s: State, steps: seq<Step>, earlier: set<nat>, since: Resource)
    requires Runs(c, s, steps) && Renewing(s, earlier, since) && AllKeepAway(steps, earlier)
    ensures Renewing(Exec(c, s, steps), earlier, since)
    decreases |steps|
  {
    if steps != [] {
      RenewingStep(c, s, steps[0], earlier, since);
      RenewingRun(c, Apply(c, s, steps[0]), steps[1..], earlier, since);
    }
  }

  lemma {:induction false} PoolSinceRun(c: Config, s: State, steps: seq<Step>, earlier: set<nat>, since: Resource)
    requires Inv(c, s) && Runs(c, s, steps) && AllKeepAway(steps, earlier)
    requires Renewed(s, earlier, since) && PoolSince(s.pool, since)
    ensures PoolSince(Exec(c, s, steps).pool, since)
    decreases |steps|
  {
    if steps != [] {
      StepKeeps(c, s, steps[0]);
      RenewedStep(c, s, steps[0], earlier, since);
      PoolSinceStep(c, s, steps[0], earlier, since);
      PoolSinceRun(c, Apply(c, s, steps[0]), steps[1..], earlier, since);
    }
  }

  /** The request for `r` is in the log, at or after position `mark`. */
  ghost predicate RequestedFrom(log: seq<Event>, r: Resource, mark: nat) {
    exists k :: mark <= k < |log| && log[k] == Requested(r)
  }

  /** The request for every creation from `since` on is in the log, at or after position `mark`. */
  ghost predicate RequestsLogged(s: State, since: Resource, mark: nat) {
    mark <= |s.log| && forall r | since <= r < s.next :: RequestedFrom(s.log, r, mark)
  }

  lemma LogStep(c: Config, s: State, step: Step)
    requires Enabled(c, s, step)
    ensures var t := Apply(c, s, step);
            && s.log <= t.log
            && (t.next == s.next || (t.next == s.next + 1 && t.log == s.log + [Requested(s.next)]))
  {
    match step {
      case Get(_) =>
      case Keeper(_) =>
      case Health(h) => match h { case Judge(_) => case _ => }
      case Caller(_) =>
    }
  }

  lemma RequestedStays(log: seq<Event>, grown: seq<Event>, r: Resource, mark: nat)
    requires log <= grown && RequestedFrom(log, r, mark)
    ensures RequestedFrom(grown, r, mark)
  {
    var k :| mark <= k < |log| && log[k] == Requested(r);
    assert grown[k] == Requested(r);
  }

  lemma RequestsLoggedStep(c: Config, s: State, step: Step, since: Resource, mark: nat)
    requires Enabled(c, s, step) && RequestsLogged(s, since, mark)
    ensures RequestsLogged(Apply(c, s, step), since, mark)
  {
    LogStep(c, s, step);
    var t := Apply(c, s, step);
    forall r | since <= r < t.next ensures RequestedFrom(t.log, r, mark) {
      if r < s.next {
        RequestedStays(s.log, t.log, r, mark);
      } else {
        assert t.log[|s.log|] == Requested(r);
      }
    }
  }

  lemma {:induction false} RequestsLoggedRun(c: Config, s: State, steps: seq<Step>, since: Resource, mark: nat)
    requires Runs(c, s, steps) && RequestsLogged(s, since, mark)
    ensures RequestsLogged(Exec(c, s, steps), since, mark)
    decreases |steps|
  {
    if steps != [] {
      RequestsLoggedStep(c, s, steps[0], since, mark);
      RequestsLoggedRun(c, Apply(c, s, steps[0]), steps[1..], since, mark);
    }
  }

  /** Store a population id that was never current, then clear the pool, with any steps of anyone
      before, between and after: from the clearing on, every pooled resource was asked for after
      the store, as long as no earlier id is stored again. A thread that has compared the ids before
      the store may still pool an old creation after it, but not after the clearing, which needs the
      mutex that this thread holds. */
  lemma {:induction false} GenerationSafety(c: Config, s: State, id: nat, between: seq<Step>, after: seq<Step>)
    requires Reachable(c, s) && id !in s.ids
    requires var stored := Apply(c, s, Caller(StorePopulation(id)));
             && Runs(c, stored, between) && AllKeepAway(between, s.ids)
             && Enabled(c, Exec(c, stored, between), Caller(ClearPool))
             && var cleared := Apply(c, Exec(c, stored, between), Caller(ClearPool));
             && Runs(c, cleared, after) && AllKeepAway(after, s.ids)
    ensures var stored := Apply(c, s, Caller(StorePopulation(id)));
            var cleared := Apply(c, Exec(c, stored, between), Caller(ClearPool));
            var end := Exec(c, cleared, after);
            forall x | x in end.pool :: RequestedFrom(end.log, x.resource, |s.log|)
  {
    var stored := Apply(c, s, Caller(StorePopulation(id)));
    var dirty := Exec(c, stored, between);
    var cleared := Apply(c, dirty, Caller(ClearPool));
    StoreRenews(c, s, id);
    StoredUntilCleared(c, stored, between, s.ids, s.next, |s.log|);
    RunKeeps(c, cleared, after);
    PoolSinceRun(c, cleared, after, s.ids, s.next);
    RequestsLoggedRun(c, cleared, after, s.next, |s.log|);
    var end := Exec(c, cleared, after);
    forall x | x in end.pool ensures RequestedFrom(end.log, x.resource, |s.log|) {
      PooledIsNumbered(c, end, x);
    }
  }

  lemma StoreRenews(c: Config, s: State, id: nat)
    requires Reachable(c, s) && id !in s.ids
    ensures var stored := Apply(c, s, Caller(StorePopulation(id)));
            Inv(c, stored) && Renewing(stored, s.ids, s.next) && RequestsLogged(stored, s.next, |s.log|)
  {
    ReachableInv(c, s);
    InitiallyRead(c, s);
    StepKeeps(c, s, Caller(StorePopulation(id)));
  }

  lemma {:induction false} StoredUntilCleared(c: Config, stored: State, between: seq<Step>, earlier: set<nat>,
                                              since: Resource, mark: nat)
    requires Inv(c, stored) && Renewing(stored, earlier, since) && RequestsLogged(stored, since, mark)
    requires Runs(c, stored, between) && AllKeepAway(between, earlier)
    requires Enabled(c, Exec(c, stored, between), Caller(ClearPool))
    ensures var cleared := Apply(c, Exec(c, stored, between), Caller(ClearPool));
            && Inv(c, cleared) && Renewed(cleared, earlier, since) && RequestsLogged(cleared, since, mark)
            && PoolSince(cleared.pool, since)
  {
    RunKeeps(c, stored, between);
    RenewingRun(c, stored, between, earlier, since);
    RequestsLoggedRun(c, stored, between, since, mark);
    StepKeeps(c, Exec(c, stored, between), Caller(ClearPool));
  }

  lemma InitiallyRead(c: Config, s: State)
    requires Reachable(c, s)
    ensures ReadIds(s.ids, s)
  {
    var steps :| Runs(c, INITIAL, steps) && Exec(c, INITIAL, steps) == s;
    ReadIdsRun(c, INITIAL, steps);
  }

  lemma PooledIsNumbered(c: Config, s: State, x: Item)
    requires Inv(c, s) && x in s.pool
    ensures x.resource < s.next
  {
    assert Holds(KnownItemPart, c, s) && Holds(OwnerPart, c, s);
  }
}
