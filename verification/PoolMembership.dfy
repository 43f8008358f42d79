/** Which steps bring a resource into the pool, and which take it out. */
module PoolMembership {
  import opened PoolItems
  import opened PoolMachine
  import opened PoolInvariant
  import opened PoolPreservationKeeper
  import opened PoolPreservationHealth

  predicate Pooled(s: State, r: Resource) {
    r in Refs(s.pool)
  }

  /** A step that pools a creation: the comparison of population ids came out well. */
  predicate Adds(s: State, step: Step, r: Resource) {
    match step
    case Get(GetAppend(q)) => q == r && s.mutex == Appending(r, true)
    case Keeper(Add) => s.mutex == Merging(true) && s.keeper.Adding? && r in s.keeper.made
    case _ => false
  }

  /** A verdict that erases the item with this resource. */
  predicate Erases(s: State, step: Step, r: Resource) {
    && step == Health(Judge(Unhealthy))
    && s.health.Working? && s.health.judged < |s.health.locked| && s.health.locked[s.health.judged].resource == r
  }

  /** A test of a trim that removes the item with this resource. */
  predicate Trims(s: State, step: Step, r: Resource) {
    step == Keeper(TrimTest) && DropsNext(s) && s.pool[s.mutex.at].resource == r
  }

  predicate TakesOut(s: State, step: Step, r: Resource) {
    step == Caller(ClearPool) || step == Caller(Erase(r)) || Erases(s, step, r) || Trims(s, step, r)
  }

  lemma GetPools(c: Config, s: State, step: GetStep, r: Resource)
    requires GetEnabled(s, step)
    ensures Pooled(ApplyGet(c, s, step), r) <==> Pooled(s, r) || Adds(s, Get(step), r)
  {
    match step
    case GetTake => RefsFlag(s.pool, s.mutex.at, false);
    case GetAppend(q) => RefsSnoc(s.pool, Item(!c.invalidateOnAccess, q));
    case _ =>
  }

  /** Without one of its items a pool of distinct resources lacks that item's resource and no other. */
  lemma WithoutPooled(pool: seq<Item>, at: nat, r: Resource)
    requires Distinct(pool) && at < |pool|
    ensures r in Refs(Without(pool, at)) <==> r in Refs(pool) && r != pool[at].resource
  {
    RefsWithout(pool, at);
    DistinctRefs(pool);
    assert Refs(pool)[r] <= 1;
  }

  lemma AddPools(c: Config, s: State, r: Resource)
    requires KeeperEnabled(s, Add)
    ensures Pooled(ApplyKeeper(c, s, Add), r) <==> Adds(s, Keeper(Add), r) || Pooled(s, r)
  {
    AddedPool(c, s);
    AddedRefs(s.pool, s.keeper.made, r, ApplyKeeper(c, s, Add).pool);
  }

  lemma AddedPool(c: Config, s: State)
    requires KeeperEnabled(s, Add)
    ensures ApplyKeeper(c, s, Add).pool == if s.mutex.same then s.pool + Valids(s.keeper.made) else s.pool
  {
  }

  lemma AddedRefs(pool: seq<Item>, made: seq<Resource>, r: Resource, grown: seq<Item>)
    ensures grown == pool + Valids(made) ==> (r in Refs(grown) <==> r in made || r in Refs(pool))
  {
    RefsConcat(pool, Valids(made));
    ValidsRefs(made);
    assert r in multiset(made) <==> r in made;
  }

  lemma TrimPools(c: Config, s: State, r: Resource)
    requires Inv(c, s) && KeeperEnabled(s, TrimTest)
    ensures Pooled(ApplyKeeper(c, s, TrimTest), r) <==> Pooled(s, r) && !Trims(s, Keeper(TrimTest), r)
  {
    assert Holds(ShapePart, c, s);
    if DropsNext(s) {
      WithoutPooled(s.pool, s.mutex.at, r);
    }
  }

  lemma KeeperPools(c: Config, s: State, step: KeeperStep, r: Resource)
    requires Inv(c, s) && KeeperEnabled(s, step)
    ensures Pooled(ApplyKeeper(c, s, step), r)
       <==> Adds(s, Keeper(step), r) || (Pooled(s, r) && !Trims(s, Keeper(step), r))
  {
    match step
    case Add => AddPools(c, s, r);
    case TrimTest => TrimPools(c, s, r);
    case _ =>
  }

  lemma ErasePools(c: Config, s: State, erased: Resource, r: Resource)
    requires Inv(c, s) && erased in Refs(s.pool)
    ensures Pooled(EraseItem(s, erased), r) <==> Pooled(s, r) && r != erased
  {
    assert Holds(ShapePart, c, s);
    ErasedRefs(s.pool, erased);
    WithoutPooled(s.pool, IndexOf(s.pool, erased), r);
  }

  lemma JudgePools(c: Config, s: State, verdict: Verdict, r: Resource)
    requires Inv(c, s) && HealthEnabled(c, s, Judge(verdict))
    ensures Pooled(ApplyJudge(c, s, verdict), r) <==> Pooled(s, r) && !Erases(s, Health(Judge(verdict)), r)
  {
    var judged := s.health.locked[s.health.judged].resource;
    var at := IndexOf(s.pool, judged);
    if verdict.Unhealthy? {
      ErasePools(c, s, judged, r);
    } else if at < |s.pool| {
      RefsFlag(s.pool, at, true);
    }
  }

  lemma HealthPools(c: Config, s: State, step: HealthStep, r: Resource)
    requires Inv(c, s) && HealthEnabled(c, s, step)
    ensures Pooled(ApplyHealth(c, s, step), r) <==> Pooled(s, r) && !Erases(s, Health(step), r)
  {
    if step.Judge? {
      JudgePools(c, s, step.verdict, r);
    }
  }

  lemma CallerPools(c: Config, s: State, step: CallerStep, r: Resource)
    requires Inv(c, s) && CallerEnabled(s, step)
    ensures Pooled(ApplyCaller(s, step), r) <==> Pooled(s, r) && step != ClearPool && step != Erase(r)
  {
    if step.Erase? {
      ErasePools(c, s, step.r, r);
    }
  }

  ghost predicate Decided(c: Config, s: State, step: Step, r: Resource)
    requires Enabled(c, s, step)
  {
    Pooled(Apply(c, s, step), r) <==> Adds(s, step, r) || (Pooled(s, r) && !TakesOut(s, step, r))
  }

  lemma GetDecided(c: Config, s: State, step: GetStep, r: Resource)
    requires GetEnabled(s, step)
    ensures Decided(c, s, Get(step), r)
  {
    GetPools(c, s, step, r);
  }

  lemma KeeperDecided(c: Config, s: State, step: KeeperStep, r: Resource)
    requires Inv(c, s) && KeeperEnabled(s, step)
    ensures Decided(c, s, Keeper(step), r)
  {
    KeeperPools(c, s, step, r);
  }

  lemma HealthDecided(c: Config, s: State, step: HealthStep, r: Resource)
    requires Inv(c, s) && HealthEnabled(c, s, step)
    ensures Decided(c, s, Health(step), r)
  {
    HealthPools(c, s, step, r);
  }

  lemma CallerDecided(c: Config, s: State, step: CallerStep, r: Resource)
    requires Inv(c, s) && CallerEnabled(s, step)
    ensures Decided(c, s, Caller(step), r)
  {
    CallerPools(c, s, step, r);
  }

  /** Membership after a step is decided by membership before it and by what the step is. */
  lemma PooledStep(c: Config, s: State, step: Step, r: Resource)
    requires Inv(c, s) && Enabled(c, s, step)
    ensures Pooled(Apply(c, s, step), r) <==> Adds(s, step, r) || (Pooled(s, r) && !TakesOut(s, step, r))
  {
    assert Decided(c, s, step, r) by {
      match step
      case Get(g) => GetDecided(c, s, g, r);
      case Keeper(k) => KeeperDecided(c, s, k, r);
      case Health(h) => HealthDecided(c, s, h, r);
      case Caller(u) => CallerDecided(c, s, u, r);
    }
  }

  /** What was ever pooled or handed out is not added again. */
  lemma PublishedIsNotAdded(c: Config, s: State, step: Step, r: Resource)
    requires Inv(c, s) && Enabled(c, s, step) && r in s.published
    ensures !Adds(s, step, r)
  {
    assert Holds(OwnerPart, c, s);
  }

  lemma PublishedStays(c: Config, s: State, step: Step)
    requires Enabled(c, s, step)
    ensures s.published <= Apply(c, s, step).published
  {
    match step
    case Get(_) =>
    case Keeper(_) =>
    case Health(h) => match h { case Judge(_) => case _ => }
    case Caller(_) =>
  }

  /** A resource that was published and is not pooled never is again. */
  lemma StaysOut(c: Config, s: State, step: Step, r: Resource)
    requires Inv(c, s) && Enabled(c, s, step) && r in s.published && !Pooled(s, r)
    ensures r in Apply(c, s, step).published && !Pooled(Apply(c, s, step), r)
  {
    PublishedIsNotAdded(c, s, step, r);
    PublishedStays(c, s, step);
    PooledStep(c, s, step, r);
  }

  // ---- what nobody but the owner of the mutex changes ----

  lemma GetKeepsPool(c: Config, s: State, step: GetStep)
    requires GetEnabled(s, step) && !s.mutex.Free? && !s.mutex.Selected? && !s.mutex.Appending?
    ensures ApplyGet(c, s, step).pool == s.pool && ApplyGet(c, s, step).poolIndex == s.poolIndex
  {
  }

  lemma HealthKeepsPool(c: Config, s: State, step: HealthStep)
    requires HealthEnabled(c, s, step) && !s.mutex.Free?
    ensures ApplyHealth(c, s, step).pool == s.pool && ApplyHealth(c, s, step).poolIndex == s.poolIndex
  {
    if step.Judge? {
      JudgeKeepsPool(c, s, step.verdict);
    }
  }

  lemma JudgeKeepsPool(c: Config, s: State, verdict: Verdict)
    requires HealthEnabled(c, s, Judge(verdict)) && !s.mutex.Free?
    ensures ApplyJudge(c, s, verdict).pool == s.pool && ApplyJudge(c, s, verdict).poolIndex == s.poolIndex
  {
  }

  lemma KeeperKeepsPool(c: Config, s: State, step: KeeperStep)
    requires KeeperEnabled(s, step) && !s.mutex.Free? && !s.mutex.Trimming? && !s.mutex.Merging?
    ensures ApplyKeeper(c, s, step).pool == s.pool && ApplyKeeper(c, s, step).poolIndex == s.poolIndex
  {
  }

  /** While somebody scans the pool, the pool does not change. */
  lemma ScannedPoolStays(c: Config, s: State, step: Step)
    requires Enabled(c, s, step) && (s.mutex.Searching? || s.mutex.Observing? || s.mutex.Snapshotting?)
    ensures Apply(c, s, step).pool == s.pool && Apply(c, s, step).poolIndex == s.poolIndex
  {
    match step
    case Get(g) => GetKeepsPool(c, s, g);
    case Keeper(k) => KeeperKeepsPool(c, s, k);
    case Health(h) => HealthKeepsPool(c, s, h);
    case Caller(_) =>
  }
}
