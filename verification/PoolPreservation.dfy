/** Every step of the machine keeps the invariant, so it holds in every run. */
module PoolPreservation {
  import opened PoolItems
  import opened PoolMachine
  import opened PoolInvariant
  import opened PoolPreservationGet
  import opened PoolPreservationKeeper
  import opened PoolPreservationHealth

  lemma ClearPoolCounts(c: Config, s: State)
    requires Inv(c, s) && CallerEnabled(s, ClearPool)
    ensures Holds(CountPart, c, ApplyCaller(s, ClearPool))
  {
    assert Holds(CountPart, c, s);
    SumMoves(Refs(s.pool), Refs(s.pool));
    CountedDrop(s.counts, multiset{}, Refs(s.pool), s.users, s.disposing, s.made,
                KeeperRefs(s.keeper), HealthRefs(s.health));
  }

  lemma ClearPoolKeeps(c: Config, s: State)
    requires Inv(c, s) && CallerEnabled(s, ClearPool)
    ensures Inv(c, ApplyCaller(s, ClearPool))
  {
    var t := ApplyCaller(s, ClearPool);
    forall p: Part ensures Holds(p, c, t) {
      match p {
        case ShapePart =>
        case CountPart => ClearPoolCounts(c, s);
        case SectionPart =>
        case KnownItemPart => assert Holds(KnownItemPart, c, s);
        case KnownRefPart => ClearPoolRefs(c, s);
        case SettledPart =>
        case StaleFlagPart =>
        case _ => Frame(p, c, s, t);
      }
    }
  }

  lemma ClearPoolRefs(c: Config, s: State)
    requires Inv(c, s) && CallerEnabled(s, ClearPool)
    ensures Holds(KnownRefPart, c, ApplyCaller(s, ClearPool))
  {
    assert Holds(KnownRefPart, c, s) && Holds(KnownItemPart, c, s);
    forall r | r in Refs(s.pool) ensures r in s.published {
      RefsMember(s.pool, r);
    }
  }

  lemma StorePopulationKeeps(c: Config, s: State, id: nat)
    requires Inv(c, s)
    ensures Inv(c, ApplyCaller(s, StorePopulation(id)))
  {
    var t := ApplyCaller(s, StorePopulation(id));
    forall p: Part ensures Holds(p, c, t) {
      Frame(p, c, s, t);
    }
  }

  /** Users copying and destroying references they hold, and references destroyed on the pool's behalf. */
  lemma ReferenceKeeps(c: Config, s: State, step: CallerStep)
    requires Inv(c, s) && CallerEnabled(s, step) && (step.UserCopy? || step.UserRelease? || step.Dispose?)
    ensures Inv(c, ApplyCaller(s, step))
  {
    var t := ApplyCaller(s, step);
    assert t == s.(users := t.users, counts := t.counts, disposing := t.disposing);
    forall p: Part ensures Holds(p, c, t) {
      match p {
        case CountPart => ReferenceCounts(c, s, step);
        case SectionPart => assert Holds(SectionPart, c, s);
        case KnownRefPart => assert Holds(KnownRefPart, c, s);
        case _ => Frame(p, c, s, t);
      }
    }
  }

  lemma ReferenceCounts(c: Config, s: State, step: CallerStep)
    requires Inv(c, s) && CallerEnabled(s, step) && (step.UserCopy? || step.UserRelease? || step.Dispose?)
    ensures Holds(CountPart, c, ApplyCaller(s, step))
  {
    assert Holds(CountPart, c, s);
    var pooled, keeper, health := Refs(s.pool), KeeperRefs(s.keeper), HealthRefs(s.health);
    match step
    case UserCopy(r) => CountedCopy(s.counts, pooled, s.users, s.disposing, s.made, keeper, health, r);
    case UserRelease(r) => CountedRelease(s.counts, pooled, s.users, s.disposing, s.made, keeper, health, r);
    case Dispose(r) => CountedDispose(s.counts, pooled, s.users, s.disposing, s.made, keeper, health, r);
  }

  lemma CallerKeeps(c: Config, s: State, step: CallerStep)
    requires Inv(c, s) && CallerEnabled(s, step)
    ensures Inv(c, ApplyCaller(s, step))
  {
    match step
    case ClearPool => ClearPoolKeeps(c, s);
    case Erase(r) => EraseKeeps(c, s, r);
    case StorePopulation(id) => StorePopulationKeeps(c, s, id);
    case UserCopy(_) => ReferenceKeeps(c, s, step);
    case UserRelease(_) => ReferenceKeeps(c, s, step);
    case Dispose(_) => ReferenceKeeps(c, s, step);
  }

  lemma StepKeeps(c: Config, s: State, step: Step)
    requires Inv(c, s) && Enabled(c, s, step)
    ensures Inv(c, Apply(c, s, step))
  {
    match step
    case Get(g) => GetKeeps(c, s, g);
    case Keeper(k) => KeeperKeeps(c, s, k);
    case Health(h) => HealthKeeps(c, s, h);
    case Caller(u) => CallerKeeps(c, s, u);
  }

  lemma {:induction false} RunKeeps(c: Config, s: State, steps: seq<Step>)
    requires Inv(c, s) && Runs(c, s, steps)
    ensures Inv(c, Exec(c, s, steps))
    decreases |steps|
  {
    if steps != [] {
      StepKeeps(c, s, steps[0]);
      RunKeeps(c, Apply(c, s, steps[0]), steps[1..]);
    }
  }

  lemma ReachableInv(c: Config, s: State)
    requires Reachable(c, s)
    ensures Inv(c, s)
  {
    var steps :| Runs(c, INITIAL, steps) && Exec(c, INITIAL, steps) == s;
    InitialInv(c);
    RunKeeps(c, INITIAL, steps);
  }
}
