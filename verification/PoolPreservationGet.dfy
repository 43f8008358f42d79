/** Every step of a `get` call keeps the invariant. */
module PoolPreservationGet {
  import opened PoolItems
  import opened PoolMachine
  import opened PoolInvariant

  /** A pooled resource whose strong count reads 1 is held by nobody but the pool. */
  lemma UnusedIsPoolOnly(c: Config, s: State, at: nat)
    requires Inv(c, s) && at < |s.pool| && !IsUsed(s.counts, s.pool[at])
    ensures s.pool[at].resource !in s.users
    ensures s.pool[at].resource !in s.disposing
    ensures s.pool[at].resource !in HealthRefs(s.health)
  {
    assert Holds(CountPart, c, s);
    var r := s.pool[at].resource;
    RefsSplit(s.pool, at);
    CountedOne(s.counts, Refs(s.pool), s.users, s.disposing, s.made, KeeperRefs(s.keeper), HealthRefs(s.health), r);
  }

  lemma GetLockKeeps(c: Config, s: State)
    requires Inv(c, s) && GetEnabled(s, GetLock)
    ensures Inv(c, ApplyGet(c, s, GetLock))
  {
    var t := ApplyGet(c, s, GetLock);
    forall p: Part ensures Holds(p, c, t) {
      match p {
        case SectionPart => assert Holds(ShapePart, c, s);
        case JobPart => assert Holds(JobPart, c, s);
        case _ => Frame(p, c, s, t);
      }
    }
  }

  lemma GetTestKeeps(c: Config, s: State)
    requires Inv(c, s) && GetEnabled(s, GetTest)
    ensures Inv(c, ApplyGet(c, s, GetTest))
  {
    var t := ApplyGet(c, s, GetTest);
    forall p: Part ensures Holds(p, c, t) {
      match p {
        case SectionPart =>
          if !IsUsed(s.counts, s.pool[s.mutex.at]) {
            UnusedIsPoolOnly(c, s, s.mutex.at);
          }
        case JobPart => assert Holds(JobPart, c, s);
        case _ => Frame(p, c, s, t);
      }
    }
  }

  /** The pool after one of its flags has been cleared. */
  lemma FlagCleared(pool: seq<Item>, pending: seq<Item>, at: nat)
    requires Distinct(pool) && StaleInvalid(pool, pending) && at < |pool|
    ensures var cleared := pool[at := pool[at].(valid := false)];
            && StaleInvalid(cleared, pending) && InvalidIn(cleared, pool[at].resource)
            && forall y | y in cleared && y.valid :: y in pool
  {
    var cleared := pool[at := pool[at].(valid := false)];
    assert forall y | y in cleared :: y in pool || y == cleared[at];
    forall x | x in pending && !x.valid ensures InvalidIn(cleared, x.resource) {
      assert InvalidIn(pool, x.resource);
    }
  }

  lemma GetTakePool(p: Part, c: Config, s: State)
    requires Inv(c, s) && GetEnabled(s, GetTake) && OfPool(p)
    ensures Holds(p, c, ApplyGet(c, s, GetTake))
  {
    assert Holds(p, c, s);
    RefsFlag(s.pool, s.mutex.at, false);
  }

  lemma GetTakeThreads(p: Part, c: Config, s: State)
    requires Inv(c, s) && GetEnabled(s, GetTake) && OfThreads(p)
    ensures Holds(p, c, ApplyGet(c, s, GetTake))
  {
    assert Holds(p, c, s);
  }

  lemma GetTakeOrigin(p: Part, c: Config, s: State)
    requires Inv(c, s) && GetEnabled(s, GetTake) && OfOrigin(p)
    ensures Holds(p, c, ApplyGet(c, s, GetTake))
  {
    assert Holds(p, c, s) && Holds(KnownItemPart, c, s);
    assert s.pool[s.mutex.at] in s.pool;
  }

  lemma GetTakeLog(p: Part, c: Config, s: State)
    requires Inv(c, s) && GetEnabled(s, GetTake) && OfLog(p)
    ensures Holds(p, c, ApplyGet(c, s, GetTake))
  {
    assert Holds(KnownItemPart, c, s);
    assert s.pool[s.mutex.at] in s.pool;
    LogFrame(p, c, s, ApplyGet(c, s, GetTake), HandedOut(s.pool[s.mutex.at].resource));
  }

  lemma GetTakeHistory(p: Part, c: Config, s: State)
    requires Inv(c, s) && GetEnabled(s, GetTake) && OfHistory(p)
    ensures Holds(p, c, ApplyGet(c, s, GetTake))
  {
    if c.invalidateOnAccess {
      var at := s.mutex.at;
      var r := s.pool[at].resource;
      var cleared := s.pool[at := s.pool[at].(valid := false)];
      assert Holds(SectionPart, c, s) && Holds(ShapePart, c, s);
      assert Holds(StaleFlagPart, c, s) && Holds(SettledPart, c, s);
      FlagCleared(s.pool, Pending(s.mutex, s.health), at);
      assert s.pool[at] in s.pool;
      match p {
        case RecheckPart =>
          assert Holds(RecheckPart, c, s);
          RecheckedGrows(s.log, HandedOut(r));
        case SettledPart =>
          ValidSettledGrows(cleared, s.log, HandedOut(r));
        case StaleFlagPart =>
        case StaleOrderPart =>
          assert Holds(StaleOrderPart, c, s);
          PendingValid(c, s, at);
          StaleHandedOutGrows(s.health, s.log, HandedOut(r));
      }
    }
  }

  lemma GetTakeKeeps(c: Config, s: State)
    requires Inv(c, s) && GetEnabled(s, GetTake)
    ensures Inv(c, ApplyGet(c, s, GetTake))
  {
    forall p: Part ensures Holds(p, c, ApplyGet(c, s, GetTake)) {
      if OfPool(p) { GetTakePool(p, c, s); }
      else if OfThreads(p) { GetTakeThreads(p, c, s); }
      else if OfHistory(p) { GetTakeHistory(p, c, s); }
      else if OfLog(p) { GetTakeLog(p, c, s); }
      else { GetTakeOrigin(p, c, s); }
    }
  }

  /** A check of an item that was invalid at the snapshot is not a check of a valid item of the pool. */
  lemma PendingValid(c: Config, s: State, at: nat)
    requires Inv(c, s) && c.invalidateOnAccess && !s.mutex.Snapshotting? && at < |s.pool| && s.pool[at].valid
    ensures s.health.Working? ==>
              forall k | s.health.judged <= k < |s.health.beganAt| && k < |s.health.locked|
                         && !s.health.locked[k].valid ::
                s.health.locked[k].resource != s.pool[at].resource
  {
    assert Holds(StaleFlagPart, c, s) && Holds(CheckPart, c, s);
    if s.health.Working? {
      var h := s.health;
      forall k | h.judged <= k < |h.beganAt| && k < |h.locked| && !h.locked[k].valid
        ensures h.locked[k].resource != s.pool[at].resource
      {
        assert h.locked[k] == h.locked[h.judged..][k - h.judged];
        assert h.locked[k] in Pending(s.mutex, h);
        assert InvalidIn(s.pool, h.locked[k].resource);
        assert s.pool[at] in s.pool;
      }
    }
  }

  lemma GetMissKeeps(c: Config, s: State)
    requires Inv(c, s) && GetEnabled(s, GetMiss)
    ensures Inv(c, ApplyGet(c, s, GetMiss))
  {
    var t := ApplyGet(c, s, GetMiss);
    forall p: Part ensures Holds(p, c, t) {
      match p {
        case SectionPart =>
        case JobPart => assert Holds(JobPart, c, s);
        case _ => Frame(p, c, s, t);
      }
    }
  }

  /** An event that hands out nothing keeps the history. */
  lemma QuietHistory(p: Part, c: Config, s: State, t: State, e: Event)
    requires Inv(c, s) && OfHistory(p) && !e.HandedOut?
    requires t.log == s.log + [e] && t.pool == s.pool && t.health == s.health && t.mutex == s.mutex
    ensures Holds(p, c, t)
  {
    assert Holds(p, c, s);
    if c.invalidateOnAccess {
      match p {
        case RecheckPart => RecheckedGrows(s.log, e);
        case SettledPart => ValidSettledGrows(s.pool, s.log, e);
        case StaleFlagPart =>
        case StaleOrderPart => StaleHandedOutGrows(s.health, s.log, e);
      }
    }
  }

  lemma GetRequestKeeps(c: Config, s: State, population: nat)
    requires Inv(c, s) && GetEnabled(s, GetRequest(population))
    ensures Inv(c, ApplyGet(c, s, GetRequest(population)))
  {
    var t := ApplyGet(c, s, GetRequest(population));
    forall p: Part ensures Holds(p, c, t) {
      if OfHistory(p) { QuietHistory(p, c, s, t, Requested(s.next)); }
      else if OfLog(p) { LogFrame(p, c, s, t, Requested(s.next)); }
      else if p == OwnerPart { assert Holds(OwnerPart, c, s); }
      else { Frame(p, c, s, t); }
    }
  }

  lemma GetMadeKeeps(c: Config, s: State, r: Resource)
    requires Inv(c, s) && GetEnabled(s, GetMade(r))
    ensures Inv(c, ApplyGet(c, s, GetMade(r)))
  {
    var t := ApplyGet(c, s, GetMade(r));
    assert Holds(OwnerPart, c, s);
    forall p: Part ensures Holds(p, c, t) {
      match p {
        case CountPart => GetMadeCounts(c, s, r);
        case SectionPart => assert Holds(SectionPart, c, s);
        case OwnerPart =>
        case _ => Frame(p, c, s, t);
      }
    }
  }

  lemma GetMadeCounts(c: Config, s: State, r: Resource)
    requires Inv(c, s) && GetEnabled(s, GetMade(r))
    ensures Holds(CountPart, c, ApplyGet(c, s, GetMade(r)))
  {
    assert Holds(CountPart, c, s) && Holds(OwnerPart, c, s);
    CountedMade(s.counts, Refs(s.pool), s.users, s.disposing, s.made, KeeperRefs(s.keeper), HealthRefs(s.health),
                r, s.waiting[r]);
  }

  lemma GetFailedKeeps(c: Config, s: State, r: Resource)
    requires Inv(c, s) && GetEnabled(s, GetFailed(r))
    ensures Inv(c, ApplyGet(c, s, GetFailed(r)))
  {
    var t := ApplyGet(c, s, GetFailed(r));
    forall p: Part ensures Holds(p, c, t) {
      match p {
        case OwnerPart => assert Holds(OwnerPart, c, s);
        case _ => Frame(p, c, s, t);
      }
    }
  }

  lemma GetCompareKeeps(c: Config, s: State, r: Resource)
    requires Inv(c, s) && GetEnabled(s, GetCompare(r))
    ensures Inv(c, ApplyGet(c, s, GetCompare(r)))
  {
    var t := ApplyGet(c, s, GetCompare(r));
    forall p: Part ensures Holds(p, c, t) {
      match p {
        case SectionPart =>
        case JobPart => assert Holds(JobPart, c, s);
        case _ => Frame(p, c, s, t);
      }
    }
  }

  lemma GetAppendShape(c: Config, s: State, r: Resource)
    requires Inv(c, s) && GetEnabled(s, GetAppend(r))
    ensures Holds(ShapePart, c, ApplyGet(c, s, GetAppend(r)))
  {
    assert Holds(ShapePart, c, s);
    NotPublished(c, s, r);
  }

  lemma GetAppendCounts(c: Config, s: State, r: Resource)
    requires Inv(c, s) && GetEnabled(s, GetAppend(r))
    ensures Holds(CountPart, c, ApplyGet(c, s, GetAppend(r)))
  {
    var t := ApplyGet(c, s, GetAppend(r));
    RefsSnoc(s.pool, Item(!c.invalidateOnAccess, r));
    assert Holds(CountPart, c, s);
    var pooled, keeper, health := Refs(s.pool), KeeperRefs(s.keeper), HealthRefs(s.health);
    CountedReturn(s.counts, pooled, s.users, s.disposing, s.made, keeper, health, r);
    if s.mutex.same {
      CountedPool(s.counts, pooled, s.users + multiset{r}, s.disposing, s.made - {r}, keeper, health, r);
    }
  }

  /** A call hands its reference to its caller. */
  lemma CountedReturn(counts: multiset<Resource>, pooled: multiset<Resource>, users: multiset<Resource>,
                      disposing: multiset<Resource>,
                      made: map<Resource, nat>, keeper: multiset<Resource>, health: multiset<Resource>, r: Resource)
    requires Counted(counts, pooled, users, disposing, made, keeper, health) && r in made
    ensures Counted(counts, pooled, users + multiset{r}, disposing, made - {r}, keeper, health)
  {
  }

  /** The pool takes a reference of its own. */
  lemma CountedPool(counts: multiset<Resource>, pooled: multiset<Resource>, users: multiset<Resource>,
                    disposing: multiset<Resource>,
                    made: map<Resource, nat>, keeper: multiset<Resource>, health: multiset<Resource>, r: Resource)
    requires Counted(counts, pooled, users, disposing, made, keeper, health)
    ensures Counted(counts + multiset{r}, pooled + multiset{r}, users, disposing, made, keeper, health)
  {
  }

  lemma GetAppendOrigin(p: Part, c: Config, s: State, r: Resource)
    requires Inv(c, s) && GetEnabled(s, GetAppend(r)) && !OfPool(p) && !OfHistory(p)
    ensures Holds(p, c, ApplyGet(c, s, GetAppend(r)))
  {
    var t := ApplyGet(c, s, GetAppend(r));
    assert Holds(p, c, s) && Holds(OwnerPart, c, s);
    if OfLog(p) {
      LogFrame(p, c, s, t, HandedOut(r));
    }
  }

  lemma GetAppendHistory(p: Part, c: Config, s: State, r: Resource)
    requires Inv(c, s) && GetEnabled(s, GetAppend(r)) && OfHistory(p)
    ensures Holds(p, c, ApplyGet(c, s, GetAppend(r)))
  {
    assert Holds(p, c, s);
    if c.invalidateOnAccess {
      var t := ApplyGet(c, s, GetAppend(r));
      NotPublished(c, s, r);
      match p {
        case RecheckPart => RecheckedGrows(s.log, HandedOut(r));
        case SettledPart =>
          ValidSettledGrows(s.pool, s.log, HandedOut(r));
          assert forall y | y in t.pool && y.valid :: y in s.pool;
        case StaleFlagPart =>
          assert forall y | y in t.pool && y.valid :: y in s.pool;
        case StaleOrderPart => StaleHandedOutGrows(s.health, s.log, HandedOut(r));
      }
    }
  }

  /** A creation still held by its call is nowhere in the pool, the history or the jobs. */
  lemma NotPublished(c: Config, s: State, r: Resource)
    requires Inv(c, s) && (r in s.made || r in KeeperOwned(s.keeper))
    ensures Settled(s.log, r) && InvalidIn(s.pool, r)
    ensures forall x | x in s.pool || x in Pending(s.mutex, s.health) || x in Locked(s.health) :: x.resource != r
  {
    assert Holds(OwnerPart, c, s) && Holds(KnownItemPart, c, s) && Holds(KnownEventPart, c, s);
    assert forall e | e in s.log && e.HandedOut? :: e.resource != r;
    assert forall i | 0 <= i < |s.log| :: s.log[i] in s.log;
  }

  lemma GetAppendKeeps(c: Config, s: State, r: Resource)
    requires Inv(c, s) && GetEnabled(s, GetAppend(r))
    ensures Inv(c, ApplyGet(c, s, GetAppend(r)))
  {
    forall p: Part ensures Holds(p, c, ApplyGet(c, s, GetAppend(r))) {
      if p == ShapePart { GetAppendShape(c, s, r); }
      else if p == CountPart { GetAppendCounts(c, s, r); }
      else if OfHistory(p) { GetAppendHistory(p, c, s, r); }
      else { GetAppendOrigin(p, c, s, r); }
    }
  }

  lemma GetKeeps(c: Config, s: State, step: GetStep)
    requires Inv(c, s) && GetEnabled(s, step)
    ensures Inv(c, ApplyGet(c, s, step))
  {
    match step
    case GetLock => GetLockKeeps(c, s);
    case GetTest => GetTestKeeps(c, s);
    case GetTake => GetTakeKeeps(c, s);
    case GetMiss => GetMissKeeps(c, s);
    case GetRequest(population) => GetRequestKeeps(c, s, population);
    case GetMade(r) => GetMadeKeeps(c, s, r);
    case GetFailed(r) => GetFailedKeeps(c, s, r);
    case GetCompare(r) => GetCompareKeeps(c, s, r);
    case GetAppend(r) => GetAppendKeeps(c, s, r);
  }
}
