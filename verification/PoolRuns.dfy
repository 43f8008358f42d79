/** Concrete runs: where the pool does less than one might expect of it. */
module PoolRuns {
  import opened PoolItems
  import opened PoolMachine
  import opened PoolInvariant
  import opened PoolPreservation
  import opened PoolSafety

  lemma ReachTo(c: Config, s: State, step: Step, t: State)
    requires Reachable(c, s) && Enabled(c, s, step) && Apply(c, s, step) == t
    ensures Reachable(c, t)
  {
    ReachStep(c, s, step);
  }

  /** A `get` on the empty pool has asked for the first creation. */
  const ASKED := INITIAL.(waiting := map[0 := 0], next := 1, log := [Requested(0)])

  /** It has been handed out and pooled. */
  const ONE_USED := INITIAL.(pool := [Item(true, 0)], counts := multiset{0, 0}, users := multiset{0}, published := {0},
                             next := 1, log := [Requested(0), HandedOut(0)])

  const ONE_FREE := ONE_USED.(counts := multiset{0}, users := multiset{})

  lemma AskedIsReachable(c: Config)
    requires !c.invalidateOnAccess
    ensures Reachable(c, ASKED)
  {
    assert Runs(c, INITIAL, []) && Exec(c, INITIAL, []) == INITIAL;
    var s1 := INITIAL.(mutex := Searching(0, 0));
    ReachTo(c, INITIAL, Get(GetLock), s1);
    var s2 := INITIAL.(missed := multiset{0});
    ReachTo(c, s1, Get(GetMiss), s2);
    ReachTo(c, s2, Get(GetRequest(0)), ASKED);
  }

  lemma OneUsedIsReachable(c: Config)
    requires !c.invalidateOnAccess
    ensures Reachable(c, ONE_USED) && Reachable(c, ONE_FREE)
  {
    AskedIsReachable(c);
    var s := ASKED.(waiting := map[], made := map[0 := 0], counts := multiset{0});
    ReachTo(c, ASKED, Get(GetMade(0)), s);
    ReachTo(c, s, Get(GetCompare(0)), s.(mutex := Appending(0, true)));
    ReachTo(c, s.(mutex := Appending(0, true)), Get(GetAppend(0)), ONE_USED);
    ReachTo(c, ONE_USED, Caller(UserRelease(0)), ONE_FREE);
  }

  // ---- the wrap-around search ----

  const TWO_USED := ONE_USED.(pool := [Item(true, 0), Item(true, 1)], poolIndex := 1, counts := multiset{0, 0, 1, 1},
                              users := multiset{0, 1}, published := {0, 1}, next := 2,
                              log := [Requested(0), HandedOut(0), Requested(1), HandedOut(1)])

  lemma TwoUsedIsReachable(c: Config)
    requires !c.invalidateOnAccess
    ensures Reachable(c, TWO_USED)
  {
    OneUsedIsReachable(c);
    var s1 := ONE_USED.(mutex := Searching(0, 0));
    ReachTo(c, ONE_USED, Get(GetLock), s1);
    var s2 := ONE_USED.(mutex := Searching(0, 1));
    ReachTo(c, s1, Get(GetTest), s2);
    var s3 := ONE_USED.(missed := multiset{0});
    ReachTo(c, s2, Get(GetMiss), s3);
    TwoUsedFollows(c);
  }

  lemma TwoUsedFollows(c: Config)
    requires !c.invalidateOnAccess
    ensures Reachable(c, ONE_USED.(missed := multiset{0})) ==> Reachable(c, TWO_USED)
  {
    var s3 := ONE_USED.(missed := multiset{0});
    if Reachable(c, s3) {
      var s4 := ONE_USED.(waiting := map[1 := 0], next := 2, log := ONE_USED.log + [Requested(1)]);
      ReachTo(c, s3, Get(GetRequest(0)), s4);
      var s5 := s4.(waiting := map[], made := map[1 := 0], counts := multiset{0, 0, 1});
      ReachTo(c, s4, Get(GetMade(1)), s5);
      SecondArrives(c, s5);
    }
  }

  lemma SecondArrives(c: Config, s: State)
    requires !c.invalidateOnAccess
    requires Reachable(c, s)
    requires s == ONE_USED.(made := map[1 := 0], counts := multiset{0, 0, 1}, next := 2,
                            log := ONE_USED.log + [Requested(1)])
    ensures Reachable(c, TWO_USED)
  {
    assert s.log + [HandedOut(1)] == TWO_USED.log;
    assert s.pool + [Item(true, 1)] == TWO_USED.pool;
    assert s.made - {1} == map[];
    ReachTo(c, s, Get(GetCompare(1)), s.(mutex := Appending(1, true)));
    ReachTo(c, s.(mutex := Appending(1, true)), Get(GetAppend(1)), TWO_USED);
  }

  lemma FirstOfTwoIsFree(c: Config)
    requires !c.invalidateOnAccess
    ensures Reachable(c, TWO_USED.(counts := multiset{0, 1, 1}, users := multiset{1}))
  {
    TwoUsedIsReachable(c);
    ReachTo(c, TWO_USED, Caller(UserRelease(0)), TWO_USED.(counts := multiset{0, 1, 1}, users := multiset{1}));
  }

  /** A `get` may go on to create although the pool has an available item before the index: the items
      there are searched, but what that search finds is thrown away. */
  lemma GetMayCreateNeedlessly(c: Config)
    requires !c.invalidateOnAccess
    ensures exists s, k: nat ::
              && Reachable(c, s) && GetEnabled(s, GetMiss)
              && k < s.poolIndex < |s.pool| && IsAvailable(s.counts, s.pool[k])
  {
    FirstOfTwoIsFree(c);
    var s1 := TWO_USED.(counts := multiset{0, 1, 1}, users := multiset{1});
    var s2 := s1.(mutex := Searching(0, 1));
    ReachTo(c, s1, Get(GetLock), s2);
    var s3 := s1.(mutex := Searching(0, 2));
    ReachTo(c, s2, Get(GetTest), s3);
    assert IsAvailable(s3.counts, s3.pool[0]);
  }

  /** Nor need the item lie before the index: it may be released after its own test. */
  lemma GetMayMissWhatIsReleased(c: Config)
    requires !c.invalidateOnAccess
    ensures exists s, k: nat ::
              && Reachable(c, s) && GetEnabled(s, GetMiss)
              && s.poolIndex == 0 && k < |s.pool| && IsAvailable(s.counts, s.pool[k])
  {
    OneUsedIsReachable(c);
    var s1 := ONE_USED.(mutex := Searching(0, 0));
    ReachTo(c, ONE_USED, Get(GetLock), s1);
    var s2 := ONE_USED.(mutex := Searching(0, 1));
    ReachTo(c, s1, Get(GetTest), s2);
    var s3 := ONE_FREE.(mutex := Searching(0, 1));
    ReachTo(c, s2, Caller(UserRelease(0)), s3);
    assert IsAvailable(s3.counts, s3.pool[0]);
  }

  // ---- hand-outs without invalidation ----

  /** Without invalidation on access a resource may be handed out twice with no check in between. */
  lemma PlainPoolsDoNotRecheck(c: Config)
    requires !c.invalidateOnAccess
    ensures exists s :: Reachable(c, s) && s.log == [Requested(0), HandedOut(0), HandedOut(0)]
  {
    OneUsedIsReachable(c);
    var s1 := ONE_FREE.(mutex := Searching(0, 0));
    ReachTo(c, ONE_FREE, Get(GetLock), s1);
    var s2 := ONE_FREE.(mutex := Selected(0));
    ReachTo(c, s1, Get(GetTest), s2);
    var s3 := ONE_USED.(log := [Requested(0), HandedOut(0), HandedOut(0)]);
    ReachTo(c, s2, Get(GetTake), s3);
  }

  /** Every hand-out after the first is preceded by a check that began after the hand-out before it, in all
      runs, exactly when access invalidates. */
  lemma RecheckedIff(c: Config)
    ensures c.invalidateOnAccess <==> forall s | Reachable(c, s) :: Rechecked(s.log)
  {
    if c.invalidateOnAccess {
      forall s | Reachable(c, s) ensures Rechecked(s.log) {
        ReachableInv(c, s);
        assert Holds(RecheckPart, c, s);
      }
    } else {
      PlainPoolsDoNotRecheck(c);
      var s :| Reachable(c, s) && s.log == [Requested(0), HandedOut(0), HandedOut(0)];
      assert s.log[1] == s.log[2] == HandedOut(0);
      assert !CheckedBetween(s.log, 0, 1, 2);
    }
  }

  // ---- health checks that meet a user ----

  const SNAPPED := ONE_FREE.(health := Working([Item(true, 0)], [], [], [], 0))

  lemma SnappedIsReachable(c: Config)
    requires !c.invalidateOnAccess
    ensures Reachable(c, SNAPPED)
  {
    OneUsedIsReachable(c);
    var s1 := ONE_FREE.(mutex := Snapshotting(0, []), health := InSnapshot);
    ReachTo(c, ONE_FREE, Health(SnapshotLock), s1);
    var s2 := ONE_FREE.(mutex := Snapshotting(1, [Item(true, 0)]), health := InSnapshot);
    assert [] + [Item(true, 0)] == [Item(true, 0)];
    ReachTo(c, s1, Health(SnapshotTest), s2);
    ReachTo(c, s2, Health(SnapshotUnlock), SNAPPED);
  }

  /** The health job has locked the resource and its check is running. */
  const CHECKING := ONE_FREE.(health := Working([], [], [Item(true, 0)], [2], 0), counts := multiset{0, 0, 0},
                              log := ONE_FREE.log + [CheckBegan(0)])

  lemma CheckingFollows(c: Config, mutex: Mutex)
    requires !c.invalidateOnAccess
    requires Reachable(c, SNAPPED.(mutex := mutex))
    ensures Reachable(c, CHECKING.(mutex := mutex))
  {
    var s0 := SNAPPED.(mutex := mutex);
    var x := Item(true, 0);
    assert [x][1..] == [] && [] + [x] == [x] && [] + [2] == [2];
    var s1 := s0.(health := Working([], [Item(true, 0)], [], [], 0), counts := multiset{0, 0});
    ReachTo(c, s0, Health(Probe), s1);
    var s2 := s1.(health := Working([], [], [Item(true, 0)], [], 0));
    ReachTo(c, s1, Health(Decide), s2);
    ReachTo(c, s2, Health(Begin), CHECKING.(mutex := mutex));
  }

  /** A `get` that tested an item before the weak lock took it hands it out while it is being checked. */
  lemma UserMayMeetCheck(c: Config)
    requires !c.invalidateOnAccess
    ensures exists s :: Reachable(c, s) && 0 in s.users && s.health == CHECKING.health
  {
    SnappedIsReachable(c);
    var s1 := SNAPPED.(mutex := Searching(0, 0));
    ReachTo(c, SNAPPED, Get(GetLock), s1);
    var s2 := SNAPPED.(mutex := Selected(0));
    ReachTo(c, s1, Get(GetTest), s2);
    CheckingFollows(c, Selected(0));
    var s3 := CHECKING.(counts := multiset{0, 0, 0, 0}, users := multiset{0}, log := CHECKING.log + [HandedOut(0)]);
    ReachTo(c, CHECKING.(mutex := Selected(0)), Get(GetTake), s3);
  }

  lemma CheckingIsReachable(c: Config)
    requires !c.invalidateOnAccess
    ensures Reachable(c, CHECKING) && Refs(CHECKING.pool) == multiset{0}
  {
    SnappedIsReachable(c);
    assert SNAPPED.(mutex := Free) == SNAPPED;
    CheckingFollows(c, Free);
    assert CHECKING.(mutex := Free) == CHECKING;
    RefsOne(CHECKING.pool);
  }

  /** A check may end unhealthy when the item it would erase has left the pool: the pool has been cleared
      or somebody else has erased the item. */
  lemma EraseMayFindNothing(c: Config)
    requires !c.invalidateOnAccess
    ensures Reachable(c, CHECKING) && HealthEnabled(c, CHECKING, Judge(Unhealthy))
    ensures forall call | call == ClearPool || call == Erase(0) ::
              && CallerEnabled(CHECKING, call)
              && var s := ApplyCaller(CHECKING, call);
                 && Reachable(c, s) && s.mutex.Free? && s.health == CHECKING.health && s.pool == []
                 && !HealthEnabled(c, s, Judge(Unhealthy))
  {
    CheckingIsReachable(c);
    assert IndexOf(CHECKING.pool, 0) == 0;
    ReachStep(c, CHECKING, Caller(ClearPool));
    ReachStep(c, CHECKING, Caller(Erase(0)));
  }

  // ---- clearing without a new population ----

  /** Clearing alone does not keep creations already under way out of the pool. */
  lemma ClearAloneIsNotEnough(c: Config)
    requires !c.invalidateOnAccess
    ensures exists s, after ::
              && Reachable(c, s) && Enabled(c, s, Caller(ClearPool)) && 0 < s.next
              && var cleared := Apply(c, s, Caller(ClearPool));
                 Runs(c, cleared, after) && Item(true, 0) in Exec(c, cleared, after).pool
  {
    AskedIsReachable(c);
    assert Apply(c, ASKED, Caller(ClearPool)) == ASKED;
    ArrivalRuns(c, ASKED);
  }

  /** The creation that was asked for arrives and is pooled. */
  lemma ArrivalRuns(c: Config, s: State)
    requires !c.invalidateOnAccess
    requires s.(ids := {0}) == ASKED
    ensures var after := [Get(GetMade(0)), Get(GetCompare(0)), Get(GetAppend(0))];
            Runs(c, s, after) && Item(true, 0) in Exec(c, s, after).pool
  {
    var after := [Get(GetMade(0)), Get(GetCompare(0)), Get(GetAppend(0))];
    var s1 := Apply(c, s, after[0]);
    var s2 := Apply(c, s1, after[1]);
    var s3 := Apply(c, s2, after[2]);
    assert after[1..] == [after[1], after[2]] && after[1..][1..] == [after[2]] && after[1..][1..][1..] == [];
    assert Runs(c, s3, []) && Exec(c, s3, []) == s3;
    assert Runs(c, s2, [after[2]]) && Exec(c, s2, [after[2]]) == s3;
    assert Runs(c, s1, [after[1], after[2]]) && Exec(c, s1, [after[1], after[2]]) == s3;
    assert s3.pool == [Item(true, 0)] && s3.pool[0] in s3.pool;
  }

  /** Nor is storing alone: a `get` that has compared the ids already appends what it asked for before. */
  lemma StoreAloneIsNotEnough(c: Config)
    requires !c.invalidateOnAccess
    ensures exists s :: Reachable(c, s) && 1 !in s.ids && s.pool == [] && 0 < s.next
              && var stored := Apply(c, s, Caller(StorePopulation(1)));
                 Enabled(c, stored, Get(GetAppend(0))) && Item(true, 0) in Apply(c, stored, Get(GetAppend(0))).pool
  {
    AskedIsReachable(c);
    var s1 := ASKED.(waiting := map[], made := map[0 := 0], counts := multiset{0});
    ReachTo(c, ASKED, Get(GetMade(0)), s1);
    var s2 := s1.(mutex := Appending(0, true));
    ReachTo(c, s1, Get(GetCompare(0)), s2);
    var stored := Apply(c, s2, Caller(StorePopulation(1)));
    assert Apply(c, stored, Get(GetAppend(0))).pool == [] + [Item(true, 0)];
  }

  /** Nor is it enough to store a new id and clear, if an earlier id is stored again. */
  lemma RestoringAnIdLetsOldOnesIn(c: Config)
    requires !c.invalidateOnAccess
    ensures exists s, after ::
              && Reachable(c, s) && 0 < s.next && 1 !in s.ids
              && Enabled(c, Apply(c, s, Caller(StorePopulation(1))), Caller(ClearPool))
              && var stored := Apply(c, s, Caller(StorePopulation(1)));
                 var restored := Apply(c, Apply(c, stored, Caller(ClearPool)), Caller(StorePopulation(0)));
                 Runs(c, restored, after) && Item(true, 0) in Exec(c, restored, after).pool
  {
    AskedIsReachable(c);
    var stored := Apply(c, ASKED, Caller(StorePopulation(1)));
    var restored := Apply(c, Apply(c, stored, Caller(ClearPool)), Caller(StorePopulation(0)));
    assert restored == ASKED.(ids := {0, 1});
    ArrivalRuns(c, restored);
  }
}
