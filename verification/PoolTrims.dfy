/** What a keeper trim does to the pool while counts change under it. */
module PoolTrims {
  import opened PoolItems
  import opened PoolMachine
  import opened PoolInvariant
  import opened PoolMembership
  import opened PoolPreservation
  import opened PoolPreservationGet
  import opened PoolPreservationKeeper
  import opened PoolSafety
  import opened PoolSpec

  /** A run during which the keeper stays inside its removal passes. */
  predicate TrimmingThroughout(c: Config, s: State, steps: seq<Step>)
    requires Runs(c, s, steps)
    decreases |steps|
  {
    s.mutex.Trimming? && (steps != [] ==> TrimmingThroughout(c, Apply(c, s, steps[0]), steps[1..]))
  }

  lemma {:induction false} WithoutIsSubsequence(items: seq<Item>, at: nat)
    requires at < |items|
    ensures Subsequence(Without(items, at), items)
    decreases |items|
  {
    var front, last := items[..|items| - 1], items[|items| - 1];
    SubsequenceSelf(front);
    if at == |front| {
      assert Without(items, at) == front;
    } else {
      WithoutIsSubsequence(front, at);
      assert Without(items, at) == Without(front, at) + [last];
      assert (Without(front, at) + [last])[..|front| - 1] == Without(front, at);
    }
  }

  lemma {:induction false} SubsequenceSelf(items: seq<Item>)
    ensures Subsequence(items, items)
  {
    if items != [] {
      SubsequenceSelf(items[..|items| - 1]);
    }
  }

  /** A step in the middle of a trim. */
  ghost predicate TrimmedTo(s: State, t: State) {
    && (t.pool == s.pool || (DropsNext(s) && t.pool == Without(s.pool, s.mutex.at)))
    && (s.mutex.Trimming? && t.mutex.Trimming? ==>
          |t.pool| + s.mutex.toRemove == |s.pool| + t.mutex.toRemove && t.mutex.toRemove <= s.mutex.toRemove)
    && (t.pool != s.pool ==> s.mutex.Trimming?)
  }

  lemma KeeperTrims(c: Config, s: State, step: KeeperStep)
    requires KeeperEnabled(s, step) && s.mutex.Trimming?
    ensures TrimmedTo(s, ApplyKeeper(c, s, step))
    ensures ApplyKeeper(c, s, step).pool != s.pool ==> step == TrimTest
  {
    match step case TrimTest => case _ =>
  }

  /** In the middle of a trim only its own tests touch the pool; each removal is counted. */
  lemma TrimStep(c: Config, s: State, step: Step)
    requires Enabled(c, s, step) && s.mutex.Trimming?
    ensures TrimmedTo(s, Apply(c, s, step))
    ensures Apply(c, s, step).pool != s.pool ==> step == Keeper(TrimTest)
  {
    match step
    case Get(g) => GetKeepsPool(c, s, g);
    case Keeper(k) => KeeperTrims(c, s, k);
    case Health(h) => HealthKeepsPool(c, s, h); HealthKeepsTrim(c, s, h);
    case Caller(_) =>
  }

  lemma HealthKeepsTrim(c: Config, s: State, step: HealthStep)
    requires HealthEnabled(c, s, step) && s.mutex.Trimming?
    ensures ApplyHealth(c, s, step).mutex == s.mutex
  {
    match step case Judge(_) => case _ =>
  }

  lemma TrimStepOrder(c: Config, s: State, step: Step)
    requires Enabled(c, s, step) && s.mutex.Trimming? && Apply(c, s, step).mutex.Trimming?
    ensures Subsequence(Apply(c, s, step).pool, s.pool)
  {
    TrimStep(c, s, step);
    SubsequenceSelf(s.pool);
    if DropsNext(s) {
      WithoutIsSubsequence(s.pool, s.mutex.at);
    }
  }

  // ---- no user gets hold of what was dropped ----

  /** Published, out of the pool and held by no user. */
  predicate Gone(s: State, r: Resource) {
    r in s.published && !Pooled(s, r) && r !in s.users
  }

  lemma SelectedIsPooled(s: State, at: nat)
    requires at < |s.pool|
    ensures Pooled(s, s.pool[at].resource)
  {
    RefsSplit(s.pool, at);
  }

  lemma NoNewUser(c: Config, s: State, step: Step, r: Resource)
    requires Inv(c, s) && Enabled(c, s, step) && Gone(s, r)
    ensures r !in Apply(c, s, step).users
  {
    assert Holds(OwnerPart, c, s);
    match step {
      case Get(g) => if g.GetTake? { SelectedIsPooled(s, s.mutex.at); }
      case Keeper(_) => JobsFrame(c, s, step);
      case Health(_) => JobsFrame(c, s, step);
      case Caller(u) => CallerFrame(c, s, u);
    }
  }

  lemma GoneStaysGone(c: Config, s: State, step: Step, r: Resource)
    requires Inv(c, s) && Enabled(c, s, step) && Gone(s, r)
    ensures Gone(Apply(c, s, step), r)
  {
    NoNewUser(c, s, step, r);
    StaysOut(c, s, step, r);
  }

  lemma {:induction false} GoneForGood(c: Config, s: State, steps: seq<Step>, r: Resource)
    requires Inv(c, s) && Runs(c, s, steps) && Gone(s, r)
    ensures Gone(Exec(c, s, steps), r)
    decreases |steps|
  {
    if steps != [] {
      GoneStaysGone(c, s, steps[0], r);
      StepKeeps(c, s, steps[0]);
      GoneForGood(c, Apply(c, s, steps[0]), steps[1..], r);
    }
  }

  /** What a test drops has no user at that moment. */
  lemma DroppedIsGone(c: Config, s: State, r: Resource)
    requires Inv(c, s) && KeeperEnabled(s, TrimTest) && Pooled(s, r) && !Pooled(ApplyKeeper(c, s, TrimTest), r)
    ensures Gone(ApplyKeeper(c, s, TrimTest), r)
  {
    TrimPools(c, s, r);
    UnusedIsPoolOnly(c, s, s.mutex.at);
    assert Holds(KnownItemPart, c, s);
    assert s.pool[s.mutex.at] in s.pool;
  }

  // ---- a whole trim ----

  lemma {:induction false} TrimRun(c: Config, s: State, steps: seq<Step>)
    requires Runs(c, s, steps) && TrimmingThroughout(c, s, steps)
    ensures var e := Exec(c, s, steps);
            && e.mutex.Trimming? && Subsequence(e.pool, s.pool)
            && |e.pool| + s.mutex.toRemove == |s.pool| + e.mutex.toRemove && e.mutex.toRemove <= s.mutex.toRemove
    decreases |steps|
  {
    if steps == [] {
      SubsequenceSelf(s.pool);
    } else {
      var t := Apply(c, s, steps[0]);
      TrimRun(c, t, steps[1..]);
      TrimStep(c, s, steps[0]);
      TrimStepOrder(c, s, steps[0]);
      SubsequenceTransitive(Exec(c, s, steps).pool, t.pool, s.pool);
    }
  }

  lemma {:induction false} DroppedHasNoUser(c: Config, s: State, steps: seq<Step>, r: Resource)
    requires Inv(c, s) && Runs(c, s, steps) && TrimmingThroughout(c, s, steps)
    requires Pooled(s, r) && !Pooled(Exec(c, s, steps), r)
    ensures r !in Exec(c, s, steps).users
    decreases |steps|
  {
    var t := Apply(c, s, steps[0]);
    StepKeeps(c, s, steps[0]);
    if Pooled(t, r) {
      DroppedHasNoUser(c, t, steps[1..], r);
    } else {
      TrimStep(c, s, steps[0]);
      DroppedIsGone(c, s, r);
      GoneForGood(c, t, steps[1..], r);
    }
  }

  /** The second pass tested the item, and it was in use then. */
  predicate UsedWhenTested(c: Config, s: State, steps: seq<Step>, x: Item)
    requires Runs(c, s, steps)
    decreases |steps|
  {
    && steps != []
    && ((steps[0] == Keeper(TrimTest) && s.mutex.Trimming? && s.mutex.second && s.mutex.at < |s.pool|
         && s.pool[s.mutex.at] == x && IsUsed(s.counts, x))
        || UsedWhenTested(c, Apply(c, s, steps[0]), steps[1..], x))
  }

  /** Still to be tested by the second pass. */
  predicate ToBeTested(s: State, x: Item) {
    s.mutex.Trimming? && s.mutex.at <= |s.pool| && x in (if s.mutex.second then s.pool[s.mutex.at..] else s.pool)
  }

  lemma TrimMutexStays(c: Config, s: State, step: Step)
    requires Enabled(c, s, step) && s.mutex.Trimming? && Apply(c, s, step).mutex.Trimming?
    requires step != Keeper(TrimTest) && step != Keeper(TrimSecond)
    ensures Apply(c, s, step).mutex == s.mutex && Apply(c, s, step).pool == s.pool
  {
    TrimStep(c, s, step);
    match step
    case Get(_) =>
    case Keeper(_) =>
    case Health(h) => HealthKeepsTrim(c, s, h);
    case Caller(_) =>
  }

  /** An item that a test does not settle is still to be tested. */
  lemma TestedOrKept(c: Config, s: State, x: Item)
    requires KeeperEnabled(s, TrimTest) && Distinct(s.pool) && ToBeTested(s, x) && x in ApplyKeeper(c, s, TrimTest).pool
    ensures ToBeTested(ApplyKeeper(c, s, TrimTest), x) || (s.mutex.second && s.pool[s.mutex.at] == x && !DropsNext(s))
  {
    RestOf(s.pool, s.mutex.at, x);
    if DropsNext(s) {
      WithoutMembers(s.pool, s.mutex.at);
    }
  }

  lemma RestOf(items: seq<Item>, at: nat, x: Item)
    requires at < |items|
    ensures x in items[at..] <==> x == items[at] || x in items[at + 1..]
    ensures Without(items, at)[at..] == items[at + 1..]
  {
    assert items[at..] == [items[at]] + items[at + 1..];
  }

  lemma {:induction false} KeptWasUsed(c: Config, s: State, steps: seq<Step>, x: Item)
    requires Runs(c, s, steps) && TrimmingThroughout(c, s, steps) && KeeperEnabled(Exec(c, s, steps), TrimUnlock)
    requires Distinct(s.pool) && ToBeTested(s, x) && x in Exec(c, s, steps).pool && Exec(c, s, steps).mutex.toRemove > 0
    ensures UsedWhenTested(c, s, steps, x)
    decreases |steps|
  {
    if steps != [] {
      var t := Apply(c, s, steps[0]);
      TrimStep(c, s, steps[0]);
      if DropsNext(s) {
        WithoutMembers(s.pool, s.mutex.at);
      }
      TrimRun(c, t, steps[1..]);
      SubsequenceMembers(Exec(c, s, steps).pool, t.pool);
      if steps[0] == Keeper(TrimTest) {
        TestedOrKept(c, s, x);
      } else if steps[0] == Keeper(TrimSecond) {
        assert t.pool[0..] == t.pool;
      } else {
        TrimMutexStays(c, s, steps[0]);
      }
      if ToBeTested(t, x) {
        KeptWasUsed(c, t, steps[1..], x);
      }
    }
  }

  // ---- invalid items ----

  /** The first pass tested the item, and it was not available then. */
  predicate UnavailableAtFirst(c: Config, s: State, steps: seq<Step>, x: Item)
    requires Runs(c, s, steps)
    decreases |steps|
  {
    && steps != []
    && ((steps[0] == Keeper(TrimTest) && s.mutex.Trimming? && !s.mutex.second && s.mutex.at < |s.pool|
         && s.pool[s.mutex.at] == x && !IsAvailable(s.counts, x))
        || UnavailableAtFirst(c, Apply(c, s, steps[0]), steps[1..], x))
  }

  /** The second pass begins in the run, and more is to be removed then. */
  predicate SecondIsNeeded(c: Config, s: State, steps: seq<Step>)
    requires Runs(c, s, steps)
    decreases |steps|
  {
    && steps != []
    && ((steps[0] == Keeper(TrimSecond) && s.mutex.Trimming? && s.mutex.toRemove > 0)
        || SecondIsNeeded(c, Apply(c, s, steps[0]), steps[1..]))
  }

  lemma {:induction false} NeededMeansLeft(c: Config, s: State, steps: seq<Step>)
    requires Runs(c, s, steps) && TrimmingThroughout(c, s, steps) && SecondIsNeeded(c, s, steps)
    ensures s.mutex.toRemove > 0
    decreases |steps|
  {
    if steps[0] != Keeper(TrimSecond) || s.mutex.toRemove == 0 {
      NeededMeansLeft(c, Apply(c, s, steps[0]), steps[1..]);
      TrimStep(c, s, steps[0]);
    }
  }

  lemma {:induction false} NothingIsLeftToRemove(c: Config, s: State, steps: seq<Step>)
    requires Runs(c, s, steps) && TrimmingThroughout(c, s, steps) && s.mutex.toRemove == 0
    ensures Exec(c, s, steps).pool == s.pool
    decreases |steps|
  {
    if steps != [] {
      TrimStep(c, s, steps[0]);
      NothingIsLeftToRemove(c, Apply(c, s, steps[0]), steps[1..]);
    }
  }

  /** An invalid item is removed by the second pass only. */
  lemma {:induction false} InvalidGoesSecond(c: Config, s: State, steps: seq<Step>, x: Item)
    requires Runs(c, s, steps) && TrimmingThroughout(c, s, steps) && !s.mutex.second
    requires x in s.pool && !x.valid && x !in Exec(c, s, steps).pool
    ensures SecondIsNeeded(c, s, steps)
    decreases |steps|
  {
    var t := Apply(c, s, steps[0]);
    TrimStep(c, s, steps[0]);
    InvalidStays(c, s, steps[0], x);
    if steps[0] == Keeper(TrimSecond) {
      if s.mutex.toRemove == 0 {
        NothingIsLeftToRemove(c, t, steps[1..]);
      }
    } else {
      FirstPassGoesOn(c, s, steps[0]);
      InvalidGoesSecond(c, t, steps[1..], x);
    }
  }

  lemma InvalidStays(c: Config, s: State, step: Step, x: Item)
    requires Enabled(c, s, step) && s.mutex.Trimming? && !s.mutex.second && x in s.pool && !x.valid
    ensures x in Apply(c, s, step).pool
  {
    TrimStep(c, s, step);
    if DropsNext(s) {
      OthersStay(s.pool, s.mutex.at, x);
    }
  }

  lemma OthersStay(items: seq<Item>, at: nat, x: Item)
    requires at < |items| && x in items && x != items[at]
    ensures x in Without(items, at)
  {
    var i :| 0 <= i < |items| && items[i] == x;
    assert Without(items, at)[if i < at then i else i - 1] == x;
  }

  lemma FirstPassGoesOn(c: Config, s: State, step: Step)
    requires Enabled(c, s, step) && s.mutex.Trimming? && !s.mutex.second && Apply(c, s, step).mutex.Trimming?
    requires step != Keeper(TrimSecond)
    ensures !Apply(c, s, step).mutex.second
  {
    if step != Keeper(TrimTest) {
      TrimMutexStays(c, s, step);
    }
  }

  /** If the second pass is needed, what is left at the end was not available when the first one tested it. */
  lemma {:induction false} KeptWasUnavailable(c: Config, s: State, steps: seq<Step>, x: Item)
    requires Runs(c, s, steps) && TrimmingThroughout(c, s, steps) && SecondIsNeeded(c, s, steps)
    requires !s.mutex.second && Distinct(s.pool) && s.mutex.at <= |s.pool| && x in s.pool[s.mutex.at..]
    requires x in Exec(c, s, steps).pool
    ensures UnavailableAtFirst(c, s, steps, x)
    decreases |steps|
  {
    var t := Apply(c, s, steps[0]);
    NeededMeansLeft(c, s, steps);
    TrimStep(c, s, steps[0]);
    TrimRun(c, t, steps[1..]);
    SubsequenceMembers(Exec(c, s, steps).pool, t.pool);
    if steps[0] == Keeper(TrimTest) {
      RestOf(s.pool, s.mutex.at, x);
      if DropsNext(s) {
        WithoutMembers(s.pool, s.mutex.at);
      }
      if x != s.pool[s.mutex.at] {
        KeptWasUnavailable(c, t, steps[1..], x);
      }
    } else {
      TrimMutexStays(c, s, steps[0]);
      KeptWasUnavailable(c, t, steps[1..], x);
    }
  }

  // ---- what a trim promises ----

  /** A trim that is to remove at most `n` items, with anything going on besides. When it ends it has kept
      the order, removed no more than it was to and nothing a user holds. If it removed fewer, each item it
      left was in use when the second pass came to it. If it removed an invalid item, each item it left was
      not available when the first pass came to it. */
  lemma {:induction false} TrimUnderInterference(c: Config, s: State, steps: seq<Step>, n: nat)
    requires Reachable(c, s) && s.mutex == Trimming(false, 0, n)
    requires Runs(c, s, steps) && TrimmingThroughout(c, s, steps) && KeeperEnabled(Exec(c, s, steps), TrimUnlock)
    ensures var e := Exec(c, s, steps);
            && Subsequence(ApplyKeeper(c, e, TrimUnlock).pool, s.pool)
            && |s.pool| - |e.pool| == n - e.mutex.toRemove <= n
            && (forall x | x in s.pool && x.resource in e.users :: x in ApplyKeeper(c, e, TrimUnlock).pool)
            && (|s.pool| - |e.pool| < n ==> forall x | x in e.pool :: UsedWhenTested(c, s, steps, x))
            && ((exists x :: x in s.pool && !x.valid && x !in e.pool) ==>
                  forall x | x in e.pool :: UnavailableAtFirst(c, s, steps, x))
  {
    TrimRun(c, s, steps);
    ReachableInv(c, s);
    var e := Exec(c, s, steps);
    SubsequenceMembers(e.pool, s.pool);
    if e.mutex.toRemove > 0 {
      forall x | x in e.pool ensures UsedWhenTested(c, s, steps, x) {
        assert Holds(ShapePart, c, s);
        KeptWasUsed(c, s, steps, x);
      }
    }
    forall x | x in s.pool && x.resource in e.users ensures x in e.pool {
      KeptItem(c, s, steps, x);
    }
    if x :| x in s.pool && !x.valid && x !in e.pool {
      InvalidGoesSecond(c, s, steps, x);
      forall y | y in e.pool ensures UnavailableAtFirst(c, s, steps, y) {
        assert Holds(ShapePart, c, s) && s.pool[0..] == s.pool;
        KeptWasUnavailable(c, s, steps, y);
      }
    }
  }

  lemma {:induction false} KeptItem(c: Config, s: State, steps: seq<Step>, x: Item)
    requires Inv(c, s) && Runs(c, s, steps) && TrimmingThroughout(c, s, steps)
    requires x in s.pool && x.resource in Exec(c, s, steps).users
    ensures x in Exec(c, s, steps).pool
  {
    var e := Exec(c, s, steps);
    var i :| 0 <= i < |s.pool| && s.pool[i] == x;
    SelectedIsPooled(s, i);
    if !Pooled(e, x.resource) {
      DroppedHasNoUser(c, s, steps, x.resource);
    }
    TrimRun(c, s, steps);
    assert Holds(ShapePart, c, s);
    SameItem(e.pool, s.pool, x);
  }

  /** Among distinct resources an item is known by its resource. */
  lemma SameItem(some: seq<Item>, all: seq<Item>, x: Item)
    requires Subsequence(some, all) && Distinct(all) && x in all && x.resource in Refs(some)
    ensures x in some
  {
    SubsequenceMembers(some, all);
    RefsMember(some, x.resource);
    var k :| 0 <= k < |some| && some[k].resource == x.resource;
    assert some[k] in all;
  }
}
