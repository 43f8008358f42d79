/** One cycle of the health-care job: snapshot, batches, weak locks, checks and verdicts. */
module HealthCare {
  import opened PoolItems
  import opened KeeperCycle
  import opened SharedPtrPools

  // ---- what a cycle does to the pool ----

  /** The items the snapshot takes: the unused ones, with the flags they have at that time. */
  function UnusedOnly(counts: multiset<Resource>, items: seq<Item>): seq<Item> {
    if items == [] then []
    else
      UnusedOnly(counts, items[..|items| - 1]) + if IsUsed(counts, items[|items| - 1]) then [] else [items[|items| - 1]]
  }

  /** The items whose weak reference can be locked. */
  function Lockable(items: seq<Item>, lockable: set<Resource>): seq<Item> {
    if items == [] then []
    else
      Lockable(items[..|items| - 1], lockable)
      + if items[|items| - 1].resource in lockable then [items[|items| - 1]] else []
  }

  function Resources(items: seq<Item>): set<Resource> {
    set x | x in items :: x.resource
  }

  /** What one checked item becomes. */
  function Outcome(x: Item, verdict: Verdict, revalidate: bool): seq<Item> {
    match verdict
    case Unhealthy => []
    case Healthy => [if revalidate then Item(true, x.resource) else x]
    case CheckFailed => [x]
  }

  function One(x: Item, checked: set<Resource>, verdict: Resource -> Verdict, revalidate: bool): (items: seq<Item>)
    ensures |items| <= 1 && forall y | y in items :: y.resource == x.resource
  {
    if x.resource in checked then Outcome(x, verdict(x.resource), revalidate) else [x]
  }

  /** The pool once the given resources have been checked: unhealthy items are gone, healthy ones
      valid again, and everything else is as it was, in its old order. */
  function AfterChecks(pool: seq<Item>, checked: set<Resource>, verdict: Resource -> Verdict, revalidate: bool)
    : seq<Item>
  {
    if pool == [] then []
    else One(pool[0], checked, verdict, revalidate) + AfterChecks(pool[1..], checked, verdict, revalidate)
  }

  /** The references the pool gives up with the items that are checked and found unhealthy. */
  function GoneRefs(pool: seq<Item>, checked: set<Resource>, verdict: Resource -> Verdict): multiset<Resource> {
    if pool == [] then multiset{}
    else
      var r := pool[0].resource;
      GoneRefs(pool[1..], checked, verdict) + if r in checked && verdict(r).Unhealthy? then multiset{r} else multiset{}
  }

  /** The pool, its index and the counts once the given resources have been checked. */
  function Checked(s: Pooled, checked: set<Resource>, verdict: Resource -> Verdict, revalidate: bool): Pooled {
    var pool := AfterChecks(s.pool, checked, verdict, revalidate);
    Pooled(pool, TrimIndex(s.poolIndex, |pool|), s.counts - GoneRefs(s.pool, checked, verdict))
  }

  function Flatten(batches: seq<seq<Item>>): seq<Item> {
    if batches == [] then [] else Flatten(batches[..|batches| - 1]) + batches[|batches| - 1]
  }

  // ---- one verdict ----

  lemma {:induction false} NothingChecked(pool: seq<Item>, verdict: Resource -> Verdict, revalidate: bool)
    ensures AfterChecks(pool, {}, verdict, revalidate) == pool && GoneRefs(pool, {}, verdict) == multiset{}
  {
    if pool != [] {
      NothingChecked(pool[1..], verdict, revalidate);
    }
  }

  /** Checking resources that are not pooled makes no difference. */
  lemma {:induction false} OthersChecked(pool: seq<Item>, checked: set<Resource>, r: Resource,
                                         verdict: Resource -> Verdict, revalidate: bool)
    requires forall x | x in pool :: x.resource != r
    ensures AfterChecks(pool, checked + {r}, verdict, revalidate) == AfterChecks(pool, checked, verdict, revalidate)
    ensures forall x | x in AfterChecks(pool, checked, verdict, revalidate) :: x.resource != r
  {
    if pool != [] {
      OthersChecked(pool[1..], checked, r, verdict, revalidate);
    }
  }

  lemma {:induction false} OthersGone(pool: seq<Item>, checked: set<Resource>, r: Resource,
                                      verdict: Resource -> Verdict)
    requires forall x | x in pool :: x.resource != r
    ensures GoneRefs(pool, checked + {r}, verdict) == GoneRefs(pool, checked, verdict)
  {
    if pool != [] {
      OthersGone(pool[1..], checked, r, verdict);
    }
  }

  /** One more check gives up one more reference, if it ends badly. */
  lemma {:induction false} GoneGrows(pool: seq<Item>, checked: set<Resource>, x: Item, verdict: Resource -> Verdict)
    requires Distinct(pool) && x in pool && x.resource !in checked
    ensures GoneRefs(pool, checked + {x.resource}, verdict)
         == GoneRefs(pool, checked, verdict)
            + if verdict(x.resource).Unhealthy? then multiset{x.resource} else multiset{}
  {
    var head, tail := pool[0], pool[1..];
    assert pool == [head] + tail;
    DistinctTail(head, tail);
    if head == x {
      OthersGone(tail, checked, x.resource, verdict);
    } else {
      GoneGrows(tail, checked, x, verdict);
    }
  }

  function Replaced(items: seq<Item>, at: nat, put: seq<Item>): seq<Item>
    requires at < |items|
  {
    items[..at] + put + items[at + 1..]
  }

  lemma ReplacedBehind(first: seq<Item>, rest: seq<Item>, at: nat, put: seq<Item>)
    requires at < |rest|
    ensures Replaced(first + rest, |first| + at, put) == first + Replaced(rest, at, put)
  {
  }

  lemma ReplacedCases(items: seq<Item>, at: nat, y: Item)
    requires at < |items|
    ensures Replaced(items, at, []) == Without(items, at)
    ensures Replaced(items, at, [y]) == items[at := y]
    ensures Replaced(items, at, [items[at]]) == items
  {
  }

  /** An unchecked item of the pool is still there, at the only place with its resource. */
  lemma {:induction false} UncheckedStays(pool: seq<Item>, checked: set<Resource>, x: Item,
                                          verdict: Resource -> Verdict, revalidate: bool)
    requires Distinct(pool) && x in pool && x.resource !in checked
    ensures var now := AfterChecks(pool, checked, verdict, revalidate);
            var at := IndexOf(now, x.resource);
            && at < |now| && now[at] == x
            && AfterChecks(pool, checked + {x.resource}, verdict, revalidate)
               == Replaced(now, at, Outcome(x, verdict(x.resource), revalidate))
  {
    var head, tail := pool[0], pool[1..];
    assert pool == [head] + tail;
    DistinctTail(head, tail);
    var rest := AfterChecks(tail, checked, verdict, revalidate);
    var put := Outcome(x, verdict(x.resource), revalidate);
    if head == x {
      OthersChecked(tail, checked, x.resource, verdict, revalidate);
      HeadReplaced(x, rest, put);
    } else {
      assert head.resource != x.resource;
      UncheckedStays(tail, checked, x, verdict, revalidate);
      BehindReplaced(One(head, checked, verdict, revalidate), rest, x, put);
    }
  }

  lemma BehindReplaced(first: seq<Item>, rest: seq<Item>, x: Item, put: seq<Item>)
    requires |first| <= 1 && forall y | y in first :: y.resource != x.resource
    requires IndexOf(rest, x.resource) < |rest| && rest[IndexOf(rest, x.resource)] == x
    ensures var at := IndexOf(first + rest, x.resource);
            && at < |first + rest| && (first + rest)[at] == x
            && Replaced(first + rest, at, put) == first + Replaced(rest, IndexOf(rest, x.resource), put)
  {
    SkipFirst(first, rest, x.resource);
    ReplacedBehind(first, rest, IndexOf(rest, x.resource), put);
  }

  lemma HeadReplaced(x: Item, rest: seq<Item>, put: seq<Item>)
    ensures IndexOf([x] + rest, x.resource) == 0 && Replaced([x] + rest, 0, put) == put + rest
  {
  }

  lemma SkipFirst(first: seq<Item>, rest: seq<Item>, r: Resource)
    requires |first| <= 1 && forall y | y in first :: y.resource != r
    ensures IndexOf(first + rest, r) == |first| + IndexOf(rest, r)
  {
    if first == [] {
      assert first + rest == rest;
    } else {
      assert (first + rest)[0] == first[0] && (first + rest)[1..] == rest;
    }
  }

  // ---- the job ----

  method Snapshot(base: SharedPtrPool) returns (snapshot: seq<Item>)
    ensures snapshot == UnusedOnly(base.counts, base.pool)
  {
    snapshot := [];
    var i := 0;
    while i < |base.pool|
      invariant i <= |base.pool| && snapshot == UnusedOnly(base.counts, base.pool[..i])
    {
      assert base.pool[..i + 1][..i] == base.pool[..i];
      if !IsUsed(base.counts, base.pool[i]) {
        snapshot := snapshot + [base.pool[i]];
      }
      i := i + 1;
    }
    assert base.pool[..|base.pool|] == base.pool;
  }

  method LockBatch(batch: seq<Item>, lockable: set<Resource>) returns (locked: seq<Item>)
    ensures locked == Lockable(batch, lockable)
  {
    locked := [];
    var i := 0;
    while i < |batch|
      invariant i <= |batch| && locked == Lockable(batch[..i], lockable)
    {
      assert batch[..i + 1][..i] == batch[..i];
      if batch[i].resource in lockable {
        locked := locked + [batch[i]];
      }
      i := i + 1;
    }
    assert batch[..|batch|] == batch;
  }

  /** The pool is what `before` has become once the given resources have been checked. */
  ghost predicate Stands(base: SharedPtrPool, before: Pooled, checked: set<Resource>, verdict: Resource -> Verdict)
    reads base
  {
    base.Valid() && base.Contents() == Checked(before, checked, verdict, base.invalidateOnAccess)
  }

  /** What is left when one more item goes, by its position. */
  lemma OneMoreErased(now: seq<Item>, at: nat, poolIndex: nat, counts: multiset<Resource>, gone: multiset<Resource>)
    requires at < |now|
    ensures Erased(Pooled(now, TrimIndex(poolIndex, |now|), counts - gone), at)
         == Pooled(Without(now, at), TrimIndex(poolIndex, |now| - 1), counts - (gone + multiset{now[at].resource}))
  {
    LessTwice(counts, gone, multiset{now[at].resource});
  }

  /** What one more outcome does to the pool, its index and the counts. */
  lemma OneMoreOutcome(now: seq<Item>, next: seq<Item>, at: nat, x: Item, verdict: Verdict, revalidate: bool,
                       poolIndex: nat, counts: multiset<Resource>,
                       gone: multiset<Resource>, goneNext: multiset<Resource>)
    requires at < |now| && now[at] == x && next == Replaced(now, at, Outcome(x, verdict, revalidate))
    requires goneNext == gone + if verdict.Unhealthy? then multiset{x.resource} else multiset{}
    ensures var s := Pooled(now, TrimIndex(poolIndex, |now|), counts - gone);
            var t := Pooled(next, TrimIndex(poolIndex, |next|), counts - goneNext);
            match verdict
            case Unhealthy => t == Erased(s, at)
            case Healthy => t == s.(pool := now[at := if revalidate then Item(true, x.resource) else x])
            case CheckFailed => t == s
  {
    ReplacedCases(now, at, if verdict.Healthy? && revalidate then Item(true, x.resource) else x);
    if verdict.Unhealthy? {
      OneMoreErased(now, at, poolIndex, counts, gone);
    } else {
      assert goneNext == gone;
    }
  }

  /** One more verdict, as a change of the pool. */
  lemma {:induction false} OneMoreChecked(before: Pooled, checked: set<Resource>, x: Item,
                                          verdict: Resource -> Verdict, revalidate: bool)
    requires Distinct(before.pool) && x in before.pool && x.resource !in checked
    ensures var now := Checked(before, checked, verdict, revalidate);
            var next := Checked(before, checked + {x.resource}, verdict, revalidate);
            var at := IndexOf(now.pool, x.resource);
            && at < |now.pool| && now.pool[at] == x
            && match verdict(x.resource)
               case Unhealthy => next == Erased(now, at)
               case Healthy => next == now.(pool := now.pool[at := if revalidate then Item(true, x.resource) else x])
               case CheckFailed => next == now
  {
    var now := AfterChecks(before.pool, checked, verdict, revalidate);
    var next := AfterChecks(before.pool, checked + {x.resource}, verdict, revalidate);
    var at := IndexOf(now, x.resource);
    UncheckedStays(before.pool, checked, x, verdict, revalidate);
    GoneGrows(before.pool, checked, x, verdict);
    OneMoreOutcome(now, next, at, x, verdict(x.resource), revalidate, before.poolIndex, before.counts,
                   GoneRefs(before.pool, checked, verdict), GoneRefs(before.pool, checked + {x.resource}, verdict));
  }

  lemma LessTwice(counts: multiset<Resource>, a: multiset<Resource>, b: multiset<Resource>)
    ensures counts - (a + b) == counts - a - b
  {
  }

  /** Acting on one verdict. */
  method Judge(base: SharedPtrPool, x: Item, verdict: Resource -> Verdict,
               ghost before: Pooled, ghost checked: set<Resource>)
    requires Distinct(before.pool) && x in before.pool && x.resource !in checked
    requires Stands(base, before, checked, verdict)
    modifies base`pool, base`poolIndex, base`counts
    ensures Stands(base, before, checked + {x.resource}, verdict)
  {
    OneMoreChecked(before, checked, x, verdict, base.invalidateOnAccess);
    assert base.pool[IndexOf(base.pool, x.resource)] == x;
    match verdict(x.resource) {
      case Unhealthy =>
        base.EraseUnsafe(x.resource);
      case Healthy =>
        if base.invalidateOnAccess && !x.valid {
          base.Revalidate(x.resource);
        }
      case CheckFailed =>
    }
  }

  lemma {:induction false} LockableIn(items: seq<Item>, lockable: set<Resource>)
    requires Distinct(items)
    ensures Distinct(Lockable(items, lockable))
    ensures forall x | x in Lockable(items, lockable) :: x in items
  {
    if items != [] {
      var before, last := items[..|items| - 1], items[|items| - 1];
      LockableIn(before, lockable);
      assert forall x | x in before :: x in items && x.resource != last.resource;
    }
  }

  lemma {:induction false} LockableConcat(a: seq<Item>, b: seq<Item>, lockable: set<Resource>)
    ensures Lockable(a + b, lockable) == Lockable(a, lockable) + Lockable(b, lockable)
  {
    if b == [] {
      assert a + b == a;
    } else {
      assert (a + b)[..|a + b| - 1] == a + b[..|b| - 1];
      LockableConcat(a, b[..|b| - 1], lockable);
    }
  }

  lemma {:induction false} UnusedIn(counts: multiset<Resource>, items: seq<Item>)
    requires Distinct(items)
    ensures Distinct(UnusedOnly(counts, items))
    ensures forall x | x in UnusedOnly(counts, items) :: x in items
  {
    if items != [] {
      var before, last := items[..|items| - 1], items[|items| - 1];
      UnusedIn(counts, before);
      assert forall x | x in before :: x in items && x.resource != last.resource;
    }
  }

  /** Locking a batch, starting its checks and acting on their answers in order. */
  method RunBatch(base: SharedPtrPool, batch: seq<Item>, lockable: set<Resource>, verdict: Resource -> Verdict,
                  ghost before: Pooled, ghost checked: set<Resource>)
    returns (locked: seq<Item>)
    requires Distinct(before.pool) && Distinct(batch)
    requires forall x | x in batch :: x in before.pool && x.resource !in checked
    requires Stands(base, before, checked, verdict)
    modifies base`pool, base`poolIndex, base`counts
    ensures locked == Lockable(batch, lockable)
    ensures Stands(base, before, checked + Resources(locked), verdict)
  {
    locked := LockBatch(batch, lockable);
    LockableIn(batch, lockable);
    JudgeAll(base, locked, verdict, before, checked);
  }

  /** Acting on the verdicts of a batch in order. */
  method JudgeAll(base: SharedPtrPool, locked: seq<Item>, verdict: Resource -> Verdict,
                  ghost before: Pooled, ghost checked: set<Resource>)
    requires Distinct(before.pool) && Distinct(locked)
    requires forall x | x in locked :: x in before.pool && x.resource !in checked
    requires Stands(base, before, checked, verdict)
    modifies base`pool, base`poolIndex, base`counts
    ensures Stands(base, before, checked + Resources(locked), verdict)
  {
    var i := 0;
    ghost var seen := checked;
    while i < |locked|
      invariant i <= |locked| && seen == checked + Resources(locked[..i])
      invariant Stands(base, before, seen, verdict)
    {
      NextLocked(locked, i, checked);
      Judge(base, locked[i], verdict, before, seen);
      seen := seen + {locked[i].resource};
      i := i + 1;
    }
    assert locked[..|locked|] == locked;
  }

  lemma NextLocked(locked: seq<Item>, i: nat, checked: set<Resource>)
    requires Distinct(locked) && i < |locked| && locked[i].resource !in checked
    ensures locked[i].resource !in checked + Resources(locked[..i])
    ensures checked + Resources(locked[..i]) + {locked[i].resource} == checked + Resources(locked[..i + 1])
  {
    assert locked[..i + 1] == locked[..i] + [locked[i]];
  }

  // ---- batching ----

  /** No batch is empty; all are full, except for the last one when no more are to come. */
  ghost predicate BatchSizes(batches: seq<seq<Item>>, batchSize: nat, more: bool) {
    forall k | 0 <= k < |batches| ::
      0 < |batches[k]| <= batchSize && (more || k < |batches| - 1 ==> |batches[k]| == batchSize)
  }

  lemma BatchSizesSnoc(batches: seq<seq<Item>>, batch: seq<Item>, batchSize: nat)
    requires BatchSizes(batches, batchSize, true) && 0 < |batch| <= batchSize
    ensures BatchSizes(batches + [batch], batchSize, |batch| == batchSize)
    ensures BatchSizes(batches + [batch], batchSize, false)
  {
  }

  /** The batches are the items in order; all but the last are full and none is empty. */
  ghost predicate Batched(batches: seq<seq<Item>>, items: seq<Item>, batchSize: nat) {
    Flatten(batches) == items && BatchSizes(batches, batchSize, false)
  }

  /** Counting on, remainders go up by one and start again. */
  lemma NextRemainder(i: nat, n: nat)
    requires n > 0
    ensures (i + 1) % n == if i % n == n - 1 then 0 else i % n + 1
  {
    var q, r := i / n, i % n;
    if r == n - 1 {
      assert i + 1 == (q + 1) * n;
      IsRemainder(i + 1, n, q + 1, 0);
    } else {
      IsRemainder(i + 1, n, q, r + 1);
    }
  }

  lemma IsRemainder(i: nat, n: nat, q: nat, r: nat)
    requires i == q * n + r && r < n
    ensures i % n == r
  {
    var difference := q - i / n;
    assert difference * n == i % n - r;
    assert difference > 0 ==> difference * n >= n;
    assert difference < 0 ==> difference * n + n <= 0;
  }

  lemma FlattenSnoc(batches: seq<seq<Item>>, batch: seq<Item>)
    ensures Flatten(batches + [batch]) == Flatten(batches) + batch
  {
    assert (batches + [batch])[..|batches|] == batches;
  }

  /** Running the open batch, when `done` are the items of the batches before it. */
  method CloseBatch(base: SharedPtrPool, batch: seq<Item>, lockable: set<Resource>,
                    verdict: Resource -> Verdict, checked: seq<Item>,
                    ghost before: Pooled, ghost snapshot: seq<Item>, ghost done: seq<Item>)
    returns (checkedNow: seq<Item>)
    requires Distinct(before.pool) && Distinct(snapshot) && forall x | x in snapshot :: x in before.pool
    requires done + batch <= snapshot && checked == Lockable(done, lockable)
    requires Stands(base, before, Resources(checked), verdict)
    modifies base`pool, base`poolIndex, base`counts
    ensures checkedNow == Lockable(done + batch, lockable)
    ensures Stands(base, before, Resources(checkedNow), verdict)
  {
    OpenBatch(snapshot, done, batch, lockable);
    var locked := RunBatch(base, batch, lockable, verdict, before, Resources(checked));
    LockableConcat(done, batch, lockable);
    checkedNow := checked + locked;
    assert Resources(checked) + Resources(locked) == Resources(checkedNow);
  }

  /** A whole cycle. `lockable` are the resources whose weak reference is alive and has a count of 2
      when its turn comes; `checked` are the items whose checks were run, in order. */
  method Cycle(base: SharedPtrPool, batchSize: nat, lockable: set<Resource>, verdict: Resource -> Verdict)
    returns (batches: seq<seq<Item>>, checked: seq<Item>)
    requires base.Valid() && batchSize > 0
    modifies base`pool, base`poolIndex, base`counts
    ensures base.Valid()
    ensures Batched(batches, UnusedOnly(old(base.counts), old(base.pool)), batchSize)
    ensures checked == Lockable(UnusedOnly(old(base.counts), old(base.pool)), lockable) && Distinct(checked)
    ensures base.Contents() == Checked(old(base.Contents()), Resources(checked), verdict, base.invalidateOnAccess)
  {
    var poolSnapshot := Snapshot(base);
    UnusedIn(base.counts, base.pool);
    LockableIn(poolSnapshot, lockable);
    NothingChecked(base.pool, verdict, base.invalidateOnAccess);
    batches, checked := CheckSnapshot(base, poolSnapshot, batchSize, lockable, verdict, base.Contents());
  }

  /** The loop over the snapshot. */
  method CheckSnapshot(base: SharedPtrPool, poolSnapshot: seq<Item>, batchSize: nat, lockable: set<Resource>,
                       verdict: Resource -> Verdict, ghost before: Pooled)
    returns (batches: seq<seq<Item>>, checked: seq<Item>)
    requires batchSize > 0 && Distinct(before.pool)
    requires Distinct(poolSnapshot) && forall x | x in poolSnapshot :: x in before.pool
    requires Stands(base, before, {}, verdict)
    modifies base`pool, base`poolIndex, base`counts
    ensures Batched(batches, poolSnapshot, batchSize)
    ensures checked == Lockable(poolSnapshot, lockable)
    ensures Stands(base, before, Resources(checked), verdict)
  {
    var batchPool := [];
    batches, checked := [], [];
    var i := 0;
    assert Resources(checked) == {};
    while i < |poolSnapshot|
      invariant i <= |poolSnapshot|
      invariant Underway(poolSnapshot, i, batchSize, batches, batchPool)
      invariant i == |poolSnapshot| ==> batchPool == []
      invariant checked == Lockable(Flatten(batches), lockable)
      invariant Stands(base, before, Resources(checked), verdict)
    {
      ItemJoins(poolSnapshot, i, batchSize, batches, batchPool);
      batchPool := batchPool + [poolSnapshot[i]];
      i := i + 1;
      if i % batchSize == 0 || i == |poolSnapshot| {
        checked := CloseBatch(base, batchPool, lockable, verdict, checked, before, poolSnapshot, Flatten(batches));
        BatchCloses(poolSnapshot, i, batchSize, batches, batchPool);
        batches := batches + [batchPool];
        batchPool := [];
      }
    }
    AllBatched(poolSnapshot, batchSize, batches);
  }

  /** The first `i` items have been dealt into closed batches and the open one, `batch`. */
  ghost predicate Underway(snapshot: seq<Item>, i: nat, batchSize: nat, batches: seq<seq<Item>>, batch: seq<Item>)
    requires i <= |snapshot| && batchSize > 0
  {
    && Flatten(batches) + batch == snapshot[..i]
    && |batch| == (if i == |snapshot| then 0 else i % batchSize)
    && BatchSizes(batches, batchSize, i < |snapshot|)
  }

  /** The same, between an item's joining the open batch and the closing of a batch that is full. */
  ghost predicate Joined(snapshot: seq<Item>, i: nat, batchSize: nat, batches: seq<seq<Item>>, batch: seq<Item>)
    requires i <= |snapshot| && batchSize > 0
  {
    && Flatten(batches) + batch <= snapshot
    && Flatten(batches) + batch == snapshot[..i]
    && 0 < |batch| <= batchSize
    && |batch| == (if i % batchSize == 0 then batchSize else i % batchSize)
    && BatchSizes(batches, batchSize, true)
  }

  lemma ItemJoins(snapshot: seq<Item>, i: nat, batchSize: nat, batches: seq<seq<Item>>, batch: seq<Item>)
    requires i < |snapshot| && batchSize > 0 && Underway(snapshot, i, batchSize, batches, batch)
    ensures Joined(snapshot, i + 1, batchSize, batches, batch + [snapshot[i]])
    ensures (i + 1) % batchSize != 0 && i + 1 < |snapshot| ==>
              Underway(snapshot, i + 1, batchSize, batches, batch + [snapshot[i]])
  {
    NextItem(Flatten(batches), batch, snapshot, i);
    NextRemainder(i, batchSize);
  }

  lemma BatchCloses(snapshot: seq<Item>, i: nat, batchSize: nat, batches: seq<seq<Item>>, batch: seq<Item>)
    requires i <= |snapshot| && batchSize > 0 && Joined(snapshot, i, batchSize, batches, batch)
    requires i % batchSize == 0 || i == |snapshot|
    ensures Underway(snapshot, i, batchSize, batches + [batch], [])
    ensures Flatten(batches + [batch]) == Flatten(batches) + batch
  {
    FlattenSnoc(batches, batch);
    BatchSizesSnoc(batches, batch, batchSize);
  }

  lemma AllBatched(snapshot: seq<Item>, batchSize: nat, batches: seq<seq<Item>>)
    requires batchSize > 0 && Underway(snapshot, |snapshot|, batchSize, batches, [])
    ensures Batched(batches, snapshot, batchSize) && Flatten(batches) == snapshot
  {
    assert snapshot[..|snapshot|] == snapshot;
  }

  lemma NextItem(done: seq<Item>, batch: seq<Item>, snapshot: seq<Item>, i: nat)
    requires i < |snapshot| && done + batch == snapshot[..i]
    ensures done + (batch + [snapshot[i]]) == snapshot[..i + 1]
  {
    assert done + (batch + [snapshot[i]]) == (done + batch) + [snapshot[i]];
  }

  /** The items of the open batch are distinct and have not been checked. */
  lemma OpenBatch(snapshot: seq<Item>, done: seq<Item>, batch: seq<Item>, lockable: set<Resource>)
    requires Distinct(snapshot) && done + batch <= snapshot
    ensures Distinct(batch)
    ensures forall x | x in batch :: x in snapshot && x.resource !in Resources(Lockable(done, lockable))
  {
    var all := done + batch;
    assert forall k | 0 <= k < |all| :: all[k] == snapshot[k];
    assert forall k | 0 <= k < |done| :: done[k] == snapshot[k];
    assert forall k | 0 <= k < |batch| :: batch[k] == all[|done| + k] == snapshot[|done| + k];
    LockableIn(done, lockable);
    forall x | x in batch ensures x in snapshot && x.resource !in Resources(Lockable(done, lockable)) {
      var k :| 0 <= k < |batch| && batch[k] == x;
    }
  }
}
