/** The pool as an object: the critical sections of `get`, of erasing and clearing, and the cycle
    of the resource-count keeper, each as the method that updates the fields in place. */
module SharedPtrPools {
  import opened PoolItems
  import opened PoolSpec
  import opened KeeperCycle

  /** What a `get` call takes out of its first critical section. */
  datatype Search = Found(resource: Resource) | Missed(population: nat)

  class SharedPtrPool {
    const invalidateOnAccess: bool
    var pool: seq<Item>
    var poolIndex: nat
    var populationId: nat
    /** The strong counts of all objects, in and out of the pool. */
    var counts: multiset<Resource>

    ghost function Contents(): Pooled
      reads this
    {
      Pooled(pool, poolIndex, counts)
    }

    ghost predicate Valid()
      reads this
    {
      WellCounted(Contents())
    }

    constructor (invalidateOnAccess: bool, counts: multiset<Resource>)
      ensures Valid() && this.invalidateOnAccess == invalidateOnAccess
      ensures pool == [] && populationId == 0 && this.counts == counts
    {
      this.invalidateOnAccess := invalidateOnAccess;
      pool, poolIndex, populationId := [], 0, 0;
      this.counts := counts;
    }

    // ---- get ----

    /** The loop of std::find_if over part of the pool. */
    method FindAvailable(from: nat, to: nat) returns (it: nat)
      requires from <= to <= |pool|
      ensures from <= it <= to
      ensures it < to ==> IsAvailable(counts, pool[it])
      ensures forall k | from <= k < it :: !IsAvailable(counts, pool[k])
    {
      it := from;
      while it < to && !IsAvailable(counts, pool[it])
        invariant from <= it <= to
        invariant forall k | from <= k < it :: !IsAvailable(counts, pool[k])
      {
        it := it + 1;
      }
    }

    /** The first critical section: take the first available item at or after poolIndex. */
    method GetSearch() returns (r: Search)
      requires Valid()
      modifies this`pool, this`poolIndex, this`counts
      ensures Valid()
      ensures var it := FirstAvailable(old(counts), old(pool), old(poolIndex));
              if it < |old(pool)| then
                && r == Found(old(pool)[it].resource)
                && poolIndex == it
                && counts == old(counts) + multiset{old(pool)[it].resource}
                && pool == (if invalidateOnAccess then old(pool)[it := old(pool)[it].(valid := false)] else old(pool))
              else
                r == Missed(populationId) && pool == old(pool) && poolIndex == old(poolIndex) && counts == old(counts)
    {
      var population := populationId;
      assert (|pool| == 0 && poolIndex == 0) || (|pool| > 0 && poolIndex < |pool|);
      var it := FindAvailable(poolIndex, |pool|);
      FirstAvailableIs(counts, pool, poolIndex, it);
      var found := it != |pool|;
      if !found && poolIndex > 0 {
        it := FindAvailable(0, poolIndex);
        found := poolIndex != poolIndex;
      }
      if found {
        poolIndex := it;
        if invalidateOnAccess {
          pool := pool[it := pool[it].(valid := false)];
        }
        counts := counts + multiset{pool[it].resource};
        r := Found(pool[it].resource);
      } else {
        r := Missed(population);
      }
    }

    /** The second critical section: pool the new resource unless the population has changed. */
    method GetAppend(population: nat, newResource: Resource)
      requires Valid() && newResource in counts && newResource !in Refs(pool)
      modifies this`pool, this`poolIndex, this`counts
      ensures Valid()
      ensures if population == populationId then
                && pool == old(pool) + [Item(!invalidateOnAccess, newResource)]
                && poolIndex == |old(pool)|
                && counts == old(counts) + multiset{newResource}
              else
                pool == old(pool) && poolIndex == old(poolIndex) && counts == old(counts)
    {
      RefsMember(pool, newResource);
      if population == populationId {
        pool := pool + [Item(!invalidateOnAccess, newResource)];
        counts := counts + multiset{newResource};
        poolIndex := |pool| - 1;
      }
    }

    /** A whole call with nothing in between; `creation` is what the factory would answer. The
        caller's new reference is the second one to a pooled resource. */
    method Get(creation: Resource) returns (r: Resource)
      requires Valid() && creation !in counts
      modifies this`pool, this`poolIndex, this`counts
      ensures Valid()
      ensures var it := FirstAvailable(old(counts), old(pool), old(poolIndex));
              if it < |old(pool)|
              then r == old(pool)[it].resource && counts == old(counts) + multiset{r}
              else
                && r == creation && counts == old(counts) + multiset{r, r}
                && pool == old(pool) + [Item(!invalidateOnAccess, r)]
      ensures poolIndex < |pool| && pool[poolIndex].resource == r && IsUsed(counts, pool[poolIndex])
      ensures invalidateOnAccess ==> !pool[poolIndex].valid
    {
      var search := GetSearch();
      match search {
        case Found(resource) =>
          r := resource;
        case Missed(population) =>
          r := creation;
          counts := counts + multiset{r};
          RefsMember(pool, r);
          GetAppend(population, r);
      }
    }

    // ---- erasing and clearing ----

    /** std::remove_if compacts the items of other resources to the front. */
    method RemoveResource(r: Resource) returns (end: nat)
      requires Distinct(pool) && IndexOf(pool, r) < |pool|
      modifies this`pool
      ensures |pool| == |old(pool)| == end + 1
      ensures pool[..end] == Without(old(pool), IndexOf(old(pool), r))
    {
      ghost var before, at := pool, IndexOf(pool, r);
      var it := 0;
      end := 0;
      while it < |pool|
        invariant end == if it <= at then it else it - 1
        invariant it <= |before| && Swept(pool, before, it, end, Compacted(before, at, it))
      {
        CompactedStep(before, at, it);
        SweptNext(pool, before, it, end, Compacted(before, at, it));
        if pool[it].resource != r {
          pool := pool[end := pool[it]];
          end := end + 1;
        }
        it := it + 1;
      }
      assert before[at + 1..it] == before[at + 1..];
    }

    /** Erases the one item that has been left at the end. */
    method EraseUnsafe(r: Resource)
      requires Valid() && IndexOf(pool, r) < |pool|
      modifies this`pool, this`poolIndex, this`counts
      ensures Valid()
      ensures Contents() == Erased(old(Contents()), IndexOf(old(pool), r))
      ensures r !in Refs(pool)
    {
      ErasingKeepsShape(Contents(), IndexOf(pool, r));
      var it := RemoveResource(r);
      pool := pool[..it] + pool[it + 1..];
      assert pool == Without(old(pool), IndexOf(old(pool), r));
      if poolIndex >= |pool| {
        poolIndex := 0;
      }
      counts := counts - multiset{r};
    }

    /** std::find_if by resource. */
    method FindResource(r: Resource) returns (it: nat)
      ensures it == IndexOf(pool, r)
    {
      it := 0;
      while it < |pool| && pool[it].resource != r
        invariant it <= IndexOf(pool, r)
      {
        it := it + 1;
      }
    }

    /** A healthy item that was invalid before its check becomes valid, if it is still in the pool. */
    method Revalidate(r: Resource)
      requires Valid()
      modifies this`pool
      ensures Valid()
      ensures var at := IndexOf(old(pool), r);
              pool == if at < |old(pool)| then old(pool)[at := old(pool)[at].(valid := true)] else old(pool)
    {
      var it := FindResource(r);
      if it != |pool| {
        pool := pool[it := pool[it].(valid := true)];
      }
    }

    /** The old items are destroyed after the mutex has been released. */
    method ClearPool() returns (tmpPool: seq<Item>)
      modifies this`pool, this`poolIndex
      ensures Valid() && pool == [] && poolIndex == 0 && tmpPool == old(pool)
    {
      tmpPool := pool;
      pool := [];
      poolIndex := 0;
    }

    // ---- resource-count keeper ----

    /** The number of available items the pool state reports. */
    method AvailableCount() returns (n: nat)
      ensures n == Available(Contents())
    {
      n := 0;
      var i := 0;
      while i < |pool|
        invariant i <= |pool| && n == CountAvailable(counts, pool[..i])
      {
        assert pool[..i + 1][..i] == pool[..i];
        if IsAvailable(counts, pool[i]) {
          n := n + 1;
        }
        i := i + 1;
      }
      assert pool[..|pool|] == pool;
    }

    /** One std::remove_if pass over the first `last` items with a predicate that counts down.
        `released` are the references of removed items; each dies when its item is overwritten or
        when the tail is destroyed. */
    method RemovePass(second: bool, last: nat, toRemove: nat)
      returns (end: nat, left: nat, released: multiset<Resource>)
      requires last <= |pool|
      modifies this`pool
      ensures |pool| == |old(pool)| && end <= last
      ensures var p := RunPass(counts, second, old(pool)[..last], toRemove);
              pool[..end] == p.kept && left == p.left && released == Refs(p.dropped)
    {
      ghost var before := pool;
      end, left, released := 0, toRemove, multiset{};
      var it := 0;
      while it < last
        invariant it <= last
        invariant Passing(pool, before, it, end, left, released, RunPass(counts, second, before[..it], toRemove))
      {
        PassingNext(counts, second, toRemove, pool, before, it, end, left, released);
        if Drops(counts, second, left, pool[it]) {
          left := left - 1;
          released := released + multiset{pool[it].resource};
        } else {
          pool := pool[end := pool[it]];
          end := end + 1;
        }
        it := it + 1;
      }
    }

    /** Both passes, the erasure of the tail and the destruction of what the pool gave up. */
    method TrimPool(removeCount: nat)
      modifies this`pool, this`poolIndex, this`counts
      ensures Contents() == Trimmed(old(Contents()), removeCount)
    {
      ghost var before := pool;
      assert before[..|before|] == before;
      var it, toRemove, released := RemovePass(false, |pool|, removeCount);
      var more;
      it, toRemove, more := RemovePass(true, it, toRemove);
      TrimPasses(counts, before, removeCount);
      pool := pool[..it];
      if poolIndex >= |pool| {
        poolIndex := 0;
      }
      counts := counts - (released + more);
    }

    /** Collecting the creations that succeeded and, in a critical section, pooling them, or else
        destroying them because the population has changed. */
    method AddSpare(population: nat, made: seq<Resource>)
      modifies this`pool, this`counts
      ensures Contents() == if population == populationId then Added(old(Contents()), made) else old(Contents())
    {
      var temporaryPool := Valids(made);
      counts := counts + Refs(temporaryPool);
      if population == populationId {
        pool := pool + temporaryPool;
      } else {
        counts := counts - Refs(temporaryPool);
      }
    }

    /** One cycle with nothing in between. `made` are the creations that succeed out of those the
        keeper asks for when too few items are available. */
    method KeeperCycle(minSpare: nat, maxSpare: nat, made: seq<Resource>)
      modifies this`pool, this`poolIndex, this`counts
      ensures Contents() == Cycle(old(Contents()), minSpare, maxSpare, made)
    {
      var availableCount := AvailableCount();
      if availableCount < minSpare {
        AddSpare(populationId, made);
      } else if availableCount > maxSpare {
        TrimPool(availableCount - maxSpare);
      }
    }

    /** Two cycles, each with new creations that all succeed: the pool stays in order and, if the
        bounds are the right way round, the second one changes nothing. */
    method TwoCycles(minSpare: nat, maxSpare: nat, made: seq<Resource>, again: seq<Resource>)
      requires Valid() && Fresh(Contents(), made) && |made| == Needed(Contents(), minSpare)
      requires var t := Cycle(Contents(), minSpare, maxSpare, made); Fresh(t, again) && |again| == Needed(t, minSpare)
      modifies this`pool, this`poolIndex, this`counts
      ensures Valid()
      ensures minSpare <= maxSpare ==>
                && Contents() == Cycle(old(Contents()), minSpare, maxSpare, made)
                && minSpare <= Available(Contents()) <= maxSpare
    {
      ghost var before := Contents();
      CycleKeepsShape(before, minSpare, maxSpare, made);
      CycleConverges(before, minSpare, maxSpare, made, again);
      KeeperCycle(minSpare, maxSpare, made);
      ghost var after := Contents();
      CycleKeepsShape(after, minSpare, maxSpare, again);
      KeeperCycle(minSpare, maxSpare, again);
    }
  }

  /** std::remove_if on its way: the first `end` items are those kept among the first `it`, and the
      items from `it` on are still in their old places. */
  ghost predicate Swept(items: seq<Item>, before: seq<Item>, it: nat, end: nat, kept: seq<Item>) {
    && end <= it <= |items| == |before|
    && items[it..] == before[it..]
    && items[..end] == kept
  }

  lemma SweptNext(items: seq<Item>, before: seq<Item>, it: nat, end: nat, kept: seq<Item>)
    requires it < |items| && Swept(items, before, it, end, kept)
    ensures items[it] == before[it]
    ensures Swept(items, before, it + 1, end, kept)
    ensures Swept(items[end := items[it]], before, it + 1, end + 1, kept + [before[it]])
  {
    assert items[it] == items[it..][0];
    assert items[it + 1..] == items[it..][1..] && before[it + 1..] == before[it..][1..];
    assert items[end := items[it]][it + 1..] == items[it + 1..];
    assert items[end := items[it]][..end + 1] == items[..end] + [items[it]];
  }

  /** A removal pass on its way. */
  ghost predicate Passing(items: seq<Item>, before: seq<Item>, it: nat, end: nat, left: nat,
                          released: multiset<Resource>, p: Pass)
  {
    Swept(items, before, it, end, p.kept) && left == p.left && released == Refs(p.dropped)
  }

  lemma PassingNext(counts: multiset<Resource>, second: bool, toRemove: nat,
                    items: seq<Item>, before: seq<Item>, it: nat, end: nat, left: nat, released: multiset<Resource>)
    requires it < |items| == |before|
    requires Passing(items, before, it, end, left, released, RunPass(counts, second, before[..it], toRemove))
    ensures var p := RunPass(counts, second, before[..it + 1], toRemove);
            if Drops(counts, second, left, items[it])
            then Passing(items, before, it + 1, end, left - 1, released + multiset{items[it].resource}, p)
            else Passing(items[end := items[it]], before, it + 1, end + 1, left, released, p)
  {
    var p := RunPass(counts, second, before[..it], toRemove);
    OneMoreTested(counts, second, before, it + 1, toRemove);
    RefsSnoc(p.dropped, before[it]);
    SweptNext(items, before, it, end, p.kept);
  }

  /** The first `it` items without the one at `at`. */
  function Compacted(items: seq<Item>, at: nat, it: nat): seq<Item>
    requires it <= |items|
  {
    if it <= at then items[..it] else items[..at] + items[at + 1..it]
  }

  lemma CompactedStep(items: seq<Item>, at: nat, it: nat)
    requires it < |items|
    ensures Compacted(items, at, it + 1) == Compacted(items, at, it) + if it == at then [] else [items[it]]
  {
    if it < at {
      assert items[..it + 1] == items[..it] + [items[it]];
    } else if at < it {
      assert items[at + 1..it + 1] == items[at + 1..it] + [items[it]];
    }
  }

  lemma TrimPasses(counts: multiset<Resource>, items: seq<Item>, n: nat)
    ensures var first := RunPass(counts, false, items, n);
            var second := RunPass(counts, true, first.kept, first.left);
            && Trim(counts, items, n).kept == second.kept
            && Refs(Trim(counts, items, n).dropped) == Refs(first.dropped) + Refs(second.dropped)
  {
    var first := RunPass(counts, false, items, n);
    RefsConcat(first.dropped, RunPass(counts, true, first.kept, first.left).dropped);
  }

  /** Where a search of the pool stops is determined by what it found on the way. */
  lemma {:induction false} FirstAvailableIs(counts: multiset<Resource>, pool: seq<Item>, from: nat, it: nat)
    requires from <= it <= |pool|
    requires it < |pool| ==> IsAvailable(counts, pool[it])
    requires forall k | from <= k < it :: !IsAvailable(counts, pool[k])
    ensures FirstAvailable(counts, pool, from) == it
  {
    var first := FirstAvailable(counts, pool, from);
    assert !(first < it) && !(it < first);
  }
}
