/** One uninterrupted cycle of the resource-count keeper as a function of the pool. */
module KeeperCycle {
  import opened PoolItems
  import opened PoolSpec

  datatype Pooled = Pooled(pool: seq<Item>, poolIndex: nat, counts: multiset<Resource>)

  function Available(s: Pooled): nat {
    CountAvailable(s.counts, s.pool)
  }

  function Used(s: Pooled): seq<Item> {
    UsedOnly(s.counts, s.pool)
  }

  /** How many creations the keeper asks for. */
  function Needed(s: Pooled, minSpare: nat): nat {
    if Available(s) < minSpare then minSpare - Available(s) else 0
  }

  function TrimIndex(poolIndex: nat, size: nat): nat {
    if poolIndex >= size then 0 else poolIndex
  }

  /** The pool after a trim; dropped items lose the reference the pool held. */
  function Trimmed(s: Pooled, n: nat): Pooled {
    var p := Trim(s.counts, s.pool, n);
    Pooled(p.kept, TrimIndex(s.poolIndex, |p.kept|), s.counts - Refs(p.dropped))
  }

  /** The pool after new items have been added. */
  function Added(s: Pooled, made: seq<Resource>): Pooled {
    Pooled(s.pool + Valids(made), s.poolIndex, s.counts + Refs(Valids(made)))
  }

  /** `made` are the creations that succeeded. */
  function Cycle(s: Pooled, minSpare: nat, maxSpare: nat, made: seq<Resource>): Pooled {
    if Available(s) < minSpare then Added(s, made)
    else if Available(s) > maxSpare then Trimmed(s, Available(s) - maxSpare)
    else s
  }

  /** The pool after the item at `at` has been erased together with its reference. */
  function Erased(s: Pooled, at: nat): Pooled
    requires at < |s.pool|
  {
    var rest := Without(s.pool, at);
    Pooled(rest, TrimIndex(s.poolIndex, |rest|), s.counts - multiset{s.pool[at].resource})
  }

  /** The pool holds a counted reference to each of its resources, and to no resource twice. */
  ghost predicate WellCounted(s: Pooled) {
    && (if s.pool == [] then s.poolIndex == 0 else s.poolIndex < |s.pool|)
    && Distinct(s.pool)
    && forall x | x in s.pool :: x.resource in s.counts
  }

  lemma {:induction false} ErasingKeepsShape(s: Pooled, at: nat)
    requires WellCounted(s) && at < |s.pool|
    ensures WellCounted(Erased(s, at)) && s.pool[at].resource !in Refs(Erased(s, at).pool)
  {
    WithoutMembers(s.pool, at);
    RefsMember(Without(s.pool, at), s.pool[at].resource);
  }

  ghost predicate Fresh(s: Pooled, made: seq<Resource>) {
    && (forall r | r in made :: r !in s.counts)
    && forall i, j | 0 <= i < j < |made| :: made[i] != made[j]
  }

  // ---- adding ----

  lemma MultisetOfDistinct(made: seq<Resource>, r: Resource)
    requires forall i, j | 0 <= i < j < |made| :: made[i] != made[j]
    ensures multiset(made)[r] == if r in made then 1 else 0
  {
    if made != [] {
      var tail := made[1..];
      assert made == [made[0]] + tail;
      MultisetCons(made[0], tail);
      assert forall i | 0 <= i < |tail| :: tail[i] == made[i + 1];
      MultisetOfDistinct(tail, r);
    }
  }

  lemma {:induction false} FreshAreAvailable(counts: multiset<Resource>, items: seq<Item>)
    requires forall x | x in items :: IsAvailable(counts, x)
    ensures CountAvailable(counts, items) == |items| && UsedOnly(counts, items) == []
  {
    if items != [] {
      FreshAreAvailable(counts, items[..|items| - 1]);
    }
  }

  lemma {:induction false} UsedOnlyConcat(counts: multiset<Resource>, a: seq<Item>, b: seq<Item>)
    ensures UsedOnly(counts, a + b) == UsedOnly(counts, a) + UsedOnly(counts, b)
  {
    if b == [] {
      assert a + b == a;
    } else {
      assert (a + b)[..|a + b| - 1] == a + b[..|b| - 1];
      UsedOnlyConcat(counts, a, b[..|b| - 1]);
    }
  }

  /** Adding grows the available items by the number of successes and leaves used items alone. */
  lemma {:induction false} AddingGrows(s: Pooled, made: seq<Resource>)
    requires WellCounted(s) && Fresh(s, made)
    ensures Available(Added(s, made)) == Available(s) + |made| && Used(Added(s, made)) == Used(s)
  {
    ValidsRefs(made);
    var counts := s.counts + multiset(made);
    CountAvailableConcat(counts, s.pool, Valids(made));
    UsedOnlyConcat(counts, s.pool, Valids(made));
    CountAvailableLocal(s.counts, counts, s.pool);
    forall x | x in Valids(made) ensures IsAvailable(counts, x) {
      assert x.resource in made;
      MultisetOfDistinct(made, x.resource);
    }
    FreshAreAvailable(counts, Valids(made));
  }

  lemma {:induction false} AddingKeepsShape(s: Pooled, made: seq<Resource>)
    requires WellCounted(s) && Fresh(s, made)
    ensures WellCounted(Added(s, made))
  {
    var pool := s.pool + Valids(made);
    forall i, j | 0 <= i < j < |pool| ensures pool[i].resource != pool[j].resource {
      if i < |s.pool| <= j {
        assert pool[i] in s.pool;
      }
    }
    forall x | x in pool ensures x.resource in s.counts + Refs(Valids(made)) {
      RefsMember(Valids(made), x.resource);
    }
  }

  // ---- trimming ----

  lemma {:induction false} RefsOfParts(a: seq<Item>, b: seq<Item>, whole: seq<Item>)
    requires multiset(a) + multiset(b) == multiset(whole)
    ensures forall r :: Refs(a)[r] + Refs(b)[r] == Refs(whole)[r]
  {
    forall r ensures Refs(a)[r] + Refs(b)[r] == Refs(whole)[r] {
      CountRefs(a, r);
      CountRefs(b, r);
      CountRefs(whole, r);
      assert multiset(whole)[Item(true, r)] == multiset(a)[Item(true, r)] + multiset(b)[Item(true, r)];
      assert multiset(whole)[Item(false, r)] == multiset(a)[Item(false, r)] + multiset(b)[Item(false, r)];
    }
  }

  lemma {:induction false} CountRefs(items: seq<Item>, r: Resource)
    ensures Refs(items)[r] == multiset(items)[Item(true, r)] + multiset(items)[Item(false, r)]
  {
    if items != [] {
      CountRefs(items[1..], r);
      assert items == [items[0]] + items[1..];
      assert multiset(items) == multiset{items[0]} + multiset(items[1..]);
    }
  }

  /** What a trim keeps is untouched by the destruction of what it drops. */
  lemma {:induction false} KeptCountsStay(s: Pooled, n: nat)
    requires WellCounted(s)
    ensures var p := Trim(s.counts, s.pool, n);
            var counts := s.counts - Refs(p.dropped);
            && (forall x | x in p.kept :: counts[x.resource] == s.counts[x.resource])
            && Distinct(p.kept)
            && forall x | x in p.kept :: x in s.pool
  {
    var p := Trim(s.counts, s.pool, n);
    TrimMeaning(s.counts, s.pool, n);
    RefsOfParts(p.kept, p.dropped, s.pool);
    DistinctRefs(s.pool);
    DistinctRefs(p.kept);
    SubsequenceMembers(p.kept, s.pool);
    forall r ensures Refs(p.kept)[r] <= 1 && Refs(p.kept)[r] + Refs(p.dropped)[r] <= 1 {
      assert Refs(s.pool)[r] <= 1;
    }
    forall x | x in p.kept ensures Refs(p.dropped)[x.resource] == 0 {
      RefsMember(p.kept, x.resource);
    }
  }

  lemma {:induction false} TrimmingKeepsShape(s: Pooled, n: nat)
    requires WellCounted(s)
    ensures WellCounted(Trimmed(s, n))
  {
    KeptCountsStay(s, n);
  }

  lemma {:induction false} TrimmingResult(s: Pooled, n: nat)
    requires WellCounted(s) && n <= Available(s)
    ensures Available(Trimmed(s, n)) == Available(s) - n && Used(Trimmed(s, n)) == Used(s)
  {
    var p := Trim(s.counts, s.pool, n);
    TrimAvailable(s.counts, s.pool, n);
    TrimOrder(s.counts, s.pool, n);
    KeptCountsStay(s, n);
    CountAvailableLocal(s.counts, s.counts - Refs(p.dropped), p.kept);
  }

  // ---- the cycle ----

  lemma {:induction false} CycleKeepsShape(s: Pooled, minSpare: nat, maxSpare: nat, made: seq<Resource>)
    requires WellCounted(s) && Fresh(s, made)
    ensures WellCounted(Cycle(s, minSpare, maxSpare, made))
  {
    if Available(s) < minSpare {
      AddingKeepsShape(s, made);
    } else if Available(s) > maxSpare {
      TrimmingKeepsShape(s, Available(s) - maxSpare);
    }
  }

  /** A cycle leaves used items in the pool, in order. */
  lemma {:induction false} CycleKeepsUsed(s: Pooled, minSpare: nat, maxSpare: nat, made: seq<Resource>)
    requires WellCounted(s) && Fresh(s, made)
    ensures Used(Cycle(s, minSpare, maxSpare, made)) == Used(s)
  {
    if Available(s) < minSpare {
      GrowingCycle(s, minSpare, maxSpare, made);
    } else if Available(s) > maxSpare {
      CuttingCycle(s, minSpare, maxSpare, made);
    }
  }

  lemma {:induction false} GrowingCycle(s: Pooled, minSpare: nat, maxSpare: nat, made: seq<Resource>)
    requires WellCounted(s) && Fresh(s, made) && Available(s) < minSpare
    ensures var t := Cycle(s, minSpare, maxSpare, made); Used(t) == Used(s) && Available(t) == Available(s) + |made|
  {
    AddingGrows(s, made);
  }

  lemma {:induction false} CuttingCycle(s: Pooled, minSpare: nat, maxSpare: nat, made: seq<Resource>)
    requires WellCounted(s) && minSpare <= Available(s) && maxSpare < Available(s)
    ensures var t := Cycle(s, minSpare, maxSpare, made); Used(t) == Used(s) && Available(t) == maxSpare
  {
    TrimmingResult(s, Available(s) - maxSpare);
  }

  /** The number of available items after a cycle: grown by the successes, or cut to the maximum. */
  lemma {:induction false} CycleAvailable(s: Pooled, minSpare: nat, maxSpare: nat, made: seq<Resource>)
    requires WellCounted(s) && Fresh(s, made)
    ensures Available(Cycle(s, minSpare, maxSpare, made))
         == if Available(s) < minSpare then Available(s) + |made| else Min(Available(s), maxSpare)
  {
    if Available(s) < minSpare {
      GrowingCycle(s, minSpare, maxSpare, made);
    } else if Available(s) > maxSpare {
      CuttingCycle(s, minSpare, maxSpare, made);
    }
  }

  /** When every creation succeeds, the cycle after a cycle changes nothing exactly when the bounds
      are the right way round; then the available items are within them. */
  lemma {:induction false} CycleConverges(s: Pooled, minSpare: nat, maxSpare: nat,
                                          made: seq<Resource>, again: seq<Resource>)
    requires WellCounted(s) && Fresh(s, made) && |made| == Needed(s, minSpare)
    requires var t := Cycle(s, minSpare, maxSpare, made); Fresh(t, again) && |again| == Needed(t, minSpare)
    ensures var t := Cycle(s, minSpare, maxSpare, made);
            && (minSpare <= maxSpare <==> Cycle(t, minSpare, maxSpare, again) == t)
            && (minSpare <= maxSpare ==> minSpare <= Available(t) <= maxSpare && again == [])
  {
    var t := Cycle(s, minSpare, maxSpare, made);
    CycleAvailable(s, minSpare, maxSpare, made);
    CycleKeepsShape(s, minSpare, maxSpare, made);
    CycleAvailable(t, minSpare, maxSpare, again);
  }
}
