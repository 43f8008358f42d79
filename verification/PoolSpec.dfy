/** What the critical sections of the pool compute when strong counts do not change meanwhile,
    and what their results mean. */
module PoolSpec {
  import opened PoolItems

  function Min(a: nat, b: nat): nat {
    if a <= b then a else b
  }

  // ---- searching and counting ----

  /** The first available item at or after `from`; the length when there is none. */
  function FirstAvailable(counts: multiset<Resource>, pool: seq<Item>, from: nat): (i: nat)
    requires from <= |pool|
    ensures from <= i <= |pool|
    ensures i < |pool| ==> IsAvailable(counts, pool[i])
    ensures forall k | from <= k < i :: !IsAvailable(counts, pool[k])
    decreases |pool| - from
  {
    if from == |pool| || IsAvailable(counts, pool[from]) then from else FirstAvailable(counts, pool, from + 1)
  }

  function CountAvailable(counts: multiset<Resource>, items: seq<Item>): nat {
    if items == [] then 0
    else CountAvailable(counts, items[..|items| - 1]) + if IsAvailable(counts, items[|items| - 1]) then 1 else 0
  }

  function CountUnused(counts: multiset<Resource>, items: seq<Item>): nat {
    if items == [] then 0
    else CountUnused(counts, items[..|items| - 1]) + if IsUsed(counts, items[|items| - 1]) then 0 else 1
  }

  function UsedOnly(counts: multiset<Resource>, items: seq<Item>): seq<Item> {
    if items == [] then []
    else
      UsedOnly(counts, items[..|items| - 1]) + if IsUsed(counts, items[|items| - 1]) then [items[|items| - 1]] else []
  }

  lemma {:induction false} CountAvailableConcat(counts: multiset<Resource>, a: seq<Item>, b: seq<Item>)
    ensures CountAvailable(counts, a + b) == CountAvailable(counts, a) + CountAvailable(counts, b)
  {
    if b == [] {
      assert a + b == a;
    } else {
      assert (a + b)[..|a + b| - 1] == a + b[..|b| - 1];
      CountAvailableConcat(counts, a, b[..|b| - 1]);
    }
  }

  /** Availability looks at the counts of the given items alone. */
  lemma {:induction false} CountAvailableLocal(counts: multiset<Resource>, other: multiset<Resource>, items: seq<Item>)
    requires forall x | x in items :: counts[x.resource] == other[x.resource]
    ensures CountAvailable(counts, items) == CountAvailable(other, items)
    ensures UsedOnly(counts, items) == UsedOnly(other, items)
  {
    if items != [] {
      CountAvailableLocal(counts, other, items[..|items| - 1]);
    }
  }

  // ---- trimming ----

  datatype Pass = Pass(kept: seq<Item>, dropped: seq<Item>, left: nat)

  /** One removal pass over `items` with `n` removals to go. */
  function RunPass(counts: multiset<Resource>, second: bool, items: seq<Item>, n: nat): Pass {
    if items == [] then Pass([], [], n)
    else
      Tested(counts, second, RunPass(counts, second, items[..|items| - 1], n), items[|items| - 1])
  }

  /** The test of one more item. */
  function Tested(counts: multiset<Resource>, second: bool, p: Pass, x: Item): Pass {
    if Drops(counts, second, p.left, x)
    then Pass(p.kept, p.dropped + [x], p.left - 1)
    else Pass(p.kept + [x], p.dropped, p.left)
  }

  /** A pass over one more item is one more test. */
  lemma OneMoreTested(counts: multiset<Resource>, second: bool, items: seq<Item>, n: nat, toRemove: nat)
    requires 0 < n <= |items|
    ensures RunPass(counts, second, items[..n], toRemove)
         == Tested(counts, second, RunPass(counts, second, items[..n - 1], toRemove), items[n - 1])
  {
    assert items[..n][..n - 1] == items[..n - 1];
  }

  /** Both passes with their shared countdown. */
  function Trim(counts: multiset<Resource>, items: seq<Item>, n: nat): Pass {
    var first := RunPass(counts, false, items, n);
    var second := RunPass(counts, true, first.kept, first.left);
    Pass(second.kept, first.dropped + second.dropped, second.left)
  }

  ghost predicate Subsequence(a: seq<Item>, b: seq<Item>) {
    if b == [] then a == []
    else Subsequence(a, b[..|b| - 1])
         || (a != [] && a[|a| - 1] == b[|b| - 1] && Subsequence(a[..|a| - 1], b[..|b| - 1]))
  }

  lemma {:induction false} SubsequenceSnoc(a: seq<Item>, b: seq<Item>, x: Item)
    requires Subsequence(a, b)
    ensures Subsequence(a, b + [x]) && Subsequence(a + [x], b + [x])
  {
    assert (b + [x])[..|b|] == b && (a + [x])[..|a|] == a;
  }

  lemma {:induction false} SubsequenceTransitive(a: seq<Item>, b: seq<Item>, c: seq<Item>)
    requires Subsequence(a, b) && Subsequence(b, c)
    ensures Subsequence(a, c)
    decreases |c|
  {
    if c != [] {
      if Subsequence(b, c[..|c| - 1]) {
        SubsequenceTransitive(a, b, c[..|c| - 1]);
      } else if Subsequence(a, b[..|b| - 1]) {
        SubsequenceTransitive(a, b[..|b| - 1], c[..|c| - 1]);
      } else {
        SubsequenceTransitive(a[..|a| - 1], b[..|b| - 1], c[..|c| - 1]);
      }
    }
  }

  lemma {:induction false} SubsequenceMembers(a: seq<Item>, b: seq<Item>)
    requires Subsequence(a, b)
    ensures forall x | x in a :: x in b
    decreases |b|
  {
    if b != [] {
      if Subsequence(a, b[..|b| - 1]) {
        SubsequenceMembers(a, b[..|b| - 1]);
      } else {
        SubsequenceMembers(a[..|a| - 1], b[..|b| - 1]);
        assert a == a[..|a| - 1] + [a[|a| - 1]];
      }
    }
  }

  /** A pass keeps the order of what it keeps. */
  lemma {:induction false} PassOrder(counts: multiset<Resource>, second: bool, items: seq<Item>, n: nat)
    ensures Subsequence(RunPass(counts, second, items, n).kept, items)
  {
    if items != [] {
      var before, x := items[..|items| - 1], items[|items| - 1];
      PassOrder(counts, second, before, n);
      SubsequenceSnoc(RunPass(counts, second, before, n).kept, before, x);
      assert items == before + [x];
    }
  }

  lemma UsedOnlySnoc(counts: multiset<Resource>, items: seq<Item>, x: Item)
    ensures UsedOnly(counts, items + [x]) == UsedOnly(counts, items) + if IsUsed(counts, x) then [x] else []
  {
    assert (items + [x])[..|items|] == items;
  }

  /** A pass keeps every used item. */
  lemma {:induction false} PassUsed(counts: multiset<Resource>, second: bool, items: seq<Item>, n: nat)
    ensures UsedOnly(counts, RunPass(counts, second, items, n).kept) == UsedOnly(counts, items)
  {
    if items != [] {
      var before, x := items[..|items| - 1], items[|items| - 1];
      PassUsed(counts, second, before, n);
      UsedOnlySnoc(counts, RunPass(counts, second, before, n).kept, x);
    }
  }

  /** A pass loses no item. */
  lemma {:induction false} PassConserves(counts: multiset<Resource>, second: bool, items: seq<Item>, n: nat)
    ensures var p := RunPass(counts, second, items, n);
            multiset(p.kept) + multiset(p.dropped) == multiset(items)
  {
    if items != [] {
      var before, x := items[..|items| - 1], items[|items| - 1];
      var p := RunPass(counts, second, before, n);
      PassConserves(counts, second, before, n);
      MultisetSnoc(before, x, items);
      MultisetSnoc(p.kept, x, p.kept + [x]);
      MultisetSnoc(p.dropped, x, p.dropped + [x]);
    }
  }

  lemma MultisetSnoc(items: seq<Item>, x: Item, more: seq<Item>)
    requires more == items + [x]
    ensures multiset(more) == multiset(items) + multiset{x}
  {
  }

  /** A pass counts down by what it drops, and drops unused items only. */
  lemma {:induction false} PassCounts(counts: multiset<Resource>, second: bool, items: seq<Item>, n: nat)
    ensures var p := RunPass(counts, second, items, n);
            && |p.dropped| + p.left == n
            && CountUnused(counts, p.kept) + |p.dropped| == CountUnused(counts, items)
            && forall x | x in p.dropped :: !IsUsed(counts, x) && (second || x.valid)
  {
    if items != [] {
      var before, x := items[..|items| - 1], items[|items| - 1];
      PassCounts(counts, second, before, n);
      var p := RunPass(counts, second, before, n);
      assert (p.kept + [x])[..|p.kept|] == p.kept;
    }
  }

  /** A pass stops short of its countdown only when nothing droppable is left. */
  lemma {:induction false} PassExhausts(counts: multiset<Resource>, second: bool, items: seq<Item>, n: nat)
    ensures var p := RunPass(counts, second, items, n);
            p.left > 0 ==> forall x | x in p.kept :: !Drops(counts, second, 1, x)
  {
    if items != [] {
      PassExhausts(counts, second, items[..|items| - 1], n);
    }
  }

  lemma {:induction false} NoUnused(counts: multiset<Resource>, items: seq<Item>)
    requires forall x | x in items :: IsUsed(counts, x)
    ensures CountUnused(counts, items) == 0
  {
    if items != [] {
      NoUnused(counts, items[..|items| - 1]);
    }
  }

  /** What a trim does: it keeps the order, loses nothing, drops as many items as it was asked to or
      as there are unused ones, no used item, and an invalid one only when no available item is left. */
  lemma TrimMeaning(counts: multiset<Resource>, items: seq<Item>, n: nat)
    ensures var p := Trim(counts, items, n);
            && Subsequence(p.kept, items)
            && multiset(p.kept) + multiset(p.dropped) == multiset(items)
            && |p.dropped| == Min(n, CountUnused(counts, items))
            && UsedOnly(counts, p.kept) == UsedOnly(counts, items)
            && (forall x | x in p.dropped :: !IsUsed(counts, x))
            && ((exists x :: x in p.dropped && !x.valid) ==> forall y | y in p.kept :: !IsAvailable(counts, y))
  {
    TrimOrder(counts, items, n);
    TrimConserves(counts, items, n);
    TrimCounts(counts, items, n);
  }

  lemma TrimOrder(counts: multiset<Resource>, items: seq<Item>, n: nat)
    ensures var p := Trim(counts, items, n);
            Subsequence(p.kept, items) && UsedOnly(counts, p.kept) == UsedOnly(counts, items)
  {
    var first := RunPass(counts, false, items, n);
    PassOrder(counts, false, items, n);
    PassOrder(counts, true, first.kept, first.left);
    PassUsed(counts, false, items, n);
    PassUsed(counts, true, first.kept, first.left);
    SubsequenceTransitive(Trim(counts, items, n).kept, first.kept, items);
  }

  lemma TrimConserves(counts: multiset<Resource>, items: seq<Item>, n: nat)
    ensures var p := Trim(counts, items, n); multiset(p.kept) + multiset(p.dropped) == multiset(items)
  {
    var first := RunPass(counts, false, items, n);
    PassConserves(counts, false, items, n);
    PassConserves(counts, true, first.kept, first.left);
  }

  lemma TrimCounts(counts: multiset<Resource>, items: seq<Item>, n: nat)
    ensures var p := Trim(counts, items, n);
            && |p.dropped| == Min(n, CountUnused(counts, items))
            && (forall x | x in p.dropped :: !IsUsed(counts, x))
            && ((exists x :: x in p.dropped && !x.valid) ==> forall y | y in p.kept :: !IsAvailable(counts, y))
  {
    var first := RunPass(counts, false, items, n);
    var second := RunPass(counts, true, first.kept, first.left);
    PassCounts(counts, false, items, n);
    PassCounts(counts, true, first.kept, first.left);
    PassExhausts(counts, false, items, n);
    PassExhausts(counts, true, first.kept, first.left);
    PassOrder(counts, true, first.kept, first.left);
    SubsequenceMembers(second.kept, first.kept);
    if second.left > 0 {
      NoUnused(counts, second.kept);
    }
  }

  /** Asked for no more than the available items, a trim drops available items only. */
  lemma TrimAvailable(counts: multiset<Resource>, items: seq<Item>, n: nat)
    requires n <= CountAvailable(counts, items)
    ensures CountAvailable(counts, Trim(counts, items, n).kept) == CountAvailable(counts, items) - n
  {
    var first := RunPass(counts, false, items, n);
    PassCounts(counts, false, items, n);
    PassTakesAvailable(counts, items, n);
    PassIdle(counts, true, first.kept);
    assert first.left == 0;
  }

  lemma {:induction false} PassTakesAvailable(counts: multiset<Resource>, items: seq<Item>, n: nat)
    ensures var p := RunPass(counts, false, items, n);
            && |p.dropped| == Min(n, CountAvailable(counts, items))
            && CountAvailable(counts, p.kept) + |p.dropped| == CountAvailable(counts, items)
  {
    if items != [] {
      var before, x := items[..|items| - 1], items[|items| - 1];
      PassTakesAvailable(counts, before, n);
      PassCounts(counts, false, before, n);
      var p := RunPass(counts, false, before, n);
      assert (p.kept + [x])[..|p.kept|] == p.kept;
    }
  }

  /** With nothing to remove a pass changes nothing. */
  lemma {:induction false} PassIdle(counts: multiset<Resource>, second: bool, items: seq<Item>)
    ensures RunPass(counts, second, items, 0) == Pass(items, [], 0)
  {
    if items != [] {
      PassIdle(counts, second, items[..|items| - 1]);
      assert items == items[..|items| - 1] + [items[|items| - 1]];
    }
  }
}
