/** The records a pool keeps: one shared pointer and one `valid` flag per item.
    A shared pointer is represented by the identity of the object it owns, and the strong
    reference counts of all objects by one multiset. */
module PoolItems {

  /** The identity of one object made by the factory; never reused. */
  type Resource = nat

  datatype Item = Item(valid: bool, resource: Resource)

  /** How a health check ends; a check that throws has no answer. */
  datatype Verdict = Healthy | Unhealthy | CheckFailed

  /** The strong count is above the single reference the pool itself holds. */
  predicate IsUsed(counts: multiset<Resource>, item: Item) {
    counts[item.resource] > 1
  }

  predicate IsAvailable(counts: multiset<Resource>, item: Item) {
    item.valid && !IsUsed(counts, item)
  }

  /** A trim pass drops this item: available ones first, any unused ones in the second pass. */
  predicate Drops(counts: multiset<Resource>, second: bool, toRemove: nat, item: Item) {
    toRemove > 0 && if second then !IsUsed(counts, item) else IsAvailable(counts, item)
  }

  /** The references a vector of items owns: one for each item. */
  function Refs(items: seq<Item>): (m: multiset<Resource>)
    ensures |m| == |items|
  {
    if items == [] then multiset{} else multiset{items[0].resource} + Refs(items[1..])
  }

  ghost predicate Distinct(items: seq<Item>) {
    forall i, j | 0 <= i < j < |items| :: items[i].resource != items[j].resource
  }

  /** The position `std::find_if` returns when looking for `r`; the length when it is absent. */
  function IndexOf(items: seq<Item>, r: Resource): (i: nat)
    ensures i <= |items|
    ensures i < |items| ==> items[i].resource == r
    ensures forall k | 0 <= k < i :: items[k].resource != r
  {
    if items == [] || items[0].resource == r then 0 else 1 + IndexOf(items[1..], r)
  }

  function Without(items: seq<Item>, i: nat): seq<Item>
    requires i < |items|
  {
    items[..i] + items[i + 1..]
  }

  lemma {:induction false} RefsConcat(a: seq<Item>, b: seq<Item>)
    ensures Refs(a + b) == Refs(a) + Refs(b)
  {
    if a == [] {
      assert a + b == b;
    } else {
      assert (a + b)[1..] == a[1..] + b;
      RefsConcat(a[1..], b);
    }
  }

  lemma {:induction false} RefsSnoc(a: seq<Item>, x: Item)
    ensures Refs(a + [x]) == Refs(a) + multiset{x.resource}
  {
    RefsConcat(a, [x]);
    assert Refs([x]) == multiset{x.resource} + Refs([x][1..]);
  }

  lemma RefsOne(items: seq<Item>)
    requires |items| == 1
    ensures Refs(items) == multiset{items[0].resource}
  {
    assert items == [] + [items[0]];
    RefsSnoc([], items[0]);
  }

  lemma {:induction false} RefsSplit(items: seq<Item>, i: nat)
    requires i < |items|
    ensures Refs(items) == Refs(items[..i]) + multiset{items[i].resource} + Refs(items[i + 1..])
    ensures Refs(Without(items, i)) == Refs(items) - multiset{items[i].resource}
    ensures items[i].resource in Refs(items)
  {
    var before, x, after := items[..i], items[i], items[i + 1..];
    assert items == (before + [x]) + after;
    RefsConcat(before + [x], after);
    RefsSnoc(before, x);
    RefsConcat(before, after);
  }

  lemma RefsWithout(items: seq<Item>, i: nat)
    requires i < |items|
    ensures Refs(items) == Refs(Without(items, i)) + multiset{items[i].resource}
  {
    RefsSplit(items, i);
  }

  lemma WithoutMembers(items: seq<Item>, at: nat)
    requires Distinct(items) && at < |items|
    ensures Distinct(Without(items, at))
    ensures forall x | x in Without(items, at) :: x in items && x.resource != items[at].resource
  {
  }

  /** Changing the flag of one item leaves its references alone. */
  lemma {:induction false} RefsFlag(items: seq<Item>, i: nat, valid: bool)
    requires i < |items|
    ensures Refs(items[i := items[i].(valid := valid)]) == Refs(items)
  {
    var changed := items[i := items[i].(valid := valid)];
    RefsSplit(items, i);
    RefsSplit(changed, i);
    assert changed[..i] == items[..i] && changed[i + 1..] == items[i + 1..];
  }

  lemma {:induction false} RefsMember(items: seq<Item>, r: Resource)
    ensures r in Refs(items) <==> exists i :: 0 <= i < |items| && items[i].resource == r
  {
    if items != [] {
      RefsMember(items[1..], r);
      if exists i :: 0 <= i < |items| && items[i].resource == r {
        var i :| 0 <= i < |items| && items[i].resource == r;
        assert i == 0 || items[1..][i - 1].resource == r;
      }
    }
  }

  /** Pairwise distinct resources and at most one reference each are the same thing. */
  lemma {:induction false} DistinctRefs(items: seq<Item>)
    ensures Distinct(items) <==> forall r :: Refs(items)[r] <= 1
  {
    if items != [] {
      var head, tail := items[0].resource, items[1..];
      DistinctRefs(tail);
      RefsMember(tail, head);
      assert forall r :: Refs(items)[r] == (if r == head then 1 else 0) + Refs(tail)[r];
      if forall r :: Refs(items)[r] <= 1 {
        assert Refs(items)[head] <= 1;
        assert head !in Refs(tail);
        assert forall r :: Refs(tail)[r] <= Refs(items)[r];
        assert Distinct(tail);
        forall i, j | 0 <= i < j < |items| ensures items[i].resource != items[j].resource {
          assert items[j] == tail[j - 1];
        }
      }
      if Distinct(items) {
        forall i, j | 0 <= i < j < |tail| ensures tail[i].resource != tail[j].resource {
          assert tail[i] == items[i + 1] && tail[j] == items[j + 1];
        }
        assert forall i | 0 <= i < |tail| :: tail[i] == items[i + 1];
        assert head !in Refs(tail);
      }
    }
  }

  /** Fresh items for the given resources. */
  function Valids(resources: seq<Resource>): (items: seq<Item>)
    ensures |items| == |resources|
    ensures forall i | 0 <= i < |items| :: items[i] == Item(true, resources[i])
  {
    if resources == [] then [] else [Item(true, resources[0])] + Valids(resources[1..])
  }

  lemma MultisetCons(head: Resource, tail: seq<Resource>)
    ensures multiset([head] + tail) == multiset{head} + multiset(tail)
  {
  }

  lemma {:induction false} ValidsRefs(made: seq<Resource>)
    ensures Refs(Valids(made)) == multiset(made)
  {
    if made != [] {
      var first, rest := [Item(true, made[0])], Valids(made[1..]);
      RefsConcat(first, rest);
      RefsOne(first);
      ValidsRefs(made[1..]);
      MultisetCons(made[0], made[1..]);
      assert made == [made[0]] + made[1..];
    }
  }

  /** One group of references changes its place in a sum of three. */
  lemma SumMoves(a: multiset<Resource>, b: multiset<Resource>)
    ensures a + b + multiset{} == multiset{} + (b + a) + multiset{}
    ensures a + b + multiset{} == (multiset{} + b + multiset{}) + a
    ensures multiset{} + b + b == b + b
    ensures multiset{} + b == b
  {
  }

  /** The first item of the open part of a batch. */
  lemma OpenTail(batch: seq<Item>, k: nat, a: seq<Item>, b: seq<Item>)
    requires k < |batch|
    ensures batch[k..] + a + b == [batch[k]] + (batch[k + 1..] + a + b)
  {
  }

  lemma DistinctTail(x: Item, rest: seq<Item>)
    requires Distinct([x] + rest)
    ensures Distinct(rest)
    ensures forall y | y in rest :: y.resource != x.resource
  {
    var all := [x] + rest;
    forall i, j | 0 <= i < j < |rest| ensures rest[i].resource != rest[j].resource {
      assert rest[i] == all[i + 1] && rest[j] == all[j + 1];
    }
    forall y | y in rest ensures y.resource != x.resource {
      var i :| 0 <= i < |rest| && rest[i] == y;
      assert all[0] == x && all[i + 1] == y;
    }
  }
}
