/** Finding a result column by name: a sorted index, built on first use, against a linear search. */
module ColumnIndex {
  import opened Wrappers

  // ---- the order of names ----

  /** Lexicographic order. */
  predicate Less(a: string, b: string) {
    && b != ""
    && (a == "" || a[0] < b[0] || (a[0] == b[0] && Less(a[1..], b[1..])))
  }

  lemma {:induction false} LessIsStrict(a: string, b: string)
    ensures !(Less(a, b) && Less(b, a))
    ensures Less(a, b) || Less(b, a) || a == b
    ensures Less(a, b) ==> a != b
  {
    if a != "" && b != "" && a[0] == b[0] {
      LessIsStrict(a[1..], b[1..]);
      assert a == [a[0]] + a[1..] && b == [b[0]] + b[1..];
    }
  }

  lemma {:induction false} LessTrans(a: string, b: string, c: string)
    requires Less(a, b) && Less(b, c)
    ensures Less(a, c)
  {
    if a != "" && a[0] == b[0] && b[0] == c[0] {
      LessTrans(a[1..], b[1..], c[1..]);
    }
  }

  // ---- mappings ----

  datatype Mapping = Mapping(name: string, index: nat)

  /** The order of pairs. */
  predicate Before(x: Mapping, y: Mapping) {
    Less(x.name, y.name) || (!Less(y.name, x.name) && x.index < y.index)
  }

  lemma BeforeTrans(x: Mapping, y: Mapping, z: Mapping)
    requires Before(x, y) && Before(y, z)
    ensures Before(x, z)
  {
    LessIsStrict(x.name, y.name);
    LessIsStrict(y.name, z.name);
    LessIsStrict(x.name, z.name);
    if Less(x.name, y.name) && Less(y.name, z.name) {
      LessTrans(x.name, y.name, z.name);
    }
  }

  lemma BeforeTotal(x: Mapping, y: Mapping)
    ensures Before(x, y) || Before(y, x) || x == y
  {
    LessIsStrict(x.name, y.name);
  }

  ghost predicate Sorted(ms: seq<Mapping>) {
    forall i, j | 0 <= i < j < |ms| :: Before(ms[i], ms[j])
  }

  /** The mappings of a list of names, in the order of the columns. */
  function Indexed(names: seq<string>): seq<Mapping> {
    seq(|names|, i requires 0 <= i < |names| => Mapping(names[i], i))
  }

  /** A complete index: exactly the mappings of the names, in order. */
  ghost predicate IsIndex(ms: seq<Mapping>, names: seq<string>) {
    Sorted(ms) && multiset(ms) == multiset(Indexed(names))
  }

  /** The first column with a name. */
  function FirstIndex(names: seq<string>, name: string): (r: Option<nat>)
    ensures r.None? <==> name !in names
    ensures r.Some? ==> r.value < |names| && names[r.value] == name && forall j | 0 <= j < r.value :: names[j] != name
  {
    if names == [] then None
    else if names[0] == name then Some(0)
    else
      assert names == [names[0]] + names[1..];
      var r := FirstIndex(names[1..], name);
      match r
      case None => None
      case Some(i) =>
        assert forall j | 0 < j < i + 1 :: names[j] == names[1..][j - 1];
        Some(i + 1)
  }

  lemma IndexContains(ms: seq<Mapping>, names: seq<string>, m: Mapping)
    requires IsIndex(ms, names)
    ensures m in ms <==> m.index < |names| && names[m.index] == m.name
  {
    assert m in ms <==> m in multiset(ms);
    assert m in Indexed(names) <==> m in multiset(Indexed(names));
    if m.index < |names| && names[m.index] == m.name {
      assert Indexed(names)[m.index] == m;
    }
  }

  /** In a sorted index, the first mapping whose name is not less decides: it carries the name's least
      column if it carries the name, and otherwise the name is absent. */
  lemma LowerBoundDecides(ms: seq<Mapping>, names: seq<string>, name: string, k: nat)
    requires IsIndex(ms, names) && k <= |ms|
    requires forall i | 0 <= i < k :: Less(ms[i].name, name)
    requires k < |ms| ==> !Less(ms[k].name, name)
    ensures FirstIndex(names, name) == if k < |ms| && !Less(name, ms[k].name) then Some(ms[k].index) else None
  {
    var first := FirstIndex(names, name);
    if first.Some? {
      var m := Mapping(name, first.value);
      IndexContains(ms, names, m);
      var at :| 0 <= at < |ms| && ms[at] == m;
      LessIsStrict(name, name);
      assert k <= at;
      LessIsStrict(ms[k].name, name);
      IndexContains(ms, names, ms[k]);
    } else if k < |ms| {
      IndexContains(ms, names, ms[k]);
      LessIsStrict(ms[k].name, name);
    }
  }

  // ---- building and searching the index ----

  /** Putting a new mapping in its place. */
  method Insert(ms: seq<Mapping>, m: Mapping) returns (r: seq<Mapping>)
    requires Sorted(ms) && m !in ms
    ensures Sorted(r) && multiset(r) == multiset(ms) + multiset{m}
  {
    var k := |ms|;
    while k > 0 && Before(m, ms[k - 1])
      invariant 0 <= k <= |ms|
      invariant forall i | k <= i < |ms| :: Before(m, ms[i])
    {
      k := k - 1;
    }
    if k > 0 {
      BeforeTotal(m, ms[k - 1]);
    }
    forall i | 0 <= i < k ensures Before(ms[i], m) {
      if i < k - 1 {
        BeforeTrans(ms[i], ms[k - 1], m);
      }
    }
    Inserted(ms, m, k);
    r := ms[..k] + [m] + ms[k..];
  }

  lemma Inserted(ms: seq<Mapping>, m: Mapping, k: nat)
    requires k <= |ms|
    ensures multiset(ms[..k] + [m] + ms[k..]) == multiset(ms) + multiset{m}
  {
    assert ms == ms[..k] + ms[k..];
  }

  lemma NewInPrefix(ms: seq<Mapping>, i: nat)
    requires i < |ms| && forall j | 0 <= j < i :: ms[j] != ms[i]
    ensures ms[i] !in multiset(ms[..i]) && multiset(ms[..i + 1]) == multiset(ms[..i]) + multiset{ms[i]}
  {
    assert ms[..i + 1] == ms[..i] + [ms[i]];
  }

  /** Sorting pairwise different mappings. */
  method Sort(unsorted: seq<Mapping>) returns (ms: seq<Mapping>)
    requires forall i, j | 0 <= i < j < |unsorted| :: unsorted[i] != unsorted[j]
    ensures Sorted(ms) && multiset(ms) == multiset(unsorted)
  {
    ms := [];
    var i := 0;
    while i < |unsorted|
      invariant i <= |unsorted| && Sorted(ms) && multiset(ms) == multiset(unsorted[..i])
    {
      NewInPrefix(unsorted, i);
      assert unsorted[i] !in multiset(ms);
      ms := Insert(ms, unsorted[i]);
      i := i + 1;
    }
    assert unsorted[..i] == unsorted;
  }

  /** Halving the range until the first mapping whose name is not less is found. */
  method LowerBound(ms: seq<Mapping>, name: string) returns (k: nat)
    requires Sorted(ms)
    ensures k <= |ms|
    ensures forall i | 0 <= i < |ms| :: Less(ms[i].name, name) <==> i < k
  {
    k := 0;
    var count := |ms|;
    while count > 0
      invariant 0 <= count && k + count <= |ms|
      invariant forall i | 0 <= i < k :: Less(ms[i].name, name)
      invariant forall i | k + count <= i < |ms| :: !Less(ms[i].name, name)
    {
      var half := count / 2;
      var middle := k + half;
      if Less(ms[middle].name, name) {
        forall i | k <= i < middle ensures Less(ms[i].name, name) {
          SmallerIsLess(ms[i], ms[middle], name);
        }
        k, count := middle + 1, count - half - 1;
      } else {
        forall i | middle < i < |ms| ensures !Less(ms[i].name, name) {
          if Less(ms[i].name, name) {
            SmallerIsLess(ms[middle], ms[i], name);
          }
        }
        count := half;
      }
    }
  }

  lemma SmallerIsLess(x: Mapping, y: Mapping, name: string)
    requires Before(x, y) && Less(y.name, name)
    ensures Less(x.name, name)
  {
    LessIsStrict(x.name, y.name);
    if Less(x.name, y.name) {
      LessTrans(x.name, y.name, name);
    }
  }

  class QueryResult {
    const names: seq<string>
    var mappings: Option<seq<Mapping>>

    /** A cached index is the index of the columns. */
    ghost predicate Valid()
      reads this
    {
      mappings.Some? ==> IsIndex(mappings.value, names)
    }

    constructor (names: seq<string>)
      ensures Valid() && this.names == names && mappings == None
    {
      this.names, mappings := names, None;
    }

    method GetColumnNameMappings() returns (ms: seq<Mapping>)
      requires Valid()
      modifies this
      ensures Valid() && mappings == Some(ms) && IsIndex(ms, names)
      ensures old(mappings).Some? ==> mappings == old(mappings)
    {
      if mappings.None? {
        var unsorted: seq<Mapping> := [];
        var i := 0;
        while i < |names|
          invariant i <= |names| && unsorted == Indexed(names)[..i]
          modifies {}
        {
          unsorted := unsorted + [Mapping(names[i], i)];
          i := i + 1;
        }
        assert unsorted == Indexed(names);
        var sorted := Sort(unsorted);
        mappings := Some(sorted);
      }
      ms := mappings.value;
    }

    /** Whether or not the index was built before, the answer is that of a linear search. */
    method GetColumnIndex(name: string) returns (r: Option<nat>)
      requires Valid()
      modifies this
      ensures Valid() && mappings.Some? && (old(mappings).Some? ==> mappings == old(mappings))
      ensures r == FirstIndex(names, name)
    {
      var ms := GetColumnNameMappings();
      var k := LowerBound(ms, name);
      LowerBoundDecides(ms, names, name, k);
      if k < |ms| && !Less(name, ms[k].name) {
        r := Some(ms[k].index);
      } else {
        r := None;
      }
    }
  }
}
