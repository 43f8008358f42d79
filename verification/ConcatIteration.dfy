/** Iterating over one range and then another. */
module ConcatIteration {

  /** An iterator into the first range or into the second one; one past the last element is allowed. */
  datatype Position = InFirst(i: nat) | InSecond(j: nat)

  predicate Within(p: Position, n1: nat, n2: nat) {
    match p
    case InFirst(i) => i <= n1
    case InSecond(j) => j <= n2
  }

  predicate AtEnd(p: Position, n2: nat) {
    p.InSecond? && p.j >= n2
  }

  /** A step in the first range goes on to the second one if it does not stay before the end. Stepping
      from the end of the first range is only done when that range is empty; the iterator that goes
      past the end then is discarded. */
  function Next(p: Position, n1: nat): Position {
    match p
    case InFirst(i) => if i + 1 < n1 then InFirst(i + 1) else InSecond(0)
    case InSecond(j) => InSecond(j + 1)
  }

  /** Equality of iterators over the same ranges. */
  predicate Equals(p: Position, q: Position, n1: nat, n2: nat) {
    if p.InFirst? == q.InFirst? then p == q
    else
      var i := if p.InFirst? then p.i else q.i;
      var j := if p.InFirst? then q.j else p.j;
      if n1 == 0 then j == 0
      else if n2 == 0 then i == n1
      else false
  }

  /** The place of a position in the concatenation. */
  function Place(p: Position, n1: nat): nat {
    match p
    case InFirst(i) => i
    case InSecond(j) => n1 + j
  }

  /** The one pair of positions that are the same place and compare different. */
  predicate Seam(p: Position, q: Position, n1: nat, n2: nat) {
    n1 > 0 && n2 > 0 && ((p == InFirst(n1) && q == InSecond(0)) || (p == InSecond(0) && q == InFirst(n1)))
  }

  lemma EqualsMeansSamePlace(p: Position, q: Position, n1: nat, n2: nat)
    requires Within(p, n1, n2) && Within(q, n1, n2)
    ensures Equals(p, q, n1, n2) <==> Place(p, n1) == Place(q, n1) && !Seam(p, q, n1, n2)
  {
  }

  function Walk(p: Position, n: nat, n1: nat): Position {
    if n == 0 then p else Next(Walk(p, n - 1, n1), n1)
  }

  const BEGIN := InFirst(0)

  /** From the beginning, each step goes to the next place; when the first range is empty, the first
      step goes nowhere. */
  lemma {:induction false} WalkFromBegin(n: nat, n1: nat)
    ensures Walk(BEGIN, n, n1) == if n == 0 || n < n1 then InFirst(n) else InSecond(if n1 == 0 then n - 1 else n - n1)
  {
    if n > 0 {
      WalkFromBegin(n - 1, n1);
    }
  }

  /** The end is reached after as many steps as there are elements, except that there is one step too
      many when the first range is empty and the second is not. */
  function Length(n1: nat, n2: nat): nat {
    n1 + n2 + if n1 == 0 && n2 > 0 then 1 else 0
  }

  predicate EndsAfter(n: nat, n1: nat, n2: nat) {
    Equals(Walk(BEGIN, n, n1), InSecond(n2), n1, n2)
  }

  lemma EndIsReached(n: nat, n1: nat, n2: nat)
    requires n <= Length(n1, n2)
    ensures EndsAfter(n, n1, n2) <==> n == Length(n1, n2)
    ensures Within(Walk(BEGIN, n, n1), n1, n2)
  {
    WalkFromBegin(n, n1);
  }

  /** Iterators reached from the beginning are equal exactly when they are at the same place. */
  lemma SteppedEquals(m: nat, n: nat, n1: nat, n2: nat)
    requires Within(Walk(BEGIN, m, n1), n1, n2) && Within(Walk(BEGIN, n, n1), n1, n2)
    ensures var p, q := Walk(BEGIN, m, n1), Walk(BEGIN, n, n1);
            Equals(p, q, n1, n2) <==> Place(p, n1) == Place(q, n1)
  {
    WalkFromBegin(m, n1);
    WalkFromBegin(n, n1);
    EqualsMeansSamePlace(Walk(BEGIN, m, n1), Walk(BEGIN, n, n1), n1, n2);
  }

  class ConcatIterator<A> {
    const first: seq<A>
    const second: seq<A>
    var position: Position

    ghost predicate Valid()
      reads this
    {
      Within(position, |first|, |second|)
    }

    constructor (first: seq<A>, second: seq<A>, position: Position)
      ensures this.first == first && this.second == second && this.position == position
    {
      this.first, this.second, this.position := first, second, position;
    }

    method Increment()
      requires Valid() && !AtEnd(position, |second|)
      modifies this
      ensures Valid() && position == Next(old(position), |first|)
    {
      match position {
        case InFirst(i) =>
          position := InFirst(i + 1);
          if !(i + 1 < |first|) {
            position := InSecond(0);
          }
        case InSecond(j) =>
          position := InSecond(j + 1);
      }
    }

    predicate IsReadable()
      reads this
    {
      match position
      case InFirst(i) => i < |first|
      case InSecond(j) => j < |second|
    }

    function Element(): (x: A)
      reads this
      requires IsReadable()
      ensures x == (first + second)[Place(position, |first|)]
    {
      match position
      case InFirst(i) => first[i]
      case InSecond(j) => second[j]
    }

    predicate IsEqual(other: ConcatIterator<A>)
      reads this, other
    {
      Equals(position, other.position, |first|, |second|)
    }
  }

  /** Counting the steps of a copy of the iterator; `n` is a number of steps after which it has arrived
      without running over the end before. */
  method Distance<A>(from: ConcatIterator<A>, to: ConcatIterator<A>, ghost n: nat) returns (distance: nat)
    requires from.Valid() && from.first == to.first && from.second == to.second
    requires Equals(Walk(from.position, n, |from.first|), to.position, |from.first|, |from.second|)
    requires forall k | 0 <= k < n :: Within(Walk(from.position, k, |from.first|), |from.first|, |from.second|)
                                   && !AtEnd(Walk(from.position, k, |from.first|), |from.second|)
    ensures distance <= n
    ensures Equals(Walk(from.position, distance, |from.first|), to.position, |from.first|, |from.second|)
    ensures forall k | 0 <= k < distance ::
              !Equals(Walk(from.position, k, |from.first|), to.position, |from.first|, |from.second|)
  {
    var at := new ConcatIterator(from.first, from.second, from.position);
    distance := 0;
    while !at.IsEqual(to)
      invariant at.first == from.first && at.second == from.second && at.Valid()
      invariant distance <= n && at.position == Walk(from.position, distance, |from.first|)
      invariant forall k | 0 <= k < distance ::
                  !Equals(Walk(from.position, k, |from.first|), to.position, |from.first|, |from.second|)
      decreases n - distance
    {
      at.Increment();
      distance := distance + 1;
    }
  }

  /** From begin to end, the distance is the number of elements if the first range has any or the
      second has none, and one more otherwise. */
  method DistanceBeginEnd<A>(begin: ConcatIterator<A>, end: ConcatIterator<A>) returns (distance: nat)
    requires begin.first == end.first && begin.second == end.second
    requires begin.position == BEGIN && end.position == InSecond(|end.second|)
    ensures distance == Length(|begin.first|, |begin.second|)
    ensures distance == |begin.first| + |begin.second| <==> begin.first != [] || begin.second == []
  {
    var n1, n2 := |begin.first|, |begin.second|;
    forall k | 0 <= k <= Length(n1, n2)
      ensures EndsAfter(k, n1, n2) <==> k == Length(n1, n2)
      ensures Within(Walk(BEGIN, k, n1), n1, n2)
    {
      EndIsReached(k, n1, n2);
    }
    distance := Distance(begin, end, Length(n1, n2));
  }

  /** Going from begin to end, reading at each step. */
  method Visit<A>(first: seq<A>, second: seq<A>) returns (visited: seq<A>)
    requires first != []
    ensures visited == first + second
  {
    var at := new ConcatIterator(first, second, BEGIN);
    var end := new ConcatIterator(first, second, InSecond(|second|));
    visited := [];
    while !at.IsEqual(end)
      invariant at.first == first && at.second == second && at.Valid()
      invariant at != end && end.position == InSecond(|second|)
      invariant |visited| <= |first + second| && at.position == Walk(BEGIN, |visited|, |first|)
      invariant visited == (first + second)[..|visited|]
      decreases |first + second| - |visited|
    {
      WalkFromBegin(|visited|, |first|);
      visited := visited + [at.Element()];
      WalkFromBegin(|visited|, |first|);
      at.Increment();
    }
    WalkFromBegin(|visited|, |first|);
  }
}
