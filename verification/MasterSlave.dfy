/** A master pool and slave pools by id, and iteration over all of them. */
module MasterSlave {
  import opened ConcatIteration
  import opened Wrappers

  datatype Result<T> = Ok(value: T) | LogicError

  // ---- the order of ids ----

  ghost predicate Lists(ks: seq<int>, keys: set<int>) {
    (forall i | 0 <= i < |ks| :: ks[i] in keys) && forall k | k in keys :: k in ks
  }

  predicate Increasing(ks: seq<int>) {
    forall i, j | 0 <= i < j < |ks| :: ks[i] < ks[j]
  }

  predicate IsLeast(k: int, keys: set<int>) {
    k in keys && forall j | j in keys :: k <= j
  }

  ghost function AnyOf<K>(keys: set<K>): (k: K)
    requires |keys| > 0
    ensures k in keys
  {
    var k :| k in keys;
    k
  }

  lemma {:induction false} LeastExists(keys: set<int>)
    requires |keys| > 0
    ensures exists k :: IsLeast(k, keys)
  {
    var x := AnyOf(keys);
    var others := keys - {x};
    assert forall j | j in keys :: j == x || j in others;
    if |others| == 0 {
      assert IsLeast(x, keys);
    } else {
      LeastExists(others);
      var y :| IsLeast(y, others);
      assert IsLeast(if x < y then x else y, keys);
    }
  }

  function Least(keys: set<int>): (k: int)
    requires |keys| > 0
    ensures IsLeast(k, keys)
  {
    LeastExists(keys);
    var k :| IsLeast(k, keys);
    k
  }

  /** The keys in the order a map iterates over them. */
  function InOrder(keys: set<int>): (ks: seq<int>)
    ensures |ks| == |keys| && forall i | 0 <= i < |ks| :: ks[i] in keys
    ensures Increasing(ks)
  {
    if |keys| == 0 then []
    else
      var k := Least(keys);
      [k] + InOrder(keys - {k})
  }

  lemma {:induction false} OrderLists(keys: set<int>)
    ensures Lists(InOrder(keys), keys)
  {
    if |keys| > 0 {
      var k := Least(keys);
      OrderLists(keys - {k});
      forall j | j in keys ensures j in InOrder(keys) {
        assert j == k || j in InOrder(keys - {k});
      }
    }
  }

  lemma {:induction false} OrderIsUnique(ks: seq<int>, keys: set<int>)
    requires Increasing(ks) && Lists(ks, keys)
    ensures ks == InOrder(keys)
  {
    if ks == [] {
      assert forall k | k in keys :: k in ks;
      assert keys == {};
    } else {
      FirstIsLeast(ks, keys);
      OrderIsUnique(ks[1..], keys - {ks[0]});
      assert ks == [ks[0]] + ks[1..];
    }
  }

  lemma FirstIsLeast(ks: seq<int>, keys: set<int>)
    requires Increasing(ks) && Lists(ks, keys) && ks != []
    ensures |keys| > 0 && Least(keys) == ks[0]
    ensures Increasing(ks[1..]) && Lists(ks[1..], keys - {ks[0]})
  {
    assert ks[0] in keys;
    forall k | k in keys ensures ks[0] <= k && (k == ks[0] || k in ks[1..]) {
      var i :| 0 <= i < |ks| && ks[i] == k;
      assert i > 0 ==> ks[1..][i - 1] == k;
    }
    assert IsLeast(ks[0], keys);
  }

  /** A new key goes between the smaller and the larger ones; the order of the others stays. */
  lemma OrderWithNew(keys: set<int>, k: int)
    requires k !in keys
    ensures InOrder(keys) == InOrder(Below(keys, k)) + InOrder(Above(keys, k))
    ensures InOrder(keys + {k}) == InOrder(Below(keys, k)) + [k] + InOrder(Above(keys, k))
  {
    assert Below(keys, k) + Above(keys, k) == keys;
    JoinedInOrder(Below(keys, k), Above(keys, k), k);
  }

  /** A key comes after as many keys as are smaller. */
  lemma PlaceInOrder(keys: set<int>, k: int)
    requires k in keys
    ensures var n := |Below(keys, k)|; n < |keys| && InOrder(keys)[n] == k
  {
    OrderAround(keys, k);
    var a := InOrder(Below(keys, k));
    assert (a + [k])[|a|] == k;
  }

  lemma OrderAround(keys: set<int>, k: int)
    requires k in keys
    ensures InOrder(keys) == InOrder(Below(keys, k)) + [k] + InOrder(Above(keys, k))
  {
    var below, above := Below(keys, k), Above(keys, k);
    assert keys == below + above + {k} by {
      forall j ensures j in keys <==> j in below + above + {k} {
      }
    }
    JoinedInOrder(below, above, k);
  }

  lemma JoinedInOrder(below: set<int>, above: set<int>, k: int)
    requires (forall j | j in below :: j < k) && forall j | j in above :: k < j
    ensures InOrder(below + above) == InOrder(below) + InOrder(above)
    ensures InOrder(below + above + {k}) == InOrder(below) + [k] + InOrder(above)
  {
    var a, b := InOrder(below), InOrder(above);
    OrderLists(below);
    OrderLists(above);
    Joined(a, b, k, below, above);
    OrderIsUnique(a + b, below + above);
    OrderIsUnique(a + [k] + b, below + above + {k});
  }

  function Below(keys: set<int>, k: int): set<int> {
    set j | j in keys && j < k
  }

  function Above(keys: set<int>, k: int): set<int> {
    set j | j in keys && k < j
  }

  lemma Joined(a: seq<int>, b: seq<int>, k: int, below: set<int>, above: set<int>)
    requires Increasing(a) && Lists(a, below) && forall j | j in below :: j < k
    requires Increasing(b) && Lists(b, above) && forall j | j in above :: k < j
    ensures Increasing(a + b) && Lists(a + b, below + above)
    ensures Increasing(a + [k] + b) && Lists(a + [k] + b, below + above + {k})
  {
  }

  function Values<P>(slaves: map<int, P>, ks: seq<int>): (ps: seq<P>)
    requires forall i | 0 <= i < |ks| :: ks[i] in slaves
    ensures |ps| == |ks|
  {
    seq(|ks|, i requires 0 <= i < |ks| => slaves[ks[i]])
  }

  function SlavesInOrder<P>(slaves: map<int, P>): (ps: seq<P>)
    ensures |ps| == |slaves|
  {
    Values(slaves, InOrder(slaves.Keys))
  }

  lemma ValuesConcat<P>(slaves: map<int, P>, a: seq<int>, b: seq<int>)
    requires forall i | 0 <= i < |a| :: a[i] in slaves
    requires forall i | 0 <= i < |b| :: b[i] in slaves
    ensures Values(slaves, a + b) == Values(slaves, a) + Values(slaves, b)
  {
  }

  /** A new slave takes its place in the iteration; the others keep theirs. */
  lemma {:induction false} SlavesWithNew<P>(slaves: map<int, P>, id: int, pool: P)
    requires id !in slaves
    ensures var n := |Below(slaves.Keys, id)|;
            && n <= |slaves|
            && SlavesInOrder(slaves[id := pool]) == SlavesInOrder(slaves)[..n] + [pool] + SlavesInOrder(slaves)[n..]
  {
    var keys := slaves.Keys;
    var below, above := InOrder(Below(keys, id)), InOrder(Above(keys, id));
    assert slaves[id := pool].Keys == keys + {id};
    OrderWithNew(keys, id);
    ValuesWithNew(slaves, below, above, id, pool);
    assert SlavesInOrder(slaves) == Values(slaves, below + above);
  }

  lemma ValuesWithNew<P>(slaves: map<int, P>, a: seq<int>, b: seq<int>, id: int, pool: P)
    requires id !in slaves
    requires forall i | 0 <= i < |a| :: a[i] in slaves
    requires forall i | 0 <= i < |b| :: b[i] in slaves
    ensures var before := Values(slaves, a + b);
            Values(slaves[id := pool], a + [id] + b) == before[..|a|] + [pool] + before[|a|..]
  {
    var more := slaves[id := pool];
    ValuesConcat(slaves, a, b);
    ValuesConcat(more, a + [id], b);
    ValuesConcat(more, a, [id]);
    assert Values(more, a) == Values(slaves, a);
    assert Values(more, b) == Values(slaves, b);
    assert Values(more, [id]) == [pool];
  }

  class MasterSlavePools<P> {
    var master: P
    var slaves: map<int, P>

    constructor (master: P)
      ensures this.master == master && slaves == map[]
    {
      this.master, slaves := master, map[];
    }

    method SetMasterPool(pool: P)
      modifies this`master
      ensures master == pool
    {
      master := pool;
    }

    method AddSlavePool(id: int, pool: P) returns (r: Result<P>)
      modifies this`slaves
      ensures id in old(slaves) ==> r == LogicError && slaves == old(slaves)
      ensures id !in old(slaves) ==> r == Ok(pool) && slaves == old(slaves)[id := pool]
    {
      if id in slaves {
        return LogicError;
      }
      slaves := slaves[id := pool];
      r := Ok(slaves[id]);
    }

    method EraseSlavePool(id: int) returns (r: Result<()>)
      modifies this`slaves
      ensures r == if id in old(slaves) then Ok(()) else LogicError
      ensures slaves == old(slaves) - {id}
    {
      if id !in slaves {
        return LogicError;
      } else {
        slaves := slaves - {id};
        r := Ok(());
      }
    }

    /** The first slave, or the master if there is none. */
    function GetSlavePool(): (p: P)
      reads this
      ensures p == (if slaves == map[] then master else SlavesInOrder(slaves)[0])
    {
      if |slaves| == 0 then master else slaves[Least(slaves.Keys)]
    }

    function GetSlavePoolById(id: int): (r: Result<P>)
      reads this
      ensures r.Ok? <==> id in slaves
      ensures r.Ok? ==> r.value == slaves[id]
    {
      if id in slaves then Ok(slaves[id]) else LogicError
    }

    function Size(): nat
      reads this
    {
      |slaves| + 1
    }

    /** The master first, then the slaves by id. */
    function Pools(): (ps: seq<P>)
      reads this
      ensures |ps| == Size()
    {
      [master] + SlavesInOrder(slaves)
    }

    /** The pool iteration reaches after the slaves with smaller ids, or the master, which comes first. */
    function GetSlaveOrMasterPool(id: int): (p: P)
      reads this
      ensures id in slaves ==> 1 + |Below(slaves.Keys, id)| < Size() && p == Pools()[1 + |Below(slaves.Keys, id)|]
      ensures id !in slaves ==> p == Pools()[0]
    {
      if id in slaves then
        PlaceInOrder(slaves.Keys, id);
        slaves[id]
      else master
    }

    method Begin() returns (it: ConcatIterator<P>)
      ensures fresh(it) && it.Valid()
      ensures it.first == [master] && it.second == SlavesInOrder(slaves) && it.position == BEGIN
    {
      it := new ConcatIterator([master], SlavesInOrder(slaves), InFirst(0));
    }

    method End() returns (it: ConcatIterator<P>)
      ensures fresh(it) && it.Valid()
      ensures it.first == [master] && it.second == SlavesInOrder(slaves) && it.position == InSecond(|slaves|)
    {
      it := new ConcatIterator([master], SlavesInOrder(slaves), InSecond(|slaves|));
    }

    /** Iterating from begin to end visits every pool once, in order. */
    method VisitAll() returns (visited: seq<P>)
      ensures visited == Pools() && |visited| == Size()
    {
      visited := Visit([master], SlavesInOrder(slaves));
    }

    method DistanceOfAll() returns (distance: nat)
      ensures distance == Size()
    {
      var begin := Begin();
      var end := End();
      distance := DistanceBeginEnd(begin, end);
    }
  }

  // ---- histories ----

  datatype Operation<P> = Add(id: int, pool: P) | Erase(id: int) | SetMaster(pool: P)

  /** The state after a history of calls, failed ones included. */
  function After<P>(master: P, history: seq<Operation<P>>): (P, map<int, P>) {
    if history == [] then (master, map[])
    else
      var (master, slaves) := After(master, history[..|history| - 1]);
      match history[|history| - 1]
      case Add(id, pool) => (master, if id in slaves then slaves else slaves[id := pool])
      case Erase(id) => (master, slaves - {id})
      case SetMaster(pool) => (pool, slaves)
  }

  /** Making the calls of a history one after the other, whether they fail or not. */
  method Replay<P>(master: P, history: seq<Operation<P>>) returns (pools: MasterSlavePools<P>)
    ensures fresh(pools) && (pools.master, pools.slaves) == After(master, history)
  {
    pools := new MasterSlavePools(master);
    for k := 0 to |history|
      invariant fresh(pools) && (pools.master, pools.slaves) == After(master, history[..k])
    {
      assert history[..k + 1][..k] == history[..k];
      match history[k] {
        case Add(id, pool) => var _ := pools.AddSlavePool(id, pool);
        case Erase(id) => var _ := pools.EraseSlavePool(id);
        case SetMaster(pool) => pools.SetMasterPool(pool);
      }
    }
    assert history[..|history|] == history;
  }

  predicate Adds<P>(op: Operation<P>, id: int) {
    op.Add? && op.id == id
  }

  predicate Erases<P>(op: Operation<P>, id: int) {
    op.Erase? && op.id == id
  }

  /** The number of calls up to the last one that erases an id. */
  function LastErasure<P>(history: seq<Operation<P>>, id: int): (n: nat)
    ensures n <= |history| && (n > 0 ==> Erases(history[n - 1], id))
    ensures forall k | n <= k < |history| :: !Erases(history[k], id)
  {
    if history == [] then 0
    else if Erases(history[|history| - 1], id) then |history|
    else LastErasure(history[..|history| - 1], id)
  }

  /** The first call from `n` on that adds an id. */
  function FirstAddition<P>(history: seq<Operation<P>>, id: int, n: nat): (r: Option<nat>)
    requires n <= |history|
    ensures r.Some? ==> n <= r.value < |history| && Adds(history[r.value], id)
    ensures forall k | n <= k < (if r.Some? then r.value else |history|) :: !Adds(history[k], id)
    decreases |history| - n
  {
    if n == |history| then None
    else if Adds(history[n], id) then Some(n)
    else FirstAddition(history, id, n + 1)
  }

  lemma {:induction false} FirstAdditionSnoc<P>(front: seq<Operation<P>>, op: Operation<P>, id: int, n: nat)
    requires n <= |front|
    ensures FirstAddition(front + [op], id, n)
         == match FirstAddition(front, id, n)
            case Some(k) => Some(k)
            case None => if Adds(op, id) then Some(|front|) else None
    decreases |front| - n
  {
    assert n < |front| ==> (front + [op])[n] == front[n];
    if n < |front| {
      FirstAdditionSnoc(front, op, id, n + 1);
    }
  }

  /** After any history a slave is what the first addition of its id since the last erasure made it,
      and absent if there is none: later additions fail and change nothing. */
  lemma {:induction false} SlaveAfter<P>(master: P, history: seq<Operation<P>>, id: int)
    ensures var slaves := After(master, history).1;
            match FirstAddition(history, id, LastErasure(history, id))
            case None => id !in slaves
            case Some(at) => id in slaves && slaves[id] == history[at].pool
  {
    if history != [] {
      var front, op := history[..|history| - 1], history[|history| - 1];
      assert history == front + [op];
      SlaveAfter(master, front, id);
      FirstAdditionSnoc(front, op, id, LastErasure(front, id));
    }
  }

  /** The number of calls up to the last one that sets the master. */
  function LastMaster<P>(history: seq<Operation<P>>): (n: nat)
    ensures n <= |history| && (n > 0 ==> history[n - 1].SetMaster?)
    ensures forall k | n <= k < |history| :: !history[k].SetMaster?
  {
    if history == [] then 0
    else if history[|history| - 1].SetMaster? then |history|
    else LastMaster(history[..|history| - 1])
  }

  lemma {:induction false} MasterAfter<P>(master: P, history: seq<Operation<P>>)
    ensures var n := LastMaster(history); After(master, history).0 == if n == 0 then master else history[n - 1].pool
  {
    if history != [] {
      MasterAfter(master, history[..|history| - 1]);
    }
  }

  /** Iteration after any history visits the last master and then, by id, for every id that was added
      since it was last erased, the pool of the first such addition. */
  method VisitAfter<P>(master: P, history: seq<Operation<P>>) returns (ids: set<int>, visited: seq<P>)
    ensures forall id :: id in ids <==> FirstAddition(history, id, LastErasure(history, id)).Some?
    ensures |visited| == 1 + |ids|
    ensures visited[0] == if LastMaster(history) == 0 then master else history[LastMaster(history) - 1].pool
    ensures forall id | id in ids :: |Below(ids, id)| < |ids| && visited[1 + |Below(ids, id)|] == PoolAdded(history, id)
  {
    var pools := Replay(master, history);
    ids := pools.slaves.Keys;
    visited := pools.VisitAll();
    MasterAfter(master, history);
    forall id ensures id in ids <==> FirstAddition(history, id, LastErasure(history, id)).Some? {
      SlaveAfter(master, history, id);
    }
    forall id | id in ids
      ensures |Below(ids, id)| < |ids| && visited[1 + |Below(ids, id)|] == PoolAdded(history, id)
    {
      SlaveAfter(master, history, id);
      PlaceInOrder(ids, id);
    }
  }

  /** Looking an id up after any history finds the pool of its first addition since it was last erased,
      and fails if there is none. */
  method LookUpAfter<P>(master: P, history: seq<Operation<P>>, id: int) returns (r: Result<P>)
    ensures r == match FirstAddition(history, id, LastErasure(history, id))
                 case None => LogicError
                 case Some(at) => Ok(history[at].pool)
  {
    var pools := Replay(master, history);
    r := pools.GetSlavePoolById(id);
    SlaveAfter(master, history, id);
  }

  /** The pool of the first addition of an id since it was last erased. */
  function PoolAdded<P>(history: seq<Operation<P>>, id: int): P
    requires FirstAddition(history, id, LastErasure(history, id)).Some?
  {
    history[FirstAddition(history, id, LastErasure(history, id)).value].pool
  }
}
