/** What a `get` that finds nothing may conclude, while counts change during its search. */
module PoolMisses {
  import opened PoolItems
  import opened PoolMachine
  import opened PoolMembership

  /** A run during which one search goes on. */
  predicate SearchingThroughout(c: Config, s: State, steps: seq<Step>)
    requires Runs(c, s, steps)
    decreases |steps|
  {
    s.mutex.Searching? && (steps != [] ==> SearchingThroughout(c, Apply(c, s, steps[0]), steps[1..]))
  }

  /** The search tests the item at `k`. */
  predicate Tests(s: State, step: Step, k: nat) {
    step == Get(GetTest) && s.mutex.Searching? && s.mutex.at == k < |s.pool|
  }

  /** The item at `k` was tested in the run, and it was not available then. */
  predicate UnavailableWhenTested(c: Config, s: State, steps: seq<Step>, k: nat)
    requires Runs(c, s, steps)
    decreases |steps|
  {
    && steps != []
    && ((Tests(s, steps[0], k) && !IsAvailable(s.counts, s.pool[k]))
        || UnavailableWhenTested(c, Apply(c, s, steps[0]), steps[1..], k))
  }

  /** Some step of the run destroys a reference to the resource. */
  predicate Released(c: Config, s: State, steps: seq<Step>, r: Resource)
    requires Runs(c, s, steps)
    decreases |steps|
  {
    steps != [] && (Apply(c, s, steps[0]).counts[r] < s.counts[r] || Released(c, Apply(c, s, steps[0]), steps[1..], r))
  }

  /** Some step after the test of the item at `k` destroys a reference to its resource. */
  predicate ReleasedSinceTest(c: Config, s: State, steps: seq<Step>, k: nat)
    requires Runs(c, s, steps)
    decreases |steps|
  {
    && steps != []
    && if Tests(s, steps[0], k) then Released(c, Apply(c, s, steps[0]), steps[1..], s.pool[k].resource)
       else ReleasedSinceTest(c, Apply(c, s, steps[0]), steps[1..], k)
  }

  /** Other steps leave a search where it is; its own tests pass over what is not available. */
  lemma SearchStep(c: Config, s: State, step: Step)
    requires Enabled(c, s, step) && s.mutex.Searching? && Apply(c, s, step).mutex.Searching?
    ensures var t := Apply(c, s, step);
            && t.pool == s.pool
            && if step == Get(GetTest)
               then t.mutex.at == s.mutex.at + 1 && t.counts == s.counts && !IsAvailable(s.counts, s.pool[s.mutex.at])
               else t.mutex == s.mutex
  {
    ScannedPoolStays(c, s, step);
    match step
    case Get(_) =>
    case Keeper(_) =>
    case Health(h) => SearchIsLeftAlone(c, s, h);
    case Caller(_) =>
  }

  lemma SearchIsLeftAlone(c: Config, s: State, step: HealthStep)
    requires HealthEnabled(c, s, step) && s.mutex.Searching?
    ensures ApplyHealth(c, s, step).mutex == s.mutex
  {
    match step case Judge(_) => case _ =>
  }

  /** An item becomes available during a search only by the destruction of a reference. */
  lemma {:induction false} BecomesAvailable(c: Config, s: State, steps: seq<Step>, k: nat)
    requires Runs(c, s, steps) && SearchingThroughout(c, s, steps) && k < |s.pool| && !IsAvailable(s.counts, s.pool[k])
    ensures var e := Exec(c, s, steps);
            e.pool == s.pool && (IsAvailable(e.counts, e.pool[k]) ==> Released(c, s, steps, s.pool[k].resource))
    decreases |steps|
  {
    if steps != [] {
      SearchStep(c, s, steps[0]);
      var t := Apply(c, s, steps[0]);
      if IsAvailable(t.counts, t.pool[k]) {
        assert t.counts[s.pool[k].resource] < s.counts[s.pool[k].resource];
        PoolStays(c, t, steps[1..]);
      } else {
        BecomesAvailable(c, t, steps[1..], k);
      }
    }
  }

  lemma {:induction false} PoolStays(c: Config, s: State, steps: seq<Step>)
    requires Runs(c, s, steps) && SearchingThroughout(c, s, steps)
    ensures Exec(c, s, steps).pool == s.pool && Exec(c, s, steps).mutex.Searching?
    decreases |steps|
  {
    if steps != [] {
      SearchStep(c, s, steps[0]);
      PoolStays(c, Apply(c, s, steps[0]), steps[1..]);
    }
  }

  /** What a search has passed over was not available when it was tested, and is available later only if
      it was released in between. */
  lemma {:induction false} PassedOver(c: Config, s: State, steps: seq<Step>, k: nat)
    requires Runs(c, s, steps) && SearchingThroughout(c, s, steps)
    requires s.mutex.at <= k < |s.pool| && Exec(c, s, steps).mutex.Searching? && k < Exec(c, s, steps).mutex.at
    ensures var e := Exec(c, s, steps);
            && e.pool == s.pool
            && UnavailableWhenTested(c, s, steps, k)
            && (IsAvailable(e.counts, e.pool[k]) ==> ReleasedSinceTest(c, s, steps, k))
    decreases |steps|
  {
    var t := Apply(c, s, steps[0]);
    SearchStep(c, s, steps[0]);
    if Tests(s, steps[0], k) {
      BecomesAvailable(c, t, steps[1..], k);
    } else {
      PassedOver(c, t, steps[1..], k);
    }
  }

  /** A search that starts at the index and ends with a miss. The pool then has nothing available exactly
      when nothing before the index is, and nothing that was released after its own test is. */
  lemma {:induction false} MissMeansNoneIff(c: Config, s: State, steps: seq<Step>)
    requires GetEnabled(s, GetLock)
    requires var locked := ApplyGet(c, s, GetLock);
             && Runs(c, locked, steps) && SearchingThroughout(c, locked, steps)
             && GetEnabled(Exec(c, locked, steps), GetMiss)
    ensures var locked := ApplyGet(c, s, GetLock);
            var e := Exec(c, locked, steps);
            && e.pool == s.pool
            && (forall k | s.poolIndex <= k < |s.pool| :: UnavailableWhenTested(c, locked, steps, k))
            && ((forall k | 0 <= k < |s.pool| :: !IsAvailable(e.counts, s.pool[k]))
                <==> (forall k | 0 <= k < |s.pool| && (k < s.poolIndex || ReleasedSinceTest(c, locked, steps, k)) ::
                        !IsAvailable(e.counts, s.pool[k])))
  {
    var locked := ApplyGet(c, s, GetLock);
    PoolStays(c, locked, steps);
    forall k | s.poolIndex <= k < |s.pool|
      ensures UnavailableWhenTested(c, locked, steps, k)
      ensures IsAvailable(Exec(c, locked, steps).counts, s.pool[k]) ==> ReleasedSinceTest(c, locked, steps, k)
    {
      PassedOver(c, locked, steps, k);
    }
  }

  /** No step of the run destroys a reference to a pooled resource. */
  ghost predicate NothingReleased(c: Config, s: State, steps: seq<Step>)
    requires Runs(c, s, steps)
  {
    forall x | x in s.pool :: !Released(c, s, steps, x.resource)
  }

  lemma {:induction false} ReleasedMeaning(c: Config, s: State, steps: seq<Step>, k: nat)
    requires Runs(c, s, steps) && SearchingThroughout(c, s, steps) && k < |s.pool| && ReleasedSinceTest(c, s, steps, k)
    ensures Released(c, s, steps, s.pool[k].resource)
    decreases |steps|
  {
    SearchStep(c, s, steps[0]);
    if !Tests(s, steps[0], k) {
      ReleasedMeaning(c, Apply(c, s, steps[0]), steps[1..], k);
    }
  }

  /** If nothing pooled is released during the search, a miss means that there is nothing available exactly
      when there is nothing available before the index: the items that the discarded search looks at. */
  lemma {:induction false} QuietMissMeansNoneIff(c: Config, s: State, steps: seq<Step>)
    requires GetEnabled(s, GetLock)
    requires var locked := ApplyGet(c, s, GetLock);
             && Runs(c, locked, steps) && SearchingThroughout(c, locked, steps) && NothingReleased(c, locked, steps)
             && GetEnabled(Exec(c, locked, steps), GetMiss)
    ensures var e := Exec(c, ApplyGet(c, s, GetLock), steps);
            (forall k | 0 <= k < |s.pool| :: !IsAvailable(e.counts, s.pool[k]))
            <==> (forall k | 0 <= k < |s.pool| && k < s.poolIndex :: !IsAvailable(e.counts, s.pool[k]))
  {
    var locked := ApplyGet(c, s, GetLock);
    MissMeansNoneIff(c, s, steps);
    forall k | 0 <= k < |s.pool| ensures !ReleasedSinceTest(c, locked, steps, k) {
      assert locked.pool[k] in locked.pool;
      if ReleasedSinceTest(c, locked, steps, k) {
        ReleasedMeaning(c, locked, steps, k);
      }
    }
  }
}
