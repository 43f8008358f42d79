/** When nothing interferes, the scans of the step machine compute what the methods of the pool compute. */
module PoolSections {
  import opened PoolItems
  import opened PoolMachine
  import opened PoolSafety
  import opened PoolSpec
  import opened KeeperCycle
  import opened Wrappers

  /** The state after `n` times the same step, if it is enabled each time. */
  function Iterate(c: Config, s: State, step: Step, n: nat): (r: Option<State>) {
    if n == 0 then Some(s)
    else
      match Iterate(c, s, step, n - 1)
      case None => None
      case Some(t) => if Enabled(c, t, step) then Some(Apply(c, t, step)) else None
  }

  function Repeat(step: Step, n: nat): (steps: seq<Step>)
    ensures |steps| == n
  {
    if n == 0 then [] else Repeat(step, n - 1) + [step]
  }

  /** Iterating a step is a run of the machine. */
  lemma {:induction false} IterateRuns(c: Config, s: State, step: Step, n: nat)
    requires Iterate(c, s, step, n).Some?
    ensures Runs(c, s, Repeat(step, n)) && Exec(c, s, Repeat(step, n)) == Iterate(c, s, step, n).value
  {
    if n > 0 {
      IterateRuns(c, s, step, n - 1);
      RunsConcat(c, s, Repeat(step, n - 1), step);
    }
  }

  // ---- searching ----

  lemma PassingTest(c: Config, s: State)
    requires s.mutex.Searching? && s.mutex.at < |s.pool| && !IsAvailable(s.counts, s.pool[s.mutex.at])
    ensures Enabled(c, s, Get(GetTest))
    ensures Apply(c, s, Get(GetTest)) == s.(mutex := Searching(s.mutex.population, s.mutex.at + 1))
  {
  }

  lemma SelectingTest(c: Config, s: State)
    requires s.mutex.Searching? && s.mutex.at < |s.pool| && IsAvailable(s.counts, s.pool[s.mutex.at])
    ensures Enabled(c, s, Get(GetTest)) && Apply(c, s, Get(GetTest)) == s.(mutex := Selected(s.mutex.at))
  {
  }

  /** The states after `n` tests of a search that finds nothing on its way; `n` may reach the end. */
  lemma {:induction false} SearchTests(c: Config, s: State, population: nat, from: nat, n: nat)
    requires s.mutex == Searching(population, from) && from + n <= |s.pool|
    requires forall k | from <= k < from + n :: !IsAvailable(s.counts, s.pool[k])
    ensures Iterate(c, s, Get(GetTest), n) == Some(s.(mutex := Searching(population, from + n)))
  {
    if n > 0 {
      SearchTests(c, s, population, from, n - 1);
      PassingTest(c, s.(mutex := Searching(population, from + n - 1)));
    }
  }

  /** An uninterrupted search selects the first available item at or after where it starts. */
  lemma SearchFinds(c: Config, s: State, population: nat, from: nat)
    requires s.mutex == Searching(population, from) && from <= |s.pool|
    requires FirstAvailable(s.counts, s.pool, from) < |s.pool|
    ensures var it := FirstAvailable(s.counts, s.pool, from);
            Iterate(c, s, Get(GetTest), it - from + 1) == Some(s.(mutex := Selected(it)))
  {
    var it := FirstAvailable(s.counts, s.pool, from);
    SearchTests(c, s, population, from, it - from);
    SelectingTest(c, s.(mutex := Searching(population, it)));
  }

  // ---- trimming ----

  /** The state between two tests of a pass over `source`: what the pass kept, then what it has not tested. */
  function Between(s: State, second: bool, source: seq<Item>, k: nat, p: Pass): State
    requires k <= |source|
  {
    s.(pool := p.kept + source[k..],
       mutex := Trimming(second, |p.kept|, p.left),
       disposing := s.disposing + Refs(p.dropped))
  }

  lemma TrimTestOnce(c: Config, s: State, second: bool, source: seq<Item>, k: nat, p: Pass)
    requires k < |source|
    ensures var at := Between(s, second, source, k, p);
            && Enabled(c, at, Keeper(TrimTest))
            && Apply(c, at, Keeper(TrimTest))
               == Between(s, second, source, k + 1, Tested(s.counts, second, p, source[k]))
  {
    NextTested(p.kept, source, k);
    RefsSnoc(p.dropped, source[k]);
    SumOfThree(s.disposing, Refs(p.dropped), multiset{source[k].resource});
  }

  /** The item under test, and the items without it. */
  lemma NextTested(kept: seq<Item>, source: seq<Item>, k: nat)
    requires k < |source|
    ensures var pool := kept + source[k..];
            && |pool| > |kept| && pool[|kept|] == source[k]
            && Without(pool, |kept|) == kept + source[k + 1..]
            && pool == (kept + [source[k]]) + source[k + 1..]
  {
  }

  lemma SumOfThree(a: multiset<Resource>, b: multiset<Resource>, d: multiset<Resource>)
    ensures a + b + d == a + (b + d)
  {
  }

  /** The state after `n` tests of a trim pass. */
  lemma {:induction false} TrimTests(c: Config, s: State, second: bool, toRemove: nat, n: nat)
    requires s.mutex == Trimming(second, 0, toRemove) && n <= |s.pool|
    ensures Iterate(c, s, Keeper(TrimTest), n)
         == Some(Between(s, second, s.pool, n, RunPass(s.counts, second, s.pool[..n], toRemove)))
  {
    if n > 0 {
      TrimTests(c, s, second, toRemove, n - 1);
      NextTrimTest(c, s, second, toRemove, n);
    } else {
      NoneTested(s, second, toRemove);
    }
  }

  lemma NextTrimTest(c: Config, s: State, second: bool, toRemove: nat, n: nat)
    requires s.mutex == Trimming(second, 0, toRemove) && 0 < n <= |s.pool|
    requires Iterate(c, s, Keeper(TrimTest), n - 1)
          == Some(Between(s, second, s.pool, n - 1, RunPass(s.counts, second, s.pool[..n - 1], toRemove)))
    ensures Iterate(c, s, Keeper(TrimTest), n)
         == Some(Between(s, second, s.pool, n, RunPass(s.counts, second, s.pool[..n], toRemove)))
  {
    var p := RunPass(s.counts, second, s.pool[..n - 1], toRemove);
    TrimTestOnce(c, s, second, s.pool, n - 1, p);
    OneMore(c, s, Keeper(TrimTest), n, Between(s, second, s.pool, n - 1, p));
    OneMoreTested(s.counts, second, s.pool, n, toRemove);
  }

  lemma OneMore(c: Config, s: State, step: Step, n: nat, t: State)
    requires n > 0 && Iterate(c, s, step, n - 1) == Some(t) && Enabled(c, t, step)
    ensures Iterate(c, s, step, n) == Some(Apply(c, t, step))
  {
  }

  lemma NoneTested(s: State, second: bool, toRemove: nat)
    requires s.mutex == Trimming(second, 0, toRemove)
    ensures Between(s, second, s.pool, 0, RunPass(s.counts, second, s.pool[..0], toRemove)) == s
  {
    assert [] + s.pool == s.pool && s.pool[0..] == s.pool && s.disposing + multiset{} == s.disposing;
  }

  /** The state after a whole pass. */
  lemma TrimPass(c: Config, s: State, second: bool, toRemove: nat)
    requires s.mutex == Trimming(second, 0, toRemove)
    ensures var p := RunPass(s.counts, second, s.pool, toRemove);
            Iterate(c, s, Keeper(TrimTest), |s.pool|)
            == Some(s.(pool := p.kept, mutex := Trimming(second, |p.kept|, p.left),
                       disposing := s.disposing + Refs(p.dropped)))
  {
    TrimTests(c, s, second, toRemove, |s.pool|);
    var p := RunPass(s.counts, second, s.pool, toRemove);
    assert s.pool[..|s.pool|] == s.pool && s.pool[|s.pool|..] == [] && p.kept + [] == p.kept;
  }

  /** The states an uninterrupted trim goes through: after the first pass, after the second, at the end. */
  lemma TrimSection(c: Config, s: State, n: nat)
    requires s.mutex == Trimming(false, 0, n)
    ensures var first, p := RunPass(s.counts, false, s.pool, n), Trim(s.counts, s.pool, n);
            && var passed := Iterate(c, s, Keeper(TrimTest), |s.pool|);
            && passed.Some? && KeeperEnabled(passed.value, TrimSecond)
            && var tested := Iterate(c, ApplyKeeper(c, passed.value, TrimSecond), Keeper(TrimTest), |first.kept|);
            && tested.Some? && KeeperEnabled(tested.value, TrimUnlock)
            && var end := ApplyKeeper(c, tested.value, TrimUnlock);
            && end.pool == p.kept
            && end.poolIndex == TrimIndex(s.poolIndex, |p.kept|)
            && end.disposing == s.disposing + Refs(p.dropped)
            && end.mutex == Free
  {
    var first := RunPass(s.counts, false, s.pool, n);
    TrimPass(c, s, false, n);
    var again := s.(pool := first.kept, mutex := Trimming(true, 0, first.left),
                    disposing := s.disposing + Refs(first.dropped));
    TrimPass(c, again, true, first.left);
    RefsConcat(first.dropped, RunPass(s.counts, true, first.kept, first.left).dropped);
  }
}
