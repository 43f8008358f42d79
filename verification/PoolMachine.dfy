/** The pool, its resource-count keeper, its health-care job and any number of users as one
    step machine. A step is one atomic action: taking or leaving the pool mutex, one read of a
    strong count, one copy or destruction of a shared pointer, one critical section that reads
    neither counts nor the population id, which both change without the mutex. So every scan of the
    pool tests its items one step at a time, a creation is pooled one step after the population ids
    were compared, and anything else that needs no mutex may happen in between.

    A thread that is done with references puts them into `disposing`, from where they are destroyed
    one by one at any later time. The code sometimes goes on only when that has been done; the
    machine has those runs among others.

    The thread that holds the mutex keeps its local variables in `mutex`; `get` calls that are
    between their two critical sections have no identity beyond the population id they read and
    the creation they asked for. What the outside world answers (whether a factory or a health
    check succeeds, which thread runs next) is carried by the step. */
module PoolMachine {
  import opened PoolItems

  datatype Config = Config(invalidateOnAccess: bool, minSpare: nat, maxSpare: nat)

  datatype Mutex =
    | Free
    | Searching(population: nat, at: nat)             // get: inside the first find_if
    | Selected(at: nat)                               // get: find_if has returned this position
    | Appending(resource: Resource, same: bool)       // get: has compared the population ids
    | Observing(at: nat, available: nat)              // keeper: counting available items
    | Merging(same: bool)                             // keeper: has compared the population ids
    | Trimming(second: bool, at: nat, toRemove: nat)  // keeper: inside one of the two remove_if
    | Snapshotting(at: nat, taken: seq<Item>)         // health job: copying unused items

  datatype KeeperJob =
    | Idle
    | InSection
    | Requesting(population: nat, needed: nat, tickets: seq<Resource>)
    | Adding(population: nat, made: seq<Resource>)
    | TrimDue(removeCount: nat)

  /** `todo`, `probing` hold weak references together with the flag seen by the snapshot.
      `locked` is the batch of strong references; its first |beganAt| members have a second
      strong reference in the list of running checks, and `judged` of those have a verdict. */
  datatype HealthJob =
    | Resting
    | InSnapshot
    | Working(todo: seq<Item>, probing: seq<Item>, locked: seq<Item>, beganAt: seq<nat>, judged: nat)

  datatype Event =
    | Requested(resource: Resource)
    | HandedOut(resource: Resource)
    | CheckBegan(resource: Resource)
    | CheckPassed(resource: Resource, beganAt: nat)

  datatype State = State(
    pool: seq<Item>,
    poolIndex: nat,
    populationId: nat,
    counts: multiset<Resource>,        // the strong count of every object
    mutex: Mutex,
    missed: multiset<nat>,             // get calls that found nothing, by the population id they read
    waiting: map<Resource, nat>,       // creations asked for by get, still running
    made: map<Resource, nat>,          // creations a get call holds and has not returned yet
    keeper: KeeperJob,
    health: HealthJob,
    users: multiset<Resource>,         // references held by users
    disposing: multiset<Resource>,     // references given up and not yet destroyed
    // history
    next: Resource,                    // the next creation to be asked for
    published: set<Resource>,          // creations that were pooled, handed out or thrown away
    ids: set<nat>,                     // population ids that were ever current
    log: seq<Event>
  )

  const INITIAL := State([], 0, 0, multiset{}, Free, multiset{}, map[], map[], Idle, Resting,
                         multiset{}, multiset{}, 0, {}, {0}, [])

  datatype GetStep = GetLock | GetTest | GetTake | GetMiss | GetRequest(population: nat)
                   | GetMade(r: Resource) | GetFailed(r: Resource) | GetCompare(r: Resource) | GetAppend(r: Resource)

  datatype KeeperStep = ObserveLock | ObserveTest | ObserveUnlock | Request | Abort | Collect(succeeded: set<Resource>)
                      | Compare | Add | TrimLock | TrimTest | TrimSecond | TrimUnlock

  datatype HealthStep = SnapshotLock | SnapshotTest | SnapshotUnlock | Probe | Decide | Begin
                      | StartFails | Judge(verdict: Verdict) | ReleaseBatch | Rest

  datatype CallerStep = ClearPool | Erase(r: Resource) | StorePopulation(id: nat)
                      | UserCopy(r: Resource) | UserRelease(r: Resource) | Dispose(r: Resource)

  datatype Step =
    | Get(get: GetStep) | Keeper(keeper: KeeperStep) | Health(health: HealthStep) | Caller(caller: CallerStep)

  // ---- erasing ----

  /** The pool without the item of a resource; the pool's reference is destroyed under the lock. */
  function EraseItem(s: State, r: Resource): State
    requires r in Refs(s.pool)
  {
    RefsMember(s.pool, r);
    var rest := Without(s.pool, IndexOf(s.pool, r));
    s.(pool := rest,
       poolIndex := if s.poolIndex >= |rest| then 0 else s.poolIndex,
       counts := s.counts - multiset{r})
  }

  // ---- get ----

  predicate GetEnabled(s: State, step: GetStep) {
    match step
    case GetLock => s.mutex.Free?
    case GetTest => s.mutex.Searching? && s.mutex.at < |s.pool|
    case GetTake => s.mutex.Selected? && s.mutex.at < |s.pool|
    case GetMiss => s.mutex.Searching? && s.mutex.at >= |s.pool|
    case GetRequest(population) => population in s.missed
    case GetMade(r) => r in s.waiting
    case GetFailed(r) => r in s.waiting
    case GetCompare(r) => s.mutex.Free? && r in s.made
    case GetAppend(r) => s.mutex.Appending? && s.mutex.resource == r && r in s.made
  }

  function ApplyGet(c: Config, s: State, step: GetStep): State
    requires GetEnabled(s, step)
  {
    match step
    case GetLock => s.(mutex := Searching(s.populationId, s.poolIndex))
    case GetTest =>
      if IsAvailable(s.counts, s.pool[s.mutex.at])
      then s.(mutex := Selected(s.mutex.at))
      else s.(mutex := Searching(s.mutex.population, s.mutex.at + 1))
    case GetTake =>
      var at := s.mutex.at;
      var r := s.pool[at].resource;
      s.(pool := if c.invalidateOnAccess then s.pool[at := s.pool[at].(valid := false)] else s.pool,
         poolIndex := at,
         mutex := Free,
         counts := s.counts + multiset{r},
         users := s.users + multiset{r},
         log := s.log + [HandedOut(r)])
    // The search of the items before poolIndex has no effect: its result is thrown away.
    case GetMiss => s.(mutex := Free, missed := s.missed + multiset{s.mutex.population})
    case GetRequest(population) =>
      s.(missed := s.missed - multiset{population},
         waiting := s.waiting[s.next := population],
         next := s.next + 1,
         log := s.log + [Requested(s.next)])
    case GetMade(r) =>
      s.(waiting := s.waiting - {r}, made := s.made[r := s.waiting[r]], counts := s.counts + multiset{r})
    case GetFailed(r) => s.(waiting := s.waiting - {r})
    case GetCompare(r) => s.(mutex := Appending(r, s.made[r] == s.populationId))
    case GetAppend(r) =>
      var handed := s.(mutex := Free, made := s.made - {r}, users := s.users + multiset{r},
                       published := s.published + {r}, log := s.log + [HandedOut(r)]);
      if s.mutex.same
      then handed.(pool := s.pool + [Item(!c.invalidateOnAccess, r)],
                   poolIndex := |s.pool|,
                   counts := s.counts + multiset{r})
      else handed
  }

  // ---- resource-count keeper ----

  function Succeeded(tickets: seq<Resource>, succeeded: set<Resource>): seq<Resource> {
    if tickets == [] then []
    else (if tickets[0] in succeeded then [tickets[0]] else []) + Succeeded(tickets[1..], succeeded)
  }

  predicate KeeperEnabled(s: State, step: KeeperStep) {
    match step
    case ObserveLock => s.mutex.Free? && s.keeper.Idle?
    case ObserveTest => s.mutex.Observing? && s.mutex.at < |s.pool|
    case ObserveUnlock => s.mutex.Observing? && s.mutex.at >= |s.pool|
    case Request => s.keeper.Requesting? && |s.keeper.tickets| < s.keeper.needed
    case Abort => s.keeper.Requesting?
    case Collect(succeeded) => s.keeper.Requesting? && |s.keeper.tickets| == s.keeper.needed
    case Compare => s.mutex.Free? && s.keeper.Adding?
    case Add => s.mutex.Merging? && s.keeper.Adding?
    case TrimLock => s.mutex.Free? && s.keeper.TrimDue?
    case TrimTest => s.mutex.Trimming? && s.mutex.at < |s.pool|
    case TrimSecond => s.mutex.Trimming? && !s.mutex.second && s.mutex.at >= |s.pool|
    case TrimUnlock => s.mutex.Trimming? && s.mutex.second && s.mutex.at >= |s.pool|
  }

  function ApplyKeeper(c: Config, s: State, step: KeeperStep): State
    requires KeeperEnabled(s, step)
  {
    match step
    case ObserveLock => s.(mutex := Observing(0, 0), keeper := InSection)
    case ObserveTest =>
      var seen := if IsAvailable(s.counts, s.pool[s.mutex.at]) then 1 else 0;
      s.(mutex := Observing(s.mutex.at + 1, s.mutex.available + seen))
    case ObserveUnlock =>
      var available := s.mutex.available;
      s.(mutex := Free,
         keeper := if available < c.minSpare then Requesting(s.populationId, c.minSpare - available, [])
                   else if available > c.maxSpare then TrimDue(available - c.maxSpare)
                   else Idle)
    case Request =>
      s.(keeper := s.keeper.(tickets := s.keeper.tickets + [s.next]),
         next := s.next + 1,
         log := s.log + [Requested(s.next)])
    case Abort => s.(keeper := Idle)
    case Collect(succeeded) =>
      var made := Succeeded(s.keeper.tickets, succeeded);
      s.(keeper := Adding(s.keeper.population, made), counts := s.counts + multiset(made))
    case Compare => s.(mutex := Merging(s.keeper.population == s.populationId))
    case Add =>
      var made := s.keeper.made;
      var done := s.(mutex := Free, keeper := Idle, published := s.published + (set r | r in made));
      if s.mutex.same
      then done.(pool := s.pool + Valids(made))
      else done.(disposing := s.disposing + multiset(made))
    case TrimLock => s.(mutex := Trimming(false, 0, s.keeper.removeCount), keeper := InSection)
    // Nobody else looks at the pool before the mutex is free again, so a removed item can be taken out
    // at once. Its reference is destroyed when another item overwrites it or after the trim.
    case TrimTest =>
      var m := s.mutex;
      var item := s.pool[m.at];
      if Drops(s.counts, m.second, m.toRemove, item)
      then s.(pool := Without(s.pool, m.at),
              mutex := Trimming(m.second, m.at, m.toRemove - 1),
              disposing := s.disposing + multiset{item.resource})
      else s.(mutex := Trimming(m.second, m.at + 1, m.toRemove))
    case TrimSecond => s.(mutex := Trimming(true, 0, s.mutex.toRemove))
    case TrimUnlock =>
      s.(poolIndex := if s.poolIndex >= |s.pool| then 0 else s.poolIndex, mutex := Free, keeper := Idle)
  }

  // ---- health-care job ----

  /** The strong references of the health job: to what it probes, to the locked batch, and to every item
      of it whose check has begun. */
  function HealthRefs(h: HealthJob): multiset<Resource> {
    if h.Working? then BatchRefs(h.probing, h.locked, |h.beganAt|) else multiset{}
  }

  function BatchRefs(probing: seq<Item>, locked: seq<Item>, began: nat): multiset<Resource> {
    if began <= |locked| then Refs(probing) + Refs(locked) + Refs(locked[..began]) else multiset{}
  }

  predicate HealthEnabled(c: Config, s: State, step: HealthStep) {
    match step
    case SnapshotLock => s.mutex.Free? && s.health.Resting?
    case SnapshotTest => s.mutex.Snapshotting? && s.mutex.at < |s.pool|
    case SnapshotUnlock => s.mutex.Snapshotting? && s.mutex.at >= |s.pool|
    case Probe => s.health.Working? && s.health.todo != [] && s.health.probing == [] && s.health.beganAt == []
    case Decide => s.health.Working? && |s.health.probing| == 1
    case Begin => s.health.Working? && s.health.probing == [] && |s.health.beganAt| < |s.health.locked|
    case StartFails => s.health.Working? && s.health.probing == [] && |s.health.beganAt| < |s.health.locked|
    case Judge(verdict) =>
      && s.health.Working?
      && s.health.judged < |s.health.beganAt| == |s.health.locked|
      // erase needs the item to be present: the code dereferences what std::remove_if returns
      && (verdict.Unhealthy? ==> s.mutex.Free? && s.health.locked[s.health.judged].resource in Refs(s.pool))
      && (verdict.Healthy? && c.invalidateOnAccess && !s.health.locked[s.health.judged].valid ==> s.mutex.Free?)
    case ReleaseBatch =>
      s.health.Working? && s.health.probing == [] && s.health.judged == |s.health.beganAt| == |s.health.locked|
    case Rest => s.health.Working? && s.health.todo == [] && s.health.probing == [] && s.health.locked == []
  }

  function ApplyHealth(c: Config, s: State, step: HealthStep): State
    requires HealthEnabled(c, s, step)
  {
    match step
    case SnapshotLock => s.(mutex := Snapshotting(0, []), health := InSnapshot)
    case SnapshotTest =>
      var item := s.pool[s.mutex.at];
      s.(mutex := Snapshotting(s.mutex.at + 1,
                               if IsUsed(s.counts, item) then s.mutex.taken else s.mutex.taken + [item]))
    case SnapshotUnlock => s.(mutex := Free, health := Working(s.mutex.taken, [], [], [], 0))
    case Probe =>
      var x := s.health.todo[0];
      if x.resource in s.counts
      then s.(health := s.health.(todo := s.health.todo[1..], probing := [x]),
              counts := s.counts + multiset{x.resource})
      else s.(health := s.health.(todo := s.health.todo[1..]))
    case Decide =>
      var x := s.health.probing[0];
      if s.counts[x.resource] == 2
      then s.(health := s.health.(probing := [], locked := s.health.locked + [x]))
      else s.(health := s.health.(probing := []), disposing := s.disposing + multiset{x.resource})
    case Begin =>
      var r := s.health.locked[|s.health.beganAt|].resource;
      s.(health := s.health.(beganAt := s.health.beganAt + [|s.log|]),
         counts := s.counts + multiset{r},
         log := s.log + [CheckBegan(r)])
    // A check that throws when it is started ends the cycle; all references of the batch go with it.
    case StartFails => s.(health := Resting, disposing := s.disposing + HealthRefs(s.health))
    case Judge(verdict) => ApplyJudge(c, s, verdict)
    case ReleaseBatch =>
      s.(health := Working(s.health.todo, [], [], [], 0), disposing := s.disposing + HealthRefs(s.health))
    case Rest => s.(health := Resting)
  }

  function ApplyJudge(c: Config, s: State, verdict: Verdict): State
    requires HealthEnabled(c, s, Judge(verdict))
  {
    var k := s.health.judged;
    var x, began := s.health.locked[k], s.health.beganAt[k];
    var judged := s.(health := s.health.(judged := k + 1));
    var at := IndexOf(s.pool, x.resource);
    match verdict
    case CheckFailed => judged
    case Healthy =>
      var passed := judged.(log := s.log + [CheckPassed(x.resource, began)]);
      if c.invalidateOnAccess && !x.valid && at < |s.pool|
      then passed.(pool := s.pool[at := s.pool[at].(valid := true)])
      else passed
    case Unhealthy => EraseItem(judged, x.resource)
  }

  // ---- users and management ----

  predicate CallerEnabled(s: State, step: CallerStep) {
    match step
    case ClearPool => s.mutex.Free?
    case Erase(r) => s.mutex.Free? && r in Refs(s.pool)
    case StorePopulation(_) => true
    case UserCopy(r) => r in s.users
    case UserRelease(r) => r in s.users
    case Dispose(r) => r in s.disposing
  }

  function ApplyCaller(s: State, step: CallerStep): State
    requires CallerEnabled(s, step)
  {
    match step
    case ClearPool => s.(pool := [], poolIndex := 0, disposing := s.disposing + Refs(s.pool))
    case Erase(r) => EraseItem(s, r)
    case StorePopulation(id) => s.(populationId := id, ids := s.ids + {id})
    case UserCopy(r) => s.(users := s.users + multiset{r}, counts := s.counts + multiset{r})
    case UserRelease(r) => s.(users := s.users - multiset{r}, counts := s.counts - multiset{r})
    case Dispose(r) => s.(disposing := s.disposing - multiset{r}, counts := s.counts - multiset{r})
  }

  // ---- runs ----

  predicate Enabled(c: Config, s: State, step: Step) {
    match step
    case Get(g) => GetEnabled(s, g)
    case Keeper(k) => KeeperEnabled(s, k)
    case Health(h) => HealthEnabled(c, s, h)
    case Caller(u) => CallerEnabled(s, u)
  }

  function Apply(c: Config, s: State, step: Step): State
    requires Enabled(c, s, step)
  {
    match step
    case Get(g) => ApplyGet(c, s, g)
    case Keeper(k) => ApplyKeeper(c, s, k)
    case Health(h) => ApplyHealth(c, s, h)
    case Caller(u) => ApplyCaller(s, u)
  }

  predicate Runs(c: Config, s: State, steps: seq<Step>)
    decreases |steps|
  {
    steps == [] || (Enabled(c, s, steps[0]) && Runs(c, Apply(c, s, steps[0]), steps[1..]))
  }

  function Exec(c: Config, s: State, steps: seq<Step>): State
    requires Runs(c, s, steps)
    decreases |steps|
  {
    if steps == [] then s else Exec(c, Apply(c, s, steps[0]), steps[1..])
  }

  ghost predicate Reachable(c: Config, s: State) {
    exists steps :: Runs(c, INITIAL, steps) && Exec(c, INITIAL, steps) == s
  }
}
