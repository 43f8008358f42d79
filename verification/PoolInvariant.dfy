/** What every step of the pool machine keeps. Each part is stated over the fields it is about. */
module PoolInvariant {
  import opened PoolItems
  import opened PoolMachine

  /** The search index is 0 on an empty pool and a position of the pool otherwise. */
  predicate IndexFits(pool: seq<Item>, poolIndex: nat) {
    if pool == [] then poolIndex == 0 else poolIndex < |pool|
  }

  /** No resource is pooled twice, and the index fits, except that a trim repairs it only at its end. */
  ghost predicate Shape(trimming: bool, pool: seq<Item>, poolIndex: nat) {
    Distinct(pool) && (trimming || IndexFits(pool, poolIndex))
  }

  // ---- reference accounting ----

  function KeeperRefs(k: KeeperJob): multiset<Resource> {
    if k.Adding? then multiset(k.made) else multiset{}
  }

  /** Every strong count is the number of references held by the pool, users, jobs and calls. */
  ghost predicate Counted(counts: multiset<Resource>, pooled: multiset<Resource>, users: multiset<Resource>,
                          disposing: multiset<Resource>, made: map<Resource, nat>,
                          keeper: multiset<Resource>, health: multiset<Resource>)
  {
    forall r: Resource ::
      counts[r] == pooled[r] + users[r] + disposing[r] + (if r in made then 1 else 0) + keeper[r] + health[r]
  }

  /** A count of 1 on a pooled resource leaves nothing for anyone else. */
  lemma CountedOne(counts: multiset<Resource>, pooled: multiset<Resource>, users: multiset<Resource>,
                   disposing: multiset<Resource>, made: map<Resource, nat>,
                   keeper: multiset<Resource>, health: multiset<Resource>, r: Resource)
    requires Counted(counts, pooled, users, disposing, made, keeper, health) && counts[r] <= 1 && pooled[r] >= 1
    ensures r !in users && r !in disposing && r !in made && r !in keeper && r !in health
  {
  }

  /** A pooled resource somebody else holds has a count above 1. */
  lemma CountedTwo(counts: multiset<Resource>, pooled: multiset<Resource>, users: multiset<Resource>,
                   disposing: multiset<Resource>, made: map<Resource, nat>,
                   keeper: multiset<Resource>, health: multiset<Resource>, r: Resource)
    requires Counted(counts, pooled, users, disposing, made, keeper, health) && r in pooled && r in health
    ensures counts[r] > 1
  {
  }

  /** References leave the pool for the vector that is to be destroyed. */
  lemma CountedDrop(counts: multiset<Resource>, kept: multiset<Resource>, dropped: multiset<Resource>,
                    users: multiset<Resource>,
                    disposing: multiset<Resource>, made: map<Resource, nat>,
                    keeper: multiset<Resource>, health: multiset<Resource>)
    requires Counted(counts, kept + dropped, users, disposing, made, keeper, health)
    ensures Counted(counts, kept, users, disposing + dropped, made, keeper, health)
  {
  }

  /** A user copies a reference. */
  lemma CountedCopy(counts: multiset<Resource>, pooled: multiset<Resource>, users: multiset<Resource>,
                    disposing: multiset<Resource>, made: map<Resource, nat>,
                    keeper: multiset<Resource>, health: multiset<Resource>, r: Resource)
    requires Counted(counts, pooled, users, disposing, made, keeper, health)
    ensures Counted(counts + multiset{r}, pooled, users + multiset{r}, disposing, made, keeper, health)
  {
  }

  /** A user destroys a reference. */
  lemma CountedRelease(counts: multiset<Resource>, pooled: multiset<Resource>, users: multiset<Resource>,
                       disposing: multiset<Resource>, made: map<Resource, nat>,
                       keeper: multiset<Resource>, health: multiset<Resource>, r: Resource)
    requires Counted(counts, pooled, users, disposing, made, keeper, health) && r in users
    ensures Counted(counts - multiset{r}, pooled, users - multiset{r}, disposing, made, keeper, health)
  {
  }

  /** A reference removed from the pool is destroyed. */
  lemma CountedDispose(counts: multiset<Resource>, pooled: multiset<Resource>, users: multiset<Resource>,
                       disposing: multiset<Resource>, made: map<Resource, nat>,
                       keeper: multiset<Resource>, health: multiset<Resource>, r: Resource)
    requires Counted(counts, pooled, users, disposing, made, keeper, health) && r in disposing
    ensures Counted(counts - multiset{r}, pooled, users, disposing - multiset{r}, made, keeper, health)
  {
  }

  /** The health job takes one more reference. */
  lemma CountedGain(counts: multiset<Resource>, pooled: multiset<Resource>, users: multiset<Resource>,
                    disposing: multiset<Resource>, made: map<Resource, nat>,
                    keeper: multiset<Resource>, health: multiset<Resource>, r: Resource)
    requires Counted(counts, pooled, users, disposing, made, keeper, health)
    ensures Counted(counts + multiset{r}, pooled, users, disposing, made, keeper, health + multiset{r})
  {
  }

  /** A call receives what it asked for. */
  lemma CountedMade(counts: multiset<Resource>, pooled: multiset<Resource>, users: multiset<Resource>,
                    disposing: multiset<Resource>, made: map<Resource, nat>,
                    keeper: multiset<Resource>, health: multiset<Resource>, r: Resource, id: nat)
    requires Counted(counts, pooled, users, disposing, made, keeper, health) && r !in made
    ensures Counted(counts + multiset{r}, pooled, users, disposing, made[r := id], keeper, health)
  {
  }

  /** The health job gives up references it holds. */
  lemma CountedLoss(counts: multiset<Resource>, pooled: multiset<Resource>, users: multiset<Resource>,
                    disposing: multiset<Resource>, made: map<Resource, nat>,
                    keeper: multiset<Resource>, health: multiset<Resource>, lost: multiset<Resource>)
    requires Counted(counts, pooled, users, disposing, made, keeper, health + lost)
    ensures Counted(counts, pooled, users, disposing + lost, made, keeper, health)
  {
  }

  /** The keeper gives up the creations it holds. */
  lemma CountedDiscard(counts: multiset<Resource>, pooled: multiset<Resource>, users: multiset<Resource>,
                       disposing: multiset<Resource>, made: map<Resource, nat>,
                       keeper: multiset<Resource>, health: multiset<Resource>)
    requires Counted(counts, pooled, users, disposing, made, keeper, health)
    ensures Counted(counts, pooled, users, disposing + keeper, made, multiset{}, health)
  {
  }

  /** The pool destroys a reference it holds. */
  lemma CountedErase(counts: multiset<Resource>, pooled: multiset<Resource>, users: multiset<Resource>,
                     disposing: multiset<Resource>, made: map<Resource, nat>,
                     keeper: multiset<Resource>, health: multiset<Resource>, r: Resource)
    requires Counted(counts, pooled, users, disposing, made, keeper, health) && r in pooled
    ensures Counted(counts - multiset{r}, pooled - multiset{r}, users, disposing, made, keeper, health)
  {
  }

  // ---- sections and jobs ----

  /** Items the health job has seen in the current cycle and not judged yet. */
  function Pending(mutex: Mutex, health: HealthJob): seq<Item> {
    if mutex.Snapshotting? then mutex.taken
    else if health.Working? && health.judged <= |health.locked|
    then health.locked[health.judged..] + health.probing + health.todo
    else []
  }

  ghost predicate HealthShape(h: HealthJob, log: seq<Event>) {
    h.Working? ==>
      && |h.probing| <= 1
      && h.judged <= |h.beganAt| <= |h.locked|
      && (h.probing != [] ==> h.beganAt == [])
      && (h.judged > 0 ==> |h.beganAt| == |h.locked|)
      && forall k | 0 <= k < |h.beganAt| ::
           h.beganAt[k] < |log| && log[h.beganAt[k]] == CheckBegan(h.locked[k].resource)
  }

  /** What the owner of the mutex knows. */
  ghost predicate Section(mutex: Mutex, pool: seq<Item>, users: multiset<Resource>, made: map<Resource, nat>) {
    match mutex
    case Free => true
    case Searching(_, at) => at <= |pool|
    case Selected(at) => at < |pool| && pool[at].valid && pool[at].resource !in users
    case Appending(r, _) => r in made
    case Merging(_) => true
    case Observing(at, available) => available <= at <= |pool|
    case Trimming(_, at, _) => at <= |pool|
    case Snapshotting(at, taken) => at <= |pool| && (forall x | x in taken :: x in pool[..at]) && Distinct(taken)
  }

  ghost predicate Jobs(mutex: Mutex, keeper: KeeperJob, health: HealthJob) {
    && (keeper.InSection? <==> mutex.Observing? || mutex.Trimming?)
    && (mutex.Merging? ==> keeper.Adding?)
    && (health.InSnapshot? <==> mutex.Snapshotting?)
  }

  // ---- provenance ----

  ghost predicate Known(published: set<Resource>, items: seq<Item>) {
    forall x | x in items :: x.resource in published
  }

  ghost predicate KnownRefs(published: set<Resource>, refs: multiset<Resource>) {
    forall r | r in refs :: r in published
  }

  ghost predicate KnownLog(published: set<Resource>, log: seq<Event>) {
    forall e | e in log && !e.Requested? :: e.resource in published
  }

  function Locked(h: HealthJob): seq<Item> {
    if h.Working? then h.locked else []
  }

  /** Creations the keeper has asked for or received and not pooled yet. */
  function KeeperOwned(k: KeeperJob): seq<Resource> {
    match k
    case Requesting(_, _, tickets) => tickets
    case Adding(_, made) => made
    case _ => []
  }

  /** Every creation has one owner until it is published. */
  ghost predicate Owned(next: Resource, published: set<Resource>, waiting: set<Resource>, made: set<Resource>,
                        keeper: seq<Resource>)
  {
    && (forall r | r in published || r in waiting || r in made || r in keeper :: r < next)
    && (forall r | r in published :: r !in waiting && r !in made && r !in keeper)
    && (forall r | r in waiting :: r !in made && r !in keeper)
    && (forall r | r in made :: r !in keeper)
    && (forall i, j | 0 <= i < j < |keeper| :: keeper[i] != keeper[j])
  }

  // ---- the history of one resource ----

  /** Some check of `r` began after the event at `i` and passed before the event at `j`. */
  ghost predicate CheckedBetween(log: seq<Event>, r: Resource, i: int, j: int) {
    exists p :: 0 <= i < p < j && p < |log| && log[p].CheckPassed? && log[p].resource == r && i < log[p].beganAt
  }

  ghost predicate PassesBegan(log: seq<Event>) {
    forall p | 0 <= p < |log| && log[p].CheckPassed? ::
      log[p].beganAt < p && log[log[p].beganAt] == CheckBegan(log[p].resource)
  }

  /** Every hand-out of `r` so far has been followed by a whole check that passed. */
  ghost predicate Settled(log: seq<Event>, r: Resource) {
    forall i | 0 <= i < |log| && log[i] == HandedOut(r) :: CheckedBetween(log, r, i, |log|)
  }

  /** Between two hand-outs of one resource lies a whole check that passed. */
  ghost predicate Rechecked(log: seq<Event>) {
    forall i, j | 0 <= i < j < |log| && log[i].HandedOut? && log[i] == log[j] ::
      CheckedBetween(log, log[i].resource, i, j)
  }

  ghost predicate ValidSettled(pool: seq<Item>, log: seq<Event>) {
    forall y | y in pool && y.valid :: Settled(log, y.resource)
  }

  ghost predicate HandedOutBefore(log: seq<Event>, r: Resource, bound: nat) {
    forall i | 0 <= i < |log| && log[i] == HandedOut(r) :: i < bound
  }

  ghost predicate InvalidIn(pool: seq<Item>, r: Resource) {
    forall y | y in pool && y.resource == r :: !y.valid
  }

  /** An item that was invalid when the snapshot was taken stays so until its own verdict. */
  ghost predicate StaleInvalid(pool: seq<Item>, pending: seq<Item>) {
    forall x | x in pending && !x.valid :: InvalidIn(pool, x.resource)
  }

  /** Such an item was last handed out before its check began. */
  ghost predicate StaleHandedOut(h: HealthJob, log: seq<Event>) {
    h.Working? ==>
      forall k | h.judged <= k < |h.beganAt| && k < |h.locked| && !h.locked[k].valid ::
        HandedOutBefore(log, h.locked[k].resource, h.beganAt[k])
  }

  // ---- the invariant, part by part ----

  datatype Part =
    | ShapePart | CountPart | SectionPart | JobPart | CheckPart
    | KnownItemPart | KnownRefPart | KnownEventPart | OwnerPart | PendingPart | PassPart
    | RecheckPart | SettledPart | StaleFlagPart | StaleOrderPart

  ghost predicate Holds(p: Part, c: Config, s: State) {
    match p
    case ShapePart => Shape(s.mutex.Trimming?, s.pool, s.poolIndex)
    case CountPart =>
      Counted(s.counts, Refs(s.pool), s.users, s.disposing, s.made, KeeperRefs(s.keeper), HealthRefs(s.health))
    case SectionPart => Section(s.mutex, s.pool, s.users, s.made)
    case JobPart => Jobs(s.mutex, s.keeper, s.health)
    case CheckPart => HealthShape(s.health, s.log)
    case KnownItemPart =>
      && Known(s.published, s.pool)
      && Known(s.published, Pending(s.mutex, s.health)) && Known(s.published, Locked(s.health))
    case KnownRefPart => KnownRefs(s.published, s.users) && KnownRefs(s.published, s.disposing)
    case KnownEventPart => KnownLog(s.published, s.log)
    case OwnerPart => Owned(s.next, s.published, s.waiting.Keys, s.made.Keys, KeeperOwned(s.keeper))
    case PendingPart => Distinct(Pending(s.mutex, s.health))
    case PassPart => PassesBegan(s.log)
    case RecheckPart => c.invalidateOnAccess ==> Rechecked(s.log)
    case SettledPart => c.invalidateOnAccess ==> ValidSettled(s.pool, s.log)
    case StaleFlagPart => c.invalidateOnAccess ==> StaleInvalid(s.pool, Pending(s.mutex, s.health))
    case StaleOrderPart => c.invalidateOnAccess ==> StaleHandedOut(s.health, s.log)
  }

  predicate OfPool(p: Part) {
    p.ShapePart? || p.CountPart?
  }

  predicate OfThreads(p: Part) {
    p.SectionPart? || p.JobPart?
  }

  predicate OfOrigin(p: Part) {
    p.KnownItemPart? || p.KnownRefPart? || p.OwnerPart? || p.PendingPart?
  }

  /** The parts about hand-outs and health checks that hold when access invalidates. */
  predicate OfHistory(p: Part) {
    p.RecheckPart? || p.SettledPart? || p.StaleFlagPart? || p.StaleOrderPart?
  }

  ghost predicate Inv(c: Config, s: State) {
    forall p: Part :: Holds(p, c, s)
  }

  /** The two states agree on everything `p` is about. */
  ghost predicate Same(p: Part, s: State, t: State) {
    match p
    case ShapePart => t.pool == s.pool && t.poolIndex == s.poolIndex && (s.mutex.Trimming? ==> t.mutex.Trimming?)
    case CountPart =>
      && t.counts == s.counts && Refs(t.pool) == Refs(s.pool) && t.users == s.users && t.disposing == s.disposing
      && t.made == s.made && KeeperRefs(t.keeper) == KeeperRefs(s.keeper)
      && HealthRefs(t.health) == HealthRefs(s.health)
    case SectionPart => t.mutex == s.mutex && t.pool == s.pool && t.users == s.users && t.made == s.made
    case JobPart => t.mutex == s.mutex && t.keeper == s.keeper && t.health == s.health
    case CheckPart => t.health == s.health && t.log == s.log
    case KnownItemPart =>
      && t.published == s.published && t.pool == s.pool
      && Pending(t.mutex, t.health) == Pending(s.mutex, s.health) && Locked(t.health) == Locked(s.health)
    case KnownRefPart => t.published == s.published && t.users == s.users && t.disposing == s.disposing
    case KnownEventPart => t.published == s.published && t.log == s.log
    case OwnerPart =>
      && t.next == s.next && t.published == s.published && t.waiting == s.waiting && t.made == s.made
      && KeeperOwned(t.keeper) == KeeperOwned(s.keeper)
    case PendingPart => Pending(t.mutex, t.health) == Pending(s.mutex, s.health)
    case PassPart => t.log == s.log
    case RecheckPart => t.log == s.log
    case SettledPart => t.pool == s.pool && t.log == s.log
    case StaleFlagPart => t.pool == s.pool && Pending(t.mutex, t.health) == Pending(s.mutex, s.health)
    case StaleOrderPart => t.health == s.health && t.log == s.log
  }

  lemma Frame(p: Part, c: Config, s: State, t: State)
    requires Inv(c, s) && Same(p, s, t)
    ensures Holds(p, c, t)
  {
    assert Holds(p, c, s);
  }

  predicate OfLog(p: Part) {
    p.CheckPart? || p.PassPart? || p.KnownEventPart?
  }

  /** One more event in the log, other than a passed check. */
  lemma LogFrame(p: Part, c: Config, s: State, t: State, e: Event)
    requires Inv(c, s) && OfLog(p)
    requires t.log == s.log + [e] && t.health == s.health && s.published <= t.published
    requires !e.CheckPassed? && (!e.Requested? ==> e.resource in t.published)
    ensures Holds(p, c, t)
  {
    assert Holds(p, c, s);
  }

  lemma InitialInv(c: Config)
    ensures Inv(c, INITIAL)
  {
    forall p: Part ensures Holds(p, c, INITIAL) {
    }
  }

  // ---- how the log grows ----

  lemma CheckedBetweenGrows(log: seq<Event>, e: Event, r: Resource, i: int, j: int, k: int)
    requires CheckedBetween(log, r, i, j) && j <= k
    ensures CheckedBetween(log + [e], r, i, k)
  {
    var p :| 0 <= i < p < j && p < |log| && log[p].CheckPassed? && log[p].resource == r && i < log[p].beganAt;
    assert (log + [e])[p] == log[p];
  }

  lemma SettledGrows(log: seq<Event>, e: Event, r: Resource)
    requires Settled(log, r) && e != HandedOut(r)
    ensures Settled(log + [e], r)
  {
    var grown := log + [e];
    forall i | 0 <= i < |grown| && grown[i] == HandedOut(r) ensures CheckedBetween(grown, r, i, |grown|) {
      assert i < |log| && log[i] == HandedOut(r);
      CheckedBetweenGrows(log, e, r, i, |log|, |grown|);
    }
  }

  lemma RecheckedGrows(log: seq<Event>, e: Event)
    requires Rechecked(log)
    requires e.HandedOut? ==> Settled(log, e.resource)
    ensures Rechecked(log + [e])
  {
    var grown := log + [e];
    forall i, j | 0 <= i < j < |grown| && grown[i].HandedOut? && grown[i] == grown[j]
      ensures CheckedBetween(grown, grown[i].resource, i, j)
    {
      assert grown[i] == log[i];
      if j < |log| {
        assert grown[j] == log[j];
        assert CheckedBetween(log, log[i].resource, i, j);
      } else {
        assert log[i] == HandedOut(e.resource);
        assert CheckedBetween(log, e.resource, i, |log|);
      }
      CheckedBetweenGrows(log, e, log[i].resource, i, if j < |log| then j else |log|, j);
    }
  }

  lemma ValidSettledGrows(pool: seq<Item>, log: seq<Event>, e: Event)
    requires ValidSettled(pool, log)
    requires e.HandedOut? ==> InvalidIn(pool, e.resource)
    ensures ValidSettled(pool, log + [e])
  {
    forall y | y in pool && y.valid ensures Settled(log + [e], y.resource) {
      SettledGrows(log, e, y.resource);
    }
  }

  lemma StaleHandedOutGrows(h: HealthJob, log: seq<Event>, e: Event)
    requires StaleHandedOut(h, log)
    requires h.Working? && e.HandedOut? ==>
               forall k | h.judged <= k < |h.beganAt| && k < |h.locked| && !h.locked[k].valid ::
                 h.locked[k].resource != e.resource
    ensures StaleHandedOut(h, log + [e])
  {
    var grown := log + [e];
    if h.Working? {
      forall k | h.judged <= k < |h.beganAt| && k < |h.locked| && !h.locked[k].valid
        ensures HandedOutBefore(grown, h.locked[k].resource, h.beganAt[k])
      {
        var r := h.locked[k].resource;
        forall i | 0 <= i < |grown| && grown[i] == HandedOut(r) ensures i < h.beganAt[k] {
          assert i < |log| && log[i] == HandedOut(r);
        }
      }
    }
  }
}
