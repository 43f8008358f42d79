/** Which creations under way a clearing keeps out of the pool. */
module PoolClears {
  import opened PoolItems
  import opened PoolMachine
  import opened PoolInvariant
  import opened PoolMembership
  import opened PoolPreservation
  import opened PoolGenerations

  /** Asked for, or received, and not in the hands of anyone who asked for it yet. */
  predicate UnderWay(s: State, r: Resource) {
    r in s.waiting || r in s.made || r in KeeperOwned(s.keeper)
  }

  /** The population id that was read before the creation was asked for. */
  function Carried(s: State, r: Resource): (id: nat)
    requires UnderWay(s, r)
  {
    if r in s.waiting then s.waiting[r] else if r in s.made then s.made[r] else s.keeper.population
  }

  // ---- kept out ----

  /** Its population id was compared with the one that was current, successfully, by a thread that is
      about to pool it. */
  predicate Admitted(s: State, r: Resource) {
    s.mutex == Appending(r, true) || (s.mutex == Merging(true) && r in KeeperOwned(s.keeper))
  }

  /** Not pooled, nor about to be, and under way, if at all, with an id that is not the current one. */
  predicate Barred(s: State, r: Resource, id: nat) {
    !Pooled(s, r) && !Admitted(s, r) && Outdated(s, r, id)
  }

  predicate Outdated(s: State, r: Resource, id: nat) {
    && r < s.next && s.populationId != id
    && (r in s.waiting ==> s.waiting[r] == id)
    && (r in s.made ==> s.made[r] == id)
    && (r in KeeperOwned(s.keeper) ==> s.keeper.population == id)
  }

  lemma GetBars(c: Config, s: State, step: GetStep, r: Resource, id: nat)
    requires Inv(c, s) && GetEnabled(s, step) && Barred(s, r, id)
    ensures Barred(ApplyGet(c, s, step), r, id)
  {
    GetPools(c, s, step, r);
    GetOutdated(c, s, step, r, id);
    ComparedStays(c, s, Get(step));
  }

  lemma GetOutdated(c: Config, s: State, step: GetStep, r: Resource, id: nat)
    requires GetEnabled(s, step) && Outdated(s, r, id)
    ensures Outdated(ApplyGet(c, s, step), r, id)
  {
    match step case GetMade(_) => case GetAppend(_) => case _ =>
  }

  lemma KeeperBars(c: Config, s: State, step: KeeperStep, r: Resource, id: nat)
    requires Inv(c, s) && KeeperEnabled(s, step) && Barred(s, r, id)
    ensures Barred(ApplyKeeper(c, s, step), r, id)
  {
    KeeperPools(c, s, step, r);
    KeeperOutdated(c, s, step, r, id);
    ComparedStays(c, s, Keeper(step));
  }

  lemma KeeperOutdated(c: Config, s: State, step: KeeperStep, r: Resource, id: nat)
    requires KeeperEnabled(s, step) && Outdated(s, r, id)
    ensures Outdated(ApplyKeeper(c, s, step), r, id)
  {
    match step
    case Collect(succeeded) => SucceededIn(s.keeper.tickets, succeeded);
    case Request =>
    case _ =>
  }

  lemma HealthBars(c: Config, s: State, step: HealthStep, r: Resource, id: nat)
    requires Inv(c, s) && HealthEnabled(c, s, step) && Barred(s, r, id)
    ensures Barred(ApplyHealth(c, s, step), r, id)
  {
    HealthPools(c, s, step, r);
    HealthReads(c, s, step);
  }

  lemma CallerBars(c: Config, s: State, step: CallerStep, r: Resource, id: nat)
    requires Inv(c, s) && CallerEnabled(s, step) && Barred(s, r, id) && step != StorePopulation(id)
    ensures Barred(ApplyCaller(s, step), r, id)
  {
    CallerPools(c, s, step, r);
  }

  lemma {:induction false} BarredRun(c: Config, s: State, steps: seq<Step>, r: Resource, id: nat)
    requires Inv(c, s) && Runs(c, s, steps) && AllKeepAway(steps, {id}) && Barred(s, r, id)
    ensures Barred(Exec(c, s, steps), r, id)
    decreases |steps|
  {
    if steps != [] {
      assert KeepsAway(steps[0], {id});
      match steps[0] {
        case Get(g) => GetBars(c, s, g, r, id);
        case Keeper(k) => KeeperBars(c, s, k, r, id);
        case Health(h) => HealthBars(c, s, h, r, id);
        case Caller(u) => CallerBars(c, s, u, r, id);
      }
      StepKeeps(c, s, steps[0]);
      BarredRun(c, Apply(c, s, steps[0]), steps[1..], r, id);
    }
  }

  // ---- let in ----

  /** Some run that does not make `id` the current one pools the resource. */
  ghost predicate MayBePooled(c: Config, s: State, r: Resource, id: nat) {
    exists steps :: Runs(c, s, steps) && AllKeepAway(steps, {id}) && Pooled(Exec(c, s, steps), r)
  }

  lemma PooledNow(c: Config, s: State, r: Resource, id: nat)
    requires Pooled(s, r)
    ensures MayBePooled(c, s, r, id)
  {
    assert Runs(c, s, []) && AllKeepAway([], {id}) && Exec(c, s, []) == s;
  }

  /** What a step leads to may be pooled, so it may be pooled. */
  lemma PooledThen(c: Config, s: State, step: Step, r: Resource, id: nat)
    requires Enabled(c, s, step) && KeepsAway(step, {id}) && MayBePooled(c, Apply(c, s, step), r, id)
    ensures MayBePooled(c, s, r, id)
  {
    var t := Apply(c, s, step);
    var rest :| Runs(c, t, rest) && AllKeepAway(rest, {id}) && Pooled(Exec(c, t, rest), r);
    var steps := [step] + rest;
    assert steps[0] == step && steps[1..] == rest;
    assert Runs(c, s, steps) && Exec(c, s, steps) == Exec(c, t, rest);
  }

  lemma AppendedMayBePooled(c: Config, s: State, r: Resource, id: nat)
    requires s.mutex == Appending(r, true) && r in s.made
    ensures MayBePooled(c, s, r, id)
  {
    GetPools(c, s, GetAppend(r), r);
    PooledNow(c, Apply(c, s, Get(GetAppend(r))), r, id);
    PooledThen(c, s, Get(GetAppend(r)), r, id);
  }

  lemma MergedMayBePooled(c: Config, s: State, r: Resource, id: nat)
    requires s.mutex == Merging(true) && s.keeper.Adding? && r in s.keeper.made
    ensures MayBePooled(c, s, r, id)
  {
    AddPools(c, s, r);
    PooledNow(c, Apply(c, s, Keeper(Add)), r, id);
    PooledThen(c, s, Keeper(Add), r, id);
  }

  lemma MadeMayBePooled(c: Config, s: State, r: Resource)
    requires s.mutex.Free? && r in s.made && s.made[r] == s.populationId
    ensures MayBePooled(c, s, r, s.populationId)
  {
    AppendedMayBePooled(c, Apply(c, s, Get(GetCompare(r))), r, s.populationId);
    PooledThen(c, s, Get(GetCompare(r)), r, s.populationId);
  }

  lemma WaitingMayBePooled(c: Config, s: State, r: Resource)
    requires s.mutex.Free? && r in s.waiting && s.waiting[r] == s.populationId
    ensures MayBePooled(c, s, r, s.populationId)
  {
    MadeMayBePooled(c, Apply(c, s, Get(GetMade(r))), r);
    PooledThen(c, s, Get(GetMade(r)), r, s.populationId);
  }

  lemma AddedMayBePooled(c: Config, s: State, r: Resource)
    requires s.mutex.Free? && s.keeper.Adding? && r in s.keeper.made && s.keeper.population == s.populationId
    ensures MayBePooled(c, s, r, s.populationId)
  {
    MergedMayBePooled(c, Apply(c, s, Keeper(Compare)), r, s.populationId);
    PooledThen(c, s, Keeper(Compare), r, s.populationId);
  }

  lemma {:induction false} AllSucceed(tickets: seq<Resource>, succeeded: set<Resource>, r: Resource)
    requires r in tickets && r in succeeded
    ensures r in Succeeded(tickets, succeeded)
  {
    assert tickets == [tickets[0]] + tickets[1..];
    if tickets[0] != r {
      AllSucceed(tickets[1..], succeeded, r);
    }
  }

  /** The keeper asks for what it still needs, its creations succeed, and it adds them. */
  lemma {:induction false} RequestedMayBePooled(c: Config, s: State, r: Resource)
    requires s.mutex.Free? && s.keeper.Requesting? && |s.keeper.tickets| <= s.keeper.needed
    requires r in s.keeper.tickets && s.keeper.population == s.populationId
    ensures MayBePooled(c, s, r, s.populationId)
    decreases if s.keeper.Requesting? then s.keeper.needed - |s.keeper.tickets| else 0
  {
    var step := if |s.keeper.tickets| < s.keeper.needed then Keeper(Request) else Keeper(Collect({r}));
    var t := Apply(c, s, step);
    if |s.keeper.tickets| < s.keeper.needed {
      RequestedMayBePooled(c, t, r);
    } else {
      AllSucceed(s.keeper.tickets, {r}, r);
      AddedMayBePooled(c, t, r);
    }
    PooledThen(c, s, step, r, s.populationId);
  }

  // ---- the keeper never asks for too much ----

  predicate TicketsFit(s: State) {
    s.keeper.Requesting? ==> |s.keeper.tickets| <= s.keeper.needed
  }

  lemma TicketsFitStep(c: Config, s: State, step: Step)
    requires Enabled(c, s, step) && TicketsFit(s)
    ensures TicketsFit(Apply(c, s, step))
  {
    match step
    case Get(g) => GetTickets(c, s, g);
    case Keeper(k) => KeeperTickets(c, s, k);
    case Health(h) => HealthReads(c, s, h);
    case Caller(_) =>
  }

  lemma GetTickets(c: Config, s: State, step: GetStep)
    requires GetEnabled(s, step)
    ensures ApplyGet(c, s, step).keeper == s.keeper
  {
  }

  lemma KeeperTickets(c: Config, s: State, step: KeeperStep)
    requires KeeperEnabled(s, step) && TicketsFit(s)
    ensures TicketsFit(ApplyKeeper(c, s, step))
  {
  }

  lemma {:induction false} TicketsFitRun(c: Config, s: State, steps: seq<Step>)
    requires Runs(c, s, steps) && TicketsFit(s)
    ensures TicketsFit(Exec(c, s, steps))
    decreases |steps|
  {
    if steps != [] {
      TicketsFitStep(c, s, steps[0]);
      TicketsFitRun(c, Apply(c, s, steps[0]), steps[1..]);
    }
  }

  lemma TicketsAlwaysFit(c: Config, s: State)
    requires Reachable(c, s)
    ensures TicketsFit(s)
  {
    var steps :| Runs(c, INITIAL, steps) && Exec(c, INITIAL, steps) == s;
    TicketsFitRun(c, INITIAL, steps);
  }

  // ---- exactly which ----

  lemma CurrentMayBePooled(c: Config, s: State, r: Resource)
    requires s.mutex.Free? && TicketsFit(s) && UnderWay(s, r) && Carried(s, r) == s.populationId
    ensures MayBePooled(c, s, r, s.populationId)
  {
    if r in s.waiting {
      WaitingMayBePooled(c, s, r);
    } else if r in s.made {
      MadeMayBePooled(c, s, r);
    } else if s.keeper.Adding? {
      AddedMayBePooled(c, s, r);
    } else {
      RequestedMayBePooled(c, s, r);
    }
  }

  /** A creation that is under way when the pool is cleared can be pooled afterwards, without its own
      population id being stored again, exactly when that id is the current one. */
  lemma ClearKeepsOutIff(c: Config, s: State, r: Resource)
    requires Reachable(c, s) && CallerEnabled(s, ClearPool) && UnderWay(s, r)
    ensures MayBePooled(c, ApplyCaller(s, ClearPool), r, Carried(s, r)) <==> Carried(s, r) == s.populationId
  {
    var cleared, id := ApplyCaller(s, ClearPool), Carried(s, r);
    ReachableInv(c, s);
    TicketsAlwaysFit(c, s);
    if id == s.populationId {
      CurrentMayBePooled(c, cleared, r);
    } else {
      OnlyCarried(c, s, r);
      StepKeeps(c, s, Caller(ClearPool));
      forall steps | Runs(c, cleared, steps) && AllKeepAway(steps, {id}) ensures !Pooled(Exec(c, cleared, steps), r) {
        BarredRun(c, cleared, steps, r, id);
      }
    }
  }

  /** When its id is stored again it always can. */
  lemma RestoringLetsIn(c: Config, s: State, r: Resource)
    requires Reachable(c, s) && CallerEnabled(s, ClearPool) && UnderWay(s, r)
    ensures var restored := ApplyCaller(ApplyCaller(s, ClearPool), StorePopulation(Carried(s, r)));
            MayBePooled(c, restored, r, Carried(s, r))
  {
    TicketsAlwaysFit(c, s);
    CurrentMayBePooled(c, ApplyCaller(ApplyCaller(s, ClearPool), StorePopulation(Carried(s, r))), r);
  }

  /** Store a population id that was never current. Without a clearing, a creation that is under way then
      can be pooled afterwards, as long as its own id is not stored again, exactly when a thread is about
      to pool it, having compared the ids before. */
  lemma StoreKeepsOutIff(c: Config, s: State, id: nat, r: Resource)
    requires Reachable(c, s) && id !in s.ids && UnderWay(s, r)
    ensures MayBePooled(c, Apply(c, s, Caller(StorePopulation(id))), r, Carried(s, r)) <==> Admitted(s, r)
  {
    var stored := Apply(c, s, Caller(StorePopulation(id)));
    ReachableInv(c, s);
    InitiallyRead(c, s);
    StepKeeps(c, s, Caller(StorePopulation(id)));
    assert Holds(SectionPart, c, s) && Holds(JobPart, c, s);
    if s.mutex == Appending(r, true) {
      AppendedMayBePooled(c, stored, r, Carried(s, r));
    } else if Admitted(s, r) {
      MergedMayBePooled(c, stored, r, Carried(s, r));
    } else {
      OnlyStored(c, s, id, r);
      forall steps | Runs(c, stored, steps) && AllKeepAway(steps, {Carried(s, r)})
        ensures !Pooled(Exec(c, stored, steps), r)
      {
        BarredRun(c, stored, steps, r, Carried(s, r));
      }
    }
  }

  lemma OnlyStored(c: Config, s: State, id: nat, r: Resource)
    requires Inv(c, s) && ReadIds(s.ids, s) && id !in s.ids && UnderWay(s, r) && !Admitted(s, r)
    ensures Barred(Apply(c, s, Caller(StorePopulation(id))), r, Carried(s, r))
  {
    assert Holds(OwnerPart, c, s) && Holds(KnownItemPart, c, s);
    RefsMember(s.pool, r);
  }

  /** A creation under way has one owner. */
  lemma OnlyCarried(c: Config, s: State, r: Resource)
    requires Inv(c, s) && UnderWay(s, r) && Carried(s, r) != s.populationId && CallerEnabled(s, ClearPool)
    ensures Barred(ApplyCaller(s, ClearPool), r, Carried(s, r))
  {
    assert Holds(OwnerPart, c, s);
  }
}
