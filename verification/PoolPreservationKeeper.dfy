/** Every step of the resource-count keeper keeps the invariant. */
module PoolPreservationKeeper {
  import opened PoolItems
  import opened PoolMachine
  import opened PoolInvariant
  import opened PoolPreservationGet

  lemma {:induction false} SucceededFrom(tickets: seq<Resource>, succeeded: set<Resource>)
    requires forall i, j | 0 <= i < j < |tickets| :: tickets[i] != tickets[j]
    ensures var made := Succeeded(tickets, succeeded);
            && (forall r :: r in made <==> r in tickets && r in succeeded)
            && (forall i, j | 0 <= i < j < |made| :: made[i] != made[j])
  {
    if tickets != [] {
      SucceededFrom(tickets[1..], succeeded);
      var rest := Succeeded(tickets[1..], succeeded);
      var made := Succeeded(tickets, succeeded);
      assert tickets == [tickets[0]] + tickets[1..];
      if tickets[0] in succeeded {
        assert made == [tickets[0]] + rest;
        assert forall i | 0 < i < |made| :: made[i] == rest[i - 1];
      } else {
        assert made == rest;
      }
    }
  }

  lemma ObserveLockKeeps(c: Config, s: State)
    requires Inv(c, s) && KeeperEnabled(s, ObserveLock)
    ensures Inv(c, ApplyKeeper(c, s, ObserveLock))
  {
    var t := ApplyKeeper(c, s, ObserveLock);
    forall p: Part ensures Holds(p, c, t) {
      match p {
        case SectionPart =>
        case JobPart => assert Holds(JobPart, c, s);
        case _ => Frame(p, c, s, t);
      }
    }
  }

  lemma ObserveTestKeeps(c: Config, s: State)
    requires Inv(c, s) && KeeperEnabled(s, ObserveTest)
    ensures Inv(c, ApplyKeeper(c, s, ObserveTest))
  {
    var t := ApplyKeeper(c, s, ObserveTest);
    forall p: Part ensures Holds(p, c, t) {
      match p {
        case SectionPart => assert Holds(SectionPart, c, s);
        case JobPart => assert Holds(JobPart, c, s);
        case _ => Frame(p, c, s, t);
      }
    }
  }

  lemma ObserveUnlockKeeps(c: Config, s: State)
    requires Inv(c, s) && KeeperEnabled(s, ObserveUnlock)
    ensures Inv(c, ApplyKeeper(c, s, ObserveUnlock))
  {
    var t := ApplyKeeper(c, s, ObserveUnlock);
    assert Holds(JobPart, c, s);
    assert KeeperRefs(t.keeper) == KeeperRefs(s.keeper) && KeeperOwned(t.keeper) == KeeperOwned(s.keeper);
    assert Pending(t.mutex, t.health) == Pending(s.mutex, s.health);
    forall p: Part ensures Holds(p, c, t) {
      match p {
        case SectionPart =>
        case JobPart =>
        case _ => Frame(p, c, s, t);
      }
    }
  }

  lemma RequestKeeps(c: Config, s: State)
    requires Inv(c, s) && KeeperEnabled(s, Request)
    ensures Inv(c, ApplyKeeper(c, s, Request))
  {
    var t := ApplyKeeper(c, s, Request);
    forall p: Part ensures Holds(p, c, t) {
      if OfHistory(p) { QuietHistory(p, c, s, t, Requested(s.next)); }
      else if OfLog(p) { LogFrame(p, c, s, t, Requested(s.next)); }
      else if p == OwnerPart { RequestOwner(c, s); }
      else if p == JobPart { assert Holds(p, c, s); }
      else { Frame(p, c, s, t); }
    }
  }

  lemma RequestOwner(c: Config, s: State)
    requires Inv(c, s) && KeeperEnabled(s, Request)
    ensures Holds(OwnerPart, c, ApplyKeeper(c, s, Request))
  {
    assert Holds(OwnerPart, c, s);
    assert forall r | r in s.keeper.tickets :: r < s.next;
    var tickets := s.keeper.tickets + [s.next];
    forall i, j | 0 <= i < j < |tickets| ensures tickets[i] != tickets[j] {
      assert tickets[i] in s.keeper.tickets;
    }
  }

  lemma AbortKeeps(c: Config, s: State)
    requires Inv(c, s) && KeeperEnabled(s, Abort)
    ensures Inv(c, ApplyKeeper(c, s, Abort))
  {
    var t := ApplyKeeper(c, s, Abort);
    forall p: Part ensures Holds(p, c, t) {
      if p == OwnerPart || p == JobPart { assert Holds(p, c, s); }
      else { Frame(p, c, s, t); }
    }
  }

  lemma CollectKeeps(c: Config, s: State, succeeded: set<Resource>)
    requires Inv(c, s) && KeeperEnabled(s, Collect(succeeded))
    ensures Inv(c, ApplyKeeper(c, s, Collect(succeeded)))
  {
    var t := ApplyKeeper(c, s, Collect(succeeded));
    forall p: Part ensures Holds(p, c, t) {
      match p {
        case CountPart => assert Holds(CountPart, c, s);
        case JobPart => assert Holds(JobPart, c, s);
        case OwnerPart => CollectOwner(c, s, succeeded);
        case _ => Frame(p, c, s, t);
      }
    }
  }

  lemma CollectOwner(c: Config, s: State, succeeded: set<Resource>)
    requires Inv(c, s) && KeeperEnabled(s, Collect(succeeded))
    ensures Holds(OwnerPart, c, ApplyKeeper(c, s, Collect(succeeded)))
  {
    assert Holds(OwnerPart, c, s);
    SucceededFrom(s.keeper.tickets, succeeded);
  }

  lemma CompareKeeps(c: Config, s: State)
    requires Inv(c, s) && KeeperEnabled(s, Compare)
    ensures Inv(c, ApplyKeeper(c, s, Compare))
  {
    var t := ApplyKeeper(c, s, Compare);
    forall p: Part ensures Holds(p, c, t) {
      match p {
        case SectionPart =>
        case JobPart => assert Holds(JobPart, c, s);
        case _ => Frame(p, c, s, t);
      }
    }
  }

  lemma AddShape(c: Config, s: State)
    requires Inv(c, s) && KeeperEnabled(s, Add)
    ensures Holds(ShapePart, c, ApplyKeeper(c, s, Add))
  {
    assert Holds(ShapePart, c, s);
    if s.mutex.same {
      assert Holds(OwnerPart, c, s);
      var made, pool := s.keeper.made, s.pool + Valids(s.keeper.made);
      forall i, j | 0 <= i < j < |pool| ensures pool[i].resource != pool[j].resource {
        if j >= |s.pool| {
          assert pool[j].resource == made[j - |s.pool|];
          NotPublished(c, s, made[j - |s.pool|]);
        }
      }
    }
  }

  lemma AddCounts(c: Config, s: State)
    requires Inv(c, s) && KeeperEnabled(s, Add)
    ensures Holds(CountPart, c, ApplyKeeper(c, s, Add))
  {
    assert Holds(CountPart, c, s);
    if s.mutex.same {
      RefsConcat(s.pool, Valids(s.keeper.made));
      ValidsRefs(s.keeper.made);
    } else {
      CountedDiscard(s.counts, Refs(s.pool), s.users, s.disposing, s.made, KeeperRefs(s.keeper), HealthRefs(s.health));
    }
  }

  lemma AddOrigin(p: Part, c: Config, s: State)
    requires Inv(c, s) && KeeperEnabled(s, Add)
    requires p.KnownItemPart? || p.KnownRefPart? || p.KnownEventPart? || p.OwnerPart?
    ensures Holds(p, c, ApplyKeeper(c, s, Add))
  {
    assert Holds(p, c, s);
    match p
    case KnownItemPart => assert forall x | x in Valids(s.keeper.made) :: x.resource in s.keeper.made;
    case OwnerPart =>
    case _ =>
  }

  lemma AddHistory(p: Part, c: Config, s: State)
    requires Inv(c, s) && KeeperEnabled(s, Add) && OfHistory(p)
    ensures Holds(p, c, ApplyKeeper(c, s, Add))
  {
    assert Holds(p, c, s);
    assert forall x | x in Valids(s.keeper.made) :: x.resource in s.keeper.made;
    forall r | r in s.keeper.made
      ensures Settled(s.log, r) && forall x | x in Pending(s.mutex, s.health) :: x.resource != r
    {
      NotPublished(c, s, r);
    }
  }

  lemma AddKeeps(c: Config, s: State)
    requires Inv(c, s) && KeeperEnabled(s, Add)
    ensures Inv(c, ApplyKeeper(c, s, Add))
  {
    forall p: Part ensures Holds(p, c, ApplyKeeper(c, s, Add)) {
      match p {
        case ShapePart => AddShape(c, s);
        case CountPart => AddCounts(c, s);
        case SectionPart =>
        case JobPart => assert Holds(JobPart, c, s);
        case CheckPart => assert Holds(CheckPart, c, s);
        case KnownItemPart => AddOrigin(p, c, s);
        case KnownRefPart => AddOrigin(p, c, s);
        case KnownEventPart => AddOrigin(p, c, s);
        case OwnerPart => AddOrigin(p, c, s);
        case PendingPart => Frame(p, c, s, ApplyKeeper(c, s, Add));
        case PassPart => Frame(p, c, s, ApplyKeeper(c, s, Add));
        case _ => AddHistory(p, c, s);
      }
    }
  }

  lemma TrimLockKeeps(c: Config, s: State)
    requires Inv(c, s) && KeeperEnabled(s, TrimLock)
    ensures Inv(c, ApplyKeeper(c, s, TrimLock))
  {
    var t := ApplyKeeper(c, s, TrimLock);
    assert Holds(JobPart, c, s);
    forall p: Part ensures Holds(p, c, t) {
      match p {
        case SectionPart =>
        case JobPart =>
        case _ => Frame(p, c, s, t);
      }
    }
  }

  // ---- one test of a trim ----

  predicate DropsNext(s: State) {
    s.mutex.Trimming? && s.mutex.at < |s.pool| && Drops(s.counts, s.mutex.second, s.mutex.toRemove, s.pool[s.mutex.at])
  }

  lemma TrimKeptKeeps(c: Config, s: State)
    requires Inv(c, s) && KeeperEnabled(s, TrimTest) && !DropsNext(s)
    ensures Inv(c, ApplyKeeper(c, s, TrimTest))
  {
    var t := ApplyKeeper(c, s, TrimTest);
    assert t == s.(mutex := t.mutex) && t.mutex.Trimming?;
    forall p: Part ensures Holds(p, c, t) {
      match p {
        case SectionPart =>
        case JobPart => assert Holds(JobPart, c, s);
        case _ => Frame(p, c, s, t);
      }
    }
  }

  lemma TrimDrops(c: Config, s: State)
    requires DropsNext(s)
    ensures var t, r := ApplyKeeper(c, s, TrimTest), s.pool[s.mutex.at].resource;
            && Refs(s.pool) == Refs(t.pool) + multiset{r}
            && t.disposing == s.disposing + multiset{r}
            && t.counts == s.counts && t.users == s.users && t.made == s.made
            && t.keeper == s.keeper && t.health == s.health
  {
    RefsWithout(s.pool, s.mutex.at);
  }

  lemma TrimDropCounts(c: Config, s: State)
    requires Inv(c, s) && DropsNext(s)
    ensures Holds(CountPart, c, ApplyKeeper(c, s, TrimTest))
  {
    assert Holds(CountPart, c, s);
    TrimDrops(c, s);
    CountedDrop(s.counts, Refs(ApplyKeeper(c, s, TrimTest).pool), multiset{s.pool[s.mutex.at].resource},
                s.users, s.disposing, s.made,
                KeeperRefs(s.keeper), HealthRefs(s.health));
  }

  /** The parts about the items of the pool hold of what is left of it. */
  lemma TrimDropItems(p: Part, c: Config, s: State)
    requires Inv(c, s) && DropsNext(s)
    requires p.ShapePart? || p.KnownItemPart? || p.SettledPart? || p.StaleFlagPart?
    ensures Holds(p, c, ApplyKeeper(c, s, TrimTest))
  {
    assert Holds(p, c, s);
    assert forall x | x in Without(s.pool, s.mutex.at) :: x in s.pool;
  }

  lemma TrimDropKeeps(c: Config, s: State)
    requires Inv(c, s) && DropsNext(s)
    ensures Inv(c, ApplyKeeper(c, s, TrimTest))
  {
    var t := ApplyKeeper(c, s, TrimTest);
    assert t == s.(pool := t.pool, mutex := t.mutex, disposing := t.disposing) && t.mutex.Trimming?;
    forall p: Part ensures Holds(p, c, t) {
      match p {
        case CountPart => TrimDropCounts(c, s);
        case SectionPart =>
        case JobPart => assert Holds(JobPart, c, s);
        case KnownRefPart =>
          assert Holds(KnownRefPart, c, s) && Holds(KnownItemPart, c, s);
          assert s.pool[s.mutex.at] in s.pool;
        case ShapePart => TrimDropItems(p, c, s);
        case KnownItemPart => TrimDropItems(p, c, s);
        case SettledPart => TrimDropItems(p, c, s);
        case StaleFlagPart => TrimDropItems(p, c, s);
        case _ => Frame(p, c, s, t);
      }
    }
  }

  lemma TrimSecondKeeps(c: Config, s: State)
    requires Inv(c, s) && KeeperEnabled(s, TrimSecond)
    ensures Inv(c, ApplyKeeper(c, s, TrimSecond))
  {
    var t := ApplyKeeper(c, s, TrimSecond);
    forall p: Part ensures Holds(p, c, t) {
      match p {
        case SectionPart =>
        case JobPart => assert Holds(JobPart, c, s);
        case _ => Frame(p, c, s, t);
      }
    }
  }

  lemma TrimUnlockKeeps(c: Config, s: State)
    requires Inv(c, s) && KeeperEnabled(s, TrimUnlock)
    ensures Inv(c, ApplyKeeper(c, s, TrimUnlock))
  {
    var t := ApplyKeeper(c, s, TrimUnlock);
    assert Holds(JobPart, c, s);
    forall p: Part ensures Holds(p, c, t) {
      match p {
        case ShapePart => assert Holds(ShapePart, c, s);
        case SectionPart =>
        case JobPart =>
        case _ => Frame(p, c, s, t);
      }
    }
  }

  lemma KeeperKeeps(c: Config, s: State, step: KeeperStep)
    requires Inv(c, s) && KeeperEnabled(s, step)
    ensures Inv(c, ApplyKeeper(c, s, step))
  {
    match step
    case ObserveLock => ObserveLockKeeps(c, s);
    case ObserveTest => ObserveTestKeeps(c, s);
    case ObserveUnlock => ObserveUnlockKeeps(c, s);
    case Request => RequestKeeps(c, s);
    case Abort => AbortKeeps(c, s);
    case Collect(succeeded) => CollectKeeps(c, s, succeeded);
    case Compare => CompareKeeps(c, s);
    case Add => AddKeeps(c, s);
    case TrimLock => TrimLockKeeps(c, s);
    case TrimTest => if DropsNext(s) { TrimDropKeeps(c, s); } else { TrimKeptKeeps(c, s); }
    case TrimSecond => TrimSecondKeeps(c, s);
    case TrimUnlock => TrimUnlockKeeps(c, s);
  }
}
