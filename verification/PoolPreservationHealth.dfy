/** Every step of the health-care job keeps the invariant. */
module PoolPreservationHealth {
  import opened PoolItems
  import opened PoolMachine
  import opened PoolInvariant

  lemma KnownItems(published: set<Resource>, items: seq<Item>, r: Resource)
    requires Known(published, items) && r in Refs(items)
    ensures r in published
  {
    RefsMember(items, r);
    var i :| 0 <= i < |items| && items[i].resource == r;
    assert items[i] in items;
  }

  /** The health job holds references to published resources only. */
  lemma HealthRefsKnown(c: Config, s: State, r: Resource)
    requires Inv(c, s) && r in HealthRefs(s.health)
    ensures r in s.published
  {
    assert Holds(KnownItemPart, c, s) && Holds(JobPart, c, s) && Holds(CheckPart, c, s);
    var h := s.health;
    if r in Refs(h.probing) {
      assert forall x | x in h.probing :: x in Pending(s.mutex, h);
      KnownItems(s.published, h.probing, r);
    } else if r in Refs(h.locked) {
      KnownItems(s.published, h.locked, r);
    } else {
      KnownItems(s.published, h.locked[..|h.beganAt|], r);
    }
  }

  /** The references the health job gives up are of published resources. */
  lemma GivenUpIsKnown(c: Config, s: State, t: State, given: multiset<Resource>)
    requires Inv(c, s) && given <= HealthRefs(s.health)
    requires t.published == s.published && t.users == s.users && t.disposing == s.disposing + given
    ensures Holds(KnownRefPart, c, t)
  {
    assert Holds(KnownRefPart, c, s);
    forall r | r in given ensures r in s.published {
      HealthRefsKnown(c, s, r);
    }
  }

  lemma SnapshotLockKeeps(c: Config, s: State)
    requires Inv(c, s) && HealthEnabled(c, s, SnapshotLock)
    ensures Inv(c, ApplyHealth(c, s, SnapshotLock))
  {
    var t := ApplyHealth(c, s, SnapshotLock);
    assert Pending(s.mutex, s.health) == [] && Pending(t.mutex, t.health) == [];
    forall p: Part ensures Holds(p, c, t) {
      match p {
        case SectionPart =>
        case JobPart => assert Holds(JobPart, c, s);
        case CheckPart =>
        case StaleOrderPart =>
        case _ => Frame(p, c, s, t);
      }
    }
  }

  lemma SnapshotTestPending(c: Config, s: State)
    requires Inv(c, s) && HealthEnabled(c, s, SnapshotTest)
    ensures Holds(SectionPart, c, ApplyHealth(c, s, SnapshotTest))
  {
    assert Holds(SectionPart, c, s) && Holds(ShapePart, c, s);
    var at, taken := s.mutex.at, s.mutex.taken;
    assert s.pool[..at + 1] == s.pool[..at] + [s.pool[at]];
    assert forall x | x in taken :: x.resource != s.pool[at].resource;
  }

  lemma SnapshotTestKeeps(c: Config, s: State)
    requires Inv(c, s) && HealthEnabled(c, s, SnapshotTest)
    ensures Inv(c, ApplyHealth(c, s, SnapshotTest))
  {
    var t := ApplyHealth(c, s, SnapshotTest);
    assert t == s.(mutex := t.mutex) && t.mutex.Snapshotting?;
    SnapshotTestPending(c, s);
    forall p: Part ensures Holds(p, c, t) {
      match p {
        case SectionPart =>
        case PendingPart => assert Holds(SectionPart, c, t);
        case JobPart => assert Holds(JobPart, c, s);
        case KnownItemPart => assert Holds(KnownItemPart, c, s);
        case StaleFlagPart => SnapshotTestFlags(c, s);
        case _ => Frame(p, c, s, t);
      }
    }
  }

  lemma SnapshotTestFlags(c: Config, s: State)
    requires Inv(c, s) && HealthEnabled(c, s, SnapshotTest)
    ensures Holds(StaleFlagPart, c, ApplyHealth(c, s, SnapshotTest))
  {
    assert Holds(StaleFlagPart, c, s) && Holds(ShapePart, c, s);
    var x := s.pool[s.mutex.at];
    if !x.valid {
      assert InvalidIn(s.pool, x.resource) by {
        forall y | y in s.pool && y.resource == x.resource ensures !y.valid {
          var i :| 0 <= i < |s.pool| && s.pool[i] == y;
          assert i == s.mutex.at;
        }
      }
    }
  }

  lemma SnapshotUnlockKeeps(c: Config, s: State)
    requires Inv(c, s) && HealthEnabled(c, s, SnapshotUnlock)
    ensures Inv(c, ApplyHealth(c, s, SnapshotUnlock))
  {
    var t := ApplyHealth(c, s, SnapshotUnlock);
    assert Holds(JobPart, c, s);
    assert Pending(t.mutex, t.health) == Pending(s.mutex, s.health);
    forall p: Part ensures Holds(p, c, t) {
      match p {
        case SectionPart =>
        case JobPart =>
        case CheckPart =>
        case StaleOrderPart =>
        case _ => Frame(p, c, s, t);
      }
    }
  }

  // ---- one item leaves the list of weak references ----

  lemma ProbeKeeps(c: Config, s: State)
    requires Inv(c, s) && HealthEnabled(c, s, Probe)
    ensures Inv(c, ApplyHealth(c, s, Probe))
  {
    var t := ApplyHealth(c, s, Probe);
    forall p: Part ensures Holds(p, c, t) {
      if p == CountPart { ProbeCounts(c, s); }
      else if OfOrigin(p) { ProbeOrigin(p, c, s); }
      else if p == JobPart || p == CheckPart || p == StaleOrderPart { assert Holds(p, c, s); }
      else if p == StaleFlagPart { ProbePending(c, s); assert Holds(StaleFlagPart, c, s); }
      else { Frame(p, c, s, t); }
    }
  }

  /** Probing either keeps the pending items or loses the first of the weak references. */
  lemma ProbePending(c: Config, s: State)
    requires Inv(c, s) && HealthEnabled(c, s, Probe)
    ensures var t := ApplyHealth(c, s, Probe);
            && (forall x | x in Pending(t.mutex, t.health) :: x in Pending(s.mutex, s.health))
            && Distinct(Pending(t.mutex, t.health))
  {
    assert Holds(JobPart, c, s) && Holds(CheckPart, c, s) && Holds(PendingPart, c, s);
    var t := ApplyHealth(c, s, Probe);
    var h := s.health;
    var before := Pending(s.mutex, h);
    var open := h.locked[h.judged..];
    assert before == open + h.todo;
    assert h.todo == [h.todo[0]] + h.todo[1..];
    if h.todo[0].resource in s.counts {
      assert Pending(t.mutex, t.health) == before;
    } else {
      assert Pending(t.mutex, t.health) == Without(before, |open|);
    }
  }

  lemma ProbeCounts(c: Config, s: State)
    requires Inv(c, s) && HealthEnabled(c, s, Probe)
    ensures Holds(CountPart, c, ApplyHealth(c, s, Probe))
  {
    ProbeRefs(s);
    if s.health.todo[0].resource in s.counts {
      ProbeTakes(c, s);
    } else {
      assert Holds(CountPart, c, s);
    }
  }

  lemma ProbeTakes(c: Config, s: State)
    requires Inv(c, s) && HealthEnabled(c, s, Probe) && s.health.todo[0].resource in s.counts
    ensures Holds(CountPart, c, ApplyHealth(c, s, Probe))
  {
    assert Holds(CountPart, c, s);
    ProbeRefs(s);
    CountedGain(s.counts, Refs(s.pool), s.users, s.disposing, s.made, KeeperRefs(s.keeper), HealthRefs(s.health),
                s.health.todo[0].resource);
  }

  lemma ProbeRefs(s: State)
    requires s.health.Working? && s.health.todo != [] && s.health.probing == [] && s.health.beganAt == []
    ensures HealthRefs(s.health.(todo := s.health.todo[1..], probing := [s.health.todo[0]]))
            == HealthRefs(s.health) + multiset{s.health.todo[0].resource}
    ensures HealthRefs(s.health.(todo := s.health.todo[1..])) == HealthRefs(s.health)
  {
    RefsSnoc([], s.health.todo[0]);
    assert [] + [s.health.todo[0]] == [s.health.todo[0]];
  }

  lemma ProbeOrigin(p: Part, c: Config, s: State)
    requires Inv(c, s) && HealthEnabled(c, s, Probe) && OfOrigin(p)
    ensures Holds(p, c, ApplyHealth(c, s, Probe))
  {
    assert Holds(p, c, s);
    ProbePending(c, s);
  }

  /** Deciding either keeps the pending items or loses the probed one. */
  lemma DecidePending(c: Config, s: State)
    requires Inv(c, s) && HealthEnabled(c, s, Decide)
    ensures var t := ApplyHealth(c, s, Decide);
            && (forall x | x in Pending(t.mutex, t.health) :: x in Pending(s.mutex, s.health))
            && Distinct(Pending(t.mutex, t.health))
            && s.health.probing[0] in Pending(s.mutex, s.health)
  {
    assert Holds(JobPart, c, s) && Holds(CheckPart, c, s) && Holds(PendingPart, c, s);
    var h := s.health;
    assert h.probing == [h.probing[0]] && h.judged == 0;
    ProbedLeaves(h.locked, h.probing[0], h.todo);
  }

  /** The probed item between the locked ones and those to be probed. */
  lemma ProbedLeaves(locked: seq<Item>, x: Item, todo: seq<Item>)
    requires Distinct(locked[0..] + [x] + todo)
    ensures var pending := locked[0..] + [x] + todo;
            && x in pending
            && (locked + [x])[0..] + [] + todo == pending
            && Distinct(locked[0..] + [] + todo) && forall y | y in locked[0..] + [] + todo :: y in pending
  {
    var pending := locked[0..] + [x] + todo;
    assert pending[|locked|] == x;
    assert Without(pending, |locked|) == locked[0..] + [] + todo;
    WithoutMembers(pending, |locked|);
  }

  lemma DecideRefs(h: HealthJob)
    requires h.Working? && |h.probing| == 1 && h.beganAt == []
    ensures HealthRefs(h.(probing := [], locked := h.locked + h.probing)) == HealthRefs(h)
    ensures HealthRefs(h) == HealthRefs(h.(probing := [])) + multiset{h.probing[0].resource}
  {
    RefsConcat(h.locked, h.probing);
    RefsOne(h.probing);
    SumMoves(Refs(h.probing), Refs(h.locked));
  }

  lemma AcceptCounts(c: Config, s: State)
    requires Inv(c, s) && HealthEnabled(c, s, Decide) && s.counts[s.health.probing[0].resource] == 2
    ensures Holds(CountPart, c, ApplyHealth(c, s, Decide))
  {
    assert Holds(CheckPart, c, s);
    DecideRefs(s.health);
    assert s.health.probing == [s.health.probing[0]];
    Frame(CountPart, c, s, ApplyHealth(c, s, Decide));
  }

  lemma RejectCounts(c: Config, s: State)
    requires Inv(c, s) && HealthEnabled(c, s, Decide) && s.counts[s.health.probing[0].resource] != 2
    ensures Holds(CountPart, c, ApplyHealth(c, s, Decide))
  {
    assert Holds(CountPart, c, s) && Holds(CheckPart, c, s);
    DecideRefs(s.health);
    CountedLoss(s.counts, Refs(s.pool), s.users, s.disposing, s.made, KeeperRefs(s.keeper),
                HealthRefs(s.health.(probing := [])), multiset{s.health.probing[0].resource});
  }

  lemma DecideKeeps(c: Config, s: State)
    requires Inv(c, s) && HealthEnabled(c, s, Decide)
    ensures Inv(c, ApplyHealth(c, s, Decide))
  {
    var t := ApplyHealth(c, s, Decide);
    forall p: Part ensures Holds(p, c, t) {
      if p == CountPart {
        if s.counts[s.health.probing[0].resource] == 2 { AcceptCounts(c, s); } else { RejectCounts(c, s); }
      }
      else if p == KnownRefPart { DecideKnown(c, s); }
      else if OfOrigin(p) || p == StaleFlagPart { DecidePending(c, s); assert Holds(p, c, s); }
      else if p == JobPart { assert Holds(p, c, s); }
      else if p == CheckPart || p == StaleOrderPart { assert Holds(CheckPart, c, s); }
      else { Frame(p, c, s, t); }
    }
  }

  lemma DecideKnown(c: Config, s: State)
    requires Inv(c, s) && HealthEnabled(c, s, Decide)
    ensures Holds(KnownRefPart, c, ApplyHealth(c, s, Decide))
  {
    var t, r := ApplyHealth(c, s, Decide), s.health.probing[0].resource;
    assert Holds(CheckPart, c, s);
    DecideRefs(s.health);
    if s.counts[r] == 2 {
      Frame(KnownRefPart, c, s, t);
    } else {
      GivenUpIsKnown(c, s, t, multiset{r});
    }
  }

  lemma BeginRefs(h: HealthJob, at: nat)
    requires h.Working? && |h.beganAt| < |h.locked|
    ensures HealthRefs(h.(beganAt := h.beganAt + [at])) == HealthRefs(h) + multiset{h.locked[|h.beganAt|].resource}
  {
    var k := |h.beganAt|;
    assert h.locked[..k + 1] == h.locked[..k] + [h.locked[k]];
    RefsSnoc(h.locked[..k], h.locked[k]);
  }

  lemma BeginCounts(c: Config, s: State)
    requires Inv(c, s) && HealthEnabled(c, s, Begin)
    ensures Holds(CountPart, c, ApplyHealth(c, s, Begin))
  {
    assert Holds(CountPart, c, s);
    BeginRefs(s.health, |s.log|);
    CountedGain(s.counts, Refs(s.pool), s.users, s.disposing, s.made, KeeperRefs(s.keeper), HealthRefs(s.health),
                s.health.locked[|s.health.beganAt|].resource);
  }

  lemma BeginHistory(p: Part, c: Config, s: State)
    requires Inv(c, s) && HealthEnabled(c, s, Begin) && OfHistory(p)
    ensures Holds(p, c, ApplyHealth(c, s, Begin))
  {
    assert Holds(p, c, s) && Holds(CheckPart, c, s);
    if c.invalidateOnAccess {
      var e := CheckBegan(s.health.locked[|s.health.beganAt|].resource);
      match p {
        case RecheckPart => RecheckedGrows(s.log, e);
        case SettledPart => ValidSettledGrows(s.pool, s.log, e);
        case StaleFlagPart =>
        case StaleOrderPart => StaleHandedOutGrows(s.health, s.log, e);
      }
    }
  }

  lemma BeginKeeps(c: Config, s: State)
    requires Inv(c, s) && HealthEnabled(c, s, Begin)
    ensures Inv(c, ApplyHealth(c, s, Begin))
  {
    var t := ApplyHealth(c, s, Begin);
    assert |s.health.beganAt| < |s.health.locked|;
    assert s.health.judged <= |s.health.locked| by { assert Holds(CheckPart, c, s); }
    forall p: Part ensures Holds(p, c, t) {
      if p == CountPart { BeginCounts(c, s); }
      else if OfHistory(p) { BeginHistory(p, c, s); }
      else if OfLog(p) { BeginLog(p, c, s); }
      else if p == JobPart { assert Holds(p, c, s); }
      else { Frame(p, c, s, t); }
    }
  }

  lemma BeginLog(p: Part, c: Config, s: State)
    requires Inv(c, s) && HealthEnabled(c, s, Begin) && OfLog(p)
    ensures Holds(p, c, ApplyHealth(c, s, Begin))
  {
    match p
    case CheckPart => assert Holds(CheckPart, c, s);
    case PassPart => assert Holds(PassPart, c, s);
    case KnownEventPart => assert Holds(KnownEventPart, c, s) && Holds(KnownItemPart, c, s);
  }

  // ---- verdicts ----

  /** The item being judged is the first of the pending ones, and it leaves them. */
  lemma JudgePending(c: Config, s: State, verdict: Verdict)
    requires Inv(c, s) && HealthEnabled(c, s, Judge(verdict))
    ensures var t := ApplyJudge(c, s, verdict);
            Pending(s.mutex, s.health) == [s.health.locked[s.health.judged]] + Pending(t.mutex, t.health)
  {
    assert Holds(JobPart, c, s);
    OpenTail(s.health.locked, s.health.judged, s.health.probing, s.health.todo);
  }

  /** What is pending after a verdict was pending before, and is not the judged item. */
  lemma JudgeLeaves(c: Config, s: State, verdict: Verdict)
    requires Inv(c, s) && HealthEnabled(c, s, Judge(verdict))
    ensures var t := ApplyJudge(c, s, verdict);
            var x := s.health.locked[s.health.judged];
            && x in Pending(s.mutex, s.health)
            && Distinct(Pending(t.mutex, t.health))
            && forall y | y in Pending(t.mutex, t.health) ::
                 y in Pending(s.mutex, s.health) && y.resource != x.resource
  {
    assert Holds(PendingPart, c, s);
    var t := ApplyJudge(c, s, verdict);
    JudgePending(c, s, verdict);
    DistinctTail(s.health.locked[s.health.judged], Pending(t.mutex, t.health));
  }

  /** Erasing one item leaves the others in order and the index in range. */
  lemma ErasedShape(pool: seq<Item>, poolIndex: nat, at: nat)
    requires Distinct(pool) && at < |pool|
    ensures var rest := Without(pool, at); Shape(false, rest, if poolIndex >= |rest| then 0 else poolIndex)
  {
  }

  lemma ErasedRefs(pool: seq<Item>, r: Resource)
    requires r in Refs(pool)
    ensures IndexOf(pool, r) < |pool| && Refs(Without(pool, IndexOf(pool, r))) == Refs(pool) - multiset{r}
  {
    RefsMember(pool, r);
    RefsSplit(pool, IndexOf(pool, r));
  }

  lemma EraseCounts(c: Config, s: State, r: Resource)
    requires Inv(c, s) && r in Refs(s.pool)
    ensures Holds(CountPart, c, EraseItem(s, r))
  {
    assert Holds(CountPart, c, s);
    ErasedRefs(s.pool, r);
    CountedErase(s.counts, Refs(s.pool), s.users, s.disposing, s.made, KeeperRefs(s.keeper), HealthRefs(s.health), r);
  }

  /** Erasing an item keeps the invariant, whoever erases it. */
  lemma EraseKeeps(c: Config, s: State, r: Resource)
    requires Inv(c, s) && s.mutex.Free? && r in Refs(s.pool)
    ensures Inv(c, EraseItem(s, r))
  {
    var t := EraseItem(s, r);
    RefsMember(s.pool, r);
    assert forall x | x in t.pool :: x in s.pool;
    forall p: Part ensures Holds(p, c, t) {
      match p {
        case ShapePart =>
          assert Holds(ShapePart, c, s);
          ErasedShape(s.pool, s.poolIndex, IndexOf(s.pool, r));
        case CountPart => EraseCounts(c, s, r);
        case SectionPart =>
        case KnownItemPart => assert Holds(KnownItemPart, c, s);
        case SettledPart => assert Holds(SettledPart, c, s);
        case StaleFlagPart => assert Holds(StaleFlagPart, c, s);
        case _ => Frame(p, c, s, t);
      }
    }
  }

  lemma JudgePool(p: Part, c: Config, s: State, verdict: Verdict)
    requires Inv(c, s) && HealthEnabled(c, s, Judge(verdict)) && !verdict.Unhealthy? && OfPool(p)
    ensures Holds(p, c, ApplyJudge(c, s, verdict))
  {
    var t := ApplyJudge(c, s, verdict);
    var at := IndexOf(s.pool, s.health.locked[s.health.judged].resource);
    assert Holds(ShapePart, c, s);
    if at < |s.pool| {
      RefsFlag(s.pool, at, true);
    }
    assert HealthRefs(t.health) == HealthRefs(s.health);
    if p == CountPart {
      Frame(CountPart, c, s, t);
    }
  }

  lemma JudgeThreads(p: Part, c: Config, s: State, verdict: Verdict)
    requires Inv(c, s) && HealthEnabled(c, s, Judge(verdict)) && OfThreads(p)
    ensures Holds(p, c, ApplyJudge(c, s, verdict))
  {
    assert Holds(p, c, s);
  }

  lemma JudgeOrigin(p: Part, c: Config, s: State, verdict: Verdict)
    requires Inv(c, s) && HealthEnabled(c, s, Judge(verdict)) && OfOrigin(p)
    ensures Holds(p, c, ApplyJudge(c, s, verdict))
  {
    assert Holds(p, c, s);
    JudgeLeaves(c, s, verdict);
  }

  lemma JudgeLog(p: Part, c: Config, s: State, verdict: Verdict)
    requires Inv(c, s) && HealthEnabled(c, s, Judge(verdict)) && OfLog(p)
    ensures Holds(p, c, ApplyJudge(c, s, verdict))
  {
    assert Holds(p, c, s) && Holds(CheckPart, c, s) && Holds(KnownItemPart, c, s);
  }

  /** The pool and the log after a verdict: what was valid before, and the judged item if it passed. */
  lemma JudgeSettles(c: Config, s: State, verdict: Verdict)
    requires Inv(c, s) && HealthEnabled(c, s, Judge(verdict)) && c.invalidateOnAccess
    ensures ValidSettled(ApplyJudge(c, s, verdict).pool, ApplyJudge(c, s, verdict).log)
  {
    assert Holds(SettledPart, c, s) && Holds(StaleOrderPart, c, s) && Holds(CheckPart, c, s);
    var t := ApplyJudge(c, s, verdict);
    var x, began := s.health.locked[s.health.judged], s.health.beganAt[s.health.judged];
    if verdict.Healthy? {
      var passed := CheckPassed(x.resource, began);
      ValidSettledGrows(s.pool, s.log, passed);
      if !x.valid {
        PassSettles(s.log, x.resource, began);
      }
      assert forall y | y in t.pool && y.valid :: y in s.pool || (!x.valid && y.resource == x.resource);
    } else {
      assert forall y | y in t.pool :: y in s.pool;
    }
  }

  /** A check that began after every hand-out of `r` settles `r` when it passes. */
  lemma PassSettles(log: seq<Event>, r: Resource, began: nat)
    requires HandedOutBefore(log, r, began)
    ensures Settled(log + [CheckPassed(r, began)], r)
  {
    var grown := log + [CheckPassed(r, began)];
    forall i | 0 <= i < |grown| && grown[i] == HandedOut(r) ensures CheckedBetween(grown, r, i, |grown|) {
      assert grown[i] == log[i];
      assert grown[|log|] == CheckPassed(r, began);
    }
  }

  lemma JudgeHistory(p: Part, c: Config, s: State, verdict: Verdict)
    requires Inv(c, s) && HealthEnabled(c, s, Judge(verdict)) && OfHistory(p)
    ensures Holds(p, c, ApplyJudge(c, s, verdict))
  {
    assert Holds(p, c, s);
    if c.invalidateOnAccess {
      var x, began := s.health.locked[s.health.judged], s.health.beganAt[s.health.judged];
      var t := ApplyJudge(c, s, verdict);
      match p {
        case RecheckPart => RecheckedGrows(s.log, CheckPassed(x.resource, began));
        case SettledPart => JudgeSettles(c, s, verdict);
        case StaleFlagPart => JudgeFlags(c, s, verdict);
        case StaleOrderPart => StaleHandedOutGrows(s.health, s.log, CheckPassed(x.resource, began));
      }
    }
  }

  lemma JudgeFlags(c: Config, s: State, verdict: Verdict)
    requires Inv(c, s) && HealthEnabled(c, s, Judge(verdict))
    ensures Holds(StaleFlagPart, c, ApplyJudge(c, s, verdict))
  {
    assert Holds(StaleFlagPart, c, s);
    var t := ApplyJudge(c, s, verdict);
    var x := s.health.locked[s.health.judged];
    JudgeLeaves(c, s, verdict);
    assert forall y | y in t.pool :: y in s.pool || y.resource == x.resource;
  }

  /** A verdict that erases nothing. */
  lemma JudgeStays(c: Config, s: State, verdict: Verdict)
    requires Inv(c, s) && HealthEnabled(c, s, Judge(verdict)) && !verdict.Unhealthy?
    ensures Inv(c, ApplyJudge(c, s, verdict))
  {
    forall p: Part ensures Holds(p, c, ApplyJudge(c, s, verdict)) {
      if OfPool(p) { JudgePool(p, c, s, verdict); }
      else if OfThreads(p) { JudgeThreads(p, c, s, verdict); }
      else if OfOrigin(p) { JudgeOrigin(p, c, s, verdict); }
      else if OfLog(p) { JudgeLog(p, c, s, verdict); }
      else { JudgeHistory(p, c, s, verdict); }
    }
  }

  lemma JudgeKeeps(c: Config, s: State, verdict: Verdict)
    requires Inv(c, s) && HealthEnabled(c, s, Judge(verdict))
    ensures Inv(c, ApplyJudge(c, s, verdict))
  {
    if verdict.Unhealthy? {
      JudgeStays(c, s, CheckFailed);
      EraseKeeps(c, ApplyJudge(c, s, CheckFailed), s.health.locked[s.health.judged].resource);
    } else {
      JudgeStays(c, s, verdict);
    }
  }

  lemma ReleaseBatchCounts(c: Config, s: State)
    requires Inv(c, s) && HealthEnabled(c, s, ReleaseBatch)
    ensures Holds(CountPart, c, ApplyHealth(c, s, ReleaseBatch))
  {
    assert Holds(CountPart, c, s);
    var batch := HealthRefs(s.health);
    assert multiset{} + batch == batch;
    CountedLoss(s.counts, Refs(s.pool), s.users, s.disposing, s.made, KeeperRefs(s.keeper), multiset{}, batch);
    assert HealthRefs(ApplyHealth(c, s, ReleaseBatch).health) == multiset{};
  }

  lemma ReleaseBatchKeeps(c: Config, s: State)
    requires Inv(c, s) && HealthEnabled(c, s, ReleaseBatch)
    ensures Inv(c, ApplyHealth(c, s, ReleaseBatch))
  {
    var t := ApplyHealth(c, s, ReleaseBatch);
    assert Holds(JobPart, c, s);
    assert Pending(t.mutex, t.health) == Pending(s.mutex, s.health);
    forall p: Part ensures Holds(p, c, t) {
      match p {
        case CountPart => ReleaseBatchCounts(c, s);
        case JobPart =>
        case CheckPart =>
        case StaleOrderPart =>
        case KnownItemPart => assert Holds(KnownItemPart, c, s);
        case KnownRefPart => GivenUpIsKnown(c, s, t, HealthRefs(s.health));
        case _ => Frame(p, c, s, t);
      }
    }
  }

  lemma StartFailsCounts(c: Config, s: State)
    requires Inv(c, s) && HealthEnabled(c, s, StartFails)
    ensures Holds(CountPart, c, ApplyHealth(c, s, StartFails))
  {
    assert Holds(CountPart, c, s);
    var batch := HealthRefs(s.health);
    assert multiset{} + batch == batch;
    CountedLoss(s.counts, Refs(s.pool), s.users, s.disposing, s.made, KeeperRefs(s.keeper), multiset{}, batch);
  }

  lemma StartFailsKeeps(c: Config, s: State)
    requires Inv(c, s) && HealthEnabled(c, s, StartFails)
    ensures Inv(c, ApplyHealth(c, s, StartFails))
  {
    var t := ApplyHealth(c, s, StartFails);
    assert Pending(t.mutex, t.health) == [] by { assert Holds(JobPart, c, s); }
    forall p: Part ensures Holds(p, c, t) {
      match p {
        case CountPart => StartFailsCounts(c, s);
        case JobPart => assert Holds(JobPart, c, s);
        case CheckPart =>
        case KnownItemPart => assert Holds(KnownItemPart, c, s);
        case KnownRefPart => GivenUpIsKnown(c, s, t, HealthRefs(s.health));
        case PendingPart =>
        case StaleFlagPart =>
        case StaleOrderPart =>
        case _ => Frame(p, c, s, t);
      }
    }
  }

  lemma RestKeeps(c: Config, s: State)
    requires Inv(c, s) && HealthEnabled(c, s, Rest)
    ensures Inv(c, ApplyHealth(c, s, Rest))
  {
    var t := ApplyHealth(c, s, Rest);
    assert Holds(JobPart, c, s) && Holds(CheckPart, c, s);
    assert Pending(t.mutex, t.health) == Pending(s.mutex, s.health) == [];
    assert s.health.locked[..0] == [];
    forall p: Part ensures Holds(p, c, t) {
      match p {
        case JobPart =>
        case CheckPart =>
        case StaleOrderPart =>
        case _ => Frame(p, c, s, t);
      }
    }
  }

  lemma HealthKeeps(c: Config, s: State, step: HealthStep)
    requires Inv(c, s) && HealthEnabled(c, s, step)
    ensures Inv(c, ApplyHealth(c, s, step))
  {
    match step
    case SnapshotLock => SnapshotLockKeeps(c, s);
    case SnapshotTest => SnapshotTestKeeps(c, s);
    case SnapshotUnlock => SnapshotUnlockKeeps(c, s);
    case Probe => ProbeKeeps(c, s);
    case Decide => DecideKeeps(c, s);
    case Begin => BeginKeeps(c, s);
    case StartFails => StartFailsKeeps(c, s);
    case Judge(verdict) => JudgeKeeps(c, s, verdict);
    case ReleaseBatch => ReleaseBatchKeeps(c, s);
    case Rest => RestKeeps(c, s);
  }
}
