/** What every interleaving of `NodeRuntime` keeps, and what follows for whole
    runs: cache coherence, no seq collision, mutual exclusion, bounded
    concurrency and absence of deadlock. */
module RuntimeSafety {
  import opened Collections
  import opened Options
  import opened Conversations
  import opened Journal
  import opened Runtime
  import opened RuntimeCoherence

  // ---------------------------------------------------------------------
  // The LRU cache
  // ---------------------------------------------------------------------

  lemma {:induction false} FindPop(c: Lru, key: string, k: string)
    ensures Find(Pop(c, key), k) == if k == key then None else Find(c, k)
    ensures |Pop(c, key)| <= |c|
    ensures Find(c, key).Some? ==> |Pop(c, key)| < |c|
  {
    if c != [] { FindPop(c[1..], key, k); }
  }

  lemma {:induction false} FindPrefix(c: Lru, n: nat, k: string)
    requires n <= |c|
    ensures Find(c[..n], k) == None || Find(c[..n], k) == Find(c, k)
  {
    if n > 0 && c[0].key != k {
      FindPrefix(c[1..], n - 1, k);
      assert c[..n][1..] == c[1..][..n - 1];
    }
  }

  lemma FindTouch(c: Lru, key: string, k: string)
    ensures Find(Touch(c, key), k) == Find(c, k)
    ensures |Touch(c, key)| <= |c|
  {
    FindPop(c, key, k);
    if Find(c, key).Some? {
      assert Touch(c, key)[1..] == Pop(c, key);
    }
  }

  /** Filling the cache binds the key and may drop any other, never rebind it. */
  lemma FindPut(c: Lru, capacity: nat, key: string, v: Snapshot, k: string)
    requires capacity > 0
    ensures Find(Put(c, capacity, key, v), key) == Some(v)
    ensures k != key ==> Find(Put(c, capacity, key, v), k) in {None, Find(c, k)}
    ensures |c| <= capacity ==> |Put(c, capacity, key, v)| <= capacity
  {
    var rest := Pop(c, key);
    FindPop(c, key, k);
    FindPop(c, key, key);
    var kept := if |rest| < capacity then rest else rest[..capacity - 1];
    assert Put(c, capacity, key, v)[1..] == kept;
    if |rest| >= capacity { FindPrefix(rest, capacity - 1, k); }
  }

  // ---------------------------------------------------------------------
  // The invariant
  // ---------------------------------------------------------------------

  ghost predicate LocksInv(s: State) {
    && (forall r | r in s.requests :: s.requests[r].phase.Done? || s.requests[r].conv in s.locks)
    && (forall r | r in s.requests && HoldsLock(s.requests[r].phase) :: s.locks[s.requests[r].conv] == Some(r))
    && (forall c | c in s.locks && s.locks[c].Some? ::
          && s.locks[c].value in s.requests
          && s.requests[s.locks[c].value].conv == c
          && HoldsLock(s.requests[s.locks[c].value].phase))
  }

  function SlotHolders(requests: map<nat, Request>): set<nat> {
    set r | r in requests && HoldsSlot(requests[r].phase)
  }

  ghost predicate SlotsInv(cfg: Config, s: State) {
    |SlotHolders(s.requests)| + s.permits == AtLeastOne(cfg.maxPlanners)
  }

  /** The request may have written the log since its cache entry was made. */
  predicate Dirty(p: Phase) {
    (p.Running? && p.d.pushed) || p.Storing? || p.Evicting?
  }

  predicate Busy(s: State, c: string) {
    && c in s.locks && s.locks[c].Some? && s.locks[c].value in s.requests
    && Dirty(s.requests[s.locks[c].value].phase)
  }

  predicate Names(v: Snapshot, conv: string, store: Store) {
    conv in store && v.id == conv && v.clientId == store[conv].clientId
  }

  ghost predicate PhaseInv(q: Request, store: Store) {
    match q.phase
    case Fetched(v) => Names(v, q.conv, store) && IsFresh(v, store[q.conv].log)
    case Storing(v) => Names(v, q.conv, store) && Agrees(v, store[q.conv].log)
    case Running(d) => Names(d.view, q.conv, store) && DispatchInv(d, store[q.conv].log)
    case _ => true
  }

  ghost predicate EntryInv(s: State, c: string) {
    match Find(s.cache, c)
    case None => true
    case Some(v) => Names(v, c, s.store) && (Busy(s, c) || Agrees(v, s.store[c].log))
  }

  ghost predicate PhasesInv(s: State) {
    forall r | r in s.requests :: PhaseInv(s.requests[r], s.store)
  }

  ghost predicate CacheInv(cfg: Config, s: State) {
    |s.cache| <= AtLeastOne(cfg.maxActive) && forall c: string :: EntryInv(s, c)
  }

  ghost predicate Inv(cfg: Config, s: State) {
    LocksInv(s) && SlotsInv(cfg, s) && PhasesInv(s) && CacheInv(cfg, s)
  }

  // ---------------------------------------------------------------------
  // Locks and slots
  // ---------------------------------------------------------------------

  /** The request a step belongs to; none for the conversations API. */
  function Actor(step: Step): Option<nat> {
    match step
    case Create(_, _, _, _) => None
    case Rename(_, _, _) => None
    case EvictFromApi(_) => None
    case _ => Some(step.r)
  }

  /** Steps taken while owning both the mutex and a slot. */
  predicate Inside(step: Step) {
    Actor(step).Some? && !step.Arrive? && !step.TakeLock? && !step.TakeSlot? && !step.FreeSlot? && !step.FreeLock?
  }

  lemma InsideShape(cfg: Config, s: State, step: Step)
    requires Enabled(s, step) && Inside(step)
    ensures var s' := Apply(cfg, s, step);
            && step.r in s.requests && step.r in s'.requests
            && s'.locks == s.locks && s'.permits == s.permits
            && s'.requests == s.requests[step.r := s'.requests[step.r]]
            && s'.requests[step.r].conv == s.requests[step.r].conv
            && s'.requests[step.r].client == s.requests[step.r].client
            && HoldsSlot(s.requests[step.r].phase) && HoldsSlot(s'.requests[step.r].phase)
  {
    var s' := Apply(cfg, s, step);
    assert step.JournalPair? && s' == s ==> s.requests == s.requests[step.r := s.requests[step.r]];
  }

  lemma LocksKept(cfg: Config, s: State, step: Step)
    requires LocksInv(s) && Enabled(s, step)
    ensures LocksInv(Apply(cfg, s, step))
  {
    if Inside(step) {
      InsideShape(cfg, s, step);
      LocksInside(s, Apply(cfg, s, step), step.r);
    }
  }

  lemma LocksInside(s: State, s': State, r: nat)
    requires LocksInv(s) && r in s.requests && r in s'.requests && s'.locks == s.locks
    requires s'.requests == s.requests[r := s'.requests[r]]
    requires s'.requests[r].conv == s.requests[r].conv
    requires HoldsLock(s.requests[r].phase) && HoldsLock(s'.requests[r].phase)
    ensures LocksInv(s')
  {
  }

  function SlotWeight(requests: map<nat, Request>, r: nat): nat {
    if r in requests && HoldsSlot(requests[r].phase) then 1 else 0
  }

  lemma SlotsMove(cfg: Config, s: State, s': State, r: nat)
    requires SlotsInv(cfg, s) && r in s'.requests
    requires s'.requests == s.requests[r := s'.requests[r]]
    requires s'.permits + SlotWeight(s'.requests, r) == s.permits + SlotWeight(s.requests, r)
    ensures SlotsInv(cfg, s')
  {
    var a, b := SlotHolders(s.requests), SlotHolders(s'.requests);
    assert b == if SlotWeight(s'.requests, r) == 1 then a + {r} else a - {r};
    assert r in a <==> SlotWeight(s.requests, r) == 1;
  }

  lemma OutsideShape(cfg: Config, s: State, step: Step)
    requires Enabled(s, step) && Actor(step).Some? && !Inside(step)
    ensures var s' := Apply(cfg, s, step);
            && step.r in s'.requests
            && s'.requests == s.requests[step.r := s'.requests[step.r]]
            && s'.permits + SlotWeight(s'.requests, step.r) == s.permits + SlotWeight(s.requests, step.r)
  {
  }

  lemma SlotsKept(cfg: Config, s: State, step: Step)
    requires SlotsInv(cfg, s) && Enabled(s, step)
    ensures SlotsInv(cfg, Apply(cfg, s, step))
  {
    if Inside(step) {
      InsideShape(cfg, s, step);
      SlotsMove(cfg, s, Apply(cfg, s, step), step.r);
    } else if Actor(step).Some? {
      OutsideShape(cfg, s, step);
      SlotsMove(cfg, s, Apply(cfg, s, step), step.r);
    }
  }

  // ---------------------------------------------------------------------
  // What a step of one request does to the others
  // ---------------------------------------------------------------------

  /** Only conversation `c` may differ, and not by its owner. */
  ghost predicate SameElsewhere(store: Store, store': Store, c: string) {
    && store'.Keys == store.Keys
    && (forall x | x in store && x != c :: store'[x] == store[x])
    && (c in store ==> store'[c].clientId == store[c].clientId)
  }

  lemma OthersKeepPhase(s: State, s': State, r: nat, c: string)
    requires LocksInv(s) && PhasesInv(s) && r in s.requests
    requires s.requests[r].conv == c && HoldsLock(s.requests[r].phase)
    requires r in s'.requests && s'.requests == s.requests[r := s'.requests[r]]
    requires SameElsewhere(s.store, s'.store, c)
    requires PhaseInv(s'.requests[r], s'.store)
    ensures PhasesInv(s')
  {
    forall x | x in s'.requests ensures PhaseInv(s'.requests[x], s'.store) {
      if x != r {
        assert PhaseInv(s.requests[x], s.store);
        if s.requests[x].conv == c { assert !HoldsLock(s.requests[x].phase); }
      }
    }
  }

  lemma OthersKeepEntry(s: State, s': State, r: nat, c: string, x: string)
    requires LocksInv(s) && EntryInv(s, x) && x != c
    requires r in s'.requests && s'.requests == s.requests[r := s'.requests[r]]
    requires r in s.requests ==> s.requests[r].conv == c
    requires x in s.locks ==> x in s'.locks && s'.locks[x] == s.locks[x]
    requires SameElsewhere(s.store, s'.store, c)
    requires Find(s'.cache, x) in {None, Find(s.cache, x)}
    ensures EntryInv(s', x)
  {
    if Busy(s, x) { assert s.locks[x].value != r; }
  }

  /** The cache after a step of `r`, given its own conversation's entry. */
  lemma CacheAfter(cfg: Config, s: State, s': State, r: nat, c: string)
    requires LocksInv(s) && CacheInv(cfg, s)
    requires r in s'.requests && s'.requests == s.requests[r := s'.requests[r]]
    requires r in s.requests ==> s.requests[r].conv == c
    requires forall x | x in s.locks && x != c :: x in s'.locks && s'.locks[x] == s.locks[x]
    requires SameElsewhere(s.store, s'.store, c)
    requires forall x: string | x != c :: Find(s'.cache, x) in {None, Find(s.cache, x)}
    requires |s'.cache| <= AtLeastOne(cfg.maxActive)
    requires EntryInv(s', c)
    ensures CacheInv(cfg, s')
  {
    forall x: string ensures EntryInv(s', x) {
      if x != c {
        assert EntryInv(s, x);
        OthersKeepEntry(s, s', r, c, x);
      }
    }
  }

  // ---------------------------------------------------------------------
  // What a step does to its own conversation
  // ---------------------------------------------------------------------

  /** What a step of `r` leaves its own request and its own cache entry in. */
  ghost predicate Own(cfg: Config, s: State, s': State, r: nat, c: string) {
    && r in s'.requests && s'.requests[r].conv == c
    && PhaseInv(s'.requests[r], s'.store)
    && EntryInv(s', c)
    && SameElsewhere(s.store, s'.store, c)
    && |s'.cache| <= AtLeastOne(cfg.maxActive)
    && forall x: string | x != c :: Find(s'.cache, x) in {None, Find(s.cache, x)}
  }

  /** A step that leaves the log alone and drops nothing from the cache. */
  lemma OwnSameStore(cfg: Config, s: State, s': State, r: nat, c: string)
    requires CacheInv(cfg, s) && s'.store == s.store && r in s'.requests && s'.requests[r].conv == c
    requires |s'.cache| <= |s.cache| && forall x: string :: Find(s'.cache, x) == Find(s.cache, x)
    requires PhaseInv(s'.requests[r], s'.store)
    requires !Busy(s, c) || Busy(s', c)
    ensures Own(cfg, s, s', r, c)
  {
    assert EntryInv(s, c);
  }

  /** A step that may write the log of a conversation it now keeps busy. */
  lemma OwnBusy(cfg: Config, s: State, s': State, r: nat, c: string)
    requires CacheInv(cfg, s) && s'.cache == s.cache && r in s'.requests && s'.requests[r].conv == c
    requires SameElsewhere(s.store, s'.store, c)
    requires PhaseInv(s'.requests[r], s'.store)
    requires Busy(s', c)
    ensures Own(cfg, s, s', r, c)
  {
    assert EntryInv(s, c);
  }

  lemma OwnQuiet(cfg: Config, s: State, step: Step)
    requires Inv(cfg, s) && Enabled(s, step) && Actor(step).Some?
    requires step.Arrive? || step.TakeLock? || step.TakeSlot? || step.FreeSlot? || step.FreeLock? || step.Fail?
    ensures var s' := Apply(cfg, s, step);
            step.r in s'.requests && Own(cfg, s, s', step.r, s'.requests[step.r].conv)
  {
    var s' := Apply(cfg, s, step);
    OwnSameStore(cfg, s, s', step.r, s'.requests[step.r].conv);
  }

  lemma OwnLookup(cfg: Config, s: State, r: nat)
    requires Inv(cfg, s) && Enabled(s, Lookup(r))
    ensures Own(cfg, s, Apply(cfg, s, Lookup(r)), r, s.requests[r].conv)
  {
    var c := s.requests[r].conv;
    assert EntryInv(s, c);
    forall x: string ensures Find(Touch(s.cache, c), x) == Find(s.cache, x) && |Touch(s.cache, c)| <= |s.cache| {
      FindTouch(s.cache, c, x);
    }
    OwnSameStore(cfg, s, Apply(cfg, s, Lookup(r)), r, c);
  }

  lemma OwnFetch(cfg: Config, s: State, r: nat, now: int)
    requires Inv(cfg, s) && Enabled(s, Fetch(r, now))
    ensures Own(cfg, s, Apply(cfg, s, Fetch(r, now)), r, s.requests[r].conv)
  {
    var c := s.requests[r].conv;
    if c in s.store { FreshLoadIsFresh(c, s.store[c], now); }
    OwnSameStore(cfg, s, Apply(cfg, s, Fetch(r, now)), r, c);
  }

  lemma FreshLoadIsFresh(id: string, c: Conversation, now: int)
    ensures IsFresh(FreshLoad(id, c, now), c.log)
    ensures FreshLoad(id, c, now).id == id && FreshLoad(id, c, now).clientId == c.clientId
  {
    FreshLoadIs(id, c, now);
  }

  lemma PutElsewhere(cfg: Config, s: State, c: string, v: Snapshot)
    requires |s.cache| <= AtLeastOne(cfg.maxActive)
    ensures var cache := Put(s.cache, AtLeastOne(cfg.maxActive), c, v);
            && |cache| <= AtLeastOne(cfg.maxActive)
            && Find(cache, c) == Some(v)
            && forall x: string | x != c :: Find(cache, x) in {None, Find(s.cache, x)}
  {
    var cap := AtLeastOne(cfg.maxActive);
    FindPut(s.cache, cap, c, v, c);
    forall x: string | x != c ensures Find(Put(s.cache, cap, c, v), x) in {None, Find(s.cache, x)} {
      FindPut(s.cache, cap, c, v, x);
    }
  }

  lemma OwnPut(cfg: Config, s: State, step: Step)
    requires Inv(cfg, s) && Enabled(s, step) && (step.CacheFetched? || step.StoreState?)
    ensures Own(cfg, s, Apply(cfg, s, step), step.r, s.requests[step.r].conv)
  {
    hide Agrees, IsFresh, Put, LocksInv, SlotsInv;
    var q := s.requests[step.r];
    assert PhaseInv(q, s.store);
    if step.CacheFetched? { FreshAgrees(q.phase.view, s.store[q.conv].log); }
    if q.conv in s.store { StartsClean(q.phase.view, s.store[q.conv].log); }
    PutElsewhere(cfg, s, q.conv, q.phase.view);
  }

  lemma StartsClean(v: Snapshot, log: Log)
    requires Agrees(v, log)
    ensures DispatchInv(Dispatch(v, false, None), log)
  {
  }

  lemma PopElsewhere(c: Lru, key: string)
    ensures Find(Pop(c, key), key) == None && |Pop(c, key)| <= |c|
    ensures forall x: string | x != key :: Find(Pop(c, key), x) == Find(c, x)
  {
    forall x: string ensures Find(Pop(c, key), x) == if x == key then None else Find(c, x) { FindPop(c, key, x); }
    FindPop(c, key, key);
  }

  lemma OwnEvict(cfg: Config, s: State, r: nat)
    requires Inv(cfg, s) && Enabled(s, EvictState(r))
    ensures Own(cfg, s, Apply(cfg, s, EvictState(r)), r, s.requests[r].conv)
  {
    PopElsewhere(s.cache, s.requests[r].conv);
  }

  lemma RunningTracksLog(cfg: Config, s: State, r: nat)
    requires Inv(cfg, s) && InPlanner(s, r)
    ensures s.requests[r].conv in s.store
    ensures DispatchInv(s.requests[r].phase.d, s.store[s.requests[r].conv].log)
  {
    assert PhaseInv(s.requests[r], s.store);
  }

  /** `persist_last` inside a dispatch never meets a taken seq. */
  lemma PushNeverCollides(cfg: Config, s: State, r: nat, q: Request, d: Dispatch)
    requires Inv(cfg, s) && r in s.requests && q == s.requests[r] && q.phase == Running(d) && Settled(d)
    ensures q.conv in s.store && d.view.lastSeq + 1 !in s.store[q.conv].log
  {
    hide Inv, DispatchInv;
    RunningTracksLog(cfg, s, r);
    NextSeqIsFree(d, s.store[q.conv].log);
  }

  lemma PushEffect(cfg: Config, s: State, r: nat, t: Turn, q: Request, s': State)
    requires Enabled(s, PushPersist(r, t)) && q == s.requests[r] && s' == Apply(cfg, s, PushPersist(r, t))
    requires q.conv in s.store && q.phase.d.view.lastSeq + 1 !in s.store[q.conv].log
    ensures s'.requests == s.requests[r := q.(phase := Running(Dispatch(Pushed(q.phase.d.view, t), true, None)))]
    ensures s'.locks == s.locks && s'.cache == s.cache
    ensures SameElsewhere(s.store, s'.store, q.conv)
    ensures s'.store[q.conv].log == s.store[q.conv].log[q.phase.d.view.lastSeq + 1 := t]
  {
  }

  lemma PushKeepsPhase(cfg: Config, s: State, r: nat, t: Turn, q: Request, s': State)
    requires PhasesInv(s) && Enabled(s, PushPersist(r, t)) && q == s.requests[r]
    requires s' == Apply(cfg, s, PushPersist(r, t))
    ensures q.conv in s.store && q.phase.d.view.lastSeq + 1 !in s.store[q.conv].log
    ensures r in s'.requests && PhaseInv(s'.requests[r], s'.store)
  {
    hide Apply, DispatchInv;
    assert PhaseInv(q, s.store);
    PushStep(q.phase.d, s.store[q.conv].log, t);
    PushEffect(cfg, s, r, t, q, s');
  }

  lemma OwnPush(cfg: Config, s: State, r: nat, t: Turn)
    requires Inv(cfg, s) && Enabled(s, PushPersist(r, t))
    ensures Own(cfg, s, Apply(cfg, s, PushPersist(r, t)), r, s.requests[r].conv)
  {
    var q, s' := s.requests[r], Apply(cfg, s, PushPersist(r, t));
    PushKeepsPhase(cfg, s, r, t, q, s');
    PushEffect(cfg, s, r, t, q, s');
    hide Apply, PhaseInv, CacheInv, Own;
    OwnBusy(cfg, s, s', r, q.conv);
  }

  lemma OwnPlanning(cfg: Config, s: State, step: Step)
    requires Inv(cfg, s) && Enabled(s, step) && (step.OpenPlan? || step.MirrorPair? || step.Succeed?)
    ensures Own(cfg, s, Apply(cfg, s, step), step.r, s.requests[step.r].conv)
  {
    var q := s.requests[step.r];
    assert PhaseInv(q, s.store);
    var log := s.store[q.conv].log;
    match step {
      case OpenPlan(_) => OpenStep(q.phase.d, log);
      case MirrorPair(_, now) => MirrorStep(q.phase.d, log, now);
      case Succeed(_) =>
        SettledMirrors(q.phase.d, log);
        FinishAgrees(q.phase.d.view, log);
    }
    OwnBusy(cfg, s, Apply(cfg, s, step), step.r, q.conv);
  }

  /** A tool pair collides only when its own plan index was already written. */
  lemma JournalNeverCollides(cfg: Config, s: State, r: nat, i: nat, e: TraceEntry, q: Request, p: Plan)
    requires Inv(cfg, s) && InPlanner(s, r) && q == s.requests[r] && q.phase.d.plan == Some(p)
    ensures q.conv in s.store
    ensures Fits(s.store, PairRows(q.conv, p.base, i, e)) <==> i >= p.mirrored && i !in p.journal
  {
    hide Inv, DispatchInv, Fits;
    RunningTracksLog(cfg, s, r);
    JournalSlot(q.phase.d, s.store[q.conv].log, i);
    PairRowsFit(s.store, q.conv, p.base, i, e);
  }

  lemma JournalEffect(cfg: Config, s: State, r: nat, i: nat, e: TraceEntry, q: Request, p: Plan, s': State)
    requires Enabled(s, JournalPair(r, i, e)) && q == s.requests[r] && q.conv in s.store
    requires p == q.phase.d.plan.value && s' == Apply(cfg, s, JournalPair(r, i, e))
    ensures JournalDone(s, r, i, e, q, p, s')
  {
    hide Fits;
    PairInserts(s.store, q.conv, p.base, i, e);
  }

  /** One transaction of `persist_tool_pair_at` on the tables. */
  lemma PairInserts(store: Store, conv: string, base: nat, i: nat, e: TraceEntry)
    requires conv in store
    ensures InsertTurns(store, PairRows(conv, base, i, e), e.stamp).Some? <==> Fits(store, PairRows(conv, base, i, e))
    ensures Fits(store, PairRows(conv, base, i, e)) ==>
              && SameElsewhere(store, InsertTurns(store, PairRows(conv, base, i, e), e.stamp).value, conv)
              && InsertTurns(store, PairRows(conv, base, i, e), e.stamp).value[conv].log
                 == store[conv].log[CallSeq(base, i) := CallTurn(e, e.stamp)]
                                   [CallSeq(base, i) + 1 := ResultTurn(e, e.stamp)]
  {
    var rows := PairRows(conv, base, i, e);
    BatchIsAllOrNothing(store, rows, e.stamp);
    WrittenPair(conv, store[conv].log, base, i, e);
    if Fits(store, rows) {
      var s1 := InsertTurn(store, rows[0], e.stamp).value;
      assert rows[1..] == [rows[1]] && rows[1..][1..] == [];
      assert InsertTurns(s1, rows[1..], e.stamp) == InsertTurn(s1, rows[1], e.stamp);
    }
  }

  lemma PairRowsFit(store: Store, conv: string, base: nat, i: nat, e: TraceEntry)
    requires conv in store
    ensures Fits(store, PairRows(conv, base, i, e))
        <==> CallSeq(base, i) !in store[conv].log && CallSeq(base, i) + 1 !in store[conv].log
  {
    var rows := PairRows(conv, base, i, e);
    assert rows[0].seqNo == CallSeq(base, i) && rows[1].seqNo == CallSeq(base, i) + 1;
    if CallSeq(base, i) !in store[conv].log && CallSeq(base, i) + 1 !in store[conv].log {
      forall x | 0 <= x < |rows| ensures rows[x].conv in store && rows[x].seqNo !in store[rows[x].conv].log { }
    }
  }

  lemma PlanMeansPushed(d: Dispatch, log: Log)
    requires DispatchInv(d, log) && d.plan.Some?
    ensures d.pushed
  {
  }

  /** What journalling pair `i` leaves of the state. */
  ghost predicate JournalDone(s: State, r: nat, i: nat, e: TraceEntry, q: Request, p: Plan, s': State) {
    && q.conv in s.store && q.phase.Running?
    && (!Fits(s.store, PairRows(q.conv, p.base, i, e)) ==> s' == s)
    && (Fits(s.store, PairRows(q.conv, p.base, i, e)) ==>
          && s'.requests == s.requests[r := q.(phase := Running(
               q.phase.d.(plan := Some(p.(journal := p.journal[i := e])))))]
          && s'.locks == s.locks && s'.cache == s.cache
          && SameElsewhere(s.store, s'.store, q.conv)
          && s'.store[q.conv].log == s.store[q.conv].log[CallSeq(p.base, i) := CallTurn(e, e.stamp)]
                                                        [CallSeq(p.base, i) + 1 := ResultTurn(e, e.stamp)])
  }

  lemma JournalKeepsPhase(s: State, r: nat, i: nat, e: TraceEntry, q: Request, p: Plan, s': State)
    requires r in s.requests && q == s.requests[r] && JournalDone(s, r, i, e, q, p, s')
    requires q.phase.d.plan == Some(p) && PhaseInv(q, s.store)
    requires Fits(s.store, PairRows(q.conv, p.base, i, e)) <==> i >= p.mirrored && i !in p.journal
    ensures r in s'.requests && PhaseInv(s'.requests[r], s'.store)
    ensures s'.requests[r].conv == q.conv && s'.requests[r].phase.Running?
    ensures s'.requests[r].phase.d.pushed
    ensures s'.locks == s.locks && s'.cache == s.cache && SameElsewhere(s.store, s'.store, q.conv)
  {
    hide DispatchInv, Fits, PairRows, CallTurn, ResultTurn, CallSeq;
    PlanMeansPushed(q.phase.d, s.store[q.conv].log);
    if i >= p.mirrored && i !in p.journal {
      var d' := q.phase.d.(plan := Some(p.(journal := p.journal[i := e])));
      assert s'.requests[r] == q.(phase := Running(d'));
      JournalStep(q.phase.d, s.store[q.conv].log, i, e, d', s'.store[q.conv].log);
    } else {
      assert s' == s;
    }
  }

  lemma OwnJournal(cfg: Config, s: State, r: nat, i: nat, e: TraceEntry)
    requires Inv(cfg, s) && Enabled(s, JournalPair(r, i, e))
    ensures Own(cfg, s, Apply(cfg, s, JournalPair(r, i, e)), r, s.requests[r].conv)
  {
    var q := s.requests[r];
    var p := q.phase.d.plan.value;
    var s' := Apply(cfg, s, JournalPair(r, i, e));
    JournalNeverCollides(cfg, s, r, i, e, q, p);
    JournalEffect(cfg, s, r, i, e, q, p, s');
    JournalKeepsPhase(s, r, i, e, q, p, s');
    InsideShape(cfg, s, JournalPair(r, i, e));
    hide JournalDone, PhaseInv;
    OwnBusy(cfg, s, s', r, q.conv);
  }

  lemma OwnHolds(cfg: Config, s: State, step: Step)
    requires Inv(cfg, s) && Enabled(s, step) && Actor(step).Some?
    ensures var s' := Apply(cfg, s, step);
            step.r in s'.requests && Own(cfg, s, s', step.r, s'.requests[step.r].conv)
  {
    match step {
      case Lookup(r) => OwnLookup(cfg, s, r);
      case Fetch(r, now) => OwnFetch(cfg, s, r, now);
      case CacheFetched(_) => OwnPut(cfg, s, step);
      case StoreState(_) => OwnPut(cfg, s, step);
      case EvictState(r) => OwnEvict(cfg, s, r);
      case PushPersist(r, t) => OwnPush(cfg, s, r, t);
      case JournalPair(r, i, e) => OwnJournal(cfg, s, r, i, e);
      case OpenPlan(_) => OwnPlanning(cfg, s, step);
      case MirrorPair(_, _) => OwnPlanning(cfg, s, step);
      case Succeed(_) => OwnPlanning(cfg, s, step);
      case _ => OwnQuiet(cfg, s, step);
    }
  }

  // ---------------------------------------------------------------------
  // Every step keeps the invariant
  // ---------------------------------------------------------------------

  lemma ActorKeepsPhases(cfg: Config, s: State, step: Step)
    requires Inv(cfg, s) && Enabled(s, step) && Actor(step).Some?
    ensures PhasesInv(Apply(cfg, s, step))
  {
    var s' := Apply(cfg, s, step);
    OwnHolds(cfg, s, step);
    if Inside(step) {
      InsideShape(cfg, s, step);
      OthersKeepPhase(s, s', step.r, s.requests[step.r].conv);
    } else {
      OutsideShape(cfg, s, step);
      assert s'.store == s.store;
    }
  }

  lemma ActorKeepsCache(cfg: Config, s: State, step: Step)
    requires Inv(cfg, s) && Enabled(s, step) && Actor(step).Some?
    ensures CacheInv(cfg, Apply(cfg, s, step))
  {
    var s' := Apply(cfg, s, step);
    OwnHolds(cfg, s, step);
    if Inside(step) {
      InsideShape(cfg, s, step);
    } else {
      OutsideShape(cfg, s, step);
    }
    CacheAfter(cfg, s, s', step.r, s'.requests[step.r].conv);
  }

  lemma ApiKeeps(cfg: Config, s: State, step: Step)
    requires Inv(cfg, s) && Enabled(s, step) && Actor(step).None?
    ensures PhasesInv(Apply(cfg, s, step)) && CacheInv(cfg, Apply(cfg, s, step))
  {
    var s' := Apply(cfg, s, step);
    if step.EvictFromApi? { PopElsewhere(s.cache, step.conv); }
    forall r | r in s'.requests ensures PhaseInv(s'.requests[r], s'.store) {
      assert PhaseInv(s.requests[r], s.store);
    }
    forall c: string ensures EntryInv(s', c) {
      assert EntryInv(s, c);
      assert Busy(s, c) == Busy(s', c);
    }
  }

  lemma StepKeeps(cfg: Config, s: State, step: Step)
    requires Inv(cfg, s) && Enabled(s, step)
    ensures Inv(cfg, Apply(cfg, s, step))
  {
    LocksKept(cfg, s, step);
    SlotsKept(cfg, s, step);
    if Actor(step).Some? {
      ActorKeepsPhases(cfg, s, step);
      ActorKeepsCache(cfg, s, step);
    } else {
      ApiKeeps(cfg, s, step);
    }
  }

  lemma {:induction false} RunKeeps(cfg: Config, s: State, steps: seq<Step>, s': State)
    requires Inv(cfg, s) && Run(cfg, s, steps, s')
    ensures Inv(cfg, s')
    decreases |steps|
  {
    if steps != [] {
      StepKeeps(cfg, s, steps[0]);
      RunKeeps(cfg, Apply(cfg, s, steps[0]), steps[1..], s');
    }
  }

  lemma Reachable(cfg: Config, store: Store, steps: seq<Step>, s: State)
    requires Run(cfg, Boot(cfg, store), steps, s)
    ensures Inv(cfg, s)
  {
    assert SlotHolders(Boot(cfg, store).requests) == {};
    RunKeeps(cfg, Boot(cfg, store), steps, s);
  }

  // ---------------------------------------------------------------------
  // Whole runs, from any tables
  // ---------------------------------------------------------------------

  /** Every dispatch starts from the conversation, owner and last seq a fresh load
      would give, and from its turns with results invented for some of the calls
      the log has gone past (`repaired`): from exactly its turns if and only if
      there are none. All this whatever the LRU dropped, whatever ran or failed
      before, whoever evicted what. */
  lemma DispatchStartsFromTheLog(
    cfg: Config, store: Store, steps: seq<Step>, s: State, r: nat, now: int, q: Request, v: Snapshot)
    returns (repaired: set<nat>)
    requires Run(cfg, Boot(cfg, store), steps, s)
    requires InPlanner(s, r) && !s.requests[r].phase.d.pushed && q == s.requests[r] && v == q.phase.d.view
    ensures q.conv in s.store
    ensures (v.id, v.clientId) == (q.conv, s.store[q.conv].clientId)
    ensures v.lastSeq == FreshLoad(q.conv, s.store[q.conv], now).lastSeq
    ensures forall k | k in repaired :: Orphan(s.store[q.conv].log, k)
    ensures AllUntimed(v.turns) == ReadWith(s.store[q.conv].log, repaired + Dangling(s.store[q.conv].log))
    ensures AllUntimed(v.turns) == AllUntimed(FreshLoad(q.conv, s.store[q.conv], now).turns) <==> repaired == {}
  {
    Reachable(cfg, store, steps, s);
    assert PhaseInv(q, s.store);
    hide Inv, Run, PhaseInv;
    var log := s.store[q.conv].log;
    repaired :| ReadsAs(v.turns, log, repaired, Dangling(log));
    DriftIsRepair(v.turns, log, repaired);
    FreshLoadIs(q.conv, s.store[q.conv], now);
  }

  /** In particular a log without an overtaken repair is started from as it reads. */
  lemma UnscarredStartsExactly(
    cfg: Config, store: Store, steps: seq<Step>, s: State, r: nat, now: int, q: Request, v: Snapshot)
    requires Run(cfg, Boot(cfg, store), steps, s)
    requires InPlanner(s, r) && !s.requests[r].phase.d.pushed && q == s.requests[r] && v == q.phase.d.view
    ensures q.conv in s.store
    ensures !Scarred(s.store[q.conv].log) ==>
              AllUntimed(v.turns) == AllUntimed(FreshLoad(q.conv, s.store[q.conv], now).turns)
  {
    hide Run;
    var repaired := DispatchStartsFromTheLog(cfg, store, steps, s, r, now, q, v);
    if repaired != {} { var k :| k in repaired; }
  }

  /** A dispatch that missed the cache starts from exactly what a load gives at
      that moment, on any log. */
  lemma MissStartsFresh(cfg: Config, store: Store, steps: seq<Step>, s: State, r: nat, now: int, q: Request)
    requires Run(cfg, Boot(cfg, store), steps, s) && Enabled(s, CacheFetched(r)) && q == s.requests[r]
    ensures q.conv in s.store
    ensures Apply(cfg, s, CacheFetched(r)).requests[r].phase == Running(Dispatch(q.phase.view, false, None))
    ensures q.phase.view.lastSeq == FreshLoad(q.conv, s.store[q.conv], now).lastSeq
    ensures AllUntimed(q.phase.view.turns) == AllUntimed(FreshLoad(q.conv, s.store[q.conv], now).turns)
  {
    Reachable(cfg, store, steps, s);
    assert PhaseInv(q, s.store);
    FreshLoadIs(q.conv, s.store[q.conv], now);
  }

  /** No append of any run collides on `(conversation, seq)`: whenever a planner
      may push, the seq its turn takes is free. */
  lemma PushesNeverCollide(
    cfg: Config, store: Store, steps: seq<Step>, s: State, r: nat, t: Turn, q: Request, d: Dispatch)
    requires Run(cfg, Boot(cfg, store), steps, s) && r in s.requests && q == s.requests[r]
    requires q.phase == Running(d) && Settled(d)
    ensures Fits(s.store, [TurnRecord(q.conv, d.view.lastSeq + 1, t)])
  {
    Reachable(cfg, store, steps, s);
    hide Inv, Run, Fits, Settled;
    PushNeverCollides(cfg, s, r, q, d);
    OneRowFits(s.store, TurnRecord(q.conv, d.view.lastSeq + 1, t));
  }

  lemma OneRowFits(store: Store, row: TurnRecord)
    requires row.conv in store && row.seqNo !in store[row.conv].log
    ensures Fits(store, [row])
  {
  }

  /** A tool pair finds both of its seqs free unless that very plan index was
      written before. */
  lemma PairsNeverCollide(
    cfg: Config, store: Store, steps: seq<Step>, s: State, r: nat, i: nat, e: TraceEntry, q: Request, p: Plan)
    requires Run(cfg, Boot(cfg, store), steps, s) && InPlanner(s, r)
    requires q == s.requests[r] && q.phase.d.plan == Some(p)
    ensures Fits(s.store, PairRows(q.conv, p.base, i, e)) <==> i >= p.mirrored && i !in p.journal
  {
    Reachable(cfg, store, steps, s);
    hide Inv, Run, Fits;
    JournalNeverCollides(cfg, s, r, i, e, q, p);
  }

  function Dispatching(s: State): set<nat> {
    set r | r in s.requests && s.requests[r].phase.Running?
  }

  /** At most one dispatch per conversation and at most
      `max(1, max_concurrent_planners)` in all. */
  lemma DispatchesAreBounded(cfg: Config, store: Store, steps: seq<Step>, s: State)
    requires Run(cfg, Boot(cfg, store), steps, s)
    ensures forall r1, r2 | r1 in Dispatching(s) && r2 in Dispatching(s) && r1 != r2 ::
              s.requests[r1].conv != s.requests[r2].conv
    ensures |Dispatching(s)| <= AtLeastOne(cfg.maxPlanners)
    ensures |s.cache| <= AtLeastOne(cfg.maxActive)
  {
    Reachable(cfg, store, steps, s);
    SubsetSize(Dispatching(s), SlotHolders(s.requests));
  }

  predicate IsPending(s: State, r: nat) { r in s.requests && !s.requests[r].phase.Done? }

  /** A step the request itself can take once it is past its two waits. */
  function OwnMove(s: State, r: nat): Step
    requires IsPending(s, r)
  {
    match s.requests[r].phase
    case Queued => TakeLock(r)
    case Locked => TakeSlot(r)
    case Slotted => Lookup(r)
    case Missed => Fetch(r, 0)
    case Fetched(_) => CacheFetched(r)
    case Running(_) => Fail(r)
    case Storing(_) => StoreState(r)
    case Evicting => EvictState(r)
    case Closing(_) => FreeSlot(r)
    case Unlocking(_) => FreeLock(r)
    case Done(_) => FreeLock(r)
  }

  /** While a request is pending, some pending request can move: the mutex is
      always taken before the slot, so nobody holds a slot while waiting. */
  lemma NeverDeadlocks(cfg: Config, store: Store, steps: seq<Step>, s: State, r: nat)
    requires Run(cfg, Boot(cfg, store), steps, s) && IsPending(s, r)
    ensures exists x: nat :: IsPending(s, x) && Enabled(s, OwnMove(s, x))
  {
    Reachable(cfg, store, steps, s);
    var q := s.requests[r];
    if q.phase.Queued? {
      if s.locks[q.conv].None? {
        assert IsPending(s, r) && Enabled(s, OwnMove(s, r));
      } else {
        HolderMoves(cfg, s, s.locks[q.conv].value);
      }
    } else {
      HolderMoves(cfg, s, r);
    }
  }

  /** A mutex owner moves, or waits for a slot somebody else can give back. */
  lemma HolderMoves(cfg: Config, s: State, r: nat)
    requires Inv(cfg, s) && r in s.requests && HoldsLock(s.requests[r].phase)
    ensures exists x: nat :: IsPending(s, x) && Enabled(s, OwnMove(s, x))
  {
    if s.requests[r].phase.Locked? && s.permits == 0 {
      assert SlotHolders(s.requests) != {};
      var x :| x in SlotHolders(s.requests);
      assert IsPending(s, x) && Enabled(s, OwnMove(s, x));
    } else {
      assert IsPending(s, r) && Enabled(s, OwnMove(s, r));
    }
  }

  // ---------------------------------------------------------------------
  // When the crash repair makes the cached turns drift
  // ---------------------------------------------------------------------

  /** The exact condition: a view just loaded keeps reading like its log after
      the next written turn if and only if the load had nothing to repair. */
  lemma RepairIsNotWritten(id: string, c: Conversation, now: int, t: Turn, v: Snapshot, log': Log)
    requires v == FreshLoad(id, c, now) && log' == c.log[v.lastSeq + 1 := t]
    ensures v.lastSeq + 1 !in c.log
    ensures Pushed(v, t).lastSeq == MaxSeq(log')
    ensures AllUntimed(Pushed(v, t).turns) == AllUntimed(LoadTurns(log')) <==> !EndsInCall(LoadTurns(c.log))
  {
    var turns := LoadTurns(c.log);
    AppendReadsLast(c.log, v.lastSeq + 1, t);
    if EndsInCall(turns) {
      assert |Pushed(v, t).turns| == |turns| + 2;
      UntimedLength(Pushed(v, t).turns);
      UntimedLength(LoadTurns(log'));
    } else {
      assert Pushed(v, t).turns == turns + [t];
    }
  }

  /** A conversation on which it happens: the process died between a call and
      its result, and the next dispatch appended a user turn. */
  lemma RepairedViewDrifts(id: string, now: int)
    ensures var log: Log := map[1 := User("go", [], 0), 2 := ToolCall("c", "n3:p", "echo", "{}", 0)];
            var c := Conversation("alice", None, 0, 0, log);
            var v := FreshLoad(id, c, now);
            var t := User("again", [], 1);
            && v.lastSeq == 3
            && AllUntimed(Pushed(v, t).turns) != AllUntimed(LoadTurns(log[4 := t]))
  {
    var one: Log := map[1 := User("go", [], 0)];
    var log := one[2 := ToolCall("c", "n3:p", "echo", "{}", 0)];
    var c := Conversation("alice", None, 0, 0, log);
    AppendReadsLast(one, 2, ToolCall("c", "n3:p", "echo", "{}", 0));
    var v := FreshLoad(id, c, now);
    RepairIsNotWritten(id, c, now, User("again", [], 1), v, log[v.lastSeq + 1 := User("again", [], 1)]);
    assert log == map[1 := User("go", [], 0), 2 := ToolCall("c", "n3:p", "echo", "{}", 0)];
  }

  /** Every call is followed by the seq reserved for its result. */
  predicate Whole(log: Log) {
    forall k | k in log && log[k].ToolCall? :: k + 1 in log
  }

  ghost predicate WholeStore(store: Store) {
    forall c | c in store :: Whole(store[c].log)
  }

  lemma WholeNeedsNoRepair(log: Log)
    requires Whole(log)
    ensures !Scarred(log) && !EndsInCall(LoadTurns(log))
  {
    var m := MaxSeq(log);
    assert m + 1 !in log;
    if LoadTurns(log) != [] {
      assert Ascending(log.Keys)[0] in Ascending(log.Keys);
      LastLoaded(log, Ascending(log.Keys)[0]);
      assert !log[m].ToolCall?;
    }
  }

  /** A planner that writes tool turns only as whole pairs, as the direct and the
      plan-executing planner both do. */
  predicate WholePairs(steps: seq<Step>) {
    forall i | 0 <= i < |steps| && steps[i].PushPersist? :: !steps[i].turn.ToolCall?
  }

  lemma StepKeepsWhole(cfg: Config, s: State, step: Step)
    requires WholeStore(s.store) && Enabled(s, step) && WholePairs([step])
    ensures WholeStore(Apply(cfg, s, step).store)
  {
    assert [step][0] == step;
    match step {
      case JournalPair(r, i, e) =>
        var q := s.requests[r];
        if q.conv in s.store {
          JournalEffect(cfg, s, r, i, e, q, q.phase.d.plan.value, Apply(cfg, s, step));
        } else {
          BatchIsAllOrNothing(s.store, PairRows(q.conv, q.phase.d.plan.value.base, i, e), e.stamp);
          assert PairRows(q.conv, q.phase.d.plan.value.base, i, e)[0].conv !in s.store;
        }
      case _ =>
    }
  }

  lemma {:induction false} RunKeepsWhole(cfg: Config, s: State, steps: seq<Step>, s': State)
    requires WholeStore(s.store) && Run(cfg, s, steps, s') && WholePairs(steps)
    ensures WholeStore(s'.store)
    decreases |steps|
  {
    if steps != [] {
      assert WholePairs([steps[0]]) && WholePairs(steps[1..]);
      StepKeepsWhole(cfg, s, steps[0]);
      RunKeepsWhole(cfg, Apply(cfg, s, steps[0]), steps[1..], s');
    }
  }

  /** With such planners, over tables they wrote, the agreement is unconditional:
      every dispatch starts from exactly the turns a fresh load would give, and a
      load never repairs. */
  lemma WholePairsNeverDrift(
    cfg: Config, store: Store, steps: seq<Step>, s: State, r: nat, now: int, q: Request, v: Snapshot)
    requires WholeStore(store) && Run(cfg, Boot(cfg, store), steps, s) && WholePairs(steps)
    requires InPlanner(s, r) && !s.requests[r].phase.d.pushed && q == s.requests[r] && v == q.phase.d.view
    ensures q.conv in s.store
    ensures v.lastSeq == FreshLoad(q.conv, s.store[q.conv], now).lastSeq
    ensures AllUntimed(v.turns) == AllUntimed(FreshLoad(q.conv, s.store[q.conv], now).turns)
    ensures FreshLoad(q.conv, s.store[q.conv], now) == Raw(q.conv, s.store[q.conv])
  {
    var _ := DispatchStartsFromTheLog(cfg, store, steps, s, r, now, q, v);
    UnscarredStartsExactly(cfg, store, steps, s, r, now, q, v);
    RunKeepsWhole(cfg, Boot(cfg, store), steps, s);
    hide Run;
    WholeNeedsNoRepair(s.store[q.conv].log);
  }
}
