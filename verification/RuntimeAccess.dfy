/** Whom the runtime serves, how a request ends, and which conversation the cache
    lets go. */
module RuntimeAccess {
  import opened Options
  import opened Conversations
  import opened Journal
  import opened Runtime
  import opened RuntimeCoherence
  import opened RuntimeSafety

  // ---------------------------------------------------------------------
  // Only the owner is served
  // ---------------------------------------------------------------------

  /** The client of the request owns the conversation it names. */
  predicate ByOwner(q: Request, store: Store) {
    q.conv in store && store[q.conv].clientId == q.client
  }

  predicate Admitted(p: Phase) { p.Fetched? || p.Running? || p.Storing? }

  predicate ServesOwners(s: State) {
    forall r | r in s.requests && Admitted(s.requests[r].phase) :: ByOwner(s.requests[r], s.store)
  }

  /** No step hands a conversation to another client. */
  predicate OwnersStay(store: Store, store': Store) {
    forall c | c in store :: c in store' && store'[c].clientId == store[c].clientId
  }

  lemma StepKeepsOwners(cfg: Config, s: State, step: Step)
    requires Inv(cfg, s) && Enabled(s, step)
    ensures OwnersStay(s.store, Apply(cfg, s, step).store)
  {
    hide Inv, Enabled;
    if Actor(step).Some? {
      OwnHolds(cfg, s, step);
      hide PhaseInv, EntryInv, Apply;
    } else {
      ApiKeepsOwners(cfg, s, step);
    }
  }

  lemma ApiKeepsOwners(cfg: Config, s: State, step: Step)
    requires Enabled(s, step) && Actor(step).None?
    ensures OwnersStay(s.store, Apply(cfg, s, step).store)
  {
  }

  /** A request is admitted by the cache or by the log, to its owner only. */
  lemma StepAdmits(cfg: Config, s: State, step: Step, r: nat)
    requires Inv(cfg, s) && Enabled(s, step) && Actor(step) == Some(r)
    requires r in s.requests && Admitted(s.requests[r].phase) ==> ByOwner(s.requests[r], s.store)
    ensures var s' := Apply(cfg, s, step);
      r in s'.requests && (Admitted(s'.requests[r].phase) ==> ByOwner(s'.requests[r], s.store))
  {
    hide Put, Pop, Touch, Agrees, DispatchInv;
    if step.Lookup? { assert EntryInv(s, s.requests[r].conv); }
  }

  lemma StepServesOwners(cfg: Config, s: State, step: Step)
    requires Inv(cfg, s) && Enabled(s, step) && ServesOwners(s)
    ensures ServesOwners(Apply(cfg, s, step))
  {
    hide Inv;
    var s' := Apply(cfg, s, step);
    StepKeepsOwners(cfg, s, step);
    if Actor(step).Some? {
      StepAdmits(cfg, s, step, step.r);
      OthersUntouched(cfg, s, step, step.r);
    }
    hide Apply, Enabled;
    forall r | r in s'.requests && Admitted(s'.requests[r].phase) ensures ByOwner(s'.requests[r], s'.store) {
      if Actor(step) != Some(r) { OthersServed(cfg, s, step, r); }
    }
  }

  lemma OthersUntouched(cfg: Config, s: State, step: Step, r: nat)
    requires Enabled(s, step) && Actor(step) == Some(r)
    ensures forall x | x != r :: x in Apply(cfg, s, step).requests <==> x in s.requests
    ensures forall x | x != r && x in s.requests :: Apply(cfg, s, step).requests[x] == s.requests[x]
  {
  }

  lemma OthersServed(cfg: Config, s: State, step: Step, r: nat)
    requires Enabled(s, step) && Actor(step) != Some(r)
    ensures r in Apply(cfg, s, step).requests <==> r in s.requests
    ensures r in s.requests ==> Apply(cfg, s, step).requests[r] == s.requests[r]
  {
  }

  lemma {:induction false} RunServesOwners(cfg: Config, s: State, steps: seq<Step>, s': State)
    requires Inv(cfg, s) && ServesOwners(s) && Run(cfg, s, steps, s')
    ensures ServesOwners(s')
    decreases |steps|
  {
    hide Inv, ServesOwners, Enabled, Apply;
    if steps != [] {
      StepKeeps(cfg, s, steps[0]);
      StepServesOwners(cfg, s, steps[0]);
      RunServesOwners(cfg, Apply(cfg, s, steps[0]), steps[1..], s');
    }
  }

  /** In every run, whatever is cached: a dispatch runs only for the client that
      owns its conversation. */
  lemma OnlyTheOwnerIsServed(cfg: Config, store: Store, steps: seq<Step>, s: State, r: nat)
    requires Run(cfg, Boot(cfg, store), steps, s) && InPlanner(s, r)
    ensures s.requests[r].conv in s.store && s.store[s.requests[r].conv].clientId == s.requests[r].client
  {
    Reachable(cfg, store, [], Boot(cfg, store));
    RunServesOwners(cfg, Boot(cfg, store), steps, s);
  }

  /** Both ways in: a cached conversation is served exactly to its owner, one read
      from the log too, and nobody is refused without having been looked up. */
  lemma OwnersAreNotRefused(cfg: Config, store: Store, steps: seq<Step>, s: State, r: nat, q: Request)
    requires Run(cfg, Boot(cfg, store), steps, s) && r in s.requests && q == s.requests[r]
    ensures Enabled(s, Lookup(r)) && Find(s.cache, q.conv).Some? ==>
      (Apply(cfg, s, Lookup(r)).requests[r].phase.Running? <==> ByOwner(q, s.store))
    ensures Enabled(s, Lookup(r)) && Find(s.cache, q.conv).Some? ==>
      (Apply(cfg, s, Lookup(r)).requests[r].phase == Closing(false) <==> !ByOwner(q, s.store))
    ensures Enabled(s, Lookup(r)) && Find(s.cache, q.conv).None? ==> Apply(cfg, s, Lookup(r)).requests[r].phase.Missed?
    ensures forall now | Enabled(s, Fetch(r, now)) ::
      (Apply(cfg, s, Fetch(r, now)).requests[r].phase.Fetched? <==> ByOwner(q, s.store))
      && (Apply(cfg, s, Fetch(r, now)).requests[r].phase == Closing(false) <==> !ByOwner(q, s.store))
  {
    Reachable(cfg, store, steps, s);
    assert EntryInv(s, q.conv);
    hide Inv, Run, Agrees, Touch, EntryInv;
  }

  /** A new conversation is empty and its creator's; a rename moves neither owner
      nor log, and keeps the title when it brings none. */
  lemma ApiIs(cfg: Config, s: State, conv: string, client: string, title: Option<string>, now: int)
    ensures Enabled(s, Create(conv, client, title, now)) ==>
      Apply(cfg, s, Create(conv, client, title, now)).store
      == s.store[conv := Conversation(client, title, now, now, map[])]
    ensures Enabled(s, Rename(conv, title, now)) ==>
      var c, c' := s.store[conv], Apply(cfg, s, Rename(conv, title, now)).store[conv];
      && (c'.clientId, c'.createdAt, c'.log) == (c.clientId, c.createdAt, c.log) && c'.updatedAt == now
      && (title.Some? ==> c'.title == title) && (title.None? ==> c'.title == c.title)
  {
  }

  // ---------------------------------------------------------------------
  // How a request ends
  // ---------------------------------------------------------------------

  /** The request's planner has succeeded. */
  predicate Won(s: State, r: nat) {
    r in s.requests
    && match s.requests[r].phase
       case Storing(_) => true
       case Closing(ok) => ok
       case Unlocking(ok) => ok
       case Done(ok) => ok
       case _ => false
  }

  lemma StepWins(cfg: Config, s: State, step: Step, r: nat)
    requires Enabled(s, step)
    ensures Won(Apply(cfg, s, step), r) <==> Won(s, r) || step == Succeed(r)
  {
    hide Put, Pop, Touch, InsertTurn, InsertTurns, Find;
  }

  lemma {:induction false} RunWins(cfg: Config, s: State, steps: seq<Step>, s': State, r: nat)
    requires Run(cfg, s, steps, s')
    ensures Won(s', r) <==> Won(s, r) || Succeed(r) in steps
    decreases |steps|
  {
    hide Enabled, Apply, Won;
    if steps != [] {
      StepWins(cfg, s, steps[0], r);
      RunWins(cfg, Apply(cfg, s, steps[0]), steps[1..], s', r);
      assert steps == [steps[0]] + steps[1..];
    }
  }

  /** A finished request reports success if and only if its planner succeeded. */
  lemma OutcomeIsThePlanners(cfg: Config, store: Store, steps: seq<Step>, s: State, r: nat, ok: bool)
    requires Run(cfg, Boot(cfg, store), steps, s) && r in s.requests && s.requests[r].phase == Done(ok)
    ensures ok <==> Succeed(r) in steps
  {
    RunWins(cfg, Boot(cfg, store), steps, s, r);
  }

  // ---------------------------------------------------------------------
  // Least recently used
  // ---------------------------------------------------------------------

  predicate Cached(c: Lru, key: string) { Find(c, key).Some? }

  lemma {:induction false} FindIs(c: Lru, key: string)
    ensures Cached(c, key) <==> exists i :: 0 <= i < |c| && c[i].key == key
  {
    if c != [] {
      FindIs(c[1..], key);
      if Cached(c[1..], key) {
        var i :| 0 <= i < |c[1..]| && c[1..][i].key == key;
        assert c[i + 1].key == key;
      }
      if c[0].key != key && exists i :: 0 <= i < |c| && c[i].key == key {
        var i :| 0 <= i < |c| && c[i].key == key;
        assert c[1..][i - 1].key == key;
      }
    }
  }

  predicate DistinctKeys(c: Lru) {
    forall i, j | 0 <= i < j < |c| :: c[i].key != c[j].key
  }

  lemma {:induction false} PopAbsent(c: Lru, key: string)
    requires forall i | 0 <= i < |c| :: c[i].key != key
    ensures Pop(c, key) == c && !Cached(c, key)
  {
    if c != [] { PopAbsent(c[1..], key); }
  }

  /** Removing a key leaves the others in their order. */
  lemma {:induction false} PopAt(c: Lru, i: nat)
    requires DistinctKeys(c) && i < |c|
    ensures Pop(c, c[i].key) == c[..i] + c[i + 1..]
    ensures Find(c, c[i].key) == Some(c[i].state)
  {
    if i == 0 {
      PopAbsent(c[1..], c[0].key);
    } else {
      PopAt(c[1..], i - 1);
      assert c[1..][..i - 1] == c[1..i] && c[1..][i..] == c[i + 1..];
      assert [c[0]] + (c[1..i] + c[i + 1..]) == c[..i] + c[i + 1..];
    }
  }

  /** A hit makes its conversation the most recent one and leaves the others in
      their order. */
  lemma TouchIsMostRecent(c: Lru, i: nat)
    requires DistinctKeys(c) && i < |c|
    ensures Touch(c, c[i].key) == [c[i]] + c[..i] + c[i + 1..] && DistinctKeys(Touch(c, c[i].key))
  {
    PopAt(c, i);
    assert [c[i]] + (c[..i] + c[i + 1..]) == [c[i]] + c[..i] + c[i + 1..];
  }

  /** Filling the cache with a conversation that is there puts it first and keeps
      all others. */
  lemma PutKeepsTheOthers(c: Lru, capacity: nat, i: nat, v: Snapshot)
    requires DistinctKeys(c) && i < |c| <= capacity
    ensures Put(c, capacity, c[i].key, v) == [Entry(c[i].key, v)] + (c[..i] + c[i + 1..])
    ensures DistinctKeys(Put(c, capacity, c[i].key, v))
  {
    PopAt(c, i);
    hide Pop;
  }

  /** Filling it with a new one puts that first and, when the cache is full, lets
      the least recently used one go, and no other. */
  lemma PutDropsTheOldest(c: Lru, capacity: nat, key: string, v: Snapshot)
    requires DistinctKeys(c) && 0 < capacity && |c| <= capacity && !Cached(c, key)
    ensures Put(c, capacity, key, v) == [Entry(key, v)] + if |c| < capacity then c else c[..|c| - 1]
    ensures DistinctKeys(Put(c, capacity, key, v))
  {
    FindIs(c, key);
    PopAbsent(c, key);
    hide Pop, Cached;
  }

  /** The cache of a running node lists every conversation once, so both laws
      apply to it. */
  lemma {:induction false} CacheListsOnce(cfg: Config, s: State, steps: seq<Step>, s': State)
    requires DistinctKeys(s.cache) && |s.cache| <= AtLeastOne(cfg.maxActive) && Run(cfg, s, steps, s')
    ensures DistinctKeys(s'.cache) && |s'.cache| <= AtLeastOne(cfg.maxActive)
    decreases |steps|
  {
    hide Enabled, Apply, DistinctKeys;
    if steps != [] {
      StepListsOnce(cfg, s, steps[0]);
      CacheListsOnce(cfg, Apply(cfg, s, steps[0]), steps[1..], s');
    }
  }

  lemma StepListsOnce(cfg: Config, s: State, step: Step)
    requires DistinctKeys(s.cache) && |s.cache| <= AtLeastOne(cfg.maxActive) && Enabled(s, step)
    ensures DistinctKeys(Apply(cfg, s, step).cache) && |Apply(cfg, s, step).cache| <= AtLeastOne(cfg.maxActive)
  {
    hide DistinctKeys, Put, Pop, Touch, Find, InsertTurn, InsertTurns;
    match step {
      case Lookup(r) => TouchListsOnce(s.cache, s.requests[r].conv);
      case CacheFetched(r) =>
        PutListsOnce(s.cache, AtLeastOne(cfg.maxActive), s.requests[r].conv, s.requests[r].phase.view);
      case StoreState(r) =>
        PutListsOnce(s.cache, AtLeastOne(cfg.maxActive), s.requests[r].phase.view.id, s.requests[r].phase.view);
      case EvictState(r) => PopListsOnce(s.cache, s.requests[r].conv);
      case EvictFromApi(c) => PopListsOnce(s.cache, c);
      case _ =>
    }
  }

  lemma TouchListsOnce(c: Lru, key: string)
    requires DistinctKeys(c)
    ensures DistinctKeys(Touch(c, key)) && |Touch(c, key)| == |c|
  {
    FindIs(c, key);
    if Cached(c, key) {
      var i :| 0 <= i < |c| && c[i].key == key;
      TouchIsMostRecent(c, i);
    }
  }

  lemma PutListsOnce(c: Lru, capacity: nat, key: string, v: Snapshot)
    requires DistinctKeys(c) && 0 < capacity && |c| <= capacity
    ensures DistinctKeys(Put(c, capacity, key, v)) && |Put(c, capacity, key, v)| <= capacity
  {
    FindIs(c, key);
    if Cached(c, key) {
      var i :| 0 <= i < |c| && c[i].key == key;
      PutKeepsTheOthers(c, capacity, i, v);
    } else {
      PutDropsTheOldest(c, capacity, key, v);
    }
  }

  lemma PopListsOnce(c: Lru, key: string)
    requires DistinctKeys(c)
    ensures DistinctKeys(Pop(c, key)) && |Pop(c, key)| <= |c|
  {
    FindIs(c, key);
    if Cached(c, key) {
      var i :| 0 <= i < |c| && c[i].key == key;
      PopAt(c, i);
    } else {
      PopAbsent(c, key);
    }
  }
}
