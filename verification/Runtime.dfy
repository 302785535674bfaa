/** `NodeRuntime` (crates/node/src/runtime.rs) as a state machine over its atomic
    sections: the per-conversation mutex, the planner semaphore, the LRU cache of
    conversation states and the log behind it. The planner is any program that
    keeps the contract of the `Planner` trait: it records the user turn first,
    writes every turn it keeps, and ends either in an error or, after an
    Assistant turn, in success. */
module Runtime {
  import opened Options
  import opened Conversations
  import opened Journal

  datatype Config = Config(maxPlanners: nat, maxActive: nat)

  function AtLeastOne(n: nat): nat { if n == 0 then 1 else n }

  // ---------------------------------------------------------------------
  // The LRU cache, most recently used entry first
  // ---------------------------------------------------------------------

  datatype Entry = Entry(key: string, state: Snapshot)

  type Lru = seq<Entry>

  function Find(c: Lru, key: string): Option<Snapshot> {
    if c == [] then None
    else if c[0].key == key then Some(c[0].state)
    else Find(c[1..], key)
  }

  function Pop(c: Lru, key: string): Lru {
    if c == [] then []
    else if c[0].key == key then Pop(c[1..], key)
    else [c[0]] + Pop(c[1..], key)
  }

  function Touch(c: Lru, key: string): Lru {
    match Find(c, key)
    case None => c
    case Some(v) => [Entry(key, v)] + Pop(c, key)
  }

  function Put(c: Lru, capacity: nat, key: string, state: Snapshot): Lru
    requires capacity > 0
  {
    var rest := Pop(c, key);
    [Entry(key, state)] + (if |rest| < capacity then rest else rest[..capacity - 1])
  }

  // ---------------------------------------------------------------------
  // Requests
  // ---------------------------------------------------------------------

  /** Tool pairs of the plan being executed: those already journalled, and how
      many of them have been mirrored into the in-memory state. */
  datatype Plan = Plan(base: nat, journal: map<nat, TraceEntry>, mirrored: nat)

  datatype Dispatch = Dispatch(view: Snapshot, pushed: bool, plan: Option<Plan>)

  datatype Phase =
    | Queued                    // has the mutex handle, waits for the mutex
    | Locked                    // owns the mutex, waits for a planner slot
    | Slotted                   // owns a slot, about to ask the cache
    | Missed                    // cache miss, about to read the log
    | Fetched(view: Snapshot)   // log read, about to fill the cache
    | Running(d: Dispatch)      // inside the planner
    | Storing(view: Snapshot)   // planner succeeded, about to fill the cache
    | Evicting                  // planner failed, about to evict
    | Closing(ok: bool)         // about to drop the slot
    | Unlocking(ok: bool)       // about to drop the mutex guard
    | Done(ok: bool)

  datatype Request = Request(client: string, conv: string, phase: Phase)

  datatype State = State(
    store: Store, cache: Lru, locks: map<string, Option<nat>>, permits: nat, requests: map<nat, Request>)

  predicate HoldsLock(p: Phase) { !p.Queued? && !p.Done? }

  predicate HoldsSlot(p: Phase) { HoldsLock(p) && !p.Locked? && !p.Unlocking? }

  /** A runtime just started over the tables it finds. */
  function Boot(cfg: Config, store: Store): State {
    State(store, [], map[], AtLeastOne(cfg.maxPlanners), map[])
  }

  datatype Step =
    // one request
    | Arrive(r: nat, client: string, conv: string)
    | TakeLock(r: nat)
    | TakeSlot(r: nat)
    | Lookup(r: nat)
    | Fetch(r: nat, now: int)
    | CacheFetched(r: nat)
    | PushPersist(r: nat, turn: Turn)
    | OpenPlan(r: nat)
    | JournalPair(r: nat, index: nat, entry: TraceEntry)
    | MirrorPair(r: nat, now: int)
    | Succeed(r: nat)
    | Fail(r: nat)
    | StoreState(r: nat)
    | EvictState(r: nat)
    | FreeSlot(r: nat)
    | FreeLock(r: nat)
    // the conversations API
    | Create(conv: string, client: string, title: Option<string>, now: int)
    | Rename(conv: string, title: Option<string>, now: int)
    | EvictFromApi(conv: string)

  /** Every journalled pair has been mirrored. */
  predicate Settled(d: Dispatch) {
    d.plan.Some? ==> forall i | i in d.plan.value.journal :: i < d.plan.value.mirrored
  }

  predicate In(s: State, r: nat) { r in s.requests }

  predicate InPlanner(s: State, r: nat) { r in s.requests && s.requests[r].phase.Running? }

  function Last<T>(s: seq<T>): T
    requires s != []
  {
    s[|s| - 1]
  }

  predicate Enabled(s: State, step: Step) {
    match step
    case Arrive(r, _, _) => r !in s.requests
    case TakeLock(r) =>
      && In(s, r) && s.requests[r].phase.Queued?
      && s.requests[r].conv in s.locks && s.locks[s.requests[r].conv].None?
    case TakeSlot(r) => In(s, r) && s.requests[r].phase.Locked? && s.permits > 0
    case Lookup(r) => In(s, r) && s.requests[r].phase.Slotted?
    case Fetch(r, _) => In(s, r) && s.requests[r].phase.Missed?
    case CacheFetched(r) => In(s, r) && s.requests[r].phase.Fetched?
    case PushPersist(r, turn) =>
      && InPlanner(s, r) && Settled(s.requests[r].phase.d)
      && (s.requests[r].phase.d.pushed || turn.User?)
    case OpenPlan(r) =>
      InPlanner(s, r) && s.requests[r].phase.d.pushed && Settled(s.requests[r].phase.d)
    case JournalPair(r, _, _) => InPlanner(s, r) && s.requests[r].phase.d.plan.Some?
    case MirrorPair(r, _) =>
      && InPlanner(s, r) && s.requests[r].phase.d.plan.Some?
      && s.requests[r].phase.d.plan.value.mirrored in s.requests[r].phase.d.plan.value.journal
    case Succeed(r) =>
      && InPlanner(s, r) && s.requests[r].phase.d.pushed && Settled(s.requests[r].phase.d)
      && s.requests[r].phase.d.view.turns != [] && Last(s.requests[r].phase.d.view.turns).Assistant?
    case Fail(r) => InPlanner(s, r)
    case StoreState(r) => In(s, r) && s.requests[r].phase.Storing?
    case EvictState(r) => In(s, r) && s.requests[r].phase.Evicting?
    case FreeSlot(r) => In(s, r) && s.requests[r].phase.Closing?
    case FreeLock(r) => In(s, r) && s.requests[r].phase.Unlocking?
    case Create(conv, _, _, _) => conv !in s.store
    case Rename(conv, _, _) => conv in s.store
    case EvictFromApi(_) => true
  }

  function Moved(s: State, r: nat, phase: Phase): State
    requires r in s.requests
  {
    s.(requests := s.requests[r := s.requests[r].(phase := phase)])
  }

  /** `load_state`, first section: a hit is cloned for its owner only. */
  function LookedUp(s: State, r: nat): State
    requires r in s.requests
  {
    var q := s.requests[r];
    match Find(s.cache, q.conv)
    case None => Moved(s, r, Missed)
    case Some(v) =>
      Moved(s, r, if v.clientId != q.client then Closing(false) else Running(Dispatch(v, false, None)))
        .(cache := Touch(s.cache, q.conv))
  }

  function FetchedFromLog(s: State, r: nat, now: int): State
    requires r in s.requests
  {
    var q := s.requests[r];
    if q.conv !in s.store || s.store[q.conv].clientId != q.client then Moved(s, r, Closing(false))
    else Moved(s, r, Fetched(FreshLoad(q.conv, s.store[q.conv], now)))
  }

  /** `push` then `persist_last`; a failed insert ends the dispatch in an error. */
  function PushedAndPersisted(s: State, r: nat, turn: Turn): State
    requires InPlanner(s, r)
  {
    var q := s.requests[r];
    var v := Pushed(q.phase.d.view, turn);
    match InsertTurn(s.store, TurnRecord(q.conv, v.lastSeq, turn), v.updatedAt)
    case None => Moved(s, r, Evicting)
    case Some(store') => Moved(s, r, Running(Dispatch(v, true, None))).(store := store')
  }

  /** `persist_tool_pair_at` from the durability hook: failures are only logged. */
  function Journalled(s: State, r: nat, index: nat, e: TraceEntry): State
    requires InPlanner(s, r) && s.requests[r].phase.d.plan.Some?
  {
    var q := s.requests[r];
    var p := q.phase.d.plan.value;
    match InsertTurns(s.store, PairRows(q.conv, p.base, index, e), e.stamp)
    case None => s
    case Some(store') =>
      Moved(s, r, Running(q.phase.d.(plan := Some(p.(journal := p.journal[index := e]))))).(store := store')
  }

  /** Mirrors the next pair into memory without writing it again. */
  function Mirrored(d: Dispatch, now: int): Dispatch
    requires d.plan.Some? && d.plan.value.mirrored in d.plan.value.journal
  {
    var p := d.plan.value;
    var e := p.journal[p.mirrored];
    d.(view := Pushed(Pushed(d.view, CallTurn(e, now)), ResultTurn(e, now)),
       plan := Some(p.(mirrored := p.mirrored + 1)))
  }

  function Apply(cfg: Config, s: State, step: Step): State
    requires Enabled(s, step)
  {
    match step
    case Arrive(r, client, conv) =>
      s.(requests := s.requests[r := Request(client, conv, Queued)],
         locks := if conv in s.locks then s.locks else s.locks[conv := None])
    case TakeLock(r) => Moved(s, r, Locked).(locks := s.locks[s.requests[r].conv := Some(r)])
    case TakeSlot(r) => Moved(s, r, Slotted).(permits := s.permits - 1)
    case Lookup(r) => LookedUp(s, r)
    case Fetch(r, now) => FetchedFromLog(s, r, now)
    case CacheFetched(r) =>
      var v := s.requests[r].phase.view;
      Moved(s, r, Running(Dispatch(v, false, None)))
        .(cache := Put(s.cache, AtLeastOne(cfg.maxActive), s.requests[r].conv, v))
    case PushPersist(r, turn) => PushedAndPersisted(s, r, turn)
    case OpenPlan(r) =>
      var d := s.requests[r].phase.d;
      Moved(s, r, Running(d.(plan := Some(Plan(d.view.lastSeq, map[], 0)))))
    case JournalPair(r, index, e) => Journalled(s, r, index, e)
    case MirrorPair(r, now) => Moved(s, r, Running(Mirrored(s.requests[r].phase.d, now)))
    case Succeed(r) => Moved(s, r, Storing(s.requests[r].phase.d.view))
    case Fail(r) => Moved(s, r, Evicting)
    case StoreState(r) =>
      var v := s.requests[r].phase.view;
      Moved(s, r, Closing(true)).(cache := Put(s.cache, AtLeastOne(cfg.maxActive), v.id, v))
    case EvictState(r) => Moved(s, r, Closing(false)).(cache := Pop(s.cache, s.requests[r].conv))
    case FreeSlot(r) => Moved(s, r, Unlocking(s.requests[r].phase.ok)).(permits := s.permits + 1)
    case FreeLock(r) => Moved(s, r, Done(s.requests[r].phase.ok)).(locks := s.locks[s.requests[r].conv := None])
    case Create(conv, client, title, now) =>
      s.(store := s.store[conv := Conversation(client, title, now, now, map[])])
    case Rename(conv, title, now) =>
      s.(store := s.store[conv := s.store[conv].(title := if title.Some? then title else s.store[conv].title,
                                                 updatedAt := now)])
    case EvictFromApi(conv) => s.(cache := Pop(s.cache, conv))
  }

  /** Every interleaving: each step of the list is taken in turn. */
  ghost predicate Run(cfg: Config, s: State, steps: seq<Step>, s': State)
    decreases |steps|
  {
    if steps == [] then s' == s
    else Enabled(s, steps[0]) && Run(cfg, Apply(cfg, s, steps[0]), steps[1..], s')
  }
}
