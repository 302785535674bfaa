/** `NodeRuntime` with its cells updated in place: each method is one atomic
    section of `handle_user_message_with_opts` or of the API around it. */
module NodeRuntimes {
  import opened Options
  import opened Conversations
  import opened Journal
  import opened Runtime
  import opened RuntimeSafety

  class NodeRuntime {
    const cfg: Config
    var store: Store
    var cache: Lru
    var locks: map<string, Option<nat>>
    var permits: nat
    var requests: map<nat, Request>

    function View(): State
      reads this
    {
      State(store, cache, locks, permits, requests)
    }

    ghost predicate Valid()
      reads this
    {
      Inv(cfg, View())
    }

    constructor (cfg: Config, tables: Store)
      ensures this.cfg == cfg && View() == Boot(cfg, tables) && Valid()
    {
      this.cfg := cfg;
      store, cache, locks, requests := tables, [], map[], map[];
      permits := if cfg.maxPlanners == 0 then 1 else cfg.maxPlanners;
      new;
      Reachable(cfg, tables, [], View());
    }

    /** `lock_for`: get or insert the conversation's mutex, then queue on it. */
    method LockFor(r: nat, client: string, conv: string)
      requires Valid() && r !in requests
      modifies this
      ensures Valid() && View() == Apply(cfg, old(View()), Arrive(r, client, conv))
    {
      StepKeeps(cfg, View(), Arrive(r, client, conv));
      if conv !in locks { locks := locks[conv := None]; }
      requests := requests[r := Request(client, conv, Queued)];
    }

    method SetPhase(r: nat, phase: Phase)
      requires r in requests
      modifies this`requests
      ensures View() == Moved(old(View()), r, phase)
    {
      requests := requests[r := requests[r].(phase := phase)];
    }

    method TakeConversation(r: nat)
      requires Valid() && Enabled(View(), TakeLock(r))
      modifies this
      ensures Valid() && View() == Apply(cfg, old(View()), TakeLock(r))
    {
      StepKeeps(cfg, View(), TakeLock(r));
      locks := locks[requests[r].conv := Some(r)];
      SetPhase(r, Locked);
    }

    method AcquirePlannerSlot(r: nat)
      requires Valid() && Enabled(View(), TakeSlot(r))
      modifies this
      ensures Valid() && View() == Apply(cfg, old(View()), TakeSlot(r))
    {
      StepKeeps(cfg, View(), TakeSlot(r));
      permits := permits - 1;
      SetPhase(r, Slotted);
    }

    /** `load_state`, the section under the cache mutex. */
    method ConsultCache(r: nat)
      requires Valid() && Enabled(View(), Lookup(r))
      modifies this
      ensures Valid() && View() == Apply(cfg, old(View()), Lookup(r))
    {
      StepKeeps(cfg, View(), Lookup(r));
      var q := requests[r];
      match Find(cache, q.conv) {
        case None =>
          SetPhase(r, Missed);
        case Some(v) =>
          cache := Touch(cache, q.conv);
          if v.clientId != q.client { SetPhase(r, Closing(false)); }
          else { SetPhase(r, Running(Dispatch(v, false, None))); }
      }
    }

    method LoadFromLog(r: nat, now: int)
      requires Valid() && Enabled(View(), Fetch(r, now))
      modifies this
      ensures Valid() && View() == Apply(cfg, old(View()), Fetch(r, now))
    {
      StepKeeps(cfg, View(), Fetch(r, now));
      var q := requests[r];
      if q.conv !in store || store[q.conv].clientId != q.client { SetPhase(r, Closing(false)); }
      else { SetPhase(r, Fetched(FreshLoad(q.conv, store[q.conv], now))); }
    }

    method CacheLoaded(r: nat)
      requires Valid() && Enabled(View(), CacheFetched(r))
      modifies this
      ensures Valid() && View() == Apply(cfg, old(View()), CacheFetched(r))
    {
      StepKeeps(cfg, View(), CacheFetched(r));
      var v := requests[r].phase.view;
      cache := Put(cache, AtLeastOne(cfg.maxActive), requests[r].conv, v);
      SetPhase(r, Running(Dispatch(v, false, None)));
    }

    /** The planner pushes a turn and persists it; a storage error ends it. */
    method PushAndPersist(r: nat, t: Turn)
      requires Valid() && Enabled(View(), PushPersist(r, t))
      modifies this
      ensures Valid() && View() == Apply(cfg, old(View()), PushPersist(r, t))
    {
      StepKeeps(cfg, View(), PushPersist(r, t));
      hide Inv;
      var q := requests[r];
      var v := Pushed(q.phase.d.view, t);
      match InsertTurn(store, TurnRecord(q.conv, v.lastSeq, t), v.updatedAt) {
        case None =>
          SetPhase(r, Evicting);
        case Some(store') =>
          store := store';
          SetPhase(r, Running(Dispatch(v, true, None)));
      }
    }

    /** The durability hook of the plan executor. */
    method JournalToolPair(r: nat, index: nat, e: TraceEntry)
      requires Valid() && Enabled(View(), JournalPair(r, index, e))
      modifies this
      ensures Valid() && View() == Apply(cfg, old(View()), JournalPair(r, index, e))
    {
      StepKeeps(cfg, View(), JournalPair(r, index, e));
      var q := requests[r];
      var p := q.phase.d.plan.value;
      match InsertTurns(store, PairRows(q.conv, p.base, index, e), e.stamp) {
        case None =>
        case Some(store') =>
          store := store';
          SetPhase(r, Running(q.phase.d.(plan := Some(p.(journal := p.journal[index := e])))));
      }
    }

    /** Planner success: `store_in_cache`. */
    method StoreInCache(r: nat)
      requires Valid() && Enabled(View(), StoreState(r))
      modifies this
      ensures Valid() && View() == Apply(cfg, old(View()), StoreState(r))
    {
      StepKeeps(cfg, View(), StoreState(r));
      var v := requests[r].phase.view;
      cache := Put(cache, AtLeastOne(cfg.maxActive), v.id, v);
      SetPhase(r, Closing(true));
    }

    /** Planner failure evicts the conversation. */
    method EvictFailed(r: nat)
      requires Valid() && Enabled(View(), EvictState(r))
      modifies this
      ensures Valid() && View() == Apply(cfg, old(View()), EvictState(r))
    {
      StepKeeps(cfg, View(), EvictState(r));
      cache := Pop(cache, requests[r].conv);
      SetPhase(r, Closing(false));
    }

    /** The guards go in reverse order: first the slot, then the mutex. */
    method DropSlot(r: nat)
      requires Valid() && Enabled(View(), FreeSlot(r))
      modifies this
      ensures Valid() && View() == Apply(cfg, old(View()), FreeSlot(r))
    {
      StepKeeps(cfg, View(), FreeSlot(r));
      permits := permits + 1;
      SetPhase(r, Unlocking(requests[r].phase.ok));
    }

    method DropLock(r: nat)
      requires Valid() && Enabled(View(), FreeLock(r))
      modifies this
      ensures Valid() && View() == Apply(cfg, old(View()), FreeLock(r))
    {
      StepKeeps(cfg, View(), FreeLock(r));
      locks := locks[requests[r].conv := None];
      SetPhase(r, Done(requests[r].phase.ok));
    }

    method Evict(conv: string)
      requires Valid()
      modifies this
      ensures Valid() && View() == Apply(cfg, old(View()), EvictFromApi(conv))
    {
      StepKeeps(cfg, View(), EvictFromApi(conv));
      cache := Pop(cache, conv);
    }
  }
}
