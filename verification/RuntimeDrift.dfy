/** A whole run on which the crash repair makes a dispatch start from turns that a
    fresh load would not give. */
module RuntimeDrift {
  import opened Options
  import opened Conversations
  import opened Journal
  import opened Runtime
  import opened RuntimeCoherence
  import opened RuntimeSafety

  lemma {:induction false} Then(cfg: Config, s0: State, steps: seq<Step>, s: State, step: Step)
    requires Run(cfg, s0, steps, s) && Enabled(s, step)
    ensures Run(cfg, s0, steps + [step], Apply(cfg, s, step))
    decreases |steps|
  {
    hide Enabled, Apply;
    if steps == [] {
      assert [step][1..] == [];
      assert Run(cfg, Apply(cfg, s, step), [step][1..], Apply(cfg, s, step));
      assert steps + [step] == [step];
    } else {
      Then(cfg, Apply(cfg, s0, steps[0]), steps[1..], s, step);
      assert (steps + [step])[1..] == steps[1..] + [step];
    }
  }

  /** Request `r` arrives, takes the mutex of an idle conversation and a slot. */
  lemma Enters(cfg: Config, s0: State, steps: seq<Step>, s: State, r: nat, client: string, conv: string)
    returns (steps': seq<Step>, s': State)
    requires Run(cfg, s0, steps, s) && r !in s.requests && s.permits > 0
    requires conv in s.locks ==> s.locks[conv].None?
    ensures Run(cfg, s0, steps', s')
    ensures s' == s.(requests := s.requests[r := Request(client, conv, Slotted)],
                     locks := s.locks[conv := Some(r)], permits := s.permits - 1)
  {
    hide Run;
    Then(cfg, s0, steps, s, Arrive(r, client, conv));
    var s1 := Apply(cfg, s, Arrive(r, client, conv));
    var steps1 := steps + [Arrive(r, client, conv)];
    Then(cfg, s0, steps1, s1, TakeLock(r));
    var s2 := Apply(cfg, s1, TakeLock(r));
    var steps2 := steps1 + [TakeLock(r)];
    Then(cfg, s0, steps2, s2, TakeSlot(r));
    s' := Apply(cfg, s2, TakeSlot(r));
    steps' := steps2 + [TakeSlot(r)];
    assert s'.requests == s.requests[r := Request(client, conv, Slotted)];
    assert s'.locks == s.locks[conv := Some(r)];
  }

  /** It misses the cache, loads and enters the planner. */
  lemma Misses(cfg: Config, s0: State, steps: seq<Step>, s: State, r: nat, q: Request, v: Snapshot)
    returns (steps': seq<Step>, s': State)
    requires Run(cfg, s0, steps, s) && r in s.requests && q == s.requests[r] && q.phase.Slotted?
    requires Find(s.cache, q.conv) == None && q.conv in s.store && s.store[q.conv].clientId == q.client
    requires v == FreshLoad(q.conv, s.store[q.conv], 0)
    ensures Run(cfg, s0, steps', s')
    ensures s' == s.(requests := s.requests[r := q.(phase := Running(Dispatch(v, false, None)))],
                     cache := Put(s.cache, AtLeastOne(cfg.maxActive), q.conv, v))
  {
    hide Run, FreshLoad, Put;
    Then(cfg, s0, steps, s, Lookup(r));
    var s1 := Apply(cfg, s, Lookup(r));
    var steps1 := steps + [Lookup(r)];
    Then(cfg, s0, steps1, s1, Fetch(r, 0));
    var s2 := Apply(cfg, s1, Fetch(r, 0));
    var steps2 := steps1 + [Fetch(r, 0)];
    Then(cfg, s0, steps2, s2, CacheFetched(r));
    s' := Apply(cfg, s2, CacheFetched(r));
    steps' := steps2 + [CacheFetched(r)];
    assert s'.requests == s.requests[r := q.(phase := Running(Dispatch(v, false, None)))];
  }

  /** The planner pushes and persists one turn. */
  lemma Writes(cfg: Config, s0: State, steps: seq<Step>, s: State, r: nat, q: Request, d: Dispatch, t: Turn)
    returns (steps': seq<Step>, s': State)
    requires Run(cfg, s0, steps, s) && r in s.requests && q == s.requests[r] && q.phase == Running(d)
    requires d.plan.None? && (d.pushed || t.User?)
    requires q.conv in s.store && d.view.lastSeq + 1 !in s.store[q.conv].log
    ensures Run(cfg, s0, steps', s')
    ensures s'.requests == s.requests[r := q.(phase := Running(Dispatch(Pushed(d.view, t), true, None)))]
    ensures s'.locks == s.locks && s'.cache == s.cache && s'.permits == s.permits
    ensures q.conv in s'.store && s'.store[q.conv].clientId == s.store[q.conv].clientId
    ensures s'.store[q.conv].log == s.store[q.conv].log[d.view.lastSeq + 1 := t]
  {
    hide Run;
    Then(cfg, s0, steps, s, PushPersist(r, t));
    s' := Apply(cfg, s, PushPersist(r, t));
    steps' := steps + [PushPersist(r, t)];
  }

  /** A dispatch that ended on an Assistant turn succeeds and leaves. */
  lemma Leaves(cfg: Config, s0: State, steps: seq<Step>, s: State, r: nat, q: Request, v: Snapshot)
    returns (steps': seq<Step>, s': State)
    requires Run(cfg, s0, steps, s) && r in s.requests && q == s.requests[r]
    requires q.phase == Running(Dispatch(v, true, None)) && v.turns != [] && Last(v.turns).Assistant? && v.id == q.conv
    ensures Run(cfg, s0, steps', s')
    ensures s' == s.(requests := s.requests[r := q.(phase := Done(true))], locks := s.locks[q.conv := None],
                     cache := Put(s.cache, AtLeastOne(cfg.maxActive), q.conv, v), permits := s.permits + 1)
  {
    hide Run, Put;
    Then(cfg, s0, steps, s, Succeed(r));
    var s1 := Apply(cfg, s, Succeed(r));
    var steps1 := steps + [Succeed(r)];
    Then(cfg, s0, steps1, s1, StoreState(r));
    var s2 := Apply(cfg, s1, StoreState(r));
    var steps2 := steps1 + [StoreState(r)];
    Then(cfg, s0, steps2, s2, FreeSlot(r));
    var s3 := Apply(cfg, s2, FreeSlot(r));
    var steps3 := steps2 + [FreeSlot(r)];
    Then(cfg, s0, steps3, s3, FreeLock(r));
    s' := Apply(cfg, s3, FreeLock(r));
    steps' := steps3 + [FreeLock(r)];
    assert s'.requests == s.requests[r := q.(phase := Done(true))];
  }

  /** It finds its conversation in the cache and enters the planner. */
  lemma Hits(cfg: Config, s0: State, steps: seq<Step>, s: State, r: nat, q: Request, v: Snapshot)
    returns (steps': seq<Step>, s': State)
    requires Run(cfg, s0, steps, s) && r in s.requests && q == s.requests[r] && q.phase.Slotted?
    requires Find(s.cache, q.conv) == Some(v) && v.clientId == q.client
    ensures Run(cfg, s0, steps', s') && s'.store == s.store
    ensures r in s'.requests && s'.requests[r] == q.(phase := Running(Dispatch(v, false, None)))
  {
    hide Run;
    Then(cfg, s0, steps, s, Lookup(r));
    s' := Apply(cfg, s, Lookup(r));
    steps' := steps + [Lookup(r)];
  }

  const Lost: Turn := ToolCall("c", "n3:p", "echo", "{}", 0)

  function CrashLog(): Log { map[1 := User("go", [], 0), 2 := Lost] }

  /** The process died between a call and its result. After the restart one
      dispatch writes a question and an answer; the next one is served from the
      cache and starts from turns that no load of the log gives: they hold the
      invented result, the log does not. */
  lemma NextDispatchStartsDrifted(cfg: Config, id: string, now: int, store: Store)
    returns (steps: seq<Step>, s: State)
    requires store == map[id := Conversation("alice", None, 0, 0, CrashLog())]
    ensures Run(cfg, Boot(cfg, store), steps, s)
    ensures InPlanner(s, 2) && !s.requests[2].phase.d.pushed && s.requests[2].conv == id && id in s.store
    ensures Ascending(s.store[id].log.Keys) == [1, 2, 4, 5]
    ensures |s.requests[2].phase.d.view.turns| == 5
    ensures AllUntimed(s.requests[2].phase.d.view.turns) != AllUntimed(FreshLoad(id, s.store[id], now).turns)
  {
    hide Run, Put, Find;
    var s0 := Boot(cfg, store);
    var ask, reply := User("again", [], 1), Assistant("done", None, 2);
    var v0 := FreshLoad(id, store[id], 0);
    CrashLoad(id, store[id], v0);
    var v1, v2 := Pushed(v0, ask), Pushed(Pushed(v0, ask), reply);
    assert Run(cfg, s0, [], s0) by { Nowhere(cfg, s0); }
    NothingCached(id);
    var st1, s1 := Enters(cfg, s0, [], s0, 1, "alice", id);
    var st2, s2 := Misses(cfg, s0, st1, s1, 1, s1.requests[1], v0);
    var st3, s3 := Writes(cfg, s0, st2, s2, 1, s2.requests[1], Dispatch(v0, false, None), ask);
    var st4, s4 := Writes(cfg, s0, st3, s3, 1, s3.requests[1], Dispatch(v1, true, None), reply);
    var st5, s5 := Leaves(cfg, s0, st4, s4, 1, s4.requests[1], v2);
    var st6, s6 := Enters(cfg, s0, st5, s5, 2, "alice", id);
    FindPut(s4.cache, AtLeastOne(cfg.maxActive), id, v2, id);
    steps, s := Hits(cfg, s0, st6, s6, 2, s6.requests[2], v2);
    assert s.store[id].log == CrashLog()[4 := ask][5 := reply];
    DriftedTurns(id, s.store[id], now, ask, reply, v2);
  }

  lemma Nowhere(cfg: Config, s: State)
    ensures Run(cfg, s, [], s)
  {
  }

  lemma NothingCached(id: string)
    ensures Find([], id) == None
  {
  }

  lemma CrashKeys()
    ensures Ascending(CrashLog().Keys) == [1, 2] && LoadTurns(CrashLog()) == [User("go", [], 0), Lost]
    ensures MaxSeq(CrashLog()) == 2
  {
    AscendingIsUnique(Ascending(CrashLog().Keys), [1, 2]);
  }

  lemma CrashLoad(id: string, c: Conversation, v: Snapshot)
    requires c == Conversation("alice", None, 0, 0, CrashLog()) && v == FreshLoad(id, c, 0)
    ensures v.id == id && v.clientId == "alice" && v.lastSeq == 3 && |v.turns| == 3
  {
    CrashKeys();
  }

  lemma DriftedTurns(id: string, c: Conversation, now: int, ask: Turn, reply: Turn, v: Snapshot)
    requires c.log == CrashLog()[4 := ask][5 := reply] && reply.Assistant? && |v.turns| == 5
    ensures Ascending(c.log.Keys) == [1, 2, 4, 5]
    ensures AllUntimed(v.turns) != AllUntimed(FreshLoad(id, c, now).turns)
  {
    AscendingIsUnique(Ascending(c.log.Keys), [1, 2, 4, 5]);
    var turns := LoadTurns(c.log);
    assert turns[3] == c.log[Ascending(c.log.Keys)[3]] == reply;
    UntimedLength(v.turns);
    UntimedLength(FreshLoad(id, c, now).turns);
  }
}
