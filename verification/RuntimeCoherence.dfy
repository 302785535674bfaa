/** The cache agrees with the log it speeds up: what one log, one view and one
    planner step keep between them. */
module RuntimeCoherence {
  import opened Options
  import opened Conversations
  import opened Journal
  import opened Runtime

  // ---------------------------------------------------------------------
  // What a fresh load of a log gives, clock aside
  // ---------------------------------------------------------------------

  function FreshTurns(log: Log): seq<Turn> {
    var turns := LoadTurns(log);
    if EndsInCall(turns) then turns + [SyntheticResult(Last(turns), 0)] else turns
  }

  function FreshSeq(log: Log): nat {
    MaxSeq(log) + if EndsInCall(LoadTurns(log)) then 1 else 0
  }

  lemma FreshLoadIs(id: string, c: Conversation, now: int)
    ensures FreshLoad(id, c, now).lastSeq == FreshSeq(c.log)
    ensures AllUntimed(FreshLoad(id, c, now).turns) == AllUntimed(FreshTurns(c.log))
  {
    var a, b := FreshLoad(id, c, now).turns, FreshTurns(c.log);
    assert |a| == |b|;
    UntimedPointwise(a, b);
  }

  /** A call without a result although the log goes on past it: a load repaired
      it, in memory only. */
  predicate Orphan(log: Log, k: nat) {
    k in log && log[k].ToolCall? && k + 1 !in log && k < MaxSeq(log)
  }

  ghost predicate Scarred(log: Log) {
    exists k: nat :: Orphan(log, k)
  }

  // ---------------------------------------------------------------------
  // A log read with some of its calls repaired
  // ---------------------------------------------------------------------

  /** The rows of `keys`, timestamps aside, and behind each call listed in
      `repaired` the result `validate` invents for it. */
  function Patched(log: Log, keys: seq<nat>, repaired: set<nat>): seq<Turn>
    requires forall i | 0 <= i < |keys| :: keys[i] in log
  {
    if keys == [] then []
    else
      var k := keys[|keys| - 1];
      Patched(log, keys[..|keys| - 1], repaired) + [Untimed(log[k])]
      + if k in repaired && log[k].ToolCall? then [SyntheticResult(log[k], 0)] else []
  }

  function ReadWith(log: Log, repaired: set<nat>): seq<Turn> {
    KeysStored(log);
    Patched(log, Ascending(log.Keys), repaired)
  }

  lemma KeysStored(log: Log)
    ensures forall i | 0 <= i < |Ascending(log.Keys)| :: Ascending(log.Keys)[i] in log
  {
    var keys := Ascending(log.Keys);
    forall i | 0 <= i < |keys| ensures keys[i] in log { assert keys[i] in keys; }
  }

  lemma {:induction false} PatchedAgrees(log: Log, log': Log, keys: seq<nat>, r: set<nat>, r': set<nat>)
    requires forall i | 0 <= i < |keys| :: keys[i] in log && keys[i] in log' && log'[keys[i]] == log[keys[i]]
    requires forall i | 0 <= i < |keys| :: keys[i] in r <==> keys[i] in r'
    ensures Patched(log, keys, r) == Patched(log', keys, r')
  {
    if keys != [] { PatchedAgrees(log, log', keys[..|keys| - 1], r, r'); }
  }

  /** Without repairs it is the plain reading. */
  lemma {:induction false} PatchedPlain(log: Log, keys: seq<nat>, turns: seq<Turn>)
    requires |turns| == |keys| && forall i | 0 <= i < |keys| :: keys[i] in log && turns[i] == log[keys[i]]
    ensures Patched(log, keys, {}) == AllUntimed(turns)
  {
    if keys != [] { PatchedPlain(log, keys[..|keys| - 1], turns[..|turns| - 1]); }
  }

  lemma ReadPlain(log: Log)
    ensures ReadWith(log, {}) == AllUntimed(LoadTurns(log))
  {
    KeysStored(log);
    PatchedPlain(log, Ascending(log.Keys), LoadTurns(log));
  }

  lemma {:induction false} PatchedLength(log: Log, keys: seq<nat>, r: set<nat>)
    requires forall i | 0 <= i < |keys| :: keys[i] in log
    ensures |Patched(log, keys, r)| >= |keys|
    ensures (exists i :: 0 <= i < |keys| && keys[i] in r && log[keys[i]].ToolCall?) ==> |Patched(log, keys, r)| > |keys|
  {
    if keys != [] { PatchedLength(log, keys[..|keys| - 1], r); }
  }

  lemma PatchedSnoc(log: Log, keys: seq<nat>, k: nat, r: set<nat>)
    requires (forall i | 0 <= i < |keys| :: keys[i] in log) && k in log
    ensures Patched(log, keys + [k], r) == Patched(log, keys, r) + [Untimed(log[k])]
                                         + if k in r && log[k].ToolCall? then [SyntheticResult(log[k], 0)] else []
  {
    assert (keys + [k])[..|keys|] == keys;
  }

  /** A row above all others is read last. */
  lemma ReadAppend(log: Log, n: nat, t: Turn, r: set<nat>)
    requires (forall j | j in log :: j < n) && n !in r
    ensures ReadWith(log[n := t], r) == ReadWith(log, r) + [Untimed(t)]
  {
    var log' := log[n := t];
    var keys := Ascending(log.Keys);
    KeysStored(log);
    AscendingIsUnique(Ascending(log'.Keys), keys + [n]);
    PatchedAgrees(log, log', keys, r, r);
    PatchedSnoc(log', keys, n, r);
  }

  lemma PatchedRepaired(log: Log, front: seq<nat>, m: nat, r: set<nat>)
    requires (forall i | 0 <= i < |front| :: front[i] in log && front[i] != m) && m in log
    requires log[m].ToolCall? && m !in r
    ensures Patched(log, front + [m], r + {m}) == Patched(log, front + [m], r) + [SyntheticResult(log[m], 0)]
  {
    PatchedSnoc(log, front, m, r);
    PatchedSnoc(log, front, m, r + {m});
    PatchedAgrees(log, log, front, r, r + {m});
  }

  /** Repairing the last call adds its result at the end. */
  lemma ReadRepaired(log: Log, r: set<nat>)
    requires EndsInCall(LoadTurns(log)) && MaxSeq(log) !in r
    ensures ReadWith(log, r + {MaxSeq(log)}) == ReadWith(log, r) + [SyntheticResult(Last(LoadTurns(log)), 0)]
  {
    hide Patched;
    var keys := Ascending(log.Keys);
    KeysStored(log);
    var front, m := keys[..|keys| - 1], MaxSeq(log);
    assert keys == front + [m];
    PatchedRepaired(log, front, m, r);
  }

  /** The last call of a log that has no result after it. */
  function Dangling(log: Log): set<nat> {
    if EndsInCall(LoadTurns(log)) then {MaxSeq(log)} else {}
  }

  /** What a fresh load gives: the dangling call repaired, and no other. */
  lemma FreshRead(log: Log)
    ensures ReadWith(log, Dangling(log)) == AllUntimed(FreshTurns(log))
  {
    ReadPlain(log);
    if EndsInCall(LoadTurns(log)) {
      ReadRepaired(log, {});
      assert {} + {MaxSeq(log)} == {MaxSeq(log)};
      UntimedAppend(LoadTurns(log), SyntheticResult(Last(LoadTurns(log)), 0));
    }
  }

  /** The turns are those of the log, with results invented for the orphaned
      calls listed in `repaired` (and for `also`). */
  ghost predicate ReadsAs(turns: seq<Turn>, log: Log, repaired: set<nat>, also: set<nat>) {
    (forall k | k in repaired :: Orphan(log, k)) && AllUntimed(turns) == ReadWith(log, repaired + also)
  }

  /** A view a load gives, up to repairs made in memory earlier on: the last seq
      is that of a fresh load, and so are the turns but for results invented for
      calls the log has since gone past. */
  ghost predicate Agrees(v: Snapshot, log: Log) {
    v.lastSeq == FreshSeq(log) && exists r: set<nat> :: ReadsAs(v.turns, log, r, Dangling(log))
  }

  /** The turns equal a fresh load's exactly when no such repair is left in them. */
  lemma DriftIsRepair(turns: seq<Turn>, log: Log, r: set<nat>)
    requires ReadsAs(turns, log, r, Dangling(log))
    ensures AllUntimed(turns) == AllUntimed(FreshTurns(log)) <==> r == {}
  {
    FreshRead(log);
    if r == {} {
      assert r + Dangling(log) == Dangling(log);
    } else {
      var k :| k in r;
      assert Orphan(log, k);
      MoreRepaired(log, r, k);
    }
  }

  lemma MoreRepaired(log: Log, r: set<nat>, k: nat)
    requires k in r && (forall j | j in r :: Orphan(log, j))
    ensures |ReadWith(log, r + Dangling(log))| > |AllUntimed(FreshTurns(log))|
  {
    KeysStored(log);
    UntimedLength(FreshTurns(log));
    var keys := Ascending(log.Keys);
    assert k in keys;
    if EndsInCall(LoadTurns(log)) {
      assert MaxSeq(log) !in r;
      ReadRepaired(log, r);
    } else {
      assert r + Dangling(log) == r;
    }
    PatchedLength(log, keys, r);
  }

  /** Exactly what a load gives now. */
  predicate IsFresh(v: Snapshot, log: Log) {
    v.lastSeq == FreshSeq(log) && AllUntimed(v.turns) == AllUntimed(FreshTurns(log))
  }

  lemma FreshAgrees(v: Snapshot, log: Log)
    requires IsFresh(v, log)
    ensures Agrees(v, log)
  {
    FreshRead(log);
    assert {} + Dangling(log) == Dangling(log);
    assert ReadsAs(v.turns, log, {}, Dangling(log));
  }

  // ---------------------------------------------------------------------
  // One view against its log while a planner is writing
  // ---------------------------------------------------------------------

  function UpTo(log: Log, n: nat): Log {
    map k | k in log && k <= n :: log[k]
  }

  /** Once the dispatch has written, its view is the log up to `lastSeq`. */
  ghost predicate Mirrors(v: Snapshot, u: Log) {
    && v.turns != [] && v.lastSeq in u && (forall k | k in u :: k <= v.lastSeq)
    && Untimed(u[v.lastSeq]) == Untimed(Last(v.turns))
    && exists r: set<nat> :: ReadsAs(v.turns, u, r, {})
  }

  lemma LastLoaded(log: Log, k: nat)
    requires k in log
    ensures LoadTurns(log) != [] && MaxSeq(log) in log && Last(LoadTurns(log)) == log[MaxSeq(log)]
  {
    var keys := Ascending(log.Keys);
    assert k in keys;
    assert keys[|keys| - 1] in keys;
  }

  lemma OrphansStay(log: Log, n: nat, t: Turn, k: nat)
    requires forall j | j in log :: j < n
    requires Orphan(log, k) || (k in Dangling(log) && MaxSeq(log) + 1 < n)
    ensures Orphan(log[n := t], k)
  {
    AppendReadsLast(log, n, t);
    if k in Dangling(log) {
      assert Ascending(log.Keys)[0] in Ascending(log.Keys);
      LastLoaded(log, Ascending(log.Keys)[0]);
    } else {
      assert MaxSeq(log) in log;
    }
  }

  /** One more turn behind a reading, with what was repaired before. */
  lemma GrowReads(turns: seq<Turn>, log: Log, r: set<nat>, also: set<nat>, n: nat, t: Turn, w: Turn)
    requires ReadsAs(turns, log, r, also) && Untimed(t) == Untimed(w)
    requires also == {} || (also == Dangling(log) && MaxSeq(log) + 1 < n)
    requires forall j | j in log :: j < n
    ensures ReadsAs(turns + [t], log[n := w], r + also, {})
  {
    hide ReadWith, Patched, Dangling, AllUntimed;
    var all := r + also;
    RepairedStay(log, r, also, n, w);
    ReadAppend(log, n, w, all);
    UntimedAppend(turns, t);
    assert all + {} == all;
  }

  lemma RepairedStay(log: Log, r: set<nat>, also: set<nat>, n: nat, w: Turn)
    requires forall k | k in r :: Orphan(log, k)
    requires also == {} || (also == Dangling(log) && MaxSeq(log) + 1 < n)
    requires forall j | j in log :: j < n
    ensures n !in r + also && forall k | k in r + also :: Orphan(log[n := w], k)
  {
    DanglingStored(log);
    hide Orphan, Dangling;
    forall k | k in r + also ensures Orphan(log[n := w], k) && k in log {
      OrphansStay(log, n, w, k);
      if k in r { OrphanStored(log, k); }
    }
  }

  lemma OrphanStored(log: Log, k: nat)
    requires Orphan(log, k)
    ensures k in log
  {
  }

  lemma DanglingStored(log: Log)
    ensures forall k | k in Dangling(log) :: k in log
  {
    if LoadTurns(log) != [] {
      assert Ascending(log.Keys)[0] in Ascending(log.Keys);
      LastLoaded(log, Ascending(log.Keys)[0]);
    }
  }

  lemma GrowMirrors(v: Snapshot, u: Log, t: Turn, w: Turn)
    requires Mirrors(v, u) && Untimed(t) == Untimed(w)
    ensures Mirrors(Pushed(v, t), u[v.lastSeq + 1 := w])
  {
    hide ReadsAs;
    var r: set<nat> :| ReadsAs(v.turns, u, r, {});
    GrowReads(v.turns, u, r, {}, v.lastSeq + 1, t, w);
    assert Last(Pushed(v, t).turns) == t;
  }

  /** The first write of a dispatch that started from what a load gives. */
  lemma StartMirrors(v: Snapshot, log: Log, t: Turn)
    requires Agrees(v, log)
    ensures v.lastSeq + 1 !in log
    ensures Mirrors(Pushed(v, t), log[v.lastSeq + 1 := t])
  {
    hide ReadsAs, Untimed, UpTo;
    var r: set<nat> :| ReadsAs(v.turns, log, r, Dangling(log));
    if Dangling(log) == {} {
      GrowReads(v.turns, log, r, {}, v.lastSeq + 1, t, t);
    } else {
      GrowReads(v.turns, log, r, Dangling(log), v.lastSeq + 1, t, t);
    }
    assert Last(Pushed(v, t).turns) == t;
  }

  lemma NothingDangles(v: Snapshot, log: Log)
    requires Mirrors(v, log) && Last(v.turns).Assistant?
    ensures Dangling(log) == {} && FreshSeq(log) == v.lastSeq
  {
    hide ReadsAs;
    LastLoaded(log, v.lastSeq);
    assert MaxSeq(log) == v.lastSeq;
  }

  /** A dispatch that ended on an Assistant turn leaves the view a load gives. */
  lemma FinishAgrees(v: Snapshot, log: Log)
    requires Mirrors(v, log) && Last(v.turns).Assistant?
    ensures Agrees(v, log)
  {
    hide ReadsAs, FreshSeq, Dangling;
    NothingDangles(v, log);
    var r: set<nat> :| ReadsAs(v.turns, log, r, {});
    assert ReadsAs(v.turns, log, r, Dangling(log));
  }

  // ---------------------------------------------------------------------
  // One planner step
  // ---------------------------------------------------------------------

  /** The two seqs of plan index `i` hold its journalled pair, or nothing. */
  predicate Slot(p: Plan, log: Log, i: nat) {
    var k := CallSeq(p.base, i);
    if i in p.journal then
      var e := p.journal[i];
      k in log && log[k] == CallTurn(e, e.stamp) && k + 1 in log && log[k + 1] == ResultTurn(e, e.stamp)
    else k !in log && k + 1 !in log
  }

  /** Above the mirrored turns the log holds exactly the journalled pairs. */
  ghost predicate Pending(p: Plan, log: Log, lastSeq: nat) {
    && lastSeq == p.base + 2 * p.mirrored
    && (forall k: nat | p.base < k <= lastSeq :: k in log)
    && (forall i: nat | i >= p.mirrored :: Slot(p, log, i))
  }

  /** The written part of a dispatch: `u` is what its view mirrors. */
  ghost predicate Recorded(d: Dispatch, log: Log, u: Log) {
    && d.pushed && u == UpTo(log, d.view.lastSeq) && Mirrors(d.view, u)
    && (d.plan.None? ==> u == log)
    && (d.plan.Some? ==> Pending(d.plan.value, log, d.view.lastSeq))
  }

  ghost predicate DispatchInv(d: Dispatch, log: Log) {
    if !d.pushed then d.plan.None? && Agrees(d.view, log)
    else Recorded(d, log, UpTo(log, d.view.lastSeq))
  }

  lemma SettledMirrors(d: Dispatch, log: Log)
    requires DispatchInv(d, log) && d.pushed && Settled(d)
    ensures UpTo(log, d.view.lastSeq) == log
    ensures Mirrors(d.view, log)
  {
    hide ReadsAs;
    if d.plan.Some? {
      var p := d.plan.value;
      forall k: nat | k > d.view.lastSeq ensures k !in log {
        var i: nat := (k - p.base - 1) / 2;
        assert Slot(p, log, i);
      }
      assert UpTo(log, d.view.lastSeq) == log;
    }
  }

  /** The next seq is free. */
  lemma NextSeqIsFree(d: Dispatch, log: Log)
    requires DispatchInv(d, log) && Settled(d)
    ensures d.view.lastSeq + 1 !in log
  {
    if d.pushed { SettledMirrors(d, log); }
  }

  /** `push` + `persist_last` finds its seq free and keeps the view in step. */
  lemma PushStep(d: Dispatch, log: Log, t: Turn)
    requires DispatchInv(d, log) && Settled(d)
    ensures d.view.lastSeq + 1 !in log
    ensures DispatchInv(Dispatch(Pushed(d.view, t), true, None), log[d.view.lastSeq + 1 := t])
  {
    if d.pushed {
      SettledMirrors(d, log);
      GrowMirrors(d.view, log, t, t);
    } else {
      StartMirrors(d.view, log, t);
    }
    MirrorsWhole(Pushed(d.view, t), log[d.view.lastSeq + 1 := t]);
  }

  lemma MirrorsWhole(v: Snapshot, log: Log)
    requires Mirrors(v, log)
    ensures UpTo(log, v.lastSeq) == log
  {
  }

  lemma OpenStep(d: Dispatch, log: Log)
    requires DispatchInv(d, log) && d.pushed && Settled(d)
    ensures DispatchInv(d.(plan := Some(Plan(d.view.lastSeq, map[], 0))), log)
  {
    SettledMirrors(d, log);
  }

  /** A pair of a new plan index finds both seqs free; one of an index already
      journalled finds its call's seq taken. */
  lemma JournalSlot(d: Dispatch, log: Log, i: nat)
    requires DispatchInv(d, log) && d.plan.Some?
    ensures (i < d.plan.value.mirrored || i in d.plan.value.journal) ==> CallSeq(d.plan.value.base, i) in log
    ensures !(i < d.plan.value.mirrored || i in d.plan.value.journal) ==>
              CallSeq(d.plan.value.base, i) !in log && CallSeq(d.plan.value.base, i) + 1 !in log
  {
    if i >= d.plan.value.mirrored {
      assert Slot(d.plan.value, log, i);
    }
  }

  lemma PendingGrows(p: Plan, log: Log, n: nat, i: nat, e: TraceEntry, p': Plan, log': Log)
    requires Pending(p, log, n) && i >= p.mirrored
    requires p' == p.(journal := p.journal[i := e])
    requires log' == log[CallSeq(p.base, i) := CallTurn(e, e.stamp)][CallSeq(p.base, i) + 1 := ResultTurn(e, e.stamp)]
    ensures Pending(p', log', n)
    ensures UpTo(log', n) == UpTo(log, n)
  {
    forall j: nat | j >= p'.mirrored ensures Slot(p', log', j) {
      assert Slot(p, log, j);
    }
  }

  lemma JournalStep(d: Dispatch, log: Log, i: nat, e: TraceEntry, d': Dispatch, log': Log)
    requires DispatchInv(d, log) && d.plan.Some? && i >= d.plan.value.mirrored
    requires d' == d.(plan := Some(d.plan.value.(journal := d.plan.value.journal[i := e])))
    requires log' == log[CallSeq(d.plan.value.base, i) := CallTurn(e, e.stamp)]
                        [CallSeq(d.plan.value.base, i) + 1 := ResultTurn(e, e.stamp)]
    ensures DispatchInv(d', log')
  {
    PendingGrows(d.plan.value, log, d.view.lastSeq, i, e, d'.plan.value, log');
  }

  lemma NextPair(p: Plan, log: Log, n: nat, e: TraceEntry)
    requires Pending(p, log, n) && p.mirrored in p.journal && p.journal[p.mirrored] == e
    ensures UpTo(log, n + 2) == UpTo(log, n)[n + 1 := CallTurn(e, e.stamp)][n + 2 := ResultTurn(e, e.stamp)]
  {
    assert Slot(p, log, p.mirrored);
  }

  lemma PendingNext(p: Plan, log: Log, n: nat, p': Plan)
    requires Pending(p, log, n) && p.mirrored in p.journal
    requires p' == p.(mirrored := p.mirrored + 1)
    ensures Pending(p', log, n + 2)
  {
    assert Slot(p, log, p.mirrored);
    forall j: nat | j >= p'.mirrored ensures Slot(p', log, j) {
      assert Slot(p, log, j);
    }
  }

  lemma GrowTwice(v: Snapshot, u: Log, e: TraceEntry, now: int, v': Snapshot, u': Log)
    requires Mirrors(v, u)
    requires v' == Pushed(Pushed(v, CallTurn(e, now)), ResultTurn(e, now))
    requires u' == u[v.lastSeq + 1 := CallTurn(e, e.stamp)][v.lastSeq + 2 := ResultTurn(e, e.stamp)]
    ensures Mirrors(v', u')
  {
    hide Mirrors;
    var v1, u1 := Pushed(v, CallTurn(e, now)), u[v.lastSeq + 1 := CallTurn(e, e.stamp)];
    assert Mirrors(v1, u1) by { GrowMirrors(v, u, CallTurn(e, now), CallTurn(e, e.stamp)); }
    GrowMirrors(v1, u1, ResultTurn(e, now), ResultTurn(e, e.stamp));
  }

  lemma MirrorsNext(v: Snapshot, p: Plan, log: Log, e: TraceEntry, now: int, v': Snapshot, u: Log, u': Log)
    requires u == UpTo(log, v.lastSeq) && u' == UpTo(log, v.lastSeq + 2) && Mirrors(v, u)
    requires Pending(p, log, v.lastSeq) && p.mirrored in p.journal && p.journal[p.mirrored] == e
    requires v' == Pushed(Pushed(v, CallTurn(e, now)), ResultTurn(e, now))
    ensures Mirrors(v', u')
  {
    hide Mirrors, Pending, UpTo;
    NextPair(p, log, v.lastSeq, e);
    GrowTwice(v, u, e, now, v', u');
  }

  lemma Assemble(d: Dispatch, log: Log, u: Log)
    requires d.pushed && d.plan.Some? && u == UpTo(log, d.view.lastSeq)
    requires Mirrors(d.view, u) && Pending(d.plan.value, log, d.view.lastSeq)
    ensures DispatchInv(d, log)
  {
    hide Mirrors, Pending;
  }

  lemma MirrorStep(d: Dispatch, log: Log, now: int)
    requires DispatchInv(d, log) && d.plan.Some?
    requires d.plan.value.mirrored in d.plan.value.journal
    ensures DispatchInv(Mirrored(d, now), log)
  {
    hide Mirrors;
    var p, n, d' := d.plan.value, d.view.lastSeq, Mirrored(d, now);
    var e := p.journal[p.mirrored];
    MirrorsNext(d.view, p, log, e, now, d'.view, UpTo(log, n), UpTo(log, n + 2));
    PendingNext(p, log, n, d'.plan.value);
    Assemble(d', log, UpTo(log, n + 2));
  }
}
