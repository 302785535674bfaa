/** Out-of-order journalling of a plan's tool pairs
    (`persist_tool_pair_at`, crates/node/src/conversation.rs). Steps of a plan
    finish in any order; each writes its call and result at seqs reserved by its
    plan index. */
module Journal {
  import opened Options
  import opened Conversations

  /** What one executed step leaves behind, and the time its rows are stamped. */
  datatype TraceEntry = TraceEntry(
    callId: string, peer: string, capability: string, args: Json,
    result: Option<Json>, error: Option<string>, stamp: int)

  function CallTurn(e: TraceEntry, ts: int): Turn {
    ToolCall(e.callId, e.peer, e.capability, e.args, ts)
  }

  function ResultTurn(e: TraceEntry, ts: int): Turn {
    ToolResult(e.callId, e.peer, e.capability, e.result, e.error, ts)
  }

  function CallSeq(base: nat, index: nat): nat {
    base + 1 + 2 * index
  }

  function PairRows(conv: string, base: nat, index: nat, e: TraceEntry): seq<TurnRecord> {
    [ TurnRecord(conv, CallSeq(base, index), CallTurn(e, e.stamp)),
      TurnRecord(conv, CallSeq(base, index) + 1, ResultTurn(e, e.stamp)) ]
  }

  /** A failed pair is only logged: the store stays as it was. */
  function PersistPair(s: Store, conv: string, base: nat, index: nat, e: TraceEntry): Store {
    match InsertTurns(s, PairRows(conv, base, index, e), e.stamp)
    case Some(s') => s'
    case None => s
  }

  /** The executor's durability hook: one transaction for the pair. */
  method PersistToolPairAt(db: ConversationDb, conv: string, base: nat, index: nat, e: TraceEntry) returns (ok: bool)
    modifies db
    ensures ok <==>
              && conv in old(db.store)
              && CallSeq(base, index) !in old(db.store)[conv].log
              && CallSeq(base, index) + 1 !in old(db.store)[conv].log
    ensures db.store == PersistPair(old(db.store), conv, base, index, e)
    ensures ok ==>
              && conv in db.store && db.store[conv].updatedAt == e.stamp
              && db.store[conv].log == old(db.store)[conv].log
                   [base + 1 + 2 * index := ToolCall(e.callId, e.peer, e.capability, e.args, e.stamp)]
                   [base + 2 + 2 * index := ToolResult(e.callId, e.peer, e.capability, e.result, e.error, e.stamp)]
  {
    var rows := PairRows(conv, base, index, e);
    BatchIsAllOrNothing(db.store, rows, e.stamp);
    assert Fits(db.store, rows) ==> rows[0].seqNo !in db.store[conv].log && rows[1].seqNo !in db.store[conv].log;
    if conv in db.store { WrittenPair(conv, db.store[conv].log, base, index, e); }
    ok := db.AppendTurns(rows, e.stamp);
  }

  predicate Indices(order: seq<nat>, n: nat) {
    forall x | 0 <= x < |order| :: order[x] < n
  }

  /** The pairs of `plan` journalled in the order `order`, which may repeat or
      skip indices. */
  function JournalAll(s: Store, conv: string, base: nat, plan: seq<TraceEntry>, order: seq<nat>): Store
    requires Indices(order, |plan|)
    decreases |order|
  {
    if order == [] then s
    else
      var last := order[|order| - 1];
      PersistPair(JournalAll(s, conv, base, plan, order[..|order| - 1]), conv, base, last, plan[last])
  }

  // ---------------------------------------------------------------------
  // What the log should read as
  // ---------------------------------------------------------------------

  /** The `x`-th turn of the pairs of `indices`: calls at even places. */
  function PairTurn(plan: seq<TraceEntry>, indices: seq<nat>, x: nat): Turn
    requires Indices(indices, |plan|) && x < 2 * |indices|
  {
    var e := plan[indices[x / 2]];
    if x % 2 == 0 then CallTurn(e, e.stamp) else ResultTurn(e, e.stamp)
  }

  /** Whole pairs, in the order the indices are listed. */
  function PairTurns(plan: seq<TraceEntry>, indices: seq<nat>): seq<Turn>
    requires Indices(indices, |plan|)
  {
    seq(2 * |indices|, x requires 0 <= x < 2 * |indices| => PairTurn(plan, indices, x))
  }

  function PairSeqs(base: nat, indices: seq<nat>): seq<nat> {
    seq(2 * |indices|, x requires 0 <= x < 2 * |indices| => CallSeq(base, indices[x / 2]) + x % 2)
  }

  /** The plan index that owns a seq above `base`. */
  function Owner(base: nat, k: nat): nat
    requires k > base
  {
    (k - base - 1) / 2
  }

  /** `log` is `before` plus the pairs of `done`, stated seq by seq. */
  ghost predicate HoldsPairs(log: Log, before: Log, base: nat, plan: seq<TraceEntry>, done: set<nat>) {
    && (forall k: nat :: k <= base ==> (k in log <==> k in before) && (k in log ==> log[k] == before[k]))
    && (forall k: nat :: k > base ==> (k in log <==> Owner(base, k) in done))
    && (forall i | i in done :: i < |plan|)
    && (forall k: nat :: k > base && k in log ==>
          var e := plan[Owner(base, k)];
          log[k] == if k == CallSeq(base, Owner(base, k)) then CallTurn(e, e.stamp) else ResultTurn(e, e.stamp))
  }

  function Members(order: seq<nat>): set<nat> {
    set i | i in order
  }

  lemma WrittenPair(conv: string, log: Log, base: nat, i: nat, e: TraceEntry)
    ensures Written(conv, log, PairRows(conv, base, i, e))
         == log[CallSeq(base, i) := CallTurn(e, e.stamp)][CallSeq(base, i) + 1 := ResultTurn(e, e.stamp)]
  {
    var rows := PairRows(conv, base, i, e);
    var log1 := log[CallSeq(base, i) := CallTurn(e, e.stamp)];
    assert rows[1..] == [rows[1]] && rows[1..][1..] == [];
    assert Written(conv, log1, rows[1..]) == log1[CallSeq(base, i) + 1 := ResultTurn(e, e.stamp)];
  }

  lemma HoldsOneMore(log: Log, before: Log, base: nat, plan: seq<TraceEntry>, done: set<nat>, i: nat, log': Log)
    requires HoldsPairs(log, before, base, plan, done) && i < |plan|
    requires log' == log[CallSeq(base, i) := CallTurn(plan[i], plan[i].stamp)]
                        [CallSeq(base, i) + 1 := ResultTurn(plan[i], plan[i].stamp)]
    ensures HoldsPairs(log', before, base, plan, done + {i})
  {
    assert Owner(base, CallSeq(base, i)) == i && Owner(base, CallSeq(base, i) + 1) == i;
    forall k: nat | k > base ensures k in log' <==> Owner(base, k) in done + {i} {
      assert Owner(base, k) == i ==> k == CallSeq(base, i) || k == CallSeq(base, i) + 1;
    }
  }

  lemma PersistPairStep(
    s: Store, conv: string, before: Log, base: nat, plan: seq<TraceEntry>, done: set<nat>, i: nat, s': Store)
    requires conv in s && i < |plan| && s' == PersistPair(s, conv, base, i, plan[i])
    requires HoldsPairs(s[conv].log, before, base, plan, done)
    ensures conv in s'
    ensures HoldsPairs(s'[conv].log, before, base, plan, done + {i})
    ensures i in done ==> s' == s
  {
    var rows := PairRows(conv, base, i, plan[i]);
    BatchIsAllOrNothing(s, rows, plan[i].stamp);
    assert Owner(base, CallSeq(base, i)) == i && Owner(base, CallSeq(base, i) + 1) == i;
    if i in done {
      assert !Fits(s, rows) by { assert rows[0].seqNo in s[conv].log; }
      assert done + {i} == done;
    } else {
      assert Fits(s, rows);
      WrittenPair(conv, s[conv].log, base, i, plan[i]);
      HoldsOneMore(s[conv].log, before, base, plan, done, i, s'[conv].log);
    }
  }

  /** Any order, any subset, any repetition: the log holds exactly the pairs of
      the indices that were journalled. */
  lemma {:induction false} JournalHoldsPairs(s: Store, conv: string, base: nat, plan: seq<TraceEntry>, order: seq<nat>)
    requires conv in s && Indices(order, |plan|)
    requires forall k | k in s[conv].log :: k <= base
    ensures conv in JournalAll(s, conv, base, plan, order)
    ensures HoldsPairs(JournalAll(s, conv, base, plan, order)[conv].log, s[conv].log, base, plan, Members(order))
    decreases |order|
  {
    if order != [] {
      var front, last := order[..|order| - 1], order[|order| - 1];
      assert order == front + [last];
      JournalHoldsPairs(s, conv, base, plan, front);
      PersistPairStep(JournalAll(s, conv, base, plan, front), conv, s[conv].log, base, plan, Members(front), last,
                      JournalAll(s, conv, base, plan, order));
      assert Members(order) == Members(front) + {last};
    }
  }

  lemma PairSeqsAscend(base: nat, indices: seq<nat>)
    requires StrictlyAscending(indices)
    ensures StrictlyAscending(PairSeqs(base, indices))
  {
    var r := PairSeqs(base, indices);
    forall x, y | 0 <= x < y < |r| ensures r[x] < r[y] {
      if x / 2 < y / 2 { assert indices[x / 2] < indices[y / 2]; }
    }
  }

  lemma PairSeqsMembers(base: nat, indices: seq<nat>, k: nat)
    ensures k in PairSeqs(base, indices) <==> k > base && Owner(base, k) in indices
  {
    var r := PairSeqs(base, indices);
    if k in r {
      var x :| 0 <= x < |r| && r[x] == k;
      assert Owner(base, k) == indices[x / 2];
    }
    if k > base && Owner(base, k) in indices {
      var y :| 0 <= y < |indices| && indices[y] == Owner(base, k);
      var x := 2 * y + (k - base - 1) % 2;
      assert x / 2 == y && r[x] == k;
    }
  }

  lemma PairKeyIs(log: Log, before: Log, base: nat, plan: seq<TraceEntry>, done: set<nat>, k: nat)
    requires forall k | k in before :: k <= base
    requires HoldsPairs(log, before, base, plan, done)
    ensures k in log <==> k in before || k in PairSeqs(base, Ascending(done))
  {
    PairSeqsMembers(base, Ascending(done), k);
  }

  lemma PairSeqsAbove(base: nat, indices: seq<nat>)
    ensures forall x | 0 <= x < |PairSeqs(base, indices)| :: PairSeqs(base, indices)[x] > base
  {
  }

  lemma PairKeysInOrder(log: Log, before: Log, base: nat, plan: seq<TraceEntry>, done: set<nat>)
    requires forall k | k in before :: k <= base
    requires HoldsPairs(log, before, base, plan, done)
    ensures Ascending(log.Keys) == Ascending(before.Keys) + PairSeqs(base, Ascending(done))
  {
    hide HoldsPairs, PairSeqs, Ascending;
    var a: seq<nat>, b: seq<nat> := Ascending(before.Keys), PairSeqs(base, Ascending(done));
    PairSeqsAscend(base, Ascending(done));
    PairSeqsAbove(base, Ascending(done));
    forall x | 0 <= x < |a| ensures a[x] <= base { assert a[x] in a; }
    assert StrictlyAscending(a + b);
    forall k: nat ensures k in Ascending(log.Keys) <==> k in a + b {
      PairKeyIs(log, before, base, plan, done, k);
      assert k in a + b <==> k in a || k in b;
    }
    AscendingIsUnique(Ascending(log.Keys), a + b);
  }

  lemma PairTurnIsStored(
    log: Log, before: Log, base: nat, plan: seq<TraceEntry>, done: set<nat>, indices: seq<nat>, x: nat)
    requires HoldsPairs(log, before, base, plan, done)
    requires Indices(indices, |plan|) && x < 2 * |indices| && indices[x / 2] in done
    ensures PairSeqs(base, indices)[x] in log
    ensures log[PairSeqs(base, indices)[x]] == PairTurn(plan, indices, x)
  {
    var k: nat := PairSeqs(base, indices)[x];
    assert Owner(base, k) == indices[x / 2];
  }

  lemma OldTurnIsKept(log: Log, before: Log, base: nat, plan: seq<TraceEntry>, done: set<nat>, x: nat)
    requires HoldsPairs(log, before, base, plan, done)
    requires forall k | k in before :: k <= base
    requires x < |Ascending(before.Keys)|
    ensures Ascending(before.Keys)[x] in log
    ensures log[Ascending(before.Keys)[x]] == LoadTurns(before)[x]
  {
    assert Ascending(before.Keys)[x] in Ascending(before.Keys);
  }

  lemma AscendingIndices(plan: seq<TraceEntry>, done: set<nat>)
    requires forall i | i in done :: i < |plan|
    ensures Indices(Ascending(done), |plan|)
    ensures forall x | 0 <= x < |Ascending(done)| :: Ascending(done)[x] in done
  {
    var indices := Ascending(done);
    forall x | 0 <= x < |indices| ensures indices[x] in done { assert indices[x] in indices; }
  }

  lemma JournalledIndices(log: Log, before: Log, base: nat, plan: seq<TraceEntry>, done: set<nat>)
    requires HoldsPairs(log, before, base, plan, done)
    ensures Indices(Ascending(done), |plan|)
    ensures forall x | 0 <= x < |Ascending(done)| :: Ascending(done)[x] in done
  {
    AscendingIndices(plan, done);
  }

  /** Reading back: the old turns, then whole adjacent pairs in plan order. */
  lemma PairsReadInPlanOrder(log: Log, before: Log, base: nat, plan: seq<TraceEntry>, done: set<nat>)
    requires forall k | k in before :: k <= base
    requires HoldsPairs(log, before, base, plan, done)
    ensures Indices(Ascending(done), |plan|)
    ensures LoadTurns(log) == LoadTurns(before) + PairTurns(plan, Ascending(done))
  {
    hide HoldsPairs, PairTurn, Ascending, LoadTurns;
    JournalledIndices(log, before, base, plan, done);
    PairKeysInOrder(log, before, base, plan, done);
    var indices := Ascending(done);
    var a, b := Ascending(before.Keys), PairSeqs(base, indices);
    forall x: nat | x < |a| ensures a[x] in log && log[a[x]] == LoadTurns(before)[x] {
      OldTurnIsKept(log, before, base, plan, done, x);
    }
    forall x: nat | x < |b| ensures b[x] in log && log[b[x]] == PairTurns(plan, indices)[x] {
      PairTurnIsStored(log, before, base, plan, done, indices, x);
    }
    ReadByParts(log, a, b, LoadTurns(before), PairTurns(plan, indices));
  }

  lemma ReadByParts(log: Log, a: seq<nat>, b: seq<nat>, s: seq<Turn>, t: seq<Turn>)
    requires Ascending(log.Keys) == a + b
    requires |a| == |s| && forall x: nat | x < |a| :: a[x] in log && log[a[x]] == s[x]
    requires |b| == |t| && forall x: nat | x < |b| :: b[x] in log && log[b[x]] == t[x]
    ensures LoadTurns(log) == s + t
  {
    var read := LoadTurns(log);
    assert |read| == |s + t|;
    forall x | 0 <= x < |read| ensures read[x] == (s + t)[x] { }
  }

  /** The in-memory replay: the pairs pushed in plan order, each turn stamped by
      whatever the clock says then. */
  function Replay(v: Snapshot, plan: seq<TraceEntry>, clock: nat -> int): Snapshot
    decreases |plan|
  {
    if plan == [] then v
    else
      var v' := Replay(v, plan[..|plan| - 1], clock);
      var e := plan[|plan| - 1];
      Pushed(Pushed(v', CallTurn(e, clock(v'.lastSeq))), ResultTurn(e, clock(v'.lastSeq + 1)))
  }

  /** Every call is directly followed by its own result and every result
      directly follows its own call. */
  ghost predicate Paired(turns: seq<Turn>) {
    && (forall i | 0 <= i < |turns| && turns[i].ToolCall? ::
          i + 1 < |turns| && turns[i + 1].ToolResult? && turns[i + 1].callId == turns[i].id)
    && (forall i | 0 <= i < |turns| && turns[i].ToolResult? ::
          i > 0 && turns[i - 1].ToolCall? && turns[i - 1].id == turns[i].callId)
  }

  lemma PairTurnsArePaired(before: seq<Turn>, plan: seq<TraceEntry>, indices: seq<nat>)
    requires Indices(indices, |plan|)
    requires Paired(before)
    ensures Paired(before + PairTurns(plan, indices))
  {
    var n := |before|;
    var r := before + PairTurns(plan, indices);
    forall i | 0 <= i < |r| && r[i].ToolCall?
      ensures i + 1 < |r| && r[i + 1].ToolResult? && r[i + 1].callId == r[i].id
    {
      if i >= n {
        assert r[i] == PairTurn(plan, indices, i - n);
        assert r[i + 1] == PairTurn(plan, indices, i + 1 - n);
      }
    }
    forall i | 0 <= i < |r| && r[i].ToolResult?
      ensures i > 0 && r[i - 1].ToolCall? && r[i - 1].id == r[i].callId
    {
      if i >= n {
        assert r[i] == PairTurn(plan, indices, i - n);
        assert r[i - 1] == PairTurn(plan, indices, i - 1 - n);
      }
    }
  }

  /** The durability promise: whatever subset of the steps was journalled, in
      whatever order, the reloaded conversation keeps its old turns, then holds
      only whole adjacent pairs in plan order, and the crash repair adds nothing. */
  lemma JournalSurvivesACrash(s: Store, conv: string, base: nat, plan: seq<TraceEntry>, order: seq<nat>, now: int)
    requires conv in s && Indices(order, |plan|)
    requires MaxSeq(s[conv].log) == base && Paired(LoadTurns(s[conv].log))
    ensures var s' := JournalAll(s, conv, base, plan, order);
            && conv in s'
            && Indices(Ascending(Members(order)), |plan|)
            && var read := FreshLoad(conv, s'[conv], now);
            && read.turns == LoadTurns(s[conv].log) + PairTurns(plan, Ascending(Members(order)))
            && Paired(read.turns)
            && read == Raw(conv, s'[conv])
            && Ascending(s'[conv].log.Keys) == Ascending(s[conv].log.Keys) + PairSeqs(base, Ascending(Members(order)))
  {
    var s' := JournalAll(s, conv, base, plan, order);
    JournalHoldsPairs(s, conv, base, plan, order);
    PairKeysInOrder(s'[conv].log, s[conv].log, base, plan, Members(order));
    PairsReadInPlanOrder(s'[conv].log, s[conv].log, base, plan, Members(order));
    PairTurnsArePaired(LoadTurns(s[conv].log), plan, Ascending(Members(order)));
  }

  // ---------------------------------------------------------------------
  // The crash repair
  // ---------------------------------------------------------------------

  /** The invented result answers the dangling call: its id, its peer, its
      capability, no value and an error. Nothing else is ever invented. */
  lemma RepairAnswersTheCall(v: Snapshot, now: int)
    ensures !EndsInCall(v.turns) ==> Validated(v, now) == v
    ensures EndsInCall(v.turns) ==>
              var call := v.turns[|v.turns| - 1];
              && Validated(v, now).lastSeq == v.lastSeq + 1
              && Validated(v, now).turns
                 == v.turns + [ToolResult(call.id, call.peer, call.capability, None, Some(RESTARTED), now)]
  {
  }

  /** Pairs, but for a last call that a crash left without its result. */
  ghost predicate NearlyPaired(turns: seq<Turn>) {
    if EndsInCall(turns) then Paired(turns[..|turns| - 1]) else Paired(turns)
  }

  /** The repaired turns are whole pairs exactly when only the last call was missing
      its result. */
  lemma RepairPairs(v: Snapshot, now: int)
    ensures Paired(Validated(v, now).turns) <==> NearlyPaired(v.turns)
  {
    RepairAnswersTheCall(v, now);
    if EndsInCall(v.turns) {
      var n := |v.turns| - 1;
      var call := v.turns[n];
      AnsweredPairs(v.turns[..n], call, ToolResult(call.id, call.peer, call.capability, None, Some(RESTARTED), now));
      assert v.turns == v.turns[..n] + [call];
    }
  }

  lemma AnsweredPairs(front: seq<Turn>, call: Turn, result: Turn)
    requires call.ToolCall? && result.ToolResult? && result.callId == call.id
    ensures Paired(front + [call] + [result]) <==> Paired(front)
  {
    var n := |front|;
    var all := front + [call] + [result];
    assert all[n] == call && all[n + 1] == result && forall i | 0 <= i < n :: all[i] == front[i];
    if Paired(all) {
      forall i | 0 <= i < n && front[i].ToolCall?
        ensures i + 1 < n && front[i + 1].ToolResult? && front[i + 1].callId == front[i].id
      {
        assert all[i].ToolCall?;
        assert all[i + 1].ToolResult?;
      }
      forall i | 0 <= i < n && front[i].ToolResult?
        ensures i > 0 && front[i - 1].ToolCall? && front[i - 1].id == front[i].callId
      {
        assert all[i].ToolResult?;
      }
    }
    if Paired(front) {
      forall i | 0 <= i < |all| && all[i].ToolCall?
        ensures i + 1 < |all| && all[i + 1].ToolResult? && all[i + 1].callId == all[i].id
      {
        if i < n { assert front[i].ToolCall?; }
      }
      forall i | 0 <= i < |all| && all[i].ToolResult?
        ensures i > 0 && all[i - 1].ToolCall? && all[i - 1].id == all[i].callId
      {
        if i < n { assert front[i].ToolResult?; }
      }
    }
  }

  /** So a load after a crash gives whole pairs exactly when the log held pairs but
      for its last call. */
  lemma LoadPairs(id: string, c: Conversation, now: int)
    ensures Paired(FreshLoad(id, c, now).turns) <==> NearlyPaired(LoadTurns(c.log))
  {
    RepairPairs(Raw(id, c), now);
  }

  lemma {:induction false} ReplayIsThePairs(v: Snapshot, plan: seq<TraceEntry>, all: seq<nat>, clock: nat -> int)
    requires |all| == |plan| && forall i | 0 <= i < |all| :: all[i] == i
    ensures Replay(v, plan, clock).lastSeq == v.lastSeq + 2 * |plan|
    ensures |Replay(v, plan, clock).turns| == |v.turns| + 2 * |plan|
    ensures forall x | 0 <= x < |v.turns| :: Replay(v, plan, clock).turns[x] == v.turns[x]
    ensures forall x | 0 <= x < 2 * |plan| ::
              Untimed(Replay(v, plan, clock).turns[|v.turns| + x]) == Untimed(PairTurn(plan, all, x))
  {
    if plan != [] {
      var n := |plan| - 1;
      ReplayIsThePairs(v, plan[..n], all[..n], clock);
      forall x | 0 <= x < 2 * n
        ensures PairTurn(plan, all, x) == PairTurn(plan[..n], all[..n], x)
      {
        assert x / 2 < n;
      }
    }
  }

  /** When every step was journalled, in any order, reloading gives the turns
      and the last seq of the in-memory replay, up to timestamps, and the
      replayed turns sit at consecutive seqs after `base`. */
  lemma CompleteJournalEqualsReplay(
      s: Store, conv: string, base: nat, plan: seq<TraceEntry>, order: seq<nat>, clock: nat -> int, now: int)
    requires conv in s && Indices(order, |plan|)
    requires MaxSeq(s[conv].log) == base && Paired(LoadTurns(s[conv].log))
    requires forall i: nat | i < |plan| :: i in order
    ensures var s' := JournalAll(s, conv, base, plan, order);
            var replay := Replay(Raw(conv, s[conv]), plan, clock);
            && conv in s'
            && AllUntimed(FreshLoad(conv, s'[conv], now).turns) == AllUntimed(replay.turns)
            && FreshLoad(conv, s'[conv], now).lastSeq == replay.lastSeq
            && Ascending(s'[conv].log.Keys) == Ascending(s[conv].log.Keys) + Consecutive(base + 1, 2 * |plan|)
  {
    CompleteJournalReads(s, conv, base, plan, order, now);
    var read := FreshLoad(conv, JournalAll(s, conv, base, plan, order)[conv], now);
    ReplayTurns(Raw(conv, s[conv]), plan, Consecutive(0, |plan|), clock, read.turns);
  }

  lemma CompleteJournalReads(s: Store, conv: string, base: nat, plan: seq<TraceEntry>, order: seq<nat>, now: int)
    requires conv in s && Indices(order, |plan|)
    requires MaxSeq(s[conv].log) == base && Paired(LoadTurns(s[conv].log))
    requires forall i: nat | i < |plan| :: i in order
    ensures var s' := JournalAll(s, conv, base, plan, order);
            && conv in s'
            && FreshLoad(conv, s'[conv], now).turns == LoadTurns(s[conv].log) + PairTurns(plan, Consecutive(0, |plan|))
            && FreshLoad(conv, s'[conv], now).lastSeq == base + 2 * |plan|
            && Ascending(s'[conv].log.Keys) == Ascending(s[conv].log.Keys) + Consecutive(base + 1, 2 * |plan|)
  {
    JournalSurvivesACrash(s, conv, base, plan, order, now);
    AllIndices(order, |plan|);
    CompleteKeys(s[conv].log, JournalAll(s, conv, base, plan, order)[conv].log, base, |plan|);
  }

  lemma CompleteKeys(before: Log, after: Log, base: nat, n: nat)
    requires MaxSeq(before) == base
    requires Ascending(after.Keys) == Ascending(before.Keys) + PairSeqs(base, Consecutive(0, n))
    ensures Ascending(after.Keys) == Ascending(before.Keys) + Consecutive(base + 1, 2 * n)
    ensures MaxSeq(after) == base + 2 * n
  {
    hide Ascending, Consecutive, PairSeqs, MaxSeq;
    PairSeqsOfAll(base, Consecutive(0, n));
    MaxOfTail(before, after, base, 2 * n);
  }

  lemma AllIndices(order: seq<nat>, n: nat)
    requires Indices(order, n) && forall i: nat | i < n :: i in order
    ensures Ascending(Members(order)) == Consecutive(0, n)
  {
    AscendingIsUnique(Ascending(Members(order)), Consecutive(0, n));
  }

  lemma MaxOfTail(before: Log, after: Log, base: nat, n: nat)
    requires MaxSeq(before) == base
    requires Ascending(after.Keys) == Ascending(before.Keys) + Consecutive(base + 1, n)
    ensures MaxSeq(after) == base + n
  {
    var keys := Ascending(after.Keys);
    if n > 0 { assert keys[|keys| - 1] == base + n; }
  }

  function Consecutive(from: nat, n: nat): (r: seq<nat>)
    ensures |r| == n && forall i | 0 <= i < n :: r[i] == from + i
    ensures forall k: nat :: k in r <==> from <= k < from + n
  {
    if n == 0 then [] else Consecutive(from, n - 1) + [from + n - 1]
  }

  lemma PairSeqsOfAll(base: nat, all: seq<nat>)
    requires forall i | 0 <= i < |all| :: all[i] == i
    ensures PairSeqs(base, all) == Consecutive(base + 1, 2 * |all|)
  {
    var a, b := PairSeqs(base, all), Consecutive(base + 1, 2 * |all|);
    forall x | 0 <= x < |a| ensures a[x] == b[x] { }
  }

  lemma ReplayTurns(v: Snapshot, plan: seq<TraceEntry>, all: seq<nat>, clock: nat -> int, read: seq<Turn>)
    requires |all| == |plan| && forall i | 0 <= i < |all| :: all[i] == i
    requires read == v.turns + PairTurns(plan, all)
    ensures AllUntimed(read) == AllUntimed(Replay(v, plan, clock).turns)
    ensures Replay(v, plan, clock).lastSeq == v.lastSeq + 2 * |plan|
  {
    ReplayIsThePairs(v, plan, all, clock);
    var r := Replay(v, plan, clock).turns;
    forall x | 0 <= x < |read| ensures Untimed(read[x]) == Untimed(r[x]) {
      if x >= |v.turns| { assert read[x] == PairTurn(plan, all, x - |v.turns|); }
    }
    UntimedPointwise(read, r);
  }
}
