/** The append-only turn log keyed by `(conversation, seq)`, and the in-memory
    conversation that is rebuilt from it (crates/storage/src/conversations.rs,
    crates/node/src/conversation.rs). */
module Conversations {
  import opened Options

  /** JSON values travel as their text. */
  type Json = string

  datatype Attachment = Attachment(hash: string, mime: string, size: nat, name: Option<string>)

  datatype Turn =
    | User(content: string, attachments: seq<Attachment>, ts: int)
    | Assistant(content: string, model: Option<string>, ts: int)
    | ToolCall(id: string, peer: string, capability: string, args: Json, ts: int)
    | ToolResult(callId: string, peer: string, capability: string,
                 result: Option<Json>, error: Option<string>, ts: int)
    | System(content: string, ts: int)

  /** A turn with its timestamp erased: the in-memory copy of a tool turn is
      stamped later than the row journalled for it. */
  function Untimed(t: Turn): Turn {
    t.(ts := 0)
  }

  function AllUntimed(ts: seq<Turn>): seq<Turn> {
    if ts == [] then [] else AllUntimed(ts[..|ts| - 1]) + [Untimed(ts[|ts| - 1])]
  }

  lemma {:induction false} UntimedLength(ts: seq<Turn>)
    ensures |AllUntimed(ts)| == |ts|
  {
    if ts != [] { UntimedLength(ts[..|ts| - 1]); }
  }

  lemma UntimedAppend(ts: seq<Turn>, t: Turn)
    ensures AllUntimed(ts + [t]) == AllUntimed(ts) + [Untimed(t)]
  {
    assert (ts + [t])[..|ts|] == ts;
  }

  /** Lists that match turn by turn, timestamps aside. */
  lemma {:induction false} UntimedPointwise(a: seq<Turn>, b: seq<Turn>)
    requires |a| == |b| && forall i | 0 <= i < |a| :: Untimed(a[i]) == Untimed(b[i])
    ensures AllUntimed(a) == AllUntimed(b)
  {
    if a != [] { UntimedPointwise(a[..|a| - 1], b[..|b| - 1]); }
  }

  // ---------------------------------------------------------------------
  // The log
  // ---------------------------------------------------------------------

  /** Rows by `seq`; the first row of a conversation has seq 1. */
  type Log = map<nat, Turn>

  datatype Conversation = Conversation(
    clientId: string, title: Option<string>, createdAt: int, updatedAt: int, log: Log)

  type Store = map<string, Conversation>

  datatype TurnRecord = TurnRecord(conv: string, seqNo: nat, turn: Turn)

  /** One INSERT of the transaction: the foreign key wants the conversation, the
      primary key wants a free `(conversation, seq)`. */
  function InsertTurn(s: Store, row: TurnRecord, updatedAt: int): Option<Store> {
    if row.conv !in s || row.seqNo in s[row.conv].log then None
    else
      var c := s[row.conv];
      Some(s[row.conv := c.(log := c.log[row.seqNo := row.turn], updatedAt := updatedAt)])
  }

  function InsertTurns(s: Store, rows: seq<TurnRecord>, updatedAt: int): Option<Store> {
    if rows == [] then Some(s)
    else
      match InsertTurn(s, rows[0], updatedAt)
      case None => None
      case Some(s') => InsertTurns(s', rows[1..], updatedAt)
  }

  predicate Fits(s: Store, rows: seq<TurnRecord>) {
    && (forall i | 0 <= i < |rows| :: rows[i].conv in s && rows[i].seqNo !in s[rows[i].conv].log)
    && (forall i, j | 0 <= i < j < |rows| :: rows[i].conv != rows[j].conv || rows[i].seqNo != rows[j].seqNo)
  }

  /** The log a committed batch leaves for conversation `c`. */
  function Written(c: string, log: Log, rows: seq<TurnRecord>): Log
    decreases rows
  {
    if rows == [] then log
    else if rows[0].conv == c then Written(c, log[rows[0].seqNo := rows[0].turn], rows[1..])
    else Written(c, log, rows[1..])
  }

  /** A batch commits exactly when every row finds its conversation and no two
      rows, old or new, share a `(conversation, seq)`; then every row is in and
      nothing else of any log moved. */
  lemma {:induction false} BatchIsAllOrNothing(s: Store, rows: seq<TurnRecord>, updatedAt: int)
    ensures InsertTurns(s, rows, updatedAt).Some? <==> Fits(s, rows)
    ensures Fits(s, rows) ==>
              var s' := InsertTurns(s, rows, updatedAt).value;
              && s'.Keys == s.Keys
              && forall c | c in s ::
                   && s'[c].log == Written(c, s[c].log, rows)
                   && s'[c].clientId == s[c].clientId
                   && s'[c].title == s[c].title
                   && s'[c].createdAt == s[c].createdAt
                   && s'[c].updatedAt
                      == if (exists i :: 0 <= i < |rows| && rows[i].conv == c) then updatedAt else s[c].updatedAt
  {
    if rows != [] && InsertTurn(s, rows[0], updatedAt).Some? {
      var s1 := InsertTurn(s, rows[0], updatedAt).value;
      BatchIsAllOrNothing(s1, rows[1..], updatedAt);
      if Fits(s1, rows[1..]) {
        forall i, j | 0 <= i < j < |rows|
          ensures rows[i].conv != rows[j].conv || rows[i].seqNo != rows[j].seqNo
        {
          assert rows[j] == rows[1..][j - 1];
          if i > 0 { assert rows[i] == rows[1..][i - 1]; }
        }
        forall i | 0 <= i < |rows|
          ensures rows[i].conv in s && rows[i].seqNo !in s[rows[i].conv].log
        {
          if i > 0 { assert rows[i] == rows[1..][i - 1]; }
        }
      }
      if Fits(s, rows) {
        assert Fits(s1, rows[1..]) by {
          forall i | 0 <= i < |rows[1..]|
            ensures rows[1..][i].conv in s1 && rows[1..][i].seqNo !in s1[rows[1..][i].conv].log
          {
            assert rows[1..][i] == rows[i + 1];
            assert rows[0].conv != rows[i + 1].conv || rows[0].seqNo != rows[i + 1].seqNo;
          }
        }
      }
    }
  }

  // ---------------------------------------------------------------------
  // Reading the log back in `seq` order
  // ---------------------------------------------------------------------

  predicate StrictlyAscending(r: seq<nat>) {
    forall i, j | 0 <= i < j < |r| :: r[i] < r[j]
  }

  lemma {:induction false} Largest(s: set<nat>) returns (m: nat)
    requires s != {}
    ensures m in s && forall k | k in s :: k <= m
  {
    var x :| x in s;
    var rest := s - {x};
    if rest == {} {
      m := x;
      assert s == {x};
    } else {
      var y := Largest(rest);
      m := if x < y then y else x;
      assert s == rest + {x};
    }
  }

  lemma MaxExists(s: set<nat>)
    requires s != {}
    ensures exists m :: m in s && forall k | k in s :: k <= m
  {
    var m := Largest(s);
  }

  /** The rows of `SELECT ... ORDER BY seq ASC`. */
  function Ascending(s: set<nat>): (r: seq<nat>)
    ensures StrictlyAscending(r)
    ensures forall k :: k in r <==> k in s
  {
    if s == {} then []
    else
      MaxExists(s);
      var m :| m in s && forall k | k in s :: k <= m;
      var rest := Ascending(s - {m});
      assert forall i | 0 <= i < |rest| :: rest[i] in rest;
      rest + [m]
  }

  /** A strictly ascending list is determined by its members. */
  lemma {:induction false} AscendingIsUnique(r: seq<nat>, s: seq<nat>)
    requires StrictlyAscending(r) && StrictlyAscending(s)
    requires forall k :: k in r <==> k in s
    ensures r == s
  {
    if r == [] {
      assert forall i | 0 <= i < |s| :: s[i] in s;
    } else {
      var m := r[|r| - 1];
      assert m in r;
      assert s[|s| - 1] in s;
      assert s[|s| - 1] == m;
      var r', s' := r[..|r| - 1], s[..|s| - 1];
      forall k ensures k in r' <==> k in s' {
        assert r == r' + [m] && s == s' + [m];
        assert m !in r' && m !in s';
        assert k in r <==> k in r' || k == m;
        assert k in s <==> k in s' || k == m;
      }
      AscendingIsUnique(r', s');
      assert r == r' + [m] && s == s' + [m];
    }
  }

  function LoadTurns(log: Log): (r: seq<Turn>)
    ensures |r| == |Ascending(log.Keys)|
    ensures forall i | 0 <= i < |r| :: r[i] == log[Ascending(log.Keys)[i]]
  {
    var keys := Ascending(log.Keys);
    seq(|keys|, i requires 0 <= i < |keys| => assert keys[i] in log; log[keys[i]])
  }

  /** The highest stored seq, 0 for an empty log (the loader starts from 0). */
  function MaxSeq(log: Log): (m: nat)
    ensures forall k | k in log :: k <= m
    ensures m == 0 || m in log
  {
    var keys := Ascending(log.Keys);
    if keys == [] then 0
    else
      assert forall k | k in log :: k in keys;
      keys[|keys| - 1]
  }

  /** Appending above every stored seq extends the reading by one turn. */
  lemma AppendReadsLast(log: Log, k: nat, t: Turn)
    requires forall j | j in log :: j < k
    ensures LoadTurns(log[k := t]) == LoadTurns(log) + [t]
    ensures MaxSeq(log[k := t]) == k
  {
    var log' := log[k := t];
    var keys := Ascending(log.Keys) + [k];
    assert forall i | 0 <= i < |keys| - 1 :: keys[i] in log;
    AscendingIsUnique(Ascending(log'.Keys), keys);
  }

  // ---------------------------------------------------------------------
  // The in-memory conversation
  // ---------------------------------------------------------------------

  /** A `ConversationState` by value, as the cache clones it. `lastSeq` is the
      source's `next_seq` field: the highest seq handed out. */
  datatype Snapshot = Snapshot(
    id: string, clientId: string, title: Option<string>, createdAt: int, updatedAt: int,
    turns: seq<Turn>, lastSeq: nat)

  const RESTARTED := "instance restarted before result was persisted"

  function Pushed(v: Snapshot, t: Turn): Snapshot {
    v.(turns := v.turns + [t], lastSeq := v.lastSeq + 1, updatedAt := t.ts)
  }

  predicate EndsInCall(turns: seq<Turn>) {
    turns != [] && turns[|turns| - 1].ToolCall?
  }

  /** The result `validate` invents for a call that never got one. */
  function SyntheticResult(call: Turn, now: int): Turn
    requires call.ToolCall?
  {
    ToolResult(call.id, call.peer, call.capability, None, Some(RESTARTED), now)
  }

  function Validated(v: Snapshot, now: int): Snapshot {
    if EndsInCall(v.turns) then Pushed(v, SyntheticResult(v.turns[|v.turns| - 1], now)) else v
  }

  /** The rows of a conversation as read, before `validate`. */
  function Raw(id: string, c: Conversation): Snapshot {
    Snapshot(id, c.clientId, c.title, c.createdAt, c.updatedAt, LoadTurns(c.log), MaxSeq(c.log))
  }

  function FreshLoad(id: string, c: Conversation, now: int): Snapshot {
    Validated(Raw(id, c), now)
  }

  datatype LoadError = NotFound | OwnershipMismatch

  datatype LoadResult = Loaded(state: Snapshot) | Refused(error: LoadError)

  /** The mutable conversation a dispatch works on. */
  class ConversationState {
    const id: string
    const clientId: string
    const title: Option<string>
    const createdAt: int
    var updatedAt: int
    var turns: seq<Turn>
    var lastSeq: nat

    constructor (v: Snapshot)
      ensures View() == v
    {
      id, clientId, title, createdAt := v.id, v.clientId, v.title, v.createdAt;
      updatedAt, turns, lastSeq := v.updatedAt, v.turns, v.lastSeq;
    }

    function View(): Snapshot
      reads this
    {
      Snapshot(id, clientId, title, createdAt, updatedAt, turns, lastSeq)
    }

    method Push(t: Turn)
      modifies this
      ensures View() == Pushed(old(View()), t)
      ensures turns == old(turns) + [t] && lastSeq == old(lastSeq) + 1 && updatedAt == t.ts
    {
      lastSeq := lastSeq + 1;
      updatedAt := t.ts;
      turns := turns + [t];
    }

    method Validate(now: int)
      modifies this
      ensures View() == Validated(old(View()), now)
      ensures !EndsInCall(old(turns)) ==> View() == old(View())
      ensures EndsInCall(old(turns)) ==>
                var call := old(turns)[|old(turns)| - 1];
                && turns == old(turns) + [ToolResult(call.id, call.peer, call.capability, None, Some(RESTARTED), now)]
                && lastSeq == old(lastSeq) + 1 && updatedAt == now
    {
      if |turns| > 0 && turns[|turns| - 1].ToolCall? {
        Push(SyntheticResult(turns[|turns| - 1], now));
      }
    }
  }

  /** The two tables behind the log. */
  class ConversationDb {
    var store: Store

    constructor ()
      ensures store == map[]
    {
      store := map[];
    }

    /** One transaction: all rows land, or the tables are as before. */
    method AppendTurns(rows: seq<TurnRecord>, updatedAt: int) returns (ok: bool)
      modifies this
      ensures ok <==> Fits(old(store), rows)
      ensures !ok ==> store == old(store)
      ensures ok ==> InsertTurns(old(store), rows, updatedAt) == Some(store)
      ensures ok ==> store.Keys == old(store).Keys
      ensures ok ==> forall c | c in store :: store[c].log == Written(c, old(store)[c].log, rows)
    {
      BatchIsAllOrNothing(store, rows, updatedAt);
      var tx := store;
      var i := 0;
      while i < |rows|
        invariant 0 <= i <= |rows|
        invariant InsertTurns(tx, rows[i..], updatedAt) == InsertTurns(store, rows, updatedAt)
      {
        match InsertTurn(tx, rows[i], updatedAt) {
          case None => return false;
          case Some(next) => tx := next;
        }
        assert rows[i..][1..] == rows[i + 1..];
        i := i + 1;
      }
      store := tx;
      ok := true;
    }

    /** The last turn, at the seq its push took. */
    method PersistLast(state: ConversationState) returns (ok: bool)
      modifies this
      ensures ok <==>
                && state.turns != [] && state.id in old(store)
                && state.lastSeq !in old(store)[state.id].log
      ensures !ok ==> store == old(store)
      ensures ok ==>
                var c := old(store)[state.id];
                store == old(store)[state.id := c.(log := c.log[state.lastSeq := state.turns[|state.turns| - 1]],
                                                   updatedAt := state.updatedAt)]
    {
      if state.turns == [] { return false; }
      var row := TurnRecord(state.id, state.lastSeq, state.turns[|state.turns| - 1]);
      assert InsertTurns(store, [row], state.updatedAt) == InsertTurn(store, row, state.updatedAt);
      ok := AppendTurns([row], state.updatedAt);
    }

    /** Header, ownership, then the rows in `seq` order and the crash repair. */
    method Load(id: string, clientId: string, now: int) returns (r: LoadResult)
      ensures id !in store ==> r == Refused(NotFound)
      ensures id in store && store[id].clientId != clientId ==> r == Refused(OwnershipMismatch)
      ensures id in store && store[id].clientId == clientId ==>
                r == Loaded(FreshLoad(id, store[id], now))
      ensures r.Loaded? ==>
                && (r.state.id, r.state.clientId, r.state.title, r.state.createdAt)
                   == (id, clientId, store[id].title, store[id].createdAt)
                && r.state.updatedAt == if EndsInCall(LoadTurns(store[id].log)) then now else store[id].updatedAt
    {
      if id !in store { return Refused(NotFound); }
      var c := store[id];
      if c.clientId != clientId { return Refused(OwnershipMismatch); }
      var rows := Ascending(c.log.Keys);
      var turns: seq<Turn> := [];
      var maxSeq: nat := 0;
      for i := 0 to |rows|
        invariant turns == LoadTurns(c.log)[..i]
        invariant maxSeq == if i == 0 then 0 else rows[i - 1]
      {
        assert rows[i] in c.log;
        turns := turns + [c.log[rows[i]]];
        if rows[i] > maxSeq { maxSeq := rows[i]; }
      }
      var state := new ConversationState(
        Snapshot(id, c.clientId, c.title, c.createdAt, c.updatedAt, turns, maxSeq));
      assert state.View() == Raw(id, c);
      state.Validate(now);
      r := Loaded(state.View());
    }
  }
}
