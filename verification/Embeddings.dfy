/** Re-ordering an embeddings answer by its index tags (`EmbeddingClient::embed`,
    crates/adapters/src/embeddings.rs). */
module Embeddings {
  import opened Collections
  import opened Options

  type Vector = seq<real>

  datatype Datum = Datum(embedding: Vector, index: nat)

  /** What came back over HTTP. */
  datatype Reply = TransportError | BadStatus(status: nat) | Unparsable | Parsed(data: seq<Datum>)

  datatype Error =
    | Transport
    | Backend(status: nat)
    | Serde
    | WrongCount(got: nat, want: nat)
    | OutOfRange(index: nat)
    | NoVector(input: nat)

  datatype Outcome = Ok(vectors: seq<Vector>) | Err(error: Error)

  /** The slots after an answer: a later datum overwrites an earlier one. */
  function Filled(n: nat, data: seq<Datum>): (slots: seq<Vector>)
    ensures |slots| == n
  {
    if data == [] then seq(n, _ => [])
    else
      var d := data[|data| - 1];
      var slots := Filled(n, data[..|data| - 1]);
      if d.index < n then slots[d.index := d.embedding] else slots
  }

  predicate InRange(n: nat, data: seq<Datum>) {
    forall i | 0 <= i < |data| :: data[i].index < n
  }

  /** The tags are a permutation of the inputs' positions, and no vector is empty. */
  predicate IsAnswer(n: nat, data: seq<Datum>) {
    && |data| == n
    && InRange(n, data)
    && (forall i, j | 0 <= i < j < n :: data[i].index != data[j].index)
    && (forall i | 0 <= i < n :: data[i].embedding != [])
  }

  method Embed(texts: seq<string>, reply: Reply) returns (r: Outcome)
    ensures texts == [] ==> r == Ok([])
    ensures texts != [] ==> (r.Ok? <==> reply.Parsed? && IsAnswer(|texts|, reply.data))
    ensures r.Ok? && texts != [] ==>
      |r.vectors| == |texts| && forall i | 0 <= i < |texts| :: r.vectors[reply.data[i].index] == reply.data[i].embedding
    ensures texts != [] ==> (reply.TransportError? <==> r == Err(Transport))
    ensures texts != [] ==> forall status :: reply == BadStatus(status) <==> r == Err(Backend(status))
    ensures texts != [] ==> (reply.Unparsable? <==> r == Err(Serde))
    ensures texts != [] && reply.Parsed? && |reply.data| != |texts| ==> r == Err(WrongCount(|reply.data|, |texts|))
    ensures r.Err? && r.error.NoVector? ==>
      && reply.Parsed? && r.error.input < |texts| && Filled(|texts|, reply.data)[r.error.input] == []
      && forall k | 0 <= k < r.error.input :: Filled(|texts|, reply.data)[k] != []
    ensures r.Err? && r.error.OutOfRange? ==>
      && reply.Parsed? && |reply.data| == |texts|
      && exists i :: 0 <= i < |reply.data| && reply.data[i].index == r.error.index >= |texts|
  {
    if texts == [] { return Ok([]); }
    match reply {
      case TransportError => return Err(Transport);
      case BadStatus(status) => return Err(Backend(status));
      case Unparsable => return Err(Serde);
      case Parsed(data) =>
        if |data| != |texts| { return Err(WrongCount(|data|, |texts|)); }
        var out := new Vector[|texts|](_ => []);
        for i := 0 to |data|
          invariant out[..] == Filled(|texts|, data[..i])
          invariant InRange(|texts|, data[..i])
        {
          assert data[..i + 1][..i] == data[..i];
          if data[i].index >= out.Length { return Err(OutOfRange(data[i].index)); }
          out[data[i].index] := data[i].embedding;
        }
        assert data[..|data|] == data;
        for k := 0 to out.Length
          invariant forall j | 0 <= j < k :: out[j] != []
        {
          if out[k] == [] {
            SlotsTell(|texts|, data);
            return Err(NoVector(k));
          }
        }
        SlotsTell(|texts|, data);
        return Ok(out[..]);
    }
  }

  /** A slot holds the vector of the last datum tagged with it, if any. */
  lemma {:induction false} SlotIs(n: nat, data: seq<Datum>, k: nat) returns (i: int)
    requires k < n
    ensures -1 <= i < |data|
    ensures i >= 0 ==> data[i].index == k && Filled(n, data)[k] == data[i].embedding
    ensures i == -1 ==> Filled(n, data)[k] == []
    ensures forall j | i < j < |data| :: data[j].index != k
  {
    if data == [] { return -1; }
    var last := |data| - 1;
    if data[last].index == k { return last; }
    i := SlotIs(n, data[..last], k);
  }

  /** `i` is the datum whose vector slot `k` holds. */
  predicate Holds(n: nat, data: seq<Datum>, k: nat, i: nat) {
    i < |data| && k < n && data[i].index == k && Filled(n, data)[k] == data[i].embedding
  }

  lemma HolderOf(n: nat, data: seq<Datum>, k: nat)
    requires k < n && Filled(n, data)[k] != []
    ensures exists i: nat :: Holds(n, data, k, i)
  {
    var i := SlotIs(n, data, k);
    assert Holds(n, data, k, i);
  }

  /** When every slot is filled by one of `n` data, the data fill one slot each. */
  lemma SlotsTell(n: nat, data: seq<Datum>)
    requires |data| == n && InRange(n, data)
    ensures (forall k | 0 <= k < n :: Filled(n, data)[k] != []) <==> IsAnswer(n, data)
    ensures IsAnswer(n, data) ==> forall i | 0 <= i < n :: Filled(n, data)[data[i].index] == data[i].embedding
  {
    if forall k | 0 <= k < n :: Filled(n, data)[k] != [] {
      var tags := Tags(data);
      forall k: nat | k < n ensures k in tags {
        HolderOf(n, data, k);
        var i: nat :| Holds(n, data, k, i);
        assert tags[i] == k;
      }
      Pigeonhole(tags, n);
      forall i | 0 <= i < n ensures data[i].embedding != [] {
        HolderOf(n, data, data[i].index);
        var j: nat :| Holds(n, data, data[i].index, j);
        assert tags[i] == tags[j];
      }
      forall i, j | 0 <= i < j < n ensures data[i].index != data[j].index { assert tags[i] != tags[j]; }
    }
    if IsAnswer(n, data) {
      forall i | 0 <= i < n ensures Filled(n, data)[data[i].index] == data[i].embedding {
        var j := SlotIs(n, data, data[i].index);
      }
      forall k | 0 <= k < n ensures Filled(n, data)[k] != [] {
        var tags := Tags(data);
        Covers(tags, n, k);
        var i :| 0 <= i < |tags| && tags[i] == k;
        var j := SlotIs(n, data, k);
        assert data[i].index == k && j >= i;
      }
    }
  }

  function Tags(data: seq<Datum>): (t: seq<nat>)
    ensures |t| == |data| && forall i | 0 <= i < |data| :: t[i] == data[i].index
  {
    seq(|data|, i requires 0 <= i < |data| => data[i].index)
  }

  function Below(n: nat): (s: set<nat>)
    ensures |s| == n && forall k: nat :: k in s <==> k < n
  {
    if n == 0 then {} else Below(n - 1) + {n - 1}
  }

  function Elements(t: seq<nat>): set<nat> { set i | 0 <= i < |t| :: t[i] }

  lemma {:induction false} FewElements(t: seq<nat>)
    ensures |Elements(t)| <= |t|
    ensures |Elements(t)| == |t| ==> forall i, j | 0 <= i < j < |t| :: t[i] != t[j]
  {
    if t != [] {
      var last := |t| - 1;
      FewElements(t[..last]);
      assert Elements(t) == Elements(t[..last]) + {t[last]};
      if |Elements(t)| == |t| {
        forall i, j | 0 <= i < j < |t| ensures t[i] != t[j] {
          if j == last { assert t[i] in Elements(t[..last]); } else { assert t[..last][i] != t[..last][j]; }
        }
      }
    }
  }

  /** `n` tags that cover `0..n` are distinct. */
  lemma Pigeonhole(t: seq<nat>, n: nat)
    requires |t| == n && forall k: nat | k < n :: k in t
    ensures forall i, j | 0 <= i < j < n :: t[i] != t[j]
  {
    FewElements(t);
    forall k | k in Below(n) ensures k in Elements(t) { assert k in t; }
    SubsetSize(Below(n), Elements(t));
  }

  lemma {:induction false} DistinctElements(t: seq<nat>)
    requires forall i, j | 0 <= i < j < |t| :: t[i] != t[j]
    ensures |Elements(t)| == |t|
  {
    if t != [] {
      var last := |t| - 1;
      DistinctElements(t[..last]);
      assert Elements(t) == Elements(t[..last]) + {t[last]};
      assert t[last] !in Elements(t[..last]);
    }
  }

  /** Conversely, `n` distinct tags below `n` cover `0..n`. */
  lemma Covers(t: seq<nat>, n: nat, k: nat)
    requires |t| == n && k < n && forall i | 0 <= i < n :: t[i] < n
    requires forall i, j | 0 <= i < j < n :: t[i] != t[j]
    ensures k in t
  {
    DistinctElements(t);
    assert Elements(t) <= Below(n);
    SubsetSize(Elements(t), Below(n));
    assert k in Elements(t);
  }
}
