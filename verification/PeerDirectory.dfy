/** The peer directory: the `peers` table (crates/storage/src/peers.rs), a
    descriptor refresh (crates/node/src/discovery.rs) and the reverse-announce
    of an inbound call (crates/node/src/handler.rs). */
module PeerDirectory {
  import opened Options

  type Id = string
  type Endpoint = string

  /** A peer's signed `describe_self` answer. */
  datatype Descriptor = Descriptor(id: Id, alias: Option<string>, body: string)

  datatype Peer = Peer(
    endpoint: Endpoint, alias: Option<string>, lastSeen: Option<int>, fingerprint: Option<string>,
    cached: Option<Descriptor>, fetchedAt: Option<int>, source: Option<string>)

  type Directory = map<Id, Peer>

  /** `INSERT … ON CONFLICT DO UPDATE`: the endpoint is replaced, a field the
      writer does not know keeps its old value. */
  function Upserted(rows: Directory, id: Id, p: Peer): Directory {
    if id !in rows then rows[id := p]
    else
      var q := rows[id];
      rows[id := Peer(
        p.endpoint, Coalesce(p.alias, q.alias), Coalesce(p.lastSeen, q.lastSeen),
        Coalesce(p.fingerprint, q.fingerprint),
        Coalesce(p.cached, q.cached), Coalesce(p.fetchedAt, q.fetchedAt), Coalesce(p.source, q.source))]
  }

  function AliasSet(rows: Directory, id: Id, alias: Option<string>): Directory {
    if id in rows then rows[id := rows[id].(alias := alias)] else rows
  }

  /** `refresh_peer`, given the answer of the endpoint (`None`: the call failed). */
  function Refreshed(rows: Directory, self: Id, e: Endpoint, answer: Option<Descriptor>, now: int): Directory {
    match answer
    case None => rows
    case Some(d) =>
      if d.id == self then rows
      else
        var record := Peer(e, d.alias, Some(now), None, Some(d), Some(now), Some("bootstrap"));
        AliasSet(Upserted(rows, d.id, record), d.id, d.alias)
  }

  /** What a served request does with the caller's claimed endpoint. */
  function Announced(rows: Directory, self: Id, sender: Id, claimed: Option<Endpoint>, now: int): Directory {
    if claimed.Some? && sender != self && claimed.value != "" then
      Upserted(rows, sender, Peer(claimed.value, None, Some(now), None, None, None, Some("reverse_announce")))
    else rows
  }

  class PeerTable {
    var rows: Directory

    constructor ()
      ensures rows == map[]
    {
      rows := map[];
    }

    method Upsert(id: Id, p: Peer)
      modifies this
      ensures rows == Upserted(old(rows), id, p)
    {
      if id in rows {
        var q := rows[id];
        rows := rows[id := Peer(
          p.endpoint, Coalesce(p.alias, q.alias), Coalesce(p.lastSeen, q.lastSeen),
          Coalesce(p.fingerprint, q.fingerprint),
          Coalesce(p.cached, q.cached), Coalesce(p.fetchedAt, q.fetchedAt), Coalesce(p.source, q.source))];
      } else {
        rows := rows[id := p];
      }
    }

    method SetAlias(id: Id, alias: Option<string>)
      modifies this
      ensures rows == AliasSet(old(rows), id, alias)
    {
      if id in rows { rows := rows[id := rows[id].(alias := alias)]; }
    }

    method Delete(id: Id) returns (found: bool)
      modifies this
      ensures rows == old(rows) - {id} && (found <==> id in old(rows))
    {
      found := id in rows;
      rows := rows - {id};
    }

    /** Returns the descriptor when the call succeeded, own descriptor included. */
    method Refresh(self: Id, e: Endpoint, answer: Option<Descriptor>, now: int) returns (r: Option<Descriptor>)
      modifies this
      ensures r == answer
      ensures rows == Refreshed(old(rows), self, e, answer, now)
    {
      if answer.None? { return None; }
      var d := answer.value;
      if d.id == self { return answer; }
      Upsert(d.id, Peer(e, d.alias, Some(now), None, Some(d), Some(now), Some("bootstrap")));
      SetAlias(d.id, d.alias);
      return answer;
    }

    method ReverseAnnounce(self: Id, sender: Id, claimed: Option<Endpoint>, now: int)
      modifies this
      ensures rows == Announced(old(rows), self, sender, claimed, now)
    {
      if claimed.Some? && sender != self && claimed.value != "" {
        Upsert(sender, Peer(claimed.value, None, Some(now), None, None, None, Some("reverse_announce")));
      }
    }
  }

  // -------------------------------------------------------------------- runs

  datatype Event =
    | Refresh(endpoint: Endpoint, answer: Option<Descriptor>, now: int)
    | Announce(sender: Id, claimed: Option<Endpoint>, now: int)
    | Delete(id: Id)

  function Apply(rows: Directory, self: Id, e: Event): Directory {
    match e
    case Refresh(endpoint, answer, now) => Refreshed(rows, self, endpoint, answer, now)
    case Announce(sender, claimed, now) => Announced(rows, self, sender, claimed, now)
    case Delete(id) => rows - {id}
  }

  /** The directory after a run that starts from an empty table. */
  function Run(self: Id, h: seq<Event>): Directory {
    if h == [] then map[] else Apply(Run(self, h[..|h| - 1]), self, h[|h| - 1])
  }

  /** The event fetched a descriptor of `id`. */
  predicate Fetches(e: Event, id: Id) {
    e.Refresh? && e.answer.Some? && e.answer.value.id == id
  }

  /** The event learned where `id` lives. */
  predicate Contacts(e: Event, id: Id) {
    Fetches(e, id) || (e.Announce? && e.sender == id && e.claimed.Some? && e.claimed.value != "")
  }

  function ContactPoint(e: Event): Endpoint
    requires !e.Delete? && (e.Announce? ==> e.claimed.Some?)
  {
    if e.Refresh? then e.endpoint else e.claimed.value
  }

  /** Event `i` is the last fetch of `id`, and no deletion came after it. */
  predicate LatestFetch(h: seq<Event>, id: Id, i: nat) {
    i < |h| && Fetches(h[i], id) && forall j | i < j < |h| :: !Fetches(h[j], id) && h[j] != Delete(id)
  }

  predicate LatestContact(h: seq<Event>, id: Id, i: nat) {
    i < |h| && Contacts(h[i], id) && forall j | i < j < |h| :: !Contacts(h[j], id) && h[j] != Delete(id)
  }

  /** After every run this instance is not in its own directory. */
  lemma {:induction false} SelfIsNeverAPeer(self: Id, h: seq<Event>)
    ensures self !in Run(self, h)
  {
    if h != [] { SelfIsNeverAPeer(self, h[..|h| - 1]); }
  }

  /** The latest index below the last event, seen from one event earlier. */
  lemma FetchBefore(h: seq<Event>, id: Id, i: nat)
    requires h != [] && i < |h| - 1
    ensures LatestFetch(h, id, i) <==>
      LatestFetch(h[..|h| - 1], id, i) && !Fetches(h[|h| - 1], id) && h[|h| - 1] != Delete(id)
  {
  }

  lemma ContactBefore(h: seq<Event>, id: Id, i: nat)
    requires h != [] && i < |h| - 1
    ensures LatestContact(h, id, i) <==>
      LatestContact(h[..|h| - 1], id, i) && !Contacts(h[|h| - 1], id) && h[|h| - 1] != Delete(id)
  {
  }

  /** A row's alias, cached descriptor and fetch time are those of the last
      descriptor fetched since the row was created, whatever announces came
      between. */
  lemma {:induction false} FetchedIsLatest(self: Id, h: seq<Event>, id: Id, i: nat)
    requires id != self && LatestFetch(h, id, i)
    ensures id in Run(self, h)
    ensures var row, d := Run(self, h)[id], h[i].answer.value;
      row.alias == d.alias && row.cached == Some(d) && row.fetchedAt == Some(h[i].now)
  {
    if i < |h| - 1 {
      FetchBefore(h, id, i);
      FetchedIsLatest(self, h[..|h| - 1], id, i);
    }
  }

  /** A row no descriptor was fetched for since its creation has no alias and
      no descriptor: a deletion leaves nothing behind. */
  lemma {:induction false} NothingWithoutFetch(self: Id, h: seq<Event>, id: Id)
    requires id in Run(self, h) && forall i: nat :: !LatestFetch(h, id, i)
    ensures var row := Run(self, h)[id]; row.alias.None? && row.cached.None? && row.fetchedAt.None?
  {
    var g := h[..|h| - 1];
    assert !LatestFetch(h, id, |h| - 1);
    if id in Run(self, g) && h[|h| - 1] != Delete(id) {
      forall i: nat ensures !LatestFetch(g, id, i) {
        if i < |g| { FetchBefore(h, id, i); }
      }
      NothingWithoutFetch(self, g, id);
    }
  }

  /** A peer is listed exactly when some call contacted it after its last
      deletion, under the endpoint and time of the latest such contact. */
  lemma {:induction false} ListedIsContacted(self: Id, h: seq<Event>, id: Id)
    requires id != self
    ensures id in Run(self, h) <==> exists i: nat :: LatestContact(h, id, i)
    ensures forall i: nat | LatestContact(h, id, i) ::
      && id in Run(self, h)
      && Run(self, h)[id].endpoint == ContactPoint(h[i]) && Run(self, h)[id].lastSeen == Some(h[i].now)
      && Run(self, h)[id].source == Some(if h[i].Refresh? then "bootstrap" else "reverse_announce")
  {
    if h != [] {
      var n := |h| - 1;
      var g := h[..n];
      ListedIsContacted(self, g, id);
      forall i: nat | LatestContact(h, id, i)
        ensures id in Run(self, h) && Run(self, h)[id].endpoint == ContactPoint(h[i])
        ensures Run(self, h)[id].lastSeen == Some(h[i].now)
        ensures Run(self, h)[id].source == Some(if h[i].Refresh? then "bootstrap" else "reverse_announce")
      {
        if i < n { ContactBefore(h, id, i); }
      }
      if id in Run(self, h) {
        if Contacts(h[n], id) {
          assert LatestContact(h, id, n);
        } else {
          assert id in Run(self, g);
          var i: nat :| LatestContact(g, id, i);
          ContactBefore(h, id, i);
        }
      }
    }
  }
}
