/** The blob endpoint: `PUT`, `GET`, `HEAD` and `DELETE` under tickets, peer
    quotas and retention (crates/server/src/blobs.rs), and the garbage collector
    (crates/server/src/blob_gc.rs). Each request is one step at one clock reading;
    tickets have passed the envelope and nonce checks. */
module BlobServer {
  import opened Options
  import opened Access
  import opened BlobIndex

  type Bytes = seq<bv8>

  const MAX_GRANTED_TTL_SECS: int := 7 * 24 * 60 * 60
  const DEFAULT_PER_PEER_BYTES: int := 100 * 1024 * 1024
  const DEFAULT_PER_PEER_BLOBS: int := 50

  datatype Operation = OpPut | OpGet | OpDelete

  datatype Ticket = Ticket(
    sender: string, nonce: string, operation: Operation, hash: Option<Hash>, expiresAt: int,
    capability: Option<string>, size: Option<nat>, mime: Option<string>, purpose: Role,
    requestedTtl: Option<nat>, whitelist: Option<seq<string>>)

  /** `access` is the registry's answer for the ticket's capability. */
  datatype Request =
    | Put(hash: Hash, ticket: Ticket, body: Bytes, access: Option<AccessMode>)
    | Get(hash: Hash, ticket: Ticket)
    | Head(hash: Hash)
    | Delete(hash: Hash, ticket: Ticket)

  datatype Response =
    | Refused(status: nat)
    | AlreadyStored(size: int, expiresAt: int)
    | Created(size: int, expiresAt: int)
    | Content(mime: string, size: int, bytes: Bytes)
    | Found(mime: string, size: int)
    | NoContent

  datatype Server = Server(rows: Rows, files: map<Hash, Bytes>)

  datatype Config = Config(index: Ctx, hashOf: Bytes -> Hash, validHash: Hash -> bool)

  /** One hour for inputs, a day for outputs. */
  function DefaultTtl(purpose: Role): (ttl: int)
    ensures purpose == Input ==> ttl == 3600
    ensures purpose == Output ==> ttl == 86400
  {
    if purpose == Input then INPUT_TTL else OUTPUT_TTL
  }

  /** A put ticket may ask for more than the default, up to a week. */
  function EffectiveExpires(t: Ticket, now: int): (r: int)
    ensures t.requestedTtl.None? ==> r == now + DefaultTtl(t.purpose)
    ensures t.requestedTtl.Some? ==>
      && (t.requestedTtl.value < DefaultTtl(t.purpose) ==> r == now + DefaultTtl(t.purpose))
      && (DefaultTtl(t.purpose) <= t.requestedTtl.value <= MAX_GRANTED_TTL_SECS ==> r == now + t.requestedTtl.value)
      && (t.requestedTtl.value > MAX_GRANTED_TTL_SECS ==> r == now + MAX_GRANTED_TTL_SECS)
  {
    var default_ := DefaultTtl(t.purpose);
    now + match t.requestedTtl
    case None => default_
    case Some(ttl) =>
      if ttl < default_ then default_
      else if ttl > MAX_GRANTED_TTL_SECS then MAX_GRANTED_TTL_SECS
      else ttl
  }

  /** The part of `verify_ticket` behind the nonce check; `None` when it passes. */
  function TicketError(t: Ticket, op: Operation, hash: Hash, now: int): Option<nat> {
    if t.operation != op then Some(400)
    else if t.expiresAt < now then Some(401)
    else if t.hash.Some? && t.hash.value != hash then Some(400)
    else None
  }

  // -------------------------------------------------------------------- quota

  /** The uploader's blobs that have not expired. */
  function Live(rows: Rows, uploader: string, now: int): set<Hash> {
    set h | h in rows && rows[h].uploader == Some(uploader) && rows[h].expiresAt > now
  }

  ghost function Total(rows: Rows, hs: set<Hash>): int
    requires hs <= rows.Keys
  {
    if hs == {} then 0
    else
      var h :| h in hs;
      rows[h].size + Total(rows, hs - {h})
  }

  /** The sum does not depend on the order of summation. */
  lemma {:induction false} TotalTakes(rows: Rows, hs: set<Hash>, h: Hash)
    requires h in hs && hs <= rows.Keys
    ensures Total(rows, hs) == rows[h].size + Total(rows, hs - {h})
    decreases hs
  {
    var g :| g in hs && Total(rows, hs) == rows[g].size + Total(rows, hs - {g});
    if g != h {
      TotalTakes(rows, hs - {g}, h);
      TotalTakes(rows, hs - {h}, g);
      assert hs - {g} - {h} == hs - {h} - {g};
    }
  }

  method SumBytesForUploader(rows: Rows, uploader: string, now: int) returns (sum: int)
    ensures sum == Total(rows, Live(rows, uploader, now))
  {
    var rest := Live(rows, uploader, now);
    sum := 0;
    while rest != {}
      invariant rest <= rows.Keys
      invariant sum + Total(rows, rest) == Total(rows, Live(rows, uploader, now))
      decreases rest
    {
      var h :| h in rest;
      TotalTakes(rows, rest, h);
      sum := sum + rows[h].size;
      rest := rest - {h};
    }
  }

  /** `check_peer_quota` lets `add` more bytes in. */
  ghost predicate QuotaAllows(rows: Rows, uploader: string, add: int, now: int) {
    && Total(rows, Live(rows, uploader, now)) + add <= DEFAULT_PER_PEER_BYTES
    && |Live(rows, uploader, now)| < DEFAULT_PER_PEER_BLOBS
  }

  // -------------------------------------------------------------------- steps

  datatype Decision = Refuse(status: nat) | Keep | Store

  predicate IsLive(rows: Rows, h: Hash, now: int) {
    h in rows && rows[h].expiresAt > now
  }

  ghost function DecidePut(cfg: Config, s: Server, now: int, r: Request): Decision
    requires r.Put?
  {
    var t := r.ticket;
    if !cfg.validHash(r.hash) then Refuse(400)
    else if TicketError(t, OpPut, r.hash, now).Some? then Refuse(TicketError(t, OpPut, r.hash, now).value)
    else if t.capability.None? || t.size.None? || t.mime.None? then Refuse(400)
    else if r.access.None? then Refuse(404)
    else if r.access == Some(Private) then Refuse(403)
    else if IsLive(s.rows, r.hash, now) then Keep
    else if |r.body| != t.size.value || cfg.hashOf(r.body) != r.hash then Refuse(400)
    else if !QuotaAllows(s.rows, t.sender, t.size.value, now) then Refuse(429)
    else Store
  }

  function PutEvent(now: int, r: Request): BlobIndex.Event
    requires r.Put? && r.ticket.capability.Some? && r.ticket.size.Some? && r.ticket.mime.Some?
  {
    var t := r.ticket;
    PeerPut(r.hash, t.size.value, t.mime.value, EffectiveExpires(t, now), t.capability.value, t.sender, t.nonce,
            t.whitelist, now)
  }

  predicate Lists(whitelist: Option<seq<string>>, sender: string) {
    whitelist.Some? && sender in whitelist.value
  }

  predicate Authorized(row: Row, sender: string) {
    row.uploader == Some(sender) || Lists(row.whitelist, sender)
  }

  ghost function Answer(cfg: Config, s: Server, now: int, r: Request): Response {
    if !cfg.validHash(r.hash) then Refused(400)
    else
      match r
      case Put(h, t, _, _) =>
        (match DecidePut(cfg, s, now, r)
         case Refuse(status) => Refused(status)
         case Keep => if h in s.rows then AlreadyStored(s.rows[h].size, s.rows[h].expiresAt) else Refused(500)
         case Store => Created(if t.size.Some? then t.size.value else 0, EffectiveExpires(t, now)))
      case Get(h, t) =>
        if TicketError(t, OpGet, h, now).Some? then Refused(TicketError(t, OpGet, h, now).value)
        else if !IsLive(s.rows, h, now) then Refused(404)
        else if !Authorized(s.rows[h], t.sender) then Refused(403)
        else if h !in s.files then Refused(404)
        else Content(s.rows[h].mime, s.rows[h].size, s.files[h])
      case Head(h) =>
        if IsLive(s.rows, h, now) then Found(s.rows[h].mime, s.rows[h].size) else Refused(404)
      case Delete(h, t) =>
        if TicketError(t, OpDelete, h, now).Some? then Refused(TicketError(t, OpDelete, h, now).value)
        else if h !in s.rows then Refused(404)
        else if s.rows[h].uploader != Some(t.sender) then Refused(403)
        else NoContent
  }

  ghost function After(cfg: Config, s: Server, now: int, r: Request): Server {
    match r
    case Put(h, t, body, _) =>
      if DecidePut(cfg, s, now, r).Store? then
        Server(BlobIndex.Apply(cfg.index, s.rows, PutEvent(now, r)), s.files[h := body])
      else s
    case Delete(h, t) =>
      if Answer(cfg, s, now, r).NoContent? then
        Server(BlobIndex.Apply(cfg.index, s.rows, PeerDelete(h, t.sender)), s.files - {h})
      else s
    case Get(h, _) =>
      if Answer(cfg, s, now, r).Content? then s.(rows := BlobIndex.Apply(cfg.index, s.rows, Read(h, now))) else s
    case Head(_) => s
  }

  function Collected(cfg: Config, s: Server, now: int): Server {
    var gone := Expired(s.rows, now);
    Server(BlobIndex.Apply(cfg.index, s.rows, Gc(now)), s.files - gone.Keys)
  }

  datatype Event = Serve(now: int, r: Request) | Collect(now: int)

  ghost function Step(cfg: Config, s: Server, e: Event): Server {
    match e
    case Serve(now, r) => After(cfg, s, now, r)
    case Collect(now) => Collected(cfg, s, now)
  }

  ghost function Run(cfg: Config, es: seq<Event>): Server {
    if es == [] then Server(map[], map[]) else Step(cfg, Run(cfg, es[..|es| - 1]), es[|es| - 1])
  }

  // -------------------------------------------------------- the source's handlers

  class BlobHandler {
    const cfg: Config
    const table: BlobTable
    var files: map<Hash, Bytes>

    ghost function State(): Server
      reads this, table
    {
      Server(table.rows, files)
    }

    constructor (cfg: Config)
      ensures State() == Server(map[], map[]) && fresh(table) && this.cfg == cfg
    {
      this.cfg := cfg;
      table := new BlobTable();
      files := map[];
    }

    method CheckPeerQuota(uploader: string, add: int, now: int) returns (ok: bool)
      ensures ok <==> QuotaAllows(table.rows, uploader, add, now)
    {
      var used := SumBytesForUploader(table.rows, uploader, now);
      if used + add > DEFAULT_PER_PEER_BYTES { return false; }
      return |Live(table.rows, uploader, now)| < DEFAULT_PER_PEER_BLOBS;
    }

    method PutBlob(now: int, r: Request) returns (a: Response)
      requires r.Put?
      modifies this, table
      ensures a == Answer(cfg, old(State()), now, r) && State() == After(cfg, old(State()), now, r)
    {
      var t := r.ticket;
      if !cfg.validHash(r.hash) { return Refused(400); }
      var err := TicketError(t, OpPut, r.hash, now);
      if err.Some? { return Refused(err.value); }
      if t.capability.None? || t.size.None? || t.mime.None? { return Refused(400); }
      if r.access.None? { return Refused(404); }
      if r.access == Some(Private) { return Refused(403); }
      if r.hash in table.rows && table.rows[r.hash].expiresAt > now {
        return AlreadyStored(table.rows[r.hash].size, table.rows[r.hash].expiresAt);
      }
      if |r.body| != t.size.value { return Refused(400); }
      if cfg.hashOf(r.body) != r.hash { return Refused(400); }
      var ok := CheckPeerQuota(t.sender, t.size.value, now);
      if !ok { return Refused(429); }
      files := files[r.hash := r.body];
      table.Upsert(r.hash, PutRow(cfg.index, PutEvent(now, r)), now);
      return Created(t.size.value, EffectiveExpires(t, now));
    }

    method GetBlob(now: int, r: Request) returns (a: Response)
      requires r.Get?
      modifies table
      ensures a == Answer(cfg, old(State()), now, r) && State() == After(cfg, old(State()), now, r)
    {
      if !cfg.validHash(r.hash) { return Refused(400); }
      var err := TicketError(r.ticket, OpGet, r.hash, now);
      if err.Some? { return Refused(err.value); }
      if r.hash !in table.rows { return Refused(404); }
      var row := table.rows[r.hash];
      if row.expiresAt <= now { return Refused(404); }
      if !Authorized(row, r.ticket.sender) { return Refused(403); }
      if r.hash !in files { return Refused(404); }
      table.Touch(r.hash, now);
      return Content(row.mime, row.size, files[r.hash]);
    }

    method HeadBlob(now: int, r: Request) returns (a: Response)
      requires r.Head?
      ensures a == Answer(cfg, State(), now, r)
    {
      if !cfg.validHash(r.hash) { return Refused(400); }
      if r.hash !in table.rows { return Refused(404); }
      var row := table.rows[r.hash];
      if row.expiresAt <= now { return Refused(404); }
      return Found(row.mime, row.size);
    }

    method DeleteBlob(now: int, r: Request) returns (a: Response)
      requires r.Delete?
      modifies this, table
      ensures a == Answer(cfg, old(State()), now, r) && State() == After(cfg, old(State()), now, r)
    {
      if !cfg.validHash(r.hash) { return Refused(400); }
      var err := TicketError(r.ticket, OpDelete, r.hash, now);
      if err.Some? { return Refused(err.value); }
      if r.hash !in table.rows { return Refused(404); }
      if table.rows[r.hash].uploader != Some(r.ticket.sender) { return Refused(403); }
      files := files - {r.hash};
      var _ := table.Delete(r.hash);
      return NoContent;
    }

    /** One tick of the background collector. */
    method Sweep(now: int)
      modifies this, table
      ensures State() == Collected(cfg, old(State()), now)
    {
      var gone := table.DeleteExpired(now);
      files := files - gone.Keys;
    }
  }
}
