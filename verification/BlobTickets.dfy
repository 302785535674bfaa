/** What a ticket opens, and what a request that goes through does: the answers of
    the blob endpoint by the conditions its callers can check. */
module BlobTickets {
  import opened Options
  import opened Access
  import BlobIndex
  import opened BlobServer

  type Hash = BlobIndex.Hash

  /** The ticket was issued for this operation, is still valid, and names this
      hash or none. */
  predicate Opens(t: Ticket, op: Operation, h: Hash, now: int) {
    t.operation == op && now <= t.expiresAt && (t.hash.None? || t.hash == Some(h))
  }

  /** A request with any other ticket is refused: 401 for an expired one of the
      right operation, 400 otherwise. */
  lemma OtherTicketsAreRefused(cfg: Config, s: Server, now: int, r: Request, op: Operation)
    requires cfg.validHash(r.hash) && !r.Head?
    requires op == if r.Put? then OpPut else if r.Get? then OpGet else OpDelete
    requires !Opens(r.ticket, op, r.hash, now)
    ensures Answer(cfg, s, now, r)
         == Refused(if r.ticket.operation == op && r.ticket.expiresAt < now then 401 else 400)
    ensures After(cfg, s, now, r) == s
  {
    hide QuotaAllows;
  }

  /** A hash that is not well-formed is refused whatever comes with it. */
  lemma BadHashesAreRefused(cfg: Config, s: Server, now: int, r: Request)
    requires !cfg.validHash(r.hash)
    ensures Answer(cfg, s, now, r) == Refused(400) && After(cfg, s, now, r) == s
  {
  }

  /** A download is served exactly to the uploader or a listed reader with a ticket
      for it, while the blob lives and its bytes are there. */
  lemma GetServes(cfg: Config, s: Server, now: int, h: Hash, t: Ticket)
    ensures Answer(cfg, s, now, Get(h, t)).Content? <==>
      && cfg.validHash(h) && Opens(t, OpGet, h, now)
      && h in s.rows && s.rows[h].expiresAt > now && h in s.files
      && (s.rows[h].uploader == Some(t.sender)
          || (s.rows[h].whitelist.Some? && t.sender in s.rows[h].whitelist.value))
    ensures Answer(cfg, s, now, Get(h, t)).Content? ==>
      Answer(cfg, s, now, Get(h, t)) == Content(s.rows[h].mime, s.rows[h].size, s.files[h])
    ensures cfg.validHash(h) && Opens(t, OpGet, h, now) && !Answer(cfg, s, now, Get(h, t)).Content? ==>
      Answer(cfg, s, now, Get(h, t))
      == Refused(if h in s.rows && s.rows[h].expiresAt > now && !Authorized(s.rows[h], t.sender) then 403 else 404)
  {
  }

  /** A served download only notes the access; any other changes nothing. */
  lemma GetOnlyTouches(cfg: Config, s: Server, now: int, h: Hash, t: Ticket, s': Server)
    requires s' == After(cfg, s, now, Get(h, t))
    ensures !Answer(cfg, s, now, Get(h, t)).Content? ==> s' == s
    ensures Answer(cfg, s, now, Get(h, t)).Content? ==>
      s' == s.(rows := s.rows[h := s.rows[h].(lastAccess := Some(now))])
  {
  }

  /** Headers need no ticket: found exactly while the blob lives. */
  lemma HeadServes(cfg: Config, s: Server, now: int, h: Hash)
    ensures Answer(cfg, s, now, Head(h)).Found? <==> cfg.validHash(h) && h in s.rows && s.rows[h].expiresAt > now
    ensures Answer(cfg, s, now, Head(h)).Found? ==>
      Answer(cfg, s, now, Head(h)) == Found(s.rows[h].mime, s.rows[h].size)
    ensures cfg.validHash(h) && !Answer(cfg, s, now, Head(h)).Found? ==> Answer(cfg, s, now, Head(h)) == Refused(404)
  {
  }

  /** Only the uploader deletes, expired or not; afterwards nobody finds the blob,
      and all others are as before. */
  lemma DeleteServes(cfg: Config, s: Server, now: int, h: Hash, t: Ticket, s': Server)
    requires s' == After(cfg, s, now, Delete(h, t))
    ensures Answer(cfg, s, now, Delete(h, t)).NoContent? <==>
      cfg.validHash(h) && Opens(t, OpDelete, h, now) && h in s.rows && s.rows[h].uploader == Some(t.sender)
    ensures Answer(cfg, s, now, Delete(h, t)).NoContent? ==>
      && h !in s'.rows && h !in s'.files
      && (forall g | g != h :: (g in s'.rows <==> g in s.rows) && (g in s'.files <==> g in s.files))
      && (forall g | g != h && g in s.rows :: s'.rows[g] == s.rows[g])
      && (forall g | g != h && g in s.files :: s'.files[g] == s.files[g])
    ensures Answer(cfg, s, now, Delete(h, t)).NoContent? ==>
      forall later: int :: Answer(cfg, s', later, Head(h)) == Refused(404)
    ensures !Answer(cfg, s, now, Delete(h, t)).NoContent? ==> s' == s
  {
    hide QuotaAllows;
  }

  /** The capability exists and lets peers upload. */
  predicate Accepts(access: Option<AccessMode>) { access == Some(Free) || access == Some(Restricted) }

  lemma ThreeModes(access: Option<AccessMode>)
    ensures Accepts(access) <==> access.Some? && access != Some(Private)
  {
    if access.Some? { assert access.value.Free? || access.value.Restricted? || access.value.Private?; }
  }

  /** What an upload has to bring before the store is looked at. */
  predicate Presents(cfg: Config, now: int, r: Request)
    requires r.Put?
  {
    && cfg.validHash(r.hash) && Opens(r.ticket, OpPut, r.hash, now)
    && r.ticket.capability.Some? && r.ticket.size.Some? && r.ticket.mime.Some? && Accepts(r.access)
  }

  /** The body is what the ticket and the hash say. */
  predicate IsBody(cfg: Config, r: Request)
    requires r.Put?
  {
    r.ticket.size == Some(|r.body|) && cfg.hashOf(r.body) == r.hash
  }

  /** An upload of a living blob is answered with what is stored, and stores
      nothing; any other is stored exactly when its body is right and the sender's
      quota allows it. */
  lemma PutServes(cfg: Config, s: Server, now: int, r: Request)
    requires r.Put?
    ensures Answer(cfg, s, now, r).AlreadyStored? <==>
      Presents(cfg, now, r) && r.hash in s.rows && s.rows[r.hash].expiresAt > now
    ensures Answer(cfg, s, now, r).AlreadyStored? ==>
      Answer(cfg, s, now, r) == AlreadyStored(s.rows[r.hash].size, s.rows[r.hash].expiresAt)
    ensures Answer(cfg, s, now, r).Created? <==>
      && Presents(cfg, now, r) && !(r.hash in s.rows && s.rows[r.hash].expiresAt > now)
      && IsBody(cfg, r) && QuotaAllows(s.rows, r.ticket.sender, |r.body|, now)
    ensures Answer(cfg, s, now, r).Created? ==>
      Answer(cfg, s, now, r) == Created(|r.body|, EffectiveExpires(r.ticket, now))
    ensures !Answer(cfg, s, now, r).Created? ==> After(cfg, s, now, r) == s
  {
    hide QuotaAllows;
    ThreeModes(r.access);
  }

  /** Every other outcome of an upload with a fitting ticket, by its reason. */
  lemma PutRefusals(cfg: Config, s: Server, now: int, r: Request)
    requires r.Put? && cfg.validHash(r.hash) && Opens(r.ticket, OpPut, r.hash, now)
    requires r.ticket.capability.Some? && r.ticket.size.Some? && r.ticket.mime.Some?
    ensures r.access.None? ==> Answer(cfg, s, now, r) == Refused(404)
    ensures r.access == Some(Private) ==> Answer(cfg, s, now, r) == Refused(403)
    ensures Accepts(r.access) && !(r.hash in s.rows && s.rows[r.hash].expiresAt > now) && !IsBody(cfg, r) ==>
      Answer(cfg, s, now, r) == Refused(400)
    ensures (&& Accepts(r.access) && !(r.hash in s.rows && s.rows[r.hash].expiresAt > now) && IsBody(cfg, r)
             && !QuotaAllows(s.rows, r.ticket.sender, |r.body|, now)) ==>
      Answer(cfg, s, now, r) == Refused(429)
  {
    hide QuotaAllows;
  }

  /** What was stored can be fetched: until it expires the uploader gets back the
      bytes, the size and the MIME type it sent, and everyone sees the header. */
  lemma PutThenGet(cfg: Config, s: Server, now: int, r: Request, s': Server, later: int, t: Ticket)
    requires r.Put? && Answer(cfg, s, now, r).Created? && s' == After(cfg, s, now, r)
    requires r.hash in s.rows ==> s.rows[r.hash].uploader == Some(r.ticket.sender)
    requires now <= later < EffectiveExpires(r.ticket, now)
    requires t.sender == r.ticket.sender && Opens(t, OpGet, r.hash, later)
    ensures r.ticket.mime.Some?
    ensures Answer(cfg, s', later, Get(r.hash, t)) == Content(r.ticket.mime.value, |r.body|, r.body)
    ensures Answer(cfg, s', later, Head(r.hash)) == Found(r.ticket.mime.value, |r.body|)
  {
    hide QuotaAllows;
  }
}
