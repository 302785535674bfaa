/** What the blob endpoint keeps over whole runs: content integrity, peer quotas,
    and a garbage collector nobody can observe. */
module BlobServerRuns {
  import opened Options
  import BlobIndex
  import opened BlobServer
  import Access

  type Hash = BlobIndex.Hash
  type Rows = BlobIndex.Rows

  /** The clock never runs backwards, and `now` is not before any event. */
  predicate Ordered(es: seq<Event>, now: int) {
    es == [] || (es[|es| - 1].now <= now && Ordered(es[..|es| - 1], es[|es| - 1].now))
  }

  /** Each hash is PUT by a single peer, its owner. */
  predicate OwnPut(e: Event, owner: Hash -> string) {
    e.Serve? && e.r.Put? ==> e.r.ticket.sender == owner(e.r.hash)
  }

  predicate SinglePutter(es: seq<Event>, owner: Hash -> string) {
    forall i | 0 <= i < |es| :: OwnPut(es[i], owner)
  }

  // ---- integrity

  /** An indexed blob has its bytes on disk, under their own hash and size. */
  predicate IntactAt(cfg: Config, s: Server, h: Hash) {
    h in s.rows && h in s.files && cfg.hashOf(s.files[h]) == h && s.rows[h].size == |s.files[h]|
  }

  predicate Intact(cfg: Config, s: Server) {
    forall h | h in s.rows :: IntactAt(cfg, s, h)
  }

  lemma StepIntact(cfg: Config, s: Server, e: Event)
    requires Intact(cfg, s)
    ensures Intact(cfg, Step(cfg, s, e))
  {
    var s' := Step(cfg, s, e);
    forall h | h in s'.rows ensures IntactAt(cfg, s', h) {
      if h in s.rows { assert IntactAt(cfg, s, h); }
    }
  }

  lemma {:induction false} RunIntact(cfg: Config, es: seq<Event>)
    ensures Intact(cfg, Run(cfg, es))
  {
    if es != [] {
      RunIntact(cfg, es[..|es| - 1]);
      StepIntact(cfg, Run(cfg, es[..|es| - 1]), es[|es| - 1]);
    }
  }

  /** In every reachable state a download returns bytes of the hash asked for,
      all of them; and a blob whose header is served to its uploader can be
      downloaded. */
  lemma DownloadsAreAuthentic(cfg: Config, es: seq<Event>, now: int, h: Hash, t: Ticket, a: Response)
    requires a == Answer(cfg, Run(cfg, es), now, Get(h, t))
    ensures a.Content? ==> cfg.hashOf(a.bytes) == h && a.size == |a.bytes|
    ensures (Answer(cfg, Run(cfg, es), now, Head(h)).Found? && TicketError(t, OpGet, h, now).None?
             && Run(cfg, es).rows[h].uploader == Some(t.sender)) ==> a.Content?
  {
    RunIntact(cfg, es);
    var s := Run(cfg, es);
    if h in s.rows { assert IntactAt(cfg, s, h); }
  }

  /** Every file belongs to a row and every row has its file: nothing is left behind. */
  predicate Tidy(s: Server) { s.files.Keys == s.rows.Keys }

  lemma StepTidy(cfg: Config, s: Server, e: Event)
    requires Tidy(s)
    ensures Tidy(Step(cfg, s, e))
  {
    hide QuotaAllows, TicketError;
  }

  lemma {:induction false} FilesMatchRows(cfg: Config, es: seq<Event>)
    ensures Tidy(Run(cfg, es))
  {
    if es != [] {
      FilesMatchRows(cfg, es[..|es| - 1]);
      StepTidy(cfg, Run(cfg, es[..|es| - 1]), es[|es| - 1]);
    }
  }

  /** A collection removes exactly the expired blobs, files and rows, and touches no
      other. */
  lemma SweepIsExact(cfg: Config, s: Server, now: int, s': Server)
    requires Tidy(s) && s' == Collected(cfg, s, now)
    ensures forall h :: h in s'.rows <==> h in s.rows && s.rows[h].expiresAt > now
    ensures forall h :: h in s'.files <==> h in s.rows && s.rows[h].expiresAt > now
    ensures forall h | h in s'.rows :: s'.rows[h] == s.rows[h]
    ensures forall h | h in s'.files :: s'.files[h] == s.files[h]
  {
    assert forall h :: h in s.files <==> h in s.rows;
  }

  // ---- ownership

  predicate Owned(s: Server, owner: Hash -> string) {
    forall h | h in s.rows :: s.rows[h].uploader == Some(owner(h))
  }

  lemma StepOwned(cfg: Config, s: Server, e: Event, owner: Hash -> string)
    requires Owned(s, owner) && OwnPut(e, owner)
    ensures Owned(Step(cfg, s, e), owner)
  {
  }

  lemma {:induction false} RunOwned(cfg: Config, es: seq<Event>, owner: Hash -> string)
    requires SinglePutter(es, owner)
    ensures Owned(Run(cfg, es), owner)
  {
    if es != [] {
      RunOwned(cfg, es[..|es| - 1], owner);
      StepOwned(cfg, Run(cfg, es[..|es| - 1]), es[|es| - 1], owner);
    }
  }

  // ---- quotas

  ghost predicate PeerWithinQuota(rows: Rows, u: string, now: int) {
    && |Live(rows, u, now)| <= DEFAULT_PER_PEER_BLOBS
    && Total(rows, Live(rows, u, now)) <= DEFAULT_PER_PEER_BYTES
  }

  predicate Sized(rows: Rows) {
    forall h | h in rows :: rows[h].size >= 0
  }

  /** Sums over tables that agree on the keys summed. */
  lemma {:induction false} TotalAgrees(r1: Rows, r2: Rows, hs: set<Hash>)
    requires hs <= r1.Keys && hs <= r2.Keys && forall h | h in hs :: r1[h].size == r2[h].size
    ensures Total(r1, hs) == Total(r2, hs)
    decreases hs
  {
    if hs != {} {
      var h :| h in hs;
      TotalTakes(r1, hs, h);
      TotalTakes(r2, hs, h);
      TotalAgrees(r1, r2, hs - {h});
    }
  }

  lemma {:induction false} TotalGrows(rows: Rows, a: set<Hash>, b: set<Hash>)
    requires a <= b && b <= rows.Keys && Sized(rows)
    ensures Total(rows, a) <= Total(rows, b) && |a| <= |b|
    decreases b
  {
    if a != b {
      assert !(b <= a);
      var h :| h in b && h !in a;
      TotalTakes(rows, b, h);
      TotalGrows(rows, a, b - {h});
    } else {
      assert |a| == |b|;
    }
  }

  predicate SameHolding(a: BlobIndex.Row, b: BlobIndex.Row) {
    (a.uploader, a.size, a.expiresAt) == (b.uploader, b.size, b.expiresAt)
  }

  /** Losing rows, or growing older, only lowers what a peer holds. */
  lemma FewerWithinQuota(rows: Rows, rows': Rows, u: string, now: int, now': int)
    requires Sized(rows) && PeerWithinQuota(rows, u, now) && now <= now'
    requires forall h | h in rows' :: h in rows && SameHolding(rows'[h], rows[h])
    ensures PeerWithinQuota(rows', u, now')
  {
    var a, b := Live(rows', u, now'), Live(rows, u, now);
    assert a <= b;
    TotalGrows(rows, a, b);
    TotalAgrees(rows, rows', a);
  }

  /** Whom the bytes of a granted upload count against: a row that is still
      there keeps its first uploader. */
  function Payer(s: Server, r: Request): Option<string>
    requires r.Put?
  {
    if r.hash in s.rows then s.rows[r.hash].uploader else Some(r.ticket.sender)
  }

  lemma StoredRow(cfg: Config, s: Server, now: int, r: Request, rows': Rows)
    requires r.Put? && DecidePut(cfg, s, now, r).Store? && rows' == After(cfg, s, now, r).rows
    ensures rows'.Keys == s.rows.Keys + {r.hash} && !IsLive(s.rows, r.hash, now) && IsLive(rows', r.hash, now)
    ensures forall h | h in s.rows && h != r.hash :: rows'[h] == s.rows[h]
    ensures r.ticket.size.Some? && QuotaAllows(s.rows, r.ticket.sender, r.ticket.size.value, now)
    ensures rows'[r.hash].uploader == Payer(s, r) && rows'[r.hash].size == r.ticket.size.value
    ensures rows'[r.hash].expiresAt == EffectiveExpires(r.ticket, now) && Some(rows'[r.hash].mime) == r.ticket.mime
    ensures rows'[r.hash].whitelist == if r.hash in s.rows then s.rows[r.hash].whitelist else r.ticket.whitelist
  {
    hide QuotaAllows, TicketError;
  }

  /** The exact effect of a granted upload on a peer within its quota: it stays
      within if and only if, in case a row of its own is written over, the new
      bytes fit its own quota, whoever sent them. */
  lemma PutKeepsQuota(cfg: Config, s: Server, now: int, r: Request, u: string)
    requires r.Put? && DecidePut(cfg, s, now, r).Store? && PeerWithinQuota(s.rows, u, now)
    ensures r.ticket.size.Some?
    ensures PeerWithinQuota(After(cfg, s, now, r).rows, u, now)
       <==> (r.hash in s.rows && s.rows[r.hash].uploader == Some(u) ==>
               QuotaAllows(s.rows, u, r.ticket.size.value, now))
  {
    var rows' := After(cfg, s, now, r).rows;
    StoredRow(cfg, s, now, r, rows');
    hide After, DecidePut, QuotaAllows, PeerWithinQuota;
    OneMoreWithinQuota(s.rows, rows', r.hash, u, now);
  }

  lemma OneMoreWithinQuota(rows: Rows, rows': Rows, h: Hash, u: string, now: int)
    requires rows'.Keys == rows.Keys + {h} && !IsLive(rows, h, now) && IsLive(rows', h, now)
    requires forall g | g in rows && g != h :: rows'[g] == rows[g]
    ensures rows'[h].uploader == Some(u) ==>
      (PeerWithinQuota(rows', u, now) <==> QuotaAllows(rows, u, rows'[h].size, now))
    ensures rows'[h].uploader != Some(u) ==> (PeerWithinQuota(rows', u, now) <==> PeerWithinQuota(rows, u, now))
  {
    hide PeerWithinQuota, QuotaAllows, Live, IsLive;
    OneMoreLive(rows, rows', h, u, now);
    LiveSizes(rows, rows', h, u, now);
    if rows'[h].uploader == Some(u) {
      HoldsOneMore(rows, rows', h, u, now, Live(rows, u, now));
    } else {
      HoldsTheSame(rows, rows', u, now, Live(rows, u, now));
    }
  }

  lemma LiveSizes(rows: Rows, rows': Rows, h: Hash, u: string, now: int)
    requires rows'.Keys == rows.Keys + {h} && !IsLive(rows, h, now)
    requires forall g | g in rows && g != h :: rows'[g] == rows[g]
    ensures Live(rows, u, now) <= rows.Keys && forall g | g in Live(rows, u, now) :: rows'[g].size == rows[g].size
  {
  }

  lemma HoldsOneMore(rows: Rows, rows': Rows, h: Hash, u: string, now: int, live: set<Hash>)
    requires live == Live(rows, u, now) && live <= rows.Keys && h !in live && rows'.Keys == rows.Keys + {h}
    requires Live(rows', u, now) == live + {h} && forall g | g in live :: rows'[g].size == rows[g].size
    ensures PeerWithinQuota(rows', u, now) <==> QuotaAllows(rows, u, rows'[h].size, now)
  {
    hide Total, Live;
    TotalWithOne(rows, rows', live, h);
  }

  lemma HoldsTheSame(rows: Rows, rows': Rows, u: string, now: int, live: set<Hash>)
    requires live == Live(rows, u, now) == Live(rows', u, now) && live <= rows.Keys && live <= rows'.Keys
    requires forall g | g in live :: rows'[g].size == rows[g].size
    ensures PeerWithinQuota(rows', u, now) <==> PeerWithinQuota(rows, u, now)
  {
    hide Total, Live;
    TotalAgrees(rows, rows', live);
  }

  lemma TotalWithOne(rows: Rows, rows': Rows, hs: set<Hash>, h: Hash)
    requires hs <= rows.Keys && h !in hs && hs + {h} <= rows'.Keys
    requires forall g | g in hs :: rows'[g].size == rows[g].size
    ensures Total(rows', hs) == Total(rows, hs)
    ensures Total(rows', hs + {h}) == Total(rows, hs) + rows'[h].size && |hs + {h}| == |hs| + 1
  {
    hide Total;
    TotalAgrees(rows, rows', hs);
    TotalTakes(rows', hs + {h}, h);
    assert hs + {h} - {h} == hs;
  }

  lemma OneMoreLive(rows: Rows, rows': Rows, h: Hash, u: string, now: int)
    requires rows'.Keys == rows.Keys + {h} && !IsLive(rows, h, now) && IsLive(rows', h, now)
    requires forall g | g in rows && g != h :: rows'[g] == rows[g]
    ensures h !in Live(rows, u, now) && Live(rows, u, now) <= rows.Keys
    ensures rows'[h].uploader == Some(u) ==> Live(rows', u, now) == Live(rows, u, now) + {h}
    ensures rows'[h].uploader != Some(u) ==> Live(rows', u, now) == Live(rows, u, now)
  {
  }

  /** The event does not write more over a row of `u` than `u` may hold: what the
      handler would have to check besides the sender's quota. */
  ghost predicate Covered(cfg: Config, s: Server, e: Event, u: string) {
    (&& e.Serve? && e.r.Put? && e.r.hash in s.rows && s.rows[e.r.hash].uploader == Some(u)
     && DecidePut(cfg, s, e.now, e.r).Store? && e.r.ticket.size.Some?)
    ==> QuotaAllows(s.rows, u, e.r.ticket.size.value, e.now)
  }

  lemma StepWithinQuota(cfg: Config, s: Server, e: Event, u: string)
    requires Intact(cfg, s) && PeerWithinQuota(s.rows, u, e.now)
    ensures PeerWithinQuota(Step(cfg, s, e).rows, u, e.now) <==> Covered(cfg, s, e, u)
  {
    if e.Serve? && e.r.Put? && DecidePut(cfg, s, e.now, e.r).Store? {
      PutKeepsQuota(cfg, s, e.now, e.r, u);
    } else {
      SizedRows(cfg, s);
      FewerWithinQuota(s.rows, Step(cfg, s, e).rows, u, e.now, e.now);
    }
  }

  /** Every upload of the run is covered; the peer is within quota after every event. */
  ghost predicate AllCovered(cfg: Config, es: seq<Event>, u: string) {
    es == [] || (AllCovered(cfg, es[..|es| - 1], u) && Covered(cfg, Run(cfg, es[..|es| - 1]), es[|es| - 1], u))
  }

  ghost predicate AlwaysWithin(cfg: Config, es: seq<Event>, u: string) {
    es == [] || (AlwaysWithin(cfg, es[..|es| - 1], u) && PeerWithinQuota(Run(cfg, es).rows, u, es[|es| - 1].now))
  }

  /** Exactly when quotas hold: over any run a peer never holds more than 100 MiB
      or 50 unexpired blobs if and only if no upload writes more over one of its
      rows than its own quota allows; and then it holds no more at any later time. */
  lemma {:induction false} QuotaHoldsExactly(cfg: Config, es: seq<Event>, now: int, u: string)
    requires Ordered(es, now)
    ensures AlwaysWithin(cfg, es, u) <==> AllCovered(cfg, es, u)
    ensures AllCovered(cfg, es, u) ==> PeerWithinQuota(Run(cfg, es).rows, u, now)
  {
    hide Step, Covered, Intact, PeerWithinQuota;
    if es == [] {
      NothingHeld(u, now);
    } else {
      var front, e := es[..|es| - 1], es[|es| - 1];
      QuotaHoldsExactly(cfg, front, e.now, u);
      if AllCovered(cfg, front, u) {
        RunIntact(cfg, front);
        StepWithinQuota(cfg, Run(cfg, front), e, u);
        if Covered(cfg, Run(cfg, front), e, u) {
          RunIntact(cfg, es);
          SizedRows(cfg, Run(cfg, es));
          FewerWithinQuota(Run(cfg, es).rows, Run(cfg, es).rows, u, e.now, now);
        }
      }
    }
  }

  lemma NothingHeld(u: string, now: int)
    ensures PeerWithinQuota(map[], u, now)
  {
    assert Live(map[], u, now) == {};
  }

  lemma {:induction false} SinglePutterCovers(cfg: Config, es: seq<Event>, u: string, owner: Hash -> string)
    requires SinglePutter(es, owner)
    ensures AllCovered(cfg, es, u)
  {
    if es != [] {
      SinglePutterCovers(cfg, es[..|es| - 1], u, owner);
      RunOwned(cfg, es[..|es| - 1], owner);
      assert OwnPut(es[|es| - 1], owner);
    }
  }

  /** In particular, when each hash is PUT by one peer, no peer ever exceeds its quota. */
  lemma QuotasHold(cfg: Config, es: seq<Event>, now: int, u: string, owner: Hash -> string)
    requires Ordered(es, now) && SinglePutter(es, owner)
    ensures AlwaysWithin(cfg, es, u) && PeerWithinQuota(Run(cfg, es).rows, u, now)
  {
    SinglePutterCovers(cfg, es, u, owner);
    QuotaHoldsExactly(cfg, es, now, u);
  }

  lemma SizedRows(cfg: Config, s: Server)
    requires Intact(cfg, s)
    ensures Sized(s.rows)
  {
    forall h | h in s.rows ensures s.rows[h].size >= 0 { assert IntactAt(cfg, s, h); }
  }

  // ---- garbage collection

  function WithoutGc(es: seq<Event>): seq<Event> {
    if es == [] then []
    else WithoutGc(es[..|es| - 1]) + if es[|es| - 1].Collect? then [] else [es[|es| - 1]]
  }

  /** The two states agree on `h` if it has not expired. */
  predicate AgreeAt(s1: Server, s2: Server, h: Hash, now: int) {
    && (IsLive(s1.rows, h, now) <==> IsLive(s2.rows, h, now))
    && (IsLive(s1.rows, h, now) && IsLive(s2.rows, h, now) ==>
          && s1.rows[h].size == s2.rows[h].size
          && s1.rows[h].mime == s2.rows[h].mime
          && s1.rows[h].expiresAt == s2.rows[h].expiresAt
          && h in s1.files && h in s2.files && s1.files[h] == s2.files[h])
  }

  ghost predicate Agree(s1: Server, s2: Server, now: int) {
    forall h: Hash :: AgreeAt(s1, s2, h, now)
  }

  lemma AgreeLater(s1: Server, s2: Server, now: int, later: int)
    requires Agree(s1, s2, now) && now <= later
    ensures Agree(s1, s2, later)
  {
    forall h: Hash ensures AgreeAt(s1, s2, h, later) { assert AgreeAt(s1, s2, h, now); }
  }

  lemma AgreeThrough(s1: Server, s0: Server, s2: Server, now: int)
    requires Agree(s1, s0, now) && Agree(s2, s0, now)
    ensures Agree(s1, s2, now)
  {
    forall h: Hash ensures AgreeAt(s1, s2, h, now) {
      assert AgreeAt(s1, s0, h, now) && AgreeAt(s2, s0, h, now);
    }
  }

  lemma CollectAgrees(cfg: Config, s1: Server, s2: Server, now: int)
    requires Agree(s1, s2, now)
    ensures Agree(Collected(cfg, s1, now), s2, now)
  {
    forall h: Hash ensures AgreeAt(Collected(cfg, s1, now), s2, h, now) { assert AgreeAt(s1, s2, h, now); }
  }

  /** Requests whose outcome the collector must not change: any `HEAD`, and a
      `GET` or `PUT` by the blob's own uploader. */
  predicate OwnRequest(r: Request, owner: Hash -> string) {
    match r
    case Head(_) => true
    case Get(h, t) => t.sender == owner(h)
    case Put(h, t, _, _) => t.sender == owner(h)
    case Delete(_, _) => false
  }

  lemma QuotaAgrees(s1: Server, s2: Server, now: int, u: string, add: int, owner: Hash -> string)
    requires Agree(s1, s2, now) && Owned(s1, owner) && Owned(s2, owner)
    ensures QuotaAllows(s1.rows, u, add, now) <==> QuotaAllows(s2.rows, u, add, now)
  {
    var a, b := Live(s1.rows, u, now), Live(s2.rows, u, now);
    forall h ensures h in a <==> h in b {
      assert AgreeAt(s1, s2, h, now);
    }
    assert a == b;
    forall h | h in a ensures s1.rows[h].size == s2.rows[h].size { assert AgreeAt(s1, s2, h, now); }
    TotalAgrees(s1.rows, s2.rows, a);
  }

  lemma DecideAgrees(cfg: Config, s1: Server, s2: Server, now: int, r: Request, owner: Hash -> string)
    requires Agree(s1, s2, now) && Owned(s1, owner) && Owned(s2, owner) && r.Put?
    ensures DecidePut(cfg, s1, now, r) == DecidePut(cfg, s2, now, r)
  {
    assert AgreeAt(s1, s2, r.hash, now);
    if r.ticket.size.Some? { QuotaAgrees(s1, s2, now, r.ticket.sender, r.ticket.size.value, owner); }
  }

  lemma AnswersAgree(cfg: Config, s1: Server, s2: Server, now: int, r: Request, owner: Hash -> string)
    requires Agree(s1, s2, now) && Owned(s1, owner) && Owned(s2, owner) && OwnRequest(r, owner)
    ensures Answer(cfg, s1, now, r) == Answer(cfg, s2, now, r)
  {
    hide Agree, DecidePut;
    assert AgreeAt(s1, s2, r.hash, now) by { AgreesOn(s1, s2, r.hash, now); }
    if r.Put? {
      DecideAgrees(cfg, s1, s2, now, r, owner);
      DecisionIs(cfg, s1, now, r);
    }
  }

  lemma AgreesOn(s1: Server, s2: Server, h: Hash, now: int)
    requires Agree(s1, s2, now)
    ensures AgreeAt(s1, s2, h, now)
  {
  }

  lemma DecisionIs(cfg: Config, s: Server, now: int, r: Request)
    requires r.Put?
    ensures DecidePut(cfg, s, now, r).Keep? ==> IsLive(s.rows, r.hash, now)
  {
  }

  lemma StepAgreesAt(cfg: Config, s1: Server, s2: Server, now: int, r: Request, owner: Hash -> string, h: Hash)
    requires Owned(s1, owner) && Owned(s2, owner) && OwnPut(Serve(now, r), owner) && AgreeAt(s1, s2, h, now)
    requires r.Put? ==> DecidePut(cfg, s1, now, r) == DecidePut(cfg, s2, now, r)
    ensures AgreeAt(After(cfg, s1, now, r), After(cfg, s2, now, r), h, now)
  {
    if h != r.hash {
      hide After, AgreeAt, Owned, DecidePut;
      OthersStay(cfg, s1, now, r, h);
      OthersStay(cfg, s2, now, r, h);
      AgreementIsLocal(s1, s2, After(cfg, s1, now, r), After(cfg, s2, now, r), h, now);
    } else if r.Delete? {
      DeleteAgrees(cfg, s1, s2, now, r, owner);
    } else if r.Put? && DecidePut(cfg, s1, now, r).Store? {
      hide After, Owned, DecidePut;
      StoredRow(cfg, s1, now, r, After(cfg, s1, now, r).rows);
      StoredRow(cfg, s2, now, r, After(cfg, s2, now, r).rows);
      StoredFile(cfg, s1, now, r);
      StoredFile(cfg, s2, now, r);
    }
  }

  lemma AgreementIsLocal(s1: Server, s2: Server, t1: Server, t2: Server, h: Hash, now: int)
    requires AgreeAt(s1, s2, h, now)
    requires (h in t1.rows <==> h in s1.rows) && (h in s1.rows ==> t1.rows[h] == s1.rows[h])
    requires (h in t2.rows <==> h in s2.rows) && (h in s2.rows ==> t2.rows[h] == s2.rows[h])
    requires (h in t1.files <==> h in s1.files) && (h in s1.files ==> t1.files[h] == s1.files[h])
    requires (h in t2.files <==> h in s2.files) && (h in s2.files ==> t2.files[h] == s2.files[h])
    ensures AgreeAt(t1, t2, h, now)
  {
  }

  lemma DeleteAgrees(cfg: Config, s1: Server, s2: Server, now: int, r: Request, owner: Hash -> string)
    requires Owned(s1, owner) && Owned(s2, owner) && AgreeAt(s1, s2, r.hash, now) && r.Delete?
    ensures AgreeAt(After(cfg, s1, now, r), After(cfg, s2, now, r), r.hash, now)
  {
    hide TicketError;
  }

  /** A request touches no blob but its own. */
  lemma OthersStay(cfg: Config, s: Server, now: int, r: Request, h: Hash)
    requires h != r.hash
    ensures var s' := After(cfg, s, now, r);
      && (h in s'.rows <==> h in s.rows) && (h in s.rows ==> s'.rows[h] == s.rows[h])
      && (h in s'.files <==> h in s.files) && (h in s.files ==> s'.files[h] == s.files[h])
  {
    hide TicketError, EffectiveExpires, QuotaAllows;
  }

  /** Every step keeps the agreement, a deletion of an expired blob included. */
  lemma StepAgrees(cfg: Config, s1: Server, s2: Server, now: int, r: Request, owner: Hash -> string)
    requires Agree(s1, s2, now) && Owned(s1, owner) && Owned(s2, owner) && OwnPut(Serve(now, r), owner)
    ensures Agree(After(cfg, s1, now, r), After(cfg, s2, now, r), now)
  {
    hide DecidePut, TicketError, EffectiveExpires, After, Owned, AgreeAt;
    if r.Put? { DecideAgrees(cfg, s1, s2, now, r, owner); }
    forall h: Hash ensures AgreeAt(After(cfg, s1, now, r), After(cfg, s2, now, r), h, now) {
      StepAgreesAt(cfg, s1, s2, now, r, owner, h);
    }
  }

  lemma {:induction false} SinglePutterWithout(es: seq<Event>, owner: Hash -> string)
    requires SinglePutter(es, owner)
    ensures SinglePutter(WithoutGc(es), owner)
  {
    if es != [] { SinglePutterWithout(es[..|es| - 1], owner); }
  }

  /** A run agrees with the same run without any collection. */
  lemma {:induction false} GcAgrees(cfg: Config, es: seq<Event>, now: int, owner: Hash -> string)
    requires Ordered(es, now) && SinglePutter(es, owner)
    ensures Agree(Run(cfg, es), Run(cfg, WithoutGc(es)), now)
  {
    hide Agree, After, Collected, Owned;
    if es == [] {
      SelfAgrees(now);
    } else {
      var front, e := es[..|es| - 1], es[|es| - 1];
      var s1, s2 := Run(cfg, front), Run(cfg, WithoutGc(front));
      GcAgrees(cfg, front, e.now, owner);
      var rest := WithoutGc(es);
      if e.Collect? {
        CollectAgrees(cfg, s1, s2, e.now);
        assert Step(cfg, s1, e) == Collected(cfg, s1, e.now);
        assert rest == WithoutGc(front);
      } else {
        RunOwned(cfg, front, owner);
        SinglePutterWithout(front, owner);
        RunOwned(cfg, WithoutGc(front), owner);
        StepAgrees(cfg, s1, s2, e.now, e.r, owner);
        assert rest == WithoutGc(front) + [e] && rest[..|rest| - 1] == WithoutGc(front);
        assert Run(cfg, rest) == Step(cfg, s2, e) == After(cfg, s2, e.now, e.r);
        assert Step(cfg, s1, e) == After(cfg, s1, e.now, e.r);
      }
      assert Run(cfg, es) == Step(cfg, s1, e);
      AgreeLater(Run(cfg, es), Run(cfg, rest), e.now, now);
    }
  }

  lemma SelfAgrees(now: int)
    ensures Agree(Server(map[], map[]), Server(map[], map[]), now)
  {
  }

  /** Two runs that differ only in when the collector ran answer alike: whether
      `HEAD`, or `GET` by the uploader, finds the blob, which bytes it gets, and
      how the uploader's own `PUT` ends. */
  lemma GcIsInvisible(cfg: Config, es1: seq<Event>, es2: seq<Event>, now: int, r: Request, owner: Hash -> string)
    requires Ordered(es1, now) && SinglePutter(es1, owner)
    requires Ordered(es2, now) && SinglePutter(es2, owner)
    requires WithoutGc(es1) == WithoutGc(es2) && OwnRequest(r, owner)
    ensures Answer(cfg, Run(cfg, es1), now, r) == Answer(cfg, Run(cfg, es2), now, r)
  {
    hide Agree, Answer, Owned;
    GcAgrees(cfg, es1, now, owner);
    GcAgrees(cfg, es2, now, owner);
    AgreeThrough(Run(cfg, es1), Run(cfg, WithoutGc(es1)), Run(cfg, es2), now);
    RunOwned(cfg, es1, owner);
    RunOwned(cfg, es2, owner);
    AnswersAgree(cfg, Run(cfg, es1), Run(cfg, es2), now, r, owner);
  }

  // ---- other readers

  /** Every PUT of a hash lists reader `q`, or none does. */
  predicate ListsAlike(e: Event, q: string, may: Hash -> bool) {
    e.Serve? && e.r.Put? ==> (Lists(e.r.ticket.whitelist, q) <==> may(e.r.hash))
  }

  predicate SteadyReader(es: seq<Event>, q: string, may: Hash -> bool) {
    forall i | 0 <= i < |es| :: ListsAlike(es[i], q, may)
  }

  predicate Readable(s: Server, q: string, may: Hash -> bool) {
    forall h | h in s.rows :: Lists(s.rows[h].whitelist, q) <==> may(h)
  }

  lemma StepReadable(cfg: Config, s: Server, e: Event, q: string, may: Hash -> bool)
    requires Readable(s, q, may) && ListsAlike(e, q, may)
    ensures Readable(Step(cfg, s, e), q, may)
  {
    hide Lists;
  }

  lemma {:induction false} RunReadable(cfg: Config, es: seq<Event>, q: string, may: Hash -> bool)
    requires SteadyReader(es, q, may)
    ensures Readable(Run(cfg, es), q, may)
  {
    if es != [] {
      RunReadable(cfg, es[..|es| - 1], q, may);
      StepReadable(cfg, Run(cfg, es[..|es| - 1]), es[|es| - 1], q, may);
    }
  }

  /** A reader whom the uploads of each hash list always or never cannot tell when
      the collector ran either: every `GET` of its is answered alike. */
  lemma GcIsInvisibleToReaders(
    cfg: Config, es1: seq<Event>, es2: seq<Event>, now: int, h: Hash, t: Ticket, owner: Hash -> string,
    may: Hash -> bool)
    requires Ordered(es1, now) && SinglePutter(es1, owner) && SteadyReader(es1, t.sender, may)
    requires Ordered(es2, now) && SinglePutter(es2, owner) && SteadyReader(es2, t.sender, may)
    requires WithoutGc(es1) == WithoutGc(es2)
    ensures Answer(cfg, Run(cfg, es1), now, Get(h, t)) == Answer(cfg, Run(cfg, es2), now, Get(h, t))
  {
    hide Agree, Answer, Owned, Readable;
    GcAgrees(cfg, es1, now, owner);
    GcAgrees(cfg, es2, now, owner);
    AgreeThrough(Run(cfg, es1), Run(cfg, WithoutGc(es1)), Run(cfg, es2), now);
    RunOwned(cfg, es1, owner);
    RunOwned(cfg, es2, owner);
    RunReadable(cfg, es1, t.sender, may);
    RunReadable(cfg, es2, t.sender, may);
    ReadsAgree(cfg, Run(cfg, es1), Run(cfg, es2), now, h, t, owner, may);
  }

  lemma ReadsAgree(
    cfg: Config, s1: Server, s2: Server, now: int, h: Hash, t: Ticket, owner: Hash -> string, may: Hash -> bool)
    requires Agree(s1, s2, now) && Owned(s1, owner) && Owned(s2, owner)
    requires Readable(s1, t.sender, may) && Readable(s2, t.sender, may)
    ensures Answer(cfg, s1, now, Get(h, t)) == Answer(cfg, s2, now, Get(h, t))
  {
    AgreesOn(s1, s2, h, now);
    hide Agree, Lists, TicketError;
  }

  /** The exact condition at a re-upload. `r` uploads a blob again after its row
      expired; the collector ran in between (at `c`) or did not. Until the new row
      expires, the two states answer reader `t` alike if and only if the old row
      and the new ticket list it alike, or it is the uploader. */
  lemma ReuploadTells(
    cfg: Config, s: Server, c: int, now: int, r: Request, later: int, t: Ticket, kept: Server, swept: Server, q: string)
    requires r.Put? && r.hash in s.rows && s.rows[r.hash].expiresAt <= c <= now && q == t.sender
    requires s.rows[r.hash].uploader == Some(r.ticket.sender) && DecidePut(cfg, s, now, r).Store?
    requires kept == After(cfg, s, now, r) && swept == After(cfg, Collected(cfg, s, c), now, r)
    requires now <= later < EffectiveExpires(r.ticket, now) && TicketError(t, OpGet, r.hash, later).None?
    ensures Answer(cfg, kept, later, Get(r.hash, t))
         == Reply(kept, r.hash, q == r.ticket.sender || Lists(s.rows[r.hash].whitelist, q))
    ensures Answer(cfg, swept, later, Get(r.hash, t))
         == Reply(kept, r.hash, q == r.ticket.sender || Lists(r.ticket.whitelist, q))
    ensures Answer(cfg, kept, later, Get(r.hash, t)) == Answer(cfg, swept, later, Get(r.hash, t))
       <==> q == r.ticket.sender || (Lists(s.rows[r.hash].whitelist, q) <==> Lists(r.ticket.whitelist, q))
  {
    DecideSwept(cfg, s, c, now, r);
    StoredRow(cfg, s, now, r, kept.rows);
    StoredRow(cfg, Collected(cfg, s, c), now, r, swept.rows);
    StoredFile(cfg, s, now, r);
    StoredFile(cfg, Collected(cfg, s, c), now, r);
    SweptRow(cfg, s, c, r.hash);
    hide Collected, After, DecidePut, QuotaAllows, TicketError, EffectiveExpires;
  }

  /** A download, or the refusal of one. */
  function Reply(s: Server, h: Hash, allowed: bool): Response {
    if allowed && h in s.rows && h in s.files then Content(s.rows[h].mime, s.rows[h].size, s.files[h]) else Refused(403)
  }

  lemma StoredFile(cfg: Config, s: Server, now: int, r: Request)
    requires r.Put? && DecidePut(cfg, s, now, r).Store?
    ensures After(cfg, s, now, r).files == s.files[r.hash := r.body] && cfg.validHash(r.hash)
  {
    hide QuotaAllows, TicketError;
  }

  lemma SweptRow(cfg: Config, s: Server, c: int, h: Hash)
    requires h in s.rows && s.rows[h].expiresAt <= c
    ensures h !in Collected(cfg, s, c).rows
  {
  }

  /** The collector does not change how a PUT is decided. */
  lemma DecideSwept(cfg: Config, s: Server, c: int, now: int, r: Request)
    requires r.Put? && c <= now
    ensures DecidePut(cfg, Collected(cfg, s, c), now, r) == DecidePut(cfg, s, now, r)
  {
    var rows' := Collected(cfg, s, c).rows;
    assert forall u: string :: Live(rows', u, now) == Live(s.rows, u, now);
    if r.ticket.size.Some? {
      TotalAgrees(s.rows, rows', Live(s.rows, r.ticket.sender, now));
    }
  }

  // ---- what fails once a hash has two uploaders, or a reader is not the uploader

  function PutOf(cfg: Config, sender: string, x: Bytes, now: int, whitelist: Option<seq<string>>): Request {
    var h := cfg.hashOf(x);
    var t := Ticket(sender, "nonce", OpPut, Some(h), now, Some("cap"), Some(|x|), Some("mime"),
                    BlobIndex.Input, None, whitelist);
    Put(h, t, x, Some(Access.Free))
  }

  function GetOf(sender: string, h: Hash, now: int): Request {
    Get(h, Ticket(sender, "nonce", OpGet, Some(h), now, None, None, None, BlobIndex.Input, None, None))
  }

  lemma {:induction false} TotalOne(rows: Rows, h: Hash)
    requires h in rows
    ensures Total(rows, {h}) == rows[h].size && Total(rows, {}) == 0
  {
    TotalTakes(rows, {h}, h);
    assert {h} - {h} == {};
  }

  lemma RunSnoc(cfg: Config, es: seq<Event>, e: Event)
    ensures Run(cfg, es + [e]) == Step(cfg, Run(cfg, es), e)
  {
    assert (es + [e])[..|es|] == es;
  }

  /** A row keeps its first uploader: when `q` re-uploads an expired blob of `p`
      before the collector has run, the bytes count against `p`, which then holds
      more than its quota allows, and `q` may not download what it stored. */
  lemma SharedHashEscapesQuota(
    cfg: Config, p: string, q: string, x: Bytes, y: Bytes, e1: Event, e2: Event, e3: Event, s: Server)
    requires p != q && cfg.hashOf(x) != cfg.hashOf(y) && cfg.validHash(cfg.hashOf(x)) && cfg.validHash(cfg.hashOf(y))
    requires |x| <= DEFAULT_PER_PEER_BYTES && |y| <= DEFAULT_PER_PEER_BYTES
    requires e1 == Serve(0, PutOf(cfg, p, x, 0, None)) && e2 == Serve(3600, PutOf(cfg, p, y, 3600, None))
    requires e3 == Serve(3600, PutOf(cfg, q, x, 3600, None)) && s == Run(cfg, [e1, e2, e3])
    ensures Live(s.rows, p, 3600) == {cfg.hashOf(x), cfg.hashOf(y)}
    ensures Total(s.rows, Live(s.rows, p, 3600)) == |x| + |y|
    ensures |x| + |y| > DEFAULT_PER_PEER_BYTES ==> !PeerWithinQuota(s.rows, p, 3600)
    ensures Answer(cfg, s, 3600, GetOf(q, cfg.hashOf(x), 3600)) == Refused(403)
  {
    var hx, hy := cfg.hashOf(x), cfg.hashOf(y);
    var s1, s2 := Run(cfg, [e1]), Run(cfg, [e1, e2]);
    RunSnoc(cfg, [e1], e2);
    RunSnoc(cfg, [e1, e2], e3);
    assert [e1] + [e2] == [e1, e2] && [e1, e2] + [e3] == [e1, e2, e3];
    AfterFirst(cfg, p, x, None, s1);
    hide Step, Run, Total, Answer, GetOf, PutOf, QuotaAllows;
    FirstPut(cfg, s1, p, y, 3600, None);
    FirstPut(cfg, s2, q, x, 3600, None);
    assert Live(s.rows, p, 3600) == {hx, hy};
    ReaderGets(cfg, s, q, hx, 3600);
    TotalTwo(s.rows, hx, hy);
  }

  lemma TotalTwo(rows: Rows, h: Hash, g: Hash)
    requires h in rows && g in rows && h != g
    ensures Total(rows, {h, g}) == rows[h].size + rows[g].size
  {
    TotalTakes(rows, {h, g}, h);
    assert {h, g} - {h} == {g};
    TotalOne(rows, g);
  }

  /** An upload by a peer with nothing live on the server succeeds. */
  lemma FirstPut(cfg: Config, s: Server, p: string, x: Bytes, now: int, w: Option<seq<string>>)
    requires cfg.validHash(cfg.hashOf(x)) && |x| <= DEFAULT_PER_PEER_BYTES && !IsLive(s.rows, cfg.hashOf(x), now)
    requires Live(s.rows, p, now) == {}
    ensures Stored(cfg, s, Step(cfg, s, Serve(now, PutOf(cfg, p, x, now, w))), p, x, now, w)
  {
    assert Total(s.rows, {}) == 0;
  }

  predicate Stored(cfg: Config, s: Server, s': Server, p: string, x: Bytes, now: int, w: Option<seq<string>>) {
    var h := cfg.hashOf(x);
    && s'.rows.Keys == s.rows.Keys + {h}
    && (forall g | g in s.rows && g != h :: s'.rows[g] == s.rows[g])
    && s'.rows[h].expiresAt == now + 3600 && s'.rows[h].size == |x|
    && s'.rows[h].uploader == (if h in s.rows then s.rows[h].uploader else Some(p))
    && s'.rows[h].whitelist == (if h in s.rows then s.rows[h].whitelist else w)
    && s'.files == s.files[h := x]
  }

  /** The state after the only upload so far, whose blob then expires. */
  lemma AfterFirst(cfg: Config, p: string, x: Bytes, w: Option<seq<string>>, s: Server)
    requires cfg.validHash(cfg.hashOf(x)) && |x| <= DEFAULT_PER_PEER_BYTES
    requires s == Run(cfg, [Serve(0, PutOf(cfg, p, x, 0, w))])
    ensures s.rows.Keys == {cfg.hashOf(x)}
    ensures s.rows[cfg.hashOf(x)].whitelist == w && s.rows[cfg.hashOf(x)].expiresAt == 3600
    ensures s.rows[cfg.hashOf(x)].uploader == Some(p) && s.rows[cfg.hashOf(x)].size == |x|
  {
    RunSnoc(cfg, [], Serve(0, PutOf(cfg, p, x, 0, w)));
    assert [] + [Serve(0, PutOf(cfg, p, x, 0, w))] == [Serve(0, PutOf(cfg, p, x, 0, w))];
    FirstPut(cfg, Run(cfg, []), p, x, 0, w);
  }

  /** A re-uploaded blob keeps the whitelist of its expired row, unless the
      collector came first: a reader listed once and not again can tell. */
  lemma ReadersSeeTheCollector(
    cfg: Config, p: string, q: string, x: Bytes, e1: Event, gc: Event, e2: Event, kept: Server, swept: Server)
    requires p != q && cfg.validHash(cfg.hashOf(x)) && |x| <= DEFAULT_PER_PEER_BYTES
    requires e1 == Serve(0, PutOf(cfg, p, x, 0, Some([q]))) && gc == Collect(3600)
    requires e2 == Serve(3600, PutOf(cfg, p, x, 3600, None))
    requires kept == Run(cfg, [e1, e2]) && swept == Run(cfg, [e1, gc, e2])
    ensures Answer(cfg, kept, 3600, GetOf(q, cfg.hashOf(x), 3600)).Content?
    ensures Answer(cfg, swept, 3600, GetOf(q, cfg.hashOf(x), 3600)) == Refused(403)
  {
    var s1, s2 := Run(cfg, [e1]), Run(cfg, [e1, gc]);
    RunSnoc(cfg, [e1], e2);
    RunSnoc(cfg, [e1], gc);
    RunSnoc(cfg, [e1, gc], e2);
    assert [e1] + [e2] == [e1, e2] && [e1] + [gc] == [e1, gc] && [e1, gc] + [e2] == [e1, gc, e2];
    AfterFirst(cfg, p, x, Some([q]), s1);
    assert s2 == Collected(cfg, s1, 3600);
    assert Live(s1.rows, p, 3600) == {};
    FirstStores(cfg, s1, p, x, 3600, None);
    FirstPut(cfg, s1, p, x, 3600, None);
    hide Run, Answer, Collected, After, DecidePut;
    ReuploadTells(cfg, s1, 3600, 3600, e2.r, 3600, GetOf(q, cfg.hashOf(x), 3600).ticket, kept, swept, q);
  }

  lemma FirstStores(cfg: Config, s: Server, p: string, x: Bytes, now: int, w: Option<seq<string>>)
    requires cfg.validHash(cfg.hashOf(x)) && |x| <= DEFAULT_PER_PEER_BYTES && !IsLive(s.rows, cfg.hashOf(x), now)
    requires Live(s.rows, p, now) == {}
    ensures DecidePut(cfg, s, now, PutOf(cfg, p, x, now, w)).Store?
  {
    assert Total(s.rows, {}) == 0;
  }

  lemma ReaderGets(cfg: Config, s: Server, q: string, h: Hash, now: int)
    requires cfg.validHash(h) && IsLive(s.rows, h, now) && h in s.files
    ensures Authorized(s.rows[h], q) ==> Answer(cfg, s, now, GetOf(q, h, now)).Content?
    ensures !Authorized(s.rows[h], q) ==> Answer(cfg, s, now, GetOf(q, h, now)) == Refused(403)
  {
  }
}
