/** The blob index: the `blobs` table (crates/storage/src/blobs.rs), the sites
    that insert into it (crates/node/src/blob_resolve.rs, crates/server/src/blobs.rs)
    and the ways a row leaves it. A row's class (A outbound upload, B inbound
    output, C cap staging, D local cache) is not stored: it is what three of its
    columns say together. */
module BlobIndex {
  import opened Options
  import BlobPath

  type Hash = string

  datatype Provenance = Outbound | Inbound
  datatype Role = Input | Output
  datatype Anchor = LocalCache | UserSession | CapJob
  datatype Status = Staged | Referenced | Ready

  datatype Row = Row(
    size: int, mime: string, path: Option<string>, expiresAt: int, storage: string,
    provenance: Provenance, role: Role, anchor: Anchor, status: Status,
    user: Option<int>, client: Option<string>, conversation: Option<string>,
    capability: Option<string>, remoteSender: Option<string>, nonce: Option<string>,
    visible: bool, deletable: bool, uploader: Option<string>, whitelist: Option<seq<string>>,
    dispatch: Option<string>, invoke: Option<string>, createdAt: int, lastAccess: Option<int>)

  type Rows = map<Hash, Row>

  const INPUT_TTL: int := 60 * 60
  const OUTPUT_TTL: int := 24 * 60 * 60

  // --------------------------------------------------------------- statements

  /** `INSERT … ON CONFLICT(hash) DO UPDATE`: the first path stays, and so do
      the classification and the owner. `clock` is the database's. */
  function Upserted(rows: Rows, hash: Hash, r: Row, clock: int): Rows {
    if hash !in rows then rows[hash := r.(createdAt := clock, lastAccess := None)]
    else
      var old_ := rows[hash];
      rows[hash := old_.(size := r.size, mime := r.mime, path := Coalesce(old_.path, r.path),
                         expiresAt := r.expiresAt, storage := r.storage, status := r.status, lastAccess := Some(clock))]
  }

  function Promoted(r: Row, expiresAt: int, clock: int): Row {
    r.(anchor := UserSession, status := Referenced, visible := true, deletable := true,
       expiresAt := expiresAt, lastAccess := Some(clock))
  }

  function MarkedOutbound(rows: Rows, hash: Hash, expiresAt: int, clock: int): Rows {
    if hash in rows && rows[hash].provenance == Outbound && rows[hash].role == Input
       && rows[hash].anchor in {LocalCache, UserSession}
    then rows[hash := Promoted(rows[hash], expiresAt, clock)]
    else rows
  }

  function Received(r: Row, name: Option<string>, expiresAt: int, clock: int): Row {
    r.(provenance := Inbound, role := Output, anchor := UserSession, status := Ready,
       visible := true, deletable := true,
       path := Coalesce(name, r.path), expiresAt := expiresAt, lastAccess := Some(clock))
  }

  function MarkedInboundOutput(rows: Rows, hash: Hash, name: Option<string>, expiresAt: int, clock: int): Rows {
    if hash in rows && rows[hash].anchor in {LocalCache, UserSession}
    then rows[hash := Received(rows[hash], name, expiresAt, clock)]
    else rows
  }

  function Touched(rows: Rows, hash: Hash, now: int): Rows {
    if hash in rows then rows[hash := rows[hash].(lastAccess := Some(now))] else rows
  }

  function Expired(rows: Rows, now: int): Rows {
    map h | h in rows && rows[h].expiresAt <= now :: rows[h]
  }

  class BlobTable {
    var rows: Rows

    constructor ()
      ensures rows == map[]
    {
      rows := map[];
    }

    method Upsert(hash: Hash, r: Row, clock: int)
      modifies this
      ensures rows == Upserted(old(rows), hash, r, clock)
    {
      if hash in rows {
        var q := rows[hash];
        rows := rows[hash := q.(size := r.size, mime := r.mime, path := Coalesce(q.path, r.path),
                                expiresAt := r.expiresAt, storage := r.storage, status := r.status,
                                lastAccess := Some(clock))];
      } else {
        rows := rows[hash := r.(createdAt := clock, lastAccess := None)];
      }
    }

    method MarkOutbound(hash: Hash, expiresAt: int, clock: int) returns (promoted: bool)
      modifies this
      ensures rows == MarkedOutbound(old(rows), hash, expiresAt, clock)
      ensures RowsAreClassed(old(rows)) ==>
        (promoted <==> hash in old(rows) && ClassOf(old(rows)[hash]) in {Some(A), Some(D)})
    {
      promoted := false;
      if hash in rows {
        var q := rows[hash];
        if q.provenance == Outbound && q.role == Input && q.anchor in {LocalCache, UserSession} {
          rows := rows[hash := Promoted(q, expiresAt, clock)];
          promoted := true;
        }
      }
    }

    method MarkInboundOutput(hash: Hash, name: Option<string>, expiresAt: int, clock: int) returns (marked: bool)
      modifies this
      ensures rows == MarkedInboundOutput(old(rows), hash, name, expiresAt, clock)
      ensures RowsAreClassed(old(rows)) ==>
        (marked <==> hash in old(rows) && ClassOf(old(rows)[hash]) != Some(C))
    {
      marked := false;
      if hash in rows {
        var q := rows[hash];
        if q.anchor in {LocalCache, UserSession} {
          rows := rows[hash := Received(q, name, expiresAt, clock)];
          marked := true;
        }
      }
    }

    method Touch(hash: Hash, now: int)
      modifies this
      ensures rows == Touched(old(rows), hash, now)
    {
      if hash in rows { rows := rows[hash := rows[hash].(lastAccess := Some(now))]; }
    }

    method Delete(hash: Hash) returns (found: bool)
      modifies this
      ensures rows == old(rows) - {hash} && (found <==> hash in old(rows))
    {
      found := hash in rows;
      rows := rows - {hash};
    }

    /** Returns what it deleted, for the file clean-up. */
    method DeleteExpired(now: int) returns (expired: Rows)
      modifies this
      ensures expired == Expired(old(rows), now)
      ensures rows == old(rows) - expired.Keys
      ensures forall h | h in rows :: rows[h].expiresAt > now
    {
      expired := map h | h in rows && rows[h].expiresAt <= now :: rows[h];
      rows := rows - expired.Keys;
    }
  }

  // ------------------------------------------------------------------ classes

  datatype Class = A | B | C | D

  function ClassOf(r: Row): Option<Class> {
    match (r.provenance, r.role, r.anchor)
    case (Outbound, Input, UserSession) => Some(A)
    case (Inbound, Output, UserSession) => Some(B)
    case (Inbound, Input, CapJob) => Some(C)
    case (Outbound, Input, LocalCache) => Some(D)
    case _ => None
  }

  /** A row belongs to one class; a user sees and may delete every class but C;
      a staged blob has an uploader; a path is in sanitised form. */
  predicate RowOk(r: Row) {
    && ClassOf(r).Some?
    && r.visible == r.deletable == (ClassOf(r) != Some(C))
    && (ClassOf(r) == Some(C) ==> r.uploader.Some? && r.uploader == r.remoteSender)
    && (r.path.Some? ==> BlobPath.IsSound(r.path.value))
  }

  predicate RowsAreClassed(rows: Rows) {
    forall h | h in rows :: RowOk(rows[h])
  }

  /** D may become A, either may become B; C stands apart. */
  predicate MovesUp(a: Class, b: Class) {
    a == b || (a == D && b in {A, B}) || (a == A && b == B)
  }

  /** What every step keeps of a row it does not delete. */
  predicate Grown(p: Row, q: Row) {
    && ClassOf(p).Some? && ClassOf(q).Some? && MovesUp(ClassOf(p).value, ClassOf(q).value)
    && (p.user, p.client, p.conversation) == (q.user, q.client, q.conversation)
    && (p.capability, p.remoteSender, p.nonce) == (q.capability, q.remoteSender, q.nonce)
    && (p.uploader, p.whitelist) == (q.uploader, q.whitelist)
    && (p.dispatch, p.invoke, p.createdAt) == (q.dispatch, q.invoke, q.createdAt)
    && (p.path.Some? ==> q.path.Some?)
  }

  // --------------------------------------------------------------------- runs

  datatype Event =
    | StageLocal(hash: Hash, size: int, mime: string, name: Option<string>,
                 user: Option<int>, client: Option<string>, now: int)
    | OutboundUpload(hash: Hash, size: int, mime: string, user: Option<int>, client: Option<string>, now: int)
    | InboundOutput(hash: Hash, size: int, mime: string, name: Option<string>, capability: string,
                    client: Option<string>, conversation: Option<string>, now: int)
    | HeldOutput(hash: Hash, name: Option<string>, now: int)
    | PeerPut(hash: Hash, size: int, mime: string, expiresAt: int, capability: string,
              uploader: string, nonce: string, whitelist: Option<seq<string>>, now: int)
    | Read(hash: Hash, now: int)
    | UserDelete(hash: Hash, account: int, client: Option<string>)
    | PeerDelete(hash: Hash, sender: string)
    | Gc(now: int)

  /** This instance's id, its blob directory, and the library's calendar and
      lower-casing. */
  datatype Ctx = Ctx(self: string, root: string, civil: int -> Option<BlobPath.Civil>, lower: string -> string)

  ghost predicate GoodCalendar(ctx: Ctx) {
    forall t :: ctx.civil(t).Some? ==> BlobPath.IsCivil(ctx.civil(t).value)
  }

  function Sanitized(name: Option<string>): Option<string> {
    if name.Some? then BlobPath.Sanitize(name.value) else None
  }

  function StoredAt(ctx: Ctx, hash: Hash): string { ctx.root + "/" + hash }

  function StagedRow(ctx: Ctx, e: Event): Row
    requires e.StageLocal?
  {
    Row(e.size, e.mime, Sanitized(e.name), e.now + INPUT_TTL, StoredAt(ctx, e.hash),
        Outbound, Input, LocalCache, Staged,
        e.user, e.client, None, None, None, None, true, true, None, None, None, None, e.now, None)
  }

  function UploadedRow(ctx: Ctx, e: Event): Row
    requires e.OutboundUpload?
  {
    Row(e.size, e.mime, None, e.now + INPUT_TTL, StoredAt(ctx, e.hash), Outbound, Input, UserSession, Referenced,
        e.user, e.client, None, None, None, None, true, true, Some(ctx.self), None, None, None, e.now, None)
  }

  /** The producer's name when it is usable, a provisional one otherwise. */
  function OutputPath(ctx: Ctx, e: Event): Option<string>
    requires e.InboundOutput?
  {
    var derived := BlobPath.DeriveOutputPath(e.capability, e.mime, ctx.civil(e.now), ctx.lower);
    Coalesce(Sanitized(e.name), BlobPath.Sanitize(derived))
  }

  function OutputRow(ctx: Ctx, e: Event): Row
    requires e.InboundOutput?
  {
    Row(e.size, e.mime, OutputPath(ctx, e), e.now + OUTPUT_TTL, StoredAt(ctx, e.hash),
        Inbound, Output, UserSession, Ready,
        None, e.client, e.conversation, Some(e.capability), None, None, true, true, None, None, None, None, e.now, None)
  }

  function PutRow(ctx: Ctx, e: Event): Row
    requires e.PeerPut?
  {
    Row(e.size, e.mime, None, e.expiresAt, StoredAt(ctx, e.hash), Inbound, Input, CapJob, Staged,
        None, None, None, Some(e.capability), Some(e.uploader), Some(e.nonce),
        false, false, Some(e.uploader), e.whitelist,
        None, None, e.now, None)
  }

  predicate Owns(r: Row, user: int, client: Option<string>) {
    r.user == Some(user) || (client.Some? && r.client == client)
  }

  function Apply(ctx: Ctx, rows: Rows, e: Event): Rows {
    match e
    case StageLocal(hash, _, _, _, _, _, now) => Upserted(rows, hash, StagedRow(ctx, e), now)
    case OutboundUpload(hash, _, _, _, _, now) =>
      if hash in rows then MarkedOutbound(rows, hash, now + INPUT_TTL, now)
      else Upserted(rows, hash, UploadedRow(ctx, e), now)
    case InboundOutput(hash, _, _, _, _, _, _, now) => Upserted(rows, hash, OutputRow(ctx, e), now)
    case HeldOutput(hash, name, now) => MarkedInboundOutput(rows, hash, Sanitized(name), now + OUTPUT_TTL, now)
    case PeerPut(hash, _, _, _, _, _, _, _, now) => Upserted(rows, hash, PutRow(ctx, e), now)
    case Read(hash, now) => Touched(rows, hash, now)
    case UserDelete(hash, account, client) =>
      if hash in rows && rows[hash].deletable && Owns(rows[hash], account, client) then rows - {hash} else rows
    case PeerDelete(hash, sender) =>
      if hash in rows && rows[hash].uploader == Some(sender) then rows - {hash} else rows
    case Gc(now) => rows - Expired(rows, now).Keys
  }

  function Run(ctx: Ctx, rows: Rows, es: seq<Event>): Rows {
    if es == [] then rows else Apply(ctx, Run(ctx, rows, es[..|es| - 1]), es[|es| - 1])
  }

  // ---- the insert sites

  /** Staging a file creates a class D row; a row that is there keeps its class. */
  method StoreLocalCache(ctx: Ctx, table: BlobTable, e: Event)
    requires e.StageLocal?
    modifies table
    ensures table.rows == Apply(ctx, old(table.rows), e)
    ensures e.hash in table.rows && table.rows[e.hash].expiresAt == e.now + INPUT_TTL
    ensures ClassOf(table.rows[e.hash])
         == if e.hash in old(table.rows) then ClassOf(old(table.rows)[e.hash]) else Some(D)
  {
    table.Upsert(e.hash, StagedRow(ctx, e), e.now);
  }

  /** A sent file is of class A afterwards; results and cap staging blobs are not touched. */
  method RecordOutboundUpload(ctx: Ctx, table: BlobTable, e: Event)
    requires e.OutboundUpload?
    modifies table
    ensures table.rows == Apply(ctx, old(table.rows), e)
    ensures e.hash in table.rows
    ensures e.hash !in old(table.rows) || ClassOf(old(table.rows)[e.hash]) in {Some(A), Some(D)} ==>
      ClassOf(table.rows[e.hash]) == Some(A) && table.rows[e.hash].expiresAt == e.now + INPUT_TTL
    ensures e.hash in old(table.rows) && ClassOf(old(table.rows)[e.hash]) in {Some(B), Some(C)} ==>
      table.rows == old(table.rows)
  {
    if e.hash in table.rows {
      var _ := table.MarkOutbound(e.hash, e.now + INPUT_TTL, e.now);
    } else {
      table.Upsert(e.hash, UploadedRow(ctx, e), e.now);
    }
  }

  /** One output reference of an answer, whose bytes are held already or were
      just downloaded. Held bytes move their row to class B, under the name the
      capability chose; downloaded ones create a class B row. A row whose bytes
      were lost and downloaded again keeps its class. */
  method FetchOutput(ctx: Ctx, table: BlobTable, e: Event, held: bool)
    requires if held then e.HeldOutput? else e.InboundOutput?
    modifies table
    ensures table.rows == Apply(ctx, old(table.rows), e)
    ensures held && e.hash !in old(table.rows) ==> table.rows == old(table.rows)
    ensures held && e.hash in old(table.rows) && ClassOf(old(table.rows)[e.hash]) in {Some(A), Some(B), Some(D)} ==>
      (&& e.hash in table.rows && ClassOf(table.rows[e.hash]) == Some(B)
       && table.rows[e.hash].path == Coalesce(Sanitized(e.name), old(table.rows)[e.hash].path))
    ensures held && e.hash in old(table.rows) && ClassOf(old(table.rows)[e.hash]) == Some(C) ==>
      table.rows == old(table.rows)
    ensures !held ==>
      (&& e.hash in table.rows
       && ClassOf(table.rows[e.hash])
          == if e.hash in old(table.rows) then ClassOf(old(table.rows)[e.hash]) else Some(B))
  {
    hide BlobPath.Sanitize, BlobPath.DeriveOutputPath;
    if held {
      var _ := table.MarkInboundOutput(e.hash, Sanitized(e.name), e.now + OUTPUT_TTL, e.now);
    } else {
      table.Upsert(e.hash, OutputRow(ctx, e), e.now);
    }
  }

  // ---- what every step keeps

  lemma SanitizedIsSound(name: Option<string>)
    ensures Sanitized(name).Some? ==> BlobPath.IsSound(Sanitized(name).value)
  {
    if name.Some? { BlobPath.SanitizedIsSound(name.value); }
  }

  /** A downloaded output always gets a path, whatever its producer called it. */
  lemma OutputsAreNamed(ctx: Ctx, e: Event)
    requires GoodCalendar(ctx) && e.InboundOutput?
    ensures OutputPath(ctx, e).Some? && BlobPath.IsSound(OutputPath(ctx, e).value)
    ensures Sanitized(e.name).None? ==>
      OutputPath(ctx, e) == Some(BlobPath.DeriveOutputPath(e.capability, e.mime, ctx.civil(e.now), ctx.lower))
  {
    hide BlobPath.Sanitize, BlobPath.DeriveOutputPath, BlobPath.IsSound;
    SanitizedIsSound(e.name);
    var p := BlobPath.DeriveOutputPath(e.capability, e.mime, ctx.civil(e.now), ctx.lower);
    BlobPath.DerivedIsFixedPoint(e.capability, e.mime, ctx.civil(e.now), ctx.lower);
    BlobPath.SanitizedIsSound(p);
  }

  /** A producer that names its output usably is taken at its word. */
  lemma ProducersName(ctx: Ctx, e: Event)
    requires e.InboundOutput? && Sanitized(e.name).Some?
    ensures OutputPath(ctx, e) == Sanitized(e.name)
  {
    hide BlobPath.Sanitize, BlobPath.DeriveOutputPath;
  }

  lemma StepKeepsClasses(ctx: Ctx, rows: Rows, e: Event)
    requires GoodCalendar(ctx) && RowsAreClassed(rows)
    ensures RowsAreClassed(Apply(ctx, rows, e))
  {
    hide BlobPath.Sanitize, BlobPath.IsSound, OutputPath, Sanitized;
    match e
    case StageLocal(_, _, _, name, _, _, _) => SanitizedIsSound(name);
    case HeldOutput(_, name, _) => SanitizedIsSound(name);
    case InboundOutput(_, _, _, _, _, _, _, _) => OutputsAreNamed(ctx, e);
    case _ =>
  }

  /** Until a row is deleted its class only moves up, C never changes, its owner
      and uploader stay, and a path is never lost. */
  lemma StepGrows(ctx: Ctx, rows: Rows, e: Event, h: Hash)
    requires RowsAreClassed(rows) && h in rows && h in Apply(ctx, rows, e)
    ensures Grown(rows[h], Apply(ctx, rows, e)[h])
  {
    hide BlobPath.Sanitize, BlobPath.IsSound, OutputPath, Sanitized;
  }

  /** Over every run from an empty index each row is in exactly one class. */
  lemma {:induction false} EveryRowHasAClass(ctx: Ctx, es: seq<Event>)
    requires GoodCalendar(ctx)
    ensures RowsAreClassed(Run(ctx, map[], es))
  {
    if es != [] {
      EveryRowHasAClass(ctx, es[..|es| - 1]);
      StepKeepsClasses(ctx, Run(ctx, map[], es[..|es| - 1]), es[|es| - 1]);
    }
  }

  /** `h` is indexed after each event of the run, from the first on. */
  predicate Lives(ctx: Ctx, rows: Rows, es: seq<Event>, h: Hash) {
    forall j | 1 <= j <= |es| :: h in Run(ctx, rows, es[..j])
  }

  lemma LivesPrefix(ctx: Ctx, rows: Rows, es: seq<Event>, h: Hash)
    requires es != [] && Lives(ctx, rows, es, h)
    ensures Lives(ctx, rows, es[..|es| - 1], h) && h in Run(ctx, rows, es)
  {
    var front := es[..|es| - 1];
    forall j | 1 <= j <= |front| ensures h in Run(ctx, rows, front[..j]) {
      assert front[..j] == es[..j];
    }
    assert es[..|es|] == es;
  }

  /** The same over any run during which the row lives. */
  lemma {:induction false} LifeGrows(ctx: Ctx, rows: Rows, es: seq<Event>, h: Hash)
    requires GoodCalendar(ctx) && RowsAreClassed(rows) && h in rows && Lives(ctx, rows, es, h)
    ensures RowsAreClassed(Run(ctx, rows, es)) && h in Run(ctx, rows, es)
    ensures Grown(rows[h], Run(ctx, rows, es)[h])
  {
    hide RowOk, BlobPath.IsSound, Apply;
    if es == [] {
      assert RowOk(rows[h]);
      SelfGrown(rows[h]);
    } else {
      var front := es[..|es| - 1];
      LivesPrefix(ctx, rows, es, h);
      LifeGrows(ctx, rows, front, h);
      StepKeepsClasses(ctx, Run(ctx, rows, front), es[|es| - 1]);
      StepGrows(ctx, Run(ctx, rows, front), es[|es| - 1], h);
    }
  }

  lemma SelfGrown(r: Row)
    requires RowOk(r)
    ensures Grown(r, r)
  {
  }

  // ---- the class as a function of the row's history

  predicate Sends(e: Event, h: Hash) { e.OutboundUpload? && e.hash == h }
  predicate Returns(e: Event, h: Hash) { e.HeldOutput? && e.hash == h }

  /** The class of a row by what happened to it: who created it, whether it came
      back as an output, whether it was ever sent. */
  function HistoryClass(es: seq<Event>, h: Hash): Class
    requires es != []
  {
    if es[0].PeerPut? then C
    else if es[0].InboundOutput? || (exists e | e in es :: Returns(e, h)) then B
    else if exists e | e in es :: Sends(e, h) then A
    else D
  }

  /** From its creation on, a row's class is exactly what its history says,
      whatever happened in between. */
  lemma {:induction false} ClassIsHistory(ctx: Ctx, rows: Rows, es: seq<Event>, h: Hash)
    requires es != [] && h !in rows && Lives(ctx, rows, es, h)
    ensures h in Run(ctx, rows, es) && ClassOf(Run(ctx, rows, es)[h]) == Some(HistoryClass(es, h))
  {
    hide BlobPath.Sanitize, BlobPath.IsSound, OutputPath, Sanitized;
    LivesPrefix(ctx, rows, es, h);
    var front, last := es[..|es| - 1], es[|es| - 1];
    assert es == front + [last];
    if front == [] {
      assert Run(ctx, rows, front) == rows;
      assert es[0] == last && last in es && forall e :: e in es ==> e == last;
    } else {
      ClassIsHistory(ctx, rows, front, h);
      StepClass(ctx, Run(ctx, rows, front), last, h);
      HistorySnoc(front, last, h);
    }
  }

  /** How one event changes a living row's class. */
  function NextClass(c: Class, e: Event, h: Hash): Class {
    if c != C && Returns(e, h) then B
    else if c == D && Sends(e, h) then A
    else c
  }

  lemma StepClass(ctx: Ctx, rows: Rows, e: Event, h: Hash)
    requires h in rows && h in Apply(ctx, rows, e) && ClassOf(rows[h]).Some?
    ensures ClassOf(Apply(ctx, rows, e)[h]) == Some(NextClass(ClassOf(rows[h]).value, e, h))
  {
    hide BlobPath.Sanitize, BlobPath.IsSound, OutputPath, Sanitized;
  }

  lemma HistorySnoc(es: seq<Event>, e: Event, h: Hash)
    requires es != []
    ensures HistoryClass(es + [e], h) == NextClass(HistoryClass(es, h), e, h)
  {
    assert forall f :: f in es + [e] <==> f in es || f == e;
  }

  // ---- the owner as a function of the row's history

  /** Whose a row is and where it came from. */
  datatype Origin = Origin(
    user: Option<int>, client: Option<string>, conversation: Option<string>, capability: Option<string>,
    uploader: Option<string>, sender: Option<string>, nonce: Option<string>, whitelist: Option<seq<string>>,
    created: int)

  function OriginOf(r: Row): Origin {
    Origin(r.user, r.client, r.conversation, r.capability,
           r.uploader, r.remoteSender, r.nonce, r.whitelist, r.createdAt)
  }

  /** What the request that creates a row makes of it: a staged or sent file is the
      local user's and client's, an output belongs to the client and conversation
      that asked for it, a peer's upload to that peer. */
  predicate Creates(ctx: Ctx, e: Event, h: Hash, o: Origin) {
    match e
    case StageLocal(hash, _, _, _, user, client, now) =>
      hash == h && o == Origin(user, client, None, None, None, None, None, None, now)
    case OutboundUpload(hash, _, _, user, client, now) =>
      hash == h && o == Origin(user, client, None, None, Some(ctx.self), None, None, None, now)
    case InboundOutput(hash, _, _, _, capability, client, conversation, now) =>
      hash == h && o == Origin(None, client, conversation, Some(capability), None, None, None, None, now)
    case PeerPut(hash, _, _, _, capability, uploader, nonce, whitelist, now) =>
      hash == h
      && o == Origin(None, None, None, Some(capability), Some(uploader), Some(uploader), Some(nonce), whitelist, now)
    case _ => false
  }

  lemma CreatedBy(ctx: Ctx, rows: Rows, e: Event, h: Hash)
    requires h !in rows && h in Apply(ctx, rows, e)
    ensures Creates(ctx, e, h, OriginOf(Apply(ctx, rows, e)[h]))
  {
    hide BlobPath.Sanitize, BlobPath.IsSound, OutputPath, Sanitized;
  }

  lemma OriginStays(ctx: Ctx, rows: Rows, e: Event, h: Hash)
    requires h in rows && h in Apply(ctx, rows, e)
    ensures OriginOf(Apply(ctx, rows, e)[h]) == OriginOf(rows[h])
  {
    hide BlobPath.Sanitize, BlobPath.IsSound, OutputPath, Sanitized;
  }

  /** As long as it lives a row's user, client, conversation, capability, uploader
      and creation time are those of the request that created it, whatever was
      uploaded, sent or returned under the same hash since. */
  lemma {:induction false} OwnerIsTheCreator(ctx: Ctx, rows: Rows, es: seq<Event>, h: Hash)
    requires es != [] && h !in rows && Lives(ctx, rows, es, h)
    ensures h in Run(ctx, rows, es) && Creates(ctx, es[0], h, OriginOf(Run(ctx, rows, es)[h]))
  {
    hide Apply, Creates, OriginOf;
    LivesPrefix(ctx, rows, es, h);
    var front, last := es[..|es| - 1], es[|es| - 1];
    if front == [] {
      assert Run(ctx, rows, front) == rows;
      CreatedBy(ctx, rows, last, h);
    } else {
      OwnerIsTheCreator(ctx, rows, front, h);
      OriginStays(ctx, Run(ctx, rows, front), last, h);
    }
  }

  /** So an output stays in the Files panel of the client that asked for it, and in
      no other client's. */
  lemma OutputsAreShownToTheirClient(ctx: Ctx, rows: Rows, es: seq<Event>, h: Hash, client: string)
    requires GoodCalendar(ctx) && RowsAreClassed(rows)
    requires es != [] && h !in rows && Lives(ctx, rows, es, h) && es[0].InboundOutput?
    ensures h in Run(ctx, rows, es)
    ensures Shown(Run(ctx, rows, es)[h], None, Some(client)) <==> es[0].client == Some(client)
  {
    OwnerIsTheCreator(ctx, rows, es, h);
    ClassIsHistory(ctx, rows, es, h);
    RunKeepsClasses(ctx, rows, es);
  }

  lemma {:induction false} RunKeepsClasses(ctx: Ctx, rows: Rows, es: seq<Event>)
    requires GoodCalendar(ctx) && RowsAreClassed(rows)
    ensures RowsAreClassed(Run(ctx, rows, es))
  {
    if es != [] {
      RunKeepsClasses(ctx, rows, es[..|es| - 1]);
      StepKeepsClasses(ctx, Run(ctx, rows, es[..|es| - 1]), es[|es| - 1]);
    }
  }

  /** How long a row lives from each event on: an hour for inputs, a day for
      outputs of either kind, what was granted for a peer's upload. Nothing else
      moves its expiry. */
  lemma ExpiryIs(ctx: Ctx, rows: Rows, e: Event, h: Hash)
    requires h in Apply(ctx, rows, e)
    ensures e.StageLocal? && e.hash == h ==> Apply(ctx, rows, e)[h].expiresAt == e.now + 3600
    ensures e.InboundOutput? && e.hash == h ==> Apply(ctx, rows, e)[h].expiresAt == e.now + 86400
    ensures e.PeerPut? && e.hash == h ==> Apply(ctx, rows, e)[h].expiresAt == e.expiresAt
    ensures e.OutboundUpload? && e.hash == h && (h in rows ==> ClassOf(rows[h]) in {Some(A), Some(D)}) ==>
      Apply(ctx, rows, e)[h].expiresAt == e.now + 3600
    ensures e.HeldOutput? && e.hash == h && h in rows && ClassOf(rows[h]) in {Some(A), Some(B), Some(D)} ==>
      Apply(ctx, rows, e)[h].expiresAt == e.now + 86400
    ensures h in rows && (e.Read? || e.UserDelete? || e.PeerDelete? || e.Gc? || e.hash != h
                          || (e.OutboundUpload? && ClassOf(rows[h]) in {Some(B), Some(C)})
                          || (e.HeldOutput? && ClassOf(rows[h]) == Some(C))) ==>
      Apply(ctx, rows, e)[h].expiresAt == rows[h].expiresAt
  {
    hide BlobPath.Sanitize, BlobPath.IsSound, OutputPath, Sanitized;
  }

  /** What a row is called: the first usable name stays, except that a held output
      takes the name its capability chose. */
  lemma PathIs(ctx: Ctx, rows: Rows, e: Event, h: Hash)
    requires h in Apply(ctx, rows, e)
    ensures e.StageLocal? && e.hash == h ==>
      Apply(ctx, rows, e)[h].path == if h in rows && rows[h].path.Some? then rows[h].path else Sanitized(e.name)
    ensures e.InboundOutput? && e.hash == h ==>
      Apply(ctx, rows, e)[h].path == if h in rows && rows[h].path.Some? then rows[h].path else OutputPath(ctx, e)
    ensures e.HeldOutput? && e.hash == h && h in rows && ClassOf(rows[h]) in {Some(A), Some(B), Some(D)} ==>
      Apply(ctx, rows, e)[h].path == if Sanitized(e.name).Some? then Sanitized(e.name) else rows[h].path
    ensures h in rows && (!(e.StageLocal? || e.InboundOutput? || e.HeldOutput?) || e.hash != h) ==>
      Apply(ctx, rows, e)[h].path == rows[h].path
  {
    hide BlobPath.Sanitize, BlobPath.IsSound, OutputPath, Sanitized;
  }

  /** A row's stage of processing after each event. */
  lemma StatusIs(ctx: Ctx, rows: Rows, e: Event, h: Hash)
    requires h in Apply(ctx, rows, e)
    ensures (e.StageLocal? || e.PeerPut?) && e.hash == h ==> Apply(ctx, rows, e)[h].status == Staged
    ensures e.InboundOutput? && e.hash == h ==> Apply(ctx, rows, e)[h].status == Ready
    ensures e.OutboundUpload? && e.hash == h && (h in rows ==> ClassOf(rows[h]) in {Some(A), Some(D)}) ==>
      Apply(ctx, rows, e)[h].status == Referenced
    ensures e.HeldOutput? && e.hash == h && h in rows && ClassOf(rows[h]) in {Some(A), Some(B), Some(D)} ==>
      Apply(ctx, rows, e)[h].status == Ready
    ensures h in rows && (e.Read? || e.UserDelete? || e.PeerDelete? || e.Gc? || e.hash != h
                          || (e.OutboundUpload? && ClassOf(rows[h]) in {Some(B), Some(C)})
                          || (e.HeldOutput? && ClassOf(rows[h]) == Some(C))) ==>
      Apply(ctx, rows, e)[h].status == rows[h].status
  {
    hide BlobPath.Sanitize, BlobPath.IsSound, OutputPath, Sanitized;
  }

  /** What a row says of its bytes is what the last write of them said: nothing but
      an insert site changes size, type or place. */
  lemma ContentIs(ctx: Ctx, rows: Rows, e: Event, h: Hash)
    requires h in Apply(ctx, rows, e)
    ensures (e.StageLocal? || e.InboundOutput? || e.PeerPut? || (e.OutboundUpload? && h !in rows)) && e.hash == h ==>
      && Apply(ctx, rows, e)[h].size == e.size && Apply(ctx, rows, e)[h].mime == e.mime
      && Apply(ctx, rows, e)[h].storage == ctx.root + "/" + h
    ensures h in rows && (!(e.StageLocal? || e.InboundOutput? || e.PeerPut?) || e.hash != h) ==>
      && (Apply(ctx, rows, e)[h].size, Apply(ctx, rows, e)[h].mime, Apply(ctx, rows, e)[h].storage)
         == (rows[h].size, rows[h].mime, rows[h].storage)
  {
    hide BlobPath.Sanitize, BlobPath.IsSound, OutputPath, Sanitized;
  }

  // ---- who sees a row, and who can remove it

  /** A row of the Files panel: `list_user_visible`. */
  predicate Shown(r: Row, user: Option<int>, client: Option<string>) {
    r.visible && ((user.Some? && r.user == user) || (client.Some? && r.client == client))
  }

  /** The ways out: the collector after the expiry, the peer that uploaded it, or,
      for every class but C, the local user or client that owns it. */
  lemma RowsLeave(ctx: Ctx, rows: Rows, e: Event, h: Hash)
    requires RowsAreClassed(rows) && h in rows
    ensures h !in Apply(ctx, rows, e) <==>
      || (e.Gc? && rows[h].expiresAt <= e.now)
      || (e.PeerDelete? && e.hash == h && rows[h].uploader == Some(e.sender))
      || (e.UserDelete? && e.hash == h && ClassOf(rows[h]) != Some(C)
          && (rows[h].user == Some(e.account) || (e.client.Some? && rows[h].client == e.client)))
  {
    hide BlobPath.Sanitize, BlobPath.IsSound, OutputPath, Sanitized;
  }

  /** A cap staging blob is shown to nobody, and only the garbage collector after
      its expiry or the peer that uploaded it can remove it. */
  lemma StagedBlobsAreApart(ctx: Ctx, rows: Rows, e: Event, h: Hash, user: Option<int>, client: Option<string>)
    requires RowsAreClassed(rows) && h in rows && ClassOf(rows[h]) == Some(C)
    ensures !Shown(rows[h], user, client)
    ensures h !in Apply(ctx, rows, e) <==>
      (e.Gc? && rows[h].expiresAt <= e.now) || (e.PeerDelete? && e.hash == h && rows[h].uploader == Some(e.sender))
  {
    hide BlobPath.Sanitize, BlobPath.IsSound, OutputPath, Sanitized;
  }
}
