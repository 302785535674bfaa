/** Anti-replay across `/messages` and `/blobs`: the clock-skew check of
    `verify_envelope` (crates/core/src/verify.rs), the nonce table and its pruning
    (crates/storage/src/nonces.rs), and the two handlers that share them
    (crates/node/src/handler.rs, crates/server/src/blobs.rs). Time is in
    nanoseconds, the resolution of the source's clock. */
module AntiReplay {
  import opened Collections
  import opened Options

  const SECOND: int := 1_000_000_000

  datatype Verb = DescribeSelf | GetKnownPeers | Ping | Invoke | BlobTicket

  datatype Envelope = Envelope(
    sender: string, recipient: string, timestamp: int, nonce: string, verb: Verb, payload: string,
    endpoint: Option<string>)

  datatype SignedMessage = SignedMessage(envelope: Envelope, publicKey: string, signature: string)

  /** `clockSkew` and `ttl` in seconds; `authentic` stands for the key binding
      and the Ed25519 check. */
  datatype Config = Config(self: string, clockSkew: nat, ttl: nat, authentic: SignedMessage -> bool)

  datatype Verdict = RecipientMismatch | TimestampOutOfWindow | SignatureInvalid | Verified

  function Abs(x: int): nat { if x < 0 then -x else x }

  /** Whole seconds of the distance, compared with the allowed skew. */
  predicate InWindow(cfg: Config, m: SignedMessage, now: int) {
    Abs(now - m.envelope.timestamp) / SECOND <= cfg.clockSkew
  }

  function VerifyEnvelope(cfg: Config, m: SignedMessage, now: int): Verdict {
    if m.envelope.recipient != cfg.self then RecipientMismatch
    else if !InWindow(cfg, m, now) then TimestampOutOfWindow
    else if !cfg.authentic(m) then SignatureInvalid
    else Verified
  }

  type Key = (string, string)

  function KeyOf(m: SignedMessage): Key { (m.envelope.sender, m.envelope.nonce) }

  /** `OffsetDateTime::unix_timestamp`. */
  function UnixSeconds(t: int): int { t / SECOND }

  type Nonces = map<Key, int>

  function PruneOlderThan(nonces: Nonces, cutoff: int): Nonces {
    map k | k in nonces && nonces[k] >= cutoff :: nonces[k]
  }

  // ---------------------------------------------------------------------
  // The handlers, one atomic section at a time
  // ---------------------------------------------------------------------

  datatype Route = Messages | Blobs

  datatype Stage =
    | Checked(at: int)            // verified against the clock reading `at`
    | Stamped(at: int, now: int)  // read the clock again for the nonce row
    | Accepted(now: int)          // nonce inserted, pruning still to do
    | Closed

  datatype Request = Request(route: Route, msg: SignedMessage, stage: Stage)

  datatype State = State(clock: int, nonces: Nonces, requests: map<nat, Request>, accepted: seq<SignedMessage>)

  function Init(clock: int): State { State(clock, map[], map[], []) }

  datatype Step =
    | Tick(ns: nat)
    | Receive(r: nat, route: Route, msg: SignedMessage)
    | ReadClock(r: nat)
    | Insert(r: nat)
    | Prune(r: nat)
    | Drop(r: nat)   // an error on the way, or a prune that failed

  /** `delay` bounds the time from the verification to the nonce insert. */
  predicate Enabled(delay: int, s: State, step: Step) {
    match step
    case Tick(_) => true
    case Receive(r, _, _) => r !in s.requests
    case ReadClock(r) => r in s.requests && s.requests[r].stage.Checked?
    case Insert(r) =>
      && r in s.requests && s.requests[r].stage.Stamped?
      && s.clock <= s.requests[r].stage.at + delay
    case Prune(r) => r in s.requests && s.requests[r].stage.Accepted?
    case Drop(r) => r in s.requests
  }

  function Moved(s: State, r: nat, stage: Stage): State
    requires r in s.requests
  {
    s.(requests := s.requests[r := s.requests[r].(stage := stage)])
  }

  /** `/blobs` also insists on the ticket verb, before touching the table. */
  function Received(cfg: Config, s: State, r: nat, route: Route, m: SignedMessage): State {
    var ok := VerifyEnvelope(cfg, m, s.clock).Verified? && (route.Blobs? ==> m.envelope.verb.BlobTicket?);
    s.(requests := s.requests[r := Request(route, m, if ok then Checked(s.clock) else Closed)])
  }

  /** `INSERT OR IGNORE`: an existing row means replay. Only `/messages` prunes. */
  function Inserted(s: State, r: nat): State
    requires r in s.requests && s.requests[r].stage.Stamped?
  {
    var q := s.requests[r];
    if KeyOf(q.msg) in s.nonces then Moved(s, r, Closed)
    else
      Moved(s, r, if q.route.Messages? then Accepted(q.stage.now) else Closed)
        .(nonces := s.nonces[KeyOf(q.msg) := UnixSeconds(q.stage.now)], accepted := s.accepted + [q.msg])
  }

  function Apply(cfg: Config, delay: int, s: State, step: Step): State
    requires Enabled(delay, s, step)
  {
    match step
    case Tick(ns) => s.(clock := s.clock + ns)
    case Receive(r, route, m) => Received(cfg, s, r, route, m)
    case ReadClock(r) => Moved(s, r, Stamped(s.requests[r].stage.at, s.clock))
    case Insert(r) => Inserted(s, r)
    case Prune(r) =>
      Moved(s, r, Closed)
        .(nonces := PruneOlderThan(s.nonces, UnixSeconds(s.requests[r].stage.now) - cfg.ttl))
    case Drop(r) => Moved(s, r, Closed)
  }

  /** The state a list of steps leads to, when each is possible in turn. */
  function Final(cfg: Config, delay: int, s: State, steps: seq<Step>): Option<State>
    decreases |steps|
  {
    if steps == [] then Some(s)
    else
      match Final(cfg, delay, s, steps[..|steps| - 1])
      case None => None
      case Some(t) =>
        if Enabled(delay, t, steps[|steps| - 1]) then Some(Apply(cfg, delay, t, steps[|steps| - 1])) else None
  }

  // ---------------------------------------------------------------------
  // Safety
  // ---------------------------------------------------------------------

  /** Last and first clock readings at which `m` can still be verified. */
  function LastCheck(cfg: Config, m: SignedMessage): int {
    m.envelope.timestamp + (cfg.clockSkew + 1) * SECOND - 1
  }

  function FirstCheck(cfg: Config, m: SignedMessage): int {
    m.envelope.timestamp - (cfg.clockSkew + 1) * SECOND + 1
  }

  lemma WindowIs(cfg: Config, m: SignedMessage, now: int)
    ensures InWindow(cfg, m, now) <==> FirstCheck(cfg, m) <= now <= LastCheck(cfg, m)
  {
    var d := Abs(now - m.envelope.timestamp);
    assert d / SECOND <= cfg.clockSkew <==> d < (cfg.clockSkew + 1) * SECOND;
  }

  /** The longest verify-to-insert delay, in nanoseconds, that is safe. */
  function SafeDelay(cfg: Config): int {
    (cfg.ttl - 2 * cfg.clockSkew - 2) * SECOND + 2
  }

  /** No request for `m` can be inserted any more. */
  predicate Expired(cfg: Config, delay: int, s: State, m: SignedMessage) {
    s.clock > LastCheck(cfg, m) + delay
  }

  predicate Guarded(cfg: Config, delay: int, s: State, m: SignedMessage) {
    || Expired(cfg, delay, s, m)
    || (KeyOf(m) in s.nonces && s.nonces[KeyOf(m)] >= UnixSeconds(FirstCheck(cfg, m)))
  }

  predicate StageInv(cfg: Config, s: State, q: Request) {
    match q.stage
    case Checked(at) => FirstCheck(cfg, q.msg) <= at <= LastCheck(cfg, q.msg) && at <= s.clock
    case Stamped(at, now) => FirstCheck(cfg, q.msg) <= at <= LastCheck(cfg, q.msg) && at <= now <= s.clock
    case Accepted(now) => now <= s.clock
    case Closed => true
  }

  /** No two of them carry the same envelope, whoever signed it how often. */
  predicate Distinct(ms: seq<SignedMessage>) {
    forall i, j | 0 <= i < j < |ms| :: ms[i].envelope != ms[j].envelope
  }

  ghost predicate Inv(cfg: Config, delay: int, s: State) {
    && (forall r | r in s.requests :: StageInv(cfg, s, s.requests[r]))
    && (forall i | 0 <= i < |s.accepted| :: Guarded(cfg, delay, s, s.accepted[i]))
    && Distinct(s.accepted)
  }

  /** A row young enough to guard its message outlives every prune that runs
      before the message expires. */
  lemma PruneKeepsGuard(cfg: Config, delay: int, s: State, now: int, m: SignedMessage)
    requires delay <= SafeDelay(cfg) && now <= s.clock && Guarded(cfg, delay, s, m)
    ensures Guarded(cfg, delay, s.(nonces := PruneOlderThan(s.nonces, UnixSeconds(now) - cfg.ttl)), m)
  {
    if UnixSeconds(now) >= UnixSeconds(FirstCheck(cfg, m)) + 1 + cfg.ttl {
      RoundingBound(FirstCheck(cfg, m), now, cfg.ttl);
    }
  }

  /** Whole-second rounding costs less than one second on each side. */
  lemma RoundingBound(first: int, now: int, ttl: nat)
    requires UnixSeconds(now) >= UnixSeconds(first) + 1 + ttl
    ensures now >= first + 1 + ttl * SECOND
  {
  }

  lemma InsertKeeps(cfg: Config, delay: int, s: State, r: nat)
    requires delay <= SafeDelay(cfg) && Inv(cfg, delay, s) && Enabled(delay, s, Insert(r))
    ensures Inv(cfg, delay, Apply(cfg, delay, s, Insert(r)))
  {
    var q := s.requests[r];
    var s' := Apply(cfg, delay, s, Insert(r));
    assert StageInv(cfg, s, q);
    if KeyOf(q.msg) !in s.nonces {
      forall i | 0 <= i < |s.accepted|
        ensures s.accepted[i].envelope != q.msg.envelope && Guarded(cfg, delay, s', s.accepted[i])
      {
        assert Guarded(cfg, delay, s, s.accepted[i]);
      }
      assert UnixSeconds(q.stage.now) >= UnixSeconds(FirstCheck(cfg, q.msg));
      assert Guarded(cfg, delay, s', q.msg);
    }
  }

  lemma StepKeeps(cfg: Config, delay: int, s: State, step: Step)
    requires delay <= SafeDelay(cfg) && Inv(cfg, delay, s) && Enabled(delay, s, step)
    ensures Inv(cfg, delay, Apply(cfg, delay, s, step))
  {
    var s' := Apply(cfg, delay, s, step);
    match step {
      case Insert(r) =>
        InsertKeeps(cfg, delay, s, r);
      case Receive(_, _, m) =>
        WindowIs(cfg, m, s.clock);
        forall i | 0 <= i < |s.accepted| ensures Guarded(cfg, delay, s', s.accepted[i]) {
          assert Guarded(cfg, delay, s, s.accepted[i]);
        }
      case Prune(r) =>
        assert StageInv(cfg, s, s.requests[r]);
        forall i | 0 <= i < |s.accepted| ensures Guarded(cfg, delay, s', s.accepted[i]) {
          PruneKeepsGuard(cfg, delay, s, s.requests[r].stage.now, s.accepted[i]);
        }
      case _ =>
        forall i | 0 <= i < |s.accepted| ensures Guarded(cfg, delay, s', s.accepted[i]) {
          assert Guarded(cfg, delay, s, s.accepted[i]);
        }
    }
  }

  lemma {:induction false} RunKeeps(cfg: Config, delay: int, s: State, steps: seq<Step>)
    requires delay <= SafeDelay(cfg) && Inv(cfg, delay, s) && Final(cfg, delay, s, steps).Some?
    ensures Inv(cfg, delay, Final(cfg, delay, s, steps).value)
    decreases |steps|
  {
    if steps != [] {
      RunKeeps(cfg, delay, s, steps[..|steps| - 1]);
      StepKeeps(cfg, delay, Final(cfg, delay, s, steps[..|steps| - 1]).value, steps[|steps| - 1]);
    }
  }

  /** No envelope is accepted twice, however often it was signed, on either route, in any interleaving,
      as long as the delay stays within the bound. */
  lemma NeverAcceptedTwice(cfg: Config, delay: int, clock: int, steps: seq<Step>, s: State)
    requires delay <= SafeDelay(cfg)
    requires Final(cfg, delay, Init(clock), steps) == Some(s)
    ensures Distinct(s.accepted)
  {
    RunKeeps(cfg, delay, Init(clock), steps);
  }

  /** The shipped policy (five minutes of skew, one hour of memory) tolerates any
      delay up to 2998 seconds. */
  lemma DefaultsAreSafe(cfg: Config, delay: int, clock: int, steps: seq<Step>, s: State)
    requires cfg.clockSkew == 300 && cfg.ttl == 3600 && delay <= 2998 * SECOND
    requires Final(cfg, delay, Init(clock), steps) == Some(s)
    ensures Distinct(s.accepted)
  {
    NeverAcceptedTwice(cfg, delay, clock, steps, s);
  }

  // ---------------------------------------------------------------------
  // What gets in
  // ---------------------------------------------------------------------

  /** Addressed to this instance, signed, and checked inside its window. */
  predicate Authentic(cfg: Config, m: SignedMessage, at: int) {
    m.envelope.recipient == cfg.self && cfg.authentic(m) && FirstCheck(cfg, m) <= at <= LastCheck(cfg, m)
  }

  /** The route takes the message's verb: `/blobs` only tickets. */
  predicate TakesVerb(route: Route, m: SignedMessage) { route == Blobs ==> m.envelope.verb == BlobTicket }

  /** A received message goes on exactly when it is authentic and its route takes it. */
  lemma ReceiveAdmits(cfg: Config, delay: int, s: State, r: nat, route: Route, m: SignedMessage)
    requires Enabled(delay, s, Receive(r, route, m))
    ensures var q := Apply(cfg, delay, s, Receive(r, route, m)).requests[r];
      && q.route == route && q.msg == m
      && (q.stage == Checked(s.clock) <==> Authentic(cfg, m, s.clock) && TakesVerb(route, m))
      && (q.stage == Closed <==> !(Authentic(cfg, m, s.clock) && TakesVerb(route, m)))
  {
    WindowIs(cfg, m, s.clock);
  }

  /** An insert accepts exactly the messages whose sender and nonce the table does
      not hold, and remembers them under the second they were stamped at. */
  lemma InsertAccepts(cfg: Config, delay: int, s: State, r: nat, q: Request, s': State)
    requires Enabled(delay, s, Insert(r)) && q == s.requests[r] && s' == Apply(cfg, delay, s, Insert(r))
    ensures KeyOf(q.msg) in s.nonces ==> s'.accepted == s.accepted && s'.nonces == s.nonces
    ensures KeyOf(q.msg) !in s.nonces ==>
      s'.accepted == s.accepted + [q.msg] && s'.nonces == s.nonces[KeyOf(q.msg) := UnixSeconds(q.stage.now)]
    ensures r in s'.requests
    ensures s'.requests[r].stage
         == if KeyOf(q.msg) !in s.nonces && q.route == Messages then Accepted(q.stage.now) else Closed
  {
  }

  predicate Entitled(cfg: Config, q: Request) {
    q.stage.Checked? || q.stage.Stamped? ==> Authentic(cfg, q.msg, q.stage.at) && TakesVerb(q.route, q.msg)
  }

  predicate AllEntitled(cfg: Config, s: State) {
    && (forall r | r in s.requests :: Entitled(cfg, s.requests[r]))
    && (forall i | 0 <= i < |s.accepted| ::
          s.accepted[i].envelope.recipient == cfg.self && cfg.authentic(s.accepted[i]))
  }

  lemma StepEntitles(cfg: Config, delay: int, s: State, step: Step)
    requires AllEntitled(cfg, s) && Enabled(delay, s, step)
    ensures AllEntitled(cfg, Apply(cfg, delay, s, step))
  {
    match step {
      case Receive(r, route, m) => ReceiveAdmits(cfg, delay, s, r, route, m);
      case Insert(r) =>
        assert Entitled(cfg, s.requests[r]);
        InsertAccepts(cfg, delay, s, r, s.requests[r], Apply(cfg, delay, s, step));
      case Prune(r) =>
      case _ =>
    }
  }

  /** In every run only messages signed for this instance are accepted, and one is
      on its way only if it was checked inside its window, and on `/blobs` is a ticket. */
  lemma {:induction false} OnlyAuthenticIsAccepted(cfg: Config, delay: int, clock: int, steps: seq<Step>, s: State)
    requires Final(cfg, delay, Init(clock), steps) == Some(s)
    ensures AllEntitled(cfg, s)
    decreases |steps|
  {
    hide AllEntitled, Apply, Enabled;
    if steps != [] {
      var front := steps[..|steps| - 1];
      var t := Final(cfg, delay, Init(clock), front).value;
      OnlyAuthenticIsAccepted(cfg, delay, clock, front, t);
      StepEntitles(cfg, delay, t, steps[|steps| - 1]);
    } else {
      NobodyYet(cfg, clock);
    }
  }

  lemma NobodyYet(cfg: Config, clock: int)
    ensures AllEntitled(cfg, Init(clock))
  {
  }

  // ---------------------------------------------------------------------
  // The table and the gate, updated in place
  // ---------------------------------------------------------------------

  /** The `nonces` table. */
  class NonceTable {
    var rows: Nonces

    constructor ()
      ensures rows == map[]
    {
      rows := map[];
    }

    /** True when newly inserted, false on a replay. */
    method InsertIfAbsent(sender: string, nonce: string, seenAt: int) returns (inserted: bool)
      modifies this
      ensures inserted <==> (sender, nonce) !in old(rows)
      ensures inserted ==> rows == old(rows)[(sender, nonce) := seenAt]
      ensures !inserted ==> rows == old(rows)
    {
      inserted := (sender, nonce) !in rows;
      if inserted { rows := rows[(sender, nonce) := seenAt]; }
    }

    method Prune(cutoff: int) returns (deleted: nat)
      modifies this
      ensures rows == PruneOlderThan(old(rows), cutoff)
      ensures deleted == |old(rows)| - |rows|
    {
      var kept := PruneOlderThan(rows, cutoff);
      assert kept.Keys <= rows.Keys;
      SubsetSize(kept.Keys, rows.Keys);
      deleted := |rows.Keys| - |kept.Keys|;
      rows := kept;
    }
  }

  datatype Admission = Refused(verdict: Verdict) | NotATicket | Replay | Admitted

  /** The part the two handlers share, without interference: verify at one clock
      reading, insert at the next, and prune on `/messages` unless pruning fails. */
  method Admit(
    cfg: Config, table: NonceTable, route: Route, m: SignedMessage, checkedAt: int, now: int, pruneFails: bool)
    returns (r: Admission)
    modifies table
    ensures r == Refused(RecipientMismatch) <==> m.envelope.recipient != cfg.self
    ensures r == Refused(TimestampOutOfWindow) <==>
              m.envelope.recipient == cfg.self && !(FirstCheck(cfg, m) <= checkedAt <= LastCheck(cfg, m))
    ensures r == Refused(SignatureInvalid) <==>
              && m.envelope.recipient == cfg.self && FirstCheck(cfg, m) <= checkedAt <= LastCheck(cfg, m)
              && !cfg.authentic(m)
    ensures r == NotATicket <==> Authentic(cfg, m, checkedAt) && !TakesVerb(route, m)
    ensures r == Replay <==>
              && Authentic(cfg, m, checkedAt) && TakesVerb(route, m)
              && KeyOf(m) in old(table.rows)
    ensures r.Admitted? <==>
              && Authentic(cfg, m, checkedAt) && TakesVerb(route, m)
              && KeyOf(m) !in old(table.rows)
    ensures !r.Admitted? ==> table.rows == old(table.rows)
    ensures r.Admitted? && (route.Blobs? || pruneFails) ==>
              table.rows == old(table.rows)[KeyOf(m) := UnixSeconds(now)]
    ensures r.Admitted? && route.Messages? && !pruneFails ==>
              && KeyOf(m) in table.rows
              && table.rows == PruneOlderThan(old(table.rows)[KeyOf(m) := UnixSeconds(now)], UnixSeconds(now) - cfg.ttl)
  {
    WindowIs(cfg, m, checkedAt);
    var verdict := VerifyEnvelope(cfg, m, checkedAt);
    if !verdict.Verified? { return Refused(verdict); }
    if route.Blobs? && !m.envelope.verb.BlobTicket? { return NotATicket; }
    var inserted := table.InsertIfAbsent(m.envelope.sender, m.envelope.nonce, UnixSeconds(now));
    if !inserted { return Replay; }
    if route.Messages? && !pruneFails {
      var _ := table.Prune(UnixSeconds(now) - cfg.ttl);
    }
    return Admitted;
  }
}
