/** The bound on the verify-to-insert delay is exact: a replay for every longer one. */
module AntiReplayBound {
  import opened Options
  import opened AntiReplay

  lemma Then(cfg: Config, delay: int, s: State, steps: seq<Step>, t: State, step: Step)
    requires Final(cfg, delay, s, steps) == Some(t) && Enabled(delay, t, step)
    ensures Final(cfg, delay, s, steps + [step]) == Some(Apply(cfg, delay, t, step))
  {
    assert (steps + [step])[..|steps|] == steps;
  }

  /** One message received, stamped and inserted at the same instant. */
  lemma AcceptedAtOnce(
    cfg: Config, delay: int, s0: State, steps: seq<Step>, s: State, r: nat, route: Route, m: SignedMessage)
    returns (steps': seq<Step>, s': State)
    requires Final(cfg, delay, s0, steps) == Some(s) && r !in s.requests && delay >= 0
    requires VerifyEnvelope(cfg, m, s.clock).Verified? && (route.Blobs? ==> m.envelope.verb.BlobTicket?)
    requires KeyOf(m) !in s.nonces
    ensures Final(cfg, delay, s0, steps') == Some(s')
    ensures s'.clock == s.clock && s'.accepted == s.accepted + [m]
    ensures s'.nonces == s.nonces[KeyOf(m) := UnixSeconds(s.clock)]
    ensures r in s'.requests && (route.Messages? ==> s'.requests[r].stage == Accepted(s.clock))
    ensures forall x | x != r :: (x in s'.requests <==> x in s.requests)
    ensures forall x | x != r && x in s.requests :: s'.requests[x] == s.requests[x]
  {
    Then(cfg, delay, s0, steps, s, Receive(r, route, m));
    var s1 := Apply(cfg, delay, s, Receive(r, route, m));
    var steps1 := steps + [Receive(r, route, m)];
    Then(cfg, delay, s0, steps1, s1, ReadClock(r));
    var s2 := Apply(cfg, delay, s1, ReadClock(r));
    Then(cfg, delay, s0, steps1 + [ReadClock(r)], s2, Insert(r));
    steps' := steps1 + [ReadClock(r)] + [Insert(r)];
    s' := Apply(cfg, delay, s2, Insert(r));
  }

  /** The last nanosecond of second `k`, and the first one `ttl + 1` seconds later. */
  lemma NextSecond(k: int, ttl: nat)
    ensures UnixSeconds((k + 1) * SECOND - 1) == k
    ensures UnixSeconds((k + 1 + ttl) * SECOND) == k + 1 + ttl
  {
  }

  /** A message received `wait` later and stamped at once, not yet inserted. */
  lemma Stamps(
    cfg: Config, delay: int, s0: State, steps: seq<Step>, s: State, wait: nat, r: nat, route: Route, m: SignedMessage)
    returns (steps': seq<Step>, s': State)
    requires Final(cfg, delay, s0, steps) == Some(s) && r !in s.requests
    requires VerifyEnvelope(cfg, m, s.clock + wait).Verified? && (route.Blobs? ==> m.envelope.verb.BlobTicket?)
    ensures Final(cfg, delay, s0, steps') == Some(s')
    ensures s' == s.(clock := s.clock + wait,
                     requests := s.requests[r := Request(route, m, Stamped(s.clock + wait, s.clock + wait))])
  {
    hide Final;
    Then(cfg, delay, s0, steps, s, Tick(wait));
    var s1 := Apply(cfg, delay, s, Tick(wait));
    var steps1 := steps + [Tick(wait)];
    Then(cfg, delay, s0, steps1, s1, Receive(r, route, m));
    var s2 := Apply(cfg, delay, s1, Receive(r, route, m));
    var steps2 := steps1 + [Receive(r, route, m)];
    Then(cfg, delay, s0, steps2, s2, ReadClock(r));
    s' := Apply(cfg, delay, s2, ReadClock(r));
    steps' := steps2 + [ReadClock(r)];
  }

  /** A message accepted on `/messages` after `wait`, prune included. */
  lemma AcceptsAndPrunes(
    cfg: Config, delay: int, s0: State, steps: seq<Step>, s: State, wait: nat, r: nat, m: SignedMessage)
    returns (steps': seq<Step>, s': State)
    requires Final(cfg, delay, s0, steps) == Some(s) && r !in s.requests && delay >= 0
    requires VerifyEnvelope(cfg, m, s.clock + wait).Verified? && KeyOf(m) !in s.nonces
    ensures Final(cfg, delay, s0, steps') == Some(s')
    ensures s'.clock == s.clock + wait && s'.accepted == s.accepted + [m]
    ensures s'.nonces == PruneOlderThan(s.nonces[KeyOf(m) := UnixSeconds(s'.clock)], UnixSeconds(s'.clock) - cfg.ttl)
    ensures forall x | x != r && x in s.requests :: x in s'.requests && s'.requests[x] == s.requests[x]
  {
    hide Final, VerifyEnvelope;
    Then(cfg, delay, s0, steps, s, Tick(wait));
    var s1 := Apply(cfg, delay, s, Tick(wait));
    var steps2, s2 := AcceptedAtOnce(cfg, delay, s0, steps + [Tick(wait)], s1, r, Messages, m);
    Then(cfg, delay, s0, steps2, s2, Prune(r));
    s' := Apply(cfg, delay, s2, Prune(r));
    steps' := steps2 + [Prune(r)];
  }

  /** An insert within its delay, of a key the table does not hold. */
  lemma InsertsStamped(cfg: Config, delay: int, s0: State, steps: seq<Step>, s: State, r: nat)
    returns (steps': seq<Step>, s': State)
    requires Final(cfg, delay, s0, steps) == Some(s) && Enabled(delay, s, Insert(r))
    requires KeyOf(s.requests[r].msg) !in s.nonces
    ensures Final(cfg, delay, s0, steps') == Some(s')
    ensures s'.accepted == s.accepted + [s.requests[r].msg]
  {
    hide Final;
    Then(cfg, delay, s0, steps, s, Insert(r));
    s' := Apply(cfg, delay, s, Insert(r));
    steps' := steps + [Insert(r)];
  }

  lemma Forgets(nonces: Nonces, cutoff: int, k: Key)
    requires k in nonces && nonces[k] < cutoff
    ensures k !in PruneOlderThan(nonces, cutoff)
  {
  }

  /** Any longer delay lets a message back in: `m` is accepted in the last
      nanosecond of a second, verified again at the end of its window, and
      inserted once a second message has pruned its row. */
  lemma LongerDelayAdmitsReplay(cfg: Config, delay: int, m: SignedMessage, other: SignedMessage)
    returns (clock: int, steps: seq<Step>, s: State)
    requires delay > SafeDelay(cfg) && cfg.ttl >= 2 * cfg.clockSkew + 2
    requires m.envelope.recipient == cfg.self && cfg.authentic(m)
    requires other.envelope.recipient == cfg.self && cfg.authentic(other) && KeyOf(other) != KeyOf(m)
    requires m.envelope.timestamp % SECOND == SECOND - 2
    requires other.envelope.timestamp == FirstCheck(cfg, m) + 1 + cfg.ttl * SECOND
    ensures Final(cfg, delay, Init(clock), steps) == Some(s)
    ensures s.accepted == [m, other, m] && !Distinct(s.accepted)
  {
    hide Final, VerifyEnvelope, PruneOlderThan;
    clock := FirstCheck(cfg, m);
    var st2, s2 := VerifiedTwice(cfg, delay, m);
    VerifiedWithin(cfg, other, other.envelope.timestamp);
    var wait := other.envelope.timestamp - s2.clock;
    var st3, s3 := AcceptsAndPrunes(cfg, delay, Init(clock), st2, s2, wait, 3, other);
    NextSecond(m.envelope.timestamp / SECOND - cfg.clockSkew - 1, cfg.ttl);
    Forgets(s2.nonces[KeyOf(other) := UnixSeconds(s3.clock)], UnixSeconds(s3.clock) - cfg.ttl, KeyOf(m));
    steps, s := InsertsStamped(cfg, delay, Init(clock), st3, s3, 2);
    assert s.accepted[0] == s.accepted[2];
  }

  lemma VerifiedWithin(cfg: Config, m: SignedMessage, now: int)
    requires m.envelope.recipient == cfg.self && cfg.authentic(m)
    requires FirstCheck(cfg, m) <= now <= LastCheck(cfg, m)
    ensures VerifyEnvelope(cfg, m, now).Verified?
  {
    WindowIs(cfg, m, now);
  }

  /** `m` accepted at the first instant it can be, and verified again at the last. */
  lemma VerifiedTwice(cfg: Config, delay: int, m: SignedMessage) returns (steps: seq<Step>, s: State)
    requires delay >= 0 && m.envelope.recipient == cfg.self && cfg.authentic(m)
    ensures Final(cfg, delay, Init(FirstCheck(cfg, m)), steps) == Some(s)
    ensures s.clock == LastCheck(cfg, m) && s.accepted == [m]
    ensures s.nonces == map[KeyOf(m) := UnixSeconds(FirstCheck(cfg, m))]
    ensures 2 in s.requests && 3 !in s.requests
    ensures s.requests[2] == Request(Messages, m, Stamped(LastCheck(cfg, m), LastCheck(cfg, m)))
  {
    hide VerifyEnvelope;
    var s0 := Init(FirstCheck(cfg, m));
    assert Final(cfg, delay, s0, []) == Some(s0);
    hide Final;
    VerifiedWithin(cfg, m, FirstCheck(cfg, m));
    var st1, s1 := AcceptedAtOnce(cfg, delay, s0, [], s0, 1, Messages, m);
    VerifiedWithin(cfg, m, LastCheck(cfg, m));
    steps, s := Stamps(cfg, delay, s0, st1, s1, LastCheck(cfg, m) - s1.clock, 2, Messages, m);
  }
}
