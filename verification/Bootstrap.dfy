/** The transitive bootstrap walk over the peer network
    (`bootstrap_initial_peers`, `bootstrap_transitive`, crates/node/src/discovery.rs). */
module Bootstrap {
  import opened Options
  import opened PeerDirectory

  const BOOTSTRAP_MAX_PEERS: nat := 100

  /** One entry of a `get_known_peers` answer. */
  datatype Summary = Summary(id: Id, endpoint: Option<Endpoint>)

  /** The network, as oracles over the number of calls made so far: an answer,
      or `None` for an error or a timeout. Answers may change from call to call. */
  datatype Network = Network(
    describe: (nat, Endpoint) -> Option<Descriptor>,
    known: (nat, Endpoint) -> Option<seq<Summary>>,
    clock: nat -> int)

  datatype Outcome = Outcome(endpoint: Endpoint, id: Option<Id>)

  /** The variables of the walk. `tried` lists the ids whose endpoint was
      contacted because a peer mentioned them. */
  datatype Walk = Walk(
    rows: Directory, visited: set<Id>, tried: seq<Id>, total: nat, next: seq<Endpoint>, calls: nat)

  // ------------------------------------------------------------- step by step

  /** The directory after contacting the seeds in turn, and what each answered. */
  function SeedRows(net: Network, self: Id, rows: Directory, seeds: seq<Endpoint>): Directory {
    if seeds == [] then rows
    else
      var n := |seeds| - 1;
      Refreshed(SeedRows(net, self, rows, seeds[..n]), self, seeds[n], net.describe(n, seeds[n]), net.clock(n))
  }

  function SeedOutcome(net: Network, n: nat, e: Endpoint): Outcome {
    var answer := net.describe(n, e);
    Outcome(e, if answer.Some? then Some(answer.value.id) else None)
  }

  function SeedOuts(net: Network, seeds: seq<Endpoint>): (outs: seq<Outcome>)
    ensures |outs| == |seeds|
  {
    seq(|seeds|, i requires 0 <= i < |seeds| => SeedOutcome(net, i, seeds[i]))
  }

  function SeedIds(outs: seq<Outcome>): set<Id> {
    set o | o in outs && o.id.Some? :: o.id.value
  }

  function Resolved(outs: seq<Outcome>): seq<Endpoint> {
    if outs == [] then []
    else
      var n := |outs| - 1;
      Resolved(outs[..n]) + if outs[n].id.Some? then [outs[n].endpoint] else []
  }

  /** One summary of an answer. */
  function Visit(net: Network, self: Id, w: Walk, s: Summary): Walk {
    if s.id in w.visited then w
    else if s.endpoint.None? then w.(visited := w.visited + {s.id})
    else
      var e := s.endpoint.value;
      var answer := net.describe(w.calls, e);
      var ok := answer.Some?;
      Walk(
        Refreshed(w.rows, self, e, answer, net.clock(w.calls)), w.visited + {s.id}, w.tried + [s.id],
        w.total + if ok then 1 else 0, if ok then w.next + [e] else w.next, w.calls + 1)
  }

  /** A whole answer, up to the cap. */
  function VisitAll(net: Network, self: Id, w: Walk, ss: seq<Summary>): Walk
    decreases ss
  {
    if ss == [] || w.total >= BOOTSTRAP_MAX_PEERS then w
    else VisitAll(net, self, Visit(net, self, w, ss[0]), ss[1..])
  }

  function Expand(net: Network, self: Id, w: Walk, e: Endpoint): Walk {
    var answer := net.known(w.calls, e);
    var w' := w.(calls := w.calls + 1);
    if answer.None? then w' else VisitAll(net, self, w', answer.value)
  }

  function ExpandAll(net: Network, self: Id, w: Walk, frontier: seq<Endpoint>): Walk
    decreases frontier
  {
    if frontier == [] then w else ExpandAll(net, self, Expand(net, self, w, frontier[0]), frontier[1..])
  }

  /** The remaining `depth` levels. */
  function Levels(net: Network, self: Id, w: Walk, frontier: seq<Endpoint>, depth: nat): Walk
    decreases depth
  {
    if depth == 0 || frontier == [] || w.total >= BOOTSTRAP_MAX_PEERS then w
    else
      var w' := ExpandAll(net, self, w.(next := []), frontier);
      Levels(net, self, w', w'.next, depth - 1)
  }

  /** The walk as it starts, after the seeds. */
  function Start(self: Id, rows: Directory, outs: seq<Outcome>): Walk {
    Walk(rows, {self} + SeedIds(outs), [], |Resolved(outs)|, [], |outs|)
  }

  function Whole(net: Network, self: Id, rows: Directory, seeds: seq<Endpoint>, depth: nat): Walk {
    var outs := SeedOuts(net, seeds);
    Levels(net, self, Start(self, SeedRows(net, self, rows, seeds), outs), Resolved(outs), depth)
  }

  // ------------------------------------------------------- the source's loops

  method BootstrapInitialPeers(
    dir: PeerTable, self: Id, net: Network, seeds: seq<Endpoint>)
    returns (outs: seq<Outcome>)
    modifies dir
    ensures dir.rows == SeedRows(net, self, old(dir.rows), seeds)
    ensures outs == SeedOuts(net, seeds)
  {
    outs := [];
    for i := 0 to |seeds|
      invariant outs == SeedOuts(net, seeds[..i])
      invariant dir.rows == SeedRows(net, self, old(dir.rows), seeds[..i])
    {
      assert seeds[..i + 1][..i] == seeds[..i];
      var r := dir.Refresh(self, seeds[i], net.describe(i, seeds[i]), net.clock(i));
      outs := outs + [Outcome(seeds[i], if r.Some? then Some(r.value.id) else None)];
    }
    assert seeds[..|seeds|] == seeds;
  }

  method VisitedAtStart(self: Id, outs: seq<Outcome>) returns (visited: set<Id>)
    ensures visited == {self} + SeedIds(outs)
  {
    visited := {self};
    for i := 0 to |outs|
      invariant visited == {self} + SeedIds(outs[..i])
    {
      assert outs[..i + 1] == outs[..i] + [outs[i]];
      if outs[i].id.Some? { visited := visited + {outs[i].id.value}; }
    }
    assert outs[..|outs|] == outs;
  }

  method BootstrapTransitive(dir: PeerTable, self: Id, net: Network, seeds: seq<Endpoint>, maxDepth: nat)
    returns (outs: seq<Outcome>, total: nat)
    modifies dir
    ensures outs == SeedOuts(net, seeds)
    ensures var w := Whole(net, self, old(dir.rows), seeds, maxDepth); dir.rows == w.rows && total == w.total
  {
    outs := BootstrapInitialPeers(dir, self, net, seeds);
    var frontier := Resolved(outs);
    total := |frontier|;
    if maxDepth == 0 { return; }
    hide Refreshed, SeedRows, SeedOuts, SeedIds, Resolved;
    var visited := VisitedAtStart(self, outs);
    var calls: nat := |outs|;
    var next: seq<Endpoint> := [];
    ghost var tried: seq<Id> := [];
    ghost var result := Whole(net, self, old(dir.rows), seeds, maxDepth);
    for depth := 0 to maxDepth
      invariant result
             == Levels(net, self, Walk(dir.rows, visited, tried, total, next, calls), frontier, maxDepth - depth)
    {
      if frontier == [] || total >= BOOTSTRAP_MAX_PEERS { break; }
      next := [];
      ghost var level := ExpandAll(net, self, Walk(dir.rows, visited, tried, total, next, calls), frontier);
      assert Levels(net, self, level, level.next, maxDepth - depth - 1) == result;
      for i := 0 to |frontier|
        invariant ExpandAll(net, self, Walk(dir.rows, visited, tried, total, next, calls), frontier[i..]) == level
      {
        assert frontier[i..][0] == frontier[i] && frontier[i..][1..] == frontier[i + 1..];
        var answer := net.known(calls, frontier[i]);
        calls := calls + 1;
        if answer.None? { continue; }
        var ss := answer.value;
        ghost var after := VisitAll(net, self, Walk(dir.rows, visited, tried, total, next, calls), ss);
        for k := 0 to |ss|
          invariant VisitAll(net, self, Walk(dir.rows, visited, tried, total, next, calls), ss[k..]) == after
        {
          if total >= BOOTSTRAP_MAX_PEERS { break; }
          assert ss[k..][0] == ss[k] && ss[k..][1..] == ss[k + 1..];
          ghost var before := Walk(dir.rows, visited, tried, total, next, calls);
          if ss[k].id in visited { continue; }
          visited := visited + {ss[k].id};
          if ss[k].endpoint.None? { continue; }
          var e := ss[k].endpoint.value;
          var r := dir.Refresh(self, e, net.describe(calls, e), net.clock(calls));
          calls := calls + 1;
          tried := tried + [ss[k].id];
          if r.Some? {
            total := total + 1;
            next := next + [e];
          }
          assert Walk(dir.rows, visited, tried, total, next, calls) == Visit(net, self, before, ss[k]);
        }
      }
      frontier := next;
    }
  }
}
