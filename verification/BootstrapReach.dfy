/** What the bootstrap walk reaches: a bound for any network, and the exact set
    for a steady one. */
module BootstrapReach {
  import opened Collections
  import opened Options
  import opened PeerDirectory
  import opened Bootstrap

  // ---------------------------------------------------------- the bound, always

  function Max(a: nat, b: nat): nat { if a < b then b else a }

  predicate Bounded(self: Id, seedIds: set<Id>, good: nat, size: nat, w: Walk) {
    && good <= w.total <= Max(BOOTSTRAP_MAX_PEERS, good)
    && w.total <= good + |w.tried|
    && self in w.visited && seedIds <= w.visited
    && (forall i | 0 <= i < |w.tried| :: w.tried[i] in w.visited && w.tried[i] != self && w.tried[i] !in seedIds)
    && NoDup(w.tried)
    && |w.rows| <= size + w.total
  }

  lemma RefreshAddsOne(rows: Directory, self: Id, e: Endpoint, answer: Option<Descriptor>, now: int)
    ensures |Refreshed(rows, self, e, answer, now)| <= |rows| + if answer.Some? then 1 else 0
  {
    if answer.Some? && answer.value.id != self {
      var id := answer.value.id;
      var rows' := Refreshed(rows, self, e, answer, now);
      assert rows'.Keys == rows.Keys + {id};
      assert |rows'.Keys| == |rows'| && |rows.Keys| == |rows|;
      if id in rows { assert rows'.Keys == rows.Keys; }
    }
  }

  lemma VisitBounded(net: Network, self: Id, seedIds: set<Id>, good: nat, size: nat, w: Walk, s: Summary)
    requires Bounded(self, seedIds, good, size, w) && w.total < BOOTSTRAP_MAX_PEERS
    ensures Bounded(self, seedIds, good, size, Visit(net, self, w, s))
  {
    if s.endpoint.Some? {
      RefreshAddsOne(w.rows, self, s.endpoint.value, net.describe(w.calls, s.endpoint.value), net.clock(w.calls));
    }
  }

  lemma {:induction false} VisitAllBounded(
    net: Network, self: Id, seedIds: set<Id>, good: nat, size: nat, w: Walk, ss: seq<Summary>)
    requires Bounded(self, seedIds, good, size, w)
    ensures Bounded(self, seedIds, good, size, VisitAll(net, self, w, ss))
    decreases ss
  {
    if ss != [] && w.total < BOOTSTRAP_MAX_PEERS {
      VisitBounded(net, self, seedIds, good, size, w, ss[0]);
      VisitAllBounded(net, self, seedIds, good, size, Visit(net, self, w, ss[0]), ss[1..]);
    }
  }

  lemma {:induction false} ExpandAllBounded(
    net: Network, self: Id, seedIds: set<Id>, good: nat, size: nat, w: Walk, frontier: seq<Endpoint>)
    requires Bounded(self, seedIds, good, size, w)
    ensures Bounded(self, seedIds, good, size, ExpandAll(net, self, w, frontier))
    decreases frontier
  {
    if frontier != [] {
      var answer := net.known(w.calls, frontier[0]);
      if answer.Some? {
        VisitAllBounded(net, self, seedIds, good, size, w.(calls := w.calls + 1), answer.value);
      }
      ExpandAllBounded(net, self, seedIds, good, size, Expand(net, self, w, frontier[0]), frontier[1..]);
    }
  }

  lemma {:induction false} LevelsBounded(
    net: Network, self: Id, seedIds: set<Id>, good: nat, size: nat, w: Walk, frontier: seq<Endpoint>, depth: nat)
    requires Bounded(self, seedIds, good, size, w)
    ensures Bounded(self, seedIds, good, size, Levels(net, self, w, frontier, depth))
    decreases depth
  {
    if depth != 0 && frontier != [] && w.total < BOOTSTRAP_MAX_PEERS {
      var w' := ExpandAll(net, self, w.(next := []), frontier);
      ExpandAllBounded(net, self, seedIds, good, size, w.(next := []), frontier);
      LevelsBounded(net, self, seedIds, good, size, w', w'.next, depth - 1);
    }
  }

  lemma {:induction false} SeedRowsBounded(net: Network, self: Id, rows: Directory, seeds: seq<Endpoint>)
    ensures |SeedRows(net, self, rows, seeds)| <= |rows| + |Resolved(SeedOuts(net, seeds))|
  {
    if seeds != [] {
      var n := |seeds| - 1;
      SeedRowsBounded(net, self, rows, seeds[..n]);
      assert SeedOuts(net, seeds)[..n] == SeedOuts(net, seeds[..n]);
      RefreshAddsOne(SeedRows(net, self, rows, seeds[..n]), self, seeds[n], net.describe(n, seeds[n]), net.clock(n));
    }
  }

  /** Whatever the peers answer and whichever calls fail: every id a peer
      mentioned is tried at most once, never this instance nor a seed that
      answered; the count stays within 100 or the number of good seeds, and
      the directory grows by no more than the count. */
  lemma WalkIsBounded(net: Network, self: Id, rows: Directory, seeds: seq<Endpoint>, depth: nat, w: Walk, good: nat)
    requires w == Whole(net, self, rows, seeds, depth) && good == |Resolved(SeedOuts(net, seeds))|
    ensures NoDup(w.tried) && self !in w.tried
    ensures forall id | id in w.tried :: id !in SeedIds(SeedOuts(net, seeds))
    ensures good <= w.total <= Max(BOOTSTRAP_MAX_PEERS, good) && w.total <= good + |w.tried|
    ensures |w.rows| <= |rows| + w.total
  {
    var outs := SeedOuts(net, seeds);
    SeedRowsBounded(net, self, rows, seeds);
    var w0 := Start(self, SeedRows(net, self, rows, seeds), outs);
    LevelsBounded(net, self, SeedIds(outs), good, |rows|, w0, Resolved(outs), depth);
  }

  // ------------------------------------------------- a steady network, exactly

  /** Answers that do not change during the walk, and the one endpoint of each id. */
  datatype World = World(
    describe: Endpoint -> Option<Descriptor>,
    known: Endpoint -> Option<seq<Summary>>,
    endpointOf: Id -> Option<Endpoint>)

  ghost predicate Steady(net: Network, world: World) {
    && (forall n, e :: net.describe(n, e) == world.describe(e))
    && (forall n, e :: net.known(n, e) == world.known(e))
  }

  /** Ids and endpoints match one to one wherever someone answers for them. */
  ghost predicate OneEndpoint(world: World) {
    && (forall e, s | world.known(e).Some? && s in world.known(e).value :: s.endpoint == world.endpointOf(s.id))
    && (forall e | world.describe(e).Some? :: world.endpointOf(world.describe(e).value.id) == Some(e))
    && (forall id | Alive(world, id) :: world.describe(world.endpointOf(id).value).value.id == id)
  }

  /** The peer has an endpoint and answers there. */
  predicate Alive(world: World, id: Id) {
    world.endpointOf(id).Some? && world.describe(world.endpointOf(id).value).Some?
  }

  /** The ids a peer mentions. */
  function Links(world: World, id: Id): set<Id> {
    if Alive(world, id) && world.known(world.endpointOf(id).value).Some? then
      set s | s in world.known(world.endpointOf(id).value).value :: s.id
    else {}
  }

  /** The live peers within `k` hops of the seeds, this instance left out. */
  function Ball(world: World, self: Id, seedIds: set<Id>, k: nat): set<Id> {
    if k == 0 then seedIds else Hop(world, self, Ball(world, self, seedIds, k - 1))
  }

  /** `b` and the live peers its members mention. */
  function Hop(world: World, self: Id, b: set<Id>): set<Id> {
    b + set x, y | x in b && y in Links(world, x) && y != self && Alive(world, y) :: y
  }

  /** A chain of mentions from a seed to `id` through live peers other than
      this instance. */
  predicate IsHopPath(world: World, self: Id, seedIds: set<Id>, p: seq<Id>, id: Id) {
    && p != [] && p[0] in seedIds && p[|p| - 1] == id
    && (forall i | 0 <= i < |p| :: p[i] != self && Alive(world, p[i]))
    && (forall i | 0 < i < |p| :: p[i] in Links(world, p[i - 1]))
  }

  predicate GoodSeeds(world: World, self: Id, seedIds: set<Id>) {
    forall id | id in seedIds :: id != self && Alive(world, id)
  }

  lemma {:induction false} PathInBall(world: World, self: Id, seedIds: set<Id>, p: seq<Id>, id: Id, k: nat)
    requires IsHopPath(world, self, seedIds, p, id) && |p| <= k + 1
    ensures id in Ball(world, self, seedIds, k)
    decreases k
  {
    if k > 0 {
      if |p| == 1 {
        PathInBall(world, self, seedIds, p, id, k - 1);
      } else {
        var q := p[..|p| - 1];
        PathInBall(world, self, seedIds, q, q[|q| - 1], k - 1);
        assert p[|p| - 1] in Links(world, p[|p| - 2]);
      }
    }
  }

  lemma PathOfSeed(world: World, self: Id, seedIds: set<Id>, id: Id)
    requires GoodSeeds(world, self, seedIds) && id in seedIds
    ensures IsHopPath(world, self, seedIds, [id], id)
  {
  }

  lemma PathExtends(world: World, self: Id, seedIds: set<Id>, p: seq<Id>, x: Id, id: Id)
    requires IsHopPath(world, self, seedIds, p, x) && id in Links(world, x) && id != self && Alive(world, id)
    ensures IsHopPath(world, self, seedIds, p + [id], id)
  {
    hide Links, Alive;
  }

  lemma {:induction false} BallHasPath(world: World, self: Id, seedIds: set<Id>, id: Id, k: nat) returns (p: seq<Id>)
    requires GoodSeeds(world, self, seedIds) && id in Ball(world, self, seedIds, k)
    ensures IsHopPath(world, self, seedIds, p, id) && |p| <= k + 1
    decreases k
  {
    hide Links, Alive, IsHopPath;
    if k == 0 {
      p := [id];
      PathOfSeed(world, self, seedIds, id);
    } else {
      var b := Ball(world, self, seedIds, k - 1);
      if id in b {
        p := BallHasPath(world, self, seedIds, id, k - 1);
      } else {
        var x :| x in b && id in Links(world, x) && id != self && Alive(world, id);
        var q := BallHasPath(world, self, seedIds, x, k - 1);
        p := q + [id];
        PathExtends(world, self, seedIds, q, x, id);
      }
    }
  }

  /** A peer is in range exactly when a chain of that many mentions leads to it. */
  lemma BallIsPaths(world: World, self: Id, seedIds: set<Id>, id: Id, k: nat)
    requires GoodSeeds(world, self, seedIds)
    ensures id in Ball(world, self, seedIds, k) <==>
      exists p :: IsHopPath(world, self, seedIds, p, id) && |p| <= k + 1
  {
    if id in Ball(world, self, seedIds, k) {
      var p := BallHasPath(world, self, seedIds, id, k);
    }
    forall p | IsHopPath(world, self, seedIds, p, id) && |p| <= k + 1
      ensures id in Ball(world, self, seedIds, k)
    {
      PathInBall(world, self, seedIds, p, id, k);
    }
  }

  lemma {:induction false} BallGrows(world: World, self: Id, seedIds: set<Id>, j: nat, k: nat)
    requires j <= k
    ensures Ball(world, self, seedIds, j) <= Ball(world, self, seedIds, k)
    decreases k
  {
    hide Hop;
    if j < k {
      HopGrows(world, self, Ball(world, self, seedIds, k - 1));
      BallGrows(world, self, seedIds, j, k - 1);
    }
  }

  lemma HopGrows(world: World, self: Id, b: set<Id>)
    ensures b <= Hop(world, self, b)
  {
  }

  lemma {:induction false} BallStable(world: World, self: Id, seedIds: set<Id>, j: nat, k: nat)
    requires j <= k && Ball(world, self, seedIds, j + 1) == Ball(world, self, seedIds, j)
    ensures Ball(world, self, seedIds, k) == Ball(world, self, seedIds, j)
    decreases k
  {
    hide Hop;
    if j < k { BallStable(world, self, seedIds, j, k - 1); }
  }

  lemma {:induction false} BallIsLive(world: World, self: Id, seedIds: set<Id>, k: nat)
    requires GoodSeeds(world, self, seedIds)
    ensures GoodSeeds(world, self, Ball(world, self, seedIds, k))
  {
    if k > 0 { BallIsLive(world, self, seedIds, k - 1); }
  }

  // ---- the walk against the range

  /** The peers found so far: in a steady network, every live id visited. */
  function Found(world: World, self: Id, w: Walk): set<Id> {
    set id | id in w.visited && id != self && Alive(world, id)
  }

  /** `rows` is `rows0` with exactly the peers of `f` refreshed. */
  predicate Reflects(world: World, rows0: Directory, rows: Directory, f: set<Id>) {
    && rows.Keys == rows0.Keys + f
    && (forall id | id in f :: Alive(world, id) && IsFrom(world, rows, id))
    && (forall id | id in rows0 && id !in f :: rows[id] == rows0[id])
  }

  predicate IsFrom(world: World, rows: Directory, id: Id)
    requires Alive(world, id)
  {
    var e := world.endpointOf(id).value;
    var d := world.describe(e).value;
    id in rows && rows[id].endpoint == e && rows[id].cached == Some(d) && rows[id].alias == d.alias
  }

  lemma RefreshReflects(world: World, self: Id, rows0: Directory, rows: Directory, f: set<Id>, id: Id, now: int)
    requires OneEndpoint(world) && Reflects(world, rows0, rows, f) && Alive(world, id) && id != self
    ensures var e := world.endpointOf(id).value;
      Reflects(world, rows0, Refreshed(rows, self, e, world.describe(e), now), f + {id})
  {
    var e := world.endpointOf(id).value;
    var rows' := Refreshed(rows, self, e, world.describe(e), now);
    assert forall x | x != id :: (x in rows' <==> x in rows) && (x in rows ==> rows'[x] == rows[x]);
    forall x | x in f + {id} ensures Alive(world, x) && IsFrom(world, rows', x) {
      if x != id { assert IsFrom(world, rows, x); }
    }
  }

  predicate Queued(world: World, es: seq<Endpoint>, id: Id) {
    world.endpointOf(id).Some? && world.endpointOf(id).value in es
  }

  /** Every queued endpoint is that of a peer in `f`. */
  predicate PointsInto(world: World, es: seq<Endpoint>, f: set<Id>) {
    forall e | e in es :: world.describe(e).Some? && world.describe(e).value.id in f
  }

  /** What holds during the level that expands `b`: all found are within one
      more hop, `f2`; each was refreshed once and counted once, and is queued. */
  predicate Sound(world: World, self: Id, rows0: Directory, b: set<Id>, f2: set<Id>, w: Walk) {
    var f := Found(world, self, w);
    && self in w.visited
    && b <= f <= f2
    && w.total == |f|
    && Reflects(world, rows0, w.rows, f)
    && (forall id | id in f && id !in b :: Queued(world, w.next, id))
    && PointsInto(world, w.next, f)
  }

  lemma SteadyAt(net: Network, world: World, n: nat, e: Endpoint)
    requires Steady(net, world)
    ensures net.describe(n, e) == world.describe(e) && net.known(n, e) == world.known(e)
  {
  }

  lemma Itself(world: World, id: Id)
    requires OneEndpoint(world) && Alive(world, id)
    ensures world.describe(world.endpointOf(id).value).value.id == id
  {
  }

  lemma NowQueued(world: World, es: seq<Endpoint>, e: Endpoint, b: set<Id>, f: set<Id>, id: Id)
    requires forall x | x in f && x !in b :: Queued(world, es, x)
    requires PointsInto(world, es, f) && world.endpointOf(id) == Some(e)
    requires world.describe(e).Some? && world.describe(e).value.id == id
    ensures forall x | x in f + {id} && x !in b :: Queued(world, es + [e], x)
    ensures PointsInto(world, es + [e], f + {id})
  {
    forall x | x in f + {id} && x !in b ensures Queued(world, es + [e], x) {
      if x != id { assert Queued(world, es, x); }
    }
  }

  lemma VisitLive(
    net: Network, world: World, self: Id, rows0: Directory, b: set<Id>, f2: set<Id>, w: Walk, s: Summary, w': Walk)
    requires Steady(net, world) && OneEndpoint(world) && Sound(world, self, rows0, b, f2, w)
    requires s.endpoint == world.endpointOf(s.id) && s.id !in w.visited
    requires s.id != self && Alive(world, s.id) && s.id in f2
    requires w' == Visit(net, self, w, s)
    ensures Sound(world, self, rows0, b, f2, w')
  {
    hide Refreshed, Reflects, Links, OneEndpoint, Steady;
    var f, f' := Found(world, self, w), Found(world, self, w');
    var e := s.endpoint.value;
    SteadyAt(net, world, w.calls, e);
    Itself(world, s.id);
    assert f' == f + {s.id};
    assert |f'| == |f| + 1;
    RefreshReflects(world, self, rows0, w.rows, f, s.id, net.clock(w.calls));
    NowQueued(world, w.next, e, b, f, s.id);
    hide Queued, PointsInto, Alive;
    assert w'.next == w.next + [e] && w'.total == w.total + 1;
  }

  lemma VisitSound(net: Network, world: World, self: Id, rows0: Directory, b: set<Id>, f2: set<Id>, w: Walk, s: Summary)
    requires Steady(net, world) && OneEndpoint(world) && Sound(world, self, rows0, b, f2, w)
    requires s.endpoint == world.endpointOf(s.id)
    requires s.id != self && Alive(world, s.id) ==> s.id in f2
    ensures Sound(world, self, rows0, b, f2, Visit(net, self, w, s))
    ensures Visit(net, self, w, s).visited == w.visited + {s.id}
  {
    hide Refreshed, Reflects;
    var w' := Visit(net, self, w, s);
    var f, f' := Found(world, self, w), Found(world, self, w');
    if s.id in w.visited {
      assert w'.visited == w.visited + {s.id};
    } else if Alive(world, s.id) && s.id != self {
      VisitLive(net, world, self, rows0, b, f2, w, s, w');
    } else {
      assert f' == f;
      if s.endpoint.Some? { FailedRefresh(w.rows, self, s.endpoint.value, net.clock(w.calls)); }
    }
  }

  lemma FailedRefresh(rows: Directory, self: Id, e: Endpoint, now: int)
    ensures Refreshed(rows, self, e, None, now) == rows
  {
  }

  lemma {:induction false} VisitAllSound(
    net: Network, world: World, self: Id, rows0: Directory, b: set<Id>, f2: set<Id>, w: Walk, ss: seq<Summary>,
    w': Walk)
    requires Steady(net, world) && OneEndpoint(world) && Sound(world, self, rows0, b, f2, w)
    requires forall s | s in ss ::
      s.endpoint == world.endpointOf(s.id) && (s.id != self && Alive(world, s.id) ==> s.id in f2)
    requires w' == VisitAll(net, self, w, ss)
    ensures Sound(world, self, rows0, b, f2, w') && w.visited <= w'.visited
    ensures w'.total >= BOOTSTRAP_MAX_PEERS || forall s | s in ss :: s.id in w'.visited
    decreases ss
  {
    hide Sound, Visit;
    if ss != [] && w.total < BOOTSTRAP_MAX_PEERS {
      VisitSound(net, world, self, rows0, b, f2, w, ss[0]);
      VisitAllSound(net, world, self, rows0, b, f2, Visit(net, self, w, ss[0]), ss[1..], w');
    }
  }

  /** The answer of a peer of `b` names only peers one hop from it. */
  predicate OneHop(world: World, self: Id, b: set<Id>, f2: set<Id>) {
    forall x, y | x in b && y in Links(world, x) && y != self && Alive(world, y) :: y in f2
  }

  predicate Covered(world: World, w: Walk, x: Id) {
    w.total >= BOOTSTRAP_MAX_PEERS || Links(world, x) <= w.visited
  }

  lemma ExpandSound(
    net: Network, world: World, self: Id, rows0: Directory, b: set<Id>, f2: set<Id>, w: Walk, e: Endpoint,
    x: Id, w': Walk)
    requires Steady(net, world) && OneEndpoint(world) && Sound(world, self, rows0, b, f2, w)
    requires OneHop(world, self, b, f2) && x in b && Alive(world, x) && world.endpointOf(x) == Some(e)
    requires w' == Expand(net, self, w, e)
    ensures Sound(world, self, rows0, b, f2, w') && w.visited <= w'.visited
    ensures Covered(world, w', x)
  {
    hide Visit, VisitAll, Reflects, Steady, PointsInto;
    SteadyAt(net, world, w.calls, e);
    var w1 := w.(calls := w.calls + 1);
    assert Found(world, self, w1) == Found(world, self, w);
    if world.known(e).Some? {
      var ss := world.known(e).value;
      forall s | s in ss
        ensures s.endpoint == world.endpointOf(s.id)
        ensures s.id != self && Alive(world, s.id) ==> s.id in f2
      {
        assert s.id in Links(world, x);
      }
      VisitAllSound(net, world, self, rows0, b, f2, w1, ss, w');
    }
  }

  /** The count never falls and ids stay visited, so what is covered stays so. */
  lemma CoveredStays(world: World, self: Id, rows0: Directory, b: set<Id>, f2: set<Id>, w: Walk, w': Walk, x: Id)
    requires Sound(world, self, rows0, b, f2, w) && Sound(world, self, rows0, b, f2, w')
    requires w.visited <= w'.visited && Covered(world, w, x)
    ensures Covered(world, w', x)
  {
    var f, f' := Found(world, self, w), Found(world, self, w');
    assert f <= f';
    SubsetSize(f, f');
  }

  lemma {:induction false} ExpandAllSound(
    net: Network, world: World, self: Id, rows0: Directory, b: set<Id>, f2: set<Id>, w: Walk,
    es: seq<Endpoint>, w': Walk)
    requires Steady(net, world) && OneEndpoint(world) && Sound(world, self, rows0, b, f2, w)
    requires OneHop(world, self, b, f2) && PointsInto(world, es, b)
    requires w' == ExpandAll(net, self, w, es)
    ensures Sound(world, self, rows0, b, f2, w') && w.visited <= w'.visited
    ensures forall x | Queued(world, es, x) && Alive(world, x) :: Covered(world, w', x)
    decreases es
  {
    hide Sound, Expand, Covered, Links, OneHop;
    if es != [] {
      var e := es[0];
      var x := world.describe(e).value.id;
      var w1 := Expand(net, self, w, e);
      assert e in es;
      ExpandSound(net, world, self, rows0, b, f2, w, e, x, w1);
      ExpandAllSound(net, world, self, rows0, b, f2, w1, es[1..], w');
      CoveredStays(world, self, rows0, b, f2, w1, w', x);
      forall y | Queued(world, es, y) && Alive(world, y) ensures Covered(world, w', y) {
        if world.endpointOf(y).value == e { assert y == x; } else { assert Queued(world, es[1..], y); }
      }
    }
  }

  /** The state between two levels: all within `d` hops found, and each of them
      expanded already or queued. */
  predicate Between(world: World, self: Id, rows0: Directory, b: set<Id>, w: Walk, frontier: seq<Endpoint>) {
    && Found(world, self, w) == b
    && self in w.visited
    && w.total == |b|
    && Reflects(world, rows0, w.rows, b)
    && PointsInto(world, frontier, b)
    && (forall x | x in b :: Links(world, x) <= w.visited || Queued(world, frontier, x))
  }

  lemma NextHop(world: World, self: Id, seedIds: set<Id>, d: nat)
    ensures OneHop(world, self, Ball(world, self, seedIds, d), Ball(world, self, seedIds, d + 1))
    ensures Ball(world, self, seedIds, d) <= Ball(world, self, seedIds, d + 1)
  {
  }

  /** Once every answer of the range has been looked at, so has the next hop. */
  lemma NextHopIs(world: World, self: Id, seedIds: set<Id>, d: nat, visited: set<Id>, b: set<Id>, f2: set<Id>)
    requires GoodSeeds(world, self, seedIds)
    requires b == Ball(world, self, seedIds, d) && f2 == Ball(world, self, seedIds, d + 1)
    requires b <= visited && forall x | x in b :: Links(world, x) <= visited
    ensures forall y | y in f2 :: y in visited && y != self && Alive(world, y)
  {
    BallIsLive(world, self, seedIds, d);
    forall y | y in f2 ensures y in visited && y != self && Alive(world, y) {
      if y !in b {
        var x :| x in b && y in Links(world, x) && y != self && Alive(world, y);
        assert Links(world, x) <= visited;
      }
    }
  }

  /** One level: it finds all of the next hop unless the cap stops it. */
  lemma LevelSound(
    net: Network, world: World, self: Id, rows0: Directory, seedIds: set<Id>, d: nat, w: Walk,
    frontier: seq<Endpoint>, w': Walk,
    b: set<Id>, f2: set<Id>)
    requires Steady(net, world) && OneEndpoint(world) && GoodSeeds(world, self, seedIds)
    requires b == Ball(world, self, seedIds, d) && f2 == Ball(world, self, seedIds, d + 1)
    requires Between(world, self, rows0, b, w, frontier)
    requires w' == ExpandAll(net, self, w.(next := []), frontier)
    ensures Sound(world, self, rows0, b, f2, w')
    ensures w'.total >= BOOTSTRAP_MAX_PEERS || Between(world, self, rows0, f2, w', w'.next)
  {
    hide Reflects, ExpandAll, Links, OneEndpoint, Steady, Ball;
    var w1 := w.(next := []);
    assert Found(world, self, w1) == b;
    NextHop(world, self, seedIds, d);
    ExpandAllSound(net, world, self, rows0, b, f2, w1, frontier, w');
    BallIsLive(world, self, seedIds, d);
    if w'.total < BOOTSTRAP_MAX_PEERS {
      forall x | x in b ensures Links(world, x) <= w'.visited {
        if Queued(world, frontier, x) { assert Covered(world, w', x); }
      }
      var f := Found(world, self, w');
      NextHopIs(world, self, seedIds, d, w'.visited, b, f2);
      assert f == f2;
    }
  }

  lemma {:induction false} LevelsSound(
    net: Network, world: World, self: Id, rows0: Directory, seedIds: set<Id>, d: nat, w: Walk, frontier: seq<Endpoint>,
    depth: nat, w': Walk, f: set<Id>)
    requires Steady(net, world) && OneEndpoint(world) && GoodSeeds(world, self, seedIds)
    requires Between(world, self, rows0, Ball(world, self, seedIds, d), w, frontier)
    requires w' == Levels(net, self, w, frontier, depth) && f == Found(world, self, w')
    ensures Reflects(world, rows0, w'.rows, f) && w'.total == |f| && f <= Ball(world, self, seedIds, d + depth)
    ensures w'.total >= BOOTSTRAP_MAX_PEERS || f == Ball(world, self, seedIds, d + depth)
    decreases depth
  {
    hide Reflects, ExpandAll, Links, OneEndpoint, Steady, Ball, PointsInto;
    var b, f2 := Ball(world, self, seedIds, d), Ball(world, self, seedIds, d + 1);
    BallGrows(world, self, seedIds, d, d + depth);
    if depth > 0 && w.total < BOOTSTRAP_MAX_PEERS {
      BallGrows(world, self, seedIds, d + 1, d + depth);
      if frontier == [] {
        NextHopIs(world, self, seedIds, d, w.visited, b, f2);
        NextHop(world, self, seedIds, d);
        assert f2 == b;
        BallStable(world, self, seedIds, d, d + depth);
      } else {
        var w1 := ExpandAll(net, self, w.(next := []), frontier);
        LevelSound(net, world, self, rows0, seedIds, d, w, frontier, w1, b, f2);
        if w1.total < BOOTSTRAP_MAX_PEERS {
          LevelsSound(net, world, self, rows0, seedIds, d + 1, w1, w1.next, depth - 1, w', f);
        }
      }
    }
  }

  // ---- the seeds

  /** Seeds are distinct, and none of them is this instance. */
  predicate DistinctSeeds(world: World, self: Id, seeds: seq<Endpoint>) {
    NoDup(seeds) && forall e | e in seeds && world.describe(e).Some? :: world.describe(e).value.id != self
  }

  /** The seeds contacted so far: `es` answered, as the peers `ids`. */
  predicate SeedInv(world: World, self: Id, rows0: Directory, rows: Directory, es: seq<Endpoint>, ids: set<Id>) {
    GoodSeeds(world, self, ids) && Reflects(world, rows0, rows, ids) && Listed(world, es, ids)
  }

  /** `es` lists the endpoints of `ids`, each once. */
  predicate Listed(world: World, es: seq<Endpoint>, ids: set<Id>) {
    |es| == |ids| && PointsInto(world, es, ids) && forall x | x in ids :: Queued(world, es, x)
  }

  lemma ListedStep(world: World, es: seq<Endpoint>, ids: set<Id>, e: Endpoint, id: Id)
    requires Listed(world, es, ids) && e !in es && world.endpointOf(id) == Some(e)
    requires world.describe(e).Some? && world.describe(e).value.id == id
    ensures Listed(world, es + [e], ids + {id})
  {
    hide PointsInto;
    assert id in ids ==> Queued(world, es, id);
    NowQueued(world, es, e, {}, ids, id);
  }

  lemma SeedStep(
    world: World, self: Id, rows0: Directory, rows: Directory, es: seq<Endpoint>, ids: set<Id>, e: Endpoint,
    id: Id, now: int)
    requires OneEndpoint(world) && SeedInv(world, self, rows0, rows, es, ids) && e !in es
    requires world.describe(e).Some? && world.describe(e).value.id == id != self
    ensures SeedInv(world, self, rows0, Refreshed(rows, self, e, world.describe(e), now), es + [e], ids + {id})
  {
    hide Reflects, Listed, Refreshed, OneEndpoint;
    Answers(world, e);
    RefreshReflects(world, self, rows0, rows, ids, id, now);
    ListedStep(world, es, ids, e, id);
  }

  lemma Answers(world: World, e: Endpoint)
    requires OneEndpoint(world) && world.describe(e).Some?
    ensures world.endpointOf(world.describe(e).value.id) == Some(e)
  {
  }

  lemma OutsSnoc(outs: seq<Outcome>, o: Outcome)
    ensures SeedIds(outs + [o]) == SeedIds(outs) + if o.id.Some? then {o.id.value} else {}
    ensures Resolved(outs + [o]) == Resolved(outs) + if o.id.Some? then [o.endpoint] else []
  {
    assert (outs + [o])[..|outs|] == outs;
  }

  lemma NoSeeds(world: World, self: Id, rows: Directory)
    ensures Resolved([]) == [] && SeedInv(world, self, rows, rows, Resolved([]), SeedIds([]))
  {
    assert SeedIds([]) == {};
  }

  lemma {:induction false} SeedsSound(
    net: Network, world: World, self: Id, rows0: Directory, seeds: seq<Endpoint>, outs: seq<Outcome>)
    requires Steady(net, world) && OneEndpoint(world) && DistinctSeeds(world, self, seeds)
    requires outs == SeedOuts(net, seeds)
    ensures SeedInv(world, self, rows0, SeedRows(net, self, rows0, seeds), Resolved(outs), SeedIds(outs))
    ensures forall e | e in Resolved(outs) :: e in seeds
  {
    hide Refreshed, Reflects, OneEndpoint, SeedIds, Resolved, SeedInv, Steady;
    if seeds != [] {
      var n := |seeds| - 1;
      var front, e := seeds[..n], seeds[n];
      var outs1 := SeedOuts(net, front);
      assert outs == outs1 + [outs[n]];
      OutsSnoc(outs1, outs[n]);
      SteadyAt(net, world, n, e);
      assert e in seeds && e !in front && forall x | x in front :: x in seeds;
      SeedsSound(net, world, self, rows0, front, outs1);
      var rows := SeedRows(net, self, rows0, front);
      if world.describe(e).Some? {
        var id := world.describe(e).value.id;
        SeedStep(world, self, rows0, rows, Resolved(outs1), SeedIds(outs1), e, id, net.clock(n));
      } else {
        FailedRefresh(rows, self, e, net.clock(n));
        assert SeedIds(outs) == SeedIds(outs1) && Resolved(outs) == Resolved(outs1);
      }
    } else {
      NoSeeds(world, self, rows0);
    }
  }

  lemma SeedBall(world: World, self: Id, ids: set<Id>)
    ensures Ball(world, self, ids, 0) == ids
  {
  }

  /** In a steady network with one endpoint per id, the walk refreshes only live
      peers in range, each counted once; and it finds every one of them unless
      it stopped at the cap. */
  lemma WalkIsExact(
    net: Network, world: World, self: Id, rows: Directory, seeds: seq<Endpoint>, depth: nat, w: Walk,
    ids: set<Id>, range: set<Id>)
    requires Steady(net, world) && OneEndpoint(world) && DistinctSeeds(world, self, seeds)
    requires w == Whole(net, self, rows, seeds, depth)
    requires ids == SeedIds(SeedOuts(net, seeds)) && range == Ball(world, self, ids, depth)
    ensures exists f ::
      && f <= range && Reflects(world, rows, w.rows, f) && w.total == |f|
      && (|f| >= BOOTSTRAP_MAX_PEERS || f == range)
    ensures |range| <= BOOTSTRAP_MAX_PEERS ==> Reflects(world, rows, w.rows, range) && w.total == |range|
  {
    hide Reflects, Ball, Links, OneEndpoint, Steady, Levels, SeedRows, Resolved, SeedIds, Alive, PointsInto;
    var outs := SeedOuts(net, seeds);
    SeedsSound(net, world, self, rows, seeds, outs);
    var w0 := Start(self, SeedRows(net, self, rows, seeds), outs);
    assert Between(world, self, rows, Ball(world, self, ids, 0), w0, Resolved(outs)) by {
      SeedBall(world, self, ids);
      assert Found(world, self, w0) == ids;
    }
    var f := Found(world, self, w);
    LevelsSound(net, world, self, rows, ids, 0, w0, Resolved(outs), depth, w, f);
    SubsetSize(f, range);
  }

  /** With at most 100 peers in range, the directory gains exactly the peers
      that a chain of at most `depth` mentions leads to from a seed. */
  lemma WalkFindsExactlyTheRange(
    net: Network, world: World, self: Id, seeds: seq<Endpoint>, depth: nat, w: Walk, ids: set<Id>, id: Id)
    requires Steady(net, world) && OneEndpoint(world) && DistinctSeeds(world, self, seeds)
    requires w == Whole(net, self, map[], seeds, depth)
    requires ids == SeedIds(SeedOuts(net, seeds)) && |Ball(world, self, ids, depth)| <= BOOTSTRAP_MAX_PEERS
    ensures id in w.rows <==> exists p :: IsHopPath(world, self, ids, p, id) && |p| <= depth + 1
  {
    WalkIsExact(net, world, self, map[], seeds, depth, w, ids, Ball(world, self, ids, depth));
    SeedsSound(net, world, self, map[], seeds, SeedOuts(net, seeds));
    BallIsPaths(world, self, ids, id, depth);
  }
}
