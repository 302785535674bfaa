/** The dashboard's pulse: counting journal rows per time bucket
    (`buckets`, crates/storage/src/audit.rs) over the window the dashboard asks for
    (crates/server/src/activity_api.rs). */
module Pulse {

  datatype Direction = In | Out | Local

  datatype Entry = Entry(timestamp: int, direction: Direction, ok: bool)

  datatype Bucket = Bucket(start: int, inbound: nat, outbound: nat, local: nat, errors: nat)

  /** Integer division as SQLite and Rust have it: towards zero. */
  function Quot(a: int, b: int): int
    requires b > 0
  {
    if a >= 0 then a / b else -(-a / b)
  }

  function BucketOf(t: int, width: int): int
    requires width > 0
  {
    Quot(t, width) * width
  }

  predicate InWindow(e: Entry, since: int, until: int) { since <= e.timestamp < until }

  function Counted(b: Bucket, e: Entry): Bucket {
    Bucket(b.start, b.inbound + if e.direction == In then 1 else 0, b.outbound + if e.direction == Out then 1 else 0,
           b.local + if e.direction == Local then 1 else 0, b.errors + if e.ok then 0 else 1)
  }

  function Empty(start: int): Bucket { Bucket(start, 0, 0, 0, 0) }

  /** The query's `GROUP BY`: one bucket for each start that occurs. */
  function Grouped(rows: seq<Entry>, since: int, until: int, width: int): map<int, Bucket>
    requires width > 0
  {
    if rows == [] then map[]
    else
      var e := rows[|rows| - 1];
      var m := Grouped(rows[..|rows| - 1], since, until, width);
      if !InWindow(e, since, until) then m
      else
        var k := BucketOf(e.timestamp, width);
        m[k := Counted(if k in m then m[k] else Empty(k), e)]
  }

  /** The instants a start stands for. Rounding goes towards zero, so the bucket
      of time zero reaches to both sides. */
  predicate Belongs(t: int, start: int, width: int) {
    if start > 0 then start <= t < start + width
    else if start == 0 then -width < t < width
    else start - width < t <= start
  }

  /** What the bucket of a start has to count. */
  function Tally(rows: seq<Entry>, since: int, until: int, start: int, width: int): Bucket {
    if rows == [] then Empty(start)
    else
      var e := rows[|rows| - 1];
      var b := Tally(rows[..|rows| - 1], since, until, start, width);
      if InWindow(e, since, until) && Belongs(e.timestamp, start, width) then Counted(b, e) else b
  }

  lemma Product(d: int, width: int)
    requires d <= -1 && width > 0
    ensures d * width <= -width
  {
    assert (-1 - d) * width >= 0;
  }

  lemma Sign(d: int, width: int)
    requires width > 0
    ensures d >= 0 ==> d * width >= 0
  {
  }

  lemma QuotIs(t: int, width: int)
    requires width > 0
    ensures t >= 0 ==> Quot(t, width) >= 0 && 0 <= t - Quot(t, width) * width < width
    ensures t <= 0 ==> Quot(t, width) <= 0 && -width < t - Quot(t, width) * width <= 0
  {
    var a := if t >= 0 then t else -t;
    assert a == (a / width) * width + a % width;
    assert t < 0 ==> Quot(t, width) * width == -((a / width) * width);
  }

  /** Multiples of different numbers lie at least one width apart. */
  lemma Apart(p: int, q: int, width: int)
    requires width > 0
    ensures p < q ==> p * width + width <= q * width
    ensures q < p ==> q * width + width <= p * width
  {
    if p < q { Product(p - q, width); }
    if q < p { Product(q - p, width); }
  }

  lemma QuotGrows(a: int, b: int, width: int)
    requires width > 0 && a <= b
    ensures Quot(a, width) <= Quot(b, width) && BucketOf(a, width) <= BucketOf(b, width)
  {
    QuotIs(a, width);
    QuotIs(b, width);
    var p, q := Quot(a, width), Quot(b, width);
    Apart(p, q, width);
    InOrder(a, b, p, q, p * width, q * width, width);
  }

  lemma InOrder(a: int, b: int, p: int, q: int, x: int, y: int, width: int)
    requires width > 0 && a <= b && (q < p ==> y + width <= x) && (p < q ==> x + width <= y) && (p == q ==> x == y)
    requires (a >= 0 ==> p >= 0 && 0 <= a - x < width) && (a <= 0 ==> p <= 0 && -width < a - x <= 0)
    requires (b >= 0 ==> q >= 0 && 0 <= b - y < width) && (b <= 0 ==> q <= 0 && -width < b - y <= 0)
    ensures p <= q && x <= y
  {
  }

  /** The rows of a bucket are those that round to its start. */
  lemma BucketIsInterval(t: int, k: int, width: int)
    requires width > 0
    ensures BucketOf(t, width) == k * width <==> Belongs(t, k * width, width)
  {
    QuotIs(t, width);
    var q := Quot(t, width);
    Apart(q, k, width);
    Apart(k, 0, width);
    Rounds(t, q, k, q * width, k * width, width);
  }

  lemma Rounds(t: int, q: int, k: int, x: int, start: int, width: int)
    requires width > 0 && (q < k ==> x + width <= start) && (k < q ==> start + width <= x) && (q == k ==> x == start)
    requires (k > 0 ==> start >= width) && (k < 0 ==> start <= -width) && (k == 0 ==> start == 0)
    requires (t >= 0 ==> q >= 0 && 0 <= t - x < width) && (t <= 0 ==> q <= 0 && -width < t - x <= 0)
    ensures x == start <==> Belongs(t, start, width)
  {
  }

  lemma {:induction false} GroupedIs(rows: seq<Entry>, since: int, until: int, k: int, width: int)
    requires width > 0
    ensures var m := Grouped(rows, since, until, width);
      Tally(rows, since, until, k * width, width) == if k * width in m then m[k * width] else Empty(k * width)
  {
    if rows != [] {
      var e := rows[|rows| - 1];
      GroupedIs(rows[..|rows| - 1], since, until, k, width);
      BucketIsInterval(e.timestamp, k, width);
      hide Belongs;
    }
  }

  /** The source's loop. The buckets are consecutive from the one that holds
      `since` on, as long as they start before `until`, and each counts the rows
      of its own instants. */
  method Buckets(rows: seq<Entry>, since: int, until: int, width: int) returns (out: seq<Bucket>)
    requires width > 0
    ensures forall k | 0 <= k < |out| ::
      out[k] == Tally(rows, since, until, (Quot(since, width) + k) * width, width)
    ensures |out| == Points(since, until, width)
  {
    var found := Grouped(rows, since, until, width);
    var first := Quot(since, width) * width;
    out := [];
    var start := first;
    while start < until
      invariant start == (Quot(since, width) + |out|) * width
      invariant |out| == 0 || start - width < until
      invariant forall k | 0 <= k < |out| ::
        out[k] == Tally(rows, since, until, (Quot(since, width) + k) * width, width)
      decreases until - start
    {
      GroupedIs(rows, since, until, Quot(since, width) + |out|, width);
      out := out + [if start in found then found[start] else Empty(start)];
      start := start + width;
    }
    PointsAre(since, until, width, |out|);
  }

  /** How many buckets reach from `since` to `until`. */
  function Points(since: int, until: int, width: int): nat
    requires width > 0
  {
    var span := until - BucketOf(since, width);
    if span <= 0 then 0 else (span + width - 1) / width
  }

  lemma PointsAre(since: int, until: int, width: int, n: nat)
    requires width > 0
    requires (Quot(since, width) + n) * width >= until
    requires n == 0 || (Quot(since, width) + n) * width - width < until
    ensures n == Points(since, until, width)
  {
    PointsReach(since, until, width);
    Apart(Quot(since, width) + n, Quot(since, width) + Points(since, until, width), width);
    hide Points, Quot;
  }

  /** They reach `until`, and no fewer do. */
  lemma PointsReach(since: int, until: int, width: int)
    requires width > 0
    ensures (Quot(since, width) + Points(since, until, width)) * width >= until
    ensures Points(since, until, width) == 0 ||
      (Quot(since, width) + Points(since, until, width)) * width - width < until
  {
    var n, span := Points(since, until, width), until - BucketOf(since, width);
    Distribute(Quot(since, width), n, width);
    if span > 0 { Division(span + width - 1, width, n); }
    hide Quot;
  }

  lemma Distribute(a: int, b: int, width: int)
    ensures (a + b) * width == a * width + b * width
  {
  }

  lemma Division(a: int, b: int, q: int)
    requires b > 0 && q == a / b
    ensures q * b <= a < q * b + b
  {
  }

  // -------------------------------------------------------- nothing lost or doubled

  function Plus(a: Bucket, b: Bucket): Bucket {
    Bucket(a.start, a.inbound + b.inbound, a.outbound + b.outbound, a.local + b.local, a.errors + b.errors)
  }

  /** The series summed over `n` buckets from the `f`-th on. */
  function Sum(rows: seq<Entry>, since: int, until: int, f: int, width: int, n: nat): Bucket {
    if n == 0 then Empty(f * width)
    else Plus(Sum(rows, since, until, f, width, n - 1), Tally(rows, since, until, (f + n - 1) * width, width))
  }

  /** The rows of the window, by direction. */
  function Totals(rows: seq<Entry>, since: int, until: int, start: int): Bucket {
    if rows == [] then Empty(start)
    else
      var b := Totals(rows[..|rows| - 1], since, until, start);
      if InWindow(rows[|rows| - 1], since, until) then Counted(b, rows[|rows| - 1]) else b
  }

  lemma OneMore(rows: seq<Entry>, since: int, until: int, k: int, width: int, e: Entry)
    requires rows != [] && width > 0 && e == rows[|rows| - 1]
    ensures var b := Tally(rows[..|rows| - 1], since, until, k * width, width);
      Tally(rows, since, until, k * width, width) ==
      if InWindow(e, since, until) && BucketOf(e.timestamp, width) == k * width then Counted(b, e) else b
  {
    BucketIsInterval(e.timestamp, k, width);
  }

  /** A row is counted once if its bucket is among those summed. */
  lemma {:induction false} SumTakes(
    rows: seq<Entry>, since: int, until: int, f: int, width: int, n: nat, e: Entry, q: int)
    requires rows != [] && width > 0 && e == rows[|rows| - 1] && q == Quot(e.timestamp, width)
    ensures var s := Sum(rows[..|rows| - 1], since, until, f, width, n);
      Sum(rows, since, until, f, width, n) ==
      if InWindow(e, since, until) && f <= q < f + n then Counted(s, e) else s
  {
    if n > 0 {
      SumTakes(rows, since, until, f, width, n - 1, e, q);
      OneMore(rows, since, until, f + n - 1, width, e);
      SameBucket(q, f + n - 1, width);
      hide Tally, Quot, InWindow;
    }
  }

  lemma SameBucket(p: int, q: int, width: int)
    requires width > 0
    ensures p * width == q * width <==> p == q
  {
    if p < q { Product(p - q, width); }
    if q < p { Product(q - p, width); }
  }

  lemma {:induction false} SumOfNothing(since: int, until: int, f: int, width: int, n: nat)
    ensures Sum([], since, until, f, width, n) == Empty(f * width)
  {
    if n > 0 { SumOfNothing(since, until, f, width, n - 1); }
  }

  /** The window ends after time zero, is empty, or ends just behind a start. */
  predicate Closes(since: int, until: int, width: int)
    requires width > 0
  {
    until > 0 || since >= until || (until - 1) % width == 0
  }

  /** Every row of the window is counted in exactly one bucket and one series:
      the series sum to the row counts. */
  lemma {:induction false} SeriesAddUp(rows: seq<Entry>, since: int, until: int, f: int, width: int, n: nat)
    requires width > 0 && f == Quot(since, width) && n == Points(since, until, width) && Closes(since, until, width)
    ensures Sum(rows, since, until, f, width, n) == Totals(rows, since, until, f * width)
  {
    if rows == [] {
      SumOfNothing(since, until, f, width, n);
    } else {
      var e := rows[|rows| - 1];
      SeriesAddUp(rows[..|rows| - 1], since, until, f, width, n);
      SumTakes(rows, since, until, f, width, n, e, Quot(e.timestamp, width));
      if InWindow(e, since, until) { Reaches(since, until, width, e.timestamp); }
    }
  }

  /** The buckets cover a closed window. */
  lemma Reaches(since: int, until: int, width: int, t: int)
    requires width > 0 && since <= t < until && Closes(since, until, width)
    ensures Quot(since, width) <= Quot(t, width) < Quot(since, width) + Points(since, until, width)
  {
    QuotGrows(since, t, width);
    StartsBefore(since, until, width, t);
    PointsReach(since, until, width);
    hide Points;
    var f, n, q := Quot(since, width), Points(since, until, width), Quot(t, width);
    Sign(q - (f + n), width);
  }

  lemma StartsBefore(since: int, until: int, width: int, t: int)
    requires width > 0 && since <= t < until && Closes(since, until, width)
    ensures BucketOf(t, width) < until
  {
    QuotIs(t, width);
    if until <= 0 {
      QuotGrows(t, until - 1, width);
      LandsOn(until - 1, width);
    }
  }

  /** A time on a start is its own start, and only such a time below zero is not
      rounded up. */
  lemma LandsOn(t: int, width: int)
    requires width > 0 && t < 0
    ensures t % width == 0 <==> BucketOf(t, width) == t
    ensures BucketOf(t, width) >= t
  {
    QuotIs(t, width);
    var q, m := Quot(t, width), t / width;
    assert t == m * width + t % width;
    hide Quot;
    if t % width == 0 {
      if q < m { Product(q - m, width); }
      if m < q { Product(m - q, width); }
    } else if t == q * width {
      if q < m { Product(q - m, width); }
      if m < q { Product(m - q, width); }
    }
  }

  /** The condition is exact: in any other window the last instant has no bucket. */
  lemma LastRowIsLost(since: int, until: int, width: int, f: int, n: nat, e: Entry)
    requires width > 0 && f == Quot(since, width) && n == Points(since, until, width) && !Closes(since, until, width)
    requires e.timestamp == until - 1
    ensures Sum([e], since, until, f, width, n) == Empty(f * width) != Totals([e], since, until, f * width)
  {
    var q := Quot(until - 1, width);
    SumTakes([e], since, until, f, width, n, e, q);
    assert [e][..0] == [];
    SumOfNothing(since, until, f, width, n);
    LandsOn(until - 1, width);
    QuotGrows(since, until - 1, width);
    PointsReach(since, until, width);
    assert Totals([e], since, until, f * width) == Counted(Empty(f * width), e);
    Apart(q, f + n, width);
    hide Sum, Points, Quot;
  }

  /** The three directions partition the rows. */
  lemma {:induction false} DirectionsPartition(rows: seq<Entry>, since: int, until: int, start: int)
    ensures var t := Totals(rows, since, until, start);
      t.inbound + t.outbound + t.local == |Inside(rows, since, until)| && t.errors <= |Inside(rows, since, until)|
  {
    if rows != [] { DirectionsPartition(rows[..|rows| - 1], since, until, start); }
  }

  /** The rows of the window themselves. */
  function Inside(rows: seq<Entry>, since: int, until: int): seq<Entry> {
    if rows == [] then []
    else
      Inside(rows[..|rows| - 1], since, until)
      + if InWindow(rows[|rows| - 1], since, until) then [rows[|rows| - 1]] else []
  }

  // ------------------------------------------------------------- the series, row by row

  /** The rows that satisfy `p`. */
  function Select(rows: seq<Entry>, p: Entry -> bool): (r: seq<Entry>)
    ensures forall e :: e in r <==> e in rows && p(e)
  {
    if rows == [] then []
    else
      var e := rows[|rows| - 1];
      assert rows == rows[..|rows| - 1] + [e];
      Select(rows[..|rows| - 1], p) + if p(e) then [e] else []
  }

  /** A bucket's series are the numbers of its rows in each direction, its errors
      the number of its rows that failed. */
  lemma {:induction false} TallyCounts(rows: seq<Entry>, since: int, until: int, start: int, width: int, b: Bucket)
    requires b == Tally(rows, since, until, start, width)
    ensures b.start == start
    ensures b.inbound
         == |Select(rows, e => InWindow(e, since, until) && Belongs(e.timestamp, start, width) && e.direction == In)|
    ensures b.outbound
         == |Select(rows, e => InWindow(e, since, until) && Belongs(e.timestamp, start, width) && e.direction == Out)|
    ensures b.local
         == |Select(rows, e => InWindow(e, since, until) && Belongs(e.timestamp, start, width) && e.direction == Local)|
    ensures b.errors
         == |Select(rows, e => InWindow(e, since, until) && Belongs(e.timestamp, start, width) && !e.ok)|
  {
    if rows != [] {
      var front := rows[..|rows| - 1];
      TallyCounts(front, since, until, start, width, Tally(front, since, until, start, width));
      hide Belongs;
    }
  }

  /** So are the totals of the window. */
  lemma {:induction false} TotalsCount(rows: seq<Entry>, since: int, until: int, start: int, b: Bucket)
    requires b == Totals(rows, since, until, start)
    ensures b.inbound == |Select(rows, e => InWindow(e, since, until) && e.direction == In)|
    ensures b.outbound == |Select(rows, e => InWindow(e, since, until) && e.direction == Out)|
    ensures b.local == |Select(rows, e => InWindow(e, since, until) && e.direction == Local)|
    ensures b.errors == |Select(rows, e => InWindow(e, since, until) && !e.ok)|
  {
    if rows != [] {
      var front := rows[..|rows| - 1];
      TotalsCount(front, since, until, start, Totals(front, since, until, start));
    }
  }

  // ------------------------------------------------------------- the dashboard

  const MIN_WINDOW_SECS: int := 60
  const MAX_WINDOW_SECS: int := 7 * 24 * 3600
  const PULSE_BUCKETS: int := 30

  /** `i64::clamp` of the requested window. */
  function WindowSecs(requested: int): int {
    if requested < MIN_WINDOW_SECS then MIN_WINDOW_SECS
    else if requested > MAX_WINDOW_SECS then MAX_WINDOW_SECS
    else requested
  }

  function PulseWidth(window: int): int {
    var w := Quot(window, PULSE_BUCKETS);
    if w < 1 then 1 else w
  }

  /** Windows are clamped to between a minute and a week, and cut into thirtieths. */
  lemma WindowIs(requested: int)
    ensures requested < 60 ==> WindowSecs(requested) == 60
    ensures 60 <= requested <= 604800 ==> WindowSecs(requested) == requested
    ensures requested > 604800 ==> WindowSecs(requested) == 604800
    ensures 30 * PulseWidth(WindowSecs(requested)) <= WindowSecs(requested)
    ensures WindowSecs(requested) < 30 * PulseWidth(WindowSecs(requested)) + 30
  {
  }

  /** The chart of a requested window: few points, each counting its own rows,
      and together all rows of the window. */
  method PulseOf(rows: seq<Entry>, requested: int, now: int) returns (out: seq<Bucket>, since: int, width: nat)
    ensures since == now - WindowSecs(requested) && width == PulseWidth(WindowSecs(requested)) > 0
    ensures 30 <= |out| <= 46 && (since >= 0 ==> |out| >= 31)
    ensures forall k | 0 <= k < |out| :: out[k] == Tally(rows, since, now + 1, (Quot(since, width) + k) * width, width)
    ensures now >= 0 ==>
      Sum(rows, since, now + 1, Quot(since, width), width, |out|)
      == Totals(rows, since, now + 1, Quot(since, width) * width)
  {
    var window := WindowSecs(requested);
    since, width := now - window, PulseWidth(window);
    out := Buckets(rows, since, now + 1, width);
    PulseHasFewPoints(window, now, width, |out|);
    if now >= 0 { SeriesAddUp(rows, since, now + 1, Quot(since, width), width, |out|); }
  }

  /** The chart gets between 31 and 46 points, whatever the window; one fewer when
      the window reaches back before time zero. */
  lemma PulseHasFewPoints(window: int, now: int, width: int, n: nat)
    requires MIN_WINDOW_SECS <= window <= MAX_WINDOW_SECS
    requires width == PulseWidth(window) && n == Points(now - window, now + 1, width)
    ensures 30 <= n <= 46 && (now >= window ==> n >= 31)
  {
    assert width == window / 30;
    QuotIs(now - window, width);
    var span := now + 1 - BucketOf(now - window, width);
    assert now < window ==> window + 2 - width <= span <= window + 1;
    assert now >= window ==> window + 1 <= span <= window + width;
    assert n == (span + width - 1) / width;
    hide Quot, BucketOf, Points, PulseWidth;
    CeilingRange(window, width, span, n);
  }

  lemma CeilingRange(window: int, width: int, span: int, n: int)
    requires width >= 2 && 30 * width <= window < 30 * width + 30
    requires window + 2 - width <= span <= window + width && n == (span + width - 1) / width
    ensures 30 <= n <= 46 && (span >= window + 1 ==> n >= 31)
  {
    Division(span + width - 1, width, n);
    if n <= 29 { Product(n - 30, width); }
    if n <= 30 { Product(n - 31, width); }
    if n >= 47 { Product(46 - n, width); }
  }

  /** Both ends of that range occur, and the early exception too. */
  lemma PulseRangeIsTight()
    ensures Points(3600, 7201, PulseWidth(3600)) == 31
    ensures Points(91, 181, PulseWidth(89)) == 46
    ensures Points(-1, 60, PulseWidth(60)) == 30
  {
  }
}
