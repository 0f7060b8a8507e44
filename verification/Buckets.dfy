/** Request counts over time: a range is cut into buckets, the database groups the
    events by bucket and provider, and the groups are filed into a point per bucket
    (internal/metrics-engine/metrics-engine.go, duckdb-reads.go). Ranges are in
    nanoseconds since the epoch, events in whole microseconds. */
module Buckets {
  import opened Wrappers
  import opened Arithmetic

  const MICRO: nat := 1000
  const MINUTE: nat := 60 * 1000000000
  const HOUR: nat := 60 * MINUTE
  const DAY: nat := 24 * HOUR

  // ---- Choosing buckets.

  /** The admitted ranges: at least an hour, at most the configured window. */
  predicate CheckRange(from: nat, to: nat, maxWindow: nat) { HOUR <= to - from <= maxWindow }

  function BucketFor(r: nat): (bucket: nat)
    ensures bucket > 0 && bucket % MICRO == 0
    ensures r >= HOUR ==> bucket <= r
  {
    if r >= 365 * DAY then 30 * DAY
    else if r >= 90 * DAY then 7 * DAY
    else if r >= 30 * DAY then 3 * DAY
    else if r >= 7 * DAY then DAY
    else if r >= 3 * DAY then 8 * HOUR
    else if r >= DAY then HOUR
    else if r >= 2 * HOUR then 10 * MINUTE
    else MINUTE
  }

  /** A query: the range and the bucket width in microseconds. */
  datatype Query = Query(from: nat, to: nat, width: nat)

  predicate Legal(q: Query) { q.width > 0 && q.from < q.to }

  /** The last bucket boundary, in microseconds, at or before the range. */
  function Start(q: Query): nat
    requires Legal(q)
  {
    q.from / MICRO / q.width * q.width
  }

  function Points(q: Query): nat
    requires Legal(q)
  {
    assert Start(q) <= q.from / MICRO by { Floor(q.from / MICRO, q.width); }
    (q.to - Start(q) * MICRO + q.width * MICRO - 1) / (q.width * MICRO)
  }

  lemma Floor(a: nat, w: nat)
    requires w > 0
    ensures a / w * w <= a < a / w * w + w
  {}

  lemma Bounds(q: Query)
    requires Legal(q)
    ensures Start(q) * MICRO <= q.from < Start(q) * MICRO + q.width * MICRO
  {
    Floor(q.from / MICRO, q.width);
    var m := q.from / MICRO;
    assert MICRO * m <= q.from < MICRO * m + MICRO;
    assert m + 1 <= Start(q) + q.width;
  }

  /** The points start at a multiple of the width and cover the range, none to spare. */
  lemma PointsCoverTheRange(q: Query)
    requires Legal(q)
    ensures Start(q) % q.width == 0
    ensures Start(q) * MICRO <= q.from < (Start(q) + q.width) * MICRO
    ensures (Points(q) - 1) * (q.width * MICRO) < q.to - Start(q) * MICRO <= Points(q) * (q.width * MICRO)
  {
    Bounds(q);
    var total, step := q.to - Start(q) * MICRO, q.width * MICRO;
    Floor(total + step - 1, step);
    assert (Points(q) - 1) * step == Points(q) * step - step;
    Remainder(Start(q), q.width, q.from / MICRO / q.width, 0);
  }

  datatype Outcome = Succeeded | Rejected | UpstreamError | GatewayError | ClientAbort

  predicate IsError(o: Outcome) { o != Succeeded && o != ClientAbort }

  /** A stored event; no provider is the empty name. */
  datatype Event = Event(at: nat, provider: string, outcome: Outcome)

  predicate InRange(q: Query, e: Event) { q.from / MICRO <= e.at && e.at * MICRO < q.to }

  function Index(q: Query, e: Event): nat
    requires Legal(q) && InRange(q, e)
  {
    Floor(q.from / MICRO, q.width);
    (e.at - Start(q)) / q.width
  }

  /** Every event of the range has a point, and it is the one whose span holds it. */
  lemma EveryEventHasAPoint(q: Query, e: Event)
    requires Legal(q) && q.from / 1000 <= e.at && e.at * 1000 < q.to
    ensures InRange(q, e) && Index(q, e) < Points(q)
    ensures var left := Start(q) + Index(q, e) * q.width; left <= e.at < left + q.width
  {
    Bounds(q);
    Floor(q.from / MICRO, q.width);
    var d, w := e.at - Start(q), q.width;
    Floor(d, w);
    var i := d / w;
    assert (i * w) * MICRO == i * (w * MICRO);
    var total := q.to - Start(q) * MICRO;
    assert i * (w * MICRO) < total;
    CeilAbove(i, total, w * MICRO);
  }

  lemma CeilAbove(i: nat, total: int, step: nat)
    requires step > 0 && i * step < total
    ensures i < (total + step - 1) / step
  {
    var n := (total + step - 1) / step;
    assert total + step - 1 < n * step + step;
    if n <= i { TimesGrows(n, i, step); }
  }

  lemma CeilBelow(n: nat, total: nat, step: nat)
    requires step > 0 && total <= n * step
    ensures (total + step - 1) / step <= n
  {
    var m := (total + step - 1) / step;
    assert m * step <= total + step - 1;
    if m > n { TimesGrows(n + 1, m, step); }
  }

  /** Ranges under a year take at most 145 points. */
  lemma AtMost145Points(from: nat, to: nat)
    requires HOUR <= to - from < 365 * DAY
    ensures Points(Query(from, to, BucketFor(to - from) / MICRO)) <= 145
  {
    var r := to - from;
    var q := Query(from, to, BucketFor(r) / MICRO);
    var step := q.width * MICRO;
    assert step == BucketFor(r);
    Bounds(q);
    var total := to - Start(q) * MICRO;
    assert total < r + step;
    assert r + step <= 145 * step;
    CeilBelow(145, total, step);
  }

  /** And every admitted range takes at least seven. */
  lemma AtLeastSevenPoints(from: nat, to: nat)
    requires HOUR <= to - from
    ensures Points(Query(from, to, BucketFor(to - from) / MICRO)) >= 7
  {
    var q := Query(from, to, BucketFor(to - from) / MICRO);
    var step := q.width * MICRO;
    assert step == BucketFor(to - from);
    PointsCoverTheRange(q);
    assert 6 * step < to - from;
    if Points(q) < 7 { TimesGrows(Points(q), 6, step); }
  }

  /** And some take that many: just under a day, from just before a boundary. */
  lemma OneRangeTakes145()
    ensures var from := 10 * MINUTE - 1; var to := from + DAY - 1;
            Points(Query(from, to, BucketFor(to - from) / MICRO)) == 145
  {}

  // ---- What the database groups.

  function Count(events: seq<Event>, f: Event -> bool): nat {
    if events == [] then 0
    else Count(events[..|events| - 1], f) + if f(events[|events| - 1]) then 1 else 0
  }

  datatype Cell = Cell(index: nat, provider: string)

  /** The cell an event is grouped into. */
  function CellOf(q: Query, e: Event): Cell
    requires Legal(q) && InRange(q, e)
  {
    Cell(Index(q, e), e.provider)
  }

  predicate In(q: Query, cells: set<Cell>, e: Event)
    requires Legal(q)
  {
    InRange(q, e) && CellOf(q, e) in cells
  }

  datatype Kind = Success | Failure | Cancelled

  predicate Is(k: Kind, e: Event) {
    match k
    case Success => e.outcome == Succeeded
    case Failure => IsError(e.outcome)
    case Cancelled => e.outcome == ClientAbort
  }

  function KindOf(k: Kind): Event -> bool { e => Is(k, e) }

  function SuccessBy(provider: string): Event -> bool { e => Is(Success, e) && e.provider == provider }

  function InCells(q: Query, cells: set<Cell>, k: Kind): Event -> bool
    requires Legal(q)
  {
    e => In(q, cells, e) && Is(k, e)
  }

  /** Events of one kind in the given cells. */
  function CountIn(q: Query, events: seq<Event>, cells: set<Cell>, k: Kind): nat
    requires Legal(q)
  {
    Count(events, InCells(q, cells, k))
  }

  ghost predicate Occurs(q: Query, events: seq<Event>, cell: Cell)
    requires Legal(q)
  {
    exists e :: e in events && InRange(q, e) && CellOf(q, e) == cell
  }

  datatype Row = Row(cell: Cell, ok: nat, errs: nat, cancelled: nat)

  /** The query's answer: one row for each cell with events, with the counts of it. */
  ghost predicate Grouped(q: Query, events: seq<Event>, rows: seq<Row>)
    requires Legal(q)
  {
    && (forall i, j :: 0 <= i < j < |rows| ==> rows[i].cell != rows[j].cell)
    && (forall i :: 0 <= i < |rows| ==>
         && rows[i].ok == CountIn(q, events, {rows[i].cell}, Success)
         && rows[i].errs == CountIn(q, events, {rows[i].cell}, Failure)
         && rows[i].cancelled == CountIn(q, events, {rows[i].cell}, Cancelled)
         && Occurs(q, events, rows[i].cell))
    && (forall e :: e in events && InRange(q, e) ==> exists i :: 0 <= i < |rows| && rows[i].cell == CellOf(q, e))
  }

  lemma {:induction false} CountUnion(events: seq<Event>, f: Event -> bool, g: Event -> bool, h: Event -> bool)
    requires forall e :: e in events ==> !(f(e) && g(e)) && (h(e) <==> f(e) || g(e))
    ensures Count(events, h) == Count(events, f) + Count(events, g)
  {
    if events != [] { CountUnion(events[..|events| - 1], f, g, h); }
  }

  lemma {:induction false} CountSame(events: seq<Event>, f: Event -> bool, g: Event -> bool)
    requires forall e :: e in events ==> f(e) == g(e)
    ensures Count(events, f) == Count(events, g)
  {
    if events != [] { CountSame(events[..|events| - 1], f, g); }
  }

  lemma {:induction false} CountNone(events: seq<Event>, f: Event -> bool)
    requires forall e :: e in events ==> !f(e)
    ensures Count(events, f) == 0
  {
    if events != [] { CountNone(events[..|events| - 1], f); }
  }

  lemma DisjointCells(q: Query, events: seq<Event>, a: set<Cell>, b: set<Cell>, k: Kind)
    requires Legal(q) && a !! b
    ensures CountIn(q, events, a + b, k) == CountIn(q, events, a, k) + CountIn(q, events, b, k)
  {
    CountUnion(events, InCells(q, a, k), InCells(q, b, k), InCells(q, a + b, k));
  }

  // ---- Filing the rows into points.

  datatype Point = Point(t: nat, errors: nat, cancelled: nat, providers: seq<(string, nat)>)

  /** The cells of point i among those filed so far. */
  function CellsAt(done: set<Cell>, i: nat): set<Cell> {
    set c | c in done && c.index == i
  }

  /** The success entries of point i: one for every provider with successes, none for
      requests that never got one. */
  ghost predicate Successes(q: Query, events: seq<Event>, done: set<Cell>, i: nat, entries: seq<(string, nat)>)
    requires Legal(q)
  {
    && (forall a, b :: 0 <= a < b < |entries| ==> entries[a].0 != entries[b].0)
    && (forall a :: 0 <= a < |entries| ==>
         && entries[a].0 != "" && Cell(i, entries[a].0) in done
         && entries[a].1 == CountIn(q, events, {Cell(i, entries[a].0)}, Success) > 0)
    && (forall p :: p != "" && Cell(i, p) in done && CountIn(q, events, {Cell(i, p)}, Success) > 0
         ==> Named(entries, p))
  }

  ghost predicate Named(entries: seq<(string, nat)>, p: string) {
    exists a :: 0 <= a < |entries| && entries[a].0 == p
  }

  ghost predicate Holds(q: Query, events: seq<Event>, done: set<Cell>, i: nat, p: Point)
    requires Legal(q)
  {
    && p.t == Start(q) + i * q.width
    && p.errors == CountIn(q, events, CellsAt(done, i), Failure)
    && p.cancelled == CountIn(q, events, CellsAt(done, i), Cancelled)
    && Successes(q, events, done, i, p.providers)
  }

  /** What filing one row does to its point. */
  function Filed(p: Point, row: Row): Point {
    p.(errors := p.errors + row.errs, cancelled := p.cancelled + row.cancelled,
       providers := if row.ok > 0
         && row.cell.provider != "" then p.providers + [(row.cell.provider, row.ok)] else p.providers)
  }

  lemma SuccessesStep(q: Query, events: seq<Event>, done: set<Cell>, p: Point, row: Row)
    requires Legal(q) && Successes(q, events, done, row.cell.index, p.providers) && row.cell !in done
    requires row.ok == CountIn(q, events, {row.cell}, Success)
    ensures Successes(q, events, done + {row.cell}, row.cell.index, Filed(p, row).providers)
  {
    var i, old_, now, name := row.cell.index, p.providers, Filed(p, row).providers, row.cell.provider;
    assert row.cell == Cell(i, name);
    forall n | n != "" && Cell(i, n) in done + {row.cell} && CountIn(q, events, {Cell(i, n)}, Success) > 0
      ensures Named(now, n)
    {
      if n == name { assert now[|now| - 1].0 == n; } else { NamedStays(old_, now, n); }
    }
  }

  lemma NamedStays(old_: seq<(string, nat)>, now: seq<(string, nat)>, n: string)
    requires old_ <= now && Named(old_, n)
    ensures Named(now, n)
  {
    var a :| 0 <= a < |old_| && old_[a].0 == n;
    assert now[a].0 == n;
  }

  lemma OwnPoint(q: Query, events: seq<Event>, done: set<Cell>, p: Point, row: Row)
    requires Legal(q) && Holds(q, events, done, row.cell.index, p) && row.cell !in done
    requires row.ok == CountIn(q, events, {row.cell}, Success)
    requires row.errs == CountIn(q, events, {row.cell}, Failure)
    requires row.cancelled == CountIn(q, events, {row.cell}, Cancelled)
    ensures Holds(q, events, done + {row.cell}, row.cell.index, Filed(p, row))
  {
    var i := row.cell.index;
    assert CellsAt(done + {row.cell}, i) == CellsAt(done, i) + {row.cell};
    DisjointCells(q, events, CellsAt(done, i), {row.cell}, Failure);
    DisjointCells(q, events, CellsAt(done, i), {row.cell}, Cancelled);
    SuccessesStep(q, events, done, p, row);
  }

  lemma OtherPoint(q: Query, events: seq<Event>, done: set<Cell>, i: nat, p: Point, cell: Cell)
    requires Legal(q) && Holds(q, events, done, i, p) && cell.index != i
    ensures Holds(q, events, done + {cell}, i, p)
  {
    assert CellsAt(done + {cell}, i) == CellsAt(done, i);
    assert forall n :: Cell(i, n) in done + {cell} <==> Cell(i, n) in done;
  }

  lemma EmptyPoint(q: Query, events: seq<Event>, i: nat)
    requires Legal(q)
    ensures Holds(q, events, {}, i, Point(Start(q) + i * q.width, 0, 0, []))
  {
    CountNone(events, InCells(q, CellsAt({}, i), Failure));
    CountNone(events, InCells(q, CellsAt({}, i), Cancelled));
  }

  lemma RowHasAPoint(q: Query, events: seq<Event>, rows: seq<Row>, k: nat)
    requires Legal(q) && Grouped(q, events, rows) && k < |rows|
    ensures rows[k].cell.index < Points(q)
  {
    assert Occurs(q, events, rows[k].cell);
    var e :| e in events && InRange(q, e) && CellOf(q, e) == rows[k].cell;
    EveryEventHasAPoint(q, e);
  }

  /** All cells an answer has rows for. */
  function CellsOf(rows: seq<Row>): set<Cell> {
    set i | 0 <= i < |rows| :: rows[i].cell
  }

  method GetRequestSummaryByTime(q: Query, ghost events: seq<Event>, rows: seq<Row>) returns (points: array<Point>)
    requires Legal(q) && Grouped(q, events, rows)
    ensures points.Length == Points(q)
    ensures forall i :: 0 <= i < points.Length ==> Holds(q, events, CellsOf(rows), i, points[i])
  {
    var start, n := Start(q), Points(q);
    points := new Point[n](i requires 0 <= i => Point(start + i * q.width, 0, 0, []));
    forall i: nat | i < n ensures Holds(q, events, {}, i, points[i]) { EmptyPoint(q, events, i); }
    assert CellsOf(rows[..0]) == {};
    for k := 0 to |rows|
      invariant forall i: nat :: i < n ==> Holds(q, events, CellsOf(rows[..k]), i, points[i])
    {
      var row := rows[k];
      ghost var done := CellsOf(rows[..k]);
      assert CellsOf(rows[..k + 1]) == done + {row.cell};
      RowHasAPoint(q, events, rows, k);
      var idx := row.cell.index;
      OwnPoint(q, events, done, points[idx], row);
      forall i: nat | i < n && i != idx ensures Holds(q, events, done + {row.cell}, i, points[i]) {
        OtherPoint(q, events, done, i, points[i], row.cell);
      }
      points[idx] := Filed(points[idx], row);
    }
    assert rows[..|rows|] == rows;
  }

  // ---- The points against a direct count.

  function Sum(points: seq<Point>, f: Point -> nat): nat {
    if points == [] then 0 else Sum(points[..|points| - 1], f) + f(points[|points| - 1])
  }

  /** What one point says of one provider. */
  function SuccessOf(p: Point, provider: string): nat {
    Entry(p.providers, provider)
  }

  function Entry(entries: seq<(string, nat)>, provider: string): nat {
    if entries == [] then 0
    else Entry(entries[..|entries| - 1], provider) + if entries[|entries| - 1].0 == provider
      then entries[|entries| - 1].1 else 0
  }

  lemma {:induction false} EntryIs(entries: seq<(string, nat)>, provider: string)
    requires forall a, b :: 0 <= a < b < |entries| ==> entries[a].0 != entries[b].0
    ensures (forall a :: 0 <= a < |entries| ==> entries[a].0 != provider) ==> Entry(entries, provider) == 0
    ensures forall a :: 0 <= a < |entries| && entries[a].0 == provider ==> Entry(entries, provider) == entries[a].1
  {
    if entries != [] { EntryIs(entries[..|entries| - 1], provider); }
  }

  predicate AtPoint(q: Query, i: nat, e: Event)
    requires Legal(q)
  {
    InRange(q, e) && Index(q, e) == i
  }

  /** The events of one bucket, of all buckets before it, and of the range. */
  function Here(q: Query, i: nat, f: Event -> bool): Event -> bool
    requires Legal(q)
  {
    e => AtPoint(q, i, e) && f(e)
  }

  function Until(q: Query, i: nat, f: Event -> bool): Event -> bool
    requires Legal(q)
  {
    e => InRange(q, e) && Index(q, e) < i && f(e)
  }

  function Within(q: Query, f: Event -> bool): Event -> bool { e => InRange(q, e) && f(e) }

  lemma RowsCoverTheirPoint(q: Query, events: seq<Event>, rows: seq<Row>, i: nat, k: Kind)
    requires Legal(q) && Grouped(q, events, rows)
    ensures CountIn(q, events, CellsAt(CellsOf(rows), i), k) == Count(events, Here(q, i, KindOf(k)))
  {
    var cells := CellsAt(CellsOf(rows), i);
    forall e | e in events ensures In(q, cells, e) == AtPoint(q, i, e) {
      if AtPoint(q, i, e) { assert CellOf(q, e) in CellsOf(rows); }
    }
    CountSame(events, InCells(q, cells, k), Here(q, i, KindOf(k)));
  }

  lemma UnlistedCellIsEmpty(q: Query, events: seq<Event>, rows: seq<Row>, cell: Cell)
    requires Legal(q) && Grouped(q, events, rows) && cell !in CellsOf(rows)
    ensures CountIn(q, events, {cell}, Success) == 0
  {
    forall e | e in events ensures !In(q, {cell}, e) {
      assert InRange(q, e) ==> CellOf(q, e) in CellsOf(rows);
    }
    CountNone(events, InCells(q, {cell}, Success));
  }

  lemma ProviderCounts(q: Query, events: seq<Event>, rows: seq<Row>, i: nat, p: Point, provider: string)
    requires Legal(q) && Grouped(q, events, rows) && Holds(q, events, CellsOf(rows), i, p) && provider != ""
    ensures SuccessOf(p, provider) == Count(events, Here(q, i, SuccessBy(provider)))
  {
    var cell := Cell(i, provider);
    CountSame(events, InCells(q, {cell}, Success), Here(q, i, SuccessBy(provider)));
    EntryIs(p.providers, provider);
    if cell !in CellsOf(rows) { UnlistedCellIsEmpty(q, events, rows, cell); }
  }

  /** Counts per point add up to the count over the range. */
  lemma {:induction false} PointsAddUp(q: Query, events: seq<Event>, points: seq<Point>, value: Point -> nat,
    f: Event -> bool)
    requires Legal(q)
    requires forall i :: 0 <= i < |points| ==> value(points[i]) == Count(events, Here(q, i, f))
    ensures Sum(points, value) == Count(events, Until(q, |points|, f))
  {
    var n := |points|;
    if n == 0 {
      CountNone(events, Until(q, 0, f));
    } else {
      PointsAddUp(q, events, points[..n - 1], value, f);
      CountUnion(events, Until(q, n - 1, f), Here(q, n - 1, f), Until(q, n, f));
    }
  }

  lemma WholeRange(q: Query, events: seq<Event>, points: seq<Point>, value: Point -> nat, f: Event -> bool)
    requires Legal(q) && |points| == Points(q)
    requires forall i :: 0 <= i < |points| ==> value(points[i]) == Count(events, Here(q, i, f))
    ensures Sum(points, value) == Count(events, Within(q, f))
  {
    PointsAddUp(q, events, points, value, f);
    forall e | e in events && InRange(q, e) ensures Index(q, e) < |points| { EveryEventHasAPoint(q, e); }
    CountSame(events, Until(q, |points|, f), Within(q, f));
  }

  function ErrorsOf(): Point -> nat { (p: Point) => p.errors }

  function CancelledOf(): Point -> nat { (p: Point) => p.cancelled }

  function SuccessesOf(provider: string): Point -> nat { (p: Point) => SuccessOf(p, provider) }

  /** The summary loses and invents nothing: its totals are direct counts over the
      range. A successful request without a provider is the one thing it leaves out. */
  lemma SummaryCountsTheRange(q: Query, events: seq<Event>, rows: seq<Row>, points: seq<Point>, provider: string)
    requires Legal(q) && Grouped(q, events, rows) && |points| == Points(q)
    requires forall i :: 0 <= i < |points| ==> Holds(q, events, CellsOf(rows), i, points[i])
    ensures Sum(points, ErrorsOf()) == Count(events, Within(q, KindOf(Failure)))
    ensures Sum(points, CancelledOf()) == Count(events, Within(q, KindOf(Cancelled)))
    ensures provider != "" ==> Sum(points, SuccessesOf(provider)) == Count(events, Within(q, SuccessBy(provider)))
  {
    forall i | 0 <= i < |points|
      ensures points[i].errors == Count(events, Here(q, i, KindOf(Failure)))
      ensures points[i].cancelled == Count(events, Here(q, i, KindOf(Cancelled)))
      ensures provider != "" ==> SuccessOf(points[i], provider) == Count(events, Here(q, i, SuccessBy(provider)))
    {
      RowsCoverTheirPoint(q, events, rows, i, Failure);
      RowsCoverTheirPoint(q, events, rows, i, Cancelled);
      if provider != "" { ProviderCounts(q, events, rows, i, points[i], provider); }
    }
    WholeRange(q, events, points, ErrorsOf(), KindOf(Failure));
    WholeRange(q, events, points, CancelledOf(), KindOf(Cancelled));
    if provider != "" { WholeRange(q, events, points, SuccessesOf(provider), SuccessBy(provider)); }
  }

  /** Errors, cancellations and successes are all the events of the range, each once. */
  lemma KindsAreEveryEvent(q: Query, events: seq<Event>)
    ensures Count(events, Within(q, KindOf(Failure))) + Count(events, Within(q, KindOf(Cancelled)))
         + Count(events, e => InRange(q, e) && e.outcome == Succeeded) == Count(events, e => InRange(q, e))
  {
    var ended := (e: Event) => InRange(q, e) && e.outcome != Succeeded;
    CountUnion(events, Within(q, KindOf(Failure)), Within(q, KindOf(Cancelled)), ended);
    CountUnion(events, ended, e => InRange(q, e) && e.outcome == Succeeded, e => InRange(q, e));
  }

  /** The query as the engine poses it. */
  function Posed(from: nat, to: nat): Query
    requires from <= to
  {
    Query(from, to, BucketFor(to - from) / MICRO)
  }

  /** From the request to the answer: a refused range, or points whose totals are the
      direct counts, and few enough of them to draw. */
  method RequestSummary(from: nat, to: nat, maxWindow: nat, ghost events: seq<Event>, rows: seq<Row>)
    returns (r: Option<array<Point>>)
    requires CheckRange(from, to, maxWindow) ==> Grouped(Posed(from, to), events, rows)
    ensures r.Some? <==> 60 * 60 * 1_000_000_000 <= to - from <= maxWindow
    ensures r.Some? ==> var q, ps := Posed(from, to), r.value[..];
      && (forall i :: 0 <= i < |ps| ==> ps[i].t == Start(q) + i * q.width)
      && Sum(ps, ErrorsOf()) == Count(events, Within(q, KindOf(Failure)))
      && Sum(ps, CancelledOf()) == Count(events, Within(q, KindOf(Cancelled)))
      && (forall p :: p != "" ==> Sum(ps, SuccessesOf(p)) == Count(events, Within(q, SuccessBy(p))))
      && |ps| >= 7 && (to - from < 365 * DAY ==> |ps| <= 145)
  {
    if to - from < HOUR { return None; }
    if to - from > maxWindow { return None; }
    var q := Posed(from, to);
    var points := GetRequestSummaryByTime(q, events, rows);
    SummaryCountsTheRange(q, events, rows, points[..], "");
    forall p | p != "" ensures Sum(points[..], SuccessesOf(p)) == Count(events, Within(q, SuccessBy(p))) {
      SummaryCountsTheRange(q, events, rows, points[..], p);
    }
    AtLeastSevenPoints(from, to);
    if to - from < 365 * DAY { AtMost145Points(from, to); }
    return Some(points);
  }
}
