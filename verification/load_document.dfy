/** The load document returned by the ENTSO-E API and its flattening into
    rows, as `fetch_data` in `energy_etl.py` walks it: every TimeSeries in
    document order, every Period inside it, every Point inside that. */
module LoadDocument {
  import opened Wrappers
  import opened Text

  /** The EIC code of bidding zone SE1, written on every row. */
  const ZoneCode := "10YSE-1--------K"

  /** A Point's `position` and `quantity` texts; `None` when the element is
      missing or (for the quantity) its text is not a number. */
  datatype Point = Point(position: Option<string>, quantity: Option<real>)
  /** A Period's `timeInterval/start` text (`None` when missing) and its Points. */
  datatype Period = Period(start: Option<string>, points: seq<Point>)
  datatype TimeSeries = TimeSeries(periods: seq<Period>)
  datatype LoadDoc = LoadDoc(series: seq<TimeSeries>)

  /** One row of `data_filtered`: zone, period start, position, quantity. */
  datatype LoadRow = LoadRow(zone: string, timestamp: string, position: int, quantity: real)

  /** A Point whose row can be built: both elements present, the position an
      integer and the quantity a number. */
  predicate PointOk(p: Point)
  {
    p.position.Some? && ParseInt(p.position.value).Some? && p.quantity.Some?
  }

  predicate PointsOk(pts: seq<Point>)
  {
    forall k :: 0 <= k < |pts| ==> PointOk(pts[k])
  }

  predicate PeriodOk(p: Period)
  {
    p.start.Some? && PointsOk(p.points)
  }

  predicate PeriodsOk(ps: seq<Period>)
  {
    forall j :: 0 <= j < |ps| ==> PeriodOk(ps[j])
  }

  predicate SeriesOk(ss: seq<TimeSeries>)
  {
    forall i :: 0 <= i < |ss| ==> PeriodsOk(ss[i].periods)
  }

  /** The walk raises no exception exactly when every Period has a start
      and every Point is readable. */
  predicate WellFormed(doc: LoadDoc)
  {
    SeriesOk(doc.series)
  }

  function PointRow(start: string, p: Point): LoadRow
    requires PointOk(p)
  {
    LoadRow(ZoneCode, start, ParseInt(p.position.value).value, p.quantity.value)
  }

  function PointRows(start: string, pts: seq<Point>): seq<LoadRow>
    requires PointsOk(pts)
  {
    if pts == [] then []
    else PointRows(start, pts[..|pts| - 1]) + [PointRow(start, pts[|pts| - 1])]
  }

  function PeriodsRows(ps: seq<Period>): seq<LoadRow>
    requires PeriodsOk(ps)
  {
    if ps == [] then []
    else PeriodsRows(ps[..|ps| - 1]) + PointRows(ps[|ps| - 1].start.value, ps[|ps| - 1].points)
  }

  function SeriesRows(ss: seq<TimeSeries>): seq<LoadRow>
    requires SeriesOk(ss)
  {
    if ss == [] then []
    else SeriesRows(ss[..|ss| - 1]) + PeriodsRows(ss[|ss| - 1].periods)
  }

  /** `data_filtered` after the walk, or `None` when the walk raises. */
  function Flatten(doc: LoadDoc): Option<seq<LoadRow>>
  {
    if WellFormed(doc) then Some(SeriesRows(doc.series)) else None
  }

  /** The number of Points in the document, counted series by series. */
  function PointCount(ss: seq<TimeSeries>): nat
  {
    if ss == [] then 0 else PeriodsPointCount(ss[0].periods) + PointCount(ss[1..])
  }

  function PeriodsPointCount(ps: seq<Period>): nat
  {
    if ps == [] then 0 else |ps[0].points| + PeriodsPointCount(ps[1..])
  }

  /** One Period yields one row per Point, in order, each carrying the
      Period's start and the Point's integer position and quantity. */
  lemma {:induction false} PointRowsAt(start: string, pts: seq<Point>)
    requires PointsOk(pts)
    ensures |PointRows(start, pts)| == |pts|
    ensures forall k :: 0 <= k < |pts| ==>
      PointRows(start, pts)[k] == LoadRow(ZoneCode, start, ParseInt(pts[k].position.value).value, pts[k].quantity.value)
  {
    if pts != [] {
      var init := pts[..|pts| - 1];
      assert PointsOk(init) by {
        forall k | 0 <= k < |init| ensures PointOk(init[k]) { assert init[k] == pts[k]; }
      }
      PointRowsAt(start, init);
    }
  }

  /** Concatenating lists of Periods concatenates their rows, and the walk
      over both succeeds exactly when it succeeds over each. */
  lemma {:induction false} PeriodsRowsAppend(a: seq<Period>, b: seq<Period>)
    ensures PeriodsOk(a + b) <==> PeriodsOk(a) && PeriodsOk(b)
    ensures PeriodsOk(a + b) ==> PeriodsRows(a + b) == PeriodsRows(a) + PeriodsRows(b)
  {
    assert forall j :: 0 <= j < |a| ==> (a + b)[j] == a[j];
    assert forall j :: 0 <= j < |b| ==> (a + b)[|a| + j] == b[j];
    if b == [] {
      assert a + b == a;
    } else if PeriodsOk(a + b) {
      var init := b[..|b| - 1];
      assert (a + b)[..|a + b| - 1] == a + init;
      assert (a + b)[|a + b| - 1] == b[|b| - 1];
      PeriodsRowsAppend(a, init);
    }
  }

  /** Concatenating lists of TimeSeries concatenates their rows. */
  lemma {:induction false} SeriesRowsAppend(a: seq<TimeSeries>, b: seq<TimeSeries>)
    ensures SeriesOk(a + b) <==> SeriesOk(a) && SeriesOk(b)
    ensures SeriesOk(a + b) ==> SeriesRows(a + b) == SeriesRows(a) + SeriesRows(b)
  {
    assert forall i :: 0 <= i < |a| ==> (a + b)[i] == a[i];
    assert forall i :: 0 <= i < |b| ==> (a + b)[|a| + i] == b[i];
    if b == [] {
      assert a + b == a;
    } else if SeriesOk(a + b) {
      var init := b[..|b| - 1];
      assert (a + b)[..|a + b| - 1] == a + init;
      assert (a + b)[|a + b| - 1] == b[|b| - 1];
      SeriesRowsAppend(a, init);
    }
  }

  /** Document order: the rows of two documents' series placed one after the
      other are the first document's rows followed by the second's, and the
      walk fails on the whole exactly when it fails on a part. */
  lemma FlattenAppend(a: seq<TimeSeries>, b: seq<TimeSeries>)
    ensures Flatten(LoadDoc(a + b)) ==
      if Flatten(LoadDoc(a)).Some? && Flatten(LoadDoc(b)).Some?
      then Some(Flatten(LoadDoc(a)).value + Flatten(LoadDoc(b)).value)
      else None
  {
    SeriesRowsAppend(a, b);
  }

  /** A document with one TimeSeries holding one Period gives that Period's
      rows, or `None` when the Period has no start or an unreadable Point. */
  lemma FlattenOnePeriod(p: Period)
    ensures Flatten(LoadDoc([TimeSeries([p])])) ==
      if PeriodOk(p) then Some(PointRows(p.start.value, p.points)) else None
  {
    var ss := [TimeSeries([p])];
    assert ss[..0] == [] && [p][..0] == [];
    assert ss[0].periods == [p] && [p][0] == p;
    if PeriodOk(p) {
      assert PeriodsOk([p]) && SeriesOk(ss);
      assert SeriesRows(ss) == PeriodsRows([p]);
      assert PeriodsRows([p]) == PeriodsRows([]) + PointRows(p.start.value, p.points);
      assert SeriesRows(ss) == PointRows(p.start.value, p.points);
      assert WellFormed(LoadDoc(ss));
      assert Flatten(LoadDoc(ss)) == Some(PointRows(p.start.value, p.points));
    } else {
      assert !PeriodsOk(ss[0].periods);
    }
  }

  lemma {:induction false} PeriodsRowsCount(ps: seq<Period>)
    requires PeriodsOk(ps)
    ensures |PeriodsRows(ps)| == PeriodsPointCount(ps)
  {
    if ps != [] {
      assert ps == [ps[0]] + ps[1..];
      PeriodsRowsAppend([ps[0]], ps[1..]);
      PeriodsRowsCount(ps[1..]);
      assert [ps[0]][..0] == [];
      PointRowsAt(ps[0].start.value, ps[0].points);
    }
  }

  lemma {:induction false} SeriesRowsCount(ss: seq<TimeSeries>)
    requires SeriesOk(ss)
    ensures |SeriesRows(ss)| == PointCount(ss)
  {
    if ss != [] {
      assert ss == [ss[0]] + ss[1..];
      SeriesRowsAppend([ss[0]], ss[1..]);
      SeriesRowsCount(ss[1..]);
      assert [ss[0]][..0] == [];
      PeriodsRowsCount(ss[0].periods);
    }
  }

  /** A walk that succeeds yields exactly one row per Point of the document. */
  lemma FlattenCount(doc: LoadDoc)
    requires Flatten(doc).Some?
    ensures |Flatten(doc).value| == PointCount(doc.series)
  {
    SeriesRowsCount(doc.series);
  }

  /** The innermost loop: the rows of one Period's Points, or `None` when
      one of them cannot be read. */
  method FlattenPoints(start: string, points: seq<Point>) returns (rows: Option<seq<LoadRow>>)
    ensures rows == if PointsOk(points) then Some(PointRows(start, points)) else None
  {
    var acc: seq<LoadRow> := [];
    var k := 0;
    while k < |points|
      invariant 0 <= k <= |points|
      invariant PointsOk(points[..k])
      invariant acc == PointRows(start, points[..k])
    {
      var point := points[k];
      if point.position.None? || point.quantity.None? {
        assert !PointOk(points[k]);
        return None;
      }
      var position := ParseInt(point.position.value);
      if position.None? {
        assert !PointOk(points[k]);
        return None;
      }
      acc := acc + [LoadRow(ZoneCode, start, position.value, point.quantity.value)];
      assert points[..k + 1][..k] == points[..k];
      k := k + 1;
    }
    assert points[..k] == points;
    return Some(acc);
  }

  /** The loop over one TimeSeries' Periods. */
  method FlattenPeriods(periods: seq<Period>) returns (rows: Option<seq<LoadRow>>)
    ensures rows == if PeriodsOk(periods) then Some(PeriodsRows(periods)) else None
  {
    var acc: seq<LoadRow> := [];
    var j := 0;
    while j < |periods|
      invariant 0 <= j <= |periods|
      invariant PeriodsOk(periods[..j])
      invariant acc == PeriodsRows(periods[..j])
    {
      var period := periods[j];
      if period.start.None? {
        assert !PeriodOk(periods[j]);
        return None;
      }
      var pointRows := FlattenPoints(period.start.value, period.points);
      if pointRows.None? {
        assert !PeriodOk(periods[j]);
        return None;
      }
      acc := acc + pointRows.value;
      assert periods[..j + 1][..j] == periods[..j];
      j := j + 1;
    }
    assert periods[..j] == periods;
    return Some(acc);
  }

  /** The walk over a document: every TimeSeries, in document order. */
  method FlattenDocument(doc: LoadDoc) returns (rows: Option<seq<LoadRow>>)
    ensures rows == Flatten(doc)
  {
    var acc: seq<LoadRow> := [];
    var i := 0;
    while i < |doc.series|
      invariant 0 <= i <= |doc.series|
      invariant SeriesOk(doc.series[..i])
      invariant acc == SeriesRows(doc.series[..i])
    {
      var periodRows := FlattenPeriods(doc.series[i].periods);
      if periodRows.None? {
        assert !PeriodsOk(doc.series[i].periods);
        return None;
      }
      acc := acc + periodRows.value;
      assert doc.series[..i + 1][..i] == doc.series[..i];
      i := i + 1;
    }
    assert doc.series[..i] == doc.series;
    return Some(acc);
  }
}
