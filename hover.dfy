/** The mouse-over annotation of script.py (`hover`): which drawn point is
    nearest to the pointer, where the annotation box goes, and the values it
    shows. The principal is passed in already parsed (None when the entry does
    not parse as a number). */
module Hover {
  import opened Common
  import opened Resampler

  /** The distance along the x axis from the pointer to every drawn point. */
  function Distances(points: seq<PlotPoint>, x: real): (ds: seq<real>)
    ensures |ds| == |points|
  {
    seq(|points|, k requires 0 <= k < |points| => Abs(points[k].plotX - x))
  }

  /** Python's `min` over a non-empty list. */
  function Min(ds: seq<real>): (m: real)
    requires |ds| >= 1
    ensures m in ds
    ensures forall k :: 0 <= k < |ds| ==> m <= ds[k]
  {
    if |ds| == 1 then ds[0]
    else
      var rest := Min(ds[1..]);
      if ds[0] <= rest then ds[0] else rest
  }

  /** Python's `list.index`: the first position holding `v`. */
  function IndexOf(ds: seq<real>, v: real): (i: nat)
    requires v in ds
    ensures i < |ds| && ds[i] == v
    ensures forall j :: 0 <= j < i ==> ds[j] != v
  {
    if ds[0] == v then 0 else 1 + IndexOf(ds[1..], v)
  }

  /** The position of the first drawn point at the smallest distance. */
  function Nearest(points: seq<PlotPoint>, x: real): (idx: nat)
    requires |points| >= 1
    ensures idx < |points|
  {
    var ds := Distances(points, x);
    IndexOf(ds, Min(ds))
  }

  /** The position the lookup must pick: no point is nearer, and every
      earlier point is strictly farther. */
  ghost predicate FirstNearest(points: seq<PlotPoint>, x: real, idx: int) {
    0 <= idx < |points| &&
    (forall k :: 0 <= k < |points| ==> Abs(points[idx].plotX - x) <= Abs(points[k].plotX - x)) &&
    (forall k :: 0 <= k < idx ==> Abs(points[k].plotX - x) > Abs(points[idx].plotX - x))
  }

  /** The lookup picks the first point at minimum distance, and that is the
      only position with this property. */
  lemma NearestIsFirstMinimum(points: seq<PlotPoint>, x: real, idx: int)
    requires |points| >= 1
    ensures FirstNearest(points, x, Nearest(points, x))
    ensures FirstNearest(points, x, idx) <==> idx == Nearest(points, x)
  {
    var ds := Distances(points, x);
    var n := Nearest(points, x);
    var m := Min(ds);
    assert ds[n] == m;
    assert forall k :: 0 <= k < |points| ==> ds[k] == Abs(points[k].plotX - x);
    forall k | 0 <= k < n ensures ds[k] > ds[n] {
      assert ds[k] != m && m <= ds[k];
    }
    if FirstNearest(points, x, idx) {
      assert ds[idx] == ds[n];
    }
  }

  /** On a chart whose days strictly increase, a tie between two equally
      near points goes to the earlier day. */
  lemma TieGoesToEarlierDay(points: seq<PlotPoint>, x: real, k: int)
    requires |points| >= 1 && 0 <= k < |points|
    requires forall i, j :: 0 <= i < j < |points| ==> points[i].day < points[j].day
    requires Abs(points[k].plotX - x) == Abs(points[Nearest(points, x)].plotX - x)
    ensures points[Nearest(points, x)].day <= points[k].day
  {
    var n := Nearest(points, x);
    NearestIsFirstMinimum(points, x, n);
    assert n <= k;
  }

  /** Which side of its point the annotation box sits on. */
  datatype Align = AlignLeft | AlignRight

  /** `annot.xyann` and the horizontal alignment. */
  datatype Placement = Placement(dx: int, dy: int, align: Align)

  /** Beyond the middle of the x axis the box is drawn to the left of the
      point, right-aligned; otherwise to the right, left-aligned. */
  function Place(plotX: real, xMin: real, xMax: real): (p: Placement)
    ensures p.dy == 25
    ensures p == Placement(-25, 25, AlignRight) <==> plotX > (xMin + xMax) / 2.0
    ensures p == Placement(25, 25, AlignLeft) <==> plotX <= (xMin + xMax) / 2.0
  {
    if plotX > (xMin + xMax) / 2.0 then Placement(-25, 25, AlignRight) else Placement(25, 25, AlignLeft)
  }

  /** The box always points towards the middle of the axes: it is shifted
      left of a point right of the middle and right of any other point, and
      the alignment is on the side facing the point. */
  lemma PlacementFacesCentre(plotX: real, xMin: real, xMax: real)
    ensures var p := Place(plotX, xMin, xMax);
              (p.dx < 0 <==> plotX > (xMin + xMax) / 2.0) &&
              (p.dx < 0 <==> p.align == AlignRight) && Abs(p.dx as real) == 25.0
  {
  }

  /** The annotation text: the short form when the principal entry does not
      parse, otherwise amount, profit and (for a positive principal) the
      return rate at that point. */
  datatype HoverText =
    | Brief(time: real, amount: real)
    | Detailed(time: real, amount: real, profit: real, rate: Option<real>)

  /** What one mouse move does to the annotation. */
  datatype HoverResult =
    | Hidden
    | Shown(index: nat, point: PlotPoint, placement: Placement, text: HoverText)
    | PeriodKeyError(index: nat, point: PlotPoint, placement: Placement)

  /** The text for a point `day` days in with `amount`, shown in a display
      unit of `unitLength` days. */
  function Describe(day: int, amount: real, unitLength: nat, principal: Option<real>): (t: HoverText)
    requires unitLength >= 1
    ensures t.time == day as real / unitLength as real && t.amount == amount
    ensures t.Brief? <==> principal.None?
    ensures t.Detailed? ==> t.profit == amount - principal.value
    ensures t.Detailed? ==> (t.rate.Some? <==> principal.value > 0.0)
    ensures t.Detailed? && t.rate.Some? ==> t.rate.value * principal.value == 100.0 * t.profit
  {
    var time := day as real / unitLength as real;
    match principal
    case None => Brief(time, amount)
    case Some(p) =>
      var profit := amount - p;
      Detailed(time, amount, profit, if p > 0.0 then Some((profit / p) * 100.0) else None)
  }

  /** `hover(event)`: nothing is looked up when no point is drawn or the
      pointer is outside the axes; otherwise the nearest point is annotated,
      and `period_map[period]` raises `KeyError` for an unknown period after
      the box has been placed. */
  function OnHover(points: seq<PlotPoint>, inAxes: bool, x: real, xMin: real, xMax: real,
                   period: string, principal: Option<real>): (r: HoverResult)
    ensures r.Hidden? <==> |points| == 0 || !inAxes
    ensures r.PeriodKeyError? <==> |points| > 0 && inAxes && DaysIn(period).None?
    ensures !r.Hidden? ==> FirstNearest(points, x, r.index) && r.point == points[r.index]
    ensures !r.Hidden? ==> r.placement == Place(r.point.plotX, xMin, xMax)
    ensures r.Shown? ==> r.text == Describe(r.point.day, r.point.amount, DaysIn(period).value, principal)
  {
    if |points| == 0 || !inAxes then Hidden
    else
      var idx := Nearest(points, x);
      NearestIsFirstMinimum(points, x, idx);
      var point := points[idx];
      var placement := Place(point.plotX, xMin, xMax);
      match DaysIn(period)
      case None => PeriodKeyError(idx, point, placement)
      case Some(unit) => Shown(idx, point, placement, Describe(point.day, point.amount, unit, principal))
  }

  /** On the chart drawn for the same period, the time shown is the x
      coordinate of the point: both are its day in display units. */
  lemma HoverTimeIsPlotX(data: seq<Sample>, stride: nat, x: real, xMin: real, xMax: real,
                         period: string, principal: Option<real>)
    requires |data| >= 1 && stride >= 1 && DayIndexed(data) && DaysIn(period).Some?
    ensures var r := OnHover(Resampled(data, stride, DaysIn(period).value), true, x, xMin, xMax, period, principal);
              r.Shown? && r.text.time == r.point.plotX
  {
    var points := Resampled(data, stride, DaysIn(period).value);
    ResampledPoints(data, stride, DaysIn(period).value);
    var r := OnHover(points, true, x, xMin, xMax, period, principal);
  }
}
