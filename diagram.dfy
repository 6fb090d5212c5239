/** The straightline diagram (components/StraightLineDiagram.tsx): which
    records are in view, where they are drawn, how they are coloured and
    emphasised, and the three hover slots. */
module Diagram {
  import opened Wrappers
  import opened Road
  import Collections

  // ---------------------------------------------------------------------
  // Props: the station window and the two category filters
  // ---------------------------------------------------------------------

  /** The `stationRange` prop `[lo, hi]`; nothing forces `lo <= hi`. */
  datatype StationRange = StationRange(lo: real, hi: real)

  /** The `surfaceTypeFilter` prop: `'all'` or one surface type. */
  datatype SurfaceFilter = AllSurfaces | OnlySurface(surface: SurfaceType)

  /** The `fundingStatusFilter` prop: `'all'` or one status. */
  datatype StatusFilter = AllStatuses | OnlyStatus(status: Status)

  /** `x` lies strictly between `a` and `b`. */
  predicate InOpen(x: real, a: real, b: real)
  {
    a < x < b
  }

  /** The overlap test shared by segments and funding releases. For a
      proper record range and a window with `lo <= hi` it holds exactly
      when some point strictly inside the record's range lies in the closed
      window, so ranges that
      merely touch the window are out while one strictly containing a point
      window is in. For an inverted window it holds exactly for records
      whose open range covers all of `[hi, lo]`. */
  function Overlaps(start: real, end: real, range: StationRange): (b: bool)
    ensures start < end && range.lo <= range.hi ==>
      (b <==> exists x :: InOpen(x, start, end) && range.lo <= x <= range.hi)
    ensures range.hi < range.lo ==>
      (b <==> InOpen(range.hi, start, end) && InOpen(range.lo, start, end))
  {
    var a := if start < range.lo then range.lo else start;
    var c := if end < range.hi then end else range.hi;
    var m := (a + c) / 2.0;
    assert start < end && start < range.hi && end > range.lo && range.lo <= range.hi ==>
      InOpen(m, start, end) && range.lo <= m <= range.hi;
    start < range.hi && end > range.lo
  }

  /** The surface filter passes `t`. */
  predicate SurfaceMatches(filter: SurfaceFilter, t: SurfaceType)
  {
    match filter
    case AllSurfaces => true
    case OnlySurface(s) => s == t
  }

  /** The status filter passes `s`. */
  predicate StatusMatches(filter: StatusFilter, s: Status)
  {
    match filter
    case AllStatuses => true
    case OnlyStatus(t) => t == s
  }

  /** The test `filteredSegments` applies to one segment. */
  predicate SegmentInView(seg: RoadSegment, range: StationRange, filter: SurfaceFilter)
  {
    Overlaps(seg.startStation, seg.endStation, range) && SurfaceMatches(filter, seg.surfaceType)
  }

  /** The test `filteredStations` applies to one station. */
  predicate StationInView(st: ProjectStation, range: StationRange)
  {
    st.station >= range.lo && st.station <= range.hi
  }

  /** The test `filteredFunding` applies to one release. */
  predicate FundingInView(f: FundingRelease, range: StationRange, filter: StatusFilter)
  {
    Overlaps(f.startStation, f.endStation, range) && StatusMatches(filter, f.status)
  }

  /** The callbacks handed to `filter`. */
  function SegmentTest(range: StationRange, filter: SurfaceFilter): RoadSegment -> bool
  {
    seg => SegmentInView(seg, range, filter)
  }

  function StationTest(range: StationRange): ProjectStation -> bool
  {
    st => StationInView(st, range)
  }

  function FundingTest(range: StationRange, filter: StatusFilter): FundingRelease -> bool
  {
    f => FundingInView(f, range, filter)
  }

  /** `filteredSegments`: segments overlapping the window whose surface
      passes the filter, each with its multiplicity, in collection order. */
  function FilteredSegments(segments: seq<RoadSegment>, range: StationRange, filter: SurfaceFilter): (r: seq<RoadSegment>)
    ensures forall seg :: seg in r <==>
      && seg in segments
      && seg.startStation < range.hi && seg.endStation > range.lo
      && (filter == AllSurfaces || filter == OnlySurface(seg.surfaceType))
    ensures forall seg :: multiset(r)[seg] == if SegmentInView(seg, range, filter) then multiset(segments)[seg] else 0
    ensures Collections.IsSubsequence(r, segments)
  {
    assert forall seg :: SegmentTest(range, filter)(seg) == SegmentInView(seg, range, filter);
    assert forall seg :: SegmentInView(seg, range, filter) <==>
      && seg.startStation < range.hi && seg.endStation > range.lo
      && (filter == AllSurfaces || filter == OnlySurface(seg.surfaceType));
    Collections.FilterCounts(SegmentTest(range, filter), segments);
    Collections.FilterIsSubsequence(SegmentTest(range, filter), segments);
    Collections.Filter(SegmentTest(range, filter), segments)
  }

  /** `filteredStations`: stations inside the closed window, each with its
      multiplicity, in collection order. */
  function FilteredStations(stations: seq<ProjectStation>, range: StationRange): (r: seq<ProjectStation>)
    ensures forall st :: st in r <==> st in stations && range.lo <= st.station <= range.hi
    ensures forall st :: multiset(r)[st] == if range.lo <= st.station <= range.hi then multiset(stations)[st] else 0
    ensures Collections.IsSubsequence(r, stations)
  {
    Collections.FilterCounts(StationTest(range), stations);
    Collections.FilterIsSubsequence(StationTest(range), stations);
    Collections.Filter(StationTest(range), stations)
  }

  /** `filteredFunding`: releases overlapping the window whose status
      passes the filter, each with its multiplicity, in collection order. */
  function FilteredFunding(releases: seq<FundingRelease>, range: StationRange, filter: StatusFilter): (r: seq<FundingRelease>)
    ensures forall f :: f in r <==>
      && f in releases
      && f.startStation < range.hi && f.endStation > range.lo
      && (filter == AllStatuses || filter == OnlyStatus(f.status))
    ensures forall f :: multiset(r)[f] == if FundingInView(f, range, filter) then multiset(releases)[f] else 0
    ensures Collections.IsSubsequence(r, releases)
  {
    assert forall f :: FundingTest(range, filter)(f) == FundingInView(f, range, filter);
    assert forall f :: FundingInView(f, range, filter) <==>
      && f.startStation < range.hi && f.endStation > range.lo
      && (filter == AllStatuses || filter == OnlyStatus(f.status));
    Collections.FilterCounts(FundingTest(range, filter), releases);
    Collections.FilterIsSubsequence(FundingTest(range, filter), releases);
    Collections.Filter(FundingTest(range, filter), releases)
  }

  /** With the full window `[0, totalLength]` and both filters at `'all'`,
      every segment and release that overlaps the road's extent is kept. */
  lemma FullWindowKeepsEverything(segments: seq<RoadSegment>, releases: seq<FundingRelease>, totalLength: real)
    requires forall seg :: seg in segments ==> seg.startStation < totalLength && seg.endStation > 0.0
    requires forall f :: f in releases ==> f.startStation < totalLength && f.endStation > 0.0
    ensures FilteredSegments(segments, StationRange(0.0, totalLength), AllSurfaces) == segments
    ensures FilteredFunding(releases, StationRange(0.0, totalLength), AllStatuses) == releases
  {
    var range := StationRange(0.0, totalLength);
    Collections.FilterKeepsAll(SegmentTest(range, AllSurfaces), segments);
    Collections.FilterKeepsAll(FundingTest(range, AllStatuses), releases);
  }

  /** An inverted window (`lo > hi`, which the sliders allow) shows no
      station at all. */
  lemma InvertedWindowHidesStations(stations: seq<ProjectStation>, range: StationRange)
    requires range.lo > range.hi
    ensures FilteredStations(stations, range) == []
  {
  }

  // ---------------------------------------------------------------------
  // Layout and the station-to-pixel map
  // ---------------------------------------------------------------------

  const DefaultWidth: real := 1200.0
  const DefaultHeight: real := 600.0
  const MarginTop: real := 80.0
  const MarginRight: real := 100.0
  const MarginBottom: real := 80.0
  const MarginLeft: real := 100.0

  /** Vertical positions of the three tracks. */
  const FundingY: real := MarginTop + 50.0
  const RoadY: real := MarginTop + 150.0
  const StationY: real := MarginTop + 250.0

  /** `diagramWidth`: the drawable width between the side margins. */
  function DiagramWidth(width: real): (w: real)
    ensures MarginLeft + w + MarginRight == width
  {
    width - MarginLeft - MarginRight
  }

  /** `getX`: the affine map from kilometres to pixels, with
      `scale = diagramWidth / totalLength`; no clamping. The offset from
      the left margin is to the drawable width as the station is to the
      road's length. */
  function GetX(width: real, totalLength: real, station: real): (x: real)
    requires totalLength != 0.0
    ensures (x - MarginLeft) * totalLength == station * DiagramWidth(width)
  {
    var scale := DiagramWidth(width) / totalLength;
    assert scale * totalLength == DiagramWidth(width);
    MarginLeft + station * scale
  }

  /** Kilometre 0 lands on the left margin and the road's end on the right
      end of the drawable width, which is where the scale line ends. */
  lemma GetXEndpoints(width: real, totalLength: real)
    requires totalLength != 0.0
    ensures GetX(width, totalLength, 0.0) == MarginLeft
    ensures GetX(width, totalLength, totalLength) == MarginLeft + DiagramWidth(width)
  {
  }

  /** Differences of stations scale uniformly: the map is affine. */
  lemma GetXAffine(width: real, totalLength: real, a: real, b: real)
    requires totalLength != 0.0
    ensures GetX(width, totalLength, b) - GetX(width, totalLength, a)
         == (b - a) * DiagramWidth(width) / totalLength
  {
  }

  /** With a positive length and drawable width, a station further along
      the road is drawn strictly further right. */
  lemma GetXStrictlyIncreasing(width: real, totalLength: real, a: real, b: real)
    requires totalLength > 0.0 && DiagramWidth(width) > 0.0
    ensures a < b <==> GetX(width, totalLength, a) < GetX(width, totalLength, b)
  {
    var k := DiagramWidth(width) / totalLength;
    assert k > 0.0;
    GetXAffine(width, totalLength, a, b);
    assert GetX(width, totalLength, b) - GetX(width, totalLength, a) == (b - a) * k;
    if a < b {
      assert (b - a) * k > 0.0;
    } else {
      assert (a - b) * k >= 0.0;
    }
  }

  /** Label positions: the midpoint of two mapped stations is the mapped
      midpoint, so bar and segment labels sit over the middle of their
      station range. */
  lemma GetXMidpoint(width: real, totalLength: real, a: real, b: real)
    requires totalLength != 0.0
    ensures (GetX(width, totalLength, a) + GetX(width, totalLength, b)) / 2.0
         == GetX(width, totalLength, (a + b) / 2.0)
  {
  }

  // ---------------------------------------------------------------------
  // Colours and style
  // ---------------------------------------------------------------------

  const PavedAsphaltColor := "#2C3E50"
  const PavedOtherColor := "#34495E"
  const UnpavedGravelColor := "#95A5A6"
  const UnpavedOtherColor := "#BDC3C7"

  const CompletedColor := "#27AE60"
  const OngoingColor := "#F39C12"
  const PlannedColor := "#3498DB"

  /** `getSegmentColor`: four colours, one per paving class. */
  function SegmentColor(seg: RoadSegment): (c: string)
    ensures c == PavedAsphaltColor <==> seg.isPaved && seg.surfaceType == Asphalt
    ensures c == PavedOtherColor <==> seg.isPaved && seg.surfaceType != Asphalt
    ensures c == UnpavedGravelColor <==> !seg.isPaved && seg.surfaceType == Gravel
    ensures c == UnpavedOtherColor <==> !seg.isPaved && seg.surfaceType != Gravel
  {
    if seg.isPaved then
      (if seg.surfaceType == Asphalt then PavedAsphaltColor else PavedOtherColor)
    else
      (if seg.surfaceType == Gravel then UnpavedGravelColor else UnpavedOtherColor)
  }

  /** The colour alone tells paved from unpaved: no paved segment shares a
      colour with an unpaved one. */
  lemma SegmentColorRevealsPaving(a: RoadSegment, b: RoadSegment)
    requires SegmentColor(a) == SegmentColor(b)
    ensures a.isPaved == b.isPaved
  {
  }

  /** The dashed white overlay line is drawn exactly on unpaved segments,
      that is, on the segments drawn in one of the two grey colours. */
  function HasDashedOverlay(seg: RoadSegment): (b: bool)
    ensures b <==> SegmentColor(seg) == UnpavedGravelColor || SegmentColor(seg) == UnpavedOtherColor
  {
    !seg.isPaved
  }

  /** `getFundingColor`: one colour per status. */
  function FundingColor(status: Status): (c: string)
    ensures c == CompletedColor <==> status == Completed
    ensures c == OngoingColor <==> status == Ongoing
    ensures c == PlannedColor <==> status == Planned
  {
    match status
    case Completed => CompletedColor
    case Ongoing => OngoingColor
    case Planned => PlannedColor
  }

  /** Distinct statuses are drawn in distinct colours. */
  lemma FundingColorInjective(s: Status, t: Status)
    ensures FundingColor(s) == FundingColor(t) <==> s == t
  {
  }

  // ---------------------------------------------------------------------
  // Hover emphasis
  // ---------------------------------------------------------------------

  /** Segment line stroke: 16 when this segment is hovered, 12 otherwise. */
  function SegmentStrokeWidth(hovered: Option<string>, id: string): (w: int)
    ensures w == 12 || w == 16
    ensures w == 16 <==> hovered == Some(id)
  {
    if hovered == Some(id) then 16 else 12
  }

  /** Station marker radius: 10 when this station is hovered, 8 otherwise. */
  function StationRadius(hovered: Option<string>, id: string): (r: int)
    ensures r == 8 || r == 10
    ensures r == 10 <==> hovered == Some(id)
  {
    if hovered == Some(id) then 10 else 8
  }

  /** Funding bar opacity: opaque when this release is hovered, 0.7 otherwise. */
  function FundingOpacity(hovered: Option<string>, id: string): (o: real)
    ensures o == 0.7 || o == 1.0
    ensures o == 1.0 <==> hovered == Some(id)
  {
    if hovered == Some(id) then 1.0 else 0.7
  }

  /** One slot emphasises at most one identity: of two different ids, at
      least one is drawn plain on every layer. */
  lemma AtMostOneEmphasised(hovered: Option<string>, a: string, b: string)
    requires a != b
    ensures SegmentStrokeWidth(hovered, a) == 12 || SegmentStrokeWidth(hovered, b) == 12
    ensures StationRadius(hovered, a) == 8 || StationRadius(hovered, b) == 8
    ensures FundingOpacity(hovered, a) == 0.7 || FundingOpacity(hovered, b) == 0.7
  {
  }

  // ---------------------------------------------------------------------
  // Glyphs: what each in-view record becomes
  // ---------------------------------------------------------------------

  /** An axis-aligned rectangle. */
  datatype Rect = Rect(x: real, y: real, width: real, height: real)

  /** A road segment's line: its end points, stroke and overlay, and
      whether its tooltip is shown. */
  datatype SegmentLine = SegmentLine(x1: real, x2: real, y: real, color: string,
                                     strokeWidth: int, dashedOverlay: bool, labelX: real, tooltip: bool)

  /** A project station's marker circle, with whether its tooltip shows. */
  datatype StationMarker = StationMarker(x: real, cy: real, radius: int, tooltip: bool)

  /** A funding release's bar, with the year label's centre. */
  datatype FundingBar = FundingBar(bar: Rect, color: string, opacity: real, labelX: real, tooltip: bool)

  /** A segment's line: coloured by its paving, its label over its middle
      kilometre, widened exactly when its tooltip shows, and dashed exactly
      when it is unpaved. */
  function SegmentGlyph(width: real, totalLength: real, hovered: Option<string>, seg: RoadSegment): (g: SegmentLine)
    requires totalLength != 0.0
    ensures g.x1 == GetX(width, totalLength, seg.startStation) && g.x2 == GetX(width, totalLength, seg.endStation)
    ensures g.y == RoadY
    ensures g.color == SegmentColor(seg)
    ensures g.strokeWidth == SegmentStrokeWidth(hovered, seg.id)
    ensures g.labelX == GetX(width, totalLength, (seg.startStation + seg.endStation) / 2.0)
    ensures g.strokeWidth > 12 <==> g.tooltip
    ensures g.tooltip <==> hovered == Some(seg.id)
    ensures g.dashedOverlay <==> !seg.isPaved
  {
    GetXMidpoint(width, totalLength, seg.startStation, seg.endStation);
    var x1 := GetX(width, totalLength, seg.startStation);
    var x2 := GetX(width, totalLength, seg.endStation);
    SegmentLine(x1, x2, RoadY, SegmentColor(seg), SegmentStrokeWidth(hovered, seg.id),
                HasDashedOverlay(seg), (x1 + x2) / 2.0, hovered == Some(seg.id))
  }

  /** A station's marker: enlarged exactly when its tooltip shows, which
      is exactly when it is hovered. */
  function StationGlyph(width: real, totalLength: real, hovered: Option<string>, st: ProjectStation): (g: StationMarker)
    requires totalLength != 0.0
    ensures g.radius == StationRadius(hovered, st.id)
    ensures g.radius == 10 <==> g.tooltip
    ensures g.tooltip <==> hovered == Some(st.id)
    ensures g.x == GetX(width, totalLength, st.station)
  {
    StationMarker(GetX(width, totalLength, st.station), StationY - 30.0,
                  StationRadius(hovered, st.id), hovered == Some(st.id))
  }

  /** A release's bar: spanning the mapped stations, coloured by status,
      opaque exactly when its tooltip shows, with the year label over the
      middle kilometre. */
  function FundingGlyph(width: real, totalLength: real, hovered: Option<string>, f: FundingRelease): (g: FundingBar)
    requires totalLength != 0.0
    ensures g.bar.x == GetX(width, totalLength, f.startStation)
    ensures g.bar.x + g.bar.width == GetX(width, totalLength, f.endStation)
    ensures g.color == FundingColor(f.status)
    ensures g.opacity == FundingOpacity(hovered, f.id)
    ensures g.opacity == 1.0 <==> g.tooltip
    ensures g.tooltip <==> hovered == Some(f.id)
    ensures g.labelX == GetX(width, totalLength, (f.startStation + f.endStation) / 2.0)
  {
    GetXMidpoint(width, totalLength, f.startStation, f.endStation);
    var x1 := GetX(width, totalLength, f.startStation);
    var x2 := GetX(width, totalLength, f.endStation);
    FundingBar(Rect(x1, FundingY - 15.0, x2 - x1, 30.0), FundingColor(f.status),
               FundingOpacity(hovered, f.id), (x1 + x2) / 2.0, hovered == Some(f.id))
  }

  /** A segment's line runs left to right exactly when the segment is
      proper, with its label strictly between its ends. */
  lemma SegmentGlyphGeometry(width: real, totalLength: real, hovered: Option<string>, seg: RoadSegment)
    requires totalLength > 0.0 && DiagramWidth(width) > 0.0
    ensures var g := SegmentGlyph(width, totalLength, hovered, seg);
      && (g.x1 < g.x2 <==> seg.startStation < seg.endStation)
      && (g.x1 < g.x2 ==> g.x1 < g.labelX < g.x2)
  {
    GetXStrictlyIncreasing(width, totalLength, seg.startStation, seg.endStation);
  }

  /** A station on the road gets a marker on the ruler's span. */
  lemma StationGlyphGeometry(width: real, totalLength: real, hovered: Option<string>, st: ProjectStation)
    requires totalLength > 0.0 && DiagramWidth(width) > 0.0
    ensures var g := StationGlyph(width, totalLength, hovered, st);
      0.0 <= st.station <= totalLength ==> MarginLeft <= g.x <= MarginLeft + DiagramWidth(width)
  {
    GetXEndpoints(width, totalLength);
    GetXStrictlyIncreasing(width, totalLength, 0.0, st.station);
    GetXStrictlyIncreasing(width, totalLength, st.station, totalLength);
  }

  /** A funding bar has positive width exactly when the release's range is
      proper, with its year label strictly inside the bar. */
  lemma FundingGlyphGeometry(width: real, totalLength: real, hovered: Option<string>, f: FundingRelease)
    requires totalLength > 0.0 && DiagramWidth(width) > 0.0
    ensures var g := FundingGlyph(width, totalLength, hovered, f);
      && (g.bar.width > 0.0 <==> f.startStation < f.endStation)
      && (g.bar.width > 0.0 ==> g.bar.x < g.labelX < g.bar.x + g.bar.width)
  {
    GetXStrictlyIncreasing(width, totalLength, f.startStation, f.endStation);
  }

  // ---------------------------------------------------------------------
  // The filtered-range overlay
  // ---------------------------------------------------------------------

  /** The highlighted window rectangle, drawn only when the window is not
      the whole road, with its label centred above it. */
  datatype RangeIndicator = RangeIndicator(box: Rect, labelX: real)

  function RangeOverlay(width: real, height: real, totalLength: real, range: StationRange): (r: Option<RangeIndicator>)
    requires totalLength != 0.0
    ensures r.Some? <==> range.lo > 0.0 || range.hi < totalLength
    ensures r.Some? ==>
      && r.value.box.x == GetX(width, totalLength, range.lo)
      && r.value.box.x + r.value.box.width == GetX(width, totalLength, range.hi)
      && r.value.box.height == height - MarginTop - MarginBottom + 20.0
      && r.value.labelX == GetX(width, totalLength, (range.lo + range.hi) / 2.0)
  {
    if range.lo > 0.0 || range.hi < totalLength then
      var x1 := GetX(width, totalLength, range.lo);
      var x2 := GetX(width, totalLength, range.hi);
      GetXMidpoint(width, totalLength, range.lo, range.hi);
      Some(RangeIndicator(Rect(x1, MarginTop - 10.0, x2 - x1, height - MarginTop - MarginBottom + 20.0), (x1 + x2) / 2.0))
    else
      None
  }

  /** A proper window inside the road is highlighted by a box lying within
      the drawable width, with non-negative width. */
  lemma RangeOverlayWithinDiagram(width: real, height: real, totalLength: real, range: StationRange)
    requires totalLength > 0.0 && DiagramWidth(width) > 0.0
    requires 0.0 <= range.lo <= range.hi <= totalLength
    requires range.lo > 0.0 || range.hi < totalLength
    ensures var box := RangeOverlay(width, height, totalLength, range).value.box;
      MarginLeft <= box.x && 0.0 <= box.width && box.x + box.width <= MarginLeft + DiagramWidth(width)
  {
    GetXEndpoints(width, totalLength);
    if 0.0 < range.lo {
      GetXStrictlyIncreasing(width, totalLength, 0.0, range.lo);
    }
    if range.lo < range.hi {
      GetXStrictlyIncreasing(width, totalLength, range.lo, range.hi);
    }
    if range.hi < totalLength {
      GetXStrictlyIncreasing(width, totalLength, range.hi, totalLength);
    }
  }

  /** An inverted window is still "filtered", and its box gets a negative
      width: nothing in the component rejects it. */
  lemma InvertedRangeOverlayHasNegativeWidth(width: real, height: real, totalLength: real, range: StationRange)
    requires totalLength > 0.0 && DiagramWidth(width) > 0.0
    requires range.lo > range.hi
    ensures RangeOverlay(width, height, totalLength, range).Some?
    ensures RangeOverlay(width, height, totalLength, range).value.box.width < 0.0
  {
    GetXStrictlyIncreasing(width, totalLength, range.hi, range.lo);
  }

  // ---------------------------------------------------------------------
  // Scale ticks
  // ---------------------------------------------------------------------

  /** `Math.floor(totalLength / 10) + 1`, clamped at 0 as an array length. */
  function TickCount(totalLength: real): (n: nat)
    ensures n == 0 <==> totalLength < 0.0
    ensures n > 0 ==> (10 * (n - 1)) as real <= totalLength < (10 * n) as real
  {
    var k := (totalLength / 10.0).Floor + 1;
    if k < 0 then 0 else k
  }

  /** The kilometre marks `0, 10, 20, ...` along the ruler. */
  function ScaleTicks(totalLength: real): (ticks: seq<int>)
    ensures ticks != [] ==> ticks[0] == 0
    ensures forall i :: 0 < i < |ticks| ==> ticks[i] == ticks[i - 1] + 10
    ensures forall i :: 0 <= i < |ticks| ==> ticks[i] as real <= totalLength
  {
    var n := TickCount(totalLength);
    var ticks := seq(n, i => 10 * i);
    assert forall i :: 0 <= i < n ==> (10 * i) as real <= (10 * (n - 1)) as real;
    ticks
  }

  /** The ticks are increasing, and are exactly the non-negative multiples
      of 10 that do not exceed the road's length. */
  lemma {:induction false} ScaleTicksExact(totalLength: real)
    ensures var ticks := ScaleTicks(totalLength);
      forall i, j :: 0 <= i < j < |ticks| ==> ticks[i] < ticks[j]
    ensures forall k :: k in ScaleTicks(totalLength) <==> 0 <= k && k % 10 == 0 && k as real <= totalLength
  {
    var ticks := ScaleTicks(totalLength);
    var n := TickCount(totalLength);
    var fl := (totalLength / 10.0).Floor;
    forall k | k in ticks ensures 0 <= k && k % 10 == 0 && k as real <= totalLength {
      var i :| 0 <= i < n && ticks[i] == k;
      assert i <= fl;
      assert (i as real) <= totalLength / 10.0;
    }
    forall k | 0 <= k && k % 10 == 0 && k as real <= totalLength ensures k in ticks {
      var j := k / 10;
      assert k == 10 * j;
      assert (j as real) <= totalLength / 10.0;
      assert j <= fl;
      assert ticks[j] == k;
    }
  }

  /** With a positive length there are `floor(totalLength / 10) + 1` ticks,
      and every tick is drawn on the ruler line from the left margin to
      `MarginLeft + diagramWidth`. */
  lemma TicksOnScaleLine(width: real, totalLength: real)
    requires totalLength > 0.0 && DiagramWidth(width) >= 0.0
    ensures |ScaleTicks(totalLength)| == (totalLength / 10.0).Floor + 1
    ensures forall k :: k in ScaleTicks(totalLength) ==>
      MarginLeft <= GetX(width, totalLength, k as real) <= MarginLeft + DiagramWidth(width)
  {
    ScaleTicksExact(totalLength);
    var q := DiagramWidth(width) / totalLength;
    assert q >= 0.0;
    forall k | k in ScaleTicks(totalLength)
      ensures MarginLeft <= GetX(width, totalLength, k as real) <= MarginLeft + DiagramWidth(width)
    {
      var s := k as real;
      assert 0.0 <= s <= totalLength;
      assert s * q >= 0.0;
      assert (totalLength - s) * q >= 0.0;
      assert totalLength * q == DiagramWidth(width);
    }
  }

  // ---------------------------------------------------------------------
  // Hover state
  // ---------------------------------------------------------------------

  /** The three independent hover slots `hoveredSegment`,
      `hoveredStation` and `hoveredFunding`, each `null` or an id. */
  class Hover {
    var segment: Option<string>
    var station: Option<string>
    var funding: Option<string>

    constructor ()
      ensures segment == None && station == None && funding == None
    {
      segment, station, funding := None, None, None;
    }

    /** Mouse enters segment `id`'s line. */
    method EnterSegment(id: string)
      modifies this
      ensures segment == Some(id)
      ensures station == old(station) && funding == old(funding)
    {
      segment := Some(id);
    }

    /** Mouse leaves segment `id`'s line: the slot is cleared whatever it
        held, even when another segment is hovered. */
    method LeaveSegment(id: string)
      modifies this
      ensures segment == None
      ensures station == old(station) && funding == old(funding)
    {
      segment := None;
    }

    /** Mouse enters station `id`'s marker. */
    method EnterStation(id: string)
      modifies this
      ensures station == Some(id)
      ensures segment == old(segment) && funding == old(funding)
    {
      station := Some(id);
    }

    /** Mouse leaves station `id`'s marker: unconditional clear. */
    method LeaveStation(id: string)
      modifies this
      ensures station == None
      ensures segment == old(segment) && funding == old(funding)
    {
      station := None;
    }

    /** Mouse enters release `id`'s bar. */
    method EnterFunding(id: string)
      modifies this
      ensures funding == Some(id)
      ensures segment == old(segment) && station == old(station)
    {
      funding := Some(id);
    }

    /** Mouse leaves release `id`'s bar: unconditional clear. */
    method LeaveFunding(id: string)
      modifies this
      ensures funding == None
      ensures segment == old(segment) && station == old(station)
    {
      funding := None;
    }
  }

  /** The handlers run in the order: enter `a`, enter `b`, leave `a`. Since
      the leave clears the slot whatever it holds, the slot ends empty and
      `b` is drawn without emphasis. The station slot is untouched. */
  method LateLeaveClearsHover(a: string, b: string, st: string) returns (seg: Option<string>, station: Option<string>)
    ensures seg == None
    ensures station == Some(st)
    ensures SegmentStrokeWidth(seg, b) == 12
  {
    var h := new Hover();
    h.EnterStation(st);
    h.EnterSegment(a);
    h.EnterSegment(b);
    h.LeaveSegment(a);
    seg, station := h.segment, h.station;
  }
}
