/** The inventory page's state (app/page.tsx): the data snapshot, the
    station range, the two category filters and the edit mode, changed by
    the page's handlers; and the summary it shows. */
module Page {
  import opened Wrappers
  import opened Road
  import opened Diagram
  import Collections
  import PageEdits

  /** Which table is being edited: `'segments' | 'stations' | 'funding'`. */
  datatype EditMode = SegmentsMode | StationsMode | FundingMode

  /** The Edit / Exit Edit button of a table: switches editing of that
      table off when it is on, and on (replacing any other table) otherwise. */
  function ToggledEditMode(current: Option<EditMode>, m: EditMode): (r: Option<EditMode>)
    ensures r == Some(m) <==> current != Some(m)
    ensures r != Some(m) ==> r == None
  {
    if current == Some(m) then None else Some(m)
  }

  /** Pressing one table's button twice restores the mode, unless another
      table was being edited before: then editing ends altogether. */
  lemma ToggleTwice(current: Option<EditMode>, m: EditMode)
    ensures current == None || current == Some(m) ==> ToggledEditMode(ToggledEditMode(current, m), m) == current
    ensures current != None && current != Some(m) ==> ToggledEditMode(ToggledEditMode(current, m), m) == None
  {
  }

  /** The window `[0, totalLength]` the page starts with and resets to:
      it admits exactly the stations on the road, and on a road of non-zero
      length no range overlay is drawn for it. */
  function FullRange(data: RoadInventory): (r: StationRange)
    ensures forall st: ProjectStation :: StationInView(st, r) <==> 0.0 <= st.station <= data.totalLength
    ensures data.totalLength != 0.0 ==>
      forall width, height :: RangeOverlay(width, height, data.totalLength, r) == None
  {
    StationRange(0.0, data.totalLength)
  }

  /** "Paved Sections": `segments.filter(s => s.isPaved).length`. */
  function PavedCount(segments: seq<RoadSegment>): (n: nat)
    ensures n <= |segments|
    ensures n == 0 <==> forall s :: s in segments ==> !s.isPaved
  {
    var paved := Collections.Filter((s: RoadSegment) => s.isPaved, segments);
    assert paved != [] ==> paved[0] in paved;
    |paved|
  }

  /** Counting paved sections is additive over concatenation. */
  lemma PavedCountAppend(a: seq<RoadSegment>, b: seq<RoadSegment>)
    ensures PavedCount(a + b) == PavedCount(a) + PavedCount(b)
  {
    Collections.FilterAppend((s: RoadSegment) => s.isPaved, a, b);
  }

  /** `addSegment` adds an unpaved section, so the paved count stays put;
      deleting a segment never raises it. */
  lemma EditsAndPavedCount(inv: RoadInventory, newId: string, id: string)
    ensures PavedCount(PageEdits.AddSegment(inv, newId).segments) == PavedCount(inv.segments)
    ensures PavedCount(PageEdits.DeleteSegment(inv, id).segments) <= PavedCount(inv.segments)
  {
    var r := PageEdits.AddSegment(inv, newId);
    var added := r.segments[|inv.segments|];
    assert r.segments == inv.segments + [added];
    PavedCountAppend(inv.segments, [added]);
    assert Collections.Filter((s: RoadSegment) => s.isPaved, [added]) == [];
    var d := PageEdits.DeleteSegment(inv, id).segments;
    var p := (s: RoadSegment) => s.isPaved;
    var q := (s: RoadSegment) => s.id != id;
    assert d == Collections.Filter(q, inv.segments);
    Collections.FilterAfterFilterNoLonger(p, q, inv.segments);
  }

  /** After a reset the overlay is hidden, every station on the road is
      shown, and so is every segment and release overlapping the road. */
  lemma ResetShowsWholeRoad(data: RoadInventory, width: real, height: real)
    requires data.totalLength != 0.0
    requires forall seg :: seg in data.segments ==> seg.startStation < data.totalLength && seg.endStation > 0.0
    requires forall f :: f in data.fundingReleases ==> f.startStation < data.totalLength && f.endStation > 0.0
    ensures RangeOverlay(width, height, data.totalLength, FullRange(data)) == None
    ensures FilteredSegments(data.segments, FullRange(data), AllSurfaces) == data.segments
    ensures FilteredFunding(data.fundingReleases, FullRange(data), AllStatuses) == data.fundingReleases
    ensures forall st :: st in data.projectStations && 0.0 <= st.station <= data.totalLength ==>
      st in FilteredStations(data.projectStations, FullRange(data))
  {
    FullWindowKeepsEverything(data.segments, data.fundingReleases, data.totalLength);
  }

  /** Right after `addStation` and a reset, the new station is on screen. */
  lemma AddedStationShownAfterReset(inv: RoadInventory, newId: string)
    requires inv.totalLength >= 0.0
    ensures var r := PageEdits.AddStation(inv, newId);
      r.projectStations[|inv.projectStations|] in FilteredStations(r.projectStations, FullRange(r))
  {
    PageEdits.AddedStationOnRoad(inv, newId);
    var r := PageEdits.AddStation(inv, newId);
    assert r.projectStations[|inv.projectStations|] in r.projectStations;
  }

  /** Right after `addFunding` and a reset, the new release is on screen
      exactly when the road has positive length. */
  lemma AddedFundingShownAfterReset(inv: RoadInventory, newId: string, year: int)
    ensures var r := PageEdits.AddFunding(inv, newId, year);
      r.fundingReleases[|inv.fundingReleases|] in FilteredFunding(r.fundingReleases, FullRange(r), AllStatuses)
      <==> inv.totalLength > 0.0
  {
    var r := PageEdits.AddFunding(inv, newId, year);
    assert r.fundingReleases[|inv.fundingReleases|] in r.fundingReleases;
  }

  /** The `Home` page component's state slots. */
  class Home {
    var data: RoadInventory
    var stationRange: StationRange
    var surfaceTypeFilter: SurfaceFilter
    var fundingStatusFilter: StatusFilter
    var editMode: Option<EditMode>

    /** The controls: range, filters and edit mode. */
    twostate predicate ControlsUnchanged()
      reads this
    {
      && stationRange == old(stationRange)
      && surfaceTypeFilter == old(surfaceTypeFilter)
      && fundingStatusFilter == old(fundingStatusFilter)
      && editMode == old(editMode)
    }

    /** Initial state: the given inventory, the whole road in view, no
        filters, no table in edit mode. */
    constructor (initial: RoadInventory)
      ensures data == initial && stationRange == FullRange(initial)
      ensures surfaceTypeFilter == AllSurfaces && fundingStatusFilter == AllStatuses
      ensures editMode == None
    {
      data := initial;
      stationRange := FullRange(initial);
      surfaceTypeFilter := AllSurfaces;
      fundingStatusFilter := AllStatuses;
      editMode := None;
    }

    method UpdateSegment(id: string, u: PageEdits.SegmentUpdate)
      modifies this
      ensures data == PageEdits.UpdateSegment(old(data), id, u) && ControlsUnchanged()
    {
      data := PageEdits.UpdateSegment(data, id, u);
    }

    method DeleteSegment(id: string)
      modifies this
      ensures data == PageEdits.DeleteSegment(old(data), id) && ControlsUnchanged()
    {
      data := PageEdits.DeleteSegment(data, id);
    }

    /** `newId` stands for the generated `seg<timestamp>`. */
    method AddSegment(newId: string)
      modifies this
      ensures data == PageEdits.AddSegment(old(data), newId) && ControlsUnchanged()
    {
      data := PageEdits.AddSegment(data, newId);
    }

    method UpdateStation(id: string, u: PageEdits.StationUpdate)
      modifies this
      ensures data == PageEdits.UpdateStation(old(data), id, u) && ControlsUnchanged()
    {
      data := PageEdits.UpdateStation(data, id, u);
    }

    method DeleteStation(id: string)
      modifies this
      ensures data == PageEdits.DeleteStation(old(data), id) && ControlsUnchanged()
    {
      data := PageEdits.DeleteStation(data, id);
    }

    /** `newId` stands for the generated `ps<timestamp>`. */
    method AddStation(newId: string)
      modifies this
      ensures data == PageEdits.AddStation(old(data), newId) && ControlsUnchanged()
    {
      data := PageEdits.AddStation(data, newId);
    }

    method UpdateFunding(id: string, u: PageEdits.FundingUpdate)
      modifies this
      ensures data == PageEdits.UpdateFunding(old(data), id, u) && ControlsUnchanged()
    {
      data := PageEdits.UpdateFunding(data, id, u);
    }

    method DeleteFunding(id: string)
      modifies this
      ensures data == PageEdits.DeleteFunding(old(data), id) && ControlsUnchanged()
    {
      data := PageEdits.DeleteFunding(data, id);
    }

    /** `newId` and `year` stand for the generated `fr<timestamp>` and the
        clock's current year. */
    method AddFunding(newId: string, year: int)
      modifies this
      ensures data == PageEdits.AddFunding(old(data), newId, year) && ControlsUnchanged()
    {
      data := PageEdits.AddFunding(data, newId, year);
    }

    /** The lower slider: moves the start of the window only, with no check
        against its end. */
    method SetRangeStart(lo: real)
      modifies this
      ensures stationRange == StationRange(lo, old(stationRange.hi))
      ensures data == old(data) && surfaceTypeFilter == old(surfaceTypeFilter)
      ensures fundingStatusFilter == old(fundingStatusFilter) && editMode == old(editMode)
    {
      stationRange := StationRange(lo, stationRange.hi);
    }

    /** The upper slider: moves the end of the window only. */
    method SetRangeEnd(hi: real)
      modifies this
      ensures stationRange == StationRange(old(stationRange.lo), hi)
      ensures data == old(data) && surfaceTypeFilter == old(surfaceTypeFilter)
      ensures fundingStatusFilter == old(fundingStatusFilter) && editMode == old(editMode)
    {
      stationRange := StationRange(stationRange.lo, hi);
    }

    method SetSurfaceTypeFilter(f: SurfaceFilter)
      modifies this
      ensures surfaceTypeFilter == f
      ensures data == old(data) && stationRange == old(stationRange)
      ensures fundingStatusFilter == old(fundingStatusFilter) && editMode == old(editMode)
    {
      surfaceTypeFilter := f;
    }

    method SetFundingStatusFilter(f: StatusFilter)
      modifies this
      ensures fundingStatusFilter == f
      ensures data == old(data) && stationRange == old(stationRange)
      ensures surfaceTypeFilter == old(surfaceTypeFilter) && editMode == old(editMode)
    {
      fundingStatusFilter := f;
    }

    /** "Reset All Filters": whole road, both filters back to `'all'`;
        afterwards no range overlay is drawn. */
    method ResetFilters()
      modifies this
      ensures stationRange == FullRange(data)
      ensures surfaceTypeFilter == AllSurfaces && fundingStatusFilter == AllStatuses
      ensures data == old(data) && editMode == old(editMode)
      ensures data.totalLength != 0.0 ==> RangeOverlay(DefaultWidth, DefaultHeight, data.totalLength, stationRange) == None
    {
      stationRange := FullRange(data);
      surfaceTypeFilter := AllSurfaces;
      fundingStatusFilter := AllStatuses;
    }

    /** A table's Edit / Exit Edit button. */
    method ToggleEditMode(m: EditMode)
      modifies this
      ensures editMode == ToggledEditMode(old(editMode), m)
      ensures data == old(data) && stationRange == old(stationRange)
      ensures surfaceTypeFilter == old(surfaceTypeFilter) && fundingStatusFilter == old(fundingStatusFilter)
    {
      editMode := ToggledEditMode(editMode, m);
    }
  }
}
