/** The edit handlers of the inventory page (app/page.tsx): each computes
    the next `RoadInventoryData` snapshot from the previous one by `map`,
    `filter` or spread over a single collection. */
module PageEdits {
  import opened Wrappers
  import opened Road
  import Collections

  // ---------------------------------------------------------------------
  // Partial updates: `Partial<T>` and the spread `{ ...x, ...updates }`
  // ---------------------------------------------------------------------

  /** `Partial<RoadSegment>`: every field optional, the id included. */
  datatype SegmentUpdate = SegmentUpdate(
    id: Option<string>,
    name: Option<string>,
    startStation: Option<real>,
    endStation: Option<real>,
    isPaved: Option<bool>,
    surfaceType: Option<SurfaceType>)

  /** `Partial<ProjectStation>`. */
  datatype StationUpdate = StationUpdate(
    id: Option<string>,
    station: Option<real>,
    name: Option<string>,
    description: Option<string>,
    proposedWork: Option<string>)

  /** `Partial<FundingRelease>`. */
  datatype FundingUpdate = FundingUpdate(
    id: Option<string>,
    startStation: Option<real>,
    endStation: Option<real>,
    year: Option<int>,
    amount: Option<int>,
    status: Option<Status>,
    description: Option<string>)

  /** The spread rule for one field: a supplied value wins, an omitted
      one keeps the record's own. */
  predicate Spread<T(==)>(u: Option<T>, before: T, after: T)
  {
    match u
    case Some(v) => after == v
    case None => after == before
  }

  /** `{ ...seg, ...updates }`. */
  function PatchSegment(seg: RoadSegment, u: SegmentUpdate): (r: RoadSegment)
    ensures Spread(u.id, seg.id, r.id) && Spread(u.name, seg.name, r.name)
    ensures Spread(u.startStation, seg.startStation, r.startStation) && Spread(u.endStation, seg.endStation, r.endStation)
    ensures Spread(u.isPaved, seg.isPaved, r.isPaved) && Spread(u.surfaceType, seg.surfaceType, r.surfaceType)
  {
    RoadSegment(u.id.GetOr(seg.id), u.name.GetOr(seg.name), u.startStation.GetOr(seg.startStation),
                u.endStation.GetOr(seg.endStation), u.isPaved.GetOr(seg.isPaved), u.surfaceType.GetOr(seg.surfaceType))
  }

  /** `{ ...st, ...updates }`. */
  function PatchStation(st: ProjectStation, u: StationUpdate): (r: ProjectStation)
    ensures Spread(u.id, st.id, r.id) && Spread(u.station, st.station, r.station) && Spread(u.name, st.name, r.name)
    ensures Spread(u.description, st.description, r.description) && Spread(u.proposedWork, st.proposedWork, r.proposedWork)
  {
    ProjectStation(u.id.GetOr(st.id), u.station.GetOr(st.station), u.name.GetOr(st.name),
                   u.description.GetOr(st.description), u.proposedWork.GetOr(st.proposedWork))
  }

  /** `{ ...f, ...updates }`. */
  function PatchFunding(f: FundingRelease, u: FundingUpdate): (r: FundingRelease)
    ensures Spread(u.id, f.id, r.id) && Spread(u.startStation, f.startStation, r.startStation)
    ensures Spread(u.endStation, f.endStation, r.endStation) && Spread(u.year, f.year, r.year)
    ensures Spread(u.amount, f.amount, r.amount) && Spread(u.status, f.status, r.status)
    ensures Spread(u.description, f.description, r.description)
  {
    FundingRelease(u.id.GetOr(f.id), u.startStation.GetOr(f.startStation), u.endStation.GetOr(f.endStation),
                   u.year.GetOr(f.year), u.amount.GetOr(f.amount), u.status.GetOr(f.status),
                   u.description.GetOr(f.description))
  }

  /** A spread overwrites exactly the supplied fields: an empty update is
      the identity, and spreading the same update twice is spreading it
      once. */
  lemma PatchLaws(seg: RoadSegment, su: SegmentUpdate, st: ProjectStation, pu: StationUpdate,
                  f: FundingRelease, fu: FundingUpdate)
    ensures PatchSegment(seg, SegmentUpdate(None, None, None, None, None, None)) == seg
    ensures PatchStation(st, StationUpdate(None, None, None, None, None)) == st
    ensures PatchFunding(f, FundingUpdate(None, None, None, None, None, None, None)) == f
    ensures PatchSegment(PatchSegment(seg, su), su) == PatchSegment(seg, su)
    ensures PatchStation(PatchStation(st, pu), pu) == PatchStation(st, pu)
    ensures PatchFunding(PatchFunding(f, fu), fu) == PatchFunding(f, fu)
  {
  }

  // ---------------------------------------------------------------------
  // Segments
  // ---------------------------------------------------------------------

  /** `updateSegment(id, updates)`: every segment with that id is patched;
      length, order, every other element and every other part of the
      inventory stay as they were. */
  function UpdateSegment(inv: RoadInventory, id: string, u: SegmentUpdate): (r: RoadInventory)
    ensures r.roadName == inv.roadName && r.totalLength == inv.totalLength
    ensures r.projectStations == inv.projectStations && r.fundingReleases == inv.fundingReleases
    ensures |r.segments| == |inv.segments|
    ensures forall i :: 0 <= i < |inv.segments| && inv.segments[i].id != id ==> r.segments[i] == inv.segments[i]
    ensures forall i :: 0 <= i < |inv.segments| && inv.segments[i].id == id ==> r.segments[i] == PatchSegment(inv.segments[i], u)
  {
    var segs := inv.segments;
    inv.(segments := seq(|segs|, i requires 0 <= i < |segs| => if segs[i].id == id then PatchSegment(segs[i], u) else segs[i]))
  }

  /** `deleteSegment(id)`: exactly the segments with another id remain,
      in their original order; nothing else changes. */
  function DeleteSegment(inv: RoadInventory, id: string): (r: RoadInventory)
    ensures r.roadName == inv.roadName && r.totalLength == inv.totalLength
    ensures r.projectStations == inv.projectStations && r.fundingReleases == inv.fundingReleases
    ensures forall seg :: seg in r.segments <==> seg in inv.segments && seg.id != id
    ensures Collections.IsSubsequence(r.segments, inv.segments)
  {
    Collections.FilterIsSubsequence((seg: RoadSegment) => seg.id != id, inv.segments);
    inv.(segments := Collections.Filter((seg: RoadSegment) => seg.id != id, inv.segments))
  }

  /** Where a new segment starts: kilometre 0 on an empty road, otherwise
      the last segment's end, which is the one point at which an appended
      section continues a contiguous list. */
  function NextSegmentStart(segments: seq<RoadSegment>): (start: real)
    ensures segments == [] ==> start == 0.0
    ensures segments != [] ==> start == segments[|segments| - 1].endStation
    ensures forall x: RoadSegment :: Contiguous(segments + [x]) <==> Contiguous(segments) && (segments == [] || x.startStation == start)
  {
    var start := if |segments| > 0 then segments[|segments| - 1].endStation else 0.0;
    assert forall x: RoadSegment :: Contiguous(segments + [x]) <==> Contiguous(segments) && (segments == [] || x.startStation == start) by {
      forall x: RoadSegment
        ensures Contiguous(segments + [x]) <==> Contiguous(segments) && (segments == [] || x.startStation == start)
      {
        var s := segments + [x];
        var n := |segments|;
        if Contiguous(s) {
          forall i | 0 < i < n ensures segments[i].startStation == segments[i - 1].endStation {
            assert s[i] == segments[i] && s[i - 1] == segments[i - 1];
          }
          if n > 0 {
            assert s[n] == x && s[n - 1] == segments[n - 1];
          }
        }
        if Contiguous(segments) && (segments == [] || x.startStation == start) {
          forall i | 0 < i < |s| ensures s[i].startStation == s[i - 1].endStation {
            if i < n {
              assert s[i] == segments[i] && s[i - 1] == segments[i - 1];
            } else {
              assert s[i] == x && s[i - 1] == segments[n - 1];
            }
          }
        }
      }
    }
    start
  }

  /** `addSegment()`: appends one unpaved 5 km section after the last
      segment; `newId` stands for the generated `seg<timestamp>`. */
  function AddSegment(inv: RoadInventory, newId: string): (r: RoadInventory)
    ensures r.roadName == inv.roadName && r.totalLength == inv.totalLength
    ensures r.projectStations == inv.projectStations && r.fundingReleases == inv.fundingReleases
    ensures |r.segments| == |inv.segments| + 1 && r.segments[..|inv.segments|] == inv.segments
    ensures var s := r.segments[|inv.segments|];
      && s.id == newId && s.name == "New Section"
      && s.startStation == NextSegmentStart(inv.segments)
      && s.endStation == s.startStation + 5.0
      && !s.isPaved && s.surfaceType == Unpaved
  {
    var start := NextSegmentStart(inv.segments);
    inv.(segments := inv.segments + [RoadSegment(newId, "New Section", start, start + 5.0, false, Unpaved)])
  }

  // ---------------------------------------------------------------------
  // Project stations
  // ---------------------------------------------------------------------

  /** `updateStation(id, updates)`. */
  function UpdateStation(inv: RoadInventory, id: string, u: StationUpdate): (r: RoadInventory)
    ensures r.roadName == inv.roadName && r.totalLength == inv.totalLength
    ensures r.segments == inv.segments && r.fundingReleases == inv.fundingReleases
    ensures |r.projectStations| == |inv.projectStations|
    ensures forall i :: 0 <= i < |inv.projectStations| && inv.projectStations[i].id != id ==>
      r.projectStations[i] == inv.projectStations[i]
    ensures forall i :: 0 <= i < |inv.projectStations| && inv.projectStations[i].id == id ==>
      r.projectStations[i] == PatchStation(inv.projectStations[i], u)
  {
    var sts := inv.projectStations;
    inv.(projectStations := seq(|sts|, i requires 0 <= i < |sts| => if sts[i].id == id then PatchStation(sts[i], u) else sts[i]))
  }

  /** `deleteStation(id)`. */
  function DeleteStation(inv: RoadInventory, id: string): (r: RoadInventory)
    ensures r.roadName == inv.roadName && r.totalLength == inv.totalLength
    ensures r.segments == inv.segments && r.fundingReleases == inv.fundingReleases
    ensures forall st :: st in r.projectStations <==> st in inv.projectStations && st.id != id
    ensures Collections.IsSubsequence(r.projectStations, inv.projectStations)
  {
    Collections.FilterIsSubsequence((st: ProjectStation) => st.id != id, inv.projectStations);
    inv.(projectStations := Collections.Filter((st: ProjectStation) => st.id != id, inv.projectStations))
  }

  /** `Math.round`: the integer nearest to `x`, halves rounded up. */
  function JsRound(x: real): (n: int)
    ensures x - 0.5 < n as real <= x + 0.5
  {
    (x + 0.5).Floor
  }

  /** `addStation()`: appends a station at the rounded midpoint of the road. */
  function AddStation(inv: RoadInventory, newId: string): (r: RoadInventory)
    ensures r.roadName == inv.roadName && r.totalLength == inv.totalLength
    ensures r.segments == inv.segments && r.fundingReleases == inv.fundingReleases
    ensures |r.projectStations| == |inv.projectStations| + 1
    ensures r.projectStations[..|inv.projectStations|] == inv.projectStations
    ensures var st := r.projectStations[|inv.projectStations|];
      && st.id == newId
      && st.station == JsRound(inv.totalLength / 2.0) as real
      && st.name == "New Station" && st.description == "New project station"
      && st.proposedWork == "Work description"
  {
    var st := ProjectStation(newId, JsRound(inv.totalLength / 2.0) as real, "New Station",
                             "New project station", "Work description");
    inv.(projectStations := inv.projectStations + [st])
  }

  // ---------------------------------------------------------------------
  // Funding releases
  // ---------------------------------------------------------------------

  /** `updateFunding(id, updates)`. */
  function UpdateFunding(inv: RoadInventory, id: string, u: FundingUpdate): (r: RoadInventory)
    ensures r.roadName == inv.roadName && r.totalLength == inv.totalLength
    ensures r.segments == inv.segments && r.projectStations == inv.projectStations
    ensures |r.fundingReleases| == |inv.fundingReleases|
    ensures forall i :: 0 <= i < |inv.fundingReleases| && inv.fundingReleases[i].id != id ==>
      r.fundingReleases[i] == inv.fundingReleases[i]
    ensures forall i :: 0 <= i < |inv.fundingReleases| && inv.fundingReleases[i].id == id ==>
      r.fundingReleases[i] == PatchFunding(inv.fundingReleases[i], u)
  {
    var frs := inv.fundingReleases;
    inv.(fundingReleases := seq(|frs|, i requires 0 <= i < |frs| => if frs[i].id == id then PatchFunding(frs[i], u) else frs[i]))
  }

  /** `deleteFunding(id)`. */
  function DeleteFunding(inv: RoadInventory, id: string): (r: RoadInventory)
    ensures r.roadName == inv.roadName && r.totalLength == inv.totalLength
    ensures r.segments == inv.segments && r.projectStations == inv.projectStations
    ensures forall f :: f in r.fundingReleases <==> f in inv.fundingReleases && f.id != id
    ensures Collections.IsSubsequence(r.fundingReleases, inv.fundingReleases)
  {
    Collections.FilterIsSubsequence((f: FundingRelease) => f.id != id, inv.fundingReleases);
    inv.(fundingReleases := Collections.Filter((f: FundingRelease) => f.id != id, inv.fundingReleases))
  }

  const NewFundingAmount := 10000000

  /** `addFunding()`: appends a planned 10-million release over km 0-10;
      `year` stands for the current year read from the clock. */
  function AddFunding(inv: RoadInventory, newId: string, year: int): (r: RoadInventory)
    ensures r.roadName == inv.roadName && r.totalLength == inv.totalLength
    ensures r.segments == inv.segments && r.projectStations == inv.projectStations
    ensures |r.fundingReleases| == |inv.fundingReleases| + 1
    ensures r.fundingReleases[..|inv.fundingReleases|] == inv.fundingReleases
    ensures var f := r.fundingReleases[|inv.fundingReleases|];
      && f.id == newId && f.startStation == 0.0 && f.endStation == 10.0
      && f.year == year && f.amount == NewFundingAmount && f.status == Planned
      && f.description == "New funding release"
  {
    var f := FundingRelease(newId, 0.0, 10.0, year, NewFundingAmount, Planned, "New funding release");
    inv.(fundingReleases := inv.fundingReleases + [f])
  }

  // ---------------------------------------------------------------------
  // Properties of the edits
  // ---------------------------------------------------------------------

  /** An update naming an id no element has leaves the inventory as it was. */
  lemma UpdateUnknownIdIsNoop(inv: RoadInventory, id: string, su: SegmentUpdate, pu: StationUpdate, fu: FundingUpdate)
    ensures (forall seg :: seg in inv.segments ==> seg.id != id) ==> UpdateSegment(inv, id, su) == inv
    ensures (forall st :: st in inv.projectStations ==> st.id != id) ==> UpdateStation(inv, id, pu) == inv
    ensures (forall f :: f in inv.fundingReleases ==> f.id != id) ==> UpdateFunding(inv, id, fu) == inv
  {
    if forall seg :: seg in inv.segments ==> seg.id != id {
      var r := UpdateSegment(inv, id, su);
      assert forall i :: 0 <= i < |inv.segments| ==> inv.segments[i] in inv.segments;
      assert r.segments == inv.segments;
    }
    if forall st :: st in inv.projectStations ==> st.id != id {
      var r := UpdateStation(inv, id, pu);
      assert forall i :: 0 <= i < |inv.projectStations| ==> inv.projectStations[i] in inv.projectStations;
      assert r.projectStations == inv.projectStations;
    }
    if forall f :: f in inv.fundingReleases ==> f.id != id {
      var r := UpdateFunding(inv, id, fu);
      assert forall i :: 0 <= i < |inv.fundingReleases| ==> inv.fundingReleases[i] in inv.fundingReleases;
      assert r.fundingReleases == inv.fundingReleases;
    }
  }

  /** Deleting an id no element has leaves the inventory as it was. */
  lemma DeleteUnknownIdIsNoop(inv: RoadInventory, id: string)
    ensures (forall seg :: seg in inv.segments ==> seg.id != id) ==> DeleteSegment(inv, id) == inv
    ensures (forall st :: st in inv.projectStations ==> st.id != id) ==> DeleteStation(inv, id) == inv
    ensures (forall f :: f in inv.fundingReleases ==> f.id != id) ==> DeleteFunding(inv, id) == inv
  {
    if forall seg :: seg in inv.segments ==> seg.id != id {
      Collections.FilterKeepsAll((seg: RoadSegment) => seg.id != id, inv.segments);
    }
    if forall st :: st in inv.projectStations ==> st.id != id {
      Collections.FilterKeepsAll((st: ProjectStation) => st.id != id, inv.projectStations);
    }
    if forall f :: f in inv.fundingReleases ==> f.id != id {
      Collections.FilterKeepsAll((f: FundingRelease) => f.id != id, inv.fundingReleases);
    }
  }

  /** A second delete of the same id changes nothing. */
  lemma DeleteIsIdempotent(inv: RoadInventory, id: string)
    ensures DeleteSegment(DeleteSegment(inv, id), id) == DeleteSegment(inv, id)
    ensures DeleteStation(DeleteStation(inv, id), id) == DeleteStation(inv, id)
    ensures DeleteFunding(DeleteFunding(inv, id), id) == DeleteFunding(inv, id)
  {
    Collections.FilterIdempotent((seg: RoadSegment) => seg.id != id, inv.segments);
    Collections.FilterIdempotent((st: ProjectStation) => st.id != id, inv.projectStations);
    Collections.FilterIdempotent((f: FundingRelease) => f.id != id, inv.fundingReleases);
  }

  /** Delete removes every copy of an element with that id and keeps every
      other element with its multiplicity. */
  lemma DeleteCounts(inv: RoadInventory, id: string, seg: RoadSegment, st: ProjectStation, f: FundingRelease)
    ensures multiset(DeleteSegment(inv, id).segments)[seg] == if seg.id == id then 0 else multiset(inv.segments)[seg]
    ensures multiset(DeleteStation(inv, id).projectStations)[st] == if st.id == id then 0 else multiset(inv.projectStations)[st]
    ensures multiset(DeleteFunding(inv, id).fundingReleases)[f] == if f.id == id then 0 else multiset(inv.fundingReleases)[f]
  {
    Collections.FilterCount((s: RoadSegment) => s.id != id, inv.segments, seg);
    Collections.FilterCount((s: ProjectStation) => s.id != id, inv.projectStations, st);
    Collections.FilterCount((s: FundingRelease) => s.id != id, inv.fundingReleases, f);
  }

  /** Update then delete of the same id leaves no element with that id,
      whatever the update. When the update does not move the element to
      another id, the result is the same as deleting straight away. */
  lemma UpdateThenDelete(inv: RoadInventory, id: string, su: SegmentUpdate, pu: StationUpdate, fu: FundingUpdate)
    ensures forall seg :: seg in DeleteSegment(UpdateSegment(inv, id, su), id).segments ==> seg.id != id
    ensures forall st :: st in DeleteStation(UpdateStation(inv, id, pu), id).projectStations ==> st.id != id
    ensures forall f :: f in DeleteFunding(UpdateFunding(inv, id, fu), id).fundingReleases ==> f.id != id
    ensures su.id.None? || su.id == Some(id) ==>
      DeleteSegment(UpdateSegment(inv, id, su), id) == DeleteSegment(inv, id)
    ensures pu.id.None? || pu.id == Some(id) ==>
      DeleteStation(UpdateStation(inv, id, pu), id) == DeleteStation(inv, id)
    ensures fu.id.None? || fu.id == Some(id) ==>
      DeleteFunding(UpdateFunding(inv, id, fu), id) == DeleteFunding(inv, id)
  {
    if su.id.None? || su.id == Some(id) {
      Collections.FilterIgnoresRewrittenRejects((seg: RoadSegment) => seg.id != id,
        inv.segments, UpdateSegment(inv, id, su).segments);
    }
    if pu.id.None? || pu.id == Some(id) {
      Collections.FilterIgnoresRewrittenRejects((st: ProjectStation) => st.id != id,
        inv.projectStations, UpdateStation(inv, id, pu).projectStations);
    }
    if fu.id.None? || fu.id == Some(id) {
      Collections.FilterIgnoresRewrittenRejects((f: FundingRelease) => f.id != id,
        inv.fundingReleases, UpdateFunding(inv, id, fu).fundingReleases);
    }
  }

  // ---------------------------------------------------------------------
  // Invariants the edits keep
  // ---------------------------------------------------------------------

  /** Ids are unique within each collection. */
  ghost predicate IdsDistinct(inv: RoadInventory)
  {
    && Collections.DistinctKeys((seg: RoadSegment) => seg.id, inv.segments)
    && Collections.DistinctKeys((st: ProjectStation) => st.id, inv.projectStations)
    && Collections.DistinctKeys((f: FundingRelease) => f.id, inv.fundingReleases)
  }

  /** Deletes keep ids unique. */
  lemma DeletesKeepIdsDistinct(inv: RoadInventory, id: string)
    requires IdsDistinct(inv)
    ensures IdsDistinct(DeleteSegment(inv, id))
    ensures IdsDistinct(DeleteStation(inv, id))
    ensures IdsDistinct(DeleteFunding(inv, id))
  {
    Collections.FilterKeepsDistinctKeys((seg: RoadSegment) => seg.id, (seg: RoadSegment) => seg.id != id, inv.segments);
    Collections.FilterKeepsDistinctKeys((st: ProjectStation) => st.id, (st: ProjectStation) => st.id != id, inv.projectStations);
    Collections.FilterKeepsDistinctKeys((f: FundingRelease) => f.id, (f: FundingRelease) => f.id != id, inv.fundingReleases);
  }

  /** Updates that do not supply an id keep ids unique. */
  lemma UpdatesKeepIdsDistinct(inv: RoadInventory, id: string, su: SegmentUpdate, pu: StationUpdate, fu: FundingUpdate)
    requires IdsDistinct(inv)
    ensures su.id.None? ==> IdsDistinct(UpdateSegment(inv, id, su))
    ensures pu.id.None? ==> IdsDistinct(UpdateStation(inv, id, pu))
    ensures fu.id.None? ==> IdsDistinct(UpdateFunding(inv, id, fu))
  {
    if su.id.None? {
      Collections.SameKeysKeepDistinctKeys((seg: RoadSegment) => seg.id, inv.segments, UpdateSegment(inv, id, su).segments);
    }
    if pu.id.None? {
      Collections.SameKeysKeepDistinctKeys((st: ProjectStation) => st.id, inv.projectStations, UpdateStation(inv, id, pu).projectStations);
    }
    if fu.id.None? {
      Collections.SameKeysKeepDistinctKeys((f: FundingRelease) => f.id, inv.fundingReleases, UpdateFunding(inv, id, fu).fundingReleases);
    }
  }

  /** Adds keep ids unique when the generated id is not already in use in
      that collection; the timestamp ids of the page do not guarantee this. */
  lemma AddsKeepIdsDistinct(inv: RoadInventory, newId: string, year: int)
    requires IdsDistinct(inv)
    ensures (forall seg :: seg in inv.segments ==> seg.id != newId) ==> IdsDistinct(AddSegment(inv, newId))
    ensures (forall st :: st in inv.projectStations ==> st.id != newId) ==> IdsDistinct(AddStation(inv, newId))
    ensures (forall f :: f in inv.fundingReleases ==> f.id != newId) ==> IdsDistinct(AddFunding(inv, newId, year))
  {
    var r := AddSegment(inv, newId);
    assert r.segments == inv.segments + [r.segments[|inv.segments|]];
    if forall seg :: seg in inv.segments ==> seg.id != newId {
      Collections.AppendFreshKeepsDistinctKeys((seg: RoadSegment) => seg.id, inv.segments, r.segments[|inv.segments|]);
    }
    var p := AddStation(inv, newId);
    assert p.projectStations == inv.projectStations + [p.projectStations[|inv.projectStations|]];
    if forall st :: st in inv.projectStations ==> st.id != newId {
      Collections.AppendFreshKeepsDistinctKeys((st: ProjectStation) => st.id, inv.projectStations, p.projectStations[|inv.projectStations|]);
    }
    var q := AddFunding(inv, newId, year);
    assert q.fundingReleases == inv.fundingReleases + [q.fundingReleases[|inv.fundingReleases|]];
    if forall f :: f in inv.fundingReleases ==> f.id != newId {
      Collections.AppendFreshKeepsDistinctKeys((f: FundingRelease) => f.id, inv.fundingReleases, q.fundingReleases[|inv.fundingReleases|]);
    }
  }

  /** Segments laid end to end: each starts where the previous one ends. */
  ghost predicate Contiguous(segments: seq<RoadSegment>)
  {
    forall i :: 0 < i < |segments| ==> segments[i].startStation == segments[i - 1].endStation
  }

  /** `addSegment` continues the road: a contiguous list stays contiguous,
      and the new section is a proper range. */
  lemma AddSegmentKeepsContiguity(inv: RoadInventory, newId: string)
    requires Contiguous(inv.segments)
    ensures Contiguous(AddSegment(inv, newId).segments)
    ensures var s := AddSegment(inv, newId).segments; s[|s| - 1].startStation < s[|s| - 1].endStation
  {
    var s := AddSegment(inv, newId).segments;
    assert s == inv.segments + [s[|inv.segments|]];
  }

  /** The station `addStation` places lies on the road whenever the road's
      length is not negative. */
  lemma AddedStationOnRoad(inv: RoadInventory, newId: string)
    requires inv.totalLength >= 0.0
    ensures var st := AddStation(inv, newId).projectStations[|inv.projectStations|];
      0.0 <= st.station <= inv.totalLength
  {
    var n := JsRound(inv.totalLength / 2.0);
    if inv.totalLength < 1.0 {
      assert n == 0;
    }
  }
}
