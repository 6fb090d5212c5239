/** The sample inventory the page starts with (data/sampleData.ts), and
    what the diagram shows of it for a few windows and filters. */
module SampleData {
  import opened Road
  import opened Diagram
  import Collections
  import PageEdits

  const Seg1 := RoadSegment("seg1", "Section A", 0.0, 12.0, true, Asphalt)
  const Seg2 := RoadSegment("seg2", "Section B", 12.0, 18.0, false, Gravel)
  const Seg3 := RoadSegment("seg3", "Section C", 18.0, 30.0, true, Concrete)
  const Seg4 := RoadSegment("seg4", "Section D", 30.0, 38.0, false, Unpaved)
  const Seg5 := RoadSegment("seg5", "Section E", 38.0, 50.0, true, Asphalt)

  const Ps1 := ProjectStation("ps1", 5.0, "Station 1", "Bridge rehabilitation", "Structural repairs and repainting")
  const Ps2 := ProjectStation("ps2", 15.0, "Station 2", "Road paving", "Convert gravel to asphalt")
  const Ps3 := ProjectStation("ps3", 25.0, "Station 3", "Intersection improvement", "Traffic light installation")
  const Ps4 := ProjectStation("ps4", 35.0, "Station 4", "Road widening", "Expand to 4 lanes")
  const Ps5 := ProjectStation("ps5", 45.0, "Station 5", "Drainage system", "Install new drainage")

  const Fr1 := FundingRelease("fr1", 0.0, 12.0, 2022, 15000000, Completed, "Initial paving - Phase 1")
  const Fr2 := FundingRelease("fr2", 18.0, 30.0, 2023, 25000000, Completed, "Concrete resurfacing - Phase 2")
  const Fr3 := FundingRelease("fr3", 12.0, 18.0, 2024, 12000000, Ongoing, "Paving Section B - Phase 3")
  const Fr4 := FundingRelease("fr4", 30.0, 38.0, 2025, 18000000, Planned, "Road improvement - Phase 4")

  /** `sampleRoadData`: a 50 km highway. */
  const Sample := RoadInventory("National Highway 101", 50.0,
    [Seg1, Seg2, Seg3, Seg4, Seg5],
    [Ps1, Ps2, Ps3, Ps4, Ps5],
    [Fr1, Fr2, Fr3, Fr4])

  /** Window `[12, 20]`: section A `[0, 12]` only touches the window and
      is out; sections B and C are in, in collection order. */
  lemma SampleWindowSegments()
    ensures FilteredSegments(Sample.segments, StationRange(12.0, 20.0), AllSurfaces) == [Seg2, Seg3]
  {
    SampleSegmentsKept();
  }

  /** The `filter` call itself, one element at a time. */
  lemma SampleSegmentsKept()
    ensures Collections.Filter(SegmentTest(StationRange(12.0, 20.0), AllSurfaces), Sample.segments) == [Seg2, Seg3]
  {
    var w := StationRange(12.0, 20.0);
    var keep := SegmentTest(w, AllSurfaces);
    assert Collections.Filter(keep, [Seg5]) == [] by {
      Collections.FilterCons(keep, Seg5, []);
    }
    assert Collections.Filter(keep, [Seg4, Seg5]) == [] by {
      Collections.FilterCons(keep, Seg4, [Seg5]);
    }
    assert Collections.Filter(keep, [Seg3, Seg4, Seg5]) == [Seg3] by {
      Collections.FilterCons(keep, Seg3, [Seg4, Seg5]);
    }
    assert Collections.Filter(keep, [Seg2, Seg3, Seg4, Seg5]) == [Seg2, Seg3] by {
      Collections.FilterCons(keep, Seg2, [Seg3, Seg4, Seg5]);
    }
    Collections.FilterCons(keep, Seg1, [Seg2, Seg3, Seg4, Seg5]);
  }

  /** Window `[12, 20]` shows only the station at km 15. */
  lemma SampleWindowStations()
    ensures FilteredStations(Sample.projectStations, StationRange(12.0, 20.0)) == [Ps2]
  {
    SampleStationsKept();
  }

  /** The `filter` call itself, one element at a time. */
  lemma SampleStationsKept()
    ensures Collections.Filter(StationTest(StationRange(12.0, 20.0)), Sample.projectStations) == [Ps2]
  {
    var w := StationRange(12.0, 20.0);
    var keep := StationTest(w);
    Collections.FilterCons(keep, Ps5, []);
    Collections.FilterCons(keep, Ps4, [Ps5]);
    Collections.FilterCons(keep, Ps3, [Ps4, Ps5]);
    Collections.FilterCons(keep, Ps2, [Ps3, Ps4, Ps5]);
    Collections.FilterCons(keep, Ps1, [Ps2, Ps3, Ps4, Ps5]);
  }

  /** Window `[12, 20]` shows the releases over sections C and B, in
      collection order. */
  lemma SampleWindowFunding()
    ensures FilteredFunding(Sample.fundingReleases, StationRange(12.0, 20.0), AllStatuses) == [Fr2, Fr3]
  {
    SampleFundingKept();
  }

  /** The `filter` call itself, one element at a time. */
  lemma SampleFundingKept()
    ensures Collections.Filter(FundingTest(StationRange(12.0, 20.0), AllStatuses), Sample.fundingReleases) == [Fr2, Fr3]
  {
    var w := StationRange(12.0, 20.0);
    var keep := FundingTest(w, AllStatuses);
    assert Collections.Filter(keep, [Fr4]) == [] by {
      Collections.FilterCons(keep, Fr4, []);
    }
    assert Collections.Filter(keep, [Fr3, Fr4]) == [Fr3] by {
      Collections.FilterCons(keep, Fr3, [Fr4]);
    }
    assert Collections.Filter(keep, [Fr2, Fr3, Fr4]) == [Fr2, Fr3] by {
      Collections.FilterCons(keep, Fr2, [Fr3, Fr4]);
    }
    Collections.FilterCons(keep, Fr1, [Fr2, Fr3, Fr4]);
  }

  /** With the status filter at `ongoing`, window `[12, 20]` keeps only the
      Phase 3 release. */
  lemma SampleOngoingFunding()
    ensures FilteredFunding(Sample.fundingReleases, StationRange(12.0, 20.0), OnlyStatus(Ongoing)) == [Fr3]
  {
    SampleOngoingKept();
  }

  /** The `filter` call itself, one element at a time. */
  lemma SampleOngoingKept()
    ensures Collections.Filter(FundingTest(StationRange(12.0, 20.0), OnlyStatus(Ongoing)), Sample.fundingReleases) == [Fr3]
  {
    var w := StationRange(12.0, 20.0);
    var keep := FundingTest(w, OnlyStatus(Ongoing));
    assert Collections.Filter(keep, [Fr4]) == [] by {
      Collections.FilterCons(keep, Fr4, []);
    }
    assert Collections.Filter(keep, [Fr3, Fr4]) == [Fr3] by {
      Collections.FilterCons(keep, Fr3, [Fr4]);
    }
    assert Collections.Filter(keep, [Fr2, Fr3, Fr4]) == [Fr3] by {
      Collections.FilterCons(keep, Fr2, [Fr3, Fr4]);
    }
    Collections.FilterCons(keep, Fr1, [Fr2, Fr3, Fr4]);
  }

  /** The completed release over `[0, 12]` is hidden by the `ongoing`
      filter whatever the window, even one it overlaps. */
  lemma CompletedHiddenByOngoingFilter(w: StationRange)
    ensures Fr1 !in FilteredFunding(Sample.fundingReleases, w, OnlyStatus(Ongoing))
  {
  }

  /** On the sample road `addSegment` appends `[50, 55]`, past the road's
      end: with the whole road in view the new section is not drawn. */
  lemma SampleAddedSegmentOffRoad(newId: string)
    ensures var r := PageEdits.AddSegment(Sample, newId);
      && r.segments[5].startStation == 50.0 && r.segments[5].endStation == 55.0
      && r.segments[5] !in FilteredSegments(r.segments, StationRange(0.0, r.totalLength), AllSurfaces)
  {
  }
}
