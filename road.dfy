/** The domain records of the road inventory (types/road.ts).
    Stations and lengths are kilometres, modelled as `real` so that the
    station-to-pixel map is exact; `year` and `amount` are integers. */
module Road {

  /** `RoadSegment.surfaceType`: one of four string literals in the source. */
  datatype SurfaceType = Asphalt | Concrete | Gravel | Unpaved

  /** `FundingRelease.status`: one of three string literals in the source. */
  datatype Status = Completed | Ongoing | Planned

  /** A contiguous stretch of road with uniform paving. */
  datatype RoadSegment = RoadSegment(
    id: string,
    name: string,
    startStation: real,
    endStation: real,
    isPaved: bool,
    surfaceType: SurfaceType)

  /** A point along the road where work is proposed. */
  datatype ProjectStation = ProjectStation(
    id: string,
    station: real,
    name: string,
    description: string,
    proposedWork: string)

  /** A budget allocation over a station range. */
  datatype FundingRelease = FundingRelease(
    id: string,
    startStation: real,
    endStation: real,
    year: int,
    amount: int,
    status: Status,
    description: string)

  /** The aggregate root: road name, length and the three ordered collections. */
  datatype RoadInventory = RoadInventory(
    roadName: string,
    totalLength: real,
    segments: seq<RoadSegment>,
    projectStations: seq<ProjectStation>,
    fundingReleases: seq<FundingRelease>)
}
