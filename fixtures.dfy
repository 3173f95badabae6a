/**
 * The shapes of the mock JSON documents the dashboard reads (weather, rivers,
 * prediction and replay fixtures). JSON numbers are modelled as `real`.
 */
module Fixtures {
  import opened Optional

  /** A `[lng, lat]` pair, longitude first as GeoJSON wants it. */
  datatype Position = Position(lng: real, lat: real)

  /** One rainfall sample: a weather `heatmapData` entry or a replay `rainfallLayer` entry. */
  datatype RainPoint = RainPoint(lng: real, lat: real, intensity: real, value: real)

  /** One river gauge of the rivers fixture. */
  datatype RiverStation = RiverStation(name: string, currentLevel: real, status: string, coordinates: Position)

  /** One flood polygon of the prediction fixture; `coordinates` is its outer ring. */
  datatype FloodZone = FloodZone(severity: string, depth: real, coordinates: seq<Position>)

  /** One replay snapshot; `rainfallLayer` may be missing from a frame. */
  datatype ReplayFrame = ReplayFrame(
    frameId: int,
    timestamp: string,
    rainfall: real,
    riverLevel: real,
    riskScore: real,
    rainfallLayer: Option<seq<RainPoint>>)

  /** The replay fixture: an ordered list of frames. */
  datatype ReplayData = ReplayData(frames: seq<ReplayFrame>)
}
