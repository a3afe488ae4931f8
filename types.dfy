/**
 * The shapes shared by the client and the server (frontend/src/types/index.ts).
 * Coordinates are `real`s: floating point is not modelled.
 */
module Types {
  import opened Wrappers

  /** One `[lat, lng]` pair, in degrees. */
  datatype Point = Point(lat: real, lng: real)

  /** `DrawingMode = 'none' | 'drawing' | 'closed'`; `Idle` is the source's `'none'`. */
  datatype DrawingMode = Idle | Drawing | Closed

  /** A stored plot as the API returns it. */
  datatype Plot = Plot(
    id: int,
    name: string,
    coordinates: seq<Point>,
    surfaceArea: Option<real>,
    createdAt: string,
    updatedAt: string)

  /** The metadata the create-plot form hands to the application (`onSavePlot`'s argument). */
  datatype PlotData = PlotData(
    name: string,
    farmName: Option<string>,
    cropType: Option<string>,
    hasManager: Option<bool>)
}
