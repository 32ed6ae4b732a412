/**
 * The renderable primitives the adapter produces: points, text labels and
 * lines, positioned by geocentric coordinates.
 */
module Render {
  import opened Optional
  import SourceProto

  /** A direction on the celestial sphere as a unit vector. How it is computed
      from right ascension and declination is not part of this model. */
  datatype GeocentricCoordinates = GeocentricCoordinates(x: real, y: real, z: real)

  /** `GeocentricCoordinates.getInstance(rightAscension, declination)`, passed in
      as a parameter because its trigonometry is outside the model. */
  type CoordinatesFactory = (SourceProto.Float, SourceProto.Float) -> GeocentricCoordinates

  /** The shapes a point can be drawn with, as far as the shape table uses them. */
  datatype PointShape =
    | Circle
    | EllipticalGalaxy
    | SpiralGalaxy
    | IrregularGalaxy
    | LenticularGalaxy
    | GlobularCluster
    | OpenCluster
    | Nebula
    | HubbleDeepField

  /** A point; `shape` is None where the Java object holds null. */
  datatype PointSource =
    PointSource(coords: GeocentricCoordinates, color: int, size: int, shape: Option<PointShape>)

  datatype TextSource =
    TextSource(
      coords: GeocentricCoordinates,
      text: string,
      color: int,
      offset: SourceProto.Float,
      fontSize: int)

  datatype LineSource =
    LineSource(color: int, vertices: seq<GeocentricCoordinates>, lineWidth: SourceProto.Float)
}
