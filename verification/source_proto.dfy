/**
 * The deserialized catalog record (the generated `SourceProto` messages), as
 * immutable values. Repeated fields are sequences in wire order. Optional
 * sub-messages are always present here: the model does not distinguish an
 * unset field from its default value.
 */
module SourceProto {

  /** A single-precision field of the record. The adapter only copies these, so
      no floating-point arithmetic is modelled. */
  type Float = real

  /** The catalog's shape enumeration. The ten named values are the ones the
      adapter's shape table lists; `Unlisted` stands for any other value of the
      schema, for which the table has no entry. */
  datatype Shape =
    | Circle
    | Star
    | EllipticalGalaxy
    | SpiralGalaxy
    | IrregularGalaxy
    | LenticularGalaxy
    | GlobularCluster
    | OpenCluster
    | Nebula
    | HubbleDeepField
    | Unlisted(code: int)

  /** A sky position in equatorial coordinates. */
  datatype GeocentricCoordinatesProto =
    GeocentricCoordinatesProto(rightAscension: Float, declination: Float)

  /** A point to draw; `color` and `size` are 32-bit integers that are only copied. */
  datatype PointElementProto =
    PointElementProto(location: GeocentricCoordinatesProto, color: int, size: int, shape: Shape)

  /** A text label: the text is named by a textual string id and, once
      processed, by an integer resource id. */
  datatype LabelElementProto =
    LabelElementProto(
      location: GeocentricCoordinatesProto,
      color: int,
      stringsStrId: string,
      stringsIntId: int,
      offset: Float,
      fontSize: int)

  /** A polyline through `vertices`, in order. */
  datatype LineElementProto =
    LineElementProto(color: int, lineWidth: Float, vertices: seq<GeocentricCoordinatesProto>)

  /** One astronomical object: its names (as textual ids and as integer
      resource ids), where a search for it should point, and its primitives. */
  datatype AstronomicalSourceProto =
    AstronomicalSourceProto(
      nameStrIds: seq<string>,
      nameIntIds: seq<int>,
      searchLocation: GeocentricCoordinatesProto,
      points: seq<PointElementProto>,
      labels: seq<LabelElementProto>,
      lines: seq<LineElementProto>)
}
