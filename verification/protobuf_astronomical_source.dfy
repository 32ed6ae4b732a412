/**
 * The adapter from a catalog record to renderable primitives
 * (`ProtobufAstronomicalSource`). The Java object is modelled as the value
 * `Source`; its lazily filled names cache is a field, and `GetNames` returns
 * the names together with the object as it is after the call.
 */
module ProtobufAstronomicalSource {
  import opened Optional
  import opened SourceProto
  import opened AndroidResources
  import opened Render

  // ---------------------------------------------------------------------------
  // Shape table

  /** The static table from catalog shapes to point shapes. */
  const ShapeMap: map<SourceProto.Shape, PointShape> :=
    map[
      SourceProto.Circle := Render.Circle,
      SourceProto.Star := Render.Circle,
      SourceProto.EllipticalGalaxy := Render.EllipticalGalaxy,
      SourceProto.SpiralGalaxy := Render.SpiralGalaxy,
      SourceProto.IrregularGalaxy := Render.IrregularGalaxy,
      SourceProto.LenticularGalaxy := Render.LenticularGalaxy,
      SourceProto.GlobularCluster := Render.GlobularCluster,
      SourceProto.OpenCluster := Render.OpenCluster,
      SourceProto.Nebula := Render.Nebula,
      SourceProto.HubbleDeepField := Render.HubbleDeepField
    ]

  /** The catalog shape that carries the same name as a point shape. */
  function SameNamedCatalogShape(p: PointShape): (s: SourceProto.Shape)
  {
    match p
    case Circle => SourceProto.Circle
    case EllipticalGalaxy => SourceProto.EllipticalGalaxy
    case SpiralGalaxy => SourceProto.SpiralGalaxy
    case IrregularGalaxy => SourceProto.IrregularGalaxy
    case LenticularGalaxy => SourceProto.LenticularGalaxy
    case GlobularCluster => SourceProto.GlobularCluster
    case OpenCluster => SourceProto.OpenCluster
    case Nebula => SourceProto.Nebula
    case HubbleDeepField => SourceProto.HubbleDeepField
  }

  /** `shapeMap.get(shape)`: None (null) for a shape the table does not list,
      a circle for a star, and otherwise the point shape of the same name. */
  function LookupShape(shape: SourceProto.Shape): (r: Option<PointShape>)
    ensures r.None? <==> shape.Unlisted?
    ensures shape == SourceProto.Star ==> r == Some(Render.Circle)
    ensures r.Some? && shape != SourceProto.Star ==> SameNamedCatalogShape(r.value) == shape
  {
    if shape in ShapeMap then Some(ShapeMap[shape]) else None
  }

  /** The table has exactly ten keys: every listed catalog shape. */
  lemma ShapeMapDomain()
    ensures forall s :: s in ShapeMap <==> !s.Unlisted?
    ensures |ShapeMap| == 10
  {
  }

  /** Two distinct catalog shapes share an image, so the table is not injective. */
  lemma ShapeMapNotInjective()
    ensures exists a, b :: a in ShapeMap && b in ShapeMap && a != b && ShapeMap[a] == ShapeMap[b]
  {
    assert ShapeMap[SourceProto.Circle] == ShapeMap[SourceProto.Star];
  }

  /** The table's images: nine distinct point shapes, one per key except that
      the circle is the image of both the circle and the star. */
  lemma ShapeMapValues()
    ensures ShapeMap.Values == {
      Render.Circle, Render.EllipticalGalaxy, Render.SpiralGalaxy, Render.IrregularGalaxy,
      Render.LenticularGalaxy, Render.GlobularCluster, Render.OpenCluster, Render.Nebula,
      Render.HubbleDeepField }
    ensures |ShapeMap.Values| == |ShapeMap| - 1
  {
    var images := {
      Render.Circle, Render.EllipticalGalaxy, Render.SpiralGalaxy, Render.IrregularGalaxy,
      Render.LenticularGalaxy, Render.GlobularCluster, Render.OpenCluster, Render.Nebula,
      Render.HubbleDeepField };
    forall p: PointShape
      ensures p in ShapeMap.Values
    {
      assert ShapeMap[SameNamedCatalogShape(p)] == p;
    }
    assert ShapeMap.Values == images;
    assert |images| == 9;
    ShapeMapDomain();
  }

  // ---------------------------------------------------------------------------
  // Resolving string ids

  /** `toInt`: the id is not looked up; every textual id resolves to the
      missing-label resource. */
  function ToInt(stringId: string): (id: ResId)
  {
    MissingLabel
  }

  lemma ToIntIgnoresItsArgument(a: string, b: string)
    ensures ToInt(a) == ToInt(b) == MissingLabel
  {
  }

  /** The first loop of `processStringIds`: appends `toInt` of each textual id,
      in order, to the integer ids already present. */
  function AddNameIntIds(intIds: seq<ResId>, strIds: seq<string>): (r: seq<ResId>)
    ensures |r| == |intIds| + |strIds|
    ensures r[..|intIds|] == intIds
    ensures forall i :: |intIds| <= i < |r| ==> r[i] == MissingLabel
    decreases |strIds|
  {
    if strIds == [] then intIds
    else AddNameIntIds(intIds + [ToInt(strIds[0])], strIds[1..])
  }

  /** The second loop of `processStringIds`: sets each label's integer id to
      `toInt` of its textual id. */
  function SetLabelIntIds(labels: seq<LabelElementProto>): (r: seq<LabelElementProto>)
    ensures |r| == |labels|
    ensures forall i :: 0 <= i < |r| ==> r[i] == labels[i].(stringsIntId := MissingLabel)
  {
    if labels == [] then []
    else [labels[0].(stringsIntId := ToInt(labels[0].stringsStrId))] + SetLabelIntIds(labels[1..])
  }

  /** `processStringIds`: one missing-label integer id per textual name id is
      appended to the name ids, every label's integer id becomes the missing
      label, and nothing else in the record changes. */
  function ProcessStringIds(proto: AstronomicalSourceProto): (r: AstronomicalSourceProto)
    ensures |r.nameIntIds| == |proto.nameIntIds| + |proto.nameStrIds|
    ensures r.nameIntIds[..|proto.nameIntIds|] == proto.nameIntIds
    ensures forall i :: |proto.nameIntIds| <= i < |r.nameIntIds| ==> r.nameIntIds[i] == MissingLabel
    ensures |r.labels| == |proto.labels|
    ensures forall i :: 0 <= i < |r.labels| ==> r.labels[i] == proto.labels[i].(stringsIntId := MissingLabel)
    ensures r.(nameIntIds := proto.nameIntIds, labels := proto.labels) == proto
  {
    proto.(
      nameIntIds := AddNameIntIds(proto.nameIntIds, proto.nameStrIds),
      labels := SetLabelIntIds(proto.labels))
  }

  // ---------------------------------------------------------------------------
  // The adapter object

  /** The adapter's state: the record it reads, the resources names are looked
      up in, and the names cache (None until `getNames` first runs). */
  datatype Source = Source(proto: AstronomicalSourceProto, resources: Resources, names: Option<seq<string>>)

  /** The constructor. The processed record is assigned to the constructor's
      parameter, not to the field, so it is computed and dropped: the object
      keeps the record exactly as given, with an empty names cache. */
  function New(proto: AstronomicalSourceProto, resources: Resources): (s: Source)
    ensures s.proto == proto
    ensures s.resources == resources
    ensures s.names == None
  {
    Source(proto, resources, None)
  }

  /** Looks up each id in order, as the loop of `getNames` does. */
  function LookUpNames(resources: Resources, ids: seq<ResId>): (r: seq<string>)
    ensures |r| == |ids|
    ensures forall i :: 0 <= i < |ids| ==> r[i] == resources.getString(ids[i])
  {
    if ids == [] then []
    else [resources.getString(ids[0])] + LookUpNames(resources, ids[1..])
  }

  /** `getNames`: the first call builds one name per integer name id of the
      stored record, in order, and caches it; later calls return the cache and
      leave the object as it is. */
  function GetNames(s: Source): (r: (seq<string>, Source))
    ensures s.names.Some? ==> r == (s.names.value, s)
    ensures s.names.None? ==> |r.0| == |s.proto.nameIntIds|
    ensures s.names.None? ==>
      forall i :: 0 <= i < |r.0| ==> r.0[i] == s.resources.getString(s.proto.nameIntIds[i])
    ensures r.1 == s.(names := Some(r.0))
  {
    match s.names
    case Some(cached) => (cached, s)
    case None =>
      var built := LookUpNames(s.resources, s.proto.nameIntIds);
      (built, s.(names := Some(built)))
  }

  /** `getCoords`: a record position passed through the coordinates factory. */
  function GetCoords(p: GeocentricCoordinatesProto, instance: CoordinatesFactory): (c: GeocentricCoordinates)
  {
    instance(p.rightAscension, p.declination)
  }

  /** `getSearchLocation`: the stored record's search location, converted. */
  function GetSearchLocation(s: Source, instance: CoordinatesFactory): (r: GeocentricCoordinates)
    ensures r == instance(s.proto.searchLocation.rightAscension, s.proto.searchLocation.declination)
  {
    GetCoords(s.proto.searchLocation, instance)
  }

  // ---------------------------------------------------------------------------
  // Primitives

  /** The loop of `getPoints`: one point per element, in order. */
  function ToPoints(elements: seq<PointElementProto>, instance: CoordinatesFactory): (r: seq<PointSource>)
    ensures |r| == |elements|
    ensures forall i :: 0 <= i < |elements| ==>
      r[i] == PointSource(GetCoords(elements[i].location, instance), elements[i].color,
                          elements[i].size, LookupShape(elements[i].shape))
  {
    if elements == [] then []
    else
      var e := elements[0];
      [PointSource(GetCoords(e.location, instance), e.color, e.size, LookupShape(e.shape))]
        + ToPoints(elements[1..], instance)
  }

  /** `getPoints`: one point per point element of the stored record, in order,
      with its location converted, colour and size copied and its shape looked
      up in the shape table; no elements give the empty list. */
  function GetPoints(s: Source, instance: CoordinatesFactory): (r: seq<PointSource>)
    ensures |r| == |s.proto.points|
    ensures forall i :: 0 <= i < |r| ==>
      var e := s.proto.points[i];
      && r[i].coords == GetCoords(e.location, instance)
      && r[i].color == e.color
      && r[i].size == e.size
      && r[i].shape == LookupShape(e.shape)
  {
    if |s.proto.points| == 0 then [] else ToPoints(s.proto.points, instance)
  }

  /** The loop of `getLabels`: one text source per element, in order, always
      reading the missing-label string. */
  function ToTexts(elements: seq<LabelElementProto>, resources: Resources, instance: CoordinatesFactory)
    : (r: seq<TextSource>)
    ensures |r| == |elements|
    ensures forall i :: 0 <= i < |elements| ==>
      r[i] == TextSource(GetCoords(elements[i].location, instance), resources.getString(MissingLabel),
                         elements[i].color, elements[i].offset, elements[i].fontSize)
  {
    if elements == [] then []
    else
      var e := elements[0];
      [TextSource(GetCoords(e.location, instance), resources.getString(MissingLabel),
                  e.color, e.offset, e.fontSize)]
        + ToTexts(elements[1..], resources, instance)
  }

  /** `getLabels`: one text source per label element of the stored record, in
      order, with colour, offset and font size copied and the text the
      missing-label string whatever the element's ids; no elements give the
      empty list. */
  function GetLabels(s: Source, instance: CoordinatesFactory): (r: seq<TextSource>)
    ensures |r| == |s.proto.labels|
    ensures forall i :: 0 <= i < |r| ==>
      var e := s.proto.labels[i];
      && r[i].coords == GetCoords(e.location, instance)
      && r[i].text == s.resources.getString(MissingLabel)
      && r[i].color == e.color
      && r[i].offset == e.offset
      && r[i].fontSize == e.fontSize
  {
    if |s.proto.labels| == 0 then [] else ToTexts(s.proto.labels, s.resources, instance)
  }

  /** The inner loop of `getLines`: each vertex converted, in order. */
  function ToVertices(vertices: seq<GeocentricCoordinatesProto>, instance: CoordinatesFactory)
    : (r: seq<GeocentricCoordinates>)
    ensures |r| == |vertices|
    ensures forall i :: 0 <= i < |vertices| ==> r[i] == GetCoords(vertices[i], instance)
  {
    if vertices == [] then []
    else [GetCoords(vertices[0], instance)] + ToVertices(vertices[1..], instance)
  }

  /** The outer loop of `getLines`: one line source per element, in order. */
  function ToLines(elements: seq<LineElementProto>, instance: CoordinatesFactory): (r: seq<LineSource>)
    ensures |r| == |elements|
    ensures forall i :: 0 <= i < |elements| ==>
      r[i] == LineSource(elements[i].color, ToVertices(elements[i].vertices, instance), elements[i].lineWidth)
  {
    if elements == [] then []
    else
      var e := elements[0];
      [LineSource(e.color, ToVertices(e.vertices, instance), e.lineWidth)]
        + ToLines(elements[1..], instance)
  }

  /** `getLines`: one line source per line element of the stored record, in
      order, keeping colour and width, with one converted vertex per element
      vertex in the same order; no elements give the empty list. */
  function GetLines(s: Source, instance: CoordinatesFactory): (r: seq<LineSource>)
    ensures |r| == |s.proto.lines|
    ensures forall i :: 0 <= i < |r| ==>
      var e := s.proto.lines[i];
      && r[i].color == e.color
      && r[i].lineWidth == e.lineWidth
      && |r[i].vertices| == |e.vertices|
      && forall j :: 0 <= j < |e.vertices| ==> r[i].vertices[j] == GetCoords(e.vertices[j], instance)
  {
    if |s.proto.lines| == 0 then [] else ToLines(s.proto.lines, instance)
  }
}
