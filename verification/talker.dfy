/**
 The marker transcoder of the `Talker` node: `createMarkerArray`,
 `createMarkerMessage`, `transformIntoColorRGBAMsg` and
 `transformIntoPointMsg`. Fields are read in the order the Java code reads
 them, so when a document has several defects the error reported is that of
 the first read that throws.

 Every decoder states, against the reference definitions in `MarkerSchema`
 and `Shapes`: which documents it accepts, that the message it builds
 satisfies the per-field mapping, that its error is the first defect of the
 input in read order (`ShapeError` of the decoder's shape), and that this
 error points at a real defect of the input.
 */
module Talker {
  import opened Bson
  import opened Extract
  import opened RosMsgs
  import opened MarkerSchema
  import opened Shapes

  /** `transformIntoPointMsg`: `x`, `y`, `z` copied as they are. */
  function TransformPoint(v: Value): (r: Result<Point>)
    ensures r.Ok? <==> IsXyzDoc(v)
    ensures r.Ok? ==> PointFrom(v, r.value)
    ensures r.Err? ==> Genuine(v, r.error)
    ensures ErrorOf(r) == ShapeError(XyzShape, v)
  {
    var doc :- AsDocument(v);
    var x :- GetDouble(doc, "x");
    var y :- GetDouble(doc, "y");
    var z :- GetDouble(doc, "z");
    Ok(Point(x, y, z))
  }

  /** `transformIntoColorRGBAMsg`: each channel narrowed to a float, read in the order a, r, g, b. */
  function TransformColor(conv: Conversions, v: Value): (r: Result<ColorRGBA>)
    ensures r.Ok? <==> IsColorDoc(v)
    ensures r.Ok? ==> ColorFrom(conv, v, r.value)
    ensures r.Err? ==> Genuine(v, r.error)
    ensures ErrorOf(r) == ShapeError(ColorShape, v)
  {
    var doc :- AsDocument(v);
    var a :- GetDouble(doc, "a");
    var r :- GetDouble(doc, "r");
    var g :- GetDouble(doc, "g");
    var b :- GetDouble(doc, "b");
    Ok(ColorRGBA(conv.narrow(r), conv.narrow(g), conv.narrow(b), conv.narrow(a)))
  }

  /** The marker's `scale` document, copied into a `Vector3`. */
  function DecodeScale(v: Value): (r: Result<Vector3>)
    ensures r.Ok? <==> IsXyzDoc(v)
    ensures r.Ok? ==> Vector3From(v, r.value)
    ensures r.Err? ==> Genuine(v, r.error)
    ensures ErrorOf(r) == ShapeError(XyzShape, v)
  {
    var doc :- AsDocument(v);
    var x :- GetDouble(doc, "x");
    var y :- GetDouble(doc, "y");
    var z :- GetDouble(doc, "z");
    Ok(Vector3(x, y, z))
  }

  /** The pose's `orientation` document, read in the order w, x, y, z. */
  function DecodeOrientation(v: Value): (r: Result<Quaternion>)
    ensures r.Ok? <==> IsQuaternionDoc(v)
    ensures r.Ok? ==> QuaternionFrom(v, r.value)
    ensures r.Err? ==> Genuine(v, r.error)
    ensures ErrorOf(r) == ShapeError(QuaternionShape, v)
  {
    var doc :- AsDocument(v);
    var w :- GetDouble(doc, "w");
    var x :- GetDouble(doc, "x");
    var y :- GetDouble(doc, "y");
    var z :- GetDouble(doc, "z");
    Ok(Quaternion(x, y, z, w))
  }

  /** The marker's `pose` document: orientation first, then the position as a point. */
  function DecodePose(v: Value): (r: Result<Pose>)
    ensures r.Ok? <==> IsPoseDoc(v)
    ensures r.Ok? ==> PoseFrom(v, r.value)
    ensures r.Err? ==> Genuine(v, r.error)
    ensures ErrorOf(r) == ShapeError(PoseShape, v)
  {
    var doc :- AsDocument(v);
    FieldsErrorStep(PoseShape, doc, 0);
    FieldsErrorStep(PoseShape, doc, 1);
    var orientation :- GetNested(doc, "orientation", DecodeOrientation);
    var position :- GetNested(doc, "position", TransformPoint);
    Ok(Pose(position, orientation))
  }

  /** The marker's `header` document: stamp, frame id, sequence number. */
  function DecodeHeader(conv: Conversions, v: Value): (r: Result<Header>)
    ensures r.Ok? <==> IsHeaderDoc(v)
    ensures r.Ok? ==> HeaderFrom(conv, v, r.value)
    ensures r.Err? ==> Genuine(v, r.error)
    ensures ErrorOf(r) == ShapeError(HeaderShape, v)
  {
    var doc :- AsDocument(v);
    var millis :- GetDate(doc, "stamp");
    var frameId :- GetString(doc, "frame_id");
    var seqNumber :- GetInteger(doc, "seq");
    Ok(Header(seqNumber, conv.stampOf(millis), frameId))
  }

  /** The marker's `colors` list: one narrowed colour per element, in order. */
  function DecodeColors(conv: Conversions, v: Value): (r: Result<seq<ColorRGBA>>)
    ensures r.Ok? <==> IsColorList(v)
    ensures r.Ok? ==> ColorsFrom(conv, v, r.value)
    ensures r.Err? ==> Genuine(v, r.error)
    ensures ErrorOf(r) == ShapeError(ListOf(ColorShape), v)
  {
    AsListOfReportsFirstDefect(ListOf(ColorShape), v, c => TransformColor(conv, c));
    AsListOf(v, c => TransformColor(conv, c))
  }

  /** The marker's `points` list: one point per element, in order. */
  function DecodePoints(v: Value): (r: Result<seq<Point>>)
    ensures r.Ok? <==> IsPointList(v)
    ensures r.Ok? ==> PointsFrom(v, r.value)
    ensures r.Err? ==> Genuine(v, r.error)
    ensures ErrorOf(r) == ShapeError(ListOf(XyzShape), v)
  {
    AsListOfReportsFirstDefect(ListOf(XyzShape), v, TransformPoint);
    AsListOf(v, TransformPoint)
  }

  /**
   The marker `messageFactory.newFromType` hands out before any field is set.
   Every field is overwritten before the marker is returned, so its values
   are placeholders.
   */
  const FreshMarker: Marker :=
    var zero := F64(0);
    Marker(Header(0, Time(0, 0), None), None, 0, 0, 0,
           Pose(Point(zero, zero, zero), Quaternion(zero, zero, zero, zero)),
           Vector3(zero, zero, zero), ColorRGBA(F32(0), F32(0), F32(0), F32(0)), Duration(0, 0),
           false, [], [], None, None, false)

  /**
   The first block of `createMarkerMessage`: `mesh_use_embedded_materials`,
   `scale`, `frame_locked`, `color` and `text` (the first five fields in read
   order), set on the marker `m`.
   */
  function ReadAppearance(conv: Conversions, doc: Document, m: Marker): (r: Result<Marker>)
    ensures r.Ok? <==>
      && Get(doc, "mesh_use_embedded_materials").Bool?
      && IsXyzDoc(Get(doc, "scale"))
      && Get(doc, "frame_locked").Bool?
      && IsColorDoc(Get(doc, "color"))
      && IsNullableString(Get(doc, "text"))
    ensures r.Ok? ==>
      && Get(doc, "mesh_use_embedded_materials") == Bool(r.value.meshUseEmbeddedMaterials)
      && Vector3From(Get(doc, "scale"), r.value.scale)
      && Get(doc, "frame_locked") == Bool(r.value.frameLocked)
      && ColorFrom(conv, Get(doc, "color"), r.value.color)
      && StringFrom(Get(doc, "text"), r.value.text)
    ensures r.Ok? ==> r.value == m.(meshUseEmbeddedMaterials := r.value.meshUseEmbeddedMaterials, scale := r.value.scale,
                                    frameLocked := r.value.frameLocked, color := r.value.color, text := r.value.text)
    ensures r.Err? ==> FieldsError(MarkerShape, doc, 0) == Some(r.error)
    ensures r.Ok? ==> FieldsError(MarkerShape, doc, 0) == FieldsError(MarkerShape, doc, 5)
  {
    MarkerShapeFields();
    var meshUseEmbeddedMaterials :- ReadField(MarkerShape, 0, "mesh_use_embedded_materials", doc, AsBoolean);
    var scale :- ReadField(MarkerShape, 1, "scale", doc, DecodeScale);
    var frameLocked :- ReadField(MarkerShape, 2, "frame_locked", doc, AsBoolean);
    var color :- ReadField(MarkerShape, 3, "color", doc, c => TransformColor(conv, c));
    var text :- ReadField(MarkerShape, 4, "text", doc, AsString);
    Ok(m.(meshUseEmbeddedMaterials := meshUseEmbeddedMaterials, scale := scale, frameLocked := frameLocked,
          color := color, text := text))
  }

  /**
   The second block of `createMarkerMessage`: `pose`, `mesh_resource` and
   `header` (fields 5 to 7 in read order), set on the marker `m`.
   */
  function ReadPlacement(conv: Conversions, doc: Document, m: Marker): (r: Result<Marker>)
    ensures r.Ok? <==>
      && IsPoseDoc(Get(doc, "pose"))
      && IsNullableString(Get(doc, "mesh_resource"))
      && IsHeaderDoc(Get(doc, "header"))
    ensures r.Ok? ==>
      && PoseFrom(Get(doc, "pose"), r.value.pose)
      && StringFrom(Get(doc, "mesh_resource"), r.value.meshResource)
      && HeaderFrom(conv, Get(doc, "header"), r.value.header)
    ensures r.Ok? ==> r.value == m.(pose := r.value.pose, meshResource := r.value.meshResource, header := r.value.header)
    ensures r.Err? ==> FieldsError(MarkerShape, doc, 5) == Some(r.error)
    ensures r.Ok? ==> FieldsError(MarkerShape, doc, 5) == FieldsError(MarkerShape, doc, 8)
  {
    MarkerShapeFields();
    var pose :- ReadField(MarkerShape, 5, "pose", doc, DecodePose);
    var meshResource :- ReadField(MarkerShape, 6, "mesh_resource", doc, AsString);
    var header :- ReadField(MarkerShape, 7, "header", doc, h => DecodeHeader(conv, h));
    Ok(m.(pose := pose, meshResource := meshResource, header := header))
  }

  /**
   The third block of `createMarkerMessage`: the `colors` and `points` lists
   (fields 8 and 9 in read order), set on the marker `m`.
   */
  function ReadGeometry(conv: Conversions, doc: Document, m: Marker): (r: Result<Marker>)
    ensures r.Ok? <==> IsColorList(Get(doc, "colors")) && IsPointList(Get(doc, "points"))
    ensures r.Ok? ==> ColorsFrom(conv, Get(doc, "colors"), r.value.colors) && PointsFrom(Get(doc, "points"), r.value.points)
    ensures r.Ok? ==> r.value == m.(colors := r.value.colors, points := r.value.points)
    ensures r.Err? ==> FieldsError(MarkerShape, doc, 8) == Some(r.error)
    ensures r.Ok? ==> FieldsError(MarkerShape, doc, 8) == FieldsError(MarkerShape, doc, 10)
  {
    MarkerShapeFields();
    var colors :- ReadField(MarkerShape, 8, "colors", doc, cs => DecodeColors(conv, cs));
    var points :- ReadField(MarkerShape, 9, "points", doc, DecodePoints);
    Ok(m.(colors := colors, points := points))
  }

  /**
   The last block of `createMarkerMessage`: `action`, `lifetime`, `ns`, `type`
   and `id` (fields 10 to 14 in read order), set on the marker `m`. Nothing
   is read after `id`.
   */
  function ReadIdentity(conv: Conversions, doc: Document, m: Marker): (r: Result<Marker>)
    ensures r.Ok? <==>
      && Get(doc, "action").Int?
      && Get(doc, "lifetime").Double?
      && IsNullableString(Get(doc, "ns"))
      && Get(doc, "type").Int?
      && Get(doc, "id").Int?
    ensures r.Ok? ==>
      && Get(doc, "action") == Int(r.value.action)
      && Get(doc, "lifetime").Double?
      && r.value.lifetime == conv.durationOf(Get(doc, "lifetime").d)
      && StringFrom(Get(doc, "ns"), r.value.ns)
      && Get(doc, "type") == Int(r.value.markerType)
      && Get(doc, "id") == Int(r.value.id)
    ensures r.Ok? ==> r.value == m.(action := r.value.action, lifetime := r.value.lifetime, ns := r.value.ns,
                                    markerType := r.value.markerType, id := r.value.id)
    ensures r.Err? ==> FieldsError(MarkerShape, doc, 10) == Some(r.error)
    ensures r.Ok? ==> FieldsError(MarkerShape, doc, 10) == None
  {
    MarkerShapeFields();
    var action :- ReadField(MarkerShape, 10, "action", doc, AsInteger);
    var lifetime :- ReadField(MarkerShape, 11, "lifetime", doc, AsDouble);
    var ns :- ReadField(MarkerShape, 12, "ns", doc, AsString);
    var markerType :- ReadField(MarkerShape, 13, "type", doc, AsInteger);
    var id :- ReadField(MarkerShape, 14, "id", doc, AsInteger);
    Ok(m.(action := action, lifetime := conv.durationOf(lifetime), ns := ns, markerType := markerType, id := id))
  }

  /**
   `createMarkerMessage`: the four blocks in turn, each setting its fields on
   the marker built so far, starting from a fresh one.
   */
  function CreateMarker(conv: Conversions, v: Value): (r: Result<Marker>)
    ensures r.Ok? <==> IsMarkerDoc(v)
    ensures r.Ok? ==> MarkerFrom(conv, v, r.value)
    ensures ErrorOf(r) == ShapeError(MarkerShape, v)
    ensures r.Err? ==> Genuine(v, r.error)
  {
    ShapeErrorGenuine(MarkerShape, v);
    var doc :- AsDocument(v);
    IsMarkerDocByFields(doc);
    var m1 :- ReadAppearance(conv, doc, FreshMarker);
    var m2 :- ReadPlacement(conv, doc, m1);
    var m3 :- ReadGeometry(conv, doc, m2);
    var m4 :- ReadIdentity(conv, doc, m3);
    MarkerFromByFields(conv, doc, m4);
    Ok(m4)
  }

  /** `createMarkerArray`: one marker per element of the snapshot's `markers` list, in order, or the first failure. */
  function CreateMarkerArray(conv: Conversions, v: Value): (r: Result<seq<Marker>>)
    ensures r.Ok? <==> IsSnapshotDoc(v)
    ensures r.Ok? ==> MarkersFrom(conv, v, r.value)
    ensures r.Err? ==> Genuine(v, r.error)
    ensures ErrorOf(r) == ShapeError(SnapshotShape, v)
  {
    var doc :- AsDocument(v);
    FieldsErrorStep(SnapshotShape, doc, 0);
    AsListOfReportsFirstDefect(ListOf(MarkerShape), Get(doc, "markers"), MarkerDecoder(conv));
    Within(Key("markers"), AsListOf(Get(doc, "markers"), MarkerDecoder(conv)))
  }

  /** `createMarkerMessage` as the element decoder of the `markers` loop. */
  function MarkerDecoder(conv: Conversions): Value -> Result<Marker> {
    m => CreateMarker(conv, m)
  }
}
