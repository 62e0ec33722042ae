/**
 The reference definition of the marker transcoder, written field by field
 and independently of how the decoder is sequenced: which documents it
 accepts (the `Is...Doc` predicates, one per message type), and which message
 it must build from an accepted document (the `...From` relations). Each
 relation reads a field at its path in the document and says what the message
 field is: the same value for numbers, booleans and strings, and the library
 conversion of it for colour channels, the stamp and the lifetime.
 */
module MarkerSchema {
  import opened Bson
  import opened Extract
  import opened RosMsgs
  import opened Shapes

  /** What `getString` accepts: a string, or null. */
  predicate IsNullableString(v: Value) {
    v == Null || v.Str?
  }

  /** The string field `s` is what `getString` reads from `v`. */
  predicate StringFrom(v: Value, s: Option<string>) {
    match s
    case None => v == Null
    case Some(t) => v == Str(t)
  }

  /** A document with double fields `x`, `y`, `z` (a point, or a scale). */
  predicate IsXyzDoc(v: Value) {
    v.Map? && At(v, "x").Double? && At(v, "y").Double? && At(v, "z").Double?
  }

  predicate PointFrom(v: Value, p: Point) {
    v.Map? && At(v, "x") == Double(p.x) && At(v, "y") == Double(p.y) && At(v, "z") == Double(p.z)
  }

  predicate Vector3From(v: Value, s: Vector3) {
    v.Map? && At(v, "x") == Double(s.x) && At(v, "y") == Double(s.y) && At(v, "z") == Double(s.z)
  }

  predicate IsQuaternionDoc(v: Value) {
    v.Map? && At(v, "w").Double? && At(v, "x").Double? && At(v, "y").Double? && At(v, "z").Double?
  }

  predicate QuaternionFrom(v: Value, q: Quaternion) {
    && v.Map?
    && At(v, "w") == Double(q.w)
    && At(v, "x") == Double(q.x)
    && At(v, "y") == Double(q.y)
    && At(v, "z") == Double(q.z)
  }

  predicate IsColorDoc(v: Value) {
    v.Map? && At(v, "r").Double? && At(v, "g").Double? && At(v, "b").Double? && At(v, "a").Double?
  }

  /** Each channel is the narrowing of the stored double. */
  predicate ColorFrom(conv: Conversions, v: Value, c: ColorRGBA) {
    && IsColorDoc(v)
    && c.r == conv.narrow(At(v, "r").d)
    && c.g == conv.narrow(At(v, "g").d)
    && c.b == conv.narrow(At(v, "b").d)
    && c.a == conv.narrow(At(v, "a").d)
  }

  predicate IsPoseDoc(v: Value) {
    v.Map? && IsQuaternionDoc(At(v, "orientation")) && IsXyzDoc(At(v, "position"))
  }

  predicate PoseFrom(v: Value, p: Pose) {
    v.Map? && QuaternionFrom(At(v, "orientation"), p.orientation) && PointFrom(At(v, "position"), p.position)
  }

  predicate IsHeaderDoc(v: Value) {
    v.Map? && At(v, "stamp").Date? && IsNullableString(At(v, "frame_id")) && At(v, "seq").Int?
  }

  /** The stamp is the conversion of the stored date's epoch milliseconds. */
  predicate HeaderFrom(conv: Conversions, v: Value, h: Header) {
    && v.Map?
    && At(v, "stamp").Date?
    && h.stamp == conv.stampOf(At(v, "stamp").millis)
    && StringFrom(At(v, "frame_id"), h.frameId)
    && At(v, "seq") == Int(h.seqNumber)
  }

  predicate IsColorList(v: Value) {
    v.List? && forall i :: 0 <= i < |v.items| ==> IsColorDoc(v.items[i])
  }

  /** One colour per stored colour document, in the stored order. */
  predicate ColorsFrom(conv: Conversions, v: Value, cs: seq<ColorRGBA>) {
    && v.List?
    && |v.items| == |cs|
    && forall i :: 0 <= i < |cs| ==> ColorFrom(conv, v.items[i], cs[i])
  }

  predicate IsPointList(v: Value) {
    v.List? && forall i :: 0 <= i < |v.items| ==> IsXyzDoc(v.items[i])
  }

  /** One point per stored point document, in the stored order. */
  predicate PointsFrom(v: Value, ps: seq<Point>) {
    && v.List?
    && |v.items| == |ps|
    && forall i :: 0 <= i < |ps| ==> PointFrom(v.items[i], ps[i])
  }

  /** A document of three doubles read as `x`, `y`, `z` (a point, or a scale). */
  const XyzShape: Shape :=
    Record([Field("x", Scalar(DoubleKind)), Field("y", Scalar(DoubleKind)), Field("z", Scalar(DoubleKind))])

  /** A colour document; its channels are read in the order a, r, g, b. */
  const ColorShape: Shape :=
    Record([Field("a", Scalar(DoubleKind)), Field("r", Scalar(DoubleKind)),
            Field("g", Scalar(DoubleKind)), Field("b", Scalar(DoubleKind))])

  /** An orientation document, read in the order w, x, y, z. */
  const QuaternionShape: Shape :=
    Record([Field("w", Scalar(DoubleKind)), Field("x", Scalar(DoubleKind)),
            Field("y", Scalar(DoubleKind)), Field("z", Scalar(DoubleKind))])

  const PoseShape: Shape :=
    Record([Field("orientation", QuaternionShape), Field("position", XyzShape)])

  const HeaderShape: Shape :=
    Record([Field("stamp", Scalar(DateKind)), Field("frame_id", NullableString), Field("seq", Scalar(IntegerKind))])

  /** A marker document, its fields in the order `createMarkerMessage` reads them. */
  const MarkerShape: Shape :=
    Record([
      Field("mesh_use_embedded_materials", Scalar(BooleanKind)),
      Field("scale", XyzShape),
      Field("frame_locked", Scalar(BooleanKind)),
      Field("color", ColorShape),
      Field("text", NullableString),
      Field("pose", PoseShape),
      Field("mesh_resource", NullableString),
      Field("header", HeaderShape),
      Field("colors", ListOf(ColorShape)),
      Field("points", ListOf(XyzShape)),
      Field("action", Scalar(IntegerKind)),
      Field("lifetime", Scalar(DoubleKind)),
      Field("ns", NullableString),
      Field("type", Scalar(IntegerKind)),
      Field("id", Scalar(IntegerKind))])

  /** The marker's fields one by one, in read order. */
  lemma MarkerShapeFields()
    ensures |MarkerShape.fields| == 15
    ensures MarkerShape.fields[0] == Field("mesh_use_embedded_materials", Scalar(BooleanKind))
    ensures MarkerShape.fields[1] == Field("scale", XyzShape)
    ensures MarkerShape.fields[2] == Field("frame_locked", Scalar(BooleanKind))
    ensures MarkerShape.fields[3] == Field("color", ColorShape)
    ensures MarkerShape.fields[4] == Field("text", NullableString)
    ensures MarkerShape.fields[5] == Field("pose", PoseShape)
    ensures MarkerShape.fields[6] == Field("mesh_resource", NullableString)
    ensures MarkerShape.fields[7] == Field("header", HeaderShape)
    ensures MarkerShape.fields[8] == Field("colors", ListOf(ColorShape))
    ensures MarkerShape.fields[9] == Field("points", ListOf(XyzShape))
    ensures MarkerShape.fields[10] == Field("action", Scalar(IntegerKind))
    ensures MarkerShape.fields[11] == Field("lifetime", Scalar(DoubleKind))
    ensures MarkerShape.fields[12] == Field("ns", NullableString)
    ensures MarkerShape.fields[13] == Field("type", Scalar(IntegerKind))
    ensures MarkerShape.fields[14] == Field("id", Scalar(IntegerKind))
  {
  }

  /** A snapshot document: the list of its markers. */
  const SnapshotShape: Shape :=
    Record([Field("markers", ListOf(MarkerShape))])

  /** The marker fields that must be present: every field but the strings read with `getString`. */
  const RequiredMarkerKeys: set<string> :=
    set i | 0 <= i < |MarkerShape.fields| && MarkerShape.fields[i].shape != NullableString :: MarkerShape.fields[i].key

  /** The marker reads each key once. */
  lemma MarkerKeysDistinct()
    ensures forall i, j :: 0 <= i < j < |MarkerShape.fields| ==> MarkerShape.fields[i].key != MarkerShape.fields[j].key
  {
    MarkerShapeFields();
  }

  /** The documents `createMarkerMessage` accepts without throwing. */
  predicate IsMarkerDoc(v: Value) {
    && v.Map?
    && At(v, "mesh_use_embedded_materials").Bool?
    && IsXyzDoc(At(v, "scale"))
    && At(v, "frame_locked").Bool?
    && IsColorDoc(At(v, "color"))
    && IsNullableString(At(v, "text"))
    && IsPoseDoc(At(v, "pose"))
    && IsNullableString(At(v, "mesh_resource"))
    && IsHeaderDoc(At(v, "header"))
    && IsColorList(At(v, "colors"))
    && IsPointList(At(v, "points"))
    && At(v, "action").Int?
    && At(v, "lifetime").Double?
    && IsNullableString(At(v, "ns"))
    && At(v, "type").Int?
    && At(v, "id").Int?
  }

  /** The per-field mapping from a marker document to the marker message. */
  predicate MarkerFrom(conv: Conversions, v: Value, m: Marker) {
    && v.Map?
    && At(v, "mesh_use_embedded_materials") == Bool(m.meshUseEmbeddedMaterials)
    && Vector3From(At(v, "scale"), m.scale)
    && At(v, "frame_locked") == Bool(m.frameLocked)
    && ColorFrom(conv, At(v, "color"), m.color)
    && StringFrom(At(v, "text"), m.text)
    && PoseFrom(At(v, "pose"), m.pose)
    && StringFrom(At(v, "mesh_resource"), m.meshResource)
    && HeaderFrom(conv, At(v, "header"), m.header)
    && ColorsFrom(conv, At(v, "colors"), m.colors)
    && PointsFrom(At(v, "points"), m.points)
    && At(v, "action") == Int(m.action)
    && At(v, "lifetime").Double?
    && m.lifetime == conv.durationOf(At(v, "lifetime").d)
    && StringFrom(At(v, "ns"), m.ns)
    && At(v, "type") == Int(m.markerType)
    && At(v, "id") == Int(m.id)
  }

  /** The snapshot documents `createMarkerArray` accepts without throwing. */
  predicate IsSnapshotDoc(v: Value) {
    && v.Map?
    && At(v, "markers").List?
    && forall i :: 0 <= i < |At(v, "markers").items| ==> IsMarkerDoc(At(v, "markers").items[i])
  }

  /** One marker per stored marker document, in the stored order. */
  predicate MarkersFrom(conv: Conversions, v: Value, ms: seq<Marker>) {
    && v.Map?
    && At(v, "markers").List?
    && |At(v, "markers").items| == |ms|
    && forall i :: 0 <= i < |ms| ==> MarkerFrom(conv, At(v, "markers").items[i], ms[i])
  }

  /** A marker document, checked one field at a time. */
  lemma IsMarkerDocByFields(doc: Document)
    ensures IsMarkerDoc(Map(doc)) <==>
      && Get(doc, "mesh_use_embedded_materials").Bool?
      && IsXyzDoc(Get(doc, "scale"))
      && Get(doc, "frame_locked").Bool?
      && IsColorDoc(Get(doc, "color"))
      && IsNullableString(Get(doc, "text"))
      && IsPoseDoc(Get(doc, "pose"))
      && IsNullableString(Get(doc, "mesh_resource"))
      && IsHeaderDoc(Get(doc, "header"))
      && IsColorList(Get(doc, "colors"))
      && IsPointList(Get(doc, "points"))
      && Get(doc, "action").Int?
      && Get(doc, "lifetime").Double?
      && IsNullableString(Get(doc, "ns"))
      && Get(doc, "type").Int?
      && Get(doc, "id").Int?
  {
  }

  /** The per-field mapping, established one field at a time. */
  lemma MarkerFromByFields(conv: Conversions, doc: Document, m: Marker)
    requires Get(doc, "mesh_use_embedded_materials") == Bool(m.meshUseEmbeddedMaterials)
    requires Vector3From(Get(doc, "scale"), m.scale)
    requires Get(doc, "frame_locked") == Bool(m.frameLocked)
    requires ColorFrom(conv, Get(doc, "color"), m.color)
    requires StringFrom(Get(doc, "text"), m.text)
    requires PoseFrom(Get(doc, "pose"), m.pose)
    requires StringFrom(Get(doc, "mesh_resource"), m.meshResource)
    requires HeaderFrom(conv, Get(doc, "header"), m.header)
    requires ColorsFrom(conv, Get(doc, "colors"), m.colors)
    requires PointsFrom(Get(doc, "points"), m.points)
    requires Get(doc, "action") == Int(m.action)
    requires Get(doc, "lifetime").Double? && m.lifetime == conv.durationOf(Get(doc, "lifetime").d)
    requires StringFrom(Get(doc, "ns"), m.ns)
    requires Get(doc, "type") == Int(m.markerType)
    requires Get(doc, "id") == Int(m.id)
    ensures MarkerFrom(conv, Map(doc), m)
  {
  }
}
