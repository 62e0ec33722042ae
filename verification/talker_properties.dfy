/**
 Properties of the marker transcoder that relate several calls or several
 inputs: the per-field mapping admits one message per document, so the
 transcoder builds exactly the message the mapping prescribes; one failing
 marker makes the whole array fail with that marker's error; a document the
 transcoder accepts, changed in one field only, is rejected with that
 field's own defect (missing, or of the wrong type) or, for a string field
 that is removed, still accepted with the string null.
 */
module TalkerProperties {
  import opened Bson
  import opened Extract
  import opened RosMsgs
  import opened MarkerSchema
  import opened Talker
  import opened Shapes

  /** At most one colour list satisfies the mapping of a `colors` list. */
  lemma {:induction false} ColorsFromDeterministic(conv: Conversions, v: Value, cs1: seq<ColorRGBA>, cs2: seq<ColorRGBA>)
    requires ColorsFrom(conv, v, cs1) && ColorsFrom(conv, v, cs2)
    ensures cs1 == cs2
  {
    forall i | 0 <= i < |cs1|
      ensures cs1[i] == cs2[i]
    {
      assert ColorFrom(conv, v.items[i], cs1[i]) && ColorFrom(conv, v.items[i], cs2[i]);
    }
  }

  /** At most one point list satisfies the mapping of a `points` list. */
  lemma {:induction false} PointsFromDeterministic(v: Value, ps1: seq<Point>, ps2: seq<Point>)
    requires PointsFrom(v, ps1) && PointsFrom(v, ps2)
    ensures ps1 == ps2
  {
    forall i | 0 <= i < |ps1|
      ensures ps1[i] == ps2[i]
    {
      assert PointFrom(v.items[i], ps1[i]) && PointFrom(v.items[i], ps2[i]);
    }
  }

  /** At most one marker satisfies the per-field mapping of a document. */
  lemma MarkerFromDeterministic(conv: Conversions, v: Value, m1: Marker, m2: Marker)
    requires MarkerFrom(conv, v, m1) && MarkerFrom(conv, v, m2)
    ensures m1 == m2
  {
    ColorsFromDeterministic(conv, At(v, "colors"), m1.colors, m2.colors);
    PointsFromDeterministic(At(v, "points"), m1.points, m2.points);
    assert m1.scale == m2.scale;
    assert m1.color == m2.color;
    assert m1.pose == m2.pose;
    assert m1.header == m2.header;
    assert m1.text == m2.text && m1.meshResource == m2.meshResource && m1.ns == m2.ns;
  }

  /** Completeness: whenever the per-field mapping relates a document to a
      marker, the transcoder accepts the document and builds that marker. */
  lemma CreateMarkerComplete(conv: Conversions, v: Value, m: Marker)
    requires MarkerFrom(conv, v, m)
    ensures CreateMarker(conv, v) == Ok(m)
  {
    assert IsMarkerDoc(v);
    MarkerFromDeterministic(conv, v, CreateMarker(conv, v).value, m);
  }

  /** At most one marker list satisfies the mapping of a snapshot document. */
  lemma {:induction false} MarkersFromDeterministic(conv: Conversions, v: Value, ms1: seq<Marker>, ms2: seq<Marker>)
    requires MarkersFrom(conv, v, ms1) && MarkersFrom(conv, v, ms2)
    ensures ms1 == ms2
  {
    var items := At(v, "markers").items;
    forall i | 0 <= i < |ms1|
      ensures ms1[i] == ms2[i]
    {
      MarkerFromDeterministic(conv, items[i], ms1[i], ms2[i]);
    }
  }

  /** Completeness for a whole snapshot: one marker per stored marker, in order. */
  lemma CreateMarkerArrayComplete(conv: Conversions, v: Value, ms: seq<Marker>)
    requires MarkersFrom(conv, v, ms)
    ensures CreateMarkerArray(conv, v) == Ok(ms)
  {
    var items := At(v, "markers").items;
    forall i | 0 <= i < |items|
      ensures IsMarkerDoc(items[i])
    {
      CreateMarkerComplete(conv, items[i], ms[i]);
    }
    assert IsSnapshotDoc(v);
    MarkersFromDeterministic(conv, v, CreateMarkerArray(conv, v).value, ms);
  }

  /**
   All or nothing: when marker `i` is the first stored marker that cannot be
   transcoded, the whole array fails, and with that marker's own error, re-rooted
   at `markers`, position `i`. No marker list, partial or not, comes out.
   */
  lemma CreateMarkerArrayFailsAtFirstBadMarker(conv: Conversions, v: Value, i: nat)
    requires v.Map? && At(v, "markers").List?
    requires i < |At(v, "markers").items|
    requires CreateMarker(conv, At(v, "markers").items[i]).Err?
    requires forall j :: 0 <= j < i ==> CreateMarker(conv, At(v, "markers").items[j]).Ok?
    ensures CreateMarkerArray(conv, v)
         == Err(Prefixed(Key("markers"), Prefixed(Index(i), CreateMarker(conv, At(v, "markers").items[i]).error)))
  {
    var items := At(v, "markers").items;
    var decode := MarkerDecoder(conv);
    DecodeListFailure(items, decode);
    assert decode(items[i]).Err?;
  }

  /**
   A required field that is absent (or null) makes the transcoder fail, and
   the error it reports points at a real defect of the document.
   */
  lemma CreateMarkerRejectsAbsentRequiredField(conv: Conversions, v: Value, key: string)
    requires v.Map? && key in RequiredMarkerKeys && At(v, key) == Null
    ensures CreateMarker(conv, v).Err?
    ensures Genuine(v, CreateMarker(conv, v).error)
  {
    assert !IsMarkerDoc(v);
  }

  /** A marker document the transcoder accepts has no defect against the marker shape. */
  lemma MarkerDocHasNoDefect(conv: Conversions, doc: Document)
    requires IsMarkerDoc(Map(doc))
    ensures FieldsError(MarkerShape, doc, 0) == None
  {
    assert CreateMarker(conv, Map(doc)).Ok?;
  }

  /**
   A marker document the transcoder accepts, changed only under the key of
   field `i` so that this field becomes defective, is rejected with exactly
   that field's defect, under that field's key: every other field still reads.
   */
  lemma CreateMarkerReportsSoleDefect(conv: Conversions, doc: Document, doc': Document, i: nat)
    requires FieldsError(MarkerShape, doc, 0) == None && i < |MarkerShape.fields|
    requires forall k :: k != MarkerShape.fields[i].key ==> Get(doc', k) == Get(doc, k)
    requires ShapeError(MarkerShape.fields[i].shape, Get(doc', MarkerShape.fields[i].key)).Some?
    ensures CreateMarker(conv, Map(doc'))
         == Err(Prefixed(Key(MarkerShape.fields[i].key), ShapeError(MarkerShape.fields[i].shape, Get(doc', MarkerShape.fields[i].key)).value))
  {
    MarkerKeysDistinct();
    FieldsErrorSoleDefect(MarkerShape, doc, doc', i);
    assert ErrorOf(CreateMarker(conv, Map(doc'))) == FieldsError(MarkerShape, doc', 0);
  }

  /** A marker document without defect, with one required field removed, is rejected as missing that field. */
  lemma ReportsMissingField(conv: Conversions, doc: Document, key: string)
    requires FieldsError(MarkerShape, doc, 0) == None && key in RequiredMarkerKeys
    ensures CreateMarker(conv, Map(doc - {key})) == Err(Error([Key(key)], Missing))
  {
    var i :| 0 <= i < |MarkerShape.fields| && MarkerShape.fields[i].shape != NullableString && MarkerShape.fields[i].key == key;
    RootDefect(MarkerShape.fields[i].shape, Null);
    CreateMarkerReportsSoleDefect(conv, doc, doc - {key}, i);
  }

  /** A marker document the transcoder accepts, with one required field removed, is rejected as missing that field. */
  lemma CreateMarkerReportsMissingField(conv: Conversions, doc: Document, key: string)
    requires IsMarkerDoc(Map(doc)) && key in RequiredMarkerKeys
    ensures CreateMarker(conv, Map(doc - {key})) == Err(Error([Key(key)], Missing))
  {
    MarkerDocHasNoDefect(conv, doc);
    ReportsMissingField(conv, doc, key);
  }

  /** A marker document without defect, with one field's value replaced by a non-null value of the wrong Java type, is rejected with a cast failure of that field. */
  lemma ReportsMistypedField(conv: Conversions, doc: Document, key: string, shape: Shape, w: Value)
    requires FieldsError(MarkerShape, doc, 0) == None && Field(key, shape) in MarkerShape.fields
    requires w != Null && !HasKind(w, OuterKind(shape))
    ensures CreateMarker(conv, Map(doc[key := w])) == Err(Error([Key(key)], WrongType(OuterKind(shape))))
  {
    var i :| 0 <= i < |MarkerShape.fields| && MarkerShape.fields[i] == Field(key, shape);
    RootDefect(shape, w);
    CreateMarkerReportsSoleDefect(conv, doc, doc[key := w], i);
  }

  /**
   A marker document the transcoder accepts, with the value of one field
   replaced by a non-null value of the wrong Java type, is rejected with a
   cast failure of that field.
   */
  lemma CreateMarkerReportsMistypedField(conv: Conversions, doc: Document, key: string, shape: Shape, w: Value)
    requires IsMarkerDoc(Map(doc)) && Field(key, shape) in MarkerShape.fields
    requires w != Null && !HasKind(w, OuterKind(shape))
    ensures CreateMarker(conv, Map(doc[key := w])) == Err(Error([Key(key)], WrongType(OuterKind(shape))))
  {
    MarkerDocHasNoDefect(conv, doc);
    ReportsMistypedField(conv, doc, key, shape, w);
  }

  /** A marker document without defect keeps no defect with one string field removed. */
  lemma AbsentStringIsNoDefect(doc: Document, key: string)
    requires FieldsError(MarkerShape, doc, 0) == None && Field(key, NullableString) in MarkerShape.fields
    ensures FieldsError(MarkerShape, doc - {key}, 0) == None
  {
    var i :| 0 <= i < |MarkerShape.fields| && MarkerShape.fields[i] == Field(key, NullableString);
    MarkerKeysDistinct();
    FieldsErrorNone(MarkerShape, doc, 0);
    FieldsErrorNone(MarkerShape, doc - {key}, 0);
    forall j | 0 <= j < |MarkerShape.fields|
      ensures ShapeError(MarkerShape.fields[j].shape, Get(doc - {key}, MarkerShape.fields[j].key)).None?
    {
      if j != i {
        assert Get(doc - {key}, MarkerShape.fields[j].key) == Get(doc, MarkerShape.fields[j].key);
      }
    }
  }

  /** A marker document the transcoder accepts still reads with one string field removed. */
  lemma CreateMarkerAcceptsAbsentString(conv: Conversions, doc: Document, key: string)
    requires IsMarkerDoc(Map(doc)) && Field(key, NullableString) in MarkerShape.fields
    ensures CreateMarker(conv, Map(doc - {key})).Ok?
  {
    MarkerDocHasNoDefect(conv, doc);
    AbsentStringIsNoDefect(doc, key);
    assert ErrorOf(CreateMarker(conv, Map(doc - {key}))) == None;
  }

  /** A pose record without its orientation: the first read of the pose block of `createMarkerMessage` (Talker.java:122) finds it missing. */
  lemma PoseWithoutOrientation(pose: Document)
    ensures ShapeError(PoseShape, Map(pose - {"orientation"})) == Some(Error([Key("orientation")], Missing))
  {
    var pose' := pose - {"orientation"};
    assert PoseShape.fields[0] == Field("orientation", QuaternionShape);
    assert Get(pose', "orientation") == Null;
    FieldsErrorStep(PoseShape, pose', 0);
    assert [Key("orientation")] + [] == [Key("orientation")];
  }

  /**
   A defect nested one record deeper is reported at its full path: a marker
   whose pose lacks its orientation is rejected as missing
   `pose.orientation`, the first field the pose block of `createMarkerMessage`
   reads (Talker.java:122).
   */
  lemma CreateMarkerReportsMissingOrientation(conv: Conversions, doc: Document)
    requires IsMarkerDoc(Map(doc))
    ensures CreateMarker(conv, Map(doc["pose" := Map(Get(doc, "pose").fields - {"orientation"})]))
         == Err(Error([Key("pose"), Key("orientation")], Missing))
  {
    var pose := Get(doc, "pose").fields;
    PoseWithoutOrientation(pose);
    MarkerShapeFields();
    MarkerDocHasNoDefect(conv, doc);
    CreateMarkerReportsSoleDefect(conv, doc, doc["pose" := Map(pose - {"orientation"})], 5);
  }

  /**
   A string field read with `getString` is null in the message exactly when
   it is absent (or null) in the document; the transcoder accepts both.
   */
  lemma AbsentStringsAreNull(conv: Conversions, v: Value)
    requires CreateMarker(conv, v).Ok?
    ensures CreateMarker(conv, v).value.text == None <==> At(v, "text") == Null
    ensures CreateMarker(conv, v).value.meshResource == None <==> At(v, "mesh_resource") == Null
    ensures CreateMarker(conv, v).value.ns == None <==> At(v, "ns") == Null
    ensures CreateMarker(conv, v).value.header.frameId == None <==> At(At(v, "header"), "frame_id") == Null
  {
  }
}
