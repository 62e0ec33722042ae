/**
 The inverse direction for the two sub-transcoders: the canonical document
 that stores a point or a colour, and lists of them. Decoding such a document
 gives back the point unchanged, and the colour with each channel narrowed;
 decoding a list gives back one element per stored element, in order.
 */
module RoundTrip {
  import opened Bson
  import opened Extract
  import opened RosMsgs
  import opened MarkerSchema
  import opened Talker
  import opened TalkerProperties

  /** A colour as stored: four doubles, not yet narrowed. */
  datatype StoredColor = StoredColor(r: F64, g: F64, b: F64, a: F64)

  function EncodePoint(p: Point): Value {
    Map(map["x" := Double(p.x), "y" := Double(p.y), "z" := Double(p.z)])
  }

  function EncodeColor(c: StoredColor): Value {
    Map(map["r" := Double(c.r), "g" := Double(c.g), "b" := Double(c.b), "a" := Double(c.a)])
  }

  function EncodePoints(ps: seq<Point>): Value {
    List(seq(|ps|, i requires 0 <= i < |ps| => EncodePoint(ps[i])))
  }

  function EncodeColors(cs: seq<StoredColor>): Value {
    List(seq(|cs|, i requires 0 <= i < |cs| => EncodeColor(cs[i])))
  }

  /** The colour message a stored colour stands for. */
  function NarrowColor(conv: Conversions, c: StoredColor): ColorRGBA {
    ColorRGBA(conv.narrow(c.r), conv.narrow(c.g), conv.narrow(c.b), conv.narrow(c.a))
  }

  lemma TransformPointRoundTrip(p: Point)
    ensures TransformPoint(EncodePoint(p)) == Ok(p)
  {
    assert PointFrom(EncodePoint(p), p);
  }

  lemma TransformColorRoundTrip(conv: Conversions, c: StoredColor)
    ensures TransformColor(conv, EncodeColor(c)) == Ok(NarrowColor(conv, c))
  {
    assert IsColorDoc(EncodeColor(c));
  }

  /** A stored point list decodes to the same points, same length, same order. */
  lemma DecodePointsRoundTrip(ps: seq<Point>)
    ensures DecodePoints(EncodePoints(ps)) == Ok(ps)
  {
    var v := EncodePoints(ps);
    forall i | 0 <= i < |ps|
      ensures PointFrom(v.items[i], ps[i])
    {
      TransformPointRoundTrip(ps[i]);
    }
    assert IsPointList(v);
    PointsFromDeterministic(v, DecodePoints(v).value, ps);
  }

  /** A stored colour list decodes to the narrowed colours, same length, same order. */
  lemma DecodeColorsRoundTrip(conv: Conversions, cs: seq<StoredColor>)
    ensures DecodeColors(conv, EncodeColors(cs)) == Ok(seq(|cs|, i requires 0 <= i < |cs| => NarrowColor(conv, cs[i])))
  {
    var v := EncodeColors(cs);
    var expected := seq(|cs|, i requires 0 <= i < |cs| => NarrowColor(conv, cs[i]));
    forall i | 0 <= i < |cs|
      ensures ColorFrom(conv, v.items[i], expected[i])
    {
      TransformColorRoundTrip(conv, cs[i]);
    }
    assert IsColorList(v);
    ColorsFromDeterministic(conv, v, DecodeColors(conv, v).value, expected);
  }
}
