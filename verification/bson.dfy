/**
 The schema-less input of the marker transcoder: a BSON document as the
 MongoDB Java driver hands it over (`org.bson.Document`), that is nested maps,
 lists and scalars. Floating-point payloads are kept as opaque bit patterns:
 the transcoder only copies them or hands them to a library conversion.
 */
module Bson {

  /** A Java `double`, as its IEEE-754 bit pattern. */
  datatype F64 = F64(bits: bv64)

  /** A Java `int` (a BSON int32). */
  newtype int32 = x: int | -0x8000_0000 <= x < 0x8000_0000

  /** A Java `long` (the milliseconds held by a `java.util.Date`). */
  newtype int64 = x: int | -0x8000_0000_0000_0000 <= x < 0x8000_0000_0000_0000

  /** One decoded BSON value. `Null` is both a stored null and Java's `null`. */
  datatype Value =
    | Null
    | Double(d: F64)
    | Int(i: int32)
    | Bool(b: bool)
    | Str(s: string)
    | Date(millis: int64)
    | List(items: seq<Value>)
    | Map(fields: Document)

  type Document = map<string, Value>

  /** A value that may be absent: what a Java reference that may be `null` holds. */
  datatype Option<+T> = None | Some(value: T)

  /** `Document.get`: the value under `key`, and `null` when there is none. */
  function Get(doc: Document, key: string): Value {
    if key in doc then doc[key] else Null
  }

  /** The Java types the transcoder casts values to. */
  datatype Kind = DocumentKind | ListKind | DoubleKind | IntegerKind | BooleanKind | DateKind | StringKind

  /** Whether a non-null value passes the cast to the Java type `k`. */
  predicate HasKind(v: Value, k: Kind) {
    match k
    case DocumentKind => v.Map?
    case ListKind => v.List?
    case DoubleKind => v.Double?
    case IntegerKind => v.Int?
    case BooleanKind => v.Bool?
    case DateKind => v.Date?
    case StringKind => v.Str?
  }

  /** The value under `key` when `v` is a document, else `Null`. */
  function At(v: Value, key: string): Value {
    if v.Map? then Get(v.fields, key) else Null
  }

  /** One step into a nested value: a document key or a list position. */
  datatype Step = Key(name: string) | Index(i: nat)

  /** The value one step below `v`; `Null` where the step leads nowhere. */
  function Child(v: Value, s: Step): Value {
    match s
    case Key(k) => At(v, k)
    case Index(i) => if v.List? && i < |v.items| then v.items[i] else Null
  }

  /** The value found by following `path` (outermost step first) from `v`. */
  function Lookup(v: Value, path: seq<Step>): Value
    decreases |path|
  {
    if path == [] then v else Lookup(Child(v, path[0]), path[1..])
  }
}
