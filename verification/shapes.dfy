/**
 What a reader expects to find in a value, written as a grammar, and the
 error a reader that stops at its first exception reports against it. This
 is the reference for error reporting: a record is read field by field in the
 listed order, a list element by element, and the first defect met is the one
 reported, re-rooted at its path.
 */
module Shapes {
  import opened Bson
  import opened Extract

  datatype Shape =
    | Scalar(kind: Kind)
    | NullableString
    | Record(fields: seq<Field>)
    | ListOf(item: Shape)

  /** One field of a record: its key and the shape of its value. */
  datatype Field = Field(key: string, shape: Shape)

  /** The first defect of `v` against `s`; `None` when `v` has the shape. */
  function ShapeError(s: Shape, v: Value): Option<Error>
    decreases s, 1
  {
    match s
    case Scalar(k) => if HasKind(v, k) then None else Some(CastError(v, k))
    case NullableString => if v == Null || v.Str? then None else Some(CastError(v, StringKind))
    case Record(_) => if v.Map? then FieldsError(s, v.fields, 0) else Some(CastError(v, DocumentKind))
    case ListOf(_) => if v.List? then ItemsError(s, v.items, 0) else Some(CastError(v, ListKind))
  }

  /** The first defect among the fields of `doc` that the record `s` lists from position `i` on. */
  function FieldsError(s: Shape, doc: Document, i: nat): Option<Error>
    requires s.Record? && i <= |s.fields|
    decreases s, 0, |s.fields| - i
  {
    if i == |s.fields| then None
    else
      var f := s.fields[i];
      match ShapeError(f.shape, Get(doc, f.key))
      case Some(e) => Some(Prefixed(Key(f.key), e))
      case None => FieldsError(s, doc, i + 1)
  }

  /** The first defect among `items` from position `i` on, against the element shape of the list `s`. */
  function ItemsError(s: Shape, items: seq<Value>, i: nat): Option<Error>
    requires s.ListOf? && i <= |items|
    decreases s, 0, |items| - i
  {
    if i == |items| then None
    else
      match ShapeError(s.item, items[i])
      case Some(e) => Some(Prefixed(Index(i), e))
      case None => ItemsError(s, items, i + 1)
  }

  /** Every defect `ShapeError` reports is genuine: its path leads to a null, or to a value of the wrong type. */
  lemma ShapeErrorGenuine(s: Shape, v: Value)
    ensures ShapeError(s, v).Some? ==> Genuine(v, ShapeError(s, v).value)
    decreases s, 1
  {
    match s
    case Record(_) =>
      if v.Map? {
        FieldsErrorGenuine(s, v.fields, 0);
      }
    case ListOf(_) =>
      if v.List? {
        ItemsErrorGenuine(s, v.items, 0);
      }
    case _ =>
  }

  lemma FieldsErrorGenuine(s: Shape, doc: Document, i: nat)
    requires s.Record? && i <= |s.fields|
    ensures FieldsError(s, doc, i).Some? ==> Genuine(Map(doc), FieldsError(s, doc, i).value)
    decreases s, 0, |s.fields| - i
  {
    if i < |s.fields| {
      var f := s.fields[i];
      ShapeErrorGenuine(f.shape, Get(doc, f.key));
      FieldsErrorGenuine(s, doc, i + 1);
      if ShapeError(f.shape, Get(doc, f.key)).Some? {
        GenuinePrefixed(Map(doc), Key(f.key), ShapeError(f.shape, Get(doc, f.key)).value);
      }
    }
  }

  lemma ItemsErrorGenuine(s: Shape, items: seq<Value>, i: nat)
    requires s.ListOf? && i <= |items|
    ensures ItemsError(s, items, i).Some? ==> Genuine(List(items), ItemsError(s, items, i).value)
    decreases s, 0, |items| - i
  {
    if i < |items| {
      ShapeErrorGenuine(s.item, items[i]);
      ItemsErrorGenuine(s, items, i + 1);
      if ShapeError(s.item, items[i]).Some? {
        GenuinePrefixed(List(items), Index(i), ShapeError(s.item, items[i]).value);
      }
    }
  }

  /** One field of a record, read: either the field fails, or reading goes on with the next. */
  lemma FieldsErrorStep(s: Shape, doc: Document, i: nat)
    requires s.Record? && i < |s.fields|
    ensures ShapeError(s.fields[i].shape, Get(doc, s.fields[i].key)).Some? ==>
      FieldsError(s, doc, i) == Some(Prefixed(Key(s.fields[i].key), ShapeError(s.fields[i].shape, Get(doc, s.fields[i].key)).value))
    ensures ShapeError(s.fields[i].shape, Get(doc, s.fields[i].key)).None? ==> FieldsError(s, doc, i) == FieldsError(s, doc, i + 1)
  {
  }

  /** Reading a list from position `k` on, with element `i` the first defective one, reports element `i`'s defect. */
  lemma {:induction false} ItemsErrorFindsFirst(s: Shape, items: seq<Value>, k: nat, i: nat)
    requires s.ListOf? && k <= i < |items|
    requires forall j :: k <= j < i ==> ShapeError(s.item, items[j]).None?
    requires ShapeError(s.item, items[i]).Some?
    ensures ItemsError(s, items, k) == Some(Prefixed(Index(i), ShapeError(s.item, items[i]).value))
    decreases i - k
  {
    if k < i {
      ItemsErrorFindsFirst(s, items, k + 1, i);
    }
  }

  /** A list whose elements from position `k` on all have the element shape has no defect there. */
  lemma {:induction false} ItemsErrorNone(s: Shape, items: seq<Value>, k: nat)
    requires s.ListOf? && k <= |items|
    requires forall j :: k <= j < |items| ==> ShapeError(s.item, items[j]).None?
    ensures ItemsError(s, items, k) == None
    decreases |items| - k
  {
    if k < |items| {
      ItemsErrorNone(s, items, k + 1);
    }
  }

  /** A record has no defect from position `k` on exactly when every field it lists from `k` on has its shape. */
  lemma {:induction false} FieldsErrorNone(s: Shape, doc: Document, k: nat)
    requires s.Record? && k <= |s.fields|
    ensures FieldsError(s, doc, k) == None <==>
      forall j :: k <= j < |s.fields| ==> ShapeError(s.fields[j].shape, Get(doc, s.fields[j].key)).None?
    decreases |s.fields| - k
  {
    if k < |s.fields| {
      FieldsErrorNone(s, doc, k + 1);
    }
  }

  /** Reading a record from position `k` on, with field `i` the first defective one, reports field `i`'s defect. */
  lemma {:induction false} FieldsErrorFindsFirst(s: Shape, doc: Document, k: nat, i: nat)
    requires s.Record? && k <= i < |s.fields|
    requires forall j :: k <= j < i ==> ShapeError(s.fields[j].shape, Get(doc, s.fields[j].key)).None?
    requires ShapeError(s.fields[i].shape, Get(doc, s.fields[i].key)).Some?
    ensures FieldsError(s, doc, k) == Some(Prefixed(Key(s.fields[i].key), ShapeError(s.fields[i].shape, Get(doc, s.fields[i].key)).value))
    decreases i - k
  {
    if k < i {
      FieldsErrorFindsFirst(s, doc, k + 1, i);
    }
  }

  /**
   A record without defect, changed only under the key of field `i` (which no
   earlier field shares) so that this field becomes defective, reports exactly
   that field's defect: the other fields read as before.
   */
  lemma FieldsErrorSoleDefect(s: Shape, doc: Document, doc': Document, i: nat)
    requires s.Record? && i < |s.fields|
    requires FieldsError(s, doc, 0) == None
    requires forall j :: 0 <= j < i ==> s.fields[j].key != s.fields[i].key
    requires forall k :: k != s.fields[i].key ==> Get(doc', k) == Get(doc, k)
    requires ShapeError(s.fields[i].shape, Get(doc', s.fields[i].key)).Some?
    ensures FieldsError(s, doc', 0)
         == Some(Prefixed(Key(s.fields[i].key), ShapeError(s.fields[i].shape, Get(doc', s.fields[i].key)).value))
  {
    FieldsErrorNone(s, doc, 0);
    forall j | 0 <= j < i
      ensures ShapeError(s.fields[j].shape, Get(doc', s.fields[j].key)).None?
    {
      assert Get(doc', s.fields[j].key) == Get(doc, s.fields[j].key);
    }
    FieldsErrorFindsFirst(s, doc', 0, i);
  }

  /** The kind a value must have at the top to match `s`. */
  function OuterKind(s: Shape): Kind {
    match s
    case Scalar(k) => k
    case NullableString => StringKind
    case Record(_) => DocumentKind
    case ListOf(_) => ListKind
  }

  /**
   A defect at the top of the value: a null is missing wherever a value is
   needed (it is accepted only as a nullable string), and a non-null value of
   the wrong kind is reported as not having the kind `s` needs.
   */
  lemma RootDefect(s: Shape, v: Value)
    ensures v == Null ==> ShapeError(s, v) == (if s.NullableString? then None else Some(Error([], Missing)))
    ensures v != Null && !HasKind(v, OuterKind(s)) ==> ShapeError(s, v) == Some(Error([], WrongType(OuterKind(s))))
  {
  }

  /**
   A list field read with an element decoder that reports the first defect
   against `s.item` reports the first defect against the list shape `s`: a
   cast failure when the value is no list, else the first defective element's
   defect under its position.
   */
  lemma AsListOfReportsFirstDefect<T>(s: Shape, v: Value, decode: Value -> Result<T>)
    requires s.ListOf?
    requires v.List? ==> forall i :: 0 <= i < |v.items| ==> ErrorOf(decode(v.items[i])) == ShapeError(s.item, v.items[i])
    ensures ErrorOf(AsListOf(v, decode)) == ShapeError(s, v)
  {
    if v.List? {
      var items := v.items;
      DecodeListFailure(items, decode);
      if DecodeList(items, decode).Err? {
        var i :| FailsFirstAt(items, decode, i) && DecodeList(items, decode).error == Prefixed(Index(i), decode(items[i]).error);
        ItemsErrorFindsFirst(s, items, 0, i);
      } else {
        ItemsErrorNone(s, items, 0);
      }
    }
  }

  /**
   Reads field `i` of the record `s` (whose key is `key`) from `doc` with
   `decode`, a reader that reports the first defect against the field's shape.
   The read fails exactly with the first defect of the fields from `i` on when
   field `i` is defective; when it succeeds, the first defect lies further on.
   */
  function ReadField<T>(s: Shape, i: nat, key: string, doc: Document, decode: Value -> Result<T>): (r: Result<T>)
    requires s.Record? && i < |s.fields| && s.fields[i].key == key
    requires ErrorOf(decode(Get(doc, key))) == ShapeError(s.fields[i].shape, Get(doc, key))
    ensures r.Ok? <==> decode(Get(doc, key)).Ok?
    ensures r.Ok? ==> r.value == decode(Get(doc, key)).value && FieldsError(s, doc, i) == FieldsError(s, doc, i + 1)
    ensures r.Err? ==> FieldsError(s, doc, i) == Some(r.error)
  {
    FieldsErrorStep(s, doc, i);
    Within(Key(key), decode(Get(doc, key)))
  }
}
