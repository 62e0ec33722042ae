/**
 Typed extraction from a BSON value. The transcoder reads every field with an
 unguarded cast (`(Boolean) doc.get(k)`, `doc.getDouble(k)`, ...) and uses it
 at once, so a field either has the Java type it is cast to, or the read dies
 with a `NullPointerException` (absent or null) or a `ClassCastException`
 (another type). Each read here returns a `Result` instead, whose error names
 the fault and the path from the value being decoded to the offending field.
 */
module Extract {
  import opened Bson

  /** `Missing`: the value is absent or null, so unboxing or dereferencing it
      throws; `WrongType`: the cast to `expected` throws. */
  datatype Fault = Missing | WrongType(expected: Kind)

  /** A failed extraction: where (outermost step first) and why. */
  datatype Error = Error(path: seq<Step>, fault: Fault)

  datatype Result<+T> = Ok(value: T) | Err(error: Error) {
    predicate IsFailure() {
      Err?
    }

    function PropagateFailure<U>(): Result<U>
      requires Err?
    {
      Err(error)
    }

    function Extract(): T
      requires Ok?
    {
      value
    }
  }

  /** The error of `r`, if it has one. */
  function ErrorOf<T>(r: Result<T>): Option<Error> {
    if r.Ok? then None else Some(r.error)
  }

  /** An error reports a real defect of `v`: following its path from `v`
      reaches a null where a value is needed, or a value of the wrong type. */
  predicate Genuine(v: Value, e: Error) {
    var found := Lookup(v, e.path);
    match e.fault
    case Missing => found == Null
    case WrongType(k) => found != Null && !HasKind(found, k)
  }

  /** The error `e`, found below `step`, seen from the enclosing value. */
  function Prefixed(step: Step, e: Error): Error {
    Error([step] + e.path, e.fault)
  }

  /** An error found one `step` below `v` is genuine for `v` exactly when it is genuine for that child. */
  lemma GenuinePrefixed(v: Value, step: Step, e: Error)
    ensures Genuine(v, Prefixed(step, e)) <==> Genuine(Child(v, step), e)
  {
    assert ([step] + e.path)[1..] == e.path;
  }

  /** Re-roots the error of a read made one `step` below the current value. */
  function Within<T>(step: Step, r: Result<T>): Result<T> {
    match r
    case Ok(_) => r
    case Err(e) => Err(Prefixed(step, e))
  }

  /** The exception thrown by casting the value `v`, which is not of kind `k`, and using it. */
  function CastError(v: Value, k: Kind): Error {
    Error([], if v == Null then Missing else WrongType(k))
  }

  /** `(Document) v`, followed by a dereference. */
  function AsDocument(v: Value): (r: Result<Document>)
    ensures r.Ok? <==> v.Map?
    ensures r.Ok? ==> v == Map(r.value)
    ensures r.Err? ==> Genuine(v, r.error)
    ensures r.Err? ==> r.error == Error([], if v == Null then Missing else WrongType(DocumentKind))
  {
    if v.Map? then Ok(v.fields) else Err(CastError(v, DocumentKind))
  }

  /** `(ArrayList<Document>) v`, followed by iteration. */
  function AsList(v: Value): (r: Result<seq<Value>>)
    ensures r.Ok? <==> v.List?
    ensures r.Ok? ==> v == List(r.value)
    ensures r.Err? ==> Genuine(v, r.error)
    ensures r.Err? ==> r.error == Error([], if v == Null then Missing else WrongType(ListKind))
  {
    if v.List? then Ok(v.items) else Err(CastError(v, ListKind))
  }

  /** `(Double) v` unboxed to a `double`. */
  function AsDouble(v: Value): (r: Result<F64>)
    ensures r.Ok? <==> v.Double?
    ensures r.Ok? ==> v == Double(r.value)
    ensures r.Err? ==> Genuine(v, r.error)
    ensures r.Err? ==> r.error == Error([], if v == Null then Missing else WrongType(DoubleKind))
  {
    if v.Double? then Ok(v.d) else Err(CastError(v, DoubleKind))
  }

  /** `(Integer) v` unboxed to an `int`. */
  function AsInteger(v: Value): (r: Result<int32>)
    ensures r.Ok? <==> v.Int?
    ensures r.Ok? ==> v == Int(r.value)
    ensures r.Err? ==> Genuine(v, r.error)
    ensures r.Err? ==> r.error == Error([], if v == Null then Missing else WrongType(IntegerKind))
  {
    if v.Int? then Ok(v.i) else Err(CastError(v, IntegerKind))
  }

  /** `(Boolean) v` unboxed to a `boolean`. */
  function AsBoolean(v: Value): (r: Result<bool>)
    ensures r.Ok? <==> v.Bool?
    ensures r.Ok? ==> v == Bool(r.value)
    ensures r.Err? ==> Genuine(v, r.error)
    ensures r.Err? ==> r.error == Error([], if v == Null then Missing else WrongType(BooleanKind))
  {
    if v.Bool? then Ok(v.b) else Err(CastError(v, BooleanKind))
  }

  /** `(Date) v`, followed by `getTime()`. */
  function AsDate(v: Value): (r: Result<int64>)
    ensures r.Ok? <==> v.Date?
    ensures r.Ok? ==> v == Date(r.value)
    ensures r.Err? ==> Genuine(v, r.error)
    ensures r.Err? ==> r.error == Error([], if v == Null then Missing else WrongType(DateKind))
  {
    if v.Date? then Ok(v.millis) else Err(CastError(v, DateKind))
  }

  /** `(String) v`, passed on as is: a null string is a value (`None`), not a failure. */
  function AsString(v: Value): (r: Result<Option<string>>)
    ensures r.Ok? <==> (v == Null || v.Str?)
    ensures r == Ok(None) <==> v == Null
    ensures v.Str? ==> r == Ok(Some(v.s))
    ensures r.Err? ==> Genuine(v, r.error)
    ensures r.Err? ==> r.error == Error([], WrongType(StringKind))
  {
    match v
    case Null => Ok(None)
    case Str(s) => Ok(Some(s))
    case _ => Err(CastError(v, StringKind))
  }

  /** `doc.getDouble(key)` unboxed to a `double`. */
  function GetDouble(doc: Document, key: string): (r: Result<F64>)
    ensures r.Ok? <==> Get(doc, key).Double?
    ensures r.Ok? ==> Get(doc, key) == Double(r.value)
    ensures r.Err? ==> Genuine(Map(doc), r.error)
    ensures r.Err? ==> r.error == Error([Key(key)], if Get(doc, key) == Null then Missing else WrongType(DoubleKind))
  {
    Within(Key(key), AsDouble(Get(doc, key)))
  }

  /** `doc.getInteger(key)` unboxed to an `int`. */
  function GetInteger(doc: Document, key: string): (r: Result<int32>)
    ensures r.Ok? <==> Get(doc, key).Int?
    ensures r.Ok? ==> Get(doc, key) == Int(r.value)
    ensures r.Err? ==> Genuine(Map(doc), r.error)
    ensures r.Err? ==> r.error == Error([Key(key)], if Get(doc, key) == Null then Missing else WrongType(IntegerKind))
  {
    Within(Key(key), AsInteger(Get(doc, key)))
  }

  /** `(Date) doc.get(key)`, followed by `getTime()`. */
  function GetDate(doc: Document, key: string): (r: Result<int64>)
    ensures r.Ok? <==> Get(doc, key).Date?
    ensures r.Ok? ==> Get(doc, key) == Date(r.value)
    ensures r.Err? ==> Genuine(Map(doc), r.error)
    ensures r.Err? ==> r.error == Error([Key(key)], if Get(doc, key) == Null then Missing else WrongType(DateKind))
  {
    Within(Key(key), AsDate(Get(doc, key)))
  }

  /** `doc.getString(key)`, which may be null. */
  function GetString(doc: Document, key: string): (r: Result<Option<string>>)
    ensures r.Ok? <==> (Get(doc, key) == Null || Get(doc, key).Str?)
    ensures r == Ok(None) <==> Get(doc, key) == Null
    ensures Get(doc, key).Str? ==> r == Ok(Some(Get(doc, key).s))
    ensures r.Err? ==> Genuine(Map(doc), r.error)
    ensures r.Err? ==> r.error == Error([Key(key)], WrongType(StringKind))
  {
    Within(Key(key), AsString(Get(doc, key)))
  }

  /** Element `i` is the first of `items` that `decode` rejects. */
  ghost predicate FailsFirstAt<T>(items: seq<Value>, decode: Value -> Result<T>, i: int) {
    && 0 <= i < |items|
    && decode(items[i]).Err?
    && forall j :: 0 <= j < i ==> decode(items[j]).Ok?
  }

  /** `decode` reports a genuine error for every element of `items` it rejects. */
  ghost predicate ReportsGenuinely<T>(items: seq<Value>, decode: Value -> Result<T>) {
    forall j :: 0 <= j < |items| && decode(items[j]).Err? ==> Genuine(items[j], decode(items[j]).error)
  }

  /**
   The for-each loop that decodes a list element by element into a new list
   and lets the first exception escape: the outcome is the list of decoded
   elements, in order, or the error of the first element that fails.
   */
  function DecodeList<T>(items: seq<Value>, decode: Value -> Result<T>): (r: Result<seq<T>>)
    ensures r.Ok? <==> forall i :: 0 <= i < |items| ==> decode(items[i]).Ok?
    ensures r.Ok? ==> |r.value| == |items|
    ensures r.Ok? ==> forall i :: 0 <= i < |items| ==> decode(items[i]) == Ok(r.value[i])
    decreases |items|
  {
    if |items| == 0 then Ok([])
    else
      var last := |items| - 1;
      var init :- DecodeList(items[..last], decode);
      var x :- Within(Index(last), decode(items[last]));
      Ok(init + [x])
  }

  /**
   When the loop fails, it fails with the error of the FIRST element that
   `decode` rejects, re-rooted at that element's position; and that error is
   genuine for the whole list whenever `decode`'s errors are genuine.
   */
  lemma {:induction false} DecodeListFailure<T>(items: seq<Value>, decode: Value -> Result<T>)
    ensures DecodeList(items, decode).Err? ==>
      exists i :: FailsFirstAt(items, decode, i) && DecodeList(items, decode).error == Prefixed(Index(i), decode(items[i]).error)
    ensures DecodeList(items, decode).Err? && ReportsGenuinely(items, decode) ==> Genuine(List(items), DecodeList(items, decode).error)
    decreases |items|
  {
    if |items| == 0 {
      return;
    }
    var last := |items| - 1;
    var init := items[..last];
    DecodeListFailure(init, decode);
    var r := DecodeList(items, decode);
    if r.Err? {
      var i: int;
      if DecodeList(init, decode).Err? {
        i :| FailsFirstAt(init, decode, i) && DecodeList(init, decode).error == Prefixed(Index(i), decode(init[i]).error);
        assert init[i] == items[i];
        assert forall j :: 0 <= j < i ==> init[j] == items[j];
      } else {
        i := last;
      }
      assert FailsFirstAt(items, decode, i);
      assert r.error == Prefixed(Index(i), decode(items[i]).error);
      if ReportsGenuinely(items, decode) {
        assert Genuine(items[i], decode(items[i]).error);
      }
    }
  }

  /** A list field: the cast to a list, then the element-by-element loop. */
  function AsListOf<T>(v: Value, decode: Value -> Result<T>): (r: Result<seq<T>>)
    ensures r.Ok? <==> v.List? && forall i :: 0 <= i < |v.items| ==> decode(v.items[i]).Ok?
    ensures r.Ok? ==> |r.value| == |v.items| && forall i :: 0 <= i < |v.items| ==> decode(v.items[i]) == Ok(r.value[i])
    ensures r.Err? && (v.List? ==> ReportsGenuinely(v.items, decode)) ==> Genuine(v, r.error)
  {
    var items :- AsList(v);
    DecodeListFailure(items, decode);
    DecodeList(items, decode)
  }

  /** `(Document) doc.get(key)` (or a list) handed to `decode`, with its errors re-rooted at `doc`. */
  function GetNested<T>(doc: Document, key: string, decode: Value -> Result<T>): (r: Result<T>)
    ensures r.Ok? <==> decode(Get(doc, key)).Ok?
    ensures r.Ok? ==> r.value == decode(Get(doc, key)).value
    ensures r.Err? ==> r.error.fault == decode(Get(doc, key)).error.fault
    ensures r.Err? ==> r.error.path == [Key(key)] + decode(Get(doc, key)).error.path
    ensures r.Err? && Genuine(Get(doc, key), decode(Get(doc, key)).error) ==> Genuine(Map(doc), r.error)
  {
    Within(Key(key), decode(Get(doc, key)))
  }
}
