# Costmap marker transcoder, modelled in Dafny

The `costmap_query_publisher` node reads one stored snapshot from MongoDB and
republishes it as a ROS `visualization_msgs/MarkerArray`. This project models
the part of the node that does real work: the transcoder in `Talker.java`
(`createMarkerArray`, `createMarkerMessage`, `transformIntoColorRGBAMsg`,
`transformIntoPointMsg`). It takes a schema-less BSON document, which is a map
of maps, lists and scalars, and builds typed `Marker` messages from it.

Modules (one file each):

- `Bson` (`bson.dfy`): the input. `Value` is a BSON value
  (Null | Double | Int | Bool | Str | Date | List | Map). `Get` is
  `Document.get`: it returns `Null` for an absent key, just as Java returns
  `null`. `Lookup` follows a path of keys and list positions.
- `Extract` (`extract.dfy`): the typed reads, each returning a `Result`.
  Every read in the Java code is an unguarded cast that is used at once.
  - An absent or null value throws a `NullPointerException`. Here that is the
    fault `Missing`.
  - A value of another type throws a `ClassCastException`. Here that is
    `WrongType(expected)`.
  - Each error carries the path from the decoded value to the bad field.
  - `getString` is the exception: a null string passes through as `None`.
  - `DecodeList` is the for-each loop shared by `markers`, `colors` and
    `points`.
- `RosMsgs` (`ros_msgs.dfy`): the output messages as plain datatypes.
  - `Conversions` holds three library conversions as function values:
    `Double.floatValue()`, `new Time(ms / 1000.0)` and `new Duration(double)`.
  - They stay uninterpreted. The model only states that an output field is
    the conversion applied to the stored value.
  - Doubles and floats are opaque bit patterns.
- `Shapes` (`shapes.dfy`): the reference for error reporting. A `Shape` is
  what a reader expects: a scalar of one kind, a string that may be null, a
  record of fields in read order, or a list of one element shape.
  - `ShapeError` is the first defect of a value against a shape: a record is
    checked field by field in the listed order, a list element by element,
    and the first defect found is reported under its path.
  - `ReadField` reads one field of a record and links the read to
    `ShapeError`.
- `MarkerSchema` (`marker_schema.dfy`): the reference definition, written
  field by field.
  - `Is...Doc` says which documents are accepted.
  - `...From` is the per-field mapping. It says which message each accepted
    document must produce.
  - `...Shape` lists the fields each reader reads, in the order the Java code
    reads them.
- `Talker` (`talker.dfy`): the transcoder. It reads fields in the same order
  as the Java code. `CreateMarker` runs in four stages, each a run of
  consecutive reads of `createMarkerMessage` (lines 108-119, 121-141, 143-159
  and 161-165). Every decoder's contract says
  four things:
  - it succeeds exactly on the documents its schema predicate accepts;
  - what it builds satisfies the per-field mapping;
  - its error is the first defect of the input in read order, that is,
    `ShapeError` of the decoder's shape;
  - that error is genuine: following its path reaches a null, or a value of
    the wrong type.
- `TalkerProperties` (`talker_properties.dfy`): results that relate several
  calls or inputs.
  - The per-field mapping admits one message per document, so the transcoder
    is complete with respect to it.
  - The array is all or nothing.
  - Take a document the transcoder accepts and change one field. Removing a
    required field is reported as that field missing. A value of the wrong
    type is reported as that field's cast failure. Removing a string field
    still reads.
  - Absent string fields become null.
- `RoundTrip` (`round_trip.dfy`): stored points decode back to the same
  points, and stored colours to their narrowed channels; lists keep their
  order and number.

Facts about the code that shape the model:

- `text`, `mesh_resource`, `ns` and `header.frame_id` are read with
  `getString`. It returns null for an absent key, and the code passes that
  null on. Here they are `Option<string>`, and absence is not an error.
- The code stops at the first exception, so the model reports only the first
  failing read.
- `getDouble` and `getInteger` are plain casts. A stored int32 where a double
  is expected is therefore `WrongType`, and so is the reverse; there is no
  widening.
- The colour channels are read in the order a, r, g, b. This matters only for
  which error is reported.

## Model

| member | source | states |
|---|---|---|
| Extract.AsDocument | costmap_query_publisher/src/main/java/com/github/ros_costmap/costmap_query_publisher/Talker.java:110 | `(Document) v` succeeds exactly on a stored document and yields it unchanged. A null or absent value is Missing, and any other value is WrongType(DocumentKind). |
| Extract.AsList | costmap_query_publisher/src/main/java/com/github/ros_costmap/costmap_query_publisher/Talker.java:90 | `(ArrayList<Document>) v`, followed by iteration, succeeds exactly on a stored list and yields its elements unchanged. A null or absent value is Missing, and any other value is WrongType(ListKind). |
| Extract.AsDate | costmap_query_publisher/src/main/java/com/github/ros_costmap/costmap_query_publisher/Talker.java:137-138 | `(Date) v` followed by `getTime()` succeeds exactly on a stored date and yields its epoch milliseconds unchanged. A null or absent value is Missing, and any other value is WrongType(DateKind). |
| Extract.AsDouble | costmap_query_publisher/src/main/java/com/github/ros_costmap/costmap_query_publisher/Talker.java:162 | The `getDouble` cast of a stored value succeeds exactly on a double and yields it unchanged. Null is Missing, and another type is WrongType(DoubleKind). There is no widening from int32. |
| Extract.AsInteger | costmap_query_publisher/src/main/java/com/github/ros_costmap/costmap_query_publisher/Talker.java:161 | The `getInteger` cast of a stored value succeeds exactly on an int32 and yields it unchanged. Null is Missing, and another type is WrongType(IntegerKind). |
| Extract.AsBoolean | costmap_query_publisher/src/main/java/com/github/ros_costmap/costmap_query_publisher/Talker.java:108 | `(Boolean) v` unboxed succeeds exactly on a stored boolean and yields it unchanged. Null is Missing (the unboxing throws), and another type is WrongType(BooleanKind). |
| Extract.AsString | costmap_query_publisher/src/main/java/com/github/ros_costmap/costmap_query_publisher/Talker.java:119 | The cast inside `getString`, used for `text`, `mesh_resource` and `ns`, accepts a string or null. It yields None exactly for null and the stored string otherwise. Any other value is WrongType(StringKind), never Missing. |
| Extract.GetString | costmap_query_publisher/src/main/java/com/github/ros_costmap/costmap_query_publisher/Talker.java:139 | `getString(key)` succeeds exactly when the field is absent, null or a string. It yields None exactly when the field is absent or null. A stored string passes unchanged, and any other value is WrongType(StringKind) at the field's path. |
| Extract.GetDouble | costmap_query_publisher/src/main/java/com/github/ros_costmap/costmap_query_publisher/Talker.java:111-113 | `getDouble` unboxed succeeds exactly when the field holds a double, and yields that double. An absent or null field is Missing and another type is WrongType(DoubleKind), both at the path [key]. |
| Extract.GetInteger | costmap_query_publisher/src/main/java/com/github/ros_costmap/costmap_query_publisher/Talker.java:140 | `getInteger` unboxed succeeds exactly when the field holds an int32, and yields it unchanged. An absent or null field is Missing and another type is WrongType(IntegerKind), both at the path [key]. |
| Extract.GetDate | costmap_query_publisher/src/main/java/com/github/ros_costmap/costmap_query_publisher/Talker.java:137-138 | `(Date) get` followed by `getTime()` succeeds exactly on a stored date, and yields its epoch milliseconds. An absent or null field is Missing and another type is WrongType(DateKind), both at the path [key] (`stamp` in the header). |
| Extract.GetNested | costmap_query_publisher/src/main/java/com/github/ros_costmap/costmap_query_publisher/Talker.java:131 | A nested document field handed to its reader succeeds exactly when the reader succeeds on the stored value, with the reader's result. A failure keeps the reader's fault and puts the field's key in front of its path. |
| Extract.DecodeList | costmap_query_publisher/src/main/java/com/github/ros_costmap/costmap_query_publisher/Talker.java:143-150 | The for-each decoding loop succeeds exactly when every element decodes. Its result has one entry per element, in order, and entry i is element i's decoding. |
| Extract.DecodeListFailure | costmap_query_publisher/src/main/java/com/github/ros_costmap/costmap_query_publisher/Talker.java:93-97 | A failing loop fails with the error of the first element that fails, prefixed by that element's position. This error is genuine for the whole list whenever the element decoder's errors are genuine. |
| Extract.AsListOf | costmap_query_publisher/src/main/java/com/github/ros_costmap/costmap_query_publisher/Talker.java:152-159 | A list field: a value that is not a list fails, otherwise the loop runs. It succeeds exactly on a list of decodable elements and keeps their number and order. |
| Shapes.ShapeErrorGenuine | costmap_query_publisher/src/main/java/com/github/ros_costmap/costmap_query_publisher/Talker.java:108-165 | Every defect the reference reports is genuine: its path leads to a null where a value is needed, or to a non-null value of the wrong type. |
| Shapes.FieldsErrorNone | costmap_query_publisher/src/main/java/com/github/ros_costmap/costmap_query_publisher/Talker.java:108-165 | A record has no defect from a position on exactly when every field it lists from there on has its shape. |
| Shapes.FieldsErrorFindsFirst | costmap_query_publisher/src/main/java/com/github/ros_costmap/costmap_query_publisher/Talker.java:108-165 | When field i is the first defective field from position k on, reading from k reports field i's defect under field i's key. |
| Shapes.FieldsErrorSoleDefect | costmap_query_publisher/src/main/java/com/github/ros_costmap/costmap_query_publisher/Talker.java:108-165 | Take a record without defect and change only the value under field i's key, where no earlier field shares that key. If field i becomes defective, exactly its defect is reported. |
| Shapes.RootDefect | costmap_query_publisher/src/main/java/com/github/ros_costmap/costmap_query_publisher/Talker.java:110 | At the top of a value, a null is Missing unless a null string is allowed. A non-null value of the wrong kind is WrongType of the kind its reader casts to. |
| Shapes.ItemsErrorFindsFirst | costmap_query_publisher/src/main/java/com/github/ros_costmap/costmap_query_publisher/Talker.java:146-148 | When element i is the first defective element from position k on, reading from k reports element i's defect under its position. |
| Shapes.ItemsErrorNone | costmap_query_publisher/src/main/java/com/github/ros_costmap/costmap_query_publisher/Talker.java:146-148 | A list whose elements from position k on all have the element shape has no defect there. |
| Shapes.AsListOfReportsFirstDefect | costmap_query_publisher/src/main/java/com/github/ros_costmap/costmap_query_publisher/Talker.java:146-148 | Take an element reader that reports the first defect against the element shape. The list read then reports the first defect against the list shape: a cast failure when the value is not a list, otherwise the first defective element's defect under its position. |
| Shapes.ReadField | costmap_query_publisher/src/main/java/com/github/ros_costmap/costmap_query_publisher/Talker.java:108-165 | Reads field i of a record with a reader that reports the first defect of the field. On success it yields the reader's value, and the record's first defect lies after field i. On failure its error is exactly the record's first defect from field i on. |
| MarkerSchema.MarkerKeysDistinct | costmap_query_publisher/src/main/java/com/github/ros_costmap/costmap_query_publisher/Talker.java:108-165 | `createMarkerMessage` reads each marker key once: the 15 keys in read order are pairwise distinct. |
| Talker.TransformPoint | costmap_query_publisher/src/main/java/com/github/ros_costmap/costmap_query_publisher/Talker.java:179-187 | Succeeds exactly on a document with double x, y, z, and the point holds those three values unchanged. The error is the first defect in the order x, y, z: the value itself when it is not a document, otherwise the first field that is absent (Missing) or not a double (WrongType), under its key. |
| Talker.TransformColor | costmap_query_publisher/src/main/java/com/github/ros_costmap/costmap_query_publisher/Talker.java:170-177 | Succeeds exactly on a document with double a, r, g, b, and each channel is the narrowing of the stored double. The error is the first defect in the read order a, r, g, b, under its key. |
| Talker.DecodeScale | costmap_query_publisher/src/main/java/com/github/ros_costmap/costmap_query_publisher/Talker.java:110-114 | The scale succeeds exactly on a document with double x, y, z, which it copies unchanged. The error is the first defect in the order x, y, z, under its key. |
| Talker.DecodeOrientation | costmap_query_publisher/src/main/java/com/github/ros_costmap/costmap_query_publisher/Talker.java:122-128 | The orientation succeeds exactly on double w, x, y, z, copied unchanged into the quaternion. The error is the first defect in the order w, x, y, z. |
| Talker.DecodePose | costmap_query_publisher/src/main/java/com/github/ros_costmap/costmap_query_publisher/Talker.java:121-132 | The pose needs nested `orientation` and `position` documents. Orientation is copied, and position follows the point rule. The error is the first defect in the order orientation (w, x, y, z), then position (x, y, z), at its full nested path, such as [orientation, w]. |
| Talker.DecodeHeader | costmap_query_publisher/src/main/java/com/github/ros_costmap/costmap_query_publisher/Talker.java:136-141 | The header needs a date `stamp` and an int32 `seq`, and `frame_id` may be null. The stamp is the time conversion of the date's milliseconds. The error is the first defect in the order stamp, frame_id, seq. |
| Talker.DecodeColors | costmap_query_publisher/src/main/java/com/github/ros_costmap/costmap_query_publisher/Talker.java:143-150 | `colors` must be a list of colour documents. The output keeps their number and order, and each entry follows the single-colour rule. The error is a cast failure of the list, or else the first defective element's first defect under its position. |
| Talker.DecodePoints | costmap_query_publisher/src/main/java/com/github/ros_costmap/costmap_query_publisher/Talker.java:152-159 | `points` must be a list of point documents. The output keeps their number and order, and each point is copied unchanged. The error is a cast failure of the list, or else the first defective element's first defect under its position. |
| Talker.ReadAppearance | costmap_query_publisher/src/main/java/com/github/ros_costmap/costmap_query_publisher/Talker.java:108-119 | The first block reads mesh_use_embedded_materials, scale, frame_locked, color and text. It succeeds exactly when each has its type, and sets exactly these marker fields by the per-field mapping. A failure is the first defect among these fields. On success the marker's first defect lies further on. |
| Talker.ReadPlacement | costmap_query_publisher/src/main/java/com/github/ros_costmap/costmap_query_publisher/Talker.java:121-141 | The second block reads pose, mesh_resource and header. It succeeds exactly when each is well formed, and sets exactly these marker fields by the mapping. A failure is the first defect among them, nested paths included. |
| Talker.ReadGeometry | costmap_query_publisher/src/main/java/com/github/ros_costmap/costmap_query_publisher/Talker.java:143-159 | The third block reads the colors and points lists. It succeeds exactly when both are lists of well-formed elements, and sets exactly these two fields. A failure is the first defect among them. |
| Talker.ReadIdentity | costmap_query_publisher/src/main/java/com/github/ros_costmap/costmap_query_publisher/Talker.java:161-165 | The last block reads action, lifetime, ns, type and id. It succeeds exactly when each has its type, with lifetime converted to a duration, and sets exactly these fields. A failure is the first defect among them. On success the marker has no defect left. |
| Talker.CreateMarker | costmap_query_publisher/src/main/java/com/github/ros_costmap/costmap_query_publisher/Talker.java:100-168 | Succeeds exactly on documents whose every field has the type its read casts to. The marker then satisfies the per-field mapping: flags, integers and strings pass through, the colours are narrowed, and the stamp and lifetime are converted. The error is the first defect in Java's read order, and it is genuine. |
| Talker.CreateMarkerArray | costmap_query_publisher/src/main/java/com/github/ros_costmap/costmap_query_publisher/Talker.java:86-98 | Succeeds exactly when `markers` is a list of acceptable marker documents. The result then has one marker per entry, in order, each following the per-field mapping. The error is a defect of `markers` itself, or else the first failing marker's first defect under `markers`/i. |
| TalkerProperties.MarkerFromDeterministic | costmap_query_publisher/src/main/java/com/github/ros_costmap/costmap_query_publisher/Talker.java:100-168 | The per-field mapping leaves no freedom: two markers that satisfy it for the same document are equal, including their point and colour lists. |
| TalkerProperties.CreateMarkerComplete | costmap_query_publisher/src/main/java/com/github/ros_costmap/costmap_query_publisher/Talker.java:100-168 | Whenever the mapping relates a document to a marker, the transcoder returns exactly that marker. With CreateMarker's contract this is an if-and-only-if. |
| TalkerProperties.CreateMarkerArrayComplete | costmap_query_publisher/src/main/java/com/github/ros_costmap/costmap_query_publisher/Talker.java:90-97 | Whenever each stored marker maps to the marker at the same position, the array transcodes to exactly that list. |
| TalkerProperties.CreateMarkerArrayFailsAtFirstBadMarker | costmap_query_publisher/src/main/java/com/github/ros_costmap/costmap_query_publisher/Talker.java:93-97 | All or nothing: if marker i is the first that fails, the whole array fails. The error is marker i's own error under `markers`/i, and no list is returned. |
| TalkerProperties.CreateMarkerRejectsAbsentRequiredField | costmap_query_publisher/src/main/java/com/github/ros_costmap/costmap_query_publisher/Talker.java:108-165 | A marker that lacks any required field fails, with a genuine error. The required fields are the nested records, the lists, the booleans, the integers and the lifetime. |
| TalkerProperties.MarkerDocHasNoDefect | costmap_query_publisher/src/main/java/com/github/ros_costmap/costmap_query_publisher/Talker.java:100-168 | A marker document the transcoder accepts has no defect against the marker shape. |
| TalkerProperties.CreateMarkerReportsSoleDefect | costmap_query_publisher/src/main/java/com/github/ros_costmap/costmap_query_publisher/Talker.java:108-165 | Take a document without defect and change only the value under one marker key. If that field becomes defective, the marker is rejected with exactly that field's defect under its key. |
| TalkerProperties.ReportsMissingField | costmap_query_publisher/src/main/java/com/github/ros_costmap/costmap_query_publisher/Talker.java:108-165 | A marker document without defect, with one required key removed, is rejected with exactly Missing at the path [key]. |
| TalkerProperties.CreateMarkerReportsMissingField | costmap_query_publisher/src/main/java/com/github/ros_costmap/costmap_query_publisher/Talker.java:108-165 | A marker document the transcoder accepts, with one required key removed, is rejected with exactly Missing at the path [key]. |
| TalkerProperties.ReportsMistypedField | costmap_query_publisher/src/main/java/com/github/ros_costmap/costmap_query_publisher/Talker.java:108-165 | A marker document without defect, with one field's value replaced by a non-null value of the wrong Java type, is rejected with exactly WrongType of that field's kind at the path [key]. |
| TalkerProperties.CreateMarkerReportsMistypedField | costmap_query_publisher/src/main/java/com/github/ros_costmap/costmap_query_publisher/Talker.java:108-165 | A marker document the transcoder accepts, with one field's value replaced by a non-null value of the wrong Java type, is rejected with exactly WrongType of that field's kind at the path [key]. |
| TalkerProperties.AbsentStringIsNoDefect | costmap_query_publisher/src/main/java/com/github/ros_costmap/costmap_query_publisher/Talker.java:119-163 | A marker document without defect keeps no defect when `text`, `mesh_resource` or `ns` is removed. |
| TalkerProperties.CreateMarkerAcceptsAbsentString | costmap_query_publisher/src/main/java/com/github/ros_costmap/costmap_query_publisher/Talker.java:119-163 | A marker document the transcoder accepts is still accepted with `text`, `mesh_resource` or `ns` removed. |
| TalkerProperties.PoseWithoutOrientation | costmap_query_publisher/src/main/java/com/github/ros_costmap/costmap_query_publisher/Talker.java:121-122 | A pose without `orientation` is reported as Missing at the path [orientation], because that is the first field the pose reader casts. |
| TalkerProperties.CreateMarkerReportsMissingOrientation | costmap_query_publisher/src/main/java/com/github/ros_costmap/costmap_query_publisher/Talker.java:121-122 | A nested defect is reported at its full path: an accepted marker whose pose loses its orientation is rejected with exactly Missing at the path [pose, orientation]. |
| TalkerProperties.AbsentStringsAreNull | costmap_query_publisher/src/main/java/com/github/ros_costmap/costmap_query_publisher/Talker.java:119-163 | In an accepted marker, `text`, `mesh_resource`, `ns` and `header.frame_id` are null in the message exactly when they are absent or null in the document. |
| RoundTrip.TransformPointRoundTrip | costmap_query_publisher/src/main/java/com/github/ros_costmap/costmap_query_publisher/Talker.java:179-187 | A point stored as {x, y, z} decodes to the same point. |
| RoundTrip.TransformColorRoundTrip | costmap_query_publisher/src/main/java/com/github/ros_costmap/costmap_query_publisher/Talker.java:170-177 | A colour stored as four doubles decodes to the four narrowed channels. |
| RoundTrip.DecodePointsRoundTrip | costmap_query_publisher/src/main/java/com/github/ros_costmap/costmap_query_publisher/Talker.java:152-159 | A stored list of points decodes to the same points, with the same length and order. |
| RoundTrip.DecodeColorsRoundTrip | costmap_query_publisher/src/main/java/com/github/ros_costmap/costmap_query_publisher/Talker.java:143-150 | A stored list of colours decodes to the narrowed colours, with the same length and order. |

## Left out

- `Costmap.java` is not part of this model. It opens the MongoDB connection and runs the `__recorded >= key` query. That is I/O against a driver that is not modelled. `CreateMarkerArray` takes the fetched document as a `Value`, and `Null` stands for "no document".
- `Talker.onStart` and its `CancellableLoop` are left out: publisher registration, the hard-coded host, database and timepoint, the one-second sleep, and the unused `time`, `markerList` and `sequenceNumber`. This is transport, timing and threading.
- `getDefaultNodeName` is left out. It is a constant ROS node name.
- `MessageFactory` / `NodeConfiguration` message construction is left out. `CreateMarker` starts from a placeholder marker (`FreshMarker`) and its four stages overwrite every one of the 15 fields, so the library's default field values never show.
- The message setters are modelled as storing whatever value they are given, null included. `AbsentStringsAreNull` and `CreateMarkerAcceptsAbsentString` rest on this for `setText`, `setMeshResource`, `setNs` and `setFrameId` with a null argument. What rosjava's generated setters do with null is library code outside this model.
- The library conversions are the `Conversions` parameter and are not computed: `Double.floatValue()`, `new Time(date.getTime() / 1000.0)` and `new Duration(double)`. Their floating-point arithmetic is library code. The model states only that the output is the conversion applied to the stored value.
- BSON types other than the eight constructors of `Value` are not represented: int64, ObjectId, Decimal128, binary and so on. Every read in the transcoder would reject them with a cast failure, like any other mismatch. Key order and duplicate keys of a BSON document are not modelled either, since a `map` holds one value per key.
