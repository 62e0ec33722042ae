/**
 The typed ROS messages the transcoder builds: `visualization_msgs/Marker`
 and the `geometry_msgs` / `std_msgs` records inside it, as plain datatypes.
 */
module RosMsgs {
  import opened Bson

  /** A Java `float`, as its IEEE-754 bit pattern. */
  datatype F32 = F32(bits: bv32)

  /** `org.ros.message.Time`: seconds and nanoseconds since the epoch. */
  datatype Time = Time(secs: int, nsecs: int)

  /** `org.ros.message.Duration`: seconds and nanoseconds. */
  datatype Duration = Duration(secs: int, nsecs: int)

  /** `geometry_msgs/Point`. */
  datatype Point = Point(x: F64, y: F64, z: F64)

  /** `geometry_msgs/Vector3`. */
  datatype Vector3 = Vector3(x: F64, y: F64, z: F64)

  /** `geometry_msgs/Quaternion`. */
  datatype Quaternion = Quaternion(x: F64, y: F64, z: F64, w: F64)

  /** `geometry_msgs/Pose`. */
  datatype Pose = Pose(position: Point, orientation: Quaternion)

  /** `std_msgs/ColorRGBA`: single-precision channels. */
  datatype ColorRGBA = ColorRGBA(r: F32, g: F32, b: F32, a: F32)

  /** `std_msgs/Header`; a null frame id is carried as `None`. */
  datatype Header = Header(seqNumber: int32, stamp: Time, frameId: Option<string>)

  /** `visualization_msgs/Marker`; the three string fields may be null. */
  datatype Marker = Marker(
    header: Header,
    ns: Option<string>,
    id: int32,
    markerType: int32,
    action: int32,
    pose: Pose,
    scale: Vector3,
    color: ColorRGBA,
    lifetime: Duration,
    frameLocked: bool,
    points: seq<Point>,
    colors: seq<ColorRGBA>,
    text: Option<string>,
    meshResource: Option<string>,
    meshUseEmbeddedMaterials: bool)

  /**
   The library conversions the transcoder calls but whose arithmetic is not
   modelled: `Double.floatValue()` for colour channels, `new Time(ms / 1000.0)`
   from a date's epoch milliseconds, and `new Duration(double)` for a lifetime.
   */
  datatype Conversions = Conversions(
    narrow: F64 -> F32,
    stampOf: int64 -> Time,
    durationOf: F64 -> Duration)
}
