/**
 * The snapshot model: one alert or jam observation as the traffic feed delivers it.
 * A field the JSON document may lack is an `Option`; the fields every consumer indexes
 * directly (`alert["uuid"]`, `jam["id"]`) are plain.
 */
module Feed {
  import opened Wrappers

  /** A coordinate, carried as the decimal text Python prints for the feed's float. */
  type Coord = string

  datatype Point = Point(x: Coord, y: Coord)

  /** One route segment of a jam: `{fromNode, toNode, ID, isForward}`. */
  datatype Segment = Segment(fromNode: Option<int>, toNode: Option<int>, segId: Option<int>, isForward: Option<bool>)

  datatype AlertObs = AlertObs(
    uuid: string,
    country: Option<string>,
    city: Option<string>,
    alertType: Option<string>,
    subtype: Option<string>,
    street: Option<string>,
    roadType: Option<int>,
    reportRating: Option<int>,
    confidence: Option<int>,
    reliability: Option<int>,
    magvar: Option<int>,
    reportByMunicipalityUser: Option<string>,
    reportDescription: Option<string>,
    location: Option<Point>,
    pubMillis: Option<int>)

  datatype JamObs = JamObs(
    id: int,
    uuid: Option<string>,
    country: Option<string>,
    city: Option<string>,
    turnType: Option<string>,
    street: Option<string>,
    startNode: Option<string>,
    endNode: Option<string>,
    roadType: Option<int>,
    blockingAlertUuid: Option<string>,
    level: Option<int>,
    speedKMH: Option<int>,
    length: Option<int>,
    speed: Option<int>,
    delay: Option<int>,
    line: Option<seq<Point>>,
    segments: Option<seq<Segment>>,
    pubMillis: Option<int>)

  /** One feed document; a missing `alerts` or `jams` key is the empty sequence. */
  datatype Snapshot = Snapshot(alerts: seq<AlertObs>, jams: seq<JamObs>)

  /** A dynamically typed field value, as it appears in a log line or a tracked projection. */
  datatype Value = Null | Int(i: int) | Text(s: string) | Loc(p: Point) | Route(pts: seq<Point>)

  function TextOr(o: Option<string>): Value {
    match o
    case Some(s) => Text(s)
    case None => Null
  }

  function IntOr(o: Option<int>): Value {
    match o
    case Some(n) => Int(n)
    case None => Null
  }
}
