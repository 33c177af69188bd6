/**
 * The live ingestion path: every cycle polls the feed, writes each jam and alert into a
 * region's database and, every few cycles, deactivates rows that stopped being refreshed.
 * The tables are maps keyed by `(uuid, published_at)`, the pair the lookups and the
 * alerts' unique constraint use; the SQL statements become functions on those maps.
 */
module Live {
  import opened Wrappers
  import opened Feed
  import opened Stats
  import opened Wkt

  /** `threshold` in the main loop: the cleanup runs when the counter has reached it. */
  const CLEANUP_THRESHOLD: int := 5

  /** The default window of `deactivate_stale_records`, in minutes. */
  const STALE_MINUTES: int := 3

  const MILLIS_PER_MINUTE: int := 60_000

  /** A row's key: its uuid and its publication time (epoch milliseconds). */
  datatype RowKey = RowKey(uuid: string, publishedAt: int)

  /** One metric's columns in the jams table: the `_max` or `_min` column and the `_avg` column. */
  datatype LiveMetric = LiveMetric(extreme: int, avg: real)

  /** A row of the jams table. */
  datatype LiveJam = LiveJam(
    id: int,
    uuid: string,
    country: Option<string>,
    city: Option<string>,
    turnType: Option<string>,
    street: Option<string>,
    endNode: Option<string>,
    startNode: Option<string>,
    roadType: Option<int>,
    blockingAlertUuid: Option<string>,
    level: LiveMetric,      // jam_level_max, jam_level_avg
    speedKmh: LiveMetric,   // speed_kmh_min, speed_kmh_avg
    length: LiveMetric,     // jam_length_max, jam_length_avg
    speed: LiveMetric,      // speed_max, speed_avg
    delay: LiveMetric,      // delay_max, delay_avg
    updateCount: nat,
    jamLine: string,
    publishedAt: int,
    lastUpdated: int,
    active: bool)

  /** A row of the segments table: `(jam_id, from_node, to_node, segment_id, is_forward)`. */
  datatype SegmentRow = SegmentRow(jamId: int, fromNode: int, toNode: int, segmentId: int, isForward: bool)

  /** A row of the alerts table. */
  datatype LiveAlert = LiveAlert(
    uuid: string,
    country: Option<string>,
    city: string,
    alertType: Option<string>,
    subtype: Option<string>,
    street: Option<string>,
    reportRating: Option<int>,
    confidence: Option<int>,
    reliability: Option<int>,
    roadType: Option<int>,
    magvar: Option<int>,
    reportByMunicipalityUser: bool,
    reportDescription: Option<string>,
    location: string,
    publishedAt: int,
    lastUpdated: int,
    active: bool)

  // ----- jams -----

  predicate SegmentComplete(s: Segment) {
    s.fromNode.Some? && s.toNode.Some? && s.segId.Some? && s.isForward.Some?
  }

  /**
   * The jam carries every key `process_jams` indexes directly; a missing one raises
   * before the transaction is committed.
   */
  predicate JamComplete(o: JamObs) {
    && o.uuid.Some? && o.pubMillis.Some? && o.line.Some?
    && o.level.Some? && o.speedKMH.Some? && o.length.Some? && o.speed.Some? && o.delay.Some?
    && (o.segments.Some? ==> forall i :: 0 <= i < |o.segments.value| ==> SegmentComplete(o.segments.value[i]))
  }

  predicate AllJamsComplete(os: seq<JamObs>) {
    forall i :: 0 <= i < |os| ==> JamComplete(os[i])
  }

  function JamKey(o: JamObs): RowKey
    requires JamComplete(o)
  {
    RowKey(o.uuid.value, o.pubMillis.value)
  }

  /** The jam metrics, in the order the row lists them. */
  datatype Column = Level | SpeedKmh | Length | Speed | Delay

  /** `speed_kmh_min` keeps the least value seen (LEAST); the other metrics the greatest (GREATEST). */
  function KindOf(c: Column): Kind {
    if c == SpeedKmh then KeepMin else KeepMax
  }

  function Reading(o: JamObs, c: Column): int
    requires JamComplete(o)
  {
    match c
    case Level => o.level.value
    case SpeedKmh => o.speedKMH.value
    case Length => o.length.value
    case Speed => o.speed.value
    case Delay => o.delay.value
  }

  function MetricOf(r: LiveJam, c: Column): LiveMetric {
    match c
    case Level => r.level
    case SpeedKmh => r.speedKmh
    case Length => r.length
    case Speed => r.speed
    case Delay => r.delay
  }

  /** The `jam_data` row `process_jams` inserts for a jam it has no row for. */
  function NewJamRow(o: JamObs, now: int): LiveJam
    requires JamComplete(o)
  {
    LiveJam(
      id := o.id, uuid := o.uuid.value, country := o.country, city := o.city, turnType := o.turnType,
      street := o.street, endNode := o.endNode, startNode := None, roadType := o.roadType,
      blockingAlertUuid := o.blockingAlertUuid,
      level := LiveMetric(o.level.value, o.level.value as real),
      speedKmh := LiveMetric(o.speedKMH.value, o.speedKMH.value as real),
      length := LiveMetric(o.length.value, o.length.value as real),
      speed := LiveMetric(o.speed.value, o.speed.value as real),
      delay := LiveMetric(o.delay.value, o.delay.value as real),
      updateCount := 1, jamLine := ToLinestringWkt(o.line.value),
      publishedAt := o.pubMillis.value, lastUpdated := now, active := true)
  }

  /** The five averages the loop recomputes from the row it looked up. */
  datatype JamAverages = JamAverages(level: real, speedKmh: real, length: real, speed: real, delay: real)

  function RecomputedAverages(base: LiveJam, o: JamObs): JamAverages
    requires JamComplete(o)
  {
    var uc := base.updateCount;
    JamAverages(
      RecomputeAvg(base.level.avg, uc, o.level.value),
      RecomputeAvg(base.speedKmh.avg, uc, o.speedKMH.value),
      RecomputeAvg(base.length.avg, uc, o.length.value),
      RecomputeAvg(base.speed.avg, uc, o.speed.value),
      RecomputeAvg(base.delay.avg, uc, o.delay.value))
  }

  /** `UPDATE_EXISTING_JAM` on one row: the given averages, GREATEST/LEAST of the extremes, count and time. */
  function UpdatedJamRow(r: LiveJam, avgs: JamAverages, o: JamObs, uc: nat, now: int): LiveJam
    requires JamComplete(o)
  {
    r.(
      level := LiveMetric(Max(r.level.extreme, o.level.value), avgs.level),
      speedKmh := LiveMetric(Min(r.speedKmh.extreme, o.speedKMH.value), avgs.speedKmh),
      length := LiveMetric(Max(r.length.extreme, o.length.value), avgs.length),
      speed := LiveMetric(Max(r.speed.extreme, o.speed.value), avgs.speed),
      delay := LiveMetric(Max(r.delay.extreme, o.delay.value), avgs.delay),
      updateCount := uc,
      lastUpdated := now)
  }

  /** `UPDATE_EXISTING_JAM ... WHERE uuid = %s AND active = TRUE`: every active row of the uuid. */
  function ApplyJamUpdate(t: map<RowKey, LiveJam>, uuid: string, avgs: JamAverages, o: JamObs, uc: nat, now: int)
    : map<RowKey, LiveJam>
    requires JamComplete(o)
  {
    map k | k in t :: if k.uuid == uuid && t[k].active then UpdatedJamRow(t[k], avgs, o, uc, now) else t[k]
  }

  /**
   * One jam of `process_jams`: found by `(uuid, published_at)` (active or not), the averages
   * come from that row and the UPDATE goes to the uuid's active rows; otherwise a new row.
   */
  function JamStep(t: map<RowKey, LiveJam>, o: JamObs, now: int): map<RowKey, LiveJam>
    requires JamComplete(o)
  {
    var key := JamKey(o);
    if key in t then ApplyJamUpdate(t, key.uuid, RecomputedAverages(t[key], o), o, t[key].updateCount + 1, now)
    else t[key := NewJamRow(o, now)]
  }

  function JamsAfter(t: map<RowKey, LiveJam>, os: seq<JamObs>, now: int): map<RowKey, LiveJam>
    requires AllJamsComplete(os)
  {
    if os == [] then t else JamStep(JamsAfter(t, os[..|os| - 1], now), os[|os| - 1], now)
  }

  /** The segment row of one incoming segment, on the jam's id. */
  function SegmentRowOf(jamId: int, s: Segment): SegmentRow
    requires SegmentComplete(s)
  {
    SegmentRow(jamId, s.fromNode.value, s.toNode.value, s.segId.value, s.isForward.value)
  }

  /** The segment rows of one jam: one per incoming segment, in order, none dropped. */
  function SegmentRowsOf(jamId: int, segs: seq<Segment>): (rows: seq<SegmentRow>)
    requires forall i :: 0 <= i < |segs| ==> SegmentComplete(segs[i])
    ensures |rows| == |segs|
    ensures forall i :: 0 <= i < |segs| ==> rows[i] == SegmentRowOf(jamId, segs[i])
  {
    if segs == [] then []
    else SegmentRowsOf(jamId, segs[..|segs| - 1]) + [SegmentRowOf(jamId, segs[|segs| - 1])]
  }

  function JamSegmentRows(o: JamObs): seq<SegmentRow>
    requires JamComplete(o)
  {
    SegmentRowsOf(o.id, o.segments.GetOr([]))
  }

  function SegmentsAfter(os: seq<JamObs>): seq<SegmentRow>
    requires AllJamsComplete(os)
  {
    if os == [] then [] else SegmentsAfter(os[..|os| - 1]) + JamSegmentRows(os[|os| - 1])
  }

  // ----- what a jam row holds -----

  function Readings(hs: seq<JamObs>, c: Column): (vs: seq<int>)
    requires AllJamsComplete(hs)
    ensures |vs| == |hs|
  {
    if hs == [] then [] else Readings(hs[..|hs| - 1], c) + [Reading(hs[|hs| - 1], c)]
  }

  /** A metric's columns after the readings `vs`: the extreme of its kind and the mean. */
  predicate MetricTracks(m: LiveMetric, kind: Kind, vs: seq<int>)
    requires |vs| > 0
  {
    m.extreme == Extreme(kind, vs) && m.avg == Mean(vs)
  }

  /**
   * The row has absorbed exactly the observations `hs`: one update per observation, and
   * each metric holds the extreme and the mean of its readings.
   */
  predicate RowTracks(r: LiveJam, hs: seq<JamObs>) {
    && |hs| > 0 && AllJamsComplete(hs)
    && r.updateCount == |hs|
    && MetricTracks(r.level, KeepMax, Readings(hs, Level))
    && MetricTracks(r.speedKmh, KeepMin, Readings(hs, SpeedKmh))
    && MetricTracks(r.length, KeepMax, Readings(hs, Length))
    && MetricTracks(r.speed, KeepMax, Readings(hs, Speed))
    && MetricTracks(r.delay, KeepMax, Readings(hs, Delay))
  }

  /** A new row seeds every metric with the single reading, with count 1, active, refreshed now. */
  lemma NewJamRowSeeds(o: JamObs, now: int)
    requires JamComplete(o)
    ensures RowTracks(NewJamRow(o, now), [o])
    ensures NewJamRow(o, now).active && NewJamRow(o, now).lastUpdated == now
    ensures NewJamRow(o, now).startNode == None
    ensures NewJamRow(o, now).jamLine == ToLinestringWkt(o.line.value)
  {
    var hs := [o];
    assert hs[..0] == [];
    SeedTracks(NewJamRow(o, now).level, KeepMax, Readings(hs, Level));
    SeedTracks(NewJamRow(o, now).speedKmh, KeepMin, Readings(hs, SpeedKmh));
    SeedTracks(NewJamRow(o, now).length, KeepMax, Readings(hs, Length));
    SeedTracks(NewJamRow(o, now).speed, KeepMax, Readings(hs, Speed));
    SeedTracks(NewJamRow(o, now).delay, KeepMax, Readings(hs, Delay));
  }

  lemma SeedTracks(m: LiveMetric, kind: Kind, vs: seq<int>)
    requires |vs| == 1 && m == LiveMetric(vs[0], vs[0] as real)
    ensures MetricTracks(m, kind, vs)
  {
    assert vs[..0] == [];
    assert Sum(vs) == vs[0];
  }

  /**
   * One metric of the UPDATE: GREATEST/LEAST of the extreme and the recomputed average
   * extend the extreme and the mean by the new reading.
   */
  lemma MetricStepTracks(m: LiveMetric, kind: Kind, vs: seq<int>, v: int)
    requires |vs| > 0 && MetricTracks(m, kind, vs)
    ensures MetricTracks(
      LiveMetric(if kind == KeepMax then Max(m.extreme, v) else Min(m.extreme, v), RecomputeAvg(m.avg, |vs|, v)),
      kind, vs + [v])
  {
    assert (vs + [v])[..|vs|] == vs;
    RecomputeAvgExtendsMean(vs, v);
  }

  lemma ReadingsSnoc(hs: seq<JamObs>, o: JamObs, c: Column)
    requires AllJamsComplete(hs) && JamComplete(o)
    ensures AllJamsComplete(hs + [o])
    ensures Readings(hs + [o], c) == Readings(hs, c) + [Reading(o, c)]
  {
    assert (hs + [o])[..|hs|] == hs;
  }

  /**
   * The weighted-average recomputation keeps each average the mean of the readings and
   * each extreme the maximum (the minimum for speed_kmh), and counts the update.
   */
  lemma UpdatedJamRowTracks(r: LiveJam, hs: seq<JamObs>, o: JamObs, now: int)
    requires RowTracks(r, hs) && JamComplete(o)
    ensures RowTracks(UpdatedJamRow(r, RecomputedAverages(r, o), o, r.updateCount + 1, now), hs + [o])
  {
    var r' := UpdatedJamRow(r, RecomputedAverages(r, o), o, r.updateCount + 1, now);
    ReadingsSnoc(hs, o, Level);
    ReadingsSnoc(hs, o, SpeedKmh);
    ReadingsSnoc(hs, o, Length);
    ReadingsSnoc(hs, o, Speed);
    ReadingsSnoc(hs, o, Delay);
    MetricStepTracks(r.level, KeepMax, Readings(hs, Level), o.level.value);
    MetricStepTracks(r.speedKmh, KeepMin, Readings(hs, SpeedKmh), o.speedKMH.value);
    MetricStepTracks(r.length, KeepMax, Readings(hs, Length), o.length.value);
    MetricStepTracks(r.speed, KeepMax, Readings(hs, Speed), o.speed.value);
    MetricStepTracks(r.delay, KeepMax, Readings(hs, Delay), o.delay.value);
  }

  /**
   * A jam observed in every cycle of `hs` under the same `(uuid, published_at)`, whose uuid
   * had no row before, ends with one active row holding the extremes and the means of all
   * its readings and `update_count == |hs|`; the rows present before are untouched.
   */
  lemma {:induction false} HistoryTracks(t: map<RowKey, LiveJam>, key: RowKey, hs: seq<JamObs>, now: int)
    requires |hs| > 0 && AllJamsComplete(hs)
    requires forall i :: 0 <= i < |hs| ==> JamKey(hs[i]) == key
    requires forall k :: k in t ==> k.uuid != key.uuid
    ensures key in JamsAfter(t, hs, now)
    ensures RowTracks(JamsAfter(t, hs, now)[key], hs) && JamsAfter(t, hs, now)[key].active
    ensures forall k :: k in JamsAfter(t, hs, now) && k.uuid == key.uuid ==> k == key
    ensures forall k :: k in t ==> k in JamsAfter(t, hs, now) && JamsAfter(t, hs, now)[k] == t[k]
  {
    var init, o := hs[..|hs| - 1], hs[|hs| - 1];
    assert JamKey(o) == key;
    if init == [] {
      assert hs == [o];
      NewJamRowSeeds(o, now);
    } else {
      assert forall i :: 0 <= i < |init| ==> init[i] == hs[i];
      HistoryTracks(t, key, init, now);
      var t1 := JamsAfter(t, init, now);
      var r := t1[key];
      UpdatedJamRowTracks(r, init, o, now);
      assert init + [o] == hs;
      var t2 := JamsAfter(t, hs, now);
      assert t2 == ApplyJamUpdate(t1, key.uuid, RecomputedAverages(r, o), o, r.updateCount + 1, now);
      assert t2[key] == UpdatedJamRow(r, RecomputedAverages(r, o), o, r.updateCount + 1, now);
    }
  }

  /**
   * The UPDATE touches only the active rows of the jam's uuid, and on those it changes only
   * the metric columns, the count and `last_updated`.
   */
  lemma JamUpdateFrame(t: map<RowKey, LiveJam>, uuid: string, avgs: JamAverages, o: JamObs, uc: nat, now: int)
    requires JamComplete(o)
    ensures ApplyJamUpdate(t, uuid, avgs, o, uc, now).Keys == t.Keys
    ensures forall k :: k in t && (k.uuid != uuid || !t[k].active) ==>
      ApplyJamUpdate(t, uuid, avgs, o, uc, now)[k] == t[k]
    ensures forall k :: k in t && k.uuid == uuid && t[k].active ==>
      var r' := ApplyJamUpdate(t, uuid, avgs, o, uc, now)[k];
      && r' == t[k].(level := r'.level, speedKmh := r'.speedKmh, length := r'.length, speed := r'.speed,
                     delay := r'.delay, updateCount := uc, lastUpdated := now)
      && r'.level.extreme == Max(t[k].level.extreme, o.level.value)
      && r'.speedKmh.extreme == Min(t[k].speedKmh.extreme, o.speedKMH.value)
      && r'.length.extreme == Max(t[k].length.extreme, o.length.value)
      && r'.speed.extreme == Max(t[k].speed.extreme, o.speed.value)
      && r'.delay.extreme == Max(t[k].delay.extreme, o.delay.value)
      && r'.level.avg == avgs.level && r'.speedKmh.avg == avgs.speedKmh && r'.length.avg == avgs.length
      && r'.speed.avg == avgs.speed && r'.delay.avg == avgs.delay
  {
  }

  /**
   * The lookup does not ask for an active row, the UPDATE does: a jam whose row was
   * deactivated, and that has no other active row, changes no row at all.
   */
  lemma DeactivatedJamIsNotRevived(t: map<RowKey, LiveJam>, o: JamObs, now: int)
    requires JamComplete(o) && JamKey(o) in t
    requires forall k :: k in t && k.uuid == o.uuid.value ==> !t[k].active
    ensures JamStep(t, o, now) == t
  {
    var t' := JamStep(t, o, now);
    assert t'.Keys == t.Keys;
    forall k | k in t ensures t'[k] == t[k] {
    }
  }

  // ----- alerts -----

  /** The alert carries every key `process_alerts` indexes directly: `pubMillis` and `location`. */
  predicate AlertComplete(o: AlertObs) {
    o.pubMillis.Some? && o.location.Some?
  }

  predicate AllAlertsComplete(os: seq<AlertObs>) {
    forall i :: 0 <= i < |os| ==> AlertComplete(os[i])
  }

  function AlertKey(o: AlertObs): RowKey
    requires AlertComplete(o)
  {
    RowKey(o.uuid, o.pubMillis.value)
  }

  /** Python's `str.lower` on the letters A to Z. */
  function Lower(s: string): (r: string)
    ensures |r| == |s|
    ensures forall i :: 0 <= i < |s| ==> r[i] == if 'A' <= s[i] <= 'Z' then (s[i] - 'A' + 'a') as char else s[i]
  {
    if s == [] then []
    else Lower(s[..|s| - 1]) + [if 'A' <= s[|s| - 1] <= 'Z' then (s[|s| - 1] - 'A' + 'a') as char else s[|s| - 1]]
  }

  /** `alert.get("reportByMunicipalityUser", "false").lower() == "true"`. */
  predicate MunicipalityFlag(o: AlertObs) {
    Lower(o.reportByMunicipalityUser.GetOr("false")) == "true"
  }

  /** The flag is set by "true" in any letter case and by nothing else; an absent key clears it. */
  lemma MunicipalityFlagCases(o: AlertObs)
    ensures o.reportByMunicipalityUser.None? ==> !MunicipalityFlag(o)
    ensures o.reportByMunicipalityUser == Some("true") ==> MunicipalityFlag(o)
    ensures o.reportByMunicipalityUser == Some("True") ==> MunicipalityFlag(o)
    ensures o.reportByMunicipalityUser == Some("TRUE") ==> MunicipalityFlag(o)
    ensures MunicipalityFlag(o) ==> |o.reportByMunicipalityUser.value| == 4
  {
    if o.reportByMunicipalityUser.None? {
      assert Lower("false")[0] == 'f';
    }
  }

  /** The `alert_data` row of `process_alerts`. */
  function AlertRow(o: AlertObs, now: int): LiveAlert
    requires AlertComplete(o)
  {
    LiveAlert(
      uuid := o.uuid, country := o.country, city := o.city.GetOr("Brno"), alertType := o.alertType,
      subtype := o.subtype, street := o.street, reportRating := o.reportRating, confidence := o.confidence,
      reliability := o.reliability, roadType := o.roadType, magvar := o.magvar,
      reportByMunicipalityUser := MunicipalityFlag(o), reportDescription := o.reportDescription,
      location := ToPointWkt(o.location.value), publishedAt := o.pubMillis.value,
      lastUpdated := now, active := true)
  }

  /**
   * `INSERT_NEW_ALERT ... ON CONFLICT (uuid, published_at) DO UPDATE`: a known key takes the
   * new confidence, reliability, report rating and time and keeps everything else,
   * `active` included.
   */
  function AlertStep(t: map<RowKey, LiveAlert>, o: AlertObs, now: int): map<RowKey, LiveAlert>
    requires AlertComplete(o)
  {
    var key := AlertKey(o);
    var row := AlertRow(o, now);
    if key in t then
      t[key := t[key].(confidence := row.confidence, reliability := row.reliability,
                       reportRating := row.reportRating, lastUpdated := row.lastUpdated)]
    else t[key := row]
  }

  function AlertsAfter(t: map<RowKey, LiveAlert>, os: seq<AlertObs>, now: int): map<RowKey, LiveAlert>
    requires AllAlertsComplete(os)
  {
    if os == [] then t else AlertStep(AlertsAfter(t, os[..|os| - 1], now), os[|os| - 1], now)
  }

  /** The upsert leaves every other key alone, and a re-sent alert is written only in the four columns. */
  lemma AlertStepFrame(t: map<RowKey, LiveAlert>, o: AlertObs, now: int)
    requires AlertComplete(o)
    ensures AlertStep(t, o, now).Keys == t.Keys + {AlertKey(o)}
    ensures forall k :: k in t && k != AlertKey(o) ==> AlertStep(t, o, now)[k] == t[k]
    ensures AlertKey(o) !in t ==> AlertStep(t, o, now)[AlertKey(o)] == AlertRow(o, now)
    ensures AlertKey(o) in t ==>
      var r := t[AlertKey(o)];
      var r' := AlertStep(t, o, now)[AlertKey(o)];
      r'.confidence == o.confidence && r'.reliability == o.reliability && r'.reportRating == o.reportRating
      && r'.lastUpdated == now && r' == r.(confidence := r'.confidence, reliability := r'.reliability,
                                          reportRating := r'.reportRating, lastUpdated := now)
  {
  }

  /** Sending the same alerts again at the same time changes nothing. */
  lemma AlertStepIdempotent(t: map<RowKey, LiveAlert>, o: AlertObs, now: int)
    requires AlertComplete(o)
    ensures AlertStep(AlertStep(t, o, now), o, now) == AlertStep(t, o, now)
  {
    var t1 := AlertStep(t, o, now);
    var t2 := AlertStep(t1, o, now);
    assert t2.Keys == t1.Keys;
    forall k | k in t2 ensures t2[k] == t1[k] {
    }
  }

  // ----- deactivation -----

  /** Whether a row falls under `active = TRUE AND last_updated < now() - interval`. */
  predicate Stale(active: bool, lastUpdated: int, cutoff: int) {
    active && lastUpdated < cutoff
  }

  function DeactivatedAlerts(t: map<RowKey, LiveAlert>, cutoff: int): (r: map<RowKey, LiveAlert>)
    ensures r.Keys == t.Keys
    ensures forall k :: k in t ==>
      if Stale(t[k].active, t[k].lastUpdated, cutoff) then r[k] == t[k].(active := false) else r[k] == t[k]
  {
    map k | k in t :: if Stale(t[k].active, t[k].lastUpdated, cutoff) then t[k].(active := false) else t[k]
  }

  function DeactivatedJams(t: map<RowKey, LiveJam>, cutoff: int): (r: map<RowKey, LiveJam>)
    ensures r.Keys == t.Keys
    ensures forall k :: k in t ==>
      if Stale(t[k].active, t[k].lastUpdated, cutoff) then r[k] == t[k].(active := false) else r[k] == t[k]
  {
    map k | k in t :: if Stale(t[k].active, t[k].lastUpdated, cutoff) then t[k].(active := false) else t[k]
  }

  /** After the sweep no row is stale, so a second sweep with the same cutoff changes nothing. */
  lemma DeactivationIdempotent(a: map<RowKey, LiveAlert>, j: map<RowKey, LiveJam>, cutoff: int)
    ensures forall k :: k in DeactivatedAlerts(a, cutoff) ==>
      !Stale(DeactivatedAlerts(a, cutoff)[k].active, DeactivatedAlerts(a, cutoff)[k].lastUpdated, cutoff)
    ensures forall k :: k in DeactivatedJams(j, cutoff) ==>
      !Stale(DeactivatedJams(j, cutoff)[k].active, DeactivatedJams(j, cutoff)[k].lastUpdated, cutoff)
    ensures DeactivatedAlerts(DeactivatedAlerts(a, cutoff), cutoff) == DeactivatedAlerts(a, cutoff)
    ensures DeactivatedJams(DeactivatedJams(j, cutoff), cutoff) == DeactivatedJams(j, cutoff)
  {
    var a1 := DeactivatedAlerts(a, cutoff);
    var a2 := DeactivatedAlerts(a1, cutoff);
    forall k | k in a2 ensures a2[k] == a1[k] {
    }
    var j1 := DeactivatedJams(j, cutoff);
    var j2 := DeactivatedJams(j1, cutoff);
    forall k | k in j2 ensures j2[k] == j1[k] {
    }
  }

  /** The cutoff of `deactivate_stale_records(conn, minutes)` at database time `dbNow`. */
  function Cutoff(dbNow: int, minutes: int): int {
    dbNow - minutes * MILLIS_PER_MINUTE
  }

  // ----- the main loop -----

  /** Whether this cycle runs the cleanup. */
  predicate CleanupDue(count: int) {
    count >= CLEANUP_THRESHOLD
  }

  /** The counter after the cycle: reset after a cleanup, otherwise one more. */
  function NextCount(count: int): int {
    if CleanupDue(count) then 0 else count + 1
  }

  /**
   * The main loop's counter over `cycles` cycles from 0: the cleanup runs in cycle `k`
   * exactly when `k` is 5 more than a multiple of 6, once every 6 cycles.
   */
  method CleanupSchedule(cycles: nat) returns (runs: seq<bool>)
    ensures |runs| == cycles
    ensures forall k :: 0 <= k < cycles ==> (runs[k] <==> k % (CLEANUP_THRESHOLD + 1) == CLEANUP_THRESHOLD)
  {
    var count := 0;
    runs := [];
    while |runs| < cycles
      invariant |runs| <= cycles
      invariant count == |runs| % (CLEANUP_THRESHOLD + 1)
      invariant forall k :: 0 <= k < |runs| ==> (runs[k] <==> k % (CLEANUP_THRESHOLD + 1) == CLEANUP_THRESHOLD)
    {
      CounterStep(|runs|);
      runs := runs + [CleanupDue(count)];
      count := NextCount(count);
    }
  }

  /** The counter's step follows the cycle number modulo 6. */
  lemma CounterStep(n: nat)
    ensures CleanupDue(n % (CLEANUP_THRESHOLD + 1)) <==> n % (CLEANUP_THRESHOLD + 1) == CLEANUP_THRESHOLD
    ensures NextCount(n % (CLEANUP_THRESHOLD + 1)) == (n + 1) % (CLEANUP_THRESHOLD + 1)
  {
  }

  /** `[x for x in xs if x.get('city') == 'Brno']` and its complement `!= 'Brno'`. */
  function AlertsInBrno(os: seq<AlertObs>, inBrno: bool): (r: seq<AlertObs>)
    ensures forall i :: 0 <= i < |r| ==> (r[i].city == Some("Brno")) == inBrno
  {
    if os == [] then []
    else AlertsInBrno(os[..|os| - 1], inBrno) + (if (os[|os| - 1].city == Some("Brno")) == inBrno then [os[|os| - 1]] else [])
  }

  function JamsInBrno(os: seq<JamObs>, inBrno: bool): (r: seq<JamObs>)
    ensures forall i :: 0 <= i < |r| ==> (r[i].city == Some("Brno")) == inBrno
  {
    if os == [] then []
    else JamsInBrno(os[..|os| - 1], inBrno) + (if (os[|os| - 1].city == Some("Brno")) == inBrno then [os[|os| - 1]] else [])
  }

  /** The Brno and the rest-of-region lists split the regional snapshot: every item goes to exactly one. */
  lemma {:induction false} AlertsPartition(os: seq<AlertObs>)
    ensures multiset(AlertsInBrno(os, true)) + multiset(AlertsInBrno(os, false)) == multiset(os)
  {
    if os != [] {
      var init := os[..|os| - 1];
      AlertsPartition(init);
      assert init + [os[|os| - 1]] == os;
    }
  }

  lemma {:induction false} JamsPartition(os: seq<JamObs>)
    ensures multiset(JamsInBrno(os, true)) + multiset(JamsInBrno(os, false)) == multiset(os)
  {
    if os != [] {
      var init := os[..|os| - 1];
      JamsPartition(init);
      assert init + [os[|os| - 1]] == os;
    }
  }

  /** The cleanup of one cycle when it is due, nothing otherwise. */
  function MaybeDeactivatedAlerts(t: map<RowKey, LiveAlert>, due: bool, dbNow: int): map<RowKey, LiveAlert> {
    if due then DeactivatedAlerts(t, Cutoff(dbNow, STALE_MINUTES)) else t
  }

  function MaybeDeactivatedJams(t: map<RowKey, LiveJam>, due: bool, dbNow: int): map<RowKey, LiveJam> {
    if due then DeactivatedJams(t, Cutoff(dbNow, STALE_MINUTES)) else t
  }

  /**
   * The body of `process_jams` for one jam: look the row up by `(uuid, published_at)`;
   * recompute the averages from it and update, or insert a new row.
   */
  method WriteJam(t: map<RowKey, LiveJam>, o: JamObs, now: int) returns (t': map<RowKey, LiveJam>)
    requires JamComplete(o)
    ensures t' == JamStep(t, o, now)
  {
    var key := RowKey(o.uuid.value, o.pubMillis.value);
    if key in t {
      var base := t[key];
      var uc := base.updateCount + 1;
      var avgs := JamAverages(
        (base.level.avg * base.updateCount as real + o.level.value as real) / (uc as real),
        (base.speedKmh.avg * base.updateCount as real + o.speedKMH.value as real) / (uc as real),
        (base.length.avg * base.updateCount as real + o.length.value as real) / (uc as real),
        (base.speed.avg * base.updateCount as real + o.speed.value as real) / (uc as real),
        (base.delay.avg * base.updateCount as real + o.delay.value as real) / (uc as real));
      assert avgs.level == RecomputeAvg(base.level.avg, base.updateCount, o.level.value);
      assert avgs == RecomputedAverages(base, o);
      t' := ApplyJamUpdate(t, key.uuid, avgs, o, uc, now);
    } else {
      t' := t[key := NewJamRow(o, now)];
    }
  }

  /** One more jam of the `process_jams` loop: the tables after `os[..i + 1]`. */
  lemma ProcessJamsStep(t: map<RowKey, LiveJam>, os: seq<JamObs>, i: nat, now: int)
    requires i < |os| && AllJamsComplete(os[..i]) && JamComplete(os[i])
    ensures AllJamsComplete(os[..i + 1])
    ensures JamsAfter(t, os[..i + 1], now) == JamStep(JamsAfter(t, os[..i], now), os[i], now)
    ensures SegmentsAfter(os[..i + 1]) == SegmentsAfter(os[..i]) + JamSegmentRows(os[i])
    ensures os[i].segments.GetOr([]) == [] ==> JamSegmentRows(os[i]) == []
  {
    assert os[..i + 1][..i] == os[..i];
  }

  /** One region's database: the jams, segments and alerts tables. */
  class Database {
    var jams: map<RowKey, LiveJam>
    var segments: seq<SegmentRow>
    var alerts: map<RowKey, LiveAlert>

    constructor ()
      ensures jams == map[] && segments == [] && alerts == map[]
    {
      jams := map[];
      segments := [];
      alerts := map[];
    }

    /**
     * `process_jams`: the loop writes into an open transaction, committed at the end. A jam
     * missing a key it indexes raises, and nothing of the call is committed.
     */
    method ProcessJams(os: seq<JamObs>, now: int) returns (ok: bool)
      modifies this
      ensures ok == AllJamsComplete(os)
      ensures ok ==> jams == JamsAfter(old(jams), os, now) && segments == old(segments) + SegmentsAfter(os)
      ensures !ok ==> jams == old(jams) && segments == old(segments)
      ensures alerts == old(alerts)
    {
      var t, segs := jams, segments;
      for i := 0 to |os|
        invariant AllJamsComplete(os[..i])
        invariant t == JamsAfter(jams, os[..i], now)
        invariant segs == segments + SegmentsAfter(os[..i])
        invariant jams == old(jams) && segments == old(segments) && alerts == old(alerts)
      {
        var o := os[i];
        if !JamComplete(o) {
          assert !JamComplete(os[i]);
          return false;
        }
        ProcessJamsStep(jams, os, i, now);
        t := WriteJam(t, o, now);
        var incoming := o.segments.GetOr([]);
        if incoming != [] {
          segs := segs + SegmentRowsOf(o.id, incoming);
        }
      }
      assert os[..|os|] == os;
      jams, segments := t, segs;
      ok := true;
    }

    /**
     * `process_alerts(conn, alerts)`: the loop reads the Brno list `alertsBrno` of the main
     * loop, whatever `alerts` the call is given, and upserts each alert.
     */
    method ProcessAlerts(alerts': seq<AlertObs>, alertsBrno: seq<AlertObs>, now: int) returns (ok: bool)
      modifies this
      ensures ok == AllAlertsComplete(alertsBrno)
      ensures ok ==> alerts == AlertsAfter(old(alerts), alertsBrno, now)
      ensures !ok ==> alerts == old(alerts)
      ensures jams == old(jams) && segments == old(segments)
    {
      var t := alerts;
      for i := 0 to |alertsBrno|
        invariant AllAlertsComplete(alertsBrno[..i])
        invariant t == AlertsAfter(alerts, alertsBrno[..i], now)
      {
        var o := alertsBrno[i];
        if !AlertComplete(o) {
          assert !AlertComplete(alertsBrno[i]);
          return false;
        }
        assert alertsBrno[..i + 1][..i] == alertsBrno[..i];
        t := AlertStep(t, o, now);
      }
      assert alertsBrno[..|alertsBrno|] == alertsBrno;
      alerts := t;
      ok := true;
    }

    /** `main_loop(conn, alerts, jams)`: jams first, then alerts. */
    method MainLoop(alerts': seq<AlertObs>, jams': seq<JamObs>, alertsBrno: seq<AlertObs>, jamsNow: int, alertsNow: int)
      returns (ok: bool)
      modifies this
      ensures ok == (AllJamsComplete(jams') && AllAlertsComplete(alertsBrno))
      ensures AllJamsComplete(jams') ==> jams == JamsAfter(old(jams), jams', jamsNow)
      ensures AllJamsComplete(jams') ==> segments == old(segments) + SegmentsAfter(jams')
      ensures !AllJamsComplete(jams') ==> jams == old(jams) && segments == old(segments)
      ensures ok ==> alerts == AlertsAfter(old(alerts), alertsBrno, alertsNow)
      ensures !ok ==> alerts == old(alerts)
    {
      ok := ProcessJams(jams', jamsNow);
      if ok {
        ok := ProcessAlerts(alerts', alertsBrno, alertsNow);
      }
    }

    /** `deactivate_stale_records(conn, minutes)`: both tables, then commit. */
    method DeactivateStaleRecords(dbNow: int, minutes: int)
      modifies this
      ensures alerts == DeactivatedAlerts(old(alerts), Cutoff(dbNow, minutes))
      ensures jams == DeactivatedJams(old(jams), Cutoff(dbNow, minutes))
      ensures segments == old(segments)
    {
      var cutoff := Cutoff(dbNow, minutes);
      alerts := DeactivatedAlerts(alerts, cutoff);
      jams := DeactivatedJams(jams, cutoff);
    }
  }

  /**
   * The clock readings of one cycle: the `utcnow()` of each `process_jams` and each
   * `process_alerts` call, region by region, and each database server's `now()` at its cleanup.
   */
  datatype CycleClock = CycleClock(
    brnoJams: int, brnoAlerts: int,
    jmkJams: int, jmkAlerts: int,
    mostJams: int, mostAlerts: int,
    brnoDb: int, jmkDb: int, mostDb: int)

  /**
   * One cycle of the main loop: the regional feed split into Brno and the rest, the Most
   * feed, each into its database (every database receiving the Brno alerts), then the
   * cleanup of all three when it is due. A missing key raises and ends the program
   * (`ok` false), leaving what the earlier commits wrote: a region's jams are committed
   * before its alerts are read, and the regions go Brno, the rest, Most.
   */
  method IngestCycle(brno: Database, jmk: Database, most: Database, region: Snapshot, mostFeed: Snapshot,
                     count: int, c: CycleClock) returns (count': int, ok: bool)
    requires brno != jmk && brno != most && jmk != most
    modifies brno, jmk, most
    ensures ok == (AllJamsComplete(JamsInBrno(region.jams, true)) && AllAlertsComplete(AlertsInBrno(region.alerts, true))
                   && AllJamsComplete(JamsInBrno(region.jams, false)) && AllJamsComplete(mostFeed.jams))
    ensures ok ==> count' == NextCount(count)
    ensures !ok ==> count' == count
    // Brno
    ensures AllJamsComplete(JamsInBrno(region.jams, true)) ==>
      brno.segments == old(brno.segments) + SegmentsAfter(JamsInBrno(region.jams, true))
    ensures !AllJamsComplete(JamsInBrno(region.jams, true)) ==>
      brno.jams == old(brno.jams) && brno.segments == old(brno.segments) && brno.alerts == old(brno.alerts)
    ensures AllJamsComplete(JamsInBrno(region.jams, true)) && !ok ==>
      brno.jams == JamsAfter(old(brno.jams), JamsInBrno(region.jams, true), c.brnoJams)
    ensures AllJamsComplete(JamsInBrno(region.jams, true)) && !AllAlertsComplete(AlertsInBrno(region.alerts, true)) ==>
      brno.alerts == old(brno.alerts)
    ensures AllAlertsComplete(AlertsInBrno(region.alerts, true)) && AllJamsComplete(JamsInBrno(region.jams, true)) && !ok ==>
      brno.alerts == AlertsAfter(old(brno.alerts), AlertsInBrno(region.alerts, true), c.brnoAlerts)
    ensures ok ==> brno.jams == MaybeDeactivatedJams(JamsAfter(old(brno.jams), JamsInBrno(region.jams, true), c.brnoJams), CleanupDue(count), c.brnoDb)
    ensures ok ==> brno.alerts == MaybeDeactivatedAlerts(AlertsAfter(old(brno.alerts), AlertsInBrno(region.alerts, true), c.brnoAlerts), CleanupDue(count), c.brnoDb)
    // the rest of the region, reached only when Brno committed both tables
    ensures !(AllJamsComplete(JamsInBrno(region.jams, true)) && AllAlertsComplete(AlertsInBrno(region.alerts, true))
              && AllJamsComplete(JamsInBrno(region.jams, false))) ==>
      jmk.jams == old(jmk.jams) && jmk.segments == old(jmk.segments) && jmk.alerts == old(jmk.alerts)
    ensures AllJamsComplete(JamsInBrno(region.jams, true)) && AllAlertsComplete(AlertsInBrno(region.alerts, true))
            && AllJamsComplete(JamsInBrno(region.jams, false)) ==>
      jmk.segments == old(jmk.segments) + SegmentsAfter(JamsInBrno(region.jams, false))
    ensures AllJamsComplete(JamsInBrno(region.jams, true)) && AllAlertsComplete(AlertsInBrno(region.alerts, true))
            && AllJamsComplete(JamsInBrno(region.jams, false)) && !ok ==>
      jmk.jams == JamsAfter(old(jmk.jams), JamsInBrno(region.jams, false), c.jmkJams)
      && jmk.alerts == AlertsAfter(old(jmk.alerts), AlertsInBrno(region.alerts, true), c.jmkAlerts)
    ensures ok ==> jmk.jams == MaybeDeactivatedJams(JamsAfter(old(jmk.jams), JamsInBrno(region.jams, false), c.jmkJams), CleanupDue(count), c.jmkDb)
    ensures ok ==> jmk.alerts == MaybeDeactivatedAlerts(AlertsAfter(old(jmk.alerts), AlertsInBrno(region.alerts, true), c.jmkAlerts), CleanupDue(count), c.jmkDb)
    // Most, reached only when both earlier regions committed, and then it completes the cycle
    ensures !ok ==> most.jams == old(most.jams) && most.segments == old(most.segments) && most.alerts == old(most.alerts)
    ensures ok ==> most.segments == old(most.segments) + SegmentsAfter(mostFeed.jams)
    ensures ok ==> most.jams == MaybeDeactivatedJams(JamsAfter(old(most.jams), mostFeed.jams, c.mostJams), CleanupDue(count), c.mostDb)
    ensures ok ==> most.alerts == MaybeDeactivatedAlerts(AlertsAfter(old(most.alerts), AlertsInBrno(region.alerts, true), c.mostAlerts), CleanupDue(count), c.mostDb)
  {
    count' := count;
    var alertsBrno := AlertsInBrno(region.alerts, true);
    var jamsBrno := JamsInBrno(region.jams, true);
    ok := brno.MainLoop(alertsBrno, jamsBrno, alertsBrno, c.brnoJams, c.brnoAlerts);
    if !ok {
      return;
    }
    var alertsJmk := AlertsInBrno(region.alerts, false);
    var jamsJmk := JamsInBrno(region.jams, false);
    ok := jmk.MainLoop(alertsJmk, jamsJmk, alertsBrno, c.jmkJams, c.jmkAlerts);
    if !ok {
      return;
    }
    ok := most.MainLoop(mostFeed.alerts, mostFeed.jams, alertsBrno, c.mostJams, c.mostAlerts);
    if !ok {
      return;
    }
    if count >= CLEANUP_THRESHOLD {
      brno.DeactivateStaleRecords(c.brnoDb, STALE_MINUTES);
      jmk.DeactivateStaleRecords(c.jmkDb, STALE_MINUTES);
      most.DeactivateStaleRecords(c.mostDb, STALE_MINUTES);
      count' := 0;
    } else {
      count' := count + 1;
    }
  }
}
