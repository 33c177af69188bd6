/**
 * The batch reconciler of merging_files/data_aggregator_to_one_file.py: an in-memory store
 * that folds a time-ordered series of snapshot files into one record per alert uuid and
 * per jam id, and afterwards rewrites `lastupdated` across gaps in the file series.
 */
module Aggregator {
  import opened Wrappers
  import opened Feed
  import opened Stats
  import opened Segments

  /** Consecutive files further apart than one hour (in milliseconds) mean files are missing. */
  const GAP_MILLIS := 3_600_000

  /**
   * An accumulated alert. `finished` is `None` while the record lacks the "finished" key:
   * a new alert is created with the key "" instead, and only a merge sets "finished".
   */
  datatype AlertRecord = AlertRecord(
    uuid: string,
    country: string,
    city: string,
    reportRating: int,
    reportByMunicipalityUser: string,
    confidence: int,
    reliability: int,
    alertType: string,
    subtype: string,
    roadType: int,
    magvar: int,
    street: string,
    reportDescription: string,
    location: Option<Point>,
    pubMillis: int,
    lastupdated: int,
    finished: Option<bool>)

  /**
   * An accumulated jam. `roadType` holds either the feed's number or the text default "",
   * as the source stores either. Each metric keeps its extreme, sum and average.
   */
  datatype JamRecord = JamRecord(
    id: int,
    uuid: string,
    country: string,
    city: string,
    turnType: string,
    street: string,
    blockingAlertUuid: string,
    roadType: Value,
    startNode: string,
    endNode: string,
    line: seq<Point>,
    segments: seq<Segment>,
    updateCount: nat,
    pubMillis: int,
    lastupdated: int,
    finished: bool,
    level: Metric,
    speedKMH: Metric,
    length: Metric,
    speed: Metric,
    delay: Metric)

  /** One line written to the log by the reconciler. */
  datatype LogEntry =
    | AlertAdded(uuid: string)
    | AlertFieldChanged(uuid: string, field: string, before: Value, after: Value)
    | AlertLocationUpdated(uuid: string)
    | JamAdded(id: int)
    | JamFieldChanged(id: int, field: string, before: Value, after: Value)
    | JamLineUpdated(id: int)
    | JamSegmentsAdded(id: int, count: nat)

  // ----- alerts -----

  /** The quality scores, which keep the largest value ever observed. */
  datatype Score = ReportRating | Confidence | Reliability

  function ScoreOf(o: AlertObs, sc: Score): int {
    match sc
    case ReportRating => o.reportRating.GetOr(-1)
    case Confidence => o.confidence.GetOr(-1)
    case Reliability => o.reliability.GetOr(-1)
  }

  function RecordScore(r: AlertRecord, sc: Score): int {
    match sc
    case ReportRating => r.reportRating
    case Confidence => r.confidence
    case Reliability => r.reliability
  }

  /** The scores `sc` of a series of observations, in order. */
  function Scores(hs: seq<AlertObs>, sc: Score): (vs: seq<int>)
    ensures |vs| == |hs|
  {
    if hs == [] then [] else Scores(hs[..|hs| - 1], sc) + [ScoreOf(hs[|hs| - 1], sc)]
  }

  /** The record's score `sc` is the largest observed in `hs`. */
  predicate ScoreKept(r: AlertRecord, hs: seq<AlertObs>, sc: Score)
    requires |hs| > 0
  {
    RecordScore(r, sc) == MaxOf(Scores(hs, sc))
  }

  /** What an alert record owes to the observations merged into it. */
  predicate AlertAccumulates(r: AlertRecord, hs: seq<AlertObs>) {
    && |hs| > 0
    && (forall i :: 0 <= i < |hs| ==> hs[i].uuid == r.uuid)
    && ScoreKept(r, hs, ReportRating) && ScoreKept(r, hs, Confidence) && ScoreKept(r, hs, Reliability)
  }

  /** The record created by an alert's first observation. */
  function NewAlert(o: AlertObs, ts: int): (r: AlertRecord)
    ensures AlertAccumulates(r, [o])
    ensures r.pubMillis == r.lastupdated && r.finished == None
  {
    assert [o][..0] == [];
    AlertRecord(
      uuid := o.uuid,
      country := o.country.GetOr(""),
      city := o.city.GetOr(""),
      reportRating := o.reportRating.GetOr(-1),
      reportByMunicipalityUser := o.reportByMunicipalityUser.GetOr(""),
      confidence := o.confidence.GetOr(-1),
      reliability := o.reliability.GetOr(-1),
      alertType := o.alertType.GetOr(""),
      subtype := o.subtype.GetOr(""),
      roadType := o.roadType.GetOr(-1),
      magvar := o.magvar.GetOr(-1),
      street := o.street.GetOr(""),
      reportDescription := o.reportDescription.GetOr(""),
      location := o.location,
      pubMillis := o.pubMillis.GetOr(ts),
      lastupdated := o.pubMillis.GetOr(ts),
      finished := None)
  }

  /** The record after merging a later observation into it. */
  function MergedAlert(r: AlertRecord, o: AlertObs, ts: int): AlertRecord {
    r.(
      country := o.country.GetOr(""),
      city := o.city.GetOr(""),
      alertType := o.alertType.GetOr(""),
      subtype := o.subtype.GetOr(""),
      street := o.street.GetOr(""),
      reportDescription := o.reportDescription.GetOr(""),
      reportRating := Max(r.reportRating, ScoreOf(o, ReportRating)),
      confidence := Max(r.confidence, ScoreOf(o, Confidence)),
      reliability := Max(r.reliability, ScoreOf(o, Reliability)),
      roadType := o.roadType.GetOr(-1),
      magvar := o.magvar.GetOr(-1),
      location := o.location,
      lastupdated := ts,
      finished := Some(false))
  }

  /**
   * A first observation: every field present is copied, absent text fields become "",
   * absent numbers -1, an absent location None, and both
   * `pubMillis` and `lastupdated` take the observation's `pubMillis`, or the file's
   * timestamp when it has none.
   */
  lemma NewAlertDefaults(o: AlertObs, ts: int)
    ensures var r := NewAlert(o, ts);
      && r.uuid == o.uuid
      && r.country == o.country.GetOr("") && r.city == o.city.GetOr("") && r.street == o.street.GetOr("")
      && r.alertType == o.alertType.GetOr("") && r.subtype == o.subtype.GetOr("")
      && r.reportDescription == o.reportDescription.GetOr("")
      && r.reportByMunicipalityUser == o.reportByMunicipalityUser.GetOr("")
      && r.reportRating == o.reportRating.GetOr(-1) && r.confidence == o.confidence.GetOr(-1)
      && r.reliability == o.reliability.GetOr(-1) && r.roadType == o.roadType.GetOr(-1)
      && r.magvar == o.magvar.GetOr(-1) && r.location == o.location
      && (o.pubMillis.Some? ==> r.pubMillis == o.pubMillis.value && r.lastupdated == o.pubMillis.value)
      && (o.pubMillis.None? ==> r.pubMillis == ts && r.lastupdated == ts)
  {
  }

  /**
   * A merge: descriptive fields take the observation's value or its default; scores never
   * decrease and change only to a strictly greater observed value; `lastupdated` becomes
   * the file timestamp, `finished` False, and the first-seen `pubMillis` stays.
   */
  lemma MergedAlertFields(r: AlertRecord, o: AlertObs, ts: int)
    ensures var m := MergedAlert(r, o, ts);
      && m.uuid == r.uuid && m.pubMillis == r.pubMillis && m.lastupdated == ts && m.finished == Some(false)
      && m.reportByMunicipalityUser == r.reportByMunicipalityUser
      && m.country == o.country.GetOr("") && m.city == o.city.GetOr("") && m.alertType == o.alertType.GetOr("")
      && m.subtype == o.subtype.GetOr("") && m.street == o.street.GetOr("")
      && m.reportDescription == o.reportDescription.GetOr("")
      && m.roadType == o.roadType.GetOr(-1) && m.magvar == o.magvar.GetOr(-1) && m.location == o.location
      && m.reportRating >= r.reportRating && m.confidence >= r.confidence && m.reliability >= r.reliability
      && (m.reliability != r.reliability <==> ScoreOf(o, Reliability) > r.reliability)
      && (m.confidence != r.confidence <==> ScoreOf(o, Confidence) > r.confidence)
      && (m.reportRating != r.reportRating <==> ScoreOf(o, ReportRating) > r.reportRating)
  {
  }

  function TextChange(uuid: string, field: string, before: string, after: string): seq<LogEntry> {
    if before != after then [AlertFieldChanged(uuid, field, Text(before), Text(after))] else []
  }

  function NumberChange(uuid: string, field: string, before: int, after: int): seq<LogEntry> {
    if before != after then [AlertFieldChanged(uuid, field, Int(before), Int(after))] else []
  }

  function RaiseChange(uuid: string, field: string, before: int, after: int): seq<LogEntry> {
    if after > before then [AlertFieldChanged(uuid, field, Int(before), Int(after))] else []
  }

  /** The log lines written while merging `o` into `r`, in the order the fields are visited. */
  function AlertEntries(r: AlertRecord, o: AlertObs): seq<LogEntry> {
    var u := o.uuid;
    TextChange(u, "country", r.country, o.country.GetOr(""))
    + TextChange(u, "city", r.city, o.city.GetOr(""))
    + TextChange(u, "type", r.alertType, o.alertType.GetOr(""))
    + TextChange(u, "subtype", r.subtype, o.subtype.GetOr(""))
    + TextChange(u, "street", r.street, o.street.GetOr(""))
    + TextChange(u, "reportDescription", r.reportDescription, o.reportDescription.GetOr(""))
    + RaiseChange(u, "reportRating", r.reportRating, ScoreOf(o, ReportRating))
    + RaiseChange(u, "confidence", r.confidence, ScoreOf(o, Confidence))
    + RaiseChange(u, "reliability", r.reliability, ScoreOf(o, Reliability))
    + NumberChange(u, "roadType", r.roadType, o.roadType.GetOr(-1))
    + NumberChange(u, "magvar", r.magvar, o.magvar.GetOr(-1))
    + (if o.location != r.location then [AlertLocationUpdated(u)] else [])
  }

  /** `[f]` when `c` holds, else nothing. */
  function Flag(c: bool, f: string): seq<string> {
    if c then [f] else []
  }

  /** The names of the alert fields that differ between two records, in the reconciler's visiting order. */
  function ChangedAlertFields(a: AlertRecord, b: AlertRecord): seq<string> {
    Flag(a.country != b.country, "country")
    + Flag(a.city != b.city, "city")
    + Flag(a.alertType != b.alertType, "type")
    + Flag(a.subtype != b.subtype, "subtype")
    + Flag(a.street != b.street, "street")
    + Flag(a.reportDescription != b.reportDescription, "reportDescription")
    + Flag(a.reportRating != b.reportRating, "reportRating")
    + Flag(a.confidence != b.confidence, "confidence")
    + Flag(a.reliability != b.reliability, "reliability")
    + Flag(a.roadType != b.roadType, "roadType")
    + Flag(a.magvar != b.magvar, "magvar")
    + Flag(a.location != b.location, "location")
  }

  function EntryField(e: LogEntry): string {
    match e
    case AlertAdded(_) => ""
    case AlertFieldChanged(_, f, _, _) => f
    case AlertLocationUpdated(_) => "location"
    case JamAdded(_) => ""
    case JamFieldChanged(_, f, _, _) => f
    case JamLineUpdated(_) => "line"
    case JamSegmentsAdded(_, _) => "segments"
  }

  function EntryFields(es: seq<LogEntry>): (fs: seq<string>)
    ensures |fs| == |es|
  {
    if es == [] then [] else [EntryField(es[0])] + EntryFields(es[1..])
  }

  lemma {:induction false} EntryFieldsConcat(a: seq<LogEntry>, b: seq<LogEntry>)
    ensures EntryFields(a + b) == EntryFields(a) + EntryFields(b)
  {
    if a == [] {
      assert a + b == b;
    } else {
      assert (a + b)[1..] == a[1..] + b;
      EntryFieldsConcat(a[1..], b);
    }
  }

  /**
   * On a merge the log is signal-only: it names exactly the fields whose stored value
   * changed, each once, in visiting order; a score is logged only when it rises.
   */
  lemma AlertLogNamesChangedFields(r: AlertRecord, o: AlertObs, ts: int)
    ensures EntryFields(AlertEntries(r, o)) == ChangedAlertFields(r, MergedAlert(r, o, ts))
  {
    var u := o.uuid;
    var m := MergedAlert(r, o, ts);
    TextChangeFields(u, "country", r.country, m.country);
    TextChangeFields(u, "city", r.city, m.city);
    TextChangeFields(u, "type", r.alertType, m.alertType);
    TextChangeFields(u, "subtype", r.subtype, m.subtype);
    TextChangeFields(u, "street", r.street, m.street);
    TextChangeFields(u, "reportDescription", r.reportDescription, m.reportDescription);
    RaiseChangeFields(u, "reportRating", r.reportRating, ScoreOf(o, ReportRating));
    RaiseChangeFields(u, "confidence", r.confidence, ScoreOf(o, Confidence));
    RaiseChangeFields(u, "reliability", r.reliability, ScoreOf(o, Reliability));
    NumberChangeFields(u, "roadType", r.roadType, m.roadType);
    NumberChangeFields(u, "magvar", r.magvar, m.magvar);
    assert EntryFields(if o.location != r.location then [AlertLocationUpdated(u)] else [])
      == Flag(r.location != m.location, "location");
    AlertMergeFieldsDistribute(
      TextChange(u, "country", r.country, m.country),
      TextChange(u, "city", r.city, m.city),
      TextChange(u, "type", r.alertType, m.alertType),
      TextChange(u, "subtype", r.subtype, m.subtype),
      TextChange(u, "street", r.street, m.street),
      TextChange(u, "reportDescription", r.reportDescription, m.reportDescription),
      RaiseChange(u, "reportRating", r.reportRating, ScoreOf(o, ReportRating)),
      RaiseChange(u, "confidence", r.confidence, ScoreOf(o, Confidence)),
      RaiseChange(u, "reliability", r.reliability, ScoreOf(o, Reliability)),
      NumberChange(u, "roadType", r.roadType, m.roadType),
      NumberChange(u, "magvar", r.magvar, m.magvar),
      if o.location != r.location then [AlertLocationUpdated(u)] else []);
  }

  lemma TextChangeFields(u: string, f: string, a: string, b: string)
    ensures EntryFields(TextChange(u, f, a, b)) == Flag(a != b, f)
  {
  }

  lemma NumberChangeFields(u: string, f: string, a: int, b: int)
    ensures EntryFields(NumberChange(u, f, a, b)) == Flag(a != b, f)
  {
  }

  lemma RaiseChangeFields(u: string, f: string, a: int, b: int)
    ensures EntryFields(RaiseChange(u, f, a, b)) == Flag(a != Max(a, b), f)
  {
  }

  /** The field names logged by an alert merge are those of its twelve per-field chunks, in order. */
  lemma AlertMergeFieldsDistribute(c1: seq<LogEntry>, c2: seq<LogEntry>, c3: seq<LogEntry>, c4: seq<LogEntry>,
                                  c5: seq<LogEntry>, c6: seq<LogEntry>, c7: seq<LogEntry>, c8: seq<LogEntry>,
                                  c9: seq<LogEntry>, c10: seq<LogEntry>, c11: seq<LogEntry>, c12: seq<LogEntry>)
    ensures EntryFields(c1 + c2 + c3 + c4 + c5 + c6 + c7 + c8 + c9 + c10 + c11 + c12)
         == EntryFields(c1) + EntryFields(c2) + EntryFields(c3) + EntryFields(c4) + EntryFields(c5) + EntryFields(c6)
          + EntryFields(c7) + EntryFields(c8) + EntryFields(c9) + EntryFields(c10) + EntryFields(c11) + EntryFields(c12)
  {
    EntryFieldsConcat(c1, c2);
    EntryFieldsConcat(c1 + c2, c3);
    EntryFieldsConcat(c1 + c2 + c3, c4);
    EntryFieldsConcat(c1 + c2 + c3 + c4, c5);
    EntryFieldsConcat(c1 + c2 + c3 + c4 + c5, c6);
    EntryFieldsConcat(c1 + c2 + c3 + c4 + c5 + c6, c7);
    EntryFieldsConcat(c1 + c2 + c3 + c4 + c5 + c6 + c7, c8);
    EntryFieldsConcat(c1 + c2 + c3 + c4 + c5 + c6 + c7 + c8, c9);
    EntryFieldsConcat(c1 + c2 + c3 + c4 + c5 + c6 + c7 + c8 + c9, c10);
    EntryFieldsConcat(c1 + c2 + c3 + c4 + c5 + c6 + c7 + c8 + c9 + c10, c11);
    EntryFieldsConcat(c1 + c2 + c3 + c4 + c5 + c6 + c7 + c8 + c9 + c10 + c11, c12);
  }


  /** Merging keeps each score's maximum over everything observed so far. */
  lemma MergedAlertAccumulates(r: AlertRecord, hs: seq<AlertObs>, o: AlertObs, ts: int)
    requires AlertAccumulates(r, hs) && o.uuid == r.uuid
    ensures AlertAccumulates(MergedAlert(r, o, ts), hs + [o])
  {
    MergedScoreKept(r, hs, o, ts, ReportRating);
    MergedScoreKept(r, hs, o, ts, Confidence);
    MergedScoreKept(r, hs, o, ts, Reliability);
    assert (hs + [o])[..|hs|] == hs;
  }

  lemma MergedScoreKept(r: AlertRecord, hs: seq<AlertObs>, o: AlertObs, ts: int, sc: Score)
    requires |hs| > 0 && ScoreKept(r, hs, sc)
    ensures ScoreKept(MergedAlert(r, o, ts), hs + [o], sc)
  {
    var vs := Scores(hs, sc);
    assert (hs + [o])[..|hs|] == hs;
    assert Scores(hs + [o], sc) == vs + [ScoreOf(o, sc)];
    assert (vs + [ScoreOf(o, sc)])[..|vs|] == vs;
    assert RecordScore(MergedAlert(r, o, ts), sc) == Max(RecordScore(r, sc), ScoreOf(o, sc));
  }

  /**
   * Reliability observed as 3, then 5, then 2 ends at 5: the rise from 3 to 5 is logged,
   * the fall to 2 neither logged nor stored.
   */
  lemma ReliabilityKeepsMaximum(o1: AlertObs, o2: AlertObs, o3: AlertObs, t1: int, t2: int, t3: int)
    requires o1.reliability == Some(3) && o2.reliability == Some(5) && o3.reliability == Some(2)
    ensures var r2 := MergedAlert(NewAlert(o1, t1), o2, t2);
      && r2.reliability == 5
      && MergedAlert(r2, o3, t3).reliability == 5
      && RaiseChange(o2.uuid, "reliability", NewAlert(o1, t1).reliability, ScoreOf(o2, Reliability))
         == [AlertFieldChanged(o2.uuid, "reliability", Int(3), Int(5))]
      && RaiseChange(o3.uuid, "reliability", r2.reliability, ScoreOf(o3, Reliability)) == []
  {
  }

  // ----- jams -----

  /** The jam metrics; speedKMH keeps its minimum, the others their maximum. */
  datatype Measure = Level | SpeedKMH | Length | Speed | Delay

  function KindOf(m: Measure): Kind {
    if m == SpeedKMH then KeepMin else KeepMax
  }

  /** The value an observation contributes to a metric; a missing one counts as -1. */
  function Reading(o: JamObs, m: Measure): int {
    match m
    case Level => o.level.GetOr(-1)
    case SpeedKMH => o.speedKMH.GetOr(-1)
    case Length => o.length.GetOr(-1)
    case Speed => o.speed.GetOr(-1)
    case Delay => o.delay.GetOr(-1)
  }

  function MetricOf(r: JamRecord, m: Measure): Metric {
    match m
    case Level => r.level
    case SpeedKMH => r.speedKMH
    case Length => r.length
    case Speed => r.speed
    case Delay => r.delay
  }

  function Readings(hs: seq<JamObs>, m: Measure): (vs: seq<int>)
    ensures |vs| == |hs|
  {
    if hs == [] then [] else Readings(hs[..|hs| - 1], m) + [Reading(hs[|hs| - 1], m)]
  }

  function LineLengths(hs: seq<JamObs>): (vs: seq<int>)
    ensures |vs| == |hs|
  {
    if hs == [] then [] else LineLengths(hs[..|hs| - 1]) + [|hs[|hs| - 1].line.GetOr([])|]
  }

  function SeenIds(hs: seq<JamObs>): set<Option<int>> {
    if hs == [] then {} else SeenIds(hs[..|hs| - 1]) + Ids(hs[|hs| - 1].segments.GetOr([]))
  }

  /**
   * What a jam record owes to the observations merged into it: the update count is their
   * number, every metric summarises their readings, the line is as long as the longest
   * line observed, and the segment identifiers are all those observed.
   */
  predicate JamAccumulates(r: JamRecord, hs: seq<JamObs>) {
    && |hs| > 0
    && (forall i :: 0 <= i < |hs| ==> hs[i].id == r.id)
    && r.updateCount == |hs|
    && MetricsKept(r, hs)
    && |r.line| == MaxOf(LineLengths(hs))
    && Ids(r.segments) == SeenIds(hs)
  }

  /** The record's metric `m` summarises the readings of `hs`. */
  predicate MetricKept(r: JamRecord, hs: seq<JamObs>, m: Measure)
    requires |hs| > 0
  {
    MetricOf(r, m) == Summary(KindOf(m), Readings(hs, m))
  }

  predicate MetricsKept(r: JamRecord, hs: seq<JamObs>)
    requires |hs| > 0
  {
    && MetricKept(r, hs, Level) && MetricKept(r, hs, SpeedKMH) && MetricKept(r, hs, Length)
    && MetricKept(r, hs, Speed) && MetricKept(r, hs, Delay)
  }

  /** A first reading seeds its metric's summary. */
  lemma SeedKept(o: JamObs, m: Measure)
    ensures Seed(Reading(o, m)) == Summary(KindOf(m), Readings([o], m))
  {
    assert [o][..0] == [];
    assert Readings([o], m) == [Reading(o, m)];
    SeedSummarises(KindOf(m), Reading(o, m));
  }

  /** A missing roadType is stored as the text "" while a present one is a number. */
  function RoadTypeValue(o: JamObs): Value {
    match o.roadType
    case Some(n) => Int(n)
    case None => Text("")
  }

  /** The record created by a jam's first observation, every metric seeded by its reading. */
  function NewJam(o: JamObs, ts: int): (r: JamRecord)
    ensures JamAccumulates(r, [o])
    ensures r.updateCount == 1 && !r.finished && r.pubMillis == r.lastupdated
  {
    assert [o][..0] == [];
    SeedKept(o, Level);
    SeedKept(o, SpeedKMH);
    SeedKept(o, Length);
    SeedKept(o, Speed);
    SeedKept(o, Delay);
    JamRecord(
      id := o.id,
      uuid := o.uuid.GetOr(""),
      country := o.country.GetOr(""),
      city := o.city.GetOr(""),
      turnType := o.turnType.GetOr(""),
      street := o.street.GetOr(""),
      blockingAlertUuid := o.blockingAlertUuid.GetOr(""),
      roadType := RoadTypeValue(o),
      startNode := o.startNode.GetOr(""),
      endNode := o.endNode.GetOr(""),
      line := o.line.GetOr([]),
      segments := o.segments.GetOr([]),
      updateCount := 1,
      pubMillis := o.pubMillis.GetOr(ts),
      lastupdated := o.pubMillis.GetOr(ts),
      finished := false,
      level := Seed(Reading(o, Level)),
      speedKMH := Seed(Reading(o, SpeedKMH)),
      length := Seed(Reading(o, Length)),
      speed := Seed(Reading(o, Speed)),
      delay := Seed(Reading(o, Delay)))
  }

  /** `update_jam_metrics` with the already incremented update count `uc`. */
  function WithMetrics(r: JamRecord, o: JamObs, uc: nat): JamRecord
    requires uc > 0
  {
    r.(
      level := Step(r.level, KindOf(Level), Reading(o, Level), uc),
      speedKMH := Step(r.speedKMH, KindOf(SpeedKMH), Reading(o, SpeedKMH), uc),
      length := Step(r.length, KindOf(Length), Reading(o, Length), uc),
      speed := Step(r.speed, KindOf(Speed), Reading(o, Speed), uc),
      delay := Step(r.delay, KindOf(Delay), Reading(o, Delay), uc))
  }

  /** Each metric of the updated record is one accumulator step from the metric before. */
  lemma WithMetricsSteps(r: JamRecord, o: JamObs, uc: nat, m: Measure)
    requires uc > 0
    ensures MetricOf(WithMetrics(r, o, uc), m) == Step(MetricOf(r, m), KindOf(m), Reading(o, m), uc)
  {
  }

  /** One metric's summary of `hs` becomes, after the update, its summary of `hs + [o]`. */
  lemma WithMetricSummarises(r: JamRecord, hs: seq<JamObs>, o: JamObs, m: Measure)
    requires |hs| > 0 && MetricKept(r, hs, m)
    ensures MetricKept(WithMetrics(r, o, |hs| + 1), hs + [o], m)
  {
    var vs := Readings(hs, m);
    assert (hs + [o])[..|hs|] == hs;
    assert Readings(hs + [o], m) == vs + [Reading(o, m)];
    WithMetricsSteps(r, o, |hs| + 1, m);
    StepSummarises(KindOf(m), vs, Reading(o, m));
  }

  /** If every metric summarises `hs`, after the update every metric summarises `hs + [o]`. */
  lemma WithMetricsSummarises(r: JamRecord, hs: seq<JamObs>, o: JamObs)
    requires |hs| > 0 && MetricsKept(r, hs)
    ensures MetricsKept(WithMetrics(r, o, |hs| + 1), hs + [o])
  {
    WithMetricSummarises(r, hs, o, Level);
    WithMetricSummarises(r, hs, o, SpeedKMH);
    WithMetricSummarises(r, hs, o, Length);
    WithMetricSummarises(r, hs, o, Speed);
    WithMetricSummarises(r, hs, o, Delay);
  }

  /** The route line kept by a merge: the incoming one only when it has strictly more points. */
  function LongerLine(held: seq<Point>, incoming: seq<Point>): (line: seq<Point>)
    ensures |line| == Max(|held|, |incoming|)
    ensures line == (if |incoming| > |held| then incoming else held)
  {
    if |incoming| > |held| then incoming else held
  }

  /** The record after merging a later observation into it. */
  function MergedJam(r: JamRecord, o: JamObs, ts: int): JamRecord {
    var uc := r.updateCount + 1;
    WithMetrics(r.(
      updateCount := uc,
      street := o.street.GetOr(""),
      blockingAlertUuid := o.blockingAlertUuid.GetOr(""),
      roadType := RoadTypeValue(o),
      startNode := o.startNode.GetOr(""),
      endNode := o.endNode.GetOr(""),
      line := LongerLine(r.line, o.line.GetOr([])),
      segments := MergeSegments(r.segments, o.segments.GetOr([])),
      lastupdated := ts,
      finished := false), o, uc)
  }

  /** Each merge counts one more observation and keeps every accumulated statistic exact. */
  lemma MergedJamAccumulates(r: JamRecord, hs: seq<JamObs>, o: JamObs, ts: int)
    requires JamAccumulates(r, hs) && o.id == r.id
    ensures JamAccumulates(MergedJam(r, o, ts), hs + [o])
  {
    var r' := MergedJam(r, o, ts);
    var uc := r.updateCount + 1;
    var base := r.(
      updateCount := uc,
      street := o.street.GetOr(""),
      blockingAlertUuid := o.blockingAlertUuid.GetOr(""),
      roadType := RoadTypeValue(o),
      startNode := o.startNode.GetOr(""),
      endNode := o.endNode.GetOr(""),
      line := LongerLine(r.line, o.line.GetOr([])),
      segments := MergeSegments(r.segments, o.segments.GetOr([])),
      lastupdated := ts,
      finished := false);
    assert MetricsKept(base, hs);
    WithMetricsSummarises(base, hs, o);
    assert (hs + [o])[..|hs|] == hs;
    var ls := LineLengths(hs);
    assert LineLengths(hs + [o]) == ls + [|o.line.GetOr([])|];
    assert (ls + [|o.line.GetOr([])|])[..|ls|] == ls;
    MergeIds(r.segments, o.segments.GetOr([]));
  }

  function JamChange(id: int, field: string, before: Value, after: Value): seq<LogEntry> {
    if before != after then [JamFieldChanged(id, field, before, after)] else []
  }

  /** The log lines written while merging `o` into `r`. */
  function JamEntries(r: JamRecord, o: JamObs): seq<LogEntry> {
    var id := o.id;
    var incoming := o.line.GetOr([]);
    var added := Unseen(Ids(r.segments), o.segments.GetOr([]));
    JamChange(id, "street", Text(r.street), Text(o.street.GetOr("")))
    + JamChange(id, "blockingAlertUuid", Text(r.blockingAlertUuid), Text(o.blockingAlertUuid.GetOr("")))
    + JamChange(id, "roadType", r.roadType, RoadTypeValue(o))
    + JamChange(id, "startNode", Text(r.startNode), Text(o.startNode.GetOr("")))
    + JamChange(id, "endNode", Text(r.endNode), Text(o.endNode.GetOr("")))
    + (if |incoming| > |r.line| then [JamLineUpdated(id)] else [])
    + (if added != [] then [JamSegmentsAdded(id, |added|)] else [])
  }

  /** The names of the jam fields a merge may rewrite that differ between two records. */
  function ChangedJamFields(a: JamRecord, b: JamRecord): seq<string> {
    Flag(a.street != b.street, "street")
    + Flag(a.blockingAlertUuid != b.blockingAlertUuid, "blockingAlertUuid")
    + Flag(a.roadType != b.roadType, "roadType")
    + Flag(a.startNode != b.startNode, "startNode")
    + Flag(a.endNode != b.endNode, "endNode")
    + Flag(a.line != b.line, "line")
    + Flag(a.segments != b.segments, "segments")
  }

  lemma JamChangeFields(id: int, f: string, a: Value, b: Value)
    ensures EntryFields(JamChange(id, f, a, b)) == Flag(a != b, f)
  {
  }

  /** The field names logged by a jam merge are those of its seven chunks, in order. */
  lemma JamMergeFieldsDistribute(c1: seq<LogEntry>, c2: seq<LogEntry>, c3: seq<LogEntry>, c4: seq<LogEntry>,
                                c5: seq<LogEntry>, c6: seq<LogEntry>, c7: seq<LogEntry>)
    ensures EntryFields(c1 + c2 + c3 + c4 + c5 + c6 + c7)
         == EntryFields(c1) + EntryFields(c2) + EntryFields(c3) + EntryFields(c4) + EntryFields(c5)
          + EntryFields(c6) + EntryFields(c7)
  {
    EntryFieldsConcat(c1, c2);
    EntryFieldsConcat(c1 + c2, c3);
    EntryFieldsConcat(c1 + c2 + c3, c4);
    EntryFieldsConcat(c1 + c2 + c3 + c4, c5);
    EntryFieldsConcat(c1 + c2 + c3 + c4 + c5, c6);
    EntryFieldsConcat(c1 + c2 + c3 + c4 + c5 + c6, c7);
  }

  lemma LineEntryFields(r: JamRecord, o: JamObs, ts: int)
    ensures var incoming := o.line.GetOr([]);
      EntryFields(if |incoming| > |r.line| then [JamLineUpdated(o.id)] else [])
      == Flag(r.line != MergedJam(r, o, ts).line, "line")
  {
    var incoming := o.line.GetOr([]);
    assert MergedJam(r, o, ts).line == LongerLine(r.line, incoming);
  }

  lemma SegmentEntryFields(r: JamRecord, o: JamObs, ts: int)
    ensures var added := Unseen(Ids(r.segments), o.segments.GetOr([]));
      && EntryFields(if added != [] then [JamSegmentsAdded(o.id, |added|)] else [])
         == Flag(r.segments != MergedJam(r, o, ts).segments, "segments")
      && |added| == |MergedJam(r, o, ts).segments| - |r.segments|
  {
    var added := Unseen(Ids(r.segments), o.segments.GetOr([]));
    var merged := MergedJam(r, o, ts).segments;
    assert merged == r.segments + added;
    if added == [] {
      assert merged == r.segments;
    } else {
      assert |merged| > |r.segments|;
    }
  }

  /**
   * The fields the merge rewrites, one by one; `lastupdated` becomes the file timestamp,
   * `finished` False, and the identity and first-seen fields stay.
   */
  lemma MergedJamFields(r: JamRecord, o: JamObs, ts: int)
    ensures var m := MergedJam(r, o, ts);
      && m.street == o.street.GetOr("") && m.blockingAlertUuid == o.blockingAlertUuid.GetOr("")
      && m.roadType == RoadTypeValue(o)
      && m.startNode == o.startNode.GetOr("") && m.endNode == o.endNode.GetOr("")
      && m.lastupdated == ts && !m.finished && m.pubMillis == r.pubMillis
      && m.id == r.id && m.uuid == r.uuid && m.country == r.country && m.city == r.city
      && m.turnType == r.turnType
  {
  }

  /**
   * A jam merge logs exactly the rewritable fields whose value changed: the line when a
   * longer one is adopted, the segments when new ones are appended.
   */
  lemma JamLogNamesChangedFields(r: JamRecord, o: JamObs, ts: int)
    ensures EntryFields(JamEntries(r, o)) == ChangedJamFields(r, MergedJam(r, o, ts))
  {
    var id := o.id;
    var m := MergedJam(r, o, ts);
    var incoming := o.line.GetOr([]);
    var added := Unseen(Ids(r.segments), o.segments.GetOr([]));
    var c1 := JamChange(id, "street", Text(r.street), Text(o.street.GetOr("")));
    var c2 := JamChange(id, "blockingAlertUuid", Text(r.blockingAlertUuid), Text(o.blockingAlertUuid.GetOr("")));
    var c3 := JamChange(id, "roadType", r.roadType, RoadTypeValue(o));
    var c4 := JamChange(id, "startNode", Text(r.startNode), Text(o.startNode.GetOr("")));
    var c5 := JamChange(id, "endNode", Text(r.endNode), Text(o.endNode.GetOr("")));
    var c6 := if |incoming| > |r.line| then [JamLineUpdated(id)] else [];
    var c7 := if added != [] then [JamSegmentsAdded(id, |added|)] else [];
    assert JamEntries(r, o) == c1 + c2 + c3 + c4 + c5 + c6 + c7;
    MergedJamFields(r, o, ts);
    JamChangeFields(id, "street", Text(r.street), Text(m.street));
    JamChangeFields(id, "blockingAlertUuid", Text(r.blockingAlertUuid), Text(m.blockingAlertUuid));
    JamChangeFields(id, "roadType", r.roadType, m.roadType);
    JamChangeFields(id, "startNode", Text(r.startNode), Text(m.startNode));
    JamChangeFields(id, "endNode", Text(r.endNode), Text(m.endNode));
    LineEntryFields(r, o, ts);
    SegmentEntryFields(r, o, ts);
    JamMergeFieldsDistribute(c1, c2, c3, c4, c5, c6, c7);
  }

  /** The segments log line reports how many segments the merge appended. */
  lemma JamLogCountsAddedSegments(r: JamRecord, o: JamObs, ts: int)
    ensures forall e :: e in JamEntries(r, o) && e.JamSegmentsAdded? ==>
              e.count == |MergedJam(r, o, ts).segments| - |r.segments|
  {
    SegmentEntryFields(r, o, ts);
  }

  /** Two observations with level 4 then 8 give level_max 8, level_avg 6 and update count 2. */
  lemma LevelFourThenEight(o1: JamObs, o2: JamObs, t1: int, t2: int)
    requires o1.level == Some(4) && o2.level == Some(8)
    ensures MergedJam(NewJam(o1, t1), o2, t2).level == Metric(8, 12, Quotient(12, 2))
    ensures QuotientValue(MergedJam(NewJam(o1, t1), o2, t2).level.avg) == 6.0
    ensures MergedJam(NewJam(o1, t1), o2, t2).updateCount == 2
  {
  }

  // ----- the store -----

  /** The alert store after reconciling one observation (`update_alert`). */
  function UpsertAlert(m: map<string, AlertRecord>, o: AlertObs, ts: int): map<string, AlertRecord> {
    m[o.uuid := ReconciledAlert(m, o, ts)]
  }

  /** The record `o` leaves under its uuid: merged into the held one, or new. */
  function ReconciledAlert(m: map<string, AlertRecord>, o: AlertObs, ts: int): AlertRecord {
    if o.uuid in m then MergedAlert(m[o.uuid], o, ts) else NewAlert(o, ts)
  }

  /** The log lines that reconciling one alert observation writes. */
  function UpsertAlertLog(m: map<string, AlertRecord>, o: AlertObs): seq<LogEntry> {
    if o.uuid in m then AlertEntries(m[o.uuid], o) else [AlertAdded(o.uuid)]
  }

  /** The jam store after reconciling one observation (`update_jam`). */
  function UpsertJam(m: map<int, JamRecord>, o: JamObs, ts: int): map<int, JamRecord> {
    m[o.id := ReconciledJam(m, o, ts)]
  }

  function ReconciledJam(m: map<int, JamRecord>, o: JamObs, ts: int): JamRecord {
    if o.id in m then MergedJam(m[o.id], o, ts) else NewJam(o, ts)
  }

  function UpsertJamLog(m: map<int, JamRecord>, o: JamObs): seq<LogEntry> {
    if o.id in m then JamEntries(m[o.id], o) else [JamAdded(o.id)]
  }

  /** The alert store after reconciling a file's alerts in order. */
  function AlertsAfter(m: map<string, AlertRecord>, os: seq<AlertObs>, ts: int): map<string, AlertRecord> {
    if os == [] then m else UpsertAlert(AlertsAfter(m, os[..|os| - 1], ts), os[|os| - 1], ts)
  }

  function AlertsLog(m: map<string, AlertRecord>, os: seq<AlertObs>, ts: int): seq<LogEntry> {
    if os == [] then []
    else AlertsLog(m, os[..|os| - 1], ts) + UpsertAlertLog(AlertsAfter(m, os[..|os| - 1], ts), os[|os| - 1])
  }

  function JamsAfter(m: map<int, JamRecord>, os: seq<JamObs>, ts: int): map<int, JamRecord> {
    if os == [] then m else UpsertJam(JamsAfter(m, os[..|os| - 1], ts), os[|os| - 1], ts)
  }

  function JamsLog(m: map<int, JamRecord>, os: seq<JamObs>, ts: int): seq<LogEntry> {
    if os == [] then []
    else JamsLog(m, os[..|os| - 1], ts) + UpsertJamLog(JamsAfter(m, os[..|os| - 1], ts), os[|os| - 1])
  }

  lemma AppendAssociates(a: seq<LogEntry>, b: seq<LogEntry>, c: seq<LogEntry>)
    ensures a + b + c == a + (b + c)
  {
  }

  /** One more observation of a file extends its store and its log by one step. */
  lemma AlertsStep(m: map<string, AlertRecord>, os: seq<AlertObs>, i: int, ts: int)
    requires 0 <= i < |os|
    ensures AlertsAfter(m, os[..i + 1], ts) == UpsertAlert(AlertsAfter(m, os[..i], ts), os[i], ts)
    ensures AlertsLog(m, os[..i + 1], ts) == AlertsLog(m, os[..i], ts) + UpsertAlertLog(AlertsAfter(m, os[..i], ts), os[i])
  {
    assert os[..i + 1][..i] == os[..i];
  }

  lemma JamsStep(m: map<int, JamRecord>, os: seq<JamObs>, i: int, ts: int)
    requires 0 <= i < |os|
    ensures JamsAfter(m, os[..i + 1], ts) == UpsertJam(JamsAfter(m, os[..i], ts), os[i], ts)
    ensures JamsLog(m, os[..i + 1], ts) == JamsLog(m, os[..i], ts) + UpsertJamLog(JamsAfter(m, os[..i], ts), os[i])
  {
    assert os[..i + 1][..i] == os[..i];
  }

  /** One record per alert uuid: the store holds exactly the uuids held before or seen in the file. */
  lemma {:induction false} AlertsAfterKeys(m: map<string, AlertRecord>, os: seq<AlertObs>, ts: int)
    ensures AlertsAfter(m, os, ts).Keys == m.Keys + (set o | o in os :: o.uuid)
  {
    if os != [] {
      var front := os[..|os| - 1];
      AlertsAfterKeys(m, front, ts);
      UpsertAlertKeys(AlertsAfter(m, front, ts), os[|os| - 1], ts);
      AlertKeysOfFront(os);
    }
  }

  /** One record per jam id: the store holds exactly the ids held before or seen in the file. */
  lemma {:induction false} JamsAfterKeys(m: map<int, JamRecord>, os: seq<JamObs>, ts: int)
    ensures JamsAfter(m, os, ts).Keys == m.Keys + (set o | o in os :: o.id)
  {
    if os != [] {
      var front := os[..|os| - 1];
      JamsAfterKeys(m, front, ts);
      UpsertJamKeys(JamsAfter(m, front, ts), os[|os| - 1], ts);
      JamKeysOfFront(os);
    }
  }

  lemma UpsertAlertKeys(m: map<string, AlertRecord>, o: AlertObs, ts: int)
    ensures UpsertAlert(m, o, ts).Keys == m.Keys + {o.uuid}
  {
  }

  lemma UpsertJamKeys(m: map<int, JamRecord>, o: JamObs, ts: int)
    ensures UpsertJam(m, o, ts).Keys == m.Keys + {o.id}
  {
  }

  lemma AlertKeysOfFront(os: seq<AlertObs>)
    requires os != []
    ensures (set p | p in os :: p.uuid) == (set p | p in os[..|os| - 1] :: p.uuid) + {os[|os| - 1].uuid}
  {
    assert os == os[..|os| - 1] + [os[|os| - 1]];
    assert forall p :: p in os <==> p in os[..|os| - 1] || p == os[|os| - 1];
  }

  lemma JamKeysOfFront(os: seq<JamObs>)
    requires os != []
    ensures (set p | p in os :: p.id) == (set p | p in os[..|os| - 1] :: p.id) + {os[|os| - 1].id}
  {
    assert os == os[..|os| - 1] + [os[|os| - 1]];
    assert forall p :: p in os <==> p in os[..|os| - 1] || p == os[|os| - 1];
  }

  /** The observations of each uuid so far, extended by `o`. */
  function AddAlertObs(h: map<string, seq<AlertObs>>, o: AlertObs): map<string, seq<AlertObs>> {
    if o.uuid in h then h[o.uuid := h[o.uuid] + [o]] else h[o.uuid := [o]]
  }

  function AddJamObs(h: map<int, seq<JamObs>>, o: JamObs): map<int, seq<JamObs>> {
    if o.id in h then h[o.id := h[o.id] + [o]] else h[o.id := [o]]
  }

  /** The histories after a file's alerts, one observation after another. */
  function AlertHistoryAfter(h: map<string, seq<AlertObs>>, os: seq<AlertObs>): map<string, seq<AlertObs>> {
    if os == [] then h else AddAlertObs(AlertHistoryAfter(h, os[..|os| - 1]), os[|os| - 1])
  }

  function JamHistoryAfter(h: map<int, seq<JamObs>>, os: seq<JamObs>): map<int, seq<JamObs>> {
    if os == [] then h else AddJamObs(JamHistoryAfter(h, os[..|os| - 1]), os[|os| - 1])
  }

  /** The observations of `os` with uuid `u`, in file order. */
  function AlertObsOf(os: seq<AlertObs>, u: string): (r: seq<AlertObs>)
    ensures forall i :: 0 <= i < |r| ==> r[i].uuid == u
  {
    if os == [] then []
    else AlertObsOf(os[..|os| - 1], u) + (if os[|os| - 1].uuid == u then [os[|os| - 1]] else [])
  }

  /** The observations of `os` with id `id`, in file order. */
  function JamObsOf(os: seq<JamObs>, id: int): (r: seq<JamObs>)
    ensures forall i :: 0 <= i < |r| ==> r[i].id == id
  {
    if os == [] then []
    else JamObsOf(os[..|os| - 1], id) + (if os[|os| - 1].id == id then [os[|os| - 1]] else [])
  }

  /** The histories after a file hold the uuids held before and those the file carries. */
  lemma {:induction false} AlertHistoryAfterKeys(h: map<string, seq<AlertObs>>, os: seq<AlertObs>)
    ensures AlertHistoryAfter(h, os).Keys == h.Keys + (set o | o in os :: o.uuid)
  {
    if os != [] {
      AlertHistoryAfterKeys(h, os[..|os| - 1]);
      AlertKeysOfFront(os);
    }
  }

  /**
   * After a file, each uuid's history is what it held before followed by the file's
   * observations of that uuid, in file order; a uuid the file does not carry keeps its history.
   */
  lemma {:induction false} AlertHistoryAfterOf(h: map<string, seq<AlertObs>>, os: seq<AlertObs>)
    ensures forall u :: u in AlertHistoryAfter(h, os) ==>
      AlertHistoryAfter(h, os)[u] == (if u in h then h[u] else []) + AlertObsOf(os, u)
  {
    if os != [] {
      var init := os[..|os| - 1];
      AlertHistoryAfterOf(h, init);
      AlertHistoryAfterKeys(h, init);
      forall u | u in AlertHistoryAfter(h, os)
        ensures AlertHistoryAfter(h, os)[u] == (if u in h then h[u] else []) + AlertObsOf(os, u)
      {
        AlertHistoryStepOf(h, os, u);
      }
    }
  }

  /** One observation more: the pointwise step of `AlertHistoryAfterOf`. */
  lemma AlertHistoryStepOf(h: map<string, seq<AlertObs>>, os: seq<AlertObs>, u: string)
    requires os != [] && u in AlertHistoryAfter(h, os)
    requires var h0 := AlertHistoryAfter(h, os[..|os| - 1]);
      && h0.Keys == h.Keys + (set o | o in os[..|os| - 1] :: o.uuid)
      && (u in h0 ==> h0[u] == (if u in h then h[u] else []) + AlertObsOf(os[..|os| - 1], u))
    ensures AlertHistoryAfter(h, os)[u] == (if u in h then h[u] else []) + AlertObsOf(os, u)
  {
    var init, o := os[..|os| - 1], os[|os| - 1];
    var h0 := AlertHistoryAfter(h, init);
    var base := if u in h then h[u] else [];
    assert AlertObsOf(os, u) == AlertObsOf(init, u) + (if o.uuid == u then [o] else []);
    if u != o.uuid {
      assert AlertHistoryAfter(h, os)[u] == h0[u];
    } else if u in h0 {
      assert AlertHistoryAfter(h, os)[u] == h0[u] + [o];
      assert (base + AlertObsOf(init, u)) + [o] == base + (AlertObsOf(init, u) + [o]);
    } else {
      assert AlertHistoryAfter(h, os)[u] == [o];
      assert u !in h;
      if AlertObsOf(init, u) != [] {
        AlertObsOfMember(init, u);
      }
    }
  }

  /** A uuid with observations in `os` is one of the file's uuids. */
  lemma {:induction false} AlertObsOfMember(os: seq<AlertObs>, u: string)
    requires AlertObsOf(os, u) != []
    ensures u in (set o | o in os :: o.uuid)
  {
    var init, o := os[..|os| - 1], os[|os| - 1];
    if o.uuid != u {
      AlertObsOfMember(init, u);
      AlertKeysOfFront(os);
    } else {
      assert o in os;
    }
  }

  /** The histories after a file hold the ids held before and those the file carries. */
  lemma {:induction false} JamHistoryAfterKeys(h: map<int, seq<JamObs>>, os: seq<JamObs>)
    ensures JamHistoryAfter(h, os).Keys == h.Keys + (set o | o in os :: o.id)
  {
    if os != [] {
      JamHistoryAfterKeys(h, os[..|os| - 1]);
      JamKeysOfFront(os);
    }
  }

  /** After a file, each id's history is what it held before followed by the file's jams of that id, in file order. */
  lemma {:induction false} JamHistoryAfterOf(h: map<int, seq<JamObs>>, os: seq<JamObs>)
    ensures forall id :: id in JamHistoryAfter(h, os) ==>
      JamHistoryAfter(h, os)[id] == (if id in h then h[id] else []) + JamObsOf(os, id)
  {
    if os != [] {
      var init := os[..|os| - 1];
      JamHistoryAfterOf(h, init);
      JamHistoryAfterKeys(h, init);
      forall id | id in JamHistoryAfter(h, os)
        ensures JamHistoryAfter(h, os)[id] == (if id in h then h[id] else []) + JamObsOf(os, id)
      {
        JamHistoryStepOf(h, os, id);
      }
    }
  }

  /** One observation more: the pointwise step of `JamHistoryAfterOf`. */
  lemma JamHistoryStepOf(h: map<int, seq<JamObs>>, os: seq<JamObs>, id: int)
    requires os != [] && id in JamHistoryAfter(h, os)
    requires var h0 := JamHistoryAfter(h, os[..|os| - 1]);
      && h0.Keys == h.Keys + (set o | o in os[..|os| - 1] :: o.id)
      && (id in h0 ==> h0[id] == (if id in h then h[id] else []) + JamObsOf(os[..|os| - 1], id))
    ensures JamHistoryAfter(h, os)[id] == (if id in h then h[id] else []) + JamObsOf(os, id)
  {
    var init, o := os[..|os| - 1], os[|os| - 1];
    var h0 := JamHistoryAfter(h, init);
    var base := if id in h then h[id] else [];
    assert JamObsOf(os, id) == JamObsOf(init, id) + (if o.id == id then [o] else []);
    if id != o.id {
      assert JamHistoryAfter(h, os)[id] == h0[id];
    } else if id in h0 {
      assert JamHistoryAfter(h, os)[id] == h0[id] + [o];
      assert (base + JamObsOf(init, id)) + [o] == base + (JamObsOf(init, id) + [o]);
    } else {
      assert JamHistoryAfter(h, os)[id] == [o];
      assert id !in h;
      if JamObsOf(init, id) != [] {
        JamObsOfMember(init, id);
      }
    }
  }

  lemma {:induction false} JamObsOfMember(os: seq<JamObs>, id: int)
    requires JamObsOf(os, id) != []
    ensures id in (set o | o in os :: o.id)
  {
    var init, o := os[..|os| - 1], os[|os| - 1];
    if o.id != id {
      JamObsOfMember(init, id);
      JamKeysOfFront(os);
    } else {
      assert o in os;
    }
  }

  /** Every stored alert sits under its own uuid and accounts for the observations of that uuid. */
  predicate AlertsAccount(m: map<string, AlertRecord>, h: map<string, seq<AlertObs>>) {
    && m.Keys == h.Keys
    && forall u :: u in m ==> m[u].uuid == u && AlertAccumulates(m[u], h[u])
  }

  /** Every stored jam sits under its own id and accounts for the observations of that id. */
  predicate JamsAccount(m: map<int, JamRecord>, h: map<int, seq<JamObs>>) {
    && m.Keys == h.Keys
    && forall id :: id in m ==> m[id].id == id && JamAccumulates(m[id], h[id])
  }

  /** Reconciling an alert observation keeps every record's accumulated scores exact. */
  lemma UpsertAlertAccounts(m: map<string, AlertRecord>, h: map<string, seq<AlertObs>>, o: AlertObs, ts: int)
    requires AlertsAccount(m, h)
    ensures AlertsAccount(UpsertAlert(m, o, ts), AddAlertObs(h, o))
  {
    if o.uuid in m {
      MergedAlertAccumulates(m[o.uuid], h[o.uuid], o, ts);
    }
  }

  /** Reconciling a jam observation keeps every record's accumulated metrics exact. */
  lemma UpsertJamAccounts(m: map<int, JamRecord>, h: map<int, seq<JamObs>>, o: JamObs, ts: int)
    requires JamsAccount(m, h)
    ensures JamsAccount(UpsertJam(m, o, ts), AddJamObs(h, o))
  {
    if o.id in m {
      MergedJamAccumulates(m[o.id], h[o.id], o, ts);
    }
  }

  /**
   * `m'` holds the same uuids as `m`, each record as it was or with `t` as `lastupdated`:
   * what a sweep leaves behind, also when it stops part way.
   */
  predicate Restamped(m: map<string, AlertRecord>, m': map<string, AlertRecord>, t: int) {
    && m'.Keys == m.Keys
    && forall u :: u in m' ==> m'[u] == m[u] || m'[u] == m[u].(lastupdated := t)
  }

  /** `lastupdated` plays no part in what a record accumulates. */
  lemma RestampedAlertAccumulates(r: AlertRecord, hs: seq<AlertObs>, t: int)
    requires AlertAccumulates(r, hs)
    ensures AlertAccumulates(r.(lastupdated := t), hs)
  {
    assert ScoreKept(r.(lastupdated := t), hs, ReportRating) == ScoreKept(r, hs, ReportRating);
    assert ScoreKept(r.(lastupdated := t), hs, Confidence) == ScoreKept(r, hs, Confidence);
    assert ScoreKept(r.(lastupdated := t), hs, Reliability) == ScoreKept(r, hs, Reliability);
  }

  lemma SweptJamAccumulates(r: JamRecord, hs: seq<JamObs>, t: int)
    requires JamAccumulates(r, hs)
    ensures JamAccumulates(SweptJam(r, t), hs) && SweptJam(r, t).id == r.id
  {
    assert MetricsKept(r.(lastupdated := t), hs) == MetricsKept(r, hs);
  }

  /** Rewriting `lastupdated` in any of the records keeps the alert store accounted for. */
  lemma RestampedAlertsAccount(m: map<string, AlertRecord>, m': map<string, AlertRecord>,
                               h: map<string, seq<AlertObs>>, t: int)
    requires AlertsAccount(m, h) && Restamped(m, m', t)
    ensures AlertsAccount(m', h)
  {
    forall u | u in m' ensures m'[u].uuid == u && AlertAccumulates(m'[u], h[u]) {
      RestampedAlertAccumulates(m[u], h[u], t);
    }
  }

  /** Rewriting `lastupdated` in the records keeps the jam store accounted for. */
  lemma SweepJamsAccount(m: map<int, JamRecord>, h: map<int, seq<JamObs>>, t: int)
    requires JamsAccount(m, h)
    ensures JamsAccount(SweepJams(m, t), h)
  {
    var m' := SweepJams(m, t);
    forall id | id in m' ensures m'[id].id == id && JamAccumulates(m'[id], h[id]) {
      SweptJamAccumulates(m[id], h[id], t);
    }
  }

  // ----- the sweep across missing files -----

  /** The earlier timestamp of the last pair of neighbours more than an hour apart. */
  function LastGapStart(ts: seq<int>): Option<int> {
    if |ts| < 2 then None
    else if ts[|ts| - 1] - ts[|ts| - 2] > GAP_MILLIS then Some(ts[|ts| - 2])
    else LastGapStart(ts[..|ts| - 1])
  }

  /** `ts[i]` starts a gap. */
  predicate GapAt(ts: seq<int>, i: int) {
    0 <= i < |ts| - 1 && ts[i + 1] - ts[i] > GAP_MILLIS
  }

  /** A gap of a prefix is a gap of the whole series. */
  lemma GapOfPrefix(ts: seq<int>, k: int, i: int)
    requires 0 <= k <= |ts|
    ensures GapAt(ts[..k], i) ==> GapAt(ts, i)
    ensures 0 <= i < k - 1 ==> (GapAt(ts[..k], i) <==> GapAt(ts, i))
  {
  }

  /** There is a gap start exactly when some neighbours are more than an hour apart. */
  lemma {:induction false} LastGapStartExists(ts: seq<int>)
    ensures LastGapStart(ts) == None <==> forall i :: 0 <= i < |ts| - 1 ==> !GapAt(ts, i)
  {
    if |ts| >= 2 {
      var front := ts[..|ts| - 1];
      var n := |ts| - 2;
      if GapAt(ts, n) {
        assert LastGapStart(ts).Some?;
      } else {
        assert LastGapStart(ts) == LastGapStart(front);
        LastGapStartExists(front);
        forall i | 0 <= i < |front| - 1 ensures GapAt(front, i) <==> GapAt(ts, i) {
          GapOfPrefix(ts, |ts| - 1, i);
        }
        assert (forall i :: 0 <= i < |ts| - 1 ==> !GapAt(ts, i))
          <==> (forall i :: 0 <= i < |front| - 1 ==> !GapAt(front, i));
      }
    }
  }

  /**
   * Later gaps override earlier ones: the gap start found is a gap, and no gap follows it.
   */
  lemma {:induction false} LastGapStartIsLast(ts: seq<int>)
    ensures LastGapStart(ts).Some? ==>
      exists i :: GapAt(ts, i) && ts[i] == LastGapStart(ts).value && NoGapAfter(ts, i)
  {
    if |ts| >= 2 {
      var front := ts[..|ts| - 1];
      var n := |ts| - 2;
      if GapAt(ts, n) {
        assert ts[n] == LastGapStart(ts).value && NoGapAfter(ts, n);
      } else if LastGapStart(front).Some? {
        LastGapStartIsLast(front);
        var i :| GapAt(front, i) && front[i] == LastGapStart(front).value && NoGapAfter(front, i);
        NoGapAfterFront(ts, i);
        assert GapAt(ts, i) && ts[i] == LastGapStart(ts).value;
      }
    }
  }

  /** A series with a gap has a last gap start. */
  lemma GapHasStart(ts: seq<int>, i: int)
    requires GapAt(ts, i)
    ensures LastGapStart(ts).Some?
  {
    LastGapStartExists(ts);
  }

  /** No gap starts after index `i`. */
  predicate NoGapAfter(ts: seq<int>, i: int) {
    forall j :: i < j < |ts| - 1 ==> !GapAt(ts, j)
  }

  /** Dropping the last timestamp keeps the gaps before it. */
  lemma NoGapAfterFront(ts: seq<int>, i: int)
    requires |ts| >= 2 && !GapAt(ts, |ts| - 2)
    requires GapAt(ts[..|ts| - 1], i) && NoGapAfter(ts[..|ts| - 1], i)
    ensures GapAt(ts, i) && NoGapAfter(ts, i)
  {
    GapOfPrefix(ts, |ts| - 1, i);
    forall j | i < j < |ts| - 1 ensures !GapAt(ts, j) {
      GapOfPrefix(ts, |ts| - 1, j);
    }
  }

  /** `handle_missing_files` on one alert: an unfinished record takes `t` as `lastupdated`. */
  function SweptAlert(r: AlertRecord, t: int): AlertRecord
    requires r.finished.Some?
  {
    if r.finished == Some(false) then r.(lastupdated := t) else r
  }

  function SweptJam(r: JamRecord, t: int): JamRecord
  {
    if !r.finished then r.(lastupdated := t) else r
  }

  /** Every alert has been merged at least once, so the sweep can read its "finished" key. */
  predicate AllMerged(m: map<string, AlertRecord>) {
    forall u :: u in m ==> m[u].finished.Some?
  }

  function SweepAlerts(m: map<string, AlertRecord>, t: int): map<string, AlertRecord>
    requires AllMerged(m)
  {
    map u | u in m :: SweptAlert(m[u], t)
  }

  function SweepJams(m: map<int, JamRecord>, t: int): map<int, JamRecord> {
    map id | id in m :: SweptJam(m[id], t)
  }

  /** Sweeping twice, the later sweep's timestamp is the one that remains. */
  lemma LaterAlertSweepWins(m: map<string, AlertRecord>, t1: int, t2: int)
    requires AllMerged(m)
    ensures AllMerged(SweepAlerts(m, t1))
    ensures SweepAlerts(SweepAlerts(m, t1), t2) == SweepAlerts(m, t2)
  {
    var m1 := SweepAlerts(m, t1);
    assert AllMerged(m1) by {
      forall u | u in m1 ensures m1[u].finished.Some? {
        assert m1[u] == SweptAlert(m[u], t1);
      }
    }
    var a := SweepAlerts(m1, t2);
    var b := SweepAlerts(m, t2);
    forall u | u in a ensures a[u] == b[u] {
      assert a[u] == SweptAlert(SweptAlert(m[u], t1), t2);
    }
    assert a.Keys == b.Keys;
  }

  /** Sweeping twice, the later sweep's timestamp is the one that remains. */
  lemma LaterJamSweepWins(m: map<int, JamRecord>, t1: int, t2: int)
    ensures SweepJams(SweepJams(m, t1), t2) == SweepJams(m, t2)
  {
    var a := SweepJams(SweepJams(m, t1), t2);
    var b := SweepJams(m, t2);
    forall id | id in a ensures a[id] == b[id] {
      assert a[id] == SweptJam(SweptJam(m[id], t1), t2);
    }
    assert a.Keys == b.Keys;
  }

  /**
   * The stores `am` and `jm` are `a0` and `j0` swept at the gap start `g`: unchanged
   * when there is none.
   */
  predicate SweptTo(a0: map<string, AlertRecord>, j0: map<int, JamRecord>, g: Option<int>,
                    am: map<string, AlertRecord>, jm: map<int, JamRecord>) {
    match g
    case None => am == a0 && jm == j0
    case Some(t) => AllMerged(a0) && am == SweepAlerts(a0, t) && jm == SweepJams(j0, t)
  }

  /** The timestamps up to and including index `i`. */
  function Upto(s: seq<int>, i: nat): seq<int> {
    s[..if i < |s| then i + 1 else |s|]
  }

  /** The gap start of the timestamps up to `s[i + 1]`: `s[i]` if a gap starts there. */
  lemma GapStartStep(s: seq<int>, i: nat)
    requires i + 1 < |s|
    ensures LastGapStart(Upto(s, i + 1)) ==
      if s[i + 1] - s[i] > GAP_MILLIS then Some(s[i]) else LastGapStart(Upto(s, i))
  {
    assert Upto(s, i + 1)[..i + 1] == Upto(s, i);
  }

  /**
   * A sweep at `t` after the sweeps so far lands where a single sweep at `t` would; the
   * sweeps so far keep the uuids and whether every alert was merged.
   */
  lemma SweepAgain(a0: map<string, AlertRecord>, j0: map<int, JamRecord>, g: Option<int>, t: int,
                   am: map<string, AlertRecord>, jm: map<int, JamRecord>)
    requires SweptTo(a0, j0, g, am, jm)
    ensures AllMerged(am) == AllMerged(a0) && am.Keys == a0.Keys
    ensures !AllMerged(a0) ==> jm == j0
    ensures AllMerged(a0) ==> SweptTo(a0, j0, Some(t), SweepAlerts(am, t), SweepJams(jm, t))
  {
    if g.Some? {
      LaterAlertSweepWins(a0, g.value, t);
      LaterJamSweepWins(j0, g.value, t);
    }
  }

  predicate Sorted(s: seq<int>) {
    forall i, j :: 0 <= i < j < |s| ==> s[i] <= s[j]
  }

  /** `file_timestamps.sort()`: insertion sort in place. */
  method SortTimestamps(a: array<int>)
    modifies a
    ensures Sorted(a[..])
    ensures multiset(a[..]) == multiset(old(a[..]))
  {
    for i := 0 to a.Length
      invariant Sorted(a[..i])
      invariant multiset(a[..]) == multiset(old(a[..]))
    {
      InsertAt(a, i);
    }
    assert a[..a.Length] == a[..];
  }

  /** Moves `a[i]` down into the sorted prefix `a[..i]`. */
  method InsertAt(a: array<int>, i: int)
    requires 0 <= i < a.Length && Sorted(a[..i])
    modifies a
    ensures Sorted(a[..i + 1])
    ensures multiset(a[..]) == multiset(old(a[..]))
  {
    var j := i;
    while j > 0 && a[j - 1] > a[j]
      invariant 0 <= j <= i
      invariant forall m, n :: 0 <= m < n <= i && m != j && n != j ==> a[m] <= a[n]
      invariant forall n :: j < n <= i ==> a[j] < a[n]
      invariant multiset(a[..]) == multiset(old(a[..]))
    {
      a[j - 1], a[j] := a[j], a[j - 1];
      j := j - 1;
    }
  }

  /** The merge branch of `update_alert`, one field group at a time, with its log lines. */
  method MergeAlert(existing: AlertRecord, o: AlertObs, ts: int) returns (merged: AlertRecord, entries: seq<LogEntry>)
    ensures merged == MergedAlert(existing, o, ts)
    ensures entries == AlertEntries(existing, o)
  {
    var uuid := o.uuid;
    // descriptive fields: the latest value replaces the stored one
    entries := TextChange(uuid, "country", existing.country, o.country.GetOr(""))
      + TextChange(uuid, "city", existing.city, o.city.GetOr(""))
      + TextChange(uuid, "type", existing.alertType, o.alertType.GetOr(""))
      + TextChange(uuid, "subtype", existing.subtype, o.subtype.GetOr(""))
      + TextChange(uuid, "street", existing.street, o.street.GetOr(""))
      + TextChange(uuid, "reportDescription", existing.reportDescription, o.reportDescription.GetOr(""));
    merged := existing.(
      country := o.country.GetOr(""),
      city := o.city.GetOr(""),
      alertType := o.alertType.GetOr(""),
      subtype := o.subtype.GetOr(""),
      street := o.street.GetOr(""),
      reportDescription := o.reportDescription.GetOr(""));
    // quality scores: written and logged only when the observation raises them
    var rating := o.reportRating.GetOr(-1);
    entries := entries + RaiseChange(uuid, "reportRating", merged.reportRating, rating);
    if rating > merged.reportRating {
      merged := merged.(reportRating := rating);
    }
    assert merged.reportRating == Max(existing.reportRating, rating);
    var confidence := o.confidence.GetOr(-1);
    entries := entries + RaiseChange(uuid, "confidence", merged.confidence, confidence);
    if confidence > merged.confidence {
      merged := merged.(confidence := confidence);
    }
    assert merged.confidence == Max(existing.confidence, confidence);
    var reliability := o.reliability.GetOr(-1);
    entries := entries + RaiseChange(uuid, "reliability", merged.reliability, reliability);
    if reliability > merged.reliability {
      merged := merged.(reliability := reliability);
    }
    assert merged.reliability == Max(existing.reliability, reliability);
    // road type and heading: the latest value replaces the stored one
    entries := entries + NumberChange(uuid, "roadType", merged.roadType, o.roadType.GetOr(-1))
      + NumberChange(uuid, "magvar", merged.magvar, o.magvar.GetOr(-1));
    merged := merged.(roadType := o.roadType.GetOr(-1), magvar := o.magvar.GetOr(-1));
    if o.location != merged.location {
      entries := entries + [AlertLocationUpdated(uuid)];
      merged := merged.(location := o.location);
    }
    merged := merged.(lastupdated := ts, finished := Some(false));
  }

  /** The merge branch of `update_jam`, with its log lines. */
  method MergeJam(existing: JamRecord, o: JamObs, ts: int) returns (merged: JamRecord, entries: seq<LogEntry>)
    ensures merged == MergedJam(existing, o, ts)
    ensures entries == JamEntries(existing, o)
  {
    var id := o.id;
    var uc := existing.updateCount + 1;
    entries := JamChange(id, "street", Text(existing.street), Text(o.street.GetOr("")))
      + JamChange(id, "blockingAlertUuid", Text(existing.blockingAlertUuid), Text(o.blockingAlertUuid.GetOr("")))
      + JamChange(id, "roadType", existing.roadType, RoadTypeValue(o))
      + JamChange(id, "startNode", Text(existing.startNode), Text(o.startNode.GetOr("")))
      + JamChange(id, "endNode", Text(existing.endNode), Text(o.endNode.GetOr("")));
    merged := existing.(
      updateCount := uc,
      street := o.street.GetOr(""),
      blockingAlertUuid := o.blockingAlertUuid.GetOr(""),
      roadType := RoadTypeValue(o),
      startNode := o.startNode.GetOr(""),
      endNode := o.endNode.GetOr(""));
    // the route line is replaced only by a strictly longer one
    var line := o.line.GetOr([]);
    if |line| > |merged.line| {
      entries := entries + [JamLineUpdated(id)];
      merged := merged.(line := line);
    }
    // segments whose ID is not held yet are appended in arrival order
    var segments := merged.segments;
    var added := Unseen(Ids(segments), o.segments.GetOr([]));
    if added != [] {
      entries := entries + [JamSegmentsAdded(id, |added|)];
      segments := segments + added;
    }
    merged := merged.(segments := segments);
    merged := WithMetrics(merged, o, uc);
    merged := merged.(lastupdated := ts, finished := false);
  }

  /**
   * The alert loop of one gap's sweep, visiting the records one at a time. Reaching a
   * record with no "finished" key stops it with `ok` false.
   */
  method SweepAlertMap(m: map<string, AlertRecord>, t: int) returns (m': map<string, AlertRecord>, ok: bool)
    ensures ok == AllMerged(m)
    ensures ok ==> m' == SweepAlerts(m, t)
    ensures Restamped(m, m', t)
  {
    m' := m;
    ok := true;
    var pending := m.Keys;
    while pending != {}
      invariant m'.Keys == m.Keys && pending <= m.Keys
      invariant forall u :: u in m && u !in pending ==> m[u].finished.Some?
      invariant forall u :: u in m' ==>
                  m'[u] == (if u in pending then m[u] else SweptAlert(m[u], t))
      decreases pending
    {
      var u :| u in pending;
      var r := m'[u];
      if r.finished.None? {
        ok := false;
        return;
      }
      if r.finished == Some(false) {
        m' := m'[u := r.(lastupdated := t)];
      }
      pending := pending - {u};
    }
    assert m'.Keys == SweepAlerts(m, t).Keys;
  }

  /** Some key of a non-empty key set: the next one a dict's iteration yields. */
  method NextKey<K>(keys: set<K>) returns (k: K)
    requires keys != {}
    ensures k in keys
  {
    k :| k in keys;
  }

  /** The jam loop of one gap's sweep. */
  method SweepJamMap(m: map<int, JamRecord>, t: int) returns (m': map<int, JamRecord>)
    ensures m' == SweepJams(m, t)
  {
    m' := m;
    var pending := m.Keys;
    while pending != {}
      invariant m'.Keys == m.Keys && pending <= m.Keys
      invariant forall id :: id in m' ==>
                  m'[id] == (if id in pending then m[id] else SweptJam(m[id], t))
      decreases pending
    {
      var id := NextKey(pending);
      if !m'[id].finished {
        m' := m'[id := SweptJam(m'[id], t)];
      }
      pending := pending - {id};
    }
    forall id | id in m' ensures m'[id] == SweepJams(m, t)[id] {
    }
    assert m'.Keys == SweepJams(m, t).Keys;
  }

  /**
   * The batch store: one record per alert uuid and per jam id, and the log. The ghost
   * histories hold every observation merged into each record.
   */
  class DataStore {
    var alerts: map<string, AlertRecord>
    var jams: map<int, JamRecord>
    var log: seq<LogEntry>
    ghost var alertHistory: map<string, seq<AlertObs>>
    ghost var jamHistory: map<int, seq<JamObs>>

    ghost predicate Valid()
      reads this
    {
      AlertsAccount(alerts, alertHistory) && JamsAccount(jams, jamHistory)
    }

    constructor ()
      ensures Valid()
      ensures alerts == map[] && jams == map[] && log == []
    {
      alerts := map[];
      jams := map[];
      log := [];
      alertHistory := map[];
      jamHistory := map[];
    }

    /** `update_alert`: create the record, or merge the observation into it. */
    method UpdateAlert(o: AlertObs, ts: int)
      requires Valid()
      modifies this
      ensures Valid()
      ensures alerts == UpsertAlert(old(alerts), o, ts)
      ensures log == old(log) + UpsertAlertLog(old(alerts), o)
      ensures jams == old(jams) && jamHistory == old(jamHistory)
      ensures alertHistory == AddAlertObs(old(alertHistory), o)
    {
      UpsertAlertAccounts(alerts, alertHistory, o, ts);
      var uuid := o.uuid;
      if uuid in alerts {
        var merged, entries := MergeAlert(alerts[uuid], o, ts);
        alerts := alerts[uuid := merged];
        log := log + entries;
      } else {
        log := log + [AlertAdded(uuid)];
        alerts := alerts[uuid := NewAlert(o, ts)];
      }
      alertHistory := AddAlertObs(alertHistory, o);
    }

    /** `update_jam`: create the record, or merge the observation into it. */
    method UpdateJam(o: JamObs, ts: int)
      requires Valid()
      modifies this
      ensures Valid()
      ensures jams == UpsertJam(old(jams), o, ts)
      ensures log == old(log) + UpsertJamLog(old(jams), o)
      ensures alerts == old(alerts) && alertHistory == old(alertHistory)
      ensures jamHistory == AddJamObs(old(jamHistory), o)
    {
      UpsertJamAccounts(jams, jamHistory, o, ts);
      var id := o.id;
      if id in jams {
        var merged, entries := MergeJam(jams[id], o, ts);
        jams := jams[id := merged];
        log := log + entries;
      } else {
        log := log + [JamAdded(id)];
        jams := jams[id := NewJam(o, ts)];
      }
      jamHistory := AddJamObs(jamHistory, o);
    }

    /** `process_file`: reconcile a snapshot's alerts, then its jams, stamped with the file's time. */
    method ProcessFile(snap: Snapshot, ts: int)
      requires Valid()
      modifies this
      ensures Valid()
      ensures alerts == AlertsAfter(old(alerts), snap.alerts, ts)
      ensures jams == JamsAfter(old(jams), snap.jams, ts)
      ensures log == old(log) + AlertsLog(old(alerts), snap.alerts, ts) + JamsLog(old(jams), snap.jams, ts)
      ensures alertHistory == AlertHistoryAfter(old(alertHistory), snap.alerts)
      ensures jamHistory == JamHistoryAfter(old(jamHistory), snap.jams)
    {
      ProcessAlerts(snap.alerts, ts);
      ProcessJams(snap.jams, ts);
    }

    /** The alert loop of `process_file`. */
    method ProcessAlerts(os: seq<AlertObs>, ts: int)
      requires Valid()
      modifies this
      ensures Valid()
      ensures alerts == AlertsAfter(old(alerts), os, ts)
      ensures log == old(log) + AlertsLog(old(alerts), os, ts)
      ensures alertHistory == AlertHistoryAfter(old(alertHistory), os)
      ensures jams == old(jams) && jamHistory == old(jamHistory)
    {
      for i := 0 to |os|
        invariant Valid()
        invariant alerts == AlertsAfter(old(alerts), os[..i], ts)
        invariant log == old(log) + AlertsLog(old(alerts), os[..i], ts)
        invariant alertHistory == AlertHistoryAfter(old(alertHistory), os[..i])
        invariant jams == old(jams) && jamHistory == old(jamHistory)
      {
        assert os[..i + 1][..i] == os[..i];
        ghost var held := alerts;
        UpdateAlert(os[i], ts);
        AlertsStep(old(alerts), os, i, ts);
        AppendAssociates(old(log), AlertsLog(old(alerts), os[..i], ts), UpsertAlertLog(held, os[i]));
      }
      assert os[..|os|] == os;
    }

    /** The jam loop of `process_file`. */
    method ProcessJams(os: seq<JamObs>, ts: int)
      requires Valid()
      modifies this
      ensures Valid()
      ensures jams == JamsAfter(old(jams), os, ts)
      ensures log == old(log) + JamsLog(old(jams), os, ts)
      ensures jamHistory == JamHistoryAfter(old(jamHistory), os)
      ensures alerts == old(alerts) && alertHistory == old(alertHistory)
    {
      for i := 0 to |os|
        invariant Valid()
        invariant jams == JamsAfter(old(jams), os[..i], ts)
        invariant log == old(log) + JamsLog(old(jams), os[..i], ts)
        invariant jamHistory == JamHistoryAfter(old(jamHistory), os[..i])
        invariant alerts == old(alerts) && alertHistory == old(alertHistory)
      {
        assert os[..i + 1][..i] == os[..i];
        ghost var held := jams;
        UpdateJam(os[i], ts);
        JamsStep(old(jams), os, i, ts);
        AppendAssociates(old(log), JamsLog(old(jams), os[..i], ts), UpsertJamLog(held, os[i]));
      }
      assert os[..|os|] == os;
    }

    /**
     * One gap's alert sweep. An alert never merged has no "finished" key: reaching one
     * fails (`ok` false) and leaves the alerts not yet visited as they were.
     */
    method SweepAlertsAt(t: int) returns (ok: bool)
      requires Valid()
      modifies this
      ensures Valid()
      ensures ok == AllMerged(old(alerts))
      ensures ok ==> alerts == SweepAlerts(old(alerts), t)
      ensures Restamped(old(alerts), alerts, t)
      ensures jams == old(jams) && log == old(log)
      ensures alertHistory == old(alertHistory) && jamHistory == old(jamHistory)
    {
      var swept;
      swept, ok := SweepAlertMap(alerts, t);
      RestampedAlertsAccount(alerts, swept, alertHistory, t);
      alerts := swept;
    }

    /** One gap's jam sweep: every unfinished jam takes `t` as `lastupdated`. */
    method SweepJamsAt(t: int)
      requires Valid()
      modifies this
      ensures Valid()
      ensures jams == SweepJams(old(jams), t)
      ensures alerts == old(alerts) && log == old(log)
      ensures alertHistory == old(alertHistory) && jamHistory == old(jamHistory)
    {
      var swept := SweepJamMap(jams, t);
      SweepJamsAccount(jams, jamHistory, t);
      jams := swept;
    }

    /**
     * `handle_missing_files`: sort the timestamps, then sweep at the start of every gap.
     * When it succeeds the net effect is that of the last gap; it fails at the first gap
     * if some alert was never merged.
     */
    method HandleMissingFiles(a: array<int>) returns (ok: bool)
      requires Valid()
      modifies this, a
      ensures Valid()
      ensures Sorted(a[..]) && multiset(a[..]) == multiset(old(a[..]))
      ensures ok <==> LastGapStart(a[..]) == None || AllMerged(old(alerts))
      ensures ok ==> SweptTo(old(alerts), old(jams), LastGapStart(a[..]), alerts, jams)
      ensures !ok ==> jams == old(jams) && alerts.Keys == old(alerts).Keys
      ensures log == old(log)
      ensures alertHistory == old(alertHistory) && jamHistory == old(jamHistory)
    {
      SortTimestamps(a);
      ok := SweepGaps(a[..]);
    }

    /** The loop of `handle_missing_files` over the sorted timestamps `s`. */
    method SweepGaps(s: seq<int>) returns (ok: bool)
      requires Valid()
      modifies this
      ensures Valid()
      ensures ok <==> LastGapStart(s) == None || AllMerged(old(alerts))
      ensures ok ==> SweptTo(old(alerts), old(jams), LastGapStart(s), alerts, jams)
      ensures !ok ==> jams == old(jams) && alerts.Keys == old(alerts).Keys
      ensures log == old(log)
      ensures alertHistory == old(alertHistory) && jamHistory == old(jamHistory)
    {
      ghost var a0, j0 := alerts, jams;
      ghost var g: Option<int> := None;
      ok := true;
      var i := 0;
      while i + 1 < |s|
        invariant i < |s| || |s| == 0
        invariant Valid() && log == old(log)
        invariant alertHistory == old(alertHistory) && jamHistory == old(jamHistory)
        invariant g == LastGapStart(Upto(s, i))
        invariant SweptTo(a0, j0, g, alerts, jams)
      {
        GapStartStep(s, i);
        SweepAgain(a0, j0, g, s[i], alerts, jams);
        if s[i + 1] - s[i] > GAP_MILLIS {
          ok := SweepAlertsAt(s[i]);
          if !ok {
            GapHasStart(s, i);
            return;
          }
          SweepJamsAt(s[i]);
          g := Some(s[i]);
        }
        i := i + 1;
      }
      assert Upto(s, i) == s;
    }
  }
}
