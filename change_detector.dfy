/**
 * The snapshot diff detector: every alert and jam of every JSON file, in sorted path order,
 * is projected onto a fixed list of tracked fields and compared with the projection stored
 * for its uuid; a change is reported field by field, and the new projection is stored.
 */
module ChangeDetector {
  import opened Wrappers
  import opened Feed

  /** The names of the tracked fields. */
  datatype Field =
    | Country | City | ReportRating | Confidence | Reliability | Type | Subtype | Street
    | RoadType | Location | PubMillis | Level | SpeedKMH | Length | Delay | Line

  /** `tracked_alert_fields`, in its order. */
  const TrackedAlertFields: seq<Field> :=
    [Country, City, ReportRating, Confidence, Reliability, Type, Subtype, Street, RoadType, Location, PubMillis]

  /** `tracked_jam_fields`, in its order. */
  const TrackedJamFields: seq<Field> :=
    [Country, Level, City, SpeedKMH, Length, Delay, Street, RoadType, Line, PubMillis]

  /** An observation projected onto tracked fields: `{k: obs.get(k) for k in tracked}`. */
  type Projection = map<Field, Value>

  /** `alert.get(k)`: the field's value, `None` when the alert lacks it. */
  function AlertValue(o: AlertObs, f: Field): Value {
    match f
    case Country => TextOr(o.country)
    case City => TextOr(o.city)
    case ReportRating => IntOr(o.reportRating)
    case Confidence => IntOr(o.confidence)
    case Reliability => IntOr(o.reliability)
    case Type => TextOr(o.alertType)
    case Subtype => TextOr(o.subtype)
    case Street => TextOr(o.street)
    case RoadType => IntOr(o.roadType)
    case Location => if o.location.Some? then Loc(o.location.value) else Null
    case PubMillis => IntOr(o.pubMillis)
    case _ => Null
  }

  /** `jam.get(k)`. */
  function JamValue(o: JamObs, f: Field): Value {
    match f
    case Country => TextOr(o.country)
    case Level => IntOr(o.level)
    case City => TextOr(o.city)
    case SpeedKMH => IntOr(o.speedKMH)
    case Length => IntOr(o.length)
    case Delay => IntOr(o.delay)
    case Street => TextOr(o.street)
    case RoadType => IntOr(o.roadType)
    case Line => if o.line.Some? then Route(o.line.value) else Null
    case PubMillis => IntOr(o.pubMillis)
    case _ => Null
  }

  function AlertProjection(o: AlertObs): (p: Projection)
    ensures p.Keys == set f | f in TrackedAlertFields
    ensures forall f :: f in p ==> p[f] == AlertValue(o, f)
  {
    map f | f in TrackedAlertFields :: AlertValue(o, f)
  }

  function JamProjection(o: JamObs): (p: Projection)
    ensures p.Keys == set f | f in TrackedJamFields
    ensures forall f :: f in p ==> p[f] == JamValue(o, f)
  {
    map f | f in TrackedJamFields :: JamValue(o, f)
  }

  /** `state.get(key)`. */
  function Get(p: Projection, f: Field): Value {
    if f in p then p[f] else Null
  }

  // ----- the reported lines -----

  /** One printed line ` - key: previous → current`. */
  datatype ChangeLine = ChangeLine(field: Field, before: Value, after: Value)

  /** The lines the inner loop prints: the tracked fields whose values differ, in tracked order. */
  function ChangeLines(fields: seq<Field>, prev: Projection, cur: Projection): (r: seq<ChangeLine>)
    ensures forall i :: 0 <= i < |r| ==>
      r[i].before == Get(prev, r[i].field) && r[i].after == Get(cur, r[i].field) && r[i].before != r[i].after
  {
    if fields == [] then []
    else
      (if Get(prev, fields[0]) != Get(cur, fields[0])
       then [ChangeLine(fields[0], Get(prev, fields[0]), Get(cur, fields[0]))] else [])
      + ChangeLines(fields[1..], prev, cur)
  }

  function FieldsOf(r: seq<ChangeLine>): (fs: seq<Field>)
    ensures |fs| == |r| && forall i :: 0 <= i < |r| ==> fs[i] == r[i].field
  {
    if r == [] then [] else [r[0].field] + FieldsOf(r[1..])
  }

  /** `r` is `s` with some elements left out, the rest in their order. */
  predicate IsSubsequence<T(==)>(r: seq<T>, s: seq<T>)
    decreases |s|
  {
    r == [] || (s != [] && ((r[0] == s[0] && IsSubsequence(r[1..], s[1..])) || IsSubsequence(r, s[1..])))
  }

  /**
   * The reported fields are exactly the tracked fields whose previous and current values
   * differ, each in its tracked position.
   */
  lemma {:induction false} ChangeLinesExact(fields: seq<Field>, prev: Projection, cur: Projection)
    ensures IsSubsequence(FieldsOf(ChangeLines(fields, prev, cur)), fields)
    ensures forall f :: f in FieldsOf(ChangeLines(fields, prev, cur)) <==> f in fields && Get(prev, f) != Get(cur, f)
  {
    if fields != [] {
      var f0 := fields[0];
      var rest := ChangeLines(fields[1..], prev, cur);
      ChangeLinesExact(fields[1..], prev, cur);
      if Get(prev, f0) != Get(cur, f0) {
        var line := ChangeLine(f0, Get(prev, f0), Get(cur, f0));
        assert ChangeLines(fields, prev, cur) == [line] + rest;
        assert ([line] + rest)[1..] == rest;
        assert FieldsOf([line] + rest) == [f0] + FieldsOf(rest);
        assert ([f0] + FieldsOf(rest))[1..] == FieldsOf(rest);
      } else {
        assert ChangeLines(fields, prev, cur) == rest;
      }
      assert forall f :: f in fields <==> f == f0 || f in fields[1..];
    }
  }

  /** Over projections that share their keys with the tracked list, no line is printed exactly when nothing changed. */
  lemma ChangeLinesEmptyIffSame(fields: seq<Field>, prev: Projection, cur: Projection)
    requires prev.Keys == (set f | f in fields) && cur.Keys == prev.Keys
    ensures ChangeLines(fields, prev, cur) == [] <==> prev == cur
  {
    ChangeLinesExact(fields, prev, cur);
    if ChangeLines(fields, prev, cur) == [] {
      forall f | f in prev ensures prev[f] == cur[f] {
        assert Get(prev, f) == Get(cur, f);
      }
    } else {
      var f := FieldsOf(ChangeLines(fields, prev, cur))[0];
      assert Get(prev, f) != Get(cur, f);
    }
  }

  /** Which store a report comes from: `[ALERT CHANGE]` or `[JAM CHANGE]`. */
  datatype Kind = AlertKind | JamKind

  /** One report: the header line and the lines under it. */
  datatype ChangeReport = ChangeReport(kind: Kind, uuid: string, timestamp: string, lines: seq<ChangeLine>)

  /** What one observation prints: a report when its uuid is known and its projection differs. */
  function ReportOf(kind: Kind, fields: seq<Field>, store: map<string, Projection>, uuid: string, cur: Projection, ts: string)
    : seq<ChangeReport>
  {
    if uuid in store && cur != store[uuid] then [ChangeReport(kind, uuid, ts, ChangeLines(fields, store[uuid], cur))] else []
  }

  /**
   * An observation prints at most one report; none for a uuid seen the first time; one
   * exactly when its projection differs from the stored one, listing the changed fields.
   */
  lemma ReportCases(kind: Kind, fields: seq<Field>, store: map<string, Projection>, uuid: string, cur: Projection, ts: string)
    requires cur.Keys == set f | f in fields
    requires uuid in store ==> store[uuid].Keys == cur.Keys
    ensures |ReportOf(kind, fields, store, uuid, cur, ts)| <= 1
    ensures uuid !in store ==> ReportOf(kind, fields, store, uuid, cur, ts) == []
    ensures ReportOf(kind, fields, store, uuid, cur, ts) != [] <==> uuid in store && store[uuid] != cur
    ensures ReportOf(kind, fields, store, uuid, cur, ts) != [] ==>
      ReportOf(kind, fields, store, uuid, cur, ts)[0].lines != []
  {
    if uuid in store {
      ChangeLinesEmptyIffSame(fields, store[uuid], cur);
    }
  }

  // ----- one file -----

  /** The alert store after the alerts loop over `os`. */
  function AlertStoreAfter(store: map<string, Projection>, os: seq<AlertObs>): map<string, Projection> {
    if os == [] then store
    else AlertStoreAfter(store, os[..|os| - 1])[os[|os| - 1].uuid := AlertProjection(os[|os| - 1])]
  }

  function AlertLogAfter(store: map<string, Projection>, os: seq<AlertObs>, ts: string): seq<ChangeReport> {
    if os == [] then []
    else
      var o := os[|os| - 1];
      AlertLogAfter(store, os[..|os| - 1], ts)
        + ReportOf(AlertKind, TrackedAlertFields, AlertStoreAfter(store, os[..|os| - 1]), o.uuid, AlertProjection(o), ts)
  }

  /** The jams up to the first without a `uuid`, where `jam["uuid"]` raises. */
  function UuidPrefix(js: seq<JamObs>): (r: seq<JamObs>)
    ensures |r| <= |js| && r == js[..|r|]
    ensures forall i :: 0 <= i < |r| ==> r[i].uuid.Some?
    ensures |r| < |js| ==> js[|r|].uuid.None?
  {
    if js == [] || js[0].uuid.None? then [] else [js[0]] + UuidPrefix(js[1..])
  }

  predicate HaveUuids(js: seq<JamObs>) {
    forall i :: 0 <= i < |js| ==> js[i].uuid.Some?
  }

  function JamStoreAfter(store: map<string, Projection>, js: seq<JamObs>): map<string, Projection>
    requires HaveUuids(js)
  {
    if js == [] then store
    else JamStoreAfter(store, js[..|js| - 1])[js[|js| - 1].uuid.value := JamProjection(js[|js| - 1])]
  }

  function JamLogAfter(store: map<string, Projection>, js: seq<JamObs>, ts: string): seq<ChangeReport>
    requires HaveUuids(js)
  {
    if js == [] then []
    else
      var o := js[|js| - 1];
      JamLogAfter(store, js[..|js| - 1], ts)
        + ReportOf(JamKind, TrackedJamFields, JamStoreAfter(store, js[..|js| - 1]), o.uuid.value, JamProjection(o), ts)
  }

  /** One more jam of the loop: the store and the log after `js[..i + 1]`. */
  lemma JamLoopStep(store: map<string, Projection>, js: seq<JamObs>, i: nat, ts: string)
    requires HaveUuids(js) && i < |js|
    ensures HaveUuids(js[..i]) && HaveUuids(js[..i + 1])
    ensures JamStoreAfter(store, js[..i + 1]) == JamStoreAfter(store, js[..i])[js[i].uuid.value := JamProjection(js[i])]
    ensures JamLogAfter(store, js[..i + 1], ts) == JamLogAfter(store, js[..i], ts)
      + ReportOf(JamKind, TrackedJamFields, JamStoreAfter(store, js[..i]), js[i].uuid.value, JamProjection(js[i]), ts)
  {
    assert js[..i + 1][..i] == js[..i];
  }

  /** Where an alert appears for the last time in `os`. */
  predicate LastAlertOccurrence(os: seq<AlertObs>, i: int)
    requires 0 <= i < |os|
  {
    forall j :: i < j < |os| ==> os[j].uuid != os[i].uuid
  }

  predicate LastJamOccurrence(js: seq<JamObs>, i: int)
    requires 0 <= i < |js|
  {
    forall j :: i < j < |js| ==> js[j].uuid != js[i].uuid
  }

  /** The alert store's keys: those stored before and the uuids of `os`. */
  lemma {:induction false} AlertStoreKeys(store: map<string, Projection>, os: seq<AlertObs>)
    ensures AlertStoreAfter(store, os).Keys == store.Keys + set i | 0 <= i < |os| :: os[i].uuid
  {
    if os != [] {
      var init := os[..|os| - 1];
      AlertStoreKeys(store, init);
      assert forall i :: 0 <= i < |init| ==> init[i] == os[i];
      assert (set i | 0 <= i < |os| :: os[i].uuid) == (set i | 0 <= i < |init| :: init[i].uuid) + {os[|os| - 1].uuid};
    }
  }

  /**
   * The alert store keeps, for every uuid, the projection of the last alert carrying it;
   * a uuid absent from `os` keeps its stored projection.
   */
  lemma {:induction false} AlertLastWins(store: map<string, Projection>, os: seq<AlertObs>, i: nat)
    requires i < |os| && LastAlertOccurrence(os, i)
    ensures os[i].uuid in AlertStoreAfter(store, os)
    ensures AlertStoreAfter(store, os)[os[i].uuid] == AlertProjection(os[i])
  {
    var init := os[..|os| - 1];
    if i < |os| - 1 {
      assert LastAlertOccurrence(init, i) by {
        forall j | i < j < |init| ensures init[j].uuid != init[i].uuid {
          assert os[j].uuid != os[i].uuid;
        }
      }
      AlertLastWins(store, init, i);
    }
  }

  lemma {:induction false} AlertUntouched(store: map<string, Projection>, os: seq<AlertObs>, u: string)
    requires u in store && forall i :: 0 <= i < |os| ==> os[i].uuid != u
    ensures u in AlertStoreAfter(store, os) && AlertStoreAfter(store, os)[u] == store[u]
  {
    if os != [] {
      var init := os[..|os| - 1];
      assert forall i :: 0 <= i < |init| ==> init[i] == os[i];
      AlertUntouched(store, init, u);
    }
  }

  /** The jam store's keys: those stored before and the uuids of `js`. */
  lemma {:induction false} JamStoreKeys(store: map<string, Projection>, js: seq<JamObs>)
    requires HaveUuids(js)
    ensures JamStoreAfter(store, js).Keys == store.Keys + set i | 0 <= i < |js| :: js[i].uuid.value
  {
    if js != [] {
      var init := js[..|js| - 1];
      assert forall i :: 0 <= i < |init| ==> init[i] == js[i];
      JamStoreKeys(store, init);
      assert (set i | 0 <= i < |js| :: js[i].uuid.value) == (set i | 0 <= i < |init| :: init[i].uuid.value) + {js[|js| - 1].uuid.value};
    }
  }

  /** The jam store keeps, for every uuid, the projection of the last jam carrying it. */
  lemma {:induction false} JamLastWins(store: map<string, Projection>, js: seq<JamObs>, i: nat)
    requires HaveUuids(js) && i < |js| && LastJamOccurrence(js, i)
    ensures js[i].uuid.value in JamStoreAfter(store, js)
    ensures JamStoreAfter(store, js)[js[i].uuid.value] == JamProjection(js[i])
  {
    var init := js[..|js| - 1];
    if i < |js| - 1 {
      assert forall k :: 0 <= k < |init| ==> init[k] == js[k];
      assert LastJamOccurrence(init, i) by {
        forall j | i < j < |init| ensures init[j].uuid != init[i].uuid {
          assert js[j].uuid != js[i].uuid;
        }
      }
      JamLastWins(store, init, i);
      assert js[|js| - 1].uuid != js[i].uuid;
    }
  }

  lemma {:induction false} JamUntouched(store: map<string, Projection>, js: seq<JamObs>, u: string)
    requires HaveUuids(js) && u in store && forall i :: 0 <= i < |js| ==> js[i].uuid != Some(u)
    ensures u in JamStoreAfter(store, js) && JamStoreAfter(store, js)[u] == store[u]
  {
    if js != [] {
      var init := js[..|js| - 1];
      assert forall i :: 0 <= i < |init| ==> init[i] == js[i];
      JamUntouched(store, init, u);
    }
  }

  /** Every stored projection has exactly the tracked fields as keys. */
  predicate Keyed(store: map<string, Projection>, fields: seq<Field>) {
    forall u :: u in store ==> store[u].Keys == set f | f in fields
  }

  /**
   * The alert store stays keyed by the tracked alert fields, so `ReportCases` applies to
   * every alert of the run: it is reported exactly when a tracked field changed.
   */
  lemma {:induction false} AlertStoreKeyed(store: map<string, Projection>, os: seq<AlertObs>)
    requires Keyed(store, TrackedAlertFields)
    ensures Keyed(AlertStoreAfter(store, os), TrackedAlertFields)
  {
    if os != [] {
      AlertStoreKeyed(store, os[..|os| - 1]);
    }
  }

  lemma {:induction false} JamStoreKeyed(store: map<string, Projection>, js: seq<JamObs>)
    requires HaveUuids(js) && Keyed(store, TrackedJamFields)
    ensures Keyed(JamStoreAfter(store, js), TrackedJamFields)
  {
    if js != [] {
      JamStoreKeyed(store, js[..|js| - 1]);
    }
  }

  // ----- the run -----

  /** The two stores, everything printed so far, and whether a missing jam uuid ended the run. */
  datatype Tracker = Tracker(alerts: map<string, Projection>, jams: map<string, Projection>, log: seq<ChangeReport>, crashed: bool)

  /** A JSON file: its base name, printed as the timestamp, and its document. */
  datatype JsonFile = JsonFile(name: string, data: Snapshot)

  /** One file: the alerts loop, then the jams loop up to the first jam without a uuid. */
  function FileStep(s: Tracker, file: JsonFile): Tracker {
    if s.crashed then s
    else
      var js := UuidPrefix(file.data.jams);
      Tracker(
        AlertStoreAfter(s.alerts, file.data.alerts),
        JamStoreAfter(s.jams, js),
        s.log + AlertLogAfter(s.alerts, file.data.alerts, file.name) + JamLogAfter(s.jams, js, file.name),
        js != file.data.jams)
  }

  /** The files processed one after another, in the order given. */
  function RunFrom(s: Tracker, files: seq<JsonFile>): Tracker
    decreases |files|
  {
    if files == [] then s else RunFrom(FileStep(s, files[0]), files[1..])
  }

  lemma {:induction false} RunFromCrashed(s: Tracker, files: seq<JsonFile>)
    requires s.crashed
    ensures RunFrom(s, files) == s
    decreases |files|
  {
    if files != [] {
      RunFromCrashed(s, files[1..]);
    }
  }

  function AlertsOf(files: seq<JsonFile>): seq<AlertObs>
    decreases |files|
  {
    if files == [] then [] else files[0].data.alerts + AlertsOf(files[1..])
  }

  function JamsOf(files: seq<JsonFile>): seq<JamObs>
    decreases |files|
  {
    if files == [] then [] else files[0].data.jams + JamsOf(files[1..])
  }

  lemma {:induction false} AlertStoreConcat(store: map<string, Projection>, a: seq<AlertObs>, b: seq<AlertObs>)
    ensures AlertStoreAfter(store, a + b) == AlertStoreAfter(AlertStoreAfter(store, a), b)
  {
    if b == [] {
      assert a + b == a;
    } else {
      AlertStoreConcat(store, a, b[..|b| - 1]);
      assert (a + b)[..|a + b| - 1] == a + b[..|b| - 1];
      assert (a + b)[|a + b| - 1] == b[|b| - 1];
    }
  }

  lemma {:induction false} JamStoreConcat(store: map<string, Projection>, a: seq<JamObs>, b: seq<JamObs>)
    requires HaveUuids(a) && HaveUuids(b)
    ensures HaveUuids(a + b)
    ensures JamStoreAfter(store, a + b) == JamStoreAfter(JamStoreAfter(store, a), b)
  {
    if b == [] {
      assert a + b == a;
    } else {
      assert (a + b)[..|a + b| - 1] == a + b[..|b| - 1];
      assert (a + b)[|a + b| - 1] == b[|b| - 1];
      JamStoreConcat(store, a, b[..|b| - 1]);
    }
  }

  /**
   * A run that reaches its end keeps, in each store, what the alerts (the jams) of all the
   * files left there, read in file order: the alert store never sees a jam and the jam
   * store never sees an alert. With `AlertLastWins`, `JamLastWins` and the `Untouched` lemmas, each uuid holds the
   * projection from the last file it appeared in.
   */
  lemma {:induction false} RunStores(s: Tracker, files: seq<JsonFile>)
    requires !s.crashed && !RunFrom(s, files).crashed
    ensures HaveUuids(JamsOf(files))
    ensures RunFrom(s, files).alerts == AlertStoreAfter(s.alerts, AlertsOf(files))
    ensures RunFrom(s, files).jams == JamStoreAfter(s.jams, JamsOf(files))
    decreases |files|
  {
    if files != [] {
      var s1 := FileStep(s, files[0]);
      if s1.crashed {
        RunFromCrashed(s1, files[1..]);
      }
      RunStores(s1, files[1..]);
      AlertStoreConcat(s.alerts, files[0].data.alerts, AlertsOf(files[1..]));
      JamStoreConcat(s.jams, files[0].data.jams, JamsOf(files[1..]));
    }
  }

  /** `previous_alerts`, `previous_jams` and the printed reports. */
  class ChangeTracker {
    var previousAlerts: map<string, Projection>
    var previousJams: map<string, Projection>
    var log: seq<ChangeReport>

    constructor ()
      ensures previousAlerts == map[] && previousJams == map[] && log == []
    {
      previousAlerts := map[];
      previousJams := map[];
      log := [];
    }

    /** The body of the alerts loop. */
    method ObserveAlert(o: AlertObs, ts: string)
      modifies this
      ensures previousAlerts == old(previousAlerts)[o.uuid := AlertProjection(o)]
      ensures log == old(log) + ReportOf(AlertKind, TrackedAlertFields, old(previousAlerts), o.uuid, AlertProjection(o), ts)
      ensures previousJams == old(previousJams)
    {
      var current := map f | f in TrackedAlertFields :: AlertValue(o, f);
      if o.uuid in previousAlerts {
        var prev := previousAlerts[o.uuid];
        if current != prev {
          log := log + [ChangeReport(AlertKind, o.uuid, ts, ChangeLines(TrackedAlertFields, prev, current))];
        }
      }
      previousAlerts := previousAlerts[o.uuid := current];
    }

    /** The body of the jams loop; `jam["uuid"]` raises when the jam has none (`ok` false, nothing changed). */
    method ObserveJam(o: JamObs, ts: string) returns (ok: bool)
      modifies this
      ensures ok == o.uuid.Some?
      ensures ok ==> previousJams == old(previousJams)[o.uuid.value := JamProjection(o)]
      ensures ok ==> log == old(log) + ReportOf(JamKind, TrackedJamFields, old(previousJams), o.uuid.value, JamProjection(o), ts)
      ensures !ok ==> previousJams == old(previousJams) && log == old(log)
      ensures previousAlerts == old(previousAlerts)
    {
      if o.uuid.None? {
        return false;
      }
      var uuid := o.uuid.value;
      var current := map f | f in TrackedJamFields :: JamValue(o, f);
      if uuid in previousJams {
        var prev := previousJams[uuid];
        if current != prev {
          log := log + [ChangeReport(JamKind, uuid, ts, ChangeLines(TrackedJamFields, prev, current))];
        }
      }
      previousJams := previousJams[uuid := current];
      ok := true;
    }

    /** The alerts loop of one file. */
    method ObserveAlerts(alerts: seq<AlertObs>, ts: string)
      modifies this
      ensures previousAlerts == AlertStoreAfter(old(previousAlerts), alerts)
      ensures log == old(log) + AlertLogAfter(old(previousAlerts), alerts, ts)
      ensures previousJams == old(previousJams)
    {
      for i := 0 to |alerts|
        invariant previousAlerts == AlertStoreAfter(old(previousAlerts), alerts[..i])
        invariant log == old(log) + AlertLogAfter(old(previousAlerts), alerts[..i], ts)
        invariant previousJams == old(previousJams)
      {
        assert alerts[..i + 1][..i] == alerts[..i];
        ObserveAlert(alerts[i], ts);
      }
      assert alerts[..|alerts|] == alerts;
    }

    /** The jams loop of one file, up to the first jam without a uuid (`ok` false). */
    method ObserveJams(jams: seq<JamObs>, ts: string) returns (ok: bool)
      modifies this
      ensures ok == (UuidPrefix(jams) == jams)
      ensures previousJams == JamStoreAfter(old(previousJams), UuidPrefix(jams))
      ensures log == old(log) + JamLogAfter(old(previousJams), UuidPrefix(jams), ts)
      ensures previousAlerts == old(previousAlerts)
    {
      ghost var js := UuidPrefix(jams);
      for i := 0 to |jams|
        invariant i <= |js| && HaveUuids(js[..i])
        invariant previousJams == JamStoreAfter(old(previousJams), js[..i])
        invariant log == old(log) + JamLogAfter(old(previousJams), js[..i], ts)
        invariant previousAlerts == old(previousAlerts)
      {
        if i < |js| {
          assert jams[i] == js[i];
          JamLoopStep(old(previousJams), js, i, ts);
        }
        ok := ObserveJam(jams[i], ts);
        if !ok {
          assert js[..i] == js;
          return false;
        }
      }
      assert js[..|js|] == js;
      ok := true;
    }

    /** One file: its alerts, then its jams; `ok` is false when a jam without a uuid stopped the run. */
    method ProcessFile(file: JsonFile) returns (ok: bool)
      modifies this
      ensures Tracker(previousAlerts, previousJams, log, !ok)
        == FileStep(Tracker(old(previousAlerts), old(previousJams), old(log), false), file)
    {
      ObserveAlerts(file.data.alerts, file.name);
      ok := ObserveJams(file.data.jams, file.name);
    }

    /** The loop over the files, in the order given; it stops at the first jam without a uuid. */
    method Run(files: seq<JsonFile>) returns (ok: bool)
      modifies this
      ensures Tracker(previousAlerts, previousJams, log, !ok)
        == RunFrom(Tracker(old(previousAlerts), old(previousJams), old(log), false), files)
    {
      for i := 0 to |files|
        invariant RunFrom(Tracker(old(previousAlerts), old(previousJams), old(log), false), files)
          == RunFrom(Tracker(previousAlerts, previousJams, log, false), files[i..])
      {
        ghost var s := Tracker(previousAlerts, previousJams, log, false);
        assert files[i..][0] == files[i] && files[i..][1..] == files[i + 1..];
        ok := ProcessFile(files[i]);
        if !ok {
          RunFromCrashed(FileStep(s, files[i]), files[i + 1..]);
          return false;
        }
      }
      ok := true;
    }
  }
}
