# Traffic-feed snapshot reconciliation, modelled in Dafny

The repository collects snapshots of a traffic feed. Each snapshot is a JSON document holding two lists, "alerts" keyed by `uuid` and "jams" keyed by `id`. This project models the three places where the repository reconciles successive snapshots, and proves what each one promises.

- **The batch reconciler** of `merging_files/data_aggregator_to_one_file.py` (`aggregator.dfy`, `segments.dfy`, `stats.dfy`).
  - It is a `DataStore` class whose `alerts` and `jams` maps are updated in place by `UpdateAlert`, `UpdateJam` and `ProcessFile`, with a log of everything it reports.
  - `HandleMissingFiles` sorts the file timestamps in place in an `array` (insertion sort). It then rewrites `lastupdated` across every gap longer than one hour.
  - Ghost histories record the observations merged into each record, and every update states how they grow. The class invariant `Valid()` says that every record summarises its history exactly:
    - the update count;
    - sum, maximum or minimum, and average of every metric;
    - a line as long as the longest observed;
    - the set of segment IDs;
    - the maximum of each quality score.
- **The live ingestion path** of `ingest_data_waze_live/ingest_jams_alerts_from_waze_live.py` (`live.dfy`, `wkt.dfy`).
  - Each region's database is a `Database` class. Its jams and alerts tables are maps keyed by `(uuid, published_at)`; its segments table is a sequence of rows in insertion order.
  - `process_jams`, `process_alerts`, `main_loop` and `deactivate_stale_records` become methods over those tables. The SQL statements they issue become functions on the maps. `GREATEST` and `LEAST` in `UPDATE_EXISTING_JAM` become max and min.
  - The WKT renderers come with parsers, so the rendering is proved to lose nothing.
  - The main loop's cleanup counter and its Brno/non-Brno split are modelled too.
- **The snapshot diff detector** `data_change_in_time_verification.py` (`change_detector.dfy`).
  - It is a `ChangeTracker` class holding `previous_alerts`, `previous_jams` and the printed change reports.
  - It processes files in the order given.
  - The model proves which reports are printed, what the stores hold after a run, and that the two stores are independent.

`wrappers.dfy` holds `Option`. `feed.dfy` holds the feed's observations: a field the document may lack is an `Option`, and `Value` is a dynamically typed field value.

Conventions:
- Timestamps are integer epoch milliseconds, supplied by the caller.
- Coordinates are the decimal text the feed's numbers print as.
- Batch averages are exact quotients `sum / updateCount`. Live averages are exact `real`s.

Behaviour of the code that the model keeps:
- `main_loop` calls `process_jams` before `process_alerts` (ingest_data_waze_live/ingest_jams_alerts_from_waze_live.py:176-177).
- The batch sweep only rewrites `lastupdated` and never sets `finished`.
- A new batch alert is created with the key `""` instead of `"finished"`, because of adjacent string literals at lines 109-110.
  - Its `finished` is therefore `None` until it is merged.
  - A sweep that reaches such an alert raises `KeyError` (`ok == false`).
- `process_alerts` iterates the module-level `alerts_brno` and ignores its parameter. Every region's database therefore receives the Brno alerts.
- The jam lookup ignores `active`, but the UPDATE only touches active rows. A deactivated jam that is observed again, while no other row of its uuid is active, changes nothing (`Live.DeactivatedJamIsNotRevived`).
- A missing key that the code indexes directly raises `KeyError` in the source. For `jam["uuid"]`, `jam["pubMillis"]`, `jam["line"]`, the live jam metrics, each segment's keys, `alert["pubMillis"]`, `alert["location"]` and `alert["finished"]` the model gives an `ok == false` result (the keys it makes mandatory are listed under "## Left out"):
  - in the live path, nothing of that transaction is committed;
  - in the diff detector, the run stops after the jams read so far.
  - in the batch sweep, `HandleMissingFiles` reports the failure.

## Model

| member | source | states |
|---|---|---|
| Aggregator.NewAlert | merging_files/data_aggregator_to_one_file.py:90-111 | a first observation yields a record accounting for exactly that observation. Its `pubMillis` equals `lastupdated`, and it lacks `finished` (the `""` key) |
| Aggregator.NewAlertDefaults | merging_files/data_aggregator_to_one_file.py:92-108 | every field the observation carries is copied. Absent text fields (including subtype, reportDescription and reportByMunicipalityUser) become "", absent numbers (including magvar) -1, and an absent location None. `pubMillis` and `lastupdated` come from the observation's `pubMillis`, or from the file timestamp when it has none |
| Aggregator.MergedAlertFields | merging_files/data_aggregator_to_one_file.py:63-89 | descriptive fields take the new value or its default. Scores never decrease and change exactly when the new value is strictly greater. `lastupdated` becomes the file time, `finished` becomes False, and `pubMillis`, uuid and municipality flag are kept |
| Aggregator.MergedAlertAccumulates | merging_files/data_aggregator_to_one_file.py:71-75 | after any series of merges, each of reportRating, confidence and reliability is the maximum observed |
| Aggregator.ReliabilityKeepsMaximum | merging_files/data_aggregator_to_one_file.py:71-75 | reliabilities 3, 5, 2 end at 5, with one log entry (3 → 5) and none for 2 |
| Aggregator.AlertLogNamesChangedFields | merging_files/data_aggregator_to_one_file.py:64-86 | the log lines of a merge name exactly the fields whose stored value changed, in the order the code visits them |
| Aggregator.NewJam | merging_files/data_aggregator_to_one_file.py:175-209 | a first observation yields `updateCount` 1, not finished, `pubMillis == lastupdated`, and every metric seeded by its single reading |
| Aggregator.MergedJamAccumulates | merging_files/data_aggregator_to_one_file.py:148-174 | each merge adds one to the count. Each metric then holds the sum, the max (min for speedKMH) and sum/count of all readings. The line is as long as the longest observed, and the segment IDs are all IDs observed |
| Aggregator.WithMetricsSummarises | merging_files/data_aggregator_to_one_file.py:114-135 | `update_jam_metrics` with the incremented count extends each metric's summary by the new reading |
| Aggregator.LevelFourThenEight | merging_files/data_aggregator_to_one_file.py:122-135 | levels 4 then 8 give max 8, sum 12, average 12/2 = 6 and count 2 |
| Aggregator.LongerLine | merging_files/data_aggregator_to_one_file.py:158-160 | the held line is replaced only by a strictly longer one. The result's length is the larger of the two |
| Aggregator.MergedJamFields | merging_files/data_aggregator_to_one_file.py:152-174 | street, blockingAlertUuid, roadType, startNode and endNode take the new value or its default. `lastupdated` becomes the file timestamp and `finished` False. `pubMillis`, id, uuid, country, city and turnType are kept |
| Aggregator.JamLogNamesChangedFields | merging_files/data_aggregator_to_one_file.py:152-169 | the log lines of a jam merge name exactly those of street, blockingAlertUuid, roadType, startNode, endNode, line and segments whose stored value changed, in that order. The count, metrics, `lastupdated` and `finished` also change on every merge but are never logged |
| Aggregator.JamLogCountsAddedSegments | merging_files/data_aggregator_to_one_file.py:165-168 | the "added N new segments" line counts exactly the segments appended |
| Segments.MergeSegments | merging_files/data_aggregator_to_one_file.py:162-169 | the held segment list is a prefix of the merged list |
| Segments.UnseenMembers | merging_files/data_aggregator_to_one_file.py:164-165 | the appended segments are exactly the incoming ones whose ID was not held |
| Segments.UnseenConcat | merging_files/data_aggregator_to_one_file.py:165 | the filter keeps the incoming order: filtering a concatenation concatenates the filtered parts |
| Segments.MergeIds | merging_files/data_aggregator_to_one_file.py:162-169 | the merged IDs are the held IDs plus the incoming IDs |
| Segments.MergeAgainAddsNothing | merging_files/data_aggregator_to_one_file.py:162-169 | merging the same segments twice adds nothing the second time (`[A]` with `[A]`) |
| Stats.MaxOfIsMaximum | merging_files/data_aggregator_to_one_file.py:125 | the running max is an upper bound of all values and one of them |
| Stats.MinOfIsMinimum | merging_files/data_aggregator_to_one_file.py:127 | the running min is a lower bound of all values and one of them |
| Stats.StepSummarises | merging_files/data_aggregator_to_one_file.py:122-129 | one `update(field, kind)` turns the summary of `vs` into the summary of `vs + [v]` |
| Stats.SeedSummarises | merging_files/data_aggregator_to_one_file.py:194-208 | the seed `(v, v, v)` is the summary of the single reading |
| Stats.SummaryAverageIsMean | merging_files/data_aggregator_to_one_file.py:129 | `X_sum / updateCount` is the arithmetic mean of the readings |
| Stats.MeanPermutation | merging_files/data_aggregator_to_one_file.py:128-129 | the average does not depend on the order of the readings |
| Aggregator.UpsertAlertAccounts | merging_files/data_aggregator_to_one_file.py:53-111 | reconciling an alert keeps every stored record accounting exactly for its uuid's observations |
| Aggregator.UpsertJamAccounts | merging_files/data_aggregator_to_one_file.py:138-209 | reconciling a jam keeps every stored record accounting exactly for its id's observations |
| Aggregator.AlertsAfterKeys | merging_files/data_aggregator_to_one_file.py:225-226 | after a file's alerts, the store's uuids are the old ones plus those of the file |
| Aggregator.JamsAfterKeys | merging_files/data_aggregator_to_one_file.py:228-229 | after a file's jams, the store's ids are the old ones plus those of the file |
| Aggregator.AlertHistoryAfterKeys | merging_files/data_aggregator_to_one_file.py:225-226 | after a file's alerts, the histories hold the uuids held before plus those of the file |
| Aggregator.AlertHistoryAfterOf | merging_files/data_aggregator_to_one_file.py:225-226 | after a file's alerts, each uuid's history is its earlier history followed by the file's alerts of that uuid, in file order |
| Aggregator.JamHistoryAfterKeys | merging_files/data_aggregator_to_one_file.py:228-229 | after a file's jams, the histories hold the ids held before plus those of the file |
| Aggregator.JamHistoryAfterOf | merging_files/data_aggregator_to_one_file.py:228-229 | after a file's jams, each id's history is its earlier history followed by the file's jams of that id, in file order |
| Aggregator.DataStore.UpdateAlert | merging_files/data_aggregator_to_one_file.py:53-111 | the alert store gains the merged or new record, the log gains its lines, and the jams are untouched |
| Aggregator.DataStore.UpdateJam | merging_files/data_aggregator_to_one_file.py:138-209 | the jam store gains the merged or new record, the log gains its lines, and the alerts are untouched |
| Aggregator.DataStore.ProcessFile | merging_files/data_aggregator_to_one_file.py:212-229 | a file's alerts are reconciled in order, then its jams, and the invariant is kept. Each history grows by the file's observations, so every record summarises exactly what it was before plus what this file carried |
| Aggregator.DataStore.ProcessAlerts | merging_files/data_aggregator_to_one_file.py:225-226 | the loop over a file's alerts gives `AlertsAfter` and its log. The alert history becomes `AlertHistoryAfter` of the file's alerts, and the jams and their history are unchanged |
| Aggregator.DataStore.ProcessJams | merging_files/data_aggregator_to_one_file.py:228-229 | the loop over a file's jams gives `JamsAfter` and its log. The jam history becomes `JamHistoryAfter` of the file's jams, and the alerts and their history are unchanged |
| Aggregator.MergeAlert | merging_files/data_aggregator_to_one_file.py:63-89 | the field loops of a merge compute the merged record and its log lines |
| Aggregator.MergeJam | merging_files/data_aggregator_to_one_file.py:148-174 | the field loops, line rule, segment merge and metric update of a jam merge |
| Aggregator.SortTimestamps | merging_files/data_aggregator_to_one_file.py:238 | sorts the timestamps in place, as a permutation of the input |
| Aggregator.LastGapStartExists | merging_files/data_aggregator_to_one_file.py:239-241 | there is no gap start exactly when no consecutive timestamps are more than an hour apart |
| Aggregator.LastGapStartIsLast | merging_files/data_aggregator_to_one_file.py:239-242 | the rewrite time is the start of a gap with no gap after it |
| Aggregator.DataStore.HandleMissingFiles | merging_files/data_aggregator_to_one_file.py:232-248 | after sorting: with no gap the store is unchanged. Otherwise every record gets `lastupdated` = the start of the last gap. The call fails (KeyError) when an alert lacking "finished" is reached. The histories behind the invariant are unchanged |
| Aggregator.DataStore.SweepGaps | merging_files/data_aggregator_to_one_file.py:239-248 | the gap loop over sorted timestamps: each gap rewrites the stores, and the last gap's rewrite is what remains. The histories are unchanged |
| Aggregator.DataStore.SweepAlertsAt | merging_files/data_aggregator_to_one_file.py:243-245 | one alert rewrite. It fails when a record lacks "finished" and otherwise rewrites only `lastupdated` |
| Aggregator.DataStore.SweepJamsAt | merging_files/data_aggregator_to_one_file.py:246-248 | one jam rewrite of `lastupdated` |
| Aggregator.SweepAlertMap | merging_files/data_aggregator_to_one_file.py:243-245 | the loop over the alert values: `ok` iff every record has "finished". Each record is unchanged or has only `lastupdated` changed |
| Aggregator.SweepJamMap | merging_files/data_aggregator_to_one_file.py:246-248 | the loop over the jam values computes the rewritten store |
| Aggregator.LaterAlertSweepWins | merging_files/data_aggregator_to_one_file.py:239-245 | of two rewrites the later one's timestamp remains |
| Aggregator.LaterJamSweepWins | merging_files/data_aggregator_to_one_file.py:246-248 | of two rewrites the later one's timestamp remains |
| Aggregator.RestampedAlertsAccount | merging_files/data_aggregator_to_one_file.py:243-245 | a rewrite keeps every accumulated statistic |
| Aggregator.SweepJamsAccount | merging_files/data_aggregator_to_one_file.py:246-248 | a rewrite keeps every accumulated statistic |
| Wkt.LinestringRoundTrip | ingest_data_waze_live/ingest_jams_alerts_from_waze_live.py:15-16 | the points of a line are read back from its WKT text, in order |
| Wkt.LinestringParseRenders | ingest_data_waze_live/ingest_jams_alerts_from_waze_live.py:15-16 | every text the parser accepts is the rendering of the points it returns |
| Wkt.LinestringInjective | ingest_data_waze_live/ingest_jams_alerts_from_waze_live.py:15-16 | different lines render to different texts |
| Wkt.PointWktRoundTrip | ingest_data_waze_live/ingest_jams_alerts_from_waze_live.py:19-20 | a point is read back from `POINT(x y)` |
| Wkt.PointWktParseRenders | ingest_data_waze_live/ingest_jams_alerts_from_waze_live.py:19-20 | every accepted point text is the rendering of the point returned |
| Wkt.TwoPointLine | ingest_data_waze_live/ingest_jams_alerts_from_waze_live.py:15-20 | `LINESTRING(16.6 49.2, 16.7 49.3)` and `POINT(16.6 49.2)`, as examples |
| Stats.RecomputeAvgExtendsMean | ingest_data_waze_live/ingest_jams_alerts_from_waze_live.py:72-79 | if `avg` is the mean of `uc` readings, `(avg*uc + v)/(uc+1)` is the mean of those readings and `v` |
| Stats.LiveAvgIsMean | ingest_data_waze_live/ingest_jams_alerts_from_waze_live.py:72-79 | the live recurrence, seeded by the first reading, equals the batch path's sum/count on every history |
| Live.NewJamRowSeeds | ingest_data_waze_live/ingest_jams_alerts_from_waze_live.py:90-117 | a new row seeds each max/min and avg with the single reading. It has `update_count` 1, is active, has `start_node` None, and its line is the WKT of the jam's points |
| Live.UpdatedJamRowTracks | ingest_data_waze_live/queries.py:13-27 | the UPDATE with recomputed averages keeps each avg the mean and each max (min for speed_kmh) the extreme of all readings, and counts one more update |
| Live.HistoryTracks | ingest_data_waze_live/ingest_jams_alerts_from_waze_live.py:55-117 | a jam whose uuid had no row before, observed every cycle under one `(uuid, published_at)`, ends with one active row holding the extremes and the means of all its readings, with `update_count` equal to the number of cycles. Other rows are untouched |
| Live.JamUpdateFrame | ingest_data_waze_live/queries.py:13-27 | the UPDATE changes only active rows of the uuid. On those it changes only the five metrics, the count and `last_updated`; every other column is kept. Each maximum becomes `GREATEST(old, reading)` and the speed minimum `LEAST(old, reading)` on every such row, and each average is the one computed from the looked-up row |
| Live.DeactivatedJamIsNotRevived | ingest_data_waze_live/queries.py:2-27 | a jam whose uuid has no active row is found by the lookup, but no row changes |
| Live.SegmentRowsOf | ingest_data_waze_live/ingest_jams_alerts_from_waze_live.py:120-133 | one row `(jam id, fromNode, toNode, ID, isForward)` per incoming segment, in order, with no deduplication |
| Live.Database.ProcessJams | ingest_data_waze_live/ingest_jams_alerts_from_waze_live.py:47-135 | commits the jams in order with their segment rows appended. A jam missing a key the loop indexes leaves every table unchanged |
| Live.Database.ProcessAlerts | ingest_data_waze_live/ingest_jams_alerts_from_waze_live.py:138-172 | upserts the alerts of `alerts_brno`, not of its parameter. An alert without `pubMillis` or `location` leaves the table unchanged |
| Live.AlertStepFrame | ingest_data_waze_live/queries.py:69-85 | a new key gets the full row. A known key changes only confidence, reliability, report rating and `last_updated`, and keeps `active`. Other keys are untouched |
| Live.AlertStepIdempotent | ingest_data_waze_live/queries.py:81-85 | upserting the same alert twice at the same time equals upserting it once |
| Live.MunicipalityFlagCases | ingest_data_waze_live/ingest_jams_alerts_from_waze_live.py:162 | an absent flag is false, and "true", "True" and "TRUE" are true |
| Live.Lower | ingest_data_waze_live/ingest_jams_alerts_from_waze_live.py:162 | `str.lower` maps A-Z to a-z and keeps every other character and the length |
| Live.DeactivatedAlerts | ingest_data_waze_live/ingest_jams_alerts_from_waze_live.py:32-36 | an active alert with `last_updated` before the cutoff becomes inactive. Every other alert is unchanged |
| Live.DeactivatedJams | ingest_data_waze_live/ingest_jams_alerts_from_waze_live.py:38-42 | the same rule for jams |
| Live.DeactivationIdempotent | ingest_data_waze_live/ingest_jams_alerts_from_waze_live.py:29-44 | after a sweep no alert row and no jam row is stale, and a second sweep with the same cutoff changes nothing in either table |
| Live.Database.DeactivateStaleRecords | ingest_data_waze_live/ingest_jams_alerts_from_waze_live.py:29-44 | both tables are swept with cutoff `dbNow - minutes` and committed. Segments are untouched |
| Live.Database.MainLoop | ingest_data_waze_live/ingest_jams_alerts_from_waze_live.py:175-177 | jams first, then alerts, each with its own `utcnow()`. Complete jams are committed even when the alerts then fail; a failure in the jams stops the call before the alerts |
| Live.CleanupSchedule | ingest_data_waze_live/ingest_jams_alerts_from_waze_live.py:181-182 | with threshold 5 and the reset, the cleanup runs in cycle `k` exactly when `k mod 6 = 5` |
| Live.AlertsInBrno | ingest_data_waze_live/ingest_jams_alerts_from_waze_live.py:190 | every kept alert has city Brno (`true`) or not (`false`) |
| Live.JamsInBrno | ingest_data_waze_live/ingest_jams_alerts_from_waze_live.py:191 | every kept jam has city Brno (`true`) or not (`false`) |
| Live.AlertsPartition | ingest_data_waze_live/ingest_jams_alerts_from_waze_live.py:190-198 | the Brno and non-Brno alert lists together hold every regional alert exactly once |
| Live.JamsPartition | ingest_data_waze_live/ingest_jams_alerts_from_waze_live.py:190-198 | the Brno and non-Brno jam lists together hold every regional jam exactly once |
| Live.IngestCycle | ingest_data_waze_live/ingest_jams_alerts_from_waze_live.py:183-221 | in one cycle Brno, the rest of the region and Most each get their own jams and all three get the Brno alerts; all three are swept when the count is due, and the count is reset or incremented. On a failure, what each database holds is stated: the regions before the failing one keep their committed cycle, the failing one keeps its committed jams when only the alerts fail, and the later ones are unchanged |
| ChangeDetector.AlertProjection | data_change_in_time_verification.py:35 | the projection has exactly the tracked alert fields, each with the alert's value or None |
| ChangeDetector.JamProjection | data_change_in_time_verification.py:49 | the projection has exactly the tracked jam fields, each with the jam's value or None |
| ChangeDetector.ChangeLines | data_change_in_time_verification.py:41-43 | every printed line shows a field's previous and current value, and they differ |
| ChangeDetector.ChangeLinesExact | data_change_in_time_verification.py:55-57 | the printed fields are exactly the tracked fields whose values differ, in tracked order |
| ChangeDetector.ChangeLinesEmptyIffSame | data_change_in_time_verification.py:39-43 | over the tracked keys, no field line is printed exactly when the projections are equal |
| ChangeDetector.ReportCases | data_change_in_time_verification.py:37-43 | there is at most one report per observation and none on a first appearance. A report appears exactly when the projection differs from the stored one, and it has at least one line |
| ChangeDetector.UuidPrefix | data_change_in_time_verification.py:48 | the jams read before the first jam without a uuid, where `jam["uuid"]` raises |
| ChangeDetector.AlertStoreKeys | data_change_in_time_verification.py:44 | the alert store's keys are the previous ones plus the uuids seen |
| ChangeDetector.AlertLastWins | data_change_in_time_verification.py:33-44 | each uuid holds the projection of the last alert carrying it |
| ChangeDetector.AlertUntouched | data_change_in_time_verification.py:44 | a uuid not observed keeps its projection |
| ChangeDetector.JamStoreKeys | data_change_in_time_verification.py:58 | the jam store's keys are the previous ones plus the uuids seen |
| ChangeDetector.JamLastWins | data_change_in_time_verification.py:47-58 | each uuid holds the projection of the last jam carrying it |
| ChangeDetector.JamUntouched | data_change_in_time_verification.py:58 | a uuid not observed keeps its projection |
| ChangeDetector.AlertStoreKeyed | data_change_in_time_verification.py:35-44 | every stored alert projection has exactly the tracked alert fields |
| ChangeDetector.JamStoreKeyed | data_change_in_time_verification.py:49-58 | every stored jam projection has exactly the tracked jam fields |
| ChangeDetector.RunStores | data_change_in_time_verification.py:24-58 | a completed run leaves in the alert store what all the files' alerts put there, in file order, and in the jam store what their jams put there. The stores never mix |
| ChangeDetector.RunFromCrashed | data_change_in_time_verification.py:48 | once a jam without a uuid has stopped the run, later files change nothing |
| ChangeDetector.ChangeTracker.ObserveAlert | data_change_in_time_verification.py:33-44 | stores the alert's projection under its uuid, prints the report if one is due, and leaves the jams untouched |
| ChangeDetector.ChangeTracker.ObserveJam | data_change_in_time_verification.py:47-58 | the same for a jam. It fails, with nothing changed, when the jam has no uuid |
| ChangeDetector.ChangeTracker.ObserveAlerts | data_change_in_time_verification.py:33-44 | the alerts loop of one file |
| ChangeDetector.ChangeTracker.ObserveJams | data_change_in_time_verification.py:47-58 | the jams loop of one file, up to the first jam without a uuid |
| ChangeDetector.ChangeTracker.ProcessFile | data_change_in_time_verification.py:26-58 | one file: its alerts, then its jams |
| ChangeDetector.ChangeTracker.Run | data_change_in_time_verification.py:24-58 | the files in the order given, stopping at the first jam without a uuid |

## Left out

- File and network I/O is not modelled: `requests.get`, `load_dotenv`, `os.getenv`, `os.listdir`, `glob`, `json.load`, the filename regex and `extract_timestamp_from_filename`. The model starts from the decoded documents.
  - The batch driver's sorted file list and the diff detector's `sorted(glob(...))` become a sequence given in sorted order.
- `downloader.py` and `connection_to_db.py` are not part of this model.
- Clocks are not modelled. Every `utcnow()`, `utcfromtimestamp` and database `now()` is an integer parameter. In `Live.IngestCycle` a `CycleClock` holds one reading for each of the six `utcnow()` calls of a cycle and one `now()` for each database server.
  - The live path's write times and the databases' clocks are separate parameters. The model does not relate them, since the source writes UTC times and compares them with the server's `now()`.
- SQL is not modelled beyond the row effects above. The tables are maps keyed by `(uuid, published_at)`, which abstracts `GET_ACTIVE_JAM` and the alerts' unique constraint.
  - A jam whose `(uuid, published_at)` is new but whose uuid already has rows gets a new row. The model does not capture table constraints the schema might add.
  - Rollback on a failed transaction is modelled as the tables staying as they were.
- `ST_GeogFromText` is not modelled; the row stores the WKT text.
- `logging`, `print` and `save_data` (pandas and JSON output) are not modelled. The batch log and the diff detector's reports are kept as sequences of structured lines rather than formatted text.
- Floating point is not modelled.
  - Batch averages are exact quotients.
  - Live averages are exact reals.
  - `float("inf")` as the min default never matters, because `speedKMH_min` is seeded at creation.
- A JSON `null` value is treated like an absent key.
  - Python's `.get(k, default)` returns `None` for a present `null`. The model gives the default.
- Live.Lower: lowers only A-Z, whereas Python's `str.lower` also lowers other cased letters.
- The infinite `while True` loop and `time.sleep(120)` are not modelled. `Live.IngestCycle` is one iteration, and `Live.CleanupSchedule` is the counter over many.
- A `KeyError` ends the Python program; a failing member returns `ok == false` instead.
- Aggregator.DataStore.HandleMissingFiles: on the `KeyError` path, only the alert store's keys and the jams' non-change are stated. Records already rewritten before the failing alert are left to `Restamped`, because the dictionary's iteration order is not modelled.
- Aliasing is not modelled. `old_segments.extend` mutates a list that the record (and the feed document, for a new jam) shares; the model reassigns the record's segment sequence.
- Batch `roadType` is the number from the feed, or the text `""` when it is absent.
- Three keys the code indexes directly are mandatory fields of the observations, so their `KeyError` path is not modelled: `alert["uuid"]` (batch line 60, live line 147, diff detector line 34), `jam["id"]` (batch line 145, live lines 92 and 126), and a line point's `'x'`/`'y'` in `to_linestring_wkt` and `to_point_wkt` (live lines 16 and 20).
- Values of the wrong JSON type (text where a number is expected, for example) are not modelled. Each field has a single type.
