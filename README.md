# Plate identity engine — a Dafny model

This project models the plate-identity core of a licence-plate monitoring application and proves properties of it. The application takes OCR reads from a recognition engine and decides which stored plate each read belongs to. It keeps a store of plates, their detections and a blacklist. The pieces modelled are:

- **Similarity** (`similarity.dfy`). The length-tiered "same plate" predicate `DB._is_similar_plate` and the looser `is_plate_similar` helper. Both are built on a Levenshtein edit distance defined here. `Levenshtein.ratio` is a function parameter known only to return values in [0, 1].
- **Store** (`storetables.dfy`, `store.dfy`). The `DB` class is a Dafny class over in-memory tables: plates, detections, blacklist, similar pairs and settings. Timestamps are integer microseconds. Each method's new state is tied to a specification function in `StoreTables`, and the lemmas there prove what the store promises. These cover:
  - the first-match blacklist check when a plate is inserted;
  - the 1-second detection dedup, which overwrites the best row in the window *and* still inserts a new one;
  - the `last_seen` update;
  - appearance updates;
  - blacklist add, remove and recompute, where the recompute looks only at the edited text;
  - the O(n²) similar-pair pass;
  - the history query;
  - the typed settings table (`settings.dfy`).
- **Ingestion** (`ingestion.dfy`). A video worker's `plate_callback` works against the worker's own blacklist snapshot and its known-plates cache, and both matches use a fixed distance of at most 2. The engine's plate object is reduced to its text, confidence, country and engine timestamp. The clock reading, the stop event and the image paths are parameters.
- **Tracking and time helpers** (`tracking.dfy`, `timeutil.dfy`). `is_potential_follow`, `calculate_time_difference`, `format_time` and `extract_timestamp_from_filename`.
- **Dialog and report logic** (`settingsdialog.dfy`, `report.dfy`). Settings validation before any write, the blacklist list-line format and its parse, input normalisation and the day-of-week counts. Also the plate-list filter, the status and its sort key, the history folder name, the export colour bands and the pie-chart counts.

Shared helpers live in `wrappers.dfy` (Option/Result), `text.dfy` (Python `strip`, ASCII case mapping, `int()`/`float()`/`str()` on decimal text, substring search, `split(sep)[0]`, SQLite's text order) and `sorting.dfy` (a stable sort by an integer key, Python's `sorted`).

The similarity predicate the store uses is passed to its methods as `sim`, a function of two texts; callers pass `Similarity.Matcher(t, ratio)` with the thresholds read from the settings (`StoreTables.SettingThresholds`).

## Model

| member | source | states |
|---|---|---|
| `Similarity.IsSimilarPlate` | database.py:141-142 | empty text on either side is never similar |
| `Similarity.SimilarityTiers` | database.py:152-164 | for non-empty text: either stripped length ≤ 4 ⇒ similar iff distance ≤ 1; else either ≤ 7 ⇒ distance ≤ threshold; else distance ≤ threshold or ratio ≥ ratio threshold |
| `Similarity.ShortPlatesIgnoreSettings` | database.py:158-159 | when either stripped text has at most 4 characters, the verdict is the same for every pair of thresholds and every ratio function |
| `Similarity.LengthGapRejectsShort` | database.py:158-159 | a short plate whose length differs from the other by more than one is never similar to it |
| `Similarity.SimilarSymmetric` | database.py:136-164 | swapping the two plates does not change the verdict, given a symmetric ratio |
| `Similarity.SimilarReflexive` | database.py:136-164 | non-empty text is similar to itself when the distance threshold is not negative |
| `Similarity.SubUnitThresholdMeansEqual` | database.py:160-164 | with a distance threshold below 1, plates longer than 4 are similar only when equal after stripping, unless the ratio rescues a pair longer than 7 |
| `Similarity.EditDistanceBounds` | database.py:153 | the edit distance is at least the length difference and at most the longer length |
| `Similarity.EditDistanceSymmetric` | database.py:153 | the edit distance is symmetric |
| `Similarity.EditDistanceZero` | database.py:153 | distance 0 only between equal texts |
| `Similarity.ConfidenceRemarkOf` | utils.py:201-209 | the confidence remark names the more confident plate (first on ties) and the higher value when the gap exceeds 15; otherwise "comparable"; no remark when either confidence is missing |
| `Similarity.PlateSimilarityVerdict` | utils.py:194-219 | `is_plate_similar` is true iff distance ≤ 2, or both lengths ≥ 5 and ratio ≥ 0.8 (identical text included) |
| `Similarity.PlateSimilaritySymmetric` | utils.py:185-219 | the `is_plate_similar` verdict does not depend on argument order, given a symmetric ratio |
| `Similarity.StorePredicateImpliesUtilsPredicate` | utils.py:194-219 | on stripped text with the default thresholds, every pair the store accepts is accepted by `is_plate_similar` |
| `Text.ParseIntRoundTrip` | database.py:770-772 | an integer written with `str()` reads back with `int()` as the same integer |
| `Text.SplitHeadOfJoin` | settings_dialog.py:601 | `split(sep)[0]` of `x + sep + y` is `x` when `sep` does not occur in `x` or straddle its end |
| `Text.LexLessTotal` | database.py:628 | the text order of `ORDER BY plate_text` is total on distinct texts |
| `Text.LexLessTransitive` | database.py:628 | the text order is transitive |
| `Sorting.SortBy` | utils.py:146 | `sorted` returns an ordered permutation of its input |
| `Sorting.SortIgnoresOrder` | utils.py:146 | sorting integers depends only on the multiset of the input |
| `TimeUtil.ClockParts` | utils.py:14-16 | minutes and seconds below 60 of the clamped duration; negative durations give 0:00 |
| `TimeUtil.FormatTimeRoundTrip` | utils.py:10-16 | `format_time` renders `m:ss` and reads back to whole minutes and `seconds mod 60` of the clamped duration |
| `TimeUtil.FormatTimeClampsNegative` | utils.py:14-15 | a negative duration renders as "0:00" |
| `TimeUtil.CalculateTimeDifference` | utils.py:102-127 | `(None, "Unknown")` iff an input is missing; otherwise the non-negative absolute difference in seconds |
| `TimeUtil.TimeDifferenceSymmetric` | utils.py:109-110 | the difference and its text do not depend on argument order |
| `TimeUtil.TimeDifferenceBuckets` | utils.py:113-127 | under 60 s the text is in seconds; from 86400 s on, in days and hours |
| `TimeUtil.ParseStamp` | utils.py:86 | a parsed 14-digit stamp is a valid calendar date and time |
| `TimeUtil.FindDelimitedStamp` | utils.py:82 | the leftmost `_<14 digits>_` match |
| `TimeUtil.FindDigitRun` | utils.py:90 | the leftmost run of 14 digits |
| `TimeUtil.NoDigitRunNoTimestamp` | utils.py:74-99 | a file name without 14 consecutive digits yields no timestamp |
| `TimeUtil.RecorderFileNameExample` | utils.py:74-87 | "00000006_20250226102711_NF.mp4" yields 2025-02-26 10:27:11 |
| `Tracking.Keep` | utils.py:160-164 | every kept interval is at least the minimum interval |
| `Tracking.KeepMembers` | utils.py:160-164 | exactly the intervals not shorter than the minimum are kept: every value as many times as it occurs when it is long enough, and never otherwise |
| `Tracking.GapIsTimeDifference` | utils.py:154 | the interval measured is the seconds `calculate_time_difference` reports |
| `Tracking.FollowVerdict` | utils.py:142-183 | a positive verdict always carries the "average interval" reason and needs at least 3 detections |
| `Tracking.CollectIntervals` | utils.py:149-166 | the loop collects exactly the kept intervals of the sorted times, and its flag is true iff none exceeds the threshold |
| `Tracking.IsPotentialFollow` | utils.py:130-183 | the method returns `FollowVerdict`: fewer than 3 detections, no valid interval, one valid interval, regular, or inconsistent |
| `Tracking.FollowOrderIndependent` | utils.py:146 | the verdict depends only on the multiset of detection times |
| `Tracking.FollowMeansRegularCadence` | utils.py:171-181 | a positive verdict means ≥ 2 valid intervals, each in [min, threshold], with one strictly below the threshold |
| `Tracking.FollowWhenAllIntervalsBelowThreshold` | utils.py:178-181 | ≥ 3 detections with ≥ 2 valid intervals, all below the threshold, is a positive verdict |
| `Tracking.InconsistentVerdict` | utils.py:165-183 | ≥ 2 valid intervals with one above the threshold give "Inconsistent detection pattern" |
| `Tracking.LongGapExample` | utils.py:130-183 | intervals 30 s, 45 s, 20000 s with threshold 300 s: inconsistent |
| `Tracking.RegularExample` | utils.py:130-183 | intervals 30 s, 45 s, 60 s with threshold 300 s: following, average 45 s |
| `Settings.ConvertSettingValue` | database.py:741-759 | NULL gives None; "integer"/"float" parse or fall back to the raw text; "boolean" is `lower() == "true"`; other tags give the text |
| `Settings.EncodeSetting` | database.py:762-776 | the type tag follows the value's type, with bool checked before int |
| `Settings.SettingRoundTrip` | database.py:741-785 | a value stored by `set_setting` reads back as the same value of the same type |
| `Settings.TextFalseIsTruthy` | database.py:755-758 | "False" stored with tag "string" reads back as truthy text, while with tag "boolean" it reads back false |
| `Settings.ReadSetting` | database.py:725-739 | a stored setting reads back through its tag; a missing one gives the default |
| `Settings.DefaultThresholdSettings` | database.py:109-120 | the seeded similarity settings read back as 2.0 and 0.8 |
| `StoreTables.FindEntry` | database.py:586-587 | the blacklist lookup finds an entry with exactly that text, or reports that none has it |
| `StoreTables.FindEntryUnique` | database.py:628 | in the text-ordered blacklist, each text's entry is the one found |
| `StoreTables.Upsert` | database.py:571-575 | `INSERT OR REPLACE` keeps the blacklist text-ordered and replaces exactly the entry with that text |
| `StoreTables.FindUpserted` | database.py:571-578 | after the upsert, the recompute finds the new entry |
| `StoreTables.RemoveText` | database.py:617 | deletion keeps the order and removes exactly the entry with that text |
| `StoreTables.UpsertedEntry` | database.py:571-575 | `date_added` is kept from an existing entry (COALESCE) and `last_seen` is now |
| `StoreTables.UpsertKeepsDateAdded` | database.py:571-575 | re-listing a plate keeps its original `date_added` |
| `StoreTables.FirstSimilarEntry` | database.py:176-185 | the first blacklist entry, in text order, similar to the new plate |
| `StoreTables.NewPlate` | database.py:187-202 | a new plate row has one appearance and the given text, confidence and appearance times |
| `StoreTables.NewPlateBlacklistedIff` | database.py:176-202 | a new plate is blacklisted iff some entry is similar; reason and level come from the first such entry, and are null otherwise |
| `StoreTables.RecentBest` | database.py:245-252 | the dedup query gives the most confident row of the same plate with time in (t − 1 s, t], or none; on equal confidences the model picks the earliest row |
| `StoreTables.Deduplicated` | database.py:257-268 | the dedup step leaves the row count unchanged |
| `StoreTables.DedupLossWritesNothing` | database.py:257-268 | a read no more confident than some row in its window writes nothing |
| `StoreTables.DedupWinOverwritesAndKeepsRows` | database.py:257-275 | a read more confident than its window overwrites the best row's confidence and images in place, and leaves every other row alone |
| `StoreTables.DedupNoWindowKeepsRows` | database.py:238-253 | with an unparseable time or an empty window, no row is overwritten |
| `StoreTables.AddedDetections` | database.py:257-275 | the table grows by at most one row, and a new row is exactly the read |
| `StoreTables.TouchLastSeen` | database.py:279-283 | `last_seen` only moves forward, and only on the entry with that exact text |
| `StoreTables.BlacklistAfterDetection` | database.py:277-283 | the `last_seen` update keeps every entry, changes only `last_seen`, and never moves it back |
| `StoreTables.OnlyListedTextIsTouched` | database.py:279-283 | only the entry whose text is exactly the detected plate's can change, and only when that plate is blacklisted |
| `StoreTables.BlacklistAfterWrite` | database.py:255-283 | a read that loses its dedup window leaves the blacklist as it was; otherwise only `last_seen` values change |
| `StoreTables.Appeared` | database.py:395-407 | one more appearance; `last_appearance` overwritten; confidence becomes max(old, new) |
| `StoreTables.AppearanceRows` | database.py:389-407 | only the row with that id changes |
| `StoreTables.AppearanceMonotone` | database.py:395-407 | confidence and count never decrease, and the count grows by one exactly on the updated row |
| `StoreTables.MarkedRows` | video_processor.py:243 | only the row with that id gains the flag; its reason and level are untouched |
| `StoreTables.MarkedRowsIdempotent` | video_processor.py:243 | marking twice equals marking once |
| `StoreTables.RecomputedRow` | database.py:586-608 | a row similar to the text takes the entry's flag, reason and level, or loses them when no entry exists; other rows are unchanged |
| `StoreTables.RecomputedRows` | database.py:602-608 | the recompute applies that rule row by row |
| `StoreTables.RemovalIgnoresRemainingEntries` | database.py:590-620 | after a removal, a plate similar to the removed text is unmarked even when it matches an entry that remains |
| `StoreTables.AdditionMarksSimilarPlates` | database.py:593-608 | after an addition, every plate similar to it carries its reason and level |
| `StoreTables.StrippedTexts` | database.py:506-511 | the pass compares the stripped texts |
| `StoreTables.PairNoteOf` | database.py:537-546 | the note names the more confident plate iff the confidences differ by more than 15; otherwise "Similar confidence levels" |
| `StoreTables.MakePair` | database.py:519-535 | a pair records the two ids, the ratio, the distance and the non-negative gap between first appearances |
| `StoreTables.RowRowsExactly` | database.py:508-527 | one plate's row holds exactly the later plates with a different, similar stripped text |
| `StoreTables.RowsUpToExactly` | database.py:504-559 | the recorded pairs are exactly the i < j pairs with different, similar stripped texts |
| `StoreTables.AnalyzedPairsDistinct` | database.py:504-559 | no pair joins a plate to itself |
| `StoreTables.KeepBest` | database.py:337-356 | the history keeps exactly the rows that are best in their (real timestamp, file, plate) group |
| `StoreTables.KeepBestOnePerGroup` | database.py:337-356 | every group keeps exactly one row, the most confident |
| `StoreTables.HistoryRows` | database.py:337-350 | the join keeps exactly the plate's own detections and those of similar plates |
| `StoreTables.PlateHistory` | database.py:310-356 | an unknown id has an empty history; every row belongs to the plate or to a similar plate |
| `StoreTables.SettingThresholds` | database.py:147-150 | the thresholds are the numeric readings of the two settings, or none when either is not a number |
| `StoreTables.SeededThresholds` | database.py:109-120 | the seeded settings give thresholds 2.0 and 0.8 |
| `IdentityStore.Store.constructor` | database.py:20-121 | a fresh store has empty tables and the seeded settings |
| `IdentityStore.Store.InsertPlate` | database.py:166-209 | appends `NewPlate` under a fresh id, and changes nothing else |
| `IdentityStore.Store.FindRecentDetection` | database.py:245-252 | the loop finds `RecentBest` |
| `IdentityStore.Store.AddPlateDetection` | database.py:219-283 | the detection table becomes `AddedDetections`; the blacklist becomes `BlacklistAfterWrite`, so a losing read leaves detections and blacklist untouched and any other read moves `last_seen` (for a parseable time); plates, pairs and settings are unchanged |
| `IdentityStore.Store.WriteDetection` | database.py:255-283 | the dedup, then the insert and the `last_seen` update, unless the read lost |
| `IdentityStore.Store.Deduplicate` | database.py:255-268 | the write happens iff `Deduplicated` keeps the read |
| `IdentityStore.Store.InsertDetection` | database.py:270-275 | appends exactly the read |
| `IdentityStore.Store.TouchBlacklist` | database.py:277-283 | the blacklist becomes `BlacklistAfterDetection` |
| `IdentityStore.Store.UpdatePlateAppearance` | database.py:389-407 | the plate rows become `AppearanceRows` |
| `IdentityStore.Store.MarkBlacklisted` | video_processor.py:243 | the plate rows become `MarkedRows` |
| `IdentityStore.Store.UpdateBlacklistStatusForPlate` | database.py:582-608 | the plate rows become `RecomputedRows` for the entry with that exact text |
| `IdentityStore.Store.AddToBlacklist` | database.py:564-580 | upserts the entry, keeping `date_added`, then marks the similar plates with it |
| `IdentityStore.Store.RemoveFromBlacklist` | database.py:612-623 | deletes the entry and unmarks every similar plate |
| `IdentityStore.Store.GetBlacklist` | database.py:625-630 | the entries in strictly ascending text order |
| `IdentityStore.Store.AnalyzeSimilarPlates` | database.py:480-562 | replaces the pair table with `AnalyzedPairs` and leaves plates, detections and blacklist unchanged |
| `IdentityStore.Store.Analyze` | database.py:500-559 | the pass over the plates in recency order computes `AnalyzedPairs` |
| `IdentityStore.Store.SimilarPairsOf` | database.py:504-559 | the outer loop computes every row |
| `IdentityStore.Store.SimilarRow` | database.py:508-549 | the inner loop computes one plate's row; the reverse-pair check never fires |
| `IdentityStore.Store.GetPlateDetections` | database.py:310-356 | the method returns `PlateHistory` |
| `IdentityStore.Store.SimilarIds` | database.py:320-331 | the ids are the plate's own id and the ids of plates similar to it |
| `IdentityStore.Store.JoinHistory` | database.py:337-350 | the join computes `HistoryRows` |
| `IdentityStore.Store.GetSetting` | database.py:725-739 | converts a stored row; a missing `min_confidence` with a default stores and returns 30; any other miss returns the default |
| `IdentityStore.Store.SetSetting` | database.py:762-785 | writes the encoded row for that name only |
| `IdentityStore.MinConfidenceDefaultPersists` | database.py:729-733 | after the fallback write, `min_confidence` reads 30 |
| `IdentityStore.SetThenGet` | database.py:725-785 | a write followed by a read returns the value with its type |
| `Ingestion.KeyIndex` | video_processor.py:47 | a dict key's position, or none when the text is not a key |
| `Ingestion.CachePut` | video_processor.py:144 | dict assignment keeps keys unique and an existing key's place |
| `Ingestion.CachePutLookup` | video_processor.py:144 | after `known[t] = e`, `t` gives `e` and every other key is unchanged |
| `Ingestion.CacheOf` | video_processor.py:46-47 | the comprehension gives unique keys |
| `Ingestion.CacheOfKeys` | video_processor.py:46-47 | exactly the rows' texts are cached |
| `Ingestion.CacheOfLast` | video_processor.py:46-47 | a text caches its last row |
| `Ingestion.FirstNear` | video_processor.py:90-97 | an index into the snapshot, or none |
| `Ingestion.FirstNearIsFirst` | video_processor.py:90-97 | the entry found is the first within distance 2; none is found iff no entry is within distance 2 |
| `Ingestion.BestAmong` | video_processor.py:124-132 | the target is within distance 2, and none is found iff no cached plate is |
| `Ingestion.BestAmongIsMax` | video_processor.py:130-132 | the target has the highest confidence among candidates, and earlier candidates are strictly lower (the first wins ties) |
| `Ingestion.CacheConfidenceNeverDrops` | video_processor.py:135-151 | a read never lowers a cached confidence or drops a cached text |
| `Ingestion.UnmatchedTextNotCached` | video_processor.py:124-127 | an unmatched text is not already a key |
| `Ingestion.UnmatchedReadIsCached` | video_processor.py:365-375 | an unmatched read is cached under its exact text with the new id |
| `Ingestion.WeakerReadKeepsCache` | video_processor.py:138-145 | a read no more confident than its target leaves the cache unchanged |
| `Ingestion.WorkerAndStoreTestsDiffer` | video_processor.py:124-127 | the worker's distance-2 test and the store's predicate disagree in both directions |
| `Ingestion.BlacklistAfterRead` | video_processor.py:133-151 | the detection is written on the resolved plate against the rows as they stand then (before an appearance update, after a new row's insert); only `last_seen` values change, and a detection lost to the dedup window changes nothing |
| `Ingestion.NewPlateUnlistedKeepsBlacklist` | database.py:277-283 | a new plate whose own text is not listed leaves the blacklist unchanged, even when the store blacklisted it through a similar entry: the `last_seen` update matches the exact text |
| `Ingestion.VideoWorker.constructor` | video_processor.py:26-52 | the snapshot is the text-ordered blacklist; the cache comes from the plates in recency order; the counters are zero |
| `Ingestion.VideoWorker.ReadTables` | video_processor.py:43-47 | the two start-up reads |
| `Ingestion.VideoWorker.LoadCache` | video_processor.py:46-47 | the loop builds `CacheOf` |
| `Ingestion.VideoWorker.CheckBlacklist` | video_processor.py:85-97 | returns the first snapshot entry within distance 2, and counts only a hit |
| `Ingestion.VideoWorker.FindBestMatch` | video_processor.py:124-132 | the candidate scan finds `BestMatch` |
| `Ingestion.VideoWorker.ScanBest` | video_processor.py:124-132 | the loop finds `BestMatch` |
| `Ingestion.VideoWorker.PlateCallback` | video_processor.py:101-157 | stop ⇒ returns 1 and changes nothing; otherwise returns 0, one more plate found, the text recorded, the cache, plates, detections and blacklist (`BlacklistAfterRead`) as specified, the plate id advancing only for a new plate and the detection id only for a kept detection, pairs and settings unchanged |
| `Ingestion.VideoWorker.HandleRead` | video_processor.py:122-155 | resolution, then the blacklist mark on the resolved id; the store's blacklist is `BlacklistAfterRead`, the ids advance as the resolution does, pairs and settings unchanged |
| `Ingestion.VideoWorker.Resolve` | video_processor.py:124-151 | the detection is always recorded; the matched row and cache move only on a strictly higher confidence; an unmatched read is inserted and cached; the blacklist is `BlacklistAfterRead`; the plate id advances iff no cached plate matched, the detection id iff the detection survives the dedup window; pairs and settings unchanged |
| `Ingestion.VideoWorker.UpdateMatched` | video_processor.py:129-145 | the matched branch: the detection is written against the rows before the appearance update, so the blacklist is `BlacklistAfterWrite` on those rows; the plate id is unchanged, the detection id advances iff the detection is kept; pairs and settings unchanged |
| `Ingestion.VideoWorker.SaveNewPlate` | video_processor.py:297-375 | insert (with the store's blacklist check), cache under the exact text, record the detection; the blacklist is `BlacklistAfterWrite` on the rows including the new one, the plate id advances by one, the detection id iff the detection is kept; pairs and settings unchanged |
| `SettingsDialog.CpuCount` | settings_dialog.py:624 | `os.cpu_count() or 1` |
| `SettingsDialog.AllAccepted` | settings_dialog.py:620-653 | all six checks pass |
| `SettingsDialog.Validate` | settings_dialog.py:620-653 | Ok iff threads ∈ [1, 4·cpus], confidence ∈ [0,100], distance threshold ∈ [0,10], ratio ∈ [0,1], window > 0, minimum detections ≥ 2; an error names the first failing field, and says whether it failed to parse |
| `SettingsDialog.SaveSettingsAsWritten` | settings_dialog.py:616-664 | nothing is written unless every check passes; then eight writes of the entries' texts |
| `SettingsDialog.SavedAsTextLosesThresholds` | settings_dialog.py:659-660 | after such a save, the store's thresholds no longer read as numbers |
| `SettingsDialog.SavedAlertOffStillSounds` | settings_dialog.py:658 | after such a save with the alert off, `alert_sound` reads as the truthy text "False" |
| `SettingsDialog.SaveSettings` | settings_dialog.py:616-664 | the same checks, then typed writes |
| `SettingsDialog.TypedSaveThresholds` | settings_dialog.py:659-660 | after a typed save, the store reads the saved thresholds |
| `SettingsDialog.TypedSaveReadsBack` | settings_dialog.py:656-664 | after a typed save, the integers read back and each check box is truthy iff ticked |
| `SettingsDialog.ValidateTrackingParams` | settings_dialog.py:288-293 | accepted only with a positive window and at least 2 detections |
| `SettingsDialog.TrackingChecksAgree` | settings_dialog.py:288-293 | the analysis accepts exactly the tracking entries the save accepts |
| `SettingsDialog.ParseEntry` | settings_dialog.py:601 | the parsed plate is no longer than the line |
| `SettingsDialog.EntryRoundTrip` | settings_dialog.py:201-204 | "PLATE - REASON (LEVEL)" parses back to PLATE when PLATE is stripped and has no " - " |
| `SettingsDialog.BlacklistLines` | settings_dialog.py:197-204 | one line per entry, in store order |
| `SettingsDialog.SelectedLineNamesEntry` | settings_dialog.py:599-601 | removing a selected line removes the entry it shows |
| `SettingsDialog.BlacklistLinesAsWritten` | settings_dialog.py:193-206 | a non-empty blacklist shows the single error line |
| `SettingsDialog.ListedAsWrittenHidesEntries` | settings_dialog.py:196-206 | the line shown is no entry's line |
| `SettingsDialog.NormalizeInput` | settings_dialog.py:509-514 | cancelled, empty or whitespace-only input is rejected |
| `SettingsDialog.NormalizedShape` | settings_dialog.py:514 | the kept text is non-empty, has no blank ends and no lower-case ASCII letter |
| `SettingsDialog.NormalizeIdempotent` | settings_dialog.py:514 | normalising twice equals normalising once |
| `SettingsDialog.DayCount` | settings_dialog.py:407-410 | a day with no row counts 0 |
| `SettingsDialog.WeekCounts` | settings_dialog.py:400-414 | seven counts, Sunday to Saturday |
| `SettingsDialog.WeekCountsOfRows` | settings_dialog.py:407-414 | a returned day shows the count of its last row |
| `Report.UnparseableDateNotListed` | report_panel.py:425-431 | with a date filter set, a plate whose date does not parse is not listed |
| `Report.Filtered` | report_panel.py:414-458 | the list is drawn from the plates |
| `Report.FilteredMembers` | report_panel.py:418-458 | a plate is listed iff every enabled filter passes |
| `Report.PairIds` | report_panel.py:405-410 | the similar ids are both ids of every stored pair |
| `Report.LoadData` | report_panel.py:383-458 | the id sets are built only when their boxes are ticked, and the list is `Filtered` |
| `Report.StatusOf` | report_panel.py:522-531 | blacklisted > tracking > similar > normal |
| `Report.StatusSortKey` | report_panel.py:478-484 | key in 0..3, and 3 iff blacklisted |
| `Report.SortKeyMatchesStatus` | report_panel.py:478-531 | with the sets `load_data` builds, the sort key equals the rank of the shown status |
| `Report.SortedByStatus` | report_panel.py:486-489 | a permutation ordered by the key, ascending or reversed |
| `Report.SafeFolderName` | report_panel.py:247 | the same length; alphanumerics kept; everything else becomes "_" |
| `Report.SafeFolderNameIdempotent` | report_panel.py:247 | applying it again changes nothing; an alphanumeric text is its own folder name |
| `Report.ConfidenceBand` | report_panel.py:1306-1314 | below 80 red, below 90 yellow, otherwise green; an unconvertible value counts as 0 |
| `Report.BandMonotone` | report_panel.py:1312-1314 | a higher confidence never gets a lower band |
| `Report.ReportFollowMark` | report_panel.py:1135-1141 | following iff named by the analysis or seen in ≥ 4 videos; a named plate keeps the analysis's reason, an unnamed one seen in ≥ 4 videos gets "Detected in N different video files", an unmarked one an empty reason |
| `Report.TrackingCount` | report_panel.py:1162 | `tracking_plates` is the number of plates the analysis named plus the unnamed plates seen in ≥ 4 videos |
| `Report.CountsPartition` | report_panel.py:1160-1170 | blacklisted + following + neither = total + both |
| `Report.NormalCount` | report_panel.py:1183-1184 | `max(0, total − blacklisted − tracking)` covers the rest of the pie |
| `Report.NormalSlice` | report_panel.py:1183-1184 | the "normal" slice equals the plates that are neither, when no plate is both |

## Left out

- Tkinter widgets, dialogs, message boxes and the HTML/JavaScript report text are out of scope. Only the checks and computations they embed are modelled.
- Threads, the stop event's timing and the processing manager are out of scope. Ingestion is a sequence of calls, and the stop event is a boolean parameter. The source has no locking, and concurrent ingestion calls are not modelled.
- The recognition engine, frame counting and image saving are foreign calls and file I/O. Image paths are opaque strings, and saving them is assumed to succeed.
- Storage failures are not modelled: no SQL error, and no `pid is None` path after a failed insert. SQLite is replaced by in-memory tables.
- Timestamps are integer microseconds, so the ISO strings' lexicographic comparison is modelled as integer comparison.
- `get_all_plates` sorts by `last_appearance DESC`. Its order on ties is modelled as a stable sort of insertion order; SQLite leaves that order unspecified.
- `StoreTables.RecentBest`: the dedup query's `ORDER BY confidence DESC LIMIT 1` leaves the row chosen among equal confidences unspecified; the model picks the earliest in table order.
- `StoreTables.KeepBest`: the history's `ROW_NUMBER() OVER (... ORDER BY pd.confidence DESC)` leaves the row kept among equal confidences in a group unspecified; the model keeps the earliest in table order.
- `StoreTables.BlacklistAfterDetection`: when the detection time does not parse and the file name has no timestamp, the source still writes the raw detection text to `last_seen`; the model has no text for such a time and leaves `last_seen` unchanged. The worker always passes a parseable clock reading, so ingestion is unaffected.
- Each `_is_similar_plate` call re-reads the settings. Here the thresholds come in as a parameter and are read once per operation (`SettingThresholds`).
- `Levenshtein.ratio` is a function parameter with values in [0, 1]. Its formula is not modelled.
- `parse_date` is not modelled. The report filter takes its result as an optional integer per plate.
- Calendar validity in `extract_timestamp_from_filename` is the `datetime` field check. Leap-second handling and `strptime` on text other than 14 digits are not modelled.
- Python's `int()`/`float()` are modelled on plain decimal text only: no exponents, `inf`/`nan` or underscores. `lower()`/`upper()`/`isalnum()` are modelled for ASCII only.
- `statistics`, percentages and bar lengths are float display arithmetic and are not modelled. `format_time` uses real numbers, without float rounding.
- `find_potential_follow_plates` (database.py:412-478) is the scan that applies the tracking test to every plate. It is not part of the modelled core: the report filter takes the set of following ids as an input.
- `clear_database`, profiles, alerts, `get_plate_stats`, `get_similar_plates` and `get_detections_for_plates` are plain CRUD and are not modelled.
- `StoreTables.PairNoteOf`: plate confidences are never missing in the model, so the note "Confidence difference unclear" is not modelled.
- `StoreTables.MakePair`: first appearances are integers, so the time difference never fails; the source stores `None` when `fromisoformat` fails.
- `Tracking.IsPotentialFollow`: detection times are never missing, so the `interval_seconds is None` skip is not modelled.
- `IdentityStore.Store.GetPlateDetections` returns the history in detection-table order. The final `ORDER BY detection_time DESC` is not modelled.
- `Report.LoadData`: the "videos" sort and the unique-video counts need per-plate history queries and are not modelled.

## Findings

| source | as written | input that shows it | evidently intended | confidence | as-written member | corrected member |
|---|---|---|---|---|---|---|
| settings_dialog.py:656-664 | `save_settings` passes each entry's text (and `str(bool)`) to `set_setting`, which stores every value with tag "string" | untick "alert sound", save; `get_setting('alert_sound', True)` returns "False", which is truthy, so the alert still sounds (progress_frame.py:602). The thresholds come back as text, and `distance <= "2"` raises `TypeError` | store the checked values with their types, as `_init_db` seeds them | high (not executed) | `SettingsDialog.SavedAlertOffStillSounds` | `SettingsDialog.TypedSaveReadsBack` |
| settings_dialog.py:197-200 | `refresh_blacklist` calls `.get` on the rows of `get_blacklist`, which are `sqlite3.Row` objects, and these have no `get` method | any non-empty blacklist: the first row raises `AttributeError`, and the list shows only "Error loading blacklist." | one "PLATE - REASON (LEVEL)" line per entry | high (not executed) | `SettingsDialog.ListedAsWrittenHidesEntries` | `SettingsDialog.SelectedLineNamesEntry` |
