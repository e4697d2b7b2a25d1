/** The `DB` class of database.py: the plate, detection, blacklist,
    similar-pair and settings tables held in memory, each method doing what
    its SQL statements do to them. The similarity check `_is_similar_plate`
    is passed in as `sim`; callers pass `Matcher(t, ratio)` for the
    thresholds `t` read from the settings (`SettingThresholds`) and the
    ratio function `ratio`. */
module IdentityStore {
  import opened Wrappers
  import opened Text
  import opened Sorting
  import opened Similarity
  import opened Settings
  import opened StoreTables

  class Store {
    var plates: seq<Plate>
    var detections: seq<Detection>
    var blacklist: seq<BlacklistEntry>
    var similarPairs: seq<SimilarPair>
    var settings: map<string, StoredSetting>
    /** The next AUTOINCREMENT values of `plates` and `plate_detections`. */
    var nextPlateId: nat
    var nextDetectionId: nat

    /** Row ids ascend in table order and stay below the next id; the
        blacklist is in text order with unique texts. */
    predicate Valid()
      reads this
    {
      (forall i, j :: 0 <= i < j < |plates| ==> plates[i].id < plates[j].id)
      && (forall i :: 0 <= i < |plates| ==> plates[i].id < nextPlateId)
      && (forall i, j :: 0 <= i < j < |detections| ==> detections[i].id < detections[j].id)
      && (forall i :: 0 <= i < |detections| ==> detections[i].id < nextDetectionId)
      && BlacklistSorted(blacklist)
    }

    /** `_init_db` on a fresh database: empty tables and the seeded settings. */
    constructor ()
      ensures Valid()
      ensures plates == [] && detections == [] && blacklist == [] && similarPairs == []
      ensures settings == DefaultSettings()
      ensures nextPlateId == 1 && nextDetectionId == 1
    {
      plates := [];
      detections := [];
      blacklist := [];
      similarPairs := [];
      settings := DefaultSettings();
      nextPlateId := 1;
      nextDetectionId := 1;
    }

    /** `insert_plate(data)`: scans the blacklist in text order for the first
        entry similar to the new text, then appends the plate with its
        status and returns its id. */
    method InsertPlate(d: NewPlateData, sim: PlateMatch) returns (pid: nat)
      requires Valid()
      modifies this
      ensures Valid()
      ensures pid == old(nextPlateId) && nextPlateId == pid + 1
      ensures plates == old(plates) + [NewPlate(pid, d, blacklist, sim)]
      ensures forall k :: 0 <= k < |old(plates)| ==> old(plates)[k].id != pid
      ensures detections == old(detections) && blacklist == old(blacklist)
      ensures similarPairs == old(similarPairs) && settings == old(settings)
      ensures nextDetectionId == old(nextDetectionId)
    {
      var bl := blacklist;
      var found: Option<nat> := None;
      var i := 0;
      while i < |bl| && found.None?
        invariant 0 <= i <= |bl|
        invariant found.None? ==> forall k :: 0 <= k < i ==> !sim(d.text, bl[k].text)
        invariant found.Some? ==> found == FirstSimilarEntry(bl, d.text, sim, 0)
      {
        if sim(d.text, bl[i].text) {
          found := Some(i);
        }
        i := i + 1;
      }
      pid := nextPlateId;
      var p := match found
        case Some(k) =>
          Plate(pid, d.text, d.confidence, d.country, d.lprTimestamp, d.firstAppearance,
                d.lastAppearance, d.profile, 1, true, Some(bl[k].reason), Some(bl[k].dangerLevel))
        case None =>
          Plate(pid, d.text, d.confidence, d.country, d.lprTimestamp, d.firstAppearance,
                d.lastAppearance, d.profile, 1, false, None, None);
      plates := plates + [p];
      nextPlateId := nextPlateId + 1;
    }

    /** The dedup query of `add_plate_detection`: the most confident
        detection of plate `pid` in the second up to `time`, the earliest
        one on ties. */
    method FindRecentDetection(pid: nat, time: int) returns (recent: Option<nat>)
      ensures recent == RecentBest(detections, pid, time)
    {
      var ds := detections;
      recent := None;
      var i := 0;
      while i < |ds|
        invariant 0 <= i <= |ds|
        invariant recent == RecentBest(ds[..i], pid, time)
      {
        assert ds[..i + 1][..i] == ds[..i];
        if InWindow(ds[i], pid, time) && (recent.None? || ds[i].confidence > ds[recent.value].confidence) {
          recent := Some(i);
        }
        i := i + 1;
      }
      assert ds[..i] == ds;
    }

    /** `add_plate_detection(pid, time, source_file, confidence, pp, fp)`:
        the timestamp in the file name, then the write. */
    method AddPlateDetection(pid: nat, time: Option<int>, sourceFile: string, confidence: real,
                             pp: string, fp: string)
      requires Valid()
      modifies this
      ensures Valid()
      ensures Deduplicated(old(detections), pid, time, confidence, pp, fp).None? ==>
        detections == old(detections) && blacklist == old(blacklist) && nextDetectionId == old(nextDetectionId)
      ensures Deduplicated(old(detections), pid, time, confidence, pp, fp).Some? ==>
        detections == Deduplicated(old(detections), pid, time, confidence, pp, fp).value
                      + [Detection(old(nextDetectionId), pid, time, RealTimestamp(sourceFile), sourceFile,
                                   confidence, pp, fp)]
        && nextDetectionId == old(nextDetectionId) + 1
        && blacklist == BlacklistAfterDetection(old(blacklist), plates, pid, RealTimestamp(sourceFile), time)
      ensures detections == AddedDetections(old(detections), old(nextDetectionId), pid, time, RealTimestamp(sourceFile),
                                            sourceFile, confidence, pp, fp)
      ensures blacklist == BlacklistAfterWrite(old(blacklist), old(plates), old(detections), pid, time,
                                               RealTimestamp(sourceFile), confidence, pp, fp)
      ensures plates == old(plates) && similarPairs == old(similarPairs) && settings == old(settings)
      ensures nextPlateId == old(nextPlateId)
    {
      var fileTime := RealTimestamp(sourceFile);
      WriteDetection(pid, time, fileTime, sourceFile, confidence, pp, fp);
    }

    /** The writes of `add_plate_detection` once the file-name timestamp is
        known: the dedup step, then (unless the read lost) the insert and the
        `last_seen` update. */
    method WriteDetection(pid: nat, time: Option<int>, fileTime: Option<int>, sourceFile: string,
                          confidence: real, pp: string, fp: string)
      requires Valid()
      modifies this
      ensures Valid()
      ensures Deduplicated(old(detections), pid, time, confidence, pp, fp).None? ==>
        detections == old(detections) && blacklist == old(blacklist) && nextDetectionId == old(nextDetectionId)
      ensures Deduplicated(old(detections), pid, time, confidence, pp, fp).Some? ==>
        detections == Deduplicated(old(detections), pid, time, confidence, pp, fp).value
                      + [Detection(old(nextDetectionId), pid, time, fileTime, sourceFile, confidence, pp, fp)]
        && nextDetectionId == old(nextDetectionId) + 1
        && blacklist == BlacklistAfterDetection(old(blacklist), plates, pid, fileTime, time)
      ensures plates == old(plates) && similarPairs == old(similarPairs) && settings == old(settings)
      ensures nextPlateId == old(nextPlateId)
    {
      var keep := Deduplicate(pid, time, confidence, pp, fp);
      if keep {
        InsertDetection(pid, time, fileTime, sourceFile, confidence, pp, fp);
        TouchBlacklist(pid, fileTime, time);
      }
    }

    /** The dedup step: the best detection of the plate in the window is
        looked up; a read that loses to it writes nothing (`keep` is false),
        one that beats it overwrites its confidence and images. */
    method Deduplicate(pid: nat, time: Option<int>, confidence: real, pp: string, fp: string)
      returns (keep: bool)
      requires Valid()
      modifies this
      ensures Valid()
      ensures keep <==> Deduplicated(old(detections), pid, time, confidence, pp, fp).Some?
      ensures keep ==> detections == Deduplicated(old(detections), pid, time, confidence, pp, fp).value
      ensures !keep ==> detections == old(detections)
      ensures plates == old(plates) && blacklist == old(blacklist) && similarPairs == old(similarPairs)
      ensures settings == old(settings) && nextPlateId == old(nextPlateId) && nextDetectionId == old(nextDetectionId)
    {
      var recent: Option<nat> := None;
      if time.Some? {
        recent := FindRecentDetection(pid, time.value);
      }
      keep := true;
      if recent.Some? {
        var k := recent.value;
        if confidence > detections[k].confidence {
          detections := detections[k := detections[k].(confidence := confidence, plateImage := pp, frameImage := fp)];
        } else {
          keep := false;
        }
      }
    }

    /** The `INSERT INTO plate_detections` of the new read. */
    method InsertDetection(pid: nat, time: Option<int>, fileTime: Option<int>, sourceFile: string,
                           confidence: real, pp: string, fp: string)
      requires Valid()
      modifies this
      ensures Valid()
      ensures detections == old(detections) + [Detection(old(nextDetectionId), pid, time, fileTime, sourceFile, confidence, pp, fp)]
      ensures nextDetectionId == old(nextDetectionId) + 1
      ensures plates == old(plates) && blacklist == old(blacklist) && similarPairs == old(similarPairs)
      ensures settings == old(settings) && nextPlateId == old(nextPlateId)
    {
      detections := detections + [Detection(nextDetectionId, pid, time, fileTime, sourceFile, confidence, pp, fp)];
      nextDetectionId := nextDetectionId + 1;
    }

    /** The `last_seen` update: when plate `pid` is blacklisted, its exact
        text's entry is moved forward to the file-name time, or else the
        detection time. */
    method TouchBlacklist(pid: nat, fileTime: Option<int>, time: Option<int>)
      requires Valid()
      modifies this
      ensures Valid()
      ensures blacklist == BlacklistAfterDetection(old(blacklist), plates, pid, fileTime, time)
      ensures plates == old(plates) && detections == old(detections) && similarPairs == old(similarPairs)
      ensures settings == old(settings) && nextPlateId == old(nextPlateId) && nextDetectionId == old(nextDetectionId)
    {
      var info := PlateById(plates, pid);
      if info.Some? && info.value.isBlacklisted {
        var when := SeenAt(fileTime, time);
        if when.Some? {
          blacklist := TouchLastSeen(blacklist, info.value.text, when.value);
        }
      }
    }

    /** `update_plate_appearance(pid, la, confidence)`: the row with id
        `pid` gets the new last appearance, one more appearance, and the new
        confidence if that is higher. */
    method UpdatePlateAppearance(pid: nat, lastAppearance: int, confidence: real)
      requires Valid()
      modifies this
      ensures Valid()
      ensures plates == AppearanceRows(old(plates), pid, lastAppearance, confidence)
      ensures detections == old(detections) && blacklist == old(blacklist)
      ensures similarPairs == old(similarPairs) && settings == old(settings)
      ensures nextPlateId == old(nextPlateId) && nextDetectionId == old(nextDetectionId)
    {
      var ps := plates;
      var i := 0;
      while i < |ps|
        invariant 0 <= i <= |ps| && |ps| == |plates|
        invariant forall k :: 0 <= k < i ==>
          ps[k] == if plates[k].id == pid then Appeared(plates[k], lastAppearance, confidence) else plates[k]
        invariant forall k :: i <= k < |ps| ==> ps[k] == plates[k]
      {
        if ps[i].id == pid {
          var p := ps[i].(lastAppearance := lastAppearance, totalAppearances := ps[i].totalAppearances + 1);
          if p.confidence < confidence {
            p := p.(confidence := confidence);
          }
          ps := ps[i := p];
        }
        i := i + 1;
      }
      plates := ps;
    }

    /** The ingestion worker's `UPDATE plates SET is_blacklisted=1 WHERE
        id=?`. */
    method MarkBlacklisted(pid: nat)
      requires Valid()
      modifies this
      ensures Valid()
      ensures plates == MarkedRows(old(plates), pid)
      ensures detections == old(detections) && blacklist == old(blacklist)
      ensures similarPairs == old(similarPairs) && settings == old(settings)
      ensures nextPlateId == old(nextPlateId) && nextDetectionId == old(nextDetectionId)
    {
      var ps := plates;
      var i := 0;
      while i < |ps|
        invariant 0 <= i <= |ps| && |ps| == |plates|
        invariant forall k :: 0 <= k < i ==> ps[k] == if plates[k].id == pid then plates[k].(isBlacklisted := true) else plates[k]
        invariant forall k :: i <= k < |ps| ==> ps[k] == plates[k]
      {
        if ps[i].id == pid {
          ps := ps[i := ps[i].(isBlacklisted := true)];
        }
        i := i + 1;
      }
      plates := ps;
    }

    /** `update_blacklist_status_for_plate(text)`: looks the text up in the
        blacklist and gives every plate similar to it that entry's status,
        or clears the status when the text is not listed. */
    method UpdateBlacklistStatusForPlate(text: string, sim: PlateMatch)
      requires Valid()
      modifies this
      ensures Valid()
      ensures plates == RecomputedRows(old(plates), text, FindEntry(blacklist, text), sim)
      ensures detections == old(detections) && blacklist == old(blacklist)
      ensures similarPairs == old(similarPairs) && settings == old(settings)
      ensures nextPlateId == old(nextPlateId) && nextDetectionId == old(nextDetectionId)
    {
      var entry := FindEntry(blacklist, text);
      var ps := plates;
      var i := 0;
      while i < |ps|
        invariant 0 <= i <= |ps| && |ps| == |plates|
        invariant forall k :: 0 <= k < i ==> ps[k] == RecomputedRow(plates[k], text, entry, sim)
        invariant forall k :: i <= k < |ps| ==> ps[k] == plates[k]
      {
        if sim(ps[i].text, text) {
          var p := match entry
            case Some(e) => ps[i].(isBlacklisted := true, reason := Some(e.reason), dangerLevel := Some(e.dangerLevel))
            case None => ps[i].(isBlacklisted := false, reason := None, dangerLevel := None);
          ps := ps[i := p];
        }
        i := i + 1;
      }
      plates := ps;
    }

    /** `add_to_blacklist(pt, reason, level)` at time `now`: the entry is
        written (keeping its first `date_added`) and the plates similar to
        it are marked. */
    method AddToBlacklist(pt: string, reason: string, level: string, now: int, sim: PlateMatch)
      requires Valid()
      modifies this
      ensures Valid()
      ensures blacklist == Upsert(old(blacklist), UpsertedEntry(old(blacklist), pt, reason, level, now))
      ensures plates == RecomputedRows(old(plates), pt, Some(UpsertedEntry(old(blacklist), pt, reason, level, now)),
                                       sim)
      ensures detections == old(detections) && similarPairs == old(similarPairs) && settings == old(settings)
      ensures nextPlateId == old(nextPlateId) && nextDetectionId == old(nextDetectionId)
    {
      var e := UpsertedEntry(blacklist, pt, reason, level, now);
      blacklist := Upsert(blacklist, e);
      FindUpserted(old(blacklist), e);
      UpdateBlacklistStatusForPlate(pt, sim);
    }

    /** `remove_from_blacklist(pt)`: the entry is deleted and every plate
        similar to `pt` is unmarked. */
    method RemoveFromBlacklist(pt: string, sim: PlateMatch)
      requires Valid()
      modifies this
      ensures Valid()
      ensures blacklist == RemoveText(old(blacklist), pt)
      ensures plates == RecomputedRows(old(plates), pt, None, sim)
      ensures detections == old(detections) && similarPairs == old(similarPairs) && settings == old(settings)
      ensures nextPlateId == old(nextPlateId) && nextDetectionId == old(nextDetectionId)
    {
      blacklist := RemoveText(blacklist, pt);
      UpdateBlacklistStatusForPlate(pt, sim);
    }

    /** `get_blacklist()`: the entries in ascending text order. */
    function GetBlacklist(): (r: seq<BlacklistEntry>)
      requires Valid()
      reads this
      ensures forall i, j :: 0 <= i < j < |r| ==> LexLess(r[i].text, r[j].text)
      ensures forall e :: e in r <==> e in blacklist
    {
      blacklist
    }

    /** `analyze_similar_plates(t, ratio)`: clears the pairs table, walks
        the plates from the most recently seen, compares each with every
        later one and records the candidate pairs, skipping a pair already
        recorded the other way round. */
    method AnalyzeSimilarPlates(sim: PlateMatch, ratio: RatioFn) returns (result: seq<SimilarPair>)
      requires Valid()
      modifies this
      ensures Valid()
      ensures result == AnalyzedPairs(old(plates), sim, ratio)
      ensures similarPairs == result
      ensures plates == old(plates) && detections == old(detections) && blacklist == old(blacklist)
      ensures settings == old(settings) && nextPlateId == old(nextPlateId) && nextDetectionId == old(nextDetectionId)
    {
      var ps := plates;
      assert DistinctIds(ps);
      result := Analyze(ps, sim, ratio);
      similarPairs := result;
    }

    /** The plates sorted by recency, their texts stripped, and the pairs
        collected. */
    static method Analyze(ps: seq<Plate>, sim: PlateMatch, ratio: RatioFn) returns (result: seq<SimilarPair>)
      requires DistinctIds(ps)
      ensures result == AnalyzedPairs(ps, sim, ratio)
    {
      var ordered := SortBy(ps, RecencyKey);
      ReorderKeepsDistinctIds(ps, ordered);
      LaterIdsUnseen(ordered);
      var texts := StrippedTexts(ordered);
      result := SimilarPairsOf(ordered, texts, sim, ratio);
    }

    /** The two nested loops of `analyze_similar_plates` over the plates in
        recency order and their stripped texts: every candidate pair, row by
        row, with the processed set threaded through. */
    static method SimilarPairsOf(ordered: seq<Plate>, texts: seq<string>, sim: PlateMatch, ratio: RatioFn)
      returns (result: seq<SimilarPair>)
      requires |texts| == |ordered| && forall i :: 0 <= i < |ordered| ==> LaterUnseen(ordered, i)
      ensures result == RowsUpTo(ordered, texts, |ordered|, sim, ratio)
    {
      result := [];
      var processed: set<(nat, nat)> := {};
      var i := 0;
      while i < |ordered|
        invariant 0 <= i <= |ordered|
        invariant result == RowsUpTo(ordered, texts, i, sim, ratio)
        invariant forall pr :: pr in processed ==> pr.0 in IdsBefore(ordered, i)
      {
        var row;
        row, processed := SimilarRow(ordered, texts, i, processed, sim, ratio);
        result := result + row;
        i := i + 1;
      }
    }

    /** One pass of the inner loop of `analyze_similar_plates` over the
        stripped texts: the pairs of ordered[i] with each later plate, and
        the processed set grown by them. With the later plates' ids unseen
        so far, the reverse-pair check never fires. */
    static method SimilarRow(ordered: seq<Plate>, texts: seq<string>, i: nat, processed: set<(nat, nat)>,
                             sim: PlateMatch, ratio: RatioFn) returns (row: seq<SimilarPair>, done: set<(nat, nat)>)
      requires i < |ordered| && |texts| == |ordered|
      requires LaterUnseen(ordered, i)
      requires forall pr :: pr in processed ==> pr.0 in IdsBefore(ordered, i)
      ensures row == RowRows(ordered, texts, i, |ordered|, sim, ratio)
      ensures forall pr :: pr in done ==> pr.0 in IdsBefore(ordered, i + 1)
    {
      var text1 := texts[i];
      row := [];
      done := processed;
      var j := i + 1;
      while j < |ordered|
        invariant i + 1 <= j <= |ordered|
        invariant row == RowRows(ordered, texts, i, j, sim, ratio)
        invariant forall pr :: pr in done ==> pr.0 in IdsBefore(ordered, i + 1)
      {
        var text2 := texts[j];
        if text1 != text2 && (ordered[j].id, ordered[i].id) !in done && sim(text1, text2) {
          var pair := MakePair(ordered[i], ordered[j], text1, text2, ratio);
          row := row + [pair];
          done := done + {(ordered[i].id, ordered[j].id)};
        }
        j := j + 1;
      }
    }

    /** `get_plate_detections(plate_id)`, without its final ordering: the
        ids of the plate and of the plates similar to it, then the best row
        of each (real timestamp, source file, plate) group among their
        detections. */
    method GetPlateDetections(pid: nat, sim: PlateMatch) returns (rows: seq<Detection>)
      ensures rows == PlateHistory(plates, detections, pid, sim)
    {
      var info := PlateById(plates, pid);
      if info.None? {
        return [];
      }
      var p := info.value;
      var ids := SimilarIds(plates, p, sim);
      var joined := JoinHistory(plates, detections, p, sim, ids);
      rows := KeepBest(joined, |joined|);
    }

    /** The first query of `get_plate_detections`: the plate's own id and
        the id of every plate whose text is similar to its text. */
    static method SimilarIds(ps: seq<Plate>, p: Plate, sim: PlateMatch) returns (ids: set<nat>)
      ensures forall d: Detection :: d.plateId in ids <==> InHistory(ps, p, d, sim)
    {
      ids := {p.id};
      var i := 0;
      while i < |ps|
        invariant 0 <= i <= |ps|
        invariant ids == {p.id} + (set k | 0 <= k < i && sim(p.text, ps[k].text) :: ps[k].id)
      {
        if ps[i].id != p.id && sim(p.text, ps[i].text) {
          ids := ids + {ps[i].id};
        }
        i := i + 1;
      }
      forall d: Detection ensures d.plateId in ids <==> InHistory(ps, p, d, sim) {
        if d.plateId in ids && d.plateId != p.id {
          var k :| 0 <= k < |ps| && sim(p.text, ps[k].text) && ps[k].id == d.plateId;
        }
        if SimilarPlateId(ps, p.text, d.plateId, sim) {
          var k :| 0 <= k < |ps| && ps[k].id == d.plateId && sim(p.text, ps[k].text);
          assert ps[k].id in (set k | 0 <= k < |ps| && sim(p.text, ps[k].text) :: ps[k].id);
        }
      }
    }

    /** The join of the detections with those ids, in detection order. */
    static method JoinHistory(ps: seq<Plate>, ds: seq<Detection>, p: Plate, sim: PlateMatch, ids: set<nat>)
      returns (joined: seq<Detection>)
      requires forall d: Detection :: d.plateId in ids <==> InHistory(ps, p, d, sim)
      ensures joined == HistoryRows(ps, ds, p, sim, |ds|)
    {
      joined := [];
      var n := 0;
      while n < |ds|
        invariant 0 <= n <= |ds|
        invariant joined == HistoryRows(ps, ds, p, sim, n)
      {
        if ds[n].plateId in ids {
          joined := joined + [ds[n]];
        }
        n := n + 1;
      }
    }

    /** `get_setting(sn, default)`: the stored value read by its tag; for a
        missing `min_confidence` with a default, 30 is written and
        returned; otherwise the default. */
    method GetSetting(name: string, default: SettingValue) returns (v: SettingValue)
      modifies this
      ensures name in old(settings) ==>
        v == ConvertSettingValue(old(settings)[name].value, old(settings)[name].tag) && settings == old(settings)
      ensures name !in old(settings) && default != SNone && name == "min_confidence" ==>
        v == SInt(30) && settings == old(settings)[name := EncodeSetting(PyInt(30))]
      ensures name !in old(settings) && (default == SNone || name != "min_confidence") ==>
        v == default && settings == old(settings)
      ensures plates == old(plates) && detections == old(detections) && blacklist == old(blacklist)
      ensures similarPairs == old(similarPairs)
      ensures nextPlateId == old(nextPlateId) && nextDetectionId == old(nextDetectionId)
    {
      if name !in settings {
        if default != SNone && name == "min_confidence" {
          SetSetting(name, PyInt(30));
          return SInt(30);
        }
        return default;
      }
      var row := settings[name];
      v := ConvertSettingValue(row.value, row.tag);
    }

    /** `set_setting(sn, sv)`: the row is inserted or replaced. */
    method SetSetting(name: string, value: PyValue)
      modifies this
      ensures settings == old(settings)[name := EncodeSetting(value)]
      ensures plates == old(plates) && detections == old(detections) && blacklist == old(blacklist)
      ensures similarPairs == old(similarPairs)
      ensures nextPlateId == old(nextPlateId) && nextDetectionId == old(nextDetectionId)
    {
      settings := settings[name := EncodeSetting(value)];
    }
  }

  /** A missing `min_confidence` read with a default leaves 30 stored, and
      every later read gives 30 again. */
  lemma MinConfidenceDefaultPersists(settings: map<string, StoredSetting>, default: SettingValue)
    ensures ReadSetting(settings["min_confidence" := EncodeSetting(PyInt(30))], "min_confidence", default) == SInt(30)
  {
    SettingRoundTrip(PyInt(30));
  }

  /** A write followed by a read of the same setting gives the value back,
      with its type. */
  lemma SetThenGet(settings: map<string, StoredSetting>, name: string, value: PyValue, default: SettingValue)
    requires ReprRoundTrips(value)
    ensures ReadSetting(settings[name := EncodeSetting(value)], name, default) == Reading(value)
  {
    SettingRoundTrip(value);
  }
}
