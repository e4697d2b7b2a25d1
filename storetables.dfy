/** The tables of database.py as values, and what each SQL statement of the
    store computes over them. Timestamps (ISO text in the database) are
    integer microseconds here; plate rows are kept in insertion order, and
    the blacklist in ascending `plate_text` order. */
module StoreTables {
  import opened Wrappers
  import opened Text
  import opened Sorting
  import opened Similarity
  import opened TimeUtil
  import opened Settings

  datatype Plate = Plate(
    id: nat,
    text: string,
    confidence: real,
    country: string,
    lprTimestamp: string,
    firstAppearance: int,
    lastAppearance: int,
    profile: string,
    totalAppearances: nat,
    isBlacklisted: bool,
    reason: Option<string>,
    dangerLevel: Option<string>)

  /** A row of `plate_detections`; `time` is `None` when the detection time
      text is not ISO 8601. */
  datatype Detection = Detection(
    id: nat,
    plateId: nat,
    time: Option<int>,
    realTimestamp: Option<int>,
    sourceFile: string,
    confidence: real,
    plateImage: string,
    frameImage: string)

  datatype BlacklistEntry = BlacklistEntry(
    text: string,
    reason: string,
    dangerLevel: string,
    dateAdded: int,
    lastSeen: Option<int>)

  /** The `detection_note` of a similar pair. */
  datatype PairNote =
    | FirstHigher(text: string, confidence: real)
    | SecondHigher(text: string, confidence: real)
    | SimilarConfidence

  /** A row of `similar_plates` (and of the returned list). */
  datatype SimilarPair = SimilarPair(
    id1: nat,
    id2: nat,
    score: real,
    distance: nat,
    timeDiff: real,
    note: PairNote)

  /** The tuple `insert_plate` receives. */
  datatype NewPlateData = NewPlateData(
    text: string,
    confidence: real,
    country: string,
    lprTimestamp: string,
    firstAppearance: int,
    lastAppearance: int,
    profile: string)

  // ---------------------------------------------------------------------
  // Blacklist order and lookup

  /** `plate_text` is UNIQUE and read `ORDER BY plate_text`: strictly
      ascending text. */
  predicate BlacklistSorted(bl: seq<BlacklistEntry>) {
    forall i, j :: 0 <= i < j < |bl| ==> LexLess(bl[i].text, bl[j].text)
  }

  /** `SELECT ... FROM blacklist WHERE plate_text = ?`. */
  function FindEntry(bl: seq<BlacklistEntry>, text: string): (r: Option<BlacklistEntry>)
    ensures r.Some? ==> r.value in bl && r.value.text == text
    ensures r.None? ==> forall k :: 0 <= k < |bl| ==> bl[k].text != text
  {
    if |bl| == 0 then None
    else if bl[0].text == text then Some(bl[0])
    else FindEntry(bl[1..], text)
  }

  /** In a sorted blacklist the entry with a given text is the only one. */
  lemma FindEntryUnique(bl: seq<BlacklistEntry>, k: nat)
    requires BlacklistSorted(bl) && k < |bl|
    ensures FindEntry(bl, bl[k].text) == Some(bl[k])
  {
    if k > 0 {
      assert LexLess(bl[0].text, bl[k].text);
      if bl[0].text == bl[k].text {
        LexLessIrreflexive(bl[0].text);
      }
      assert BlacklistSorted(bl[1..]);
      FindEntryUnique(bl[1..], k - 1);
    }
  }

  /** `INSERT OR REPLACE INTO blacklist`: the row for `e.text` is replaced by
      (or becomes) `e`, and the table stays in text order. */
  function Upsert(bl: seq<BlacklistEntry>, e: BlacklistEntry): (r: seq<BlacklistEntry>)
    requires BlacklistSorted(bl)
    ensures BlacklistSorted(r)
    ensures e in r
    ensures forall x :: x in r <==> x == e || (x in bl && x.text != e.text)
  {
    if |bl| == 0 then [e]
    else if bl[0].text == e.text then
      assert forall x :: x in bl[1..] ==> x.text != e.text by {
        forall k | 0 <= k < |bl[1..]| ensures bl[1..][k].text != e.text {
          assert LexLess(bl[0].text, bl[k + 1].text);
          LexLessIrreflexive(bl[0].text);
        }
      }
      assert bl == [bl[0]] + bl[1..];
      [e] + bl[1..]
    else if LexLess(e.text, bl[0].text) then
      assert BlacklistSorted([e] + bl) by {
        forall i, j | 0 <= i < j < |bl| + 1 ensures LexLess(([e] + bl)[i].text, ([e] + bl)[j].text) {
          if i == 0 && j > 1 {
            LexLessTransitive(e.text, bl[0].text, bl[j - 1].text);
          }
        }
      }
      assert forall x :: x in bl ==> x.text != e.text by {
        forall k | 0 <= k < |bl| ensures bl[k].text != e.text {
          if k > 0 {
            LexLessTransitive(e.text, bl[0].text, bl[k].text);
          }
          LexLessIrreflexive(e.text);
        }
      }
      [e] + bl
    else
      LexLessTotal(e.text, bl[0].text);
      assert BlacklistSorted(bl[1..]);
      var rest := Upsert(bl[1..], e);
      assert bl == [bl[0]] + bl[1..];
      var r := [bl[0]] + rest;
      assert BlacklistSorted(r) by {
        forall i, j | 0 <= i < j < |r| ensures LexLess(r[i].text, r[j].text) {
          if i == 0 {
            var x := rest[j - 1];
            if x != e {
              var m :| 0 <= m < |bl[1..]| && bl[1..][m] == x;
              assert LexLess(bl[0].text, bl[m + 1].text);
            }
          } else {
            assert LexLess(rest[i - 1].text, rest[j - 1].text);
          }
        }
      }
      r
  }

  /** After an upsert the text is found again, with the new entry. */
  lemma FindUpserted(bl: seq<BlacklistEntry>, e: BlacklistEntry)
    requires BlacklistSorted(bl)
    ensures FindEntry(Upsert(bl, e), e.text) == Some(e)
  {
    var r := Upsert(bl, e);
    var k :| 0 <= k < |r| && r[k] == e;
    FindEntryUnique(r, k);
  }

  /** `DELETE FROM blacklist WHERE plate_text = ?`. */
  function RemoveText(bl: seq<BlacklistEntry>, text: string): (r: seq<BlacklistEntry>)
    requires BlacklistSorted(bl)
    ensures BlacklistSorted(r)
    ensures forall x :: x in r <==> x in bl && x.text != text
  {
    if |bl| == 0 then []
    else
      assert BlacklistSorted(bl[1..]);
      var rest := RemoveText(bl[1..], text);
      assert bl == [bl[0]] + bl[1..];
      if bl[0].text == text then rest
      else
        var r := [bl[0]] + rest;
        assert BlacklistSorted(r) by {
          forall i, j | 0 <= i < j < |r| ensures LexLess(r[i].text, r[j].text) {
            if i == 0 {
              var m :| 0 <= m < |bl[1..]| && bl[1..][m] == rest[j - 1];
              assert LexLess(bl[0].text, bl[m + 1].text);
            } else {
              assert LexLess(rest[i - 1].text, rest[j - 1].text);
            }
          }
        }
        r
  }

  /** The entry `add_to_blacklist` writes: the given reason and level, the
      original `date_added` when the text was already listed (the
      `COALESCE`), and `last_seen` set to now. */
  function UpsertedEntry(bl: seq<BlacklistEntry>, text: string, reason: string, level: string,
                         now: int): (e: BlacklistEntry)
    ensures e.text == text && e.reason == reason && e.dangerLevel == level && e.lastSeen == Some(now)
    ensures FindEntry(bl, text).Some? ==> e.dateAdded == FindEntry(bl, text).value.dateAdded
    ensures FindEntry(bl, text).None? ==> e.dateAdded == now
  {
    var date := match FindEntry(bl, text) case Some(prev) => prev.dateAdded case None => now;
    BlacklistEntry(text, reason, level, date, Some(now))
  }

  /** Re-listing a plate keeps the date it was first listed. */
  lemma UpsertKeepsDateAdded(bl: seq<BlacklistEntry>, k: nat, reason: string, level: string, now: int)
    requires BlacklistSorted(bl) && k < |bl|
    ensures var e := UpsertedEntry(bl, bl[k].text, reason, level, now);
      e.dateAdded == bl[k].dateAdded && e in Upsert(bl, e)
  {
    FindEntryUnique(bl, k);
  }

  // ---------------------------------------------------------------------
  // insert_plate

  /** A similarity predicate on plate texts (`Matcher` of the thresholds in
      force, in every use the store makes of it). */
  type PlateMatch = (string, string) -> bool

  /** The first blacklist entry (in text order) similar to `text`. */
  function FirstSimilarEntry(bl: seq<BlacklistEntry>, text: string, sim: PlateMatch,
                             from: nat): (r: Option<nat>)
    ensures r.Some? ==> (from <= r.value < |bl| && sim(text, bl[r.value].text)
                         && forall k :: from <= k < r.value ==> !sim(text, bl[k].text))
    ensures r.None? ==> forall k :: from <= k < |bl| ==> !sim(text, bl[k].text)
    decreases |bl| - from
  {
    if from >= |bl| then None
    else if sim(text, bl[from].text) then Some(from)
    else FirstSimilarEntry(bl, text, sim, from + 1)
  }

  /** The row `insert_plate` adds: one appearance, and the blacklist flag,
      reason and level of the first similar blacklist entry, if any. */
  function NewPlate(id: nat, d: NewPlateData, bl: seq<BlacklistEntry>, sim: PlateMatch): (p: Plate)
    ensures p.id == id && p.text == d.text && p.confidence == d.confidence
    ensures p.firstAppearance == d.firstAppearance && p.lastAppearance == d.lastAppearance
    ensures p.totalAppearances == 1
  {
    match FirstSimilarEntry(bl, d.text, sim, 0)
    case Some(k) =>
      Plate(id, d.text, d.confidence, d.country, d.lprTimestamp, d.firstAppearance,
            d.lastAppearance, d.profile, 1, true, Some(bl[k].reason), Some(bl[k].dangerLevel))
    case None =>
      Plate(id, d.text, d.confidence, d.country, d.lprTimestamp, d.firstAppearance,
            d.lastAppearance, d.profile, 1, false, None, None)
  }

  /** A new plate is blacklisted exactly when some entry is similar to it,
      and then carries the reason and level of the first such entry. */
  lemma NewPlateBlacklistedIff(id: nat, d: NewPlateData, bl: seq<BlacklistEntry>, sim: PlateMatch)
    ensures NewPlate(id, d, bl, sim).isBlacklisted
      <==> exists k :: 0 <= k < |bl| && sim(d.text, bl[k].text)
    ensures forall k :: (0 <= k < |bl| && sim(d.text, bl[k].text)
                         && (forall m :: 0 <= m < k ==> !sim(d.text, bl[m].text))) ==>
      (NewPlate(id, d, bl, sim).reason == Some(bl[k].reason)
       && NewPlate(id, d, bl, sim).dangerLevel == Some(bl[k].dangerLevel))
    ensures !NewPlate(id, d, bl, sim).isBlacklisted ==>
      NewPlate(id, d, bl, sim).reason.None? && NewPlate(id, d, bl, sim).dangerLevel.None?
  {
    var r := FirstSimilarEntry(bl, d.text, sim, 0);
    forall k | 0 <= k < |bl| && sim(d.text, bl[k].text)
      && (forall m :: 0 <= m < k ==> !sim(d.text, bl[m].text))
      ensures r == Some(k)
    {
      assert r.Some?;
    }
  }

  // ---------------------------------------------------------------------
  // add_plate_detection

  const WindowMicros: int := 1000000

  /** A row the dedup query selects: same plate, detection time in
      (t - 1 s, t]. */
  predicate InWindow(d: Detection, pid: nat, t: int) {
    d.plateId == pid && d.time.Some? && t - WindowMicros < d.time.value <= t
  }

  /** `ORDER BY confidence DESC LIMIT 1` over the window: the most confident
      row, the earliest one on ties. */
  function RecentBest(ds: seq<Detection>, pid: nat, t: int): (r: Option<nat>)
    ensures r.Some? ==> (r.value < |ds| && InWindow(ds[r.value], pid, t)
      && (forall k :: 0 <= k < |ds| && InWindow(ds[k], pid, t) ==> ds[k].confidence <= ds[r.value].confidence)
      && (forall k :: 0 <= k < r.value && InWindow(ds[k], pid, t) ==> ds[k].confidence < ds[r.value].confidence))
    ensures r.None? <==> forall k :: 0 <= k < |ds| ==> !InWindow(ds[k], pid, t)
  {
    if |ds| == 0 then None
    else
      var n := |ds| - 1;
      var r := RecentBest(ds[..n], pid, t);
      assert forall k :: 0 <= k < n ==> ds[..n][k] == ds[k];
      if InWindow(ds[n], pid, t) && (r.None? || ds[n].confidence > ds[r.value].confidence) then Some(n)
      else r
  }

  /** The dedup step: `None` when the new read loses to the best row in its
      window (nothing is written), otherwise the table before the insert,
      with the best row's confidence and images overwritten when the new
      read beats it. */
  function Deduplicated(ds: seq<Detection>, pid: nat, time: Option<int>, confidence: real,
                        pp: string, fp: string): (r: Option<seq<Detection>>)
    ensures r.Some? ==> |r.value| == |ds|
  {
    if time.None? then Some(ds)
    else
      match RecentBest(ds, pid, time.value)
      case None => Some(ds)
      case Some(k) =>
        if confidence > ds[k].confidence then
          Some(ds[k := ds[k].(confidence := confidence, plateImage := pp, frameImage := fp)])
        else None
  }

  /** The detection table after `add_plate_detection`: unchanged when the
      read loses to its window, otherwise the deduplicated table with the
      new row at the end. */
  function AddedDetections(ds: seq<Detection>, nextId: nat, pid: nat, time: Option<int>, realTimestamp: Option<int>,
                           sourceFile: string, confidence: real, pp: string, fp: string): (r: seq<Detection>)
    ensures |r| == |ds| || |r| == |ds| + 1
    ensures |r| == |ds| + 1 ==> r[|ds|] == Detection(nextId, pid, time, realTimestamp, sourceFile, confidence, pp, fp)
  {
    match Deduplicated(ds, pid, time, confidence, pp, fp)
    case None => ds
    case Some(v) => v + [Detection(nextId, pid, time, realTimestamp, sourceFile, confidence, pp, fp)]
  }

  /** `UPDATE blacklist SET last_seen = ? WHERE plate_text = ? AND (last_seen
      IS NULL OR last_seen < ?)`. */
  function TouchLastSeen(bl: seq<BlacklistEntry>, text: string, when: int): (r: seq<BlacklistEntry>)
    ensures |r| == |bl|
    ensures forall k :: 0 <= k < |r| ==> r[k] == bl[k].(lastSeen := r[k].lastSeen)
    ensures forall k :: 0 <= k < |r| && bl[k].text != text ==> r[k] == bl[k]
    ensures forall k :: 0 <= k < |r| && bl[k].text == text ==>
      r[k].lastSeen.Some? && (bl[k].lastSeen.Some? ==> bl[k].lastSeen.value <= r[k].lastSeen.value)
      && when <= r[k].lastSeen.value
  {
    seq(|bl|, k requires 0 <= k < |bl| =>
      if bl[k].text == text && (bl[k].lastSeen.None? || bl[k].lastSeen.value < when)
      then bl[k].(lastSeen := Some(when)) else bl[k])
  }

  function PlateById(ps: seq<Plate>, pid: nat): (r: Option<Plate>)
    ensures r.Some? ==> r.value in ps && r.value.id == pid
    ensures r.None? ==> forall k :: 0 <= k < |ps| ==> ps[k].id != pid
  {
    if |ps| == 0 then None
    else if ps[0].id == pid then Some(ps[0])
    else PlateById(ps[1..], pid)
  }

  /** The time written to `last_seen`: the file-name timestamp when there is
      one, otherwise the detection time. */
  function SeenAt(realTimestamp: Option<int>, time: Option<int>): Option<int> {
    if realTimestamp.Some? then realTimestamp else time
  }

  /** The blacklist after a detection of plate `pid` was written: only
      `last_seen` changes, and it never moves back. */
  function BlacklistAfterDetection(bl: seq<BlacklistEntry>, ps: seq<Plate>, pid: nat,
                                   realTimestamp: Option<int>, time: Option<int>): (r: seq<BlacklistEntry>)
    ensures |r| == |bl|
    ensures forall k :: 0 <= k < |r| ==> r[k] == bl[k].(lastSeen := r[k].lastSeen)
    ensures forall k :: 0 <= k < |r| && bl[k].lastSeen.Some? ==>
      r[k].lastSeen.Some? && bl[k].lastSeen.value <= r[k].lastSeen.value
  {
    match PlateById(ps, pid)
    case Some(p) =>
      if p.isBlacklisted && SeenAt(realTimestamp, time).Some?
      then TouchLastSeen(bl, p.text, SeenAt(realTimestamp, time).value)
      else bl
    case None => bl
  }

  /** The `last_seen` update touches only the entry whose text is exactly
      that of the detected plate, and only when that plate is blacklisted: a
      plate blacklisted through a similar entry leaves the blacklist as it
      was. */
  lemma OnlyListedTextIsTouched(bl: seq<BlacklistEntry>, ps: seq<Plate>, pid: nat,
                                realTimestamp: Option<int>, time: Option<int>)
    ensures var r := BlacklistAfterDetection(bl, ps, pid, realTimestamp, time);
      forall k :: 0 <= k < |bl| && r[k] != bl[k] ==>
        PlateById(ps, pid).Some? && PlateById(ps, pid).value.isBlacklisted
        && bl[k].text == PlateById(ps, pid).value.text
  {
  }

  /** The blacklist after `add_plate_detection(pid, time, ...)` on the plate
      rows `ps` and detection rows `ds` as they stand: a read that loses to
      its dedup window writes nothing, any other moves `last_seen`. */
  function BlacklistAfterWrite(bl: seq<BlacklistEntry>, ps: seq<Plate>, ds: seq<Detection>, pid: nat,
                               time: Option<int>, realTimestamp: Option<int>, confidence: real,
                               pp: string, fp: string): (r: seq<BlacklistEntry>)
    ensures |r| == |bl|
    ensures forall k :: 0 <= k < |r| ==> r[k] == bl[k].(lastSeen := r[k].lastSeen)
    ensures Deduplicated(ds, pid, time, confidence, pp, fp).None? ==> r == bl
  {
    if Deduplicated(ds, pid, time, confidence, pp, fp).Some?
    then BlacklistAfterDetection(bl, ps, pid, realTimestamp, time)
    else bl
  }

  /** The file-name timestamp of a detection, as microseconds. */
  function RealTimestamp(sourceFile: string): Option<int> {
    match ExtractTimestamp(sourceFile)
    case Some(dt) => Some(ToMicros(dt))
    case None => None
  }

  /** A read that does not beat the best row of its window writes nothing. */
  lemma DedupLossWritesNothing(ds: seq<Detection>, pid: nat, t: int, confidence: real, pp: string, fp: string)
    requires exists k :: 0 <= k < |ds| && InWindow(ds[k], pid, t) && confidence <= ds[k].confidence
    ensures Deduplicated(ds, pid, Some(t), confidence, pp, fp).None?
  {
    var k :| 0 <= k < |ds| && InWindow(ds[k], pid, t) && confidence <= ds[k].confidence;
    var r := RecentBest(ds, pid, t);
    assert r.Some?;
  }

  /** A read that beats every row of its window overwrites the best of them
      in place and is still inserted afterwards; rows outside the window and
      the other rows are kept. */
  lemma DedupWinOverwritesAndKeepsRows(ds: seq<Detection>, pid: nat, t: int, confidence: real,
                                       pp: string, fp: string)
    requires exists k :: 0 <= k < |ds| && InWindow(ds[k], pid, t)
    requires forall k :: 0 <= k < |ds| && InWindow(ds[k], pid, t) ==> ds[k].confidence < confidence
    ensures var r := Deduplicated(ds, pid, Some(t), confidence, pp, fp);
      r.Some? && exists b :: (0 <= b < |ds| && InWindow(ds[b], pid, t)
                              && r.value[b] == ds[b].(confidence := confidence, plateImage := pp, frameImage := fp)
                              && forall k :: 0 <= k < |ds| && k != b ==> r.value[k] == ds[k])
  {
    var r := RecentBest(ds, pid, t);
    assert r.Some?;
  }

  /** Without a parseable time, or with an empty window, nothing is
      overwritten. */
  lemma DedupNoWindowKeepsRows(ds: seq<Detection>, pid: nat, time: Option<int>, confidence: real,
                               pp: string, fp: string)
    requires time.None? || forall k :: 0 <= k < |ds| ==> !InWindow(ds[k], pid, time.value)
    ensures Deduplicated(ds, pid, time, confidence, pp, fp) == Some(ds)
  {
  }

  // ---------------------------------------------------------------------
  // update_plate_appearance

  /** One more appearance: `last_appearance` overwritten (no monotonicity
      check), the count up by one, and the confidence raised to the new one
      when that is higher. */
  function Appeared(p: Plate, lastAppearance: int, confidence: real): (q: Plate)
    ensures q.totalAppearances == p.totalAppearances + 1
    ensures q.lastAppearance == lastAppearance
    ensures q.confidence >= p.confidence && q.confidence >= confidence
    ensures q.confidence == p.confidence || q.confidence == confidence
    ensures q.id == p.id && q.text == p.text && q.isBlacklisted == p.isBlacklisted
    ensures q.firstAppearance == p.firstAppearance
  {
    var r := p.(lastAppearance := lastAppearance, totalAppearances := p.totalAppearances + 1);
    if r.confidence < confidence then r.(confidence := confidence) else r
  }

  /** The plate rows after `update_plate_appearance(pid, ...)`. */
  function AppearanceRows(ps: seq<Plate>, pid: nat, lastAppearance: int, confidence: real): (r: seq<Plate>)
    ensures |r| == |ps|
    ensures forall k :: 0 <= k < |ps| ==> r[k] == if ps[k].id == pid then Appeared(ps[k], lastAppearance, confidence) else ps[k]
  {
    seq(|ps|, k requires 0 <= k < |ps| =>
      if ps[k].id == pid then Appeared(ps[k], lastAppearance, confidence) else ps[k])
  }

  /** Appearances never lower a plate's confidence nor its count. */
  lemma AppearanceMonotone(ps: seq<Plate>, pid: nat, lastAppearance: int, confidence: real)
    ensures var r := AppearanceRows(ps, pid, lastAppearance, confidence);
      forall k :: 0 <= k < |ps| ==>
        r[k].id == ps[k].id && r[k].confidence >= ps[k].confidence
        && r[k].totalAppearances >= ps[k].totalAppearances
        && (ps[k].id == pid <==> r[k].totalAppearances == ps[k].totalAppearances + 1)
  {
  }

  // ---------------------------------------------------------------------
  // The ingestion worker's blacklist mark

  /** `UPDATE plates SET is_blacklisted=1 WHERE id=?`: the plate with that
      id becomes blacklisted; its reason and danger level, and every other
      row, stay as they were. */
  function MarkedRows(ps: seq<Plate>, pid: nat): (r: seq<Plate>)
    ensures |r| == |ps|
    ensures forall k :: 0 <= k < |ps| ==>
      (r[k].isBlacklisted <==> ps[k].isBlacklisted || ps[k].id == pid)
      && r[k] == ps[k].(isBlacklisted := r[k].isBlacklisted)
  {
    seq(|ps|, k requires 0 <= k < |ps| => if ps[k].id == pid then ps[k].(isBlacklisted := true) else ps[k])
  }

  /** Marking a plate twice is marking it once. */
  lemma MarkedRowsIdempotent(ps: seq<Plate>, pid: nat)
    ensures MarkedRows(MarkedRows(ps, pid), pid) == MarkedRows(ps, pid)
  {
    var once := MarkedRows(ps, pid);
    var twice := MarkedRows(once, pid);
    forall k | 0 <= k < |ps| ensures twice[k] == once[k] {
      assert once[k].id == ps[k].id;
    }
  }

  // ---------------------------------------------------------------------
  // update_blacklist_status_for_plate

  /** A plate row's blacklist columns after the recompute for `text`: rows
      similar to `text` take the status of its entry (or lose theirs when it
      has none); the others are untouched. */
  function RecomputedRow(p: Plate, text: string, entry: Option<BlacklistEntry>, sim: PlateMatch): (q: Plate)
    ensures q.id == p.id && q.text == p.text && q.confidence == p.confidence
    ensures !sim(p.text, text) ==> q == p
    ensures sim(p.text, text) ==>
      (q.isBlacklisted <==> entry.Some?)
      && q.reason == (if entry.Some? then Some(entry.value.reason) else None)
      && q.dangerLevel == (if entry.Some? then Some(entry.value.dangerLevel) else None)
  {
    if sim(p.text, text) then
      match entry
      case Some(e) => p.(isBlacklisted := true, reason := Some(e.reason), dangerLevel := Some(e.dangerLevel))
      case None => p.(isBlacklisted := false, reason := None, dangerLevel := None)
    else p
  }

  function RecomputedRows(ps: seq<Plate>, text: string, entry: Option<BlacklistEntry>, sim: PlateMatch): (r: seq<Plate>)
    ensures |r| == |ps|
    ensures forall k :: 0 <= k < |ps| ==> r[k] == RecomputedRow(ps[k], text, entry, sim)
  {
    seq(|ps|, k requires 0 <= k < |ps| => RecomputedRow(ps[k], text, entry, sim))
  }

  /** After a removal the text is no longer listed, and every plate similar
      to it is unmarked, even one that is also similar to an entry still
      listed: the recompute looks at the removed text only. */
  lemma RemovalIgnoresRemainingEntries(ps: seq<Plate>, removed: string, bl: seq<BlacklistEntry>,
                                       sim: PlateMatch, k: nat, m: nat)
    requires BlacklistSorted(bl)
    requires k < |ps| && sim(ps[k].text, removed)
    requires m < |RemoveText(bl, removed)|
    requires sim(ps[k].text, RemoveText(bl, removed)[m].text)
    ensures FindEntry(RemoveText(bl, removed), removed).None?
    ensures !RecomputedRows(ps, removed, FindEntry(RemoveText(bl, removed), removed), sim)[k].isBlacklisted
    ensures RemoveText(bl, removed)[m] in bl && RemoveText(bl, removed)[m].text != removed
  {
    var rest := RemoveText(bl, removed);
    assert rest[m] in rest;
  }

  /** After an addition, every plate similar to the listed text carries the
      entry's reason and level. */
  lemma AdditionMarksSimilarPlates(ps: seq<Plate>, e: BlacklistEntry, sim: PlateMatch)
    ensures var r := RecomputedRows(ps, e.text, Some(e), sim);
      forall k :: 0 <= k < |ps| ==>
        (sim(ps[k].text, e.text) ==>
           r[k].isBlacklisted && r[k].reason == Some(e.reason) && r[k].dangerLevel == Some(e.dangerLevel))
        && (!sim(ps[k].text, e.text) ==> r[k] == ps[k])
  {
  }

  // ---------------------------------------------------------------------
  // analyze_similar_plates

  /** `ORDER BY p.last_appearance DESC` as an ascending integer key. */
  function RecencyKey(p: Plate): int {
    -p.lastAppearance
  }

  /** The texts the pass compares: each plate's text stripped once. */
  function StrippedTexts(ps: seq<Plate>): (r: seq<string>)
    ensures |r| == |ps|
    ensures forall k :: 0 <= k < |ps| ==> r[k] == Strip(ps[k].text)
  {
    seq(|ps|, k requires 0 <= k < |ps| => Strip(ps[k].text))
  }

  /** The pairs the pass records: different (stripped) texts that the
      predicate accepts. */
  predicate Candidate(a: string, b: string, sim: PlateMatch) {
    a != b && sim(a, b)
  }

  /** The note: the more confident plate is named, with its text, when the
      confidences differ by more than 15 points. */
  function PairNoteOf(a: string, b: string, c1: real, c2: real): (n: PairNote)
    ensures n.FirstHigher? <==> c1 - c2 > 15.0
    ensures n.SecondHigher? <==> c2 - c1 > 15.0
    ensures n.FirstHigher? ==> n == FirstHigher(a, c1)
    ensures n.SecondHigher? ==> n == SecondHigher(b, c2)
  {
    if Abs(c1 - c2) > 15.0 then
      if c1 > c2 then FirstHigher(a, c1) else SecondHigher(b, c2)
    else SimilarConfidence
  }

  /** The row recorded for plates p and q with stripped texts a and b. */
  function MakePair(p: Plate, q: Plate, a: string, b: string, ratio: RatioFn): (r: SimilarPair)
    ensures r.id1 == p.id && r.id2 == q.id
    ensures r.distance == EditDistance(a, b) && r.score == ratio(a, b)
    ensures r.timeDiff >= 0.0 && r.timeDiff * 1000000.0 == AbsInt(q.firstAppearance - p.firstAppearance) as real
  {
    SimilarPair(p.id, q.id, ratio(a, b), EditDistance(a, b),
                AbsInt(q.firstAppearance - p.firstAppearance) as real / 1000000.0,
                PairNoteOf(a, b, p.confidence, q.confidence))
  }

  predicate DistinctIds(ps: seq<Plate>) {
    forall a, b :: 0 <= a < b < |ps| ==> ps[a].id != ps[b].id
  }

  lemma CountAtLeastTwo(r: seq<Plate>, a: nat, b: nat)
    requires a < b < |r| && r[a] == r[b]
    ensures multiset(r)[r[a]] >= 2
  {
    assert r == r[..b] + r[b..];
    assert r[..b][a] == r[a];
    assert r[b..][0] == r[a];
    assert multiset(r)[r[a]] == multiset(r[..b])[r[a]] + multiset(r[b..])[r[a]];
  }

  lemma CountOne(ps: seq<Plate>, x: nat)
    requires DistinctIds(ps) && x < |ps|
    ensures multiset(ps)[ps[x]] == 1
  {
    assert ps == ps[..x] + [ps[x]] + ps[x + 1..];
    assert ps[x] !in ps[..x];
    assert ps[x] !in ps[x + 1..];
    assert multiset(ps)[ps[x]] == multiset(ps[..x])[ps[x]] + multiset([ps[x]])[ps[x]] + multiset(ps[x + 1..])[ps[x]];
  }

  /** Reordering the plates keeps their ids distinct. */
  lemma ReorderKeepsDistinctIds(ps: seq<Plate>, r: seq<Plate>)
    requires DistinctIds(ps) && multiset(r) == multiset(ps)
    ensures DistinctIds(r)
  {
    forall a, b | 0 <= a < b < |r| ensures r[a].id != r[b].id {
      if r[a].id == r[b].id {
        assert r[a] in multiset(ps) && r[b] in multiset(ps);
        var x :| 0 <= x < |ps| && ps[x] == r[a];
        var y :| 0 <= y < |ps| && ps[y] == r[b];
        if x != y {
          assert false;
        }
        CountAtLeastTwo(r, a, b);
        CountOne(ps, x);
        assert false;
      }
    }
  }

  /** With distinct ids a later plate's id is not among the earlier ones. */
  lemma {:induction false} LaterIdNotBefore(ps: seq<Plate>, i: nat, j: nat)
    requires DistinctIds(ps) && i < j < |ps|
    ensures ps[j].id !in IdsBefore(ps, i + 1)
  {
    if i > 0 {
      LaterIdNotBefore(ps, i - 1, j);
    }
  }

  /** No plate after position i has an id among the first i + 1. */
  predicate LaterUnseen(ps: seq<Plate>, i: nat)
    requires i < |ps|
  {
    forall j :: i < j < |ps| ==> ps[j].id !in IdsBefore(ps, i + 1)
  }

  /** With distinct ids that holds at every position. */
  lemma LaterIdsUnseen(ps: seq<Plate>)
    requires DistinctIds(ps)
    ensures forall i :: 0 <= i < |ps| ==> LaterUnseen(ps, i)
  {
    forall i | 0 <= i < |ps| ensures LaterUnseen(ps, i) {
      forall j | i < j < |ps| ensures ps[j].id !in IdsBefore(ps, i + 1) {
        LaterIdNotBefore(ps, i, j);
      }
    }
  }

  /** The rows the inner loop of `analyze_similar_plates` appends for plate
      i while it visits the plates before position j. */
  function RowRows(ps: seq<Plate>, texts: seq<string>, i: nat, j: nat, sim: PlateMatch, ratio: RatioFn): seq<SimilarPair>
    requires |texts| == |ps| && i < |ps| && j <= |ps|
    decreases j
  {
    if j <= i + 1 then []
    else
      RowRows(ps, texts, i, j - 1, sim, ratio)
      + (if Candidate(texts[i], texts[j - 1], sim) then [MakePair(ps[i], ps[j - 1], texts[i], texts[j - 1], ratio)] else [])
  }

  /** The rows the outer loop has appended after its first n passes. */
  function RowsUpTo(ps: seq<Plate>, texts: seq<string>, n: nat, sim: PlateMatch, ratio: RatioFn): seq<SimilarPair>
    requires |texts| == |ps| && n <= |ps|
  {
    if n == 0 then [] else RowsUpTo(ps, texts, n - 1, sim, ratio) + RowRows(ps, texts, n - 1, |ps|, sim, ratio)
  }

  /** The ids of the first `n` plates. */
  function IdsBefore(ps: seq<Plate>, n: nat): set<nat>
    requires n <= |ps|
  {
    if n == 0 then {} else IdsBefore(ps, n - 1) + {ps[n - 1].id}
  }

  /** Each candidate pair of plate i with a later plate before position j
      has its row, and every row is such a pair's. */
  lemma {:induction false} RowRowsExactly(ps: seq<Plate>, texts: seq<string>, i: nat, j: nat, sim: PlateMatch, ratio: RatioFn)
    requires |texts| == |ps| && i < |ps| && j <= |ps|
    ensures forall b :: i < b < j && Candidate(texts[i], texts[b], sim) ==>
      MakePair(ps[i], ps[b], texts[i], texts[b], ratio) in RowRows(ps, texts, i, j, sim, ratio)
    ensures forall x :: x in RowRows(ps, texts, i, j, sim, ratio) ==>
      exists b :: i < b < j && Candidate(texts[i], texts[b], sim) && x == MakePair(ps[i], ps[b], texts[i], texts[b], ratio)
    decreases j
  {
    if j > i + 1 {
      RowRowsExactly(ps, texts, i, j - 1, sim, ratio);
    }
  }

  /** The recorded rows are exactly the candidate pairs: every pair of an
      earlier plate among the first n with a later plate whose stripped
      texts differ and are accepted has its row, and every row is such a
      pair's. */
  lemma RowsUpToExactly(ps: seq<Plate>, texts: seq<string>, n: nat, sim: PlateMatch, ratio: RatioFn)
    requires |texts| == |ps| && n <= |ps|
    ensures forall a, b :: 0 <= a < n && a < b < |ps| && Candidate(texts[a], texts[b], sim) ==>
      MakePair(ps[a], ps[b], texts[a], texts[b], ratio) in RowsUpTo(ps, texts, n, sim, ratio)
    ensures forall x :: x in RowsUpTo(ps, texts, n, sim, ratio) ==>
      exists a, b :: 0 <= a < n && a < b < |ps| && Candidate(texts[a], texts[b], sim)
                     && x == MakePair(ps[a], ps[b], texts[a], texts[b], ratio)
  {
    RowsUpToComplete(ps, texts, n, sim, ratio);
    RowsUpToSound(ps, texts, n, sim, ratio);
  }

  /** Every candidate pair among the first n plates has its row. */
  lemma {:induction false} RowsUpToComplete(ps: seq<Plate>, texts: seq<string>, n: nat, sim: PlateMatch, ratio: RatioFn)
    requires |texts| == |ps| && n <= |ps|
    ensures forall a, b :: 0 <= a < n && a < b < |ps| && Candidate(texts[a], texts[b], sim) ==>
      MakePair(ps[a], ps[b], texts[a], texts[b], ratio) in RowsUpTo(ps, texts, n, sim, ratio)
  {
    if n > 0 {
      var prev := RowsUpTo(ps, texts, n - 1, sim, ratio);
      var row := RowRows(ps, texts, n - 1, |ps|, sim, ratio);
      assert RowsUpTo(ps, texts, n, sim, ratio) == prev + row;
      RowsUpToComplete(ps, texts, n - 1, sim, ratio);
      RowRowsExactly(ps, texts, n - 1, |ps|, sim, ratio);
      forall a, b | 0 <= a < n && a < b < |ps| && Candidate(texts[a], texts[b], sim)
        ensures MakePair(ps[a], ps[b], texts[a], texts[b], ratio) in prev + row
      {
        if a < n - 1 {
          assert MakePair(ps[a], ps[b], texts[a], texts[b], ratio) in prev;
        } else {
          assert MakePair(ps[a], ps[b], texts[a], texts[b], ratio) in row;
        }
      }
    }
  }

  /** Every row among the first n plates' is a candidate pair's. */
  lemma {:induction false} RowsUpToSound(ps: seq<Plate>, texts: seq<string>, n: nat, sim: PlateMatch, ratio: RatioFn)
    requires |texts| == |ps| && n <= |ps|
    ensures forall x :: x in RowsUpTo(ps, texts, n, sim, ratio) ==>
      exists a, b :: 0 <= a < n && a < b < |ps| && Candidate(texts[a], texts[b], sim)
                     && x == MakePair(ps[a], ps[b], texts[a], texts[b], ratio)
  {
    if n > 0 {
      var prev := RowsUpTo(ps, texts, n - 1, sim, ratio);
      var row := RowRows(ps, texts, n - 1, |ps|, sim, ratio);
      assert RowsUpTo(ps, texts, n, sim, ratio) == prev + row;
      RowsUpToSound(ps, texts, n - 1, sim, ratio);
      RowRowsExactly(ps, texts, n - 1, |ps|, sim, ratio);
      forall x | x in prev + row
        ensures exists a, b :: 0 <= a < n && a < b < |ps| && Candidate(texts[a], texts[b], sim)
                               && x == MakePair(ps[a], ps[b], texts[a], texts[b], ratio)
      {
        if x in prev {
          var a, b :| 0 <= a < n - 1 && a < b < |ps| && Candidate(texts[a], texts[b], sim)
                      && x == MakePair(ps[a], ps[b], texts[a], texts[b], ratio);
        } else {
          assert x in row;
          var b :| n - 1 < b < |ps| && Candidate(texts[n - 1], texts[b], sim)
                   && x == MakePair(ps[n - 1], ps[b], texts[n - 1], texts[b], ratio);
        }
      }
    }
  }

  /** With distinct plate ids no recorded row joins a plate to itself. */
  lemma RowsUpToDistinct(ps: seq<Plate>, texts: seq<string>, sim: PlateMatch, ratio: RatioFn)
    requires |texts| == |ps| && DistinctIds(ps)
    ensures forall x :: x in RowsUpTo(ps, texts, |ps|, sim, ratio) ==> x.id1 != x.id2
  {
    RowsUpToExactly(ps, texts, |ps|, sim, ratio);
  }

  /** The rows `analyze_similar_plates` records: the candidate pairs of
      the plates taken from the most recently seen, over their stripped
      texts, in the order its two loops meet them. */
  function AnalyzedPairs(ps: seq<Plate>, sim: PlateMatch, ratio: RatioFn): seq<SimilarPair> {
    var ordered := SortBy(ps, RecencyKey);
    var texts := StrippedTexts(ordered);
    RowsUpTo(ordered, texts, |ordered|, sim, ratio)
  }

  /** With distinct plate ids the analysis never pairs a plate with itself. */
  lemma AnalyzedPairsDistinct(ps: seq<Plate>, sim: PlateMatch, ratio: RatioFn)
    requires DistinctIds(ps)
    ensures forall x :: x in AnalyzedPairs(ps, sim, ratio) ==> x.id1 != x.id2
  {
    var ordered := SortBy(ps, RecencyKey);
    ReorderKeepsDistinctIds(ps, ordered);
    RowsUpToDistinct(ordered, StrippedTexts(ordered), sim, ratio);
  }

  // ---------------------------------------------------------------------
  // get_plate_detections

  /** The window partition of the history query: real timestamp, source
      file and plate (NULL timestamps share a partition). */
  predicate SameGroup(a: Detection, b: Detection) {
    a.realTimestamp == b.realTimestamp && a.sourceFile == b.sourceFile && a.plateId == b.plateId
  }

  /** `row_num = 1`: the most confident row of its group, the earliest one
      on ties. */
  predicate GroupBest(rows: seq<Detection>, i: nat)
    requires i < |rows|
  {
    forall j :: 0 <= j < |rows| && SameGroup(rows[i], rows[j]) ==>
      rows[j].confidence < rows[i].confidence || (rows[j].confidence == rows[i].confidence && i <= j)
  }

  /** The rows of the first `n` that are best in their group, in order. */
  function KeepBest(rows: seq<Detection>, n: nat): (r: seq<Detection>)
    requires n <= |rows|
    ensures forall x :: x in r <==> exists i :: 0 <= i < n && GroupBest(rows, i) && rows[i] == x
  {
    if n == 0 then []
    else
      var r := KeepBest(rows, n - 1);
      if GroupBest(rows, n - 1) then r + [rows[n - 1]] else r
  }

  /** The index of the best row of the group of `rows[g]` among `rows[g]`
      and the first `n` rows. */
  function BestOfGroup(rows: seq<Detection>, g: nat, n: nat): (b: nat)
    requires g < |rows| && n <= |rows|
    ensures b < |rows| && SameGroup(rows[g], rows[b]) && rows[b].confidence >= rows[g].confidence
    ensures forall j :: 0 <= j < n && SameGroup(rows[g], rows[j]) ==>
      rows[j].confidence < rows[b].confidence || (rows[j].confidence == rows[b].confidence && b <= j)
  {
    if n == 0 then g
    else
      var b := BestOfGroup(rows, g, n - 1);
      var j := n - 1;
      if SameGroup(rows[g], rows[j])
         && (rows[j].confidence > rows[b].confidence || (rows[j].confidence == rows[b].confidence && j < b))
      then j else b
  }

  /** Every group of the history keeps exactly one row, the most confident
      of the group. */
  lemma KeepBestOnePerGroup(rows: seq<Detection>, i: nat)
    requires i < |rows|
    ensures exists b :: (0 <= b < |rows| && SameGroup(rows[i], rows[b]) && GroupBest(rows, b)
                         && rows[b].confidence >= rows[i].confidence && rows[b] in KeepBest(rows, |rows|))
    ensures forall b1, b2 :: (0 <= b1 < |rows| && 0 <= b2 < |rows| && SameGroup(rows[i], rows[b1])
                              && SameGroup(rows[i], rows[b2]) && GroupBest(rows, b1) && GroupBest(rows, b2)) ==> b1 == b2
  {
    var b := BestOfGroup(rows, i, |rows|);
    assert GroupBest(rows, b);
  }

  /** `get_plate_detections(plate_id)` without its ordering: nothing for an
      unknown id, otherwise the best row of each group among the detections
      of this plate and of every other plate similar to it. */
  function PlateHistory(ps: seq<Plate>, ds: seq<Detection>, pid: nat, sim: PlateMatch): (r: seq<Detection>)
    ensures PlateById(ps, pid).None? ==> r == []
    ensures forall x :: x in r ==>
      (PlateById(ps, pid).Some? && x in ds
       && (x.plateId == pid || SimilarPlateId(ps, PlateById(ps, pid).value.text, x.plateId, sim)))
  {
    match PlateById(ps, pid)
    case None => []
    case Some(p) =>
      var rows := HistoryRows(ps, ds, p, sim, |ds|);
      var r := KeepBest(rows, |rows|);
      assert forall x :: x in r ==> x in rows by {
        forall x | x in r ensures x in rows {
          var i :| 0 <= i < |rows| && GroupBest(rows, i) && rows[i] == x;
        }
      }
      r
  }

  /** `id` belongs to a plate whose text is similar to `text`. */
  predicate SimilarPlateId(ps: seq<Plate>, text: string, id: nat, sim: PlateMatch) {
    exists k :: 0 <= k < |ps| && ps[k].id == id && sim(text, ps[k].text)
  }

  /** A detection the history of plate p reads: its own, or one of a plate
      similar to it. */
  predicate InHistory(ps: seq<Plate>, p: Plate, d: Detection, sim: PlateMatch) {
    d.plateId == p.id || SimilarPlateId(ps, p.text, d.plateId, sim)
  }

  /** The detections, among the first `n`, that the history of p reads, in
      table order. */
  function HistoryRows(ps: seq<Plate>, ds: seq<Detection>, p: Plate, sim: PlateMatch, n: nat): (rows: seq<Detection>)
    requires n <= |ds|
    ensures |rows| <= n
    ensures forall x :: x in rows <==> exists k :: 0 <= k < n && ds[k] == x && InHistory(ps, p, x, sim)
  {
    if n == 0 then []
    else
      var rest := HistoryRows(ps, ds, p, sim, n - 1);
      if InHistory(ps, p, ds[n - 1], sim) then rest + [ds[n - 1]] else rest
  }

  // ---------------------------------------------------------------------
  // Thresholds from settings

  /** The thresholds `_is_similar_plate` reads when none are passed
      (`levenshtein_threshold`, default 2.0; `similarity_ratio`, default
      0.8), or `None` when either value is not a number and the comparison
      with it would raise. */
  function SettingThresholds(settings: map<string, StoredSetting>): (r: Option<Thresholds>)
    ensures r.Some? ==>
      NumericValue(ReadSetting(settings, "levenshtein_threshold", SFloat(2.0))) == Some(r.value.distance)
      && NumericValue(ReadSetting(settings, "similarity_ratio", SFloat(0.8))) == Some(r.value.ratio)
    ensures r.None? <==>
      NumericValue(ReadSetting(settings, "levenshtein_threshold", SFloat(2.0))).None?
      || NumericValue(ReadSetting(settings, "similarity_ratio", SFloat(0.8))).None?
  {
    var d := NumericValue(ReadSetting(settings, "levenshtein_threshold", SFloat(2.0)));
    var q := NumericValue(ReadSetting(settings, "similarity_ratio", SFloat(0.8)));
    if d.Some? && q.Some? then Some(Thresholds(d.value, q.value)) else None
  }

  /** The seeded settings give the default thresholds. */
  lemma SeededThresholds()
    ensures SettingThresholds(DefaultSettings()) == Some(DefaultThresholds)
  {
    DefaultThresholdSettings();
  }
}
