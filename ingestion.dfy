/** The recognition side of video_processor.py's `VideoProcessor`: every
    plate the engine reads is checked against the worker's snapshot of the
    blacklist and resolved against the worker's cache of known plates, both
    by a fixed edit distance of at most two, and then written to the store.
    The engine's plate object is reduced to its text, confidence, country
    code and engine timestamp; the clock reading `now`, the stop event and
    the saved image paths are parameters. */
module Ingestion {
  import opened Wrappers
  import opened Text
  import opened Sorting
  import opened Similarity
  import opened Settings
  import opened StoreTables
  import opened IdentityStore

  /** The worker's match test, `Levenshtein.distance(a, b) <= 2`, on the
      texts as read (no stripping, no length tiers). */
  predicate Near(a: string, b: string) {
    EditDistance(a, b) <= 2
  }

  // ---------------------------------------------------------------------
  // The known-plates cache: a Python dict keyed by plate text

  /** The part of a cached plate row the callback reads and writes. */
  datatype CacheEntry = CacheEntry(text: string, id: nat, confidence: real, lastAppearance: int)

  function EntryOf(p: Plate): CacheEntry {
    CacheEntry(p.text, p.id, p.confidence, p.lastAppearance)
  }

  /** Dict keys are unique. */
  predicate UniqueKeys(known: seq<CacheEntry>) {
    forall i, j :: 0 <= i < j < |known| ==> known[i].text != known[j].text
  }

  /** The position of `text` among the keys. */
  function KeyIndex(known: seq<CacheEntry>, text: string): (r: Option<nat>)
    ensures r.Some? ==> r.value < |known| && known[r.value].text == text
    ensures r.Some? ==> forall j :: 0 <= j < r.value ==> known[j].text != text
    ensures r.None? <==> forall k :: 0 <= k < |known| ==> known[k].text != text
  {
    if |known| == 0 then None
    else
      var n := |known| - 1;
      match KeyIndex(known[..n], text)
      case Some(k) => Some(k)
      case None => if known[n].text == text then Some(n) else None
  }

  /** `known.get(text)`. */
  function Lookup(known: seq<CacheEntry>, text: string): Option<CacheEntry> {
    match KeyIndex(known, text)
    case Some(k) => Some(known[k])
    case None => None
  }

  /** `known[e.text] = e`: an existing key keeps its place and takes the new
      value, a new key goes at the end. */
  function CachePut(known: seq<CacheEntry>, e: CacheEntry): (r: seq<CacheEntry>)
    ensures |r| == |known| + (if KeyIndex(known, e.text).None? then 1 else 0)
    ensures forall k :: 0 <= k < |known| ==> r[k].text == known[k].text
    ensures r[|r| - 1].text == e.text || KeyIndex(known, e.text).Some?
    ensures UniqueKeys(known) ==> UniqueKeys(r)
  {
    match KeyIndex(known, e.text)
    case Some(k) => known[k := e]
    case None => known + [e]
  }

  /** The dictionary law: after `known[e.text] = e`, looking up `e.text`
      gives `e` and every other key gives what it gave before. */
  lemma CachePutLookup(known: seq<CacheEntry>, e: CacheEntry, t: string)
    ensures Lookup(CachePut(known, e), t) == if t == e.text then Some(e) else Lookup(known, t)
  {
    var r := CachePut(known, e);
    var a := KeyIndex(r, t);
    if t == e.text {
      match KeyIndex(known, e.text)
      case Some(k) =>
        assert r[k] == e;
      case None =>
        assert r[|known|] == e;
    } else if a.Some? {
      assert known[a.value] == r[a.value];
    }
  }

  /** `{p['plate_text']: dict(p) for p in rows}`: the first occurrence of a
      text fixes its place, the last one its value. */
  function CacheOf(rows: seq<Plate>): (r: seq<CacheEntry>)
    ensures UniqueKeys(r)
  {
    if |rows| == 0 then [] else CachePut(CacheOf(rows[..|rows| - 1]), EntryOf(rows[|rows| - 1]))
  }

  /** Exactly the rows' texts are cached. */
  lemma {:induction false} CacheOfKeys(rows: seq<Plate>, t: string)
    ensures Lookup(CacheOf(rows), t).None? <==> forall k :: 0 <= k < |rows| ==> rows[k].text != t
  {
    if |rows| > 0 {
      var n := |rows| - 1;
      var prev := rows[..n];
      CacheOfKeys(prev, t);
      CachePutLookup(CacheOf(prev), EntryOf(rows[n]), t);
      if rows[n].text != t {
        NoTextInPrefix(rows, prev, t);
      }
    }
  }

  /** With a last row of another text, no row has text `t` exactly when no
      row before the last has it. */
  lemma NoTextInPrefix(rows: seq<Plate>, prev: seq<Plate>, t: string)
    requires |rows| > 0 && prev == rows[..|rows| - 1] && rows[|rows| - 1].text != t
    ensures (forall k :: 0 <= k < |prev| ==> prev[k].text != t)
            <==> (forall k :: 0 <= k < |rows| ==> rows[k].text != t)
  {
    assert forall k :: 0 <= k < |prev| ==> prev[k] == rows[k];
  }

  /** A cached text holds the last row with that text. */
  lemma {:induction false} CacheOfLast(rows: seq<Plate>, t: string, k: nat)
    requires k < |rows| && rows[k].text == t
    requires forall j :: k < j < |rows| ==> rows[j].text != t
    ensures Lookup(CacheOf(rows), t) == Some(EntryOf(rows[k]))
  {
    var n := |rows| - 1;
    var prev := rows[..n];
    assert CacheOf(rows) == CachePut(CacheOf(prev), EntryOf(rows[n]));
    CachePutLookup(CacheOf(prev), EntryOf(rows[n]), t);
    if k < n {
      assert rows[n].text != t;
      forall j | k < j < |prev| ensures prev[j].text != t {
        assert prev[j] == rows[j];
      }
      assert prev[k] == rows[k];
      CacheOfLast(prev, t, k);
    }
  }

  // ---------------------------------------------------------------------
  // Matching

  /** The first blacklist entry, in the snapshot's order, within distance
      two of `pt`. */
  function FirstNear(bl: seq<BlacklistEntry>, pt: string): (r: Option<nat>)
    ensures r.Some? ==> r.value < |bl|
  {
    if |bl| == 0 then None
    else
      var n := |bl| - 1;
      match FirstNear(bl[..n], pt)
      case Some(k) => Some(k)
      case None => if Near(pt, bl[n].text) then Some(n) else None
  }

  /** The entry found is near `pt` and no entry before it is; none is found
      exactly when no entry is near. */
  lemma {:induction false} FirstNearIsFirst(bl: seq<BlacklistEntry>, pt: string)
    ensures var r := FirstNear(bl, pt);
      && (r.Some? ==> Near(pt, bl[r.value].text) && forall j :: 0 <= j < r.value ==> !Near(pt, bl[j].text))
      && (r.None? <==> forall k :: 0 <= k < |bl| ==> !Near(pt, bl[k].text))
  {
    if |bl| > 0 {
      var n := |bl| - 1;
      var prev := bl[..n];
      FirstNearIsFirst(prev, pt);
      assert forall k :: 0 <= k < n ==> prev[k] == bl[k];
    }
  }

  /** `max(similar_plates, key=confidence)` over the first `n` cached plates
      within distance two of `pt`: the highest confidence, the earliest one
      on a tie, `None` when no cached plate is near. */
  function BestAmong(known: seq<CacheEntry>, pt: string, n: nat): (r: Option<nat>)
    requires n <= |known|
    ensures r.Some? ==> r.value < n && Near(pt, known[r.value].text)
    ensures r.None? <==> forall k :: 0 <= k < n ==> !Near(pt, known[k].text)
  {
    if n == 0 then None
    else
      var b := BestAmong(known, pt, n - 1);
      if Near(pt, known[n - 1].text) && (b.None? || known[n - 1].confidence > known[b.value].confidence) then Some(n - 1)
      else b
  }

  /** The chosen candidate has the highest confidence among the near ones,
      and every near one before it has a strictly lower confidence (`max`
      keeps the first of equal maxima). */
  lemma {:induction false} BestAmongIsMax(known: seq<CacheEntry>, pt: string, n: nat)
    requires n <= |known| && BestAmong(known, pt, n).Some?
    ensures var b := BestAmong(known, pt, n).value;
      (forall k :: 0 <= k < n && Near(pt, known[k].text) ==> known[k].confidence <= known[b].confidence)
      && (forall k :: 0 <= k < b && Near(pt, known[k].text) ==> known[k].confidence < known[b].confidence)
  {
    var prev := BestAmong(known, pt, n - 1);
    if prev.Some? {
      BestAmongIsMax(known, pt, n - 1);
    }
  }

  function BestMatch(known: seq<CacheEntry>, pt: string): Option<nat> {
    BestAmong(known, pt, |known|)
  }

  /** The plate id a read resolves to: the best cached match's, or the id
      the store gives the new plate. */
  function ResolvedId(known: seq<CacheEntry>, pt: string, newId: nat): nat {
    match BestMatch(known, pt)
    case Some(k) => known[k].id
    case None => newId
  }

  /** The cache after a read: the matched entry takes the new confidence and
      time only when the read is strictly more confident; an unmatched read
      is cached under its own text. */
  function CacheAfter(known: seq<CacheEntry>, pt: string, confidence: real, now: int, newId: nat): seq<CacheEntry> {
    match BestMatch(known, pt)
    case Some(k) =>
      if confidence > known[k].confidence then CachePut(known, known[k].(confidence := confidence, lastAppearance := now))
      else known
    case None => CachePut(known, CacheEntry(pt, newId, confidence, now))
  }

  /** The store's plate rows after a read is resolved: the matched row is
      updated only when the read is strictly more confident, an unmatched
      read becomes a new row. */
  function ResolvedPlates(ps: seq<Plate>, bl: seq<BlacklistEntry>, known: seq<CacheEntry>,
                          d: NewPlateData, newId: nat, sim: PlateMatch): seq<Plate> {
    match BestMatch(known, d.text)
    case Some(k) =>
      if d.confidence > known[k].confidence then AppearanceRows(ps, known[k].id, d.lastAppearance, d.confidence)
      else ps
    case None => ps + [NewPlate(newId, d, bl, sim)]
  }

  /** ... and a blacklist hit then marks the resolved row. */
  function PlatesAfter(ps: seq<Plate>, bl: seq<BlacklistEntry>, hit: bool,
                       known: seq<CacheEntry>, d: NewPlateData, newId: nat, sim: PlateMatch): seq<Plate> {
    var base := ResolvedPlates(ps, bl, known, d, newId, sim);
    if hit then MarkedRows(base, ResolvedId(known, d.text, newId)) else base
  }

  /** The plate rows when the read's detection is written: a matched read
      records it before any appearance update, an unmatched one after its
      row was inserted. */
  function PlatesAtDetection(ps: seq<Plate>, bl: seq<BlacklistEntry>, known: seq<CacheEntry>,
                             d: NewPlateData, newId: nat, sim: PlateMatch): seq<Plate> {
    match BestMatch(known, d.text)
    case Some(_) => ps
    case None => ps + [NewPlate(newId, d, bl, sim)]
  }

  /** Whether the read's detection survives the store's dedup window, so
      that a row is inserted and `last_seen` may move. */
  predicate DetectionKept(ds: seq<Detection>, known: seq<CacheEntry>, d: NewPlateData, newId: nat,
                          pp: string, fp: string) {
    Deduplicated(ds, ResolvedId(known, d.text, newId), Some(d.lastAppearance), d.confidence, pp, fp).Some?
  }

  /** The store's blacklist after a read: `add_plate_detection` on the
      resolved plate, against the rows as they stand when it runs. */
  function BlacklistAfterRead(ps: seq<Plate>, bl: seq<BlacklistEntry>, ds: seq<Detection>, known: seq<CacheEntry>,
                              d: NewPlateData, newId: nat, fileTime: Option<int>, pp: string, fp: string,
                              sim: PlateMatch): (r: seq<BlacklistEntry>)
    ensures |r| == |bl|
    ensures forall k :: 0 <= k < |r| ==> r[k] == bl[k].(lastSeen := r[k].lastSeen)
    ensures !DetectionKept(ds, known, d, newId, pp, fp) ==> r == bl
  {
    BlacklistAfterWrite(bl, PlatesAtDetection(ps, bl, known, d, newId, sim), ds, ResolvedId(known, d.text, newId),
                        Some(d.lastAppearance), fileTime, d.confidence, pp, fp)
  }

  /** `get_plate_by_id` finds a row appended under a fresh id. */
  lemma {:induction false} PlateByIdAppended(ps: seq<Plate>, p: Plate)
    requires forall k :: 0 <= k < |ps| ==> ps[k].id != p.id
    ensures PlateById(ps + [p], p.id) == Some(p)
  {
    if |ps| > 0 {
      assert (ps + [p])[1..] == ps[1..] + [p];
      PlateByIdAppended(ps[1..], p);
    }
  }

  /** A new plate whose own text is not listed leaves every `last_seen` as
      it was, even when the store blacklisted it through a similar entry:
      the update looks for the exact text. */
  lemma NewPlateUnlistedKeepsBlacklist(ps: seq<Plate>, bl: seq<BlacklistEntry>, ds: seq<Detection>,
                                       known: seq<CacheEntry>, d: NewPlateData, newId: nat,
                                       fileTime: Option<int>, pp: string, fp: string, sim: PlateMatch)
    requires BestMatch(known, d.text).None?
    requires forall k :: 0 <= k < |ps| ==> ps[k].id != newId
    requires forall k :: 0 <= k < |bl| ==> bl[k].text != d.text
    ensures BlacklistAfterRead(ps, bl, ds, known, d, newId, fileTime, pp, fp, sim) == bl
  {
    var p := NewPlate(newId, d, bl, sim);
    PlateByIdAppended(ps, p);
    var rows := ps + [p];
    var r := BlacklistAfterDetection(bl, rows, newId, fileTime, Some(d.lastAppearance));
    OnlyListedTextIsTouched(bl, rows, newId, fileTime, Some(d.lastAppearance));
    assert forall k :: 0 <= k < |bl| ==> r[k] == bl[k];
    assert r == bl;
  }

  /** A read never lowers the confidence cached for any text, and never
      drops a text from the cache. */
  lemma CacheConfidenceNeverDrops(known: seq<CacheEntry>, pt: string, confidence: real, now: int, newId: nat, t: string)
    requires UniqueKeys(known) && Lookup(known, t).Some?
    ensures var r := Lookup(CacheAfter(known, pt, confidence, now, newId), t);
      r.Some? && r.value.confidence >= Lookup(known, t).value.confidence
  {
    match BestMatch(known, pt)
    case Some(k) =>
      if confidence > known[k].confidence {
        var e := known[k].(confidence := confidence, lastAppearance := now);
        CachePutLookup(known, e, t);
        if t == e.text {
          assert KeyIndex(known, t) == Some(k);
        }
      }
    case None =>
      UnmatchedTextNotCached(known, pt);
      CachePutLookup(known, CacheEntry(pt, newId, confidence, now), t);
  }

  /** A text with no near cached plate is not cached itself (a text is at
      distance zero from itself). */
  lemma UnmatchedTextNotCached(known: seq<CacheEntry>, pt: string)
    requires BestMatch(known, pt).None?
    ensures Lookup(known, pt).None?
  {
    var i := KeyIndex(known, pt);
    if i.Some? {
      EditDistanceSelf(pt);
      assert Near(pt, known[i.value].text);
    }
  }

  /** An unmatched read is cached under exactly its own text with the id of
      the new plate row. */
  lemma UnmatchedReadIsCached(known: seq<CacheEntry>, pt: string, confidence: real, now: int, newId: nat)
    requires BestMatch(known, pt).None?
    ensures Lookup(CacheAfter(known, pt, confidence, now, newId), pt) == Some(CacheEntry(pt, newId, confidence, now))
    ensures ResolvedId(known, pt, newId) == newId
  {
    CachePutLookup(known, CacheEntry(pt, newId, confidence, now), pt);
  }

  /** A read at most as confident as its best match leaves the cache alone. */
  lemma WeakerReadKeepsCache(known: seq<CacheEntry>, pt: string, confidence: real, now: int, newId: nat)
    requires BestMatch(known, pt).Some? && confidence <= known[BestMatch(known, pt).value].confidence
    ensures CacheAfter(known, pt, confidence, now, newId) == known
  {
  }

  /** The worker's test and the store's differ in both directions: two
      short texts two edits apart match for the worker but not for the
      store, and with a distance threshold of ten (the most the settings
      dialog accepts) and the default ratio threshold, a five- and an
      eight-character text three edits apart match for the store but not for
      the worker. */
  lemma WorkerAndStoreTestsDiffer(ratio: RatioFn, a: string, b: string, x: string, y: string)
    requires a == "AB" && b == "ABCD" && x == "ABCDE" && y == "ABCDEFGH"
    ensures Near(a, b) && !IsSimilarPlate(a, b, DefaultThresholds, ratio)
    ensures !Near(x, y) && IsSimilarPlate(x, y, Thresholds(10.0, 0.8), ratio)
  {
    assert EditDistance(a[1..], b[1..]) == 2 by {
      assert a[1..] == "B" && b[1..] == "BCD";
      assert "B"[1..] == "" && "BCD"[1..] == "CD";
      assert EditDistance("", "CD") == 2;
    }
    assert EditDistance(a, b) == 2;
    assert NoSpace(a) && NoSpace(b) && NoSpace(x) && NoSpace(y);
    StripNoSpace(a);
    StripNoSpace(b);
    StripNoSpace(x);
    StripNoSpace(y);
    EditDistanceBounds(x, y);
  }

  // ---------------------------------------------------------------------
  // The worker

  /** The store tables and the worker's cache at one point of a read. */
  datatype StoreState = StoreState(plates: seq<Plate>, blacklist: seq<BlacklistEntry>, detections: seq<Detection>,
                                   nextPlateId: nat, nextDetectionId: nat, similarPairs: seq<SimilarPair>,
                                   settings: map<string, StoredSetting>, known: seq<CacheEntry>)

  class VideoWorker {
    /** The worker's own database connection. */
    const store: Store
    /** `video_filename`, the source file name of every detection. */
    const videoFile: string
    const profile: string
    /** `self.blacklist`, read once when the worker starts. */
    var snapshot: seq<BlacklistEntry>
    /** `self.known_plates`. */
    var known: seq<CacheEntry>
    var platesFound: nat
    var blacklistFound: nat
    var detectedPlates: set<string>

    predicate Valid()
      reads this, store
    {
      store.Valid() && UniqueKeys(known)
    }

    /** `__init__`: the blacklist in text order and the plates most recently
        seen first, each keyed by its text. */
    constructor (db: Store, videoFile: string, profile: string)
      requires db.Valid()
      ensures Valid() && store == db
      ensures snapshot == db.blacklist && known == CacheOf(SortBy(db.plates, RecencyKey))
      ensures platesFound == 0 && blacklistFound == 0 && detectedPlates == {}
      ensures this.videoFile == videoFile && this.profile == profile
    {
      var entries, cache := ReadTables(db);
      store := db;
      this.videoFile := videoFile;
      this.profile := profile;
      snapshot := entries;
      known := cache;
      platesFound := 0;
      blacklistFound := 0;
      detectedPlates := {};
    }

    /** The two reads `__init__` makes: `get_blacklist` and the cache of
        `get_all_plates`. */
    static method ReadTables(db: Store) returns (entries: seq<BlacklistEntry>, cache: seq<CacheEntry>)
      requires db.Valid()
      ensures entries == db.blacklist && cache == CacheOf(SortBy(db.plates, RecencyKey))
    {
      entries := db.GetBlacklist();
      cache := LoadCache(SortBy(db.plates, RecencyKey));
    }

    /** The dict comprehension over the rows of `get_all_plates`. */
    static method LoadCache(rows: seq<Plate>) returns (cache: seq<CacheEntry>)
      ensures cache == CacheOf(rows)
    {
      cache := [];
      var i := 0;
      while i < |rows|
        invariant 0 <= i <= |rows|
        invariant cache == CacheOf(rows[..i])
      {
        assert rows[..i + 1][..i] == rows[..i];
        cache := CachePut(cache, EntryOf(rows[i]));
        i := i + 1;
      }
      assert rows[..i] == rows;
    }

    /** `_check_blacklist(pt)`: the first snapshot entry within distance
        two, counting the hit. */
    method CheckBlacklist(pt: string) returns (m: Option<BlacklistEntry>)
      modifies this`blacklistFound
      ensures m == (match FirstNear(snapshot, pt) case Some(k) => Some(snapshot[k]) case None => None)
      ensures blacklistFound == old(blacklistFound) + (if m.Some? then 1 else 0)
    {
      var entries := snapshot;
      FirstNearIsFirst(entries, pt);
      var i := 0;
      while i < |entries|
        invariant 0 <= i <= |entries|
        invariant forall j :: 0 <= j < i ==> !Near(pt, entries[j].text)
      {
        if EditDistance(pt, entries[i].text) <= 2 {
          blacklistFound := blacklistFound + 1;
          return Some(entries[i]);
        }
        i := i + 1;
      }
      return None;
    }

    /** The candidate list and its `max` by confidence. */
    method FindBestMatch(pt: string) returns (best: Option<nat>)
      ensures best == BestMatch(known, pt)
    {
      var cache := known;
      best := ScanBest(cache, pt);
    }

    static method ScanBest(cache: seq<CacheEntry>, pt: string) returns (best: Option<nat>)
      ensures best == BestMatch(cache, pt)
    {
      best := None;
      var i := 0;
      while i < |cache|
        invariant 0 <= i <= |cache|
        invariant best == BestAmong(cache, pt, i)
      {
        var near := EditDistance(pt, cache[i].text) <= 2;
        if near && (best.None? || cache[i].confidence > cache[best.value].confidence) {
          best := Some(i);
        }
        i := i + 1;
      }
    }

    /** `plate_callback(engine, plate)` for a read of text `pt` at time
        `now`, with image paths `pp` and `fp`: returns 1 and does nothing
        once the stop event is set; otherwise counts the read, checks the
        blacklist, resolves the plate (recording the detection either way),
        marks a blacklist hit and returns 0. */
    method PlateCallback(stop: bool, pt: string, confidence: real, country: string, lprTimestamp: string,
                         now: int, pp: string, fp: string, sim: PlateMatch) returns (code: int)
      requires Valid()
      modifies this, store
      ensures Valid()
      ensures stop ==> code == 1 && unchanged(this) && unchanged(store)
      ensures !stop ==> code == 0
      ensures !stop ==> platesFound == old(platesFound) + 1 && detectedPlates == old(detectedPlates) + {pt}
      ensures !stop ==> blacklistFound == old(blacklistFound) + (if FirstNear(snapshot, pt).Some? then 1 else 0)
      ensures !stop ==> known == CacheAfter(old(known), pt, confidence, now, old(store.nextPlateId))
      ensures !stop ==> store.plates == PlatesAfter(old(store.plates), old(store.blacklist), FirstNear(snapshot, pt).Some?, old(known),
                                                    NewPlateData(pt, confidence, country, lprTimestamp, now, now, profile),
                                                    old(store.nextPlateId), sim)
      ensures !stop ==> store.detections == AddedDetections(old(store.detections), old(store.nextDetectionId),
                                                            ResolvedId(old(known), pt, old(store.nextPlateId)), Some(now),
                                                            RealTimestamp(videoFile), videoFile, confidence, pp, fp)
      ensures !stop ==> store.blacklist == BlacklistAfterRead(old(store.plates), old(store.blacklist), old(store.detections), old(known),
                                                    NewPlateData(pt, confidence, country, lprTimestamp, now, now, profile),
                                                    old(store.nextPlateId), RealTimestamp(videoFile), pp, fp, sim)
      ensures !stop ==> store.nextPlateId == old(store.nextPlateId) + (if BestMatch(old(known), pt).None? then 1 else 0)
      ensures !stop ==> (store.nextDetectionId == old(store.nextDetectionId)
        + (if DetectionKept(old(store.detections), old(known), NewPlateData(pt, confidence, country, lprTimestamp, now, now, profile),
                            old(store.nextPlateId), pp, fp) then 1 else 0))
      ensures !stop ==> store.similarPairs == old(store.similarPairs) && store.settings == old(store.settings)
      ensures snapshot == old(snapshot)
    {
      if stop {
        return 1;
      }
      RecordRead(pt, confidence, country, lprTimestamp, now, pp, fp, sim);
      return 0;
    }

    /** `plate_callback` past the stop check: count the read and record its
        text, check the blacklist, then resolve and write. */
    method RecordRead(pt: string, confidence: real, country: string, lprTimestamp: string,
                      now: int, pp: string, fp: string, sim: PlateMatch)
      requires Valid()
      modifies this, store
      ensures Valid()
      ensures platesFound == old(platesFound) + 1 && detectedPlates == old(detectedPlates) + {pt}
      ensures blacklistFound == old(blacklistFound) + (if FirstNear(snapshot, pt).Some? then 1 else 0)
      ensures known == CacheAfter(old(known), pt, confidence, now, old(store.nextPlateId))
      ensures store.plates == PlatesAfter(old(store.plates), old(store.blacklist), FirstNear(snapshot, pt).Some?, old(known),
                                                    NewPlateData(pt, confidence, country, lprTimestamp, now, now, profile),
                                                    old(store.nextPlateId), sim)
      ensures store.detections == AddedDetections(old(store.detections), old(store.nextDetectionId),
                                                            ResolvedId(old(known), pt, old(store.nextPlateId)), Some(now),
                                                            RealTimestamp(videoFile), videoFile, confidence, pp, fp)
      ensures store.blacklist == BlacklistAfterRead(old(store.plates), old(store.blacklist), old(store.detections), old(known),
                                                    NewPlateData(pt, confidence, country, lprTimestamp, now, now, profile),
                                                    old(store.nextPlateId), RealTimestamp(videoFile), pp, fp, sim)
      ensures store.nextPlateId == old(store.nextPlateId) + (if BestMatch(old(known), pt).None? then 1 else 0)
      ensures (store.nextDetectionId == old(store.nextDetectionId)
        + (if DetectionKept(old(store.detections), old(known), NewPlateData(pt, confidence, country, lprTimestamp, now, now, profile),
                            old(store.nextPlateId), pp, fp) then 1 else 0))
      ensures store.similarPairs == old(store.similarPairs) && store.settings == old(store.settings)
      ensures snapshot == old(snapshot)
    {
      ghost var before := StoreState(store.plates, store.blacklist, store.detections, store.nextPlateId,
                                     store.nextDetectionId, store.similarPairs, store.settings, known);
      platesFound := platesFound + 1;
      detectedPlates := detectedPlates + {pt};
      var hit := CheckBlacklist(pt);
      assert before == StoreState(store.plates, store.blacklist, store.detections, store.nextPlateId,
                                  store.nextDetectionId, store.similarPairs, store.settings, known);
      HandleRead(hit.Some?, pt, confidence, country, lprTimestamp, now, pp, fp, sim);
    }

    /** Everything `plate_callback` writes once the blacklist has been
        checked: the resolution, then the blacklist mark on a hit. */
    method HandleRead(hit: bool, pt: string, confidence: real, country: string, lprTimestamp: string,
                      now: int, pp: string, fp: string, sim: PlateMatch)
      requires Valid()
      modifies this`known, store
      ensures Valid()
      ensures known == CacheAfter(old(known), pt, confidence, now, old(store.nextPlateId))
      ensures store.plates == PlatesAfter(old(store.plates), old(store.blacklist), hit, old(known),
                                          NewPlateData(pt, confidence, country, lprTimestamp, now, now, profile),
                                          old(store.nextPlateId), sim)
      ensures store.detections == AddedDetections(old(store.detections), old(store.nextDetectionId),
                                                  ResolvedId(old(known), pt, old(store.nextPlateId)), Some(now),
                                                  RealTimestamp(videoFile), videoFile, confidence, pp, fp)
      ensures store.blacklist == BlacklistAfterRead(old(store.plates), old(store.blacklist), old(store.detections), old(known),
                                                    NewPlateData(pt, confidence, country, lprTimestamp, now, now, profile),
                                                    old(store.nextPlateId), RealTimestamp(videoFile), pp, fp, sim)
      ensures store.nextPlateId == old(store.nextPlateId) + (if BestMatch(old(known), pt).None? then 1 else 0)
      ensures store.nextDetectionId == old(store.nextDetectionId)
        + (if DetectionKept(old(store.detections), old(known), NewPlateData(pt, confidence, country, lprTimestamp, now, now, profile),
                            old(store.nextPlateId), pp, fp) then 1 else 0)
      ensures store.similarPairs == old(store.similarPairs) && store.settings == old(store.settings)
    {
      var pid := Resolve(pt, confidence, country, lprTimestamp, now, pp, fp, sim);
      if hit {
        store.MarkBlacklisted(pid);
      }
    }

    /** The resolution step of `plate_callback`: the detection is always
        recorded; a matched plate's row and cache entry move only on a
        strictly more confident read; an unmatched read is inserted and
        cached. */
    method Resolve(pt: string, confidence: real, country: string, lprTimestamp: string,
                   now: int, pp: string, fp: string, sim: PlateMatch) returns (pid: nat)
      requires Valid()
      modifies this`known, store
      ensures Valid()
      ensures pid == ResolvedId(old(known), pt, old(store.nextPlateId))
      ensures known == CacheAfter(old(known), pt, confidence, now, old(store.nextPlateId))
      ensures store.plates == ResolvedPlates(old(store.plates), old(store.blacklist), old(known),
                                             NewPlateData(pt, confidence, country, lprTimestamp, now, now, profile),
                                             old(store.nextPlateId), sim)
      ensures store.detections == AddedDetections(old(store.detections), old(store.nextDetectionId),
                                                  ResolvedId(old(known), pt, old(store.nextPlateId)), Some(now),
                                                  RealTimestamp(videoFile), videoFile, confidence, pp, fp)
      ensures store.blacklist == BlacklistAfterRead(old(store.plates), old(store.blacklist), old(store.detections), old(known),
                                                    NewPlateData(pt, confidence, country, lprTimestamp, now, now, profile),
                                                    old(store.nextPlateId), RealTimestamp(videoFile), pp, fp, sim)
      ensures store.nextPlateId == old(store.nextPlateId) + (if BestMatch(old(known), pt).None? then 1 else 0)
      ensures store.nextDetectionId == old(store.nextDetectionId)
        + (if DetectionKept(old(store.detections), old(known), NewPlateData(pt, confidence, country, lprTimestamp, now, now, profile),
                            old(store.nextPlateId), pp, fp) then 1 else 0)
      ensures store.similarPairs == old(store.similarPairs) && store.settings == old(store.settings)
    {
      var d := NewPlateData(pt, confidence, country, lprTimestamp, now, now, profile);
      ghost var ps, bl, ds, cache, newId := store.plates, store.blacklist, store.detections, known, store.nextPlateId;
      var best := FindBestMatch(pt);
      match best
      case Some(k) =>
        assert PlatesAtDetection(ps, bl, cache, d, newId, sim) == ps;
        assert ResolvedId(cache, pt, newId) == cache[k].id;
        pid := UpdateMatched(k, confidence, now, pp, fp);
      case None =>
        assert PlatesAtDetection(ps, bl, cache, d, newId, sim) == ps + [NewPlate(newId, d, bl, sim)];
        assert ResolvedId(cache, pt, newId) == newId;
        pid := SaveNewPlate(d, pp, fp, sim);
    }

    /** A read matched to cached plate `k`: the detection is recorded, and
        `_update_existing_plate` with the cache update runs only when the
        read is strictly more confident than the cached plate. */
    method UpdateMatched(k: nat, confidence: real, now: int, pp: string, fp: string) returns (pid: nat)
      requires Valid() && k < |known|
      modifies this`known, store
      ensures Valid()
      ensures pid == old(known)[k].id
      ensures known == if confidence > old(known)[k].confidence
                       then CachePut(old(known), old(known)[k].(confidence := confidence, lastAppearance := now))
                       else old(known)
      ensures store.plates == if confidence > old(known)[k].confidence
                              then AppearanceRows(old(store.plates), pid, now, confidence)
                              else old(store.plates)
      ensures store.detections == AddedDetections(old(store.detections), old(store.nextDetectionId), pid, Some(now),
                                                  RealTimestamp(videoFile), videoFile, confidence, pp, fp)
      ensures store.blacklist == BlacklistAfterWrite(old(store.blacklist), old(store.plates), old(store.detections), pid,
                                                     Some(now), RealTimestamp(videoFile), confidence, pp, fp)
      ensures store.nextPlateId == old(store.nextPlateId)
      ensures store.nextDetectionId == old(store.nextDetectionId)
        + (if Deduplicated(old(store.detections), pid, Some(now), confidence, pp, fp).Some? then 1 else 0)
      ensures store.similarPairs == old(store.similarPairs) && store.settings == old(store.settings)
    {
      var entry := known[k];
      pid := entry.id;
      store.AddPlateDetection(pid, Some(now), videoFile, confidence, pp, fp);
      if confidence > entry.confidence {
        store.UpdatePlateAppearance(pid, now, confidence);
        known := CachePut(known, entry.(confidence := confidence, lastAppearance := now));
      }
    }

    /** `_save_new_plate` followed by the detection: the store inserts the
        row (with its own blacklist check) and the cache takes it under its
        exact text. */
    method SaveNewPlate(d: NewPlateData, pp: string, fp: string, sim: PlateMatch) returns (pid: nat)
      requires Valid()
      modifies this`known, store
      ensures Valid()
      ensures pid == old(store.nextPlateId)
      ensures known == CachePut(old(known), CacheEntry(d.text, pid, d.confidence, d.lastAppearance))
      ensures store.plates == old(store.plates) + [NewPlate(pid, d, old(store.blacklist), sim)]
      ensures store.detections == AddedDetections(old(store.detections), old(store.nextDetectionId), pid,
                                                  Some(d.lastAppearance), RealTimestamp(videoFile), videoFile,
                                                  d.confidence, pp, fp)
      ensures store.blacklist == BlacklistAfterWrite(old(store.blacklist), store.plates, old(store.detections), pid,
                                                     Some(d.lastAppearance), RealTimestamp(videoFile), d.confidence, pp, fp)
      ensures store.nextPlateId == old(store.nextPlateId) + 1
      ensures store.nextDetectionId == old(store.nextDetectionId)
        + (if Deduplicated(old(store.detections), pid, Some(d.lastAppearance), d.confidence, pp, fp).Some? then 1 else 0)
      ensures store.similarPairs == old(store.similarPairs) && store.settings == old(store.settings)
    {
      pid := store.InsertPlate(d, sim);
      known := CachePut(known, CacheEntry(d.text, pid, d.confidence, d.lastAppearance));
      store.AddPlateDetection(pid, Some(d.lastAppearance), videoFile, d.confidence, pp, fp);
    }
  }
}
