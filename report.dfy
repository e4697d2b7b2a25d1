/** The plate list and report logic of report_panel.py: which plates
    `load_data` lists, the status each listed plate shows and the key the
    status column sorts by, the folder name of a plate's history, and the
    counts and colour bands of the exported report. */
module Report {
  import opened Wrappers
  import opened Text
  import opened Sorting
  import opened StoreTables

  // ---------------------------------------------------------------------
  // load_data: filters

  const MicrosPerDay: int := 86400 * 1000000

  /** The date filter's choices. */
  datatype DateFilter = AllDates | Today | Last7Days | Last30Days

  /** The filter controls as `load_data` reads them. */
  datatype Filters = Filters(
    search: string,
    profile: string,
    date: DateFilter,
    blacklistOnly: bool,
    followOnly: bool,
    similarOnly: bool)

  /** The date filter: with "All" every plate passes; otherwise the plate's
      last appearance must parse (`date` is what `parse_date` made of it)
      and lie at or after the start of today, or within the last 7 or 30
      days of `now`. */
  predicate DatePasses(filter: DateFilter, date: Option<int>, now: int, todayStart: int) {
    filter == AllDates ||
    (date.Some? &&
      match filter
      case AllDates => true
      case Today => date.value >= todayStart
      case Last7Days => date.value >= now - 7 * MicrosPerDay
      case Last30Days => date.value >= now - 30 * MicrosPerDay)
  }

  /** A plate is listed when every enabled filter passes: the lower-cased
      search text occurs in the lower-cased plate text, the profile matches
      (or is "All"), the date filter passes, and the plate is blacklisted,
      among the tracking ids or among the similar ids when those check
      boxes are ticked. */
  predicate Listed(p: Plate, date: Option<int>, f: Filters, followIds: set<nat>, similarIds: set<nat>,
                   now: int, todayStart: int) {
    (|Lower(f.search)| == 0 || Contains(Lower(p.text), Lower(f.search)))
    && (f.profile == "All" || p.profile == f.profile)
    && DatePasses(f.date, date, now, todayStart)
    && (!f.blacklistOnly || p.isBlacklisted)
    && (!f.followOnly || p.id in followIds)
    && (!f.similarOnly || p.id in similarIds)
  }

  /** With a date filter chosen, a plate whose last appearance does not
      parse is never listed. */
  lemma UnparseableDateNotListed(p: Plate, f: Filters, followIds: set<nat>, similarIds: set<nat>, now: int, todayStart: int)
    requires f.date != AllDates
    ensures !Listed(p, None, f, followIds, similarIds, now, todayStart)
  {
  }

  /** The plates `load_data` keeps, in the order of `get_all_plates`;
      `dates[k]` is the parsed last appearance of `plates[k]`. */
  function Filtered(plates: seq<Plate>, dates: seq<Option<int>>, f: Filters, followIds: set<nat>,
                    similarIds: set<nat>, now: int, todayStart: int): (r: seq<Plate>)
    requires |dates| == |plates|
    ensures |r| <= |plates|
    ensures forall q :: q in r ==> q in plates
  {
    if |plates| == 0 then []
    else
      var n := |plates| - 1;
      Filtered(plates[..n], dates[..n], f, followIds, similarIds, now, todayStart)
      + (if Listed(plates[n], dates[n], f, followIds, similarIds, now, todayStart) then [plates[n]] else [])
  }

  /** A plate is in the list exactly when some row holding it passes every
      filter. */
  lemma {:induction false} FilteredMembers(plates: seq<Plate>, dates: seq<Option<int>>, f: Filters, followIds: set<nat>,
                                           similarIds: set<nat>, now: int, todayStart: int, q: Plate)
    requires |dates| == |plates|
    ensures q in Filtered(plates, dates, f, followIds, similarIds, now, todayStart)
            <==> exists k :: 0 <= k < |plates| && plates[k] == q && Listed(q, dates[k], f, followIds, similarIds, now, todayStart)
    decreases |plates|
  {
    if |plates| > 0 {
      var n := |plates| - 1;
      FilteredMembers(plates[..n], dates[..n], f, followIds, similarIds, now, todayStart, q);
      if exists k :: 0 <= k < |plates| && plates[k] == q && Listed(q, dates[k], f, followIds, similarIds, now, todayStart) {
        var k :| 0 <= k < |plates| && plates[k] == q && Listed(q, dates[k], f, followIds, similarIds, now, todayStart);
        if k < n {
          assert plates[..n][k] == q && dates[..n][k] == dates[k];
        }
      }
    }
  }

  /** The ids of the similar-plates table: both ids of every stored pair. */
  function PairIds(pairs: seq<SimilarPair>): (r: set<nat>)
    ensures forall x :: x in r <==> exists k :: 0 <= k < |pairs| && (pairs[k].id1 == x || pairs[k].id2 == x)
  {
    (set k | 0 <= k < |pairs| :: pairs[k].id1) + (set k | 0 <= k < |pairs| :: pairs[k].id2)
  }

  /** `load_data`'s collection and filter pass: the tracking ids are used
      only when the tracking box is ticked, the similar ids are gathered
      pair by pair only when the similar box is ticked, and every plate is
      checked against the filters in turn. */
  method LoadData(plates: seq<Plate>, dates: seq<Option<int>>, pairs: seq<SimilarPair>, followed: set<nat>,
                  f: Filters, now: int, todayStart: int)
    returns (listed: seq<Plate>, followIds: set<nat>, similarIds: set<nat>)
    requires |dates| == |plates|
    ensures followIds == (if f.followOnly then followed else {})
    ensures similarIds == (if f.similarOnly then PairIds(pairs) else {})
    ensures listed == Filtered(plates, dates, f, followIds, similarIds, now, todayStart)
  {
    followIds := if f.followOnly then followed else {};
    similarIds := {};
    if f.similarOnly {
      var i := 0;
      while i < |pairs|
        invariant 0 <= i <= |pairs|
        invariant similarIds == PairIds(pairs[..i])
      {
        assert pairs[..i + 1] == pairs[..i] + [pairs[i]];
        similarIds := similarIds + {pairs[i].id1, pairs[i].id2};
        i := i + 1;
      }
      assert pairs[..i] == pairs;
    }
    listed := [];
    var j := 0;
    while j < |plates|
      invariant 0 <= j <= |plates|
      invariant listed == Filtered(plates[..j], dates[..j], f, followIds, similarIds, now, todayStart)
    {
      assert plates[..j + 1][..j] == plates[..j] && dates[..j + 1][..j] == dates[..j];
      if Listed(plates[j], dates[j], f, followIds, similarIds, now, todayStart) {
        listed := listed + [plates[j]];
      }
      j := j + 1;
    }
    assert plates[..j] == plates && dates[..j] == dates;
  }

  // ---------------------------------------------------------------------
  // Status and the status sort key

  /** The status column: blacklisted before tracking before similar. */
  datatype Status = Blacklisted | Tracking | HasSimilar | Normal

  function StatusOf(p: Plate, followIds: set<nat>, similarIds: set<nat>): (s: Status)
    ensures s == Blacklisted <==> p.isBlacklisted
    ensures s == Tracking <==> !p.isBlacklisted && p.id in followIds
    ensures s == HasSimilar <==> !p.isBlacklisted && p.id !in followIds && p.id in similarIds
  {
    if p.isBlacklisted then Blacklisted
    else if p.id in followIds then Tracking
    else if p.id in similarIds then HasSimilar
    else Normal
  }

  function StatusRank(s: Status): nat {
    match s
    case Blacklisted => 3
    case Tracking => 2
    case HasSimilar => 1
    case Normal => 0
  }

  /** `get_status_sort_key`: 3 for a blacklisted plate, 2 for a tracked one
      when the tracking box is ticked, 1 for one with similar variants, 0
      otherwise. */
  function StatusSortKey(p: Plate, followOnly: bool, followIds: set<nat>, similarOnly: bool, similarIds: set<nat>): (k: int)
    ensures 0 <= k <= 3
    ensures k == 3 <==> p.isBlacklisted
  {
    if p.isBlacklisted then 3
    else if followOnly && p.id in followIds then 2
    else if similarOnly && p.id in similarIds then 1
    else if p.id in similarIds then 1
    else 0
  }

  /** With the id sets as `load_data` builds them, sorting by status sorts
      by the status each row shows. */
  lemma SortKeyMatchesStatus(p: Plate, f: Filters, followed: set<nat>, pairs: seq<SimilarPair>)
    ensures var followIds := if f.followOnly then followed else {};
            var similarIds := if f.similarOnly then PairIds(pairs) else {};
            StatusSortKey(p, f.followOnly, followIds, f.similarOnly, similarIds)
            == StatusRank(StatusOf(p, followIds, similarIds))
  {
  }

  /** `filtered_plates.sort(key=get_status_sort_key, reverse=...)`: a
      stable sort by the key, or by the negated key when reversed (Python's
      reversed sort keeps equal rows in their order too). */
  function SortedByStatus(listed: seq<Plate>, f: Filters, followIds: set<nat>, similarIds: set<nat>, reverse: bool): (r: seq<Plate>)
    ensures multiset(r) == multiset(listed)
    ensures forall i, j :: 0 <= i < j < |r| ==>
      if reverse then StatusSortKey(r[i], f.followOnly, followIds, f.similarOnly, similarIds)
                      >= StatusSortKey(r[j], f.followOnly, followIds, f.similarOnly, similarIds)
      else StatusSortKey(r[i], f.followOnly, followIds, f.similarOnly, similarIds)
           <= StatusSortKey(r[j], f.followOnly, followIds, f.similarOnly, similarIds)
  {
    var key := (p: Plate) => StatusSortKey(p, f.followOnly, followIds, f.similarOnly, similarIds);
    if reverse then SortBy(listed, (p: Plate) => -key(p)) else SortBy(listed, key)
  }

  // ---------------------------------------------------------------------
  // History folder name

  /** `"".join(c if c.isalnum() else "_" for c in plate_text)`. */
  function SafeFolderName(text: string): (r: string)
    ensures |r| == |text|
    ensures forall i :: 0 <= i < |r| ==> IsAlnum(r[i]) || r[i] == '_'
    ensures forall i :: 0 <= i < |r| ==> IsAlnum(text[i]) ==> r[i] == text[i]
    ensures forall i :: 0 <= i < |text| && !IsAlnum(text[i]) ==> r[i] == '_'
  {
    seq(|text|, i requires 0 <= i < |text| => if IsAlnum(text[i]) then text[i] else '_')
  }

  /** A folder name is left as it is by a second pass, and a plate text of
      letters and digits is its own folder name. */
  lemma SafeFolderNameIdempotent(text: string)
    ensures SafeFolderName(SafeFolderName(text)) == SafeFolderName(text)
    ensures (forall i :: 0 <= i < |text| ==> IsAlnum(text[i])) ==> SafeFolderName(text) == text
  {
  }

  // ---------------------------------------------------------------------
  // Exported report

  /** The confidence colour bands of the exported cards. */
  datatype Band = Red | Yellow | Green

  function BandRank(b: Band): nat {
    match b
    case Red => 0
    case Yellow => 1
    case Green => 2
  }

  /** Below 80 red, below 90 yellow, otherwise green; a confidence that
      does not convert to a float counts as 0. */
  function ConfidenceBand(confidence: Option<real>): (b: Band)
    ensures confidence.None? ==> b == Red
    ensures confidence.Some? ==> (b == Red <==> confidence.value < 80.0)
    ensures confidence.Some? ==> (b == Green <==> confidence.value >= 90.0)
  {
    var c := if confidence.Some? then confidence.value else 0.0;
    if c < 80.0 then Red else if c < 90.0 then Yellow else Green
  }

  /** A higher confidence never gets a lower band. */
  lemma BandMonotone(a: real, b: real)
    requires a <= b
    ensures BandRank(ConfidenceBand(Some(a))) <= BandRank(ConfidenceBand(Some(b)))
  {
  }

  /** A report row's "following" mark and its reason. */
  datatype FollowMark = FollowMark(following: bool, reason: string)

  /** The mark the export gives a plate: first the tracking analysis's
      verdict and reason (`analysisReason` is the plate's entry among the
      following plate ids, if any), then, for a plate the analysis did not
      name, the rule of four or more different videos. */
  function ReportFollowMark(analysisReason: Option<string>, uniqueVideos: nat): (m: FollowMark)
    ensures m.following <==> analysisReason.Some? || uniqueVideos >= 4
    ensures analysisReason.Some? ==> m.reason == analysisReason.value
    ensures analysisReason.None? && uniqueVideos >= 4 ==>
      m.reason == "Detected in " + NatToString(uniqueVideos) + " different video files"
    ensures !m.following ==> m.reason == ""
  {
    var named := FollowMark(analysisReason.Some?, match analysisReason case Some(r) => r case None => "");
    if uniqueVideos >= 4 && !named.following
    then FollowMark(true, "Detected in " + NatToString(uniqueVideos) + " different video files")
    else named
  }

  /** The flags of one report row. */
  datatype ReportRow = ReportRow(isBlacklisted: bool, isFollowing: bool)

  /** What the export knows of a plate when it flags its row. */
  datatype PlateFacts = PlateFacts(isBlacklisted: bool, analysisReason: Option<string>, uniqueVideos: nat)

  /** The report rows of the plates, in order. */
  function ReportRows(fs: seq<PlateFacts>): (rows: seq<ReportRow>)
    ensures |rows| == |fs|
    ensures forall i :: 0 <= i < |fs| ==> rows[i].isBlacklisted == fs[i].isBlacklisted
    ensures forall i :: 0 <= i < |fs| ==>
      rows[i].isFollowing == ReportFollowMark(fs[i].analysisReason, fs[i].uniqueVideos).following
  {
    seq(|fs|, i requires 0 <= i < |fs| =>
      ReportRow(fs[i].isBlacklisted, ReportFollowMark(fs[i].analysisReason, fs[i].uniqueVideos).following))
  }

  /** The plates the tracking analysis named. */
  function CountNamed(fs: seq<PlateFacts>): (n: nat)
    ensures n <= |fs|
  {
    if |fs| == 0 then 0 else CountNamed(fs[1..]) + (if fs[0].analysisReason.Some? then 1 else 0)
  }

  /** The plates the analysis did not name but that were seen in four or
      more videos. */
  function CountByVideos(fs: seq<PlateFacts>): (n: nat)
    ensures n <= |fs|
  {
    if |fs| == 0 then 0 else CountByVideos(fs[1..]) + (if fs[0].analysisReason.None? && fs[0].uniqueVideos >= 4 then 1 else 0)
  }

  function CountBlacklisted(rows: seq<ReportRow>): (n: nat)
    ensures n <= |rows|
  {
    if |rows| == 0 then 0 else CountBlacklisted(rows[1..]) + (if rows[0].isBlacklisted then 1 else 0)
  }

  function CountFollowing(rows: seq<ReportRow>): (n: nat)
    ensures n <= |rows|
  {
    if |rows| == 0 then 0 else CountFollowing(rows[1..]) + (if rows[0].isFollowing then 1 else 0)
  }

  function CountBoth(rows: seq<ReportRow>): (n: nat)
    ensures n <= |rows|
  {
    if |rows| == 0 then 0 else CountBoth(rows[1..]) + (if rows[0].isBlacklisted && rows[0].isFollowing then 1 else 0)
  }

  function CountNeither(rows: seq<ReportRow>): (n: nat)
    ensures n <= |rows|
  {
    if |rows| == 0 then 0 else CountNeither(rows[1..]) + (if !rows[0].isBlacklisted && !rows[0].isFollowing then 1 else 0)
  }

  /** Every row is counted once among blacklisted, following and neither,
      except the rows that are both, which are counted twice. */
  lemma {:induction false} CountsPartition(rows: seq<ReportRow>)
    ensures CountBlacklisted(rows) + CountFollowing(rows) + CountNeither(rows) == |rows| + CountBoth(rows)
  {
    if |rows| > 0 {
      CountsPartition(rows[1..]);
    }
  }

  /** `tracking_plates` counts every plate the analysis named plus every
      other plate seen in four or more videos, each once. */
  lemma {:induction false} TrackingCount(fs: seq<PlateFacts>)
    ensures CountFollowing(ReportRows(fs)) == CountNamed(fs) + CountByVideos(fs)
  {
    if |fs| > 0 {
      assert ReportRows(fs)[1..] == ReportRows(fs[1..]);
      TrackingCount(fs[1..]);
    }
  }

  /** The pie chart's "normal" slice: `max(0, total - blacklisted -
      tracking)`. */
  function NormalCount(rows: seq<ReportRow>): (n: nat)
    ensures n + CountBlacklisted(rows) + CountFollowing(rows) >= |rows|
  {
    var d := |rows| - CountBlacklisted(rows) - CountFollowing(rows);
    if d < 0 then 0 else d
  }

  /** The "normal" slice counts exactly the plates that are neither
      blacklisted nor following, and the pie adds up to the plate count,
      when no plate is both; a plate that is both shrinks the slice
      below that. */
  lemma NormalSlice(rows: seq<ReportRow>)
    ensures CountBoth(rows) == 0 ==> NormalCount(rows) == CountNeither(rows)
    ensures CountBoth(rows) == 0 ==> NormalCount(rows) + CountBlacklisted(rows) + CountFollowing(rows) == |rows|
    ensures CountBoth(rows) > 0 ==> NormalCount(rows) < CountNeither(rows) || CountNeither(rows) == 0
  {
    CountsPartition(rows);
  }
}
