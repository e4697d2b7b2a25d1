/** The checks and text handling of settings_dialog.py's `SettingsDialog`:
    the validation `save_settings` runs before writing anything, the writes
    themselves, the tracking-parameter check of `find_tracking_cases`, the
    blacklist list lines and their parse back to a plate text, the input
    normalisation of `add_to_blacklist`, and the day-of-week counts of the
    time analysis. The widgets are replaced by the texts typed into them. */
module SettingsDialog {
  import opened Wrappers
  import opened Text
  import opened Similarity
  import opened Settings
  import opened StoreTables
  import opened IdentityStore

  // ---------------------------------------------------------------------
  // save_settings

  /** The dialog's entries as typed, and its two check boxes. */
  datatype SettingsForm = SettingsForm(
    threads: string,
    confidence: string,
    levenshtein: string,
    ratio: string,
    trackingTime: string,
    minDetections: string,
    alertSound: bool,
    autoAnalyze: bool)

  /** The six checked entries, in the order `save_settings` checks them. */
  datatype Field = Threads | Confidence | Levenshtein | Ratio | TrackingTime | MinDetections

  function Rank(f: Field): nat {
    match f
    case Threads => 0
    case Confidence => 1
    case Levenshtein => 2
    case Ratio => 3
    case TrackingTime => 4
    case MinDetections => 5
  }

  /** The `ValueError` that stops the save: an entry `int()` or `float()`
      rejects, or a number outside its range. */
  datatype SettingsError = NotANumber(field: Field) | OutOfRange(field: Field)

  /** The six values once every check has passed. */
  datatype CheckedSettings = CheckedSettings(
    threads: int,
    confidence: real,
    levenshtein: real,
    ratio: real,
    trackingTime: int,
    minDetections: int)

  /** `os.cpu_count() or 1`: an unknown count, or zero, counts as one. */
  function CpuCount(reported: Option<nat>): (n: nat)
    ensures n >= 1
    ensures reported.Some? && reported.value > 0 ==> n == reported.value
  {
    if reported.None? || reported.value == 0 then 1 else reported.value
  }

  /** What `int()` and `float()` make of each entry: `None` where they
      raise `ValueError`. */
  datatype ParsedForm = ParsedForm(
    threads: Option<int>,
    confidence: Option<real>,
    levenshtein: Option<real>,
    ratio: Option<real>,
    trackingTime: Option<int>,
    minDetections: Option<int>)

  /** `int()` for the thread count and the tracking fields, `float()` for
      the others. */
  function ParseForm(form: SettingsForm): ParsedForm {
    ParsedForm(ParseInt(form.threads), ParseFloat(form.confidence), ParseFloat(form.levenshtein),
               ParseFloat(form.ratio), ParseInt(form.trackingTime), ParseInt(form.minDetections))
  }

  /** The entry of a field is a number of its type. */
  predicate Parses(p: ParsedForm, f: Field) {
    match f
    case Threads => p.threads.Some?
    case Confidence => p.confidence.Some?
    case Levenshtein => p.levenshtein.Some?
    case Ratio => p.ratio.Some?
    case TrackingTime => p.trackingTime.Some?
    case MinDetections => p.minDetections.Some?
  }

  /** The entry of a field passes its check: threads in [1, 4·cpus],
      confidence in [0, 100], distance threshold in [0, 10], ratio in
      [0, 1], a positive tracking window and at least two detections. */
  predicate Accepts(p: ParsedForm, cpus: nat, f: Field) {
    Parses(p, f) &&
    match f
    case Threads => 1 <= p.threads.value <= cpus * 4
    case Confidence => 0.0 <= p.confidence.value <= 100.0
    case Levenshtein => 0.0 <= p.levenshtein.value <= 10.0
    case Ratio => 0.0 <= p.ratio.value <= 1.0
    case TrackingTime => p.trackingTime.value > 0
    case MinDetections => p.minDetections.value >= 2
  }

  /** Every field passes its check. */
  predicate AllAccepted(p: ParsedForm, cpus: nat)
    ensures AllAccepted(p, cpus) <==> forall f :: Accepts(p, cpus, f)
  {
    Accepts(p, cpus, Threads) && Accepts(p, cpus, Confidence) && Accepts(p, cpus, Levenshtein)
    && Accepts(p, cpus, Ratio) && Accepts(p, cpus, TrackingTime) && Accepts(p, cpus, MinDetections)
  }

  /** The checks of `save_settings`, one field after the other: the first
      entry that is not a number or is out of range is the error;
      otherwise the six parsed values. */
  function Validate(p: ParsedForm, cpus: nat): (r: Result<CheckedSettings, SettingsError>)
    ensures r.Ok? <==> AllAccepted(p, cpus)
    ensures r.Ok? ==> r.value == CheckedSettings(p.threads.value, p.confidence.value, p.levenshtein.value,
                                                 p.ratio.value, p.trackingTime.value, p.minDetections.value)
    ensures r.Err? ==> !Accepts(p, cpus, r.error.field)
    ensures r.Err? ==> (r.error.NotANumber? <==> !Parses(p, r.error.field))
    ensures r.Err? ==> forall g :: Rank(g) < Rank(r.error.field) ==> Accepts(p, cpus, g)
  {
    match p.threads
    case None => Err(NotANumber(Threads))
    case Some(threads) =>
      if !(1 <= threads <= cpus * 4) then Err(OutOfRange(Threads))
      else match p.confidence
      case None => Err(NotANumber(Confidence))
      case Some(confidence) =>
        if !(0.0 <= confidence <= 100.0) then Err(OutOfRange(Confidence))
        else match p.levenshtein
        case None => Err(NotANumber(Levenshtein))
        case Some(levenshtein) =>
          if !(0.0 <= levenshtein <= 10.0) then Err(OutOfRange(Levenshtein))
          else match p.ratio
          case None => Err(NotANumber(Ratio))
          case Some(ratio) =>
            if !(0.0 <= ratio <= 1.0) then Err(OutOfRange(Ratio))
            else match p.trackingTime
            case None => Err(NotANumber(TrackingTime))
            case Some(trackingTime) =>
              if trackingTime <= 0 then Err(OutOfRange(TrackingTime))
              else match p.minDetections
              case None => Err(NotANumber(MinDetections))
              case Some(minDetections) =>
                if minDetections < 2 then Err(OutOfRange(MinDetections))
                else Ok(CheckedSettings(threads, confidence, levenshtein, ratio, trackingTime, minDetections))
  }

  /** The checks run on the dialog's entries with the machine's CPU count. */
  function ValidateSettings(form: SettingsForm, reported: Option<nat>): Result<CheckedSettings, SettingsError> {
    Validate(ParseForm(form), CpuCount(reported))
  }

  /** `str(b)` for a Python `bool`. */
  function BoolText(b: bool): string {
    if b then "True" else "False"
  }

  /** The settings table after the writes of `save_settings` as written:
      every value, the check boxes included, is handed to `set_setting` as
      text, so every row gets the tag "string". */
  function StoredAsText(settings: map<string, StoredSetting>, form: SettingsForm): map<string, StoredSetting> {
    settings["threads" := EncodeSetting(PyStr(form.threads))]
            ["min_confidence" := EncodeSetting(PyStr(form.confidence))]
            ["alert_sound" := EncodeSetting(PyStr(BoolText(form.alertSound)))]
            ["levenshtein_threshold" := EncodeSetting(PyStr(form.levenshtein))]
            ["similarity_ratio" := EncodeSetting(PyStr(form.ratio))]
            ["tracking_time_threshold" := EncodeSetting(PyStr(form.trackingTime))]
            ["min_tracking_detections" := EncodeSetting(PyStr(form.minDetections))]
            ["auto_analyze_similar" := EncodeSetting(PyStr(BoolText(form.autoAnalyze)))]
  }

  /** `save_settings` as written: all checks first, then eight writes of
      the entries' texts. */
  method SaveSettingsAsWritten(db: Store, form: SettingsForm, reported: Option<nat>)
    returns (r: Result<CheckedSettings, SettingsError>)
    modifies db
    ensures r == ValidateSettings(form, reported)
    ensures r.Err? ==> db.settings == old(db.settings)
    ensures r.Ok? ==> db.settings == StoredAsText(old(db.settings), form)
    ensures db.plates == old(db.plates) && db.detections == old(db.detections) && db.blacklist == old(db.blacklist)
    ensures db.similarPairs == old(db.similarPairs)
    ensures db.nextPlateId == old(db.nextPlateId) && db.nextDetectionId == old(db.nextDetectionId)
  {
    r := ValidateSettings(form, reported);
    if r.Err? {
      return;
    }
    db.SetSetting("threads", PyStr(form.threads));
    db.SetSetting("min_confidence", PyStr(form.confidence));
    db.SetSetting("alert_sound", PyStr(BoolText(form.alertSound)));
    db.SetSetting("levenshtein_threshold", PyStr(form.levenshtein));
    db.SetSetting("similarity_ratio", PyStr(form.ratio));
    db.SetSetting("tracking_time_threshold", PyStr(form.trackingTime));
    db.SetSetting("min_tracking_detections", PyStr(form.minDetections));
    db.SetSetting("auto_analyze_similar", PyStr(BoolText(form.autoAnalyze)));
  }

  /** After a save as written, the store's similarity check can no longer
      read its thresholds as numbers: both come back as text, and comparing
      a distance with text raises `TypeError`. */
  lemma SavedAsTextLosesThresholds(settings: map<string, StoredSetting>, form: SettingsForm)
    ensures SettingThresholds(StoredAsText(settings, form)) == None
  {
    var m := StoredAsText(settings, form);
    assert m["levenshtein_threshold"] == StoredSetting(Some(form.levenshtein), "string");
  }

  /** After a save as written with the alert sound switched off, the alert
      setting reads back as the text "False", which is truthy, so
      `if get_setting('alert_sound', True):` still plays the alert. */
  lemma SavedAlertOffStillSounds(settings: map<string, StoredSetting>, form: SettingsForm)
    requires !form.alertSound
    ensures ReadSetting(StoredAsText(settings, form), "alert_sound", SBool(true)) == SStr("False")
    ensures Truthy(ReadSetting(StoredAsText(settings, form), "alert_sound", SBool(true)))
  {
    var m := StoredAsText(settings, form);
    assert m["alert_sound"] == StoredSetting(Some("False"), "string");
  }

  /** The settings table after a save that hands `set_setting` the checked
      values with their types: the whole numbers as `int`, the others as
      `float` (stored with the text they were typed as, which reads back as
      the same float), the check boxes as `bool`. */
  function StoredTyped(settings: map<string, StoredSetting>, form: SettingsForm, v: CheckedSettings): map<string, StoredSetting> {
    settings["threads" := EncodeSetting(PyInt(v.threads))]
            ["min_confidence" := EncodeSetting(PyFloat(v.confidence, form.confidence))]
            ["alert_sound" := EncodeSetting(PyBool(form.alertSound))]
            ["levenshtein_threshold" := EncodeSetting(PyFloat(v.levenshtein, form.levenshtein))]
            ["similarity_ratio" := EncodeSetting(PyFloat(v.ratio, form.ratio))]
            ["tracking_time_threshold" := EncodeSetting(PyInt(v.trackingTime))]
            ["min_tracking_detections" := EncodeSetting(PyInt(v.minDetections))]
            ["auto_analyze_similar" := EncodeSetting(PyBool(form.autoAnalyze))]
  }

  /** `save_settings` with typed writes: the same checks, then the checked
      values stored with their types. */
  method SaveSettings(db: Store, form: SettingsForm, reported: Option<nat>)
    returns (r: Result<CheckedSettings, SettingsError>)
    modifies db
    ensures r == ValidateSettings(form, reported)
    ensures r.Err? ==> db.settings == old(db.settings)
    ensures r.Ok? ==> db.settings == StoredTyped(old(db.settings), form, r.value)
    ensures db.plates == old(db.plates) && db.detections == old(db.detections) && db.blacklist == old(db.blacklist)
    ensures db.similarPairs == old(db.similarPairs)
    ensures db.nextPlateId == old(db.nextPlateId) && db.nextDetectionId == old(db.nextDetectionId)
  {
    r := ValidateSettings(form, reported);
    if r.Err? {
      return;
    }
    var v := r.value;
    db.SetSetting("threads", PyInt(v.threads));
    db.SetSetting("min_confidence", PyFloat(v.confidence, form.confidence));
    db.SetSetting("alert_sound", PyBool(form.alertSound));
    db.SetSetting("levenshtein_threshold", PyFloat(v.levenshtein, form.levenshtein));
    db.SetSetting("similarity_ratio", PyFloat(v.ratio, form.ratio));
    db.SetSetting("tracking_time_threshold", PyInt(v.trackingTime));
    db.SetSetting("min_tracking_detections", PyInt(v.minDetections));
    db.SetSetting("auto_analyze_similar", PyBool(form.autoAnalyze));
  }

  /** A row holding an encoded value reads back as that value. */
  lemma StoredReadsBack(m: map<string, StoredSetting>, name: string, v: PyValue, default: SettingValue)
    requires name in m && m[name] == EncodeSetting(v) && ReprRoundTrips(v)
    ensures ReadSetting(m, name, default) == Reading(v)
  {
    SettingRoundTrip(v);
  }

  /** After a typed save the store's similarity check gets the saved
      thresholds. */
  lemma TypedSaveThresholds(settings: map<string, StoredSetting>, form: SettingsForm, v: CheckedSettings)
    requires ParseFloat(form.levenshtein) == Some(v.levenshtein) && ParseFloat(form.ratio) == Some(v.ratio)
    ensures SettingThresholds(StoredTyped(settings, form, v)) == Some(Thresholds(v.levenshtein, v.ratio))
  {
    TypedThresholdRows(settings, form, v);
    ThresholdsOfFloatRows(StoredTyped(settings, form, v), PyFloat(v.levenshtein, form.levenshtein), PyFloat(v.ratio, form.ratio));
  }

  /** The two threshold rows a typed save writes. */
  lemma TypedThresholdRows(settings: map<string, StoredSetting>, form: SettingsForm, v: CheckedSettings)
    ensures var m := StoredTyped(settings, form, v);
      "levenshtein_threshold" in m && m["levenshtein_threshold"] == EncodeSetting(PyFloat(v.levenshtein, form.levenshtein))
      && "similarity_ratio" in m && m["similarity_ratio"] == EncodeSetting(PyFloat(v.ratio, form.ratio))
  {
  }

  /** Two float rows that read back give the thresholds they hold. */
  lemma ThresholdsOfFloatRows(m: map<string, StoredSetting>, d: PyValue, q: PyValue)
    requires d.PyFloat? && q.PyFloat? && ReprRoundTrips(d) && ReprRoundTrips(q)
    requires "levenshtein_threshold" in m && m["levenshtein_threshold"] == EncodeSetting(d)
    requires "similarity_ratio" in m && m["similarity_ratio"] == EncodeSetting(q)
    ensures SettingThresholds(m) == Some(Thresholds(d.f, q.f))
  {
    StoredReadsBack(m, "levenshtein_threshold", d, SFloat(2.0));
    StoredReadsBack(m, "similarity_ratio", q, SFloat(0.8));
  }

  /** After a typed save the whole numbers read back as those numbers and
      each check box reads back truthy exactly when it was ticked. */
  lemma TypedSaveReadsBack(settings: map<string, StoredSetting>, form: SettingsForm, v: CheckedSettings)
    ensures var m := StoredTyped(settings, form, v);
      ReadSetting(m, "threads", SNone) == SInt(v.threads)
      && ReadSetting(m, "tracking_time_threshold", SNone) == SInt(v.trackingTime)
      && ReadSetting(m, "min_tracking_detections", SNone) == SInt(v.minDetections)
      && (Truthy(ReadSetting(m, "alert_sound", SBool(true))) <==> form.alertSound)
      && (Truthy(ReadSetting(m, "auto_analyze_similar", SBool(false))) <==> form.autoAnalyze)
  {
    var m := StoredTyped(settings, form, v);
    assert m["threads"] == EncodeSetting(PyInt(v.threads));
    assert m["tracking_time_threshold"] == EncodeSetting(PyInt(v.trackingTime));
    assert m["min_tracking_detections"] == EncodeSetting(PyInt(v.minDetections));
    assert m["alert_sound"] == EncodeSetting(PyBool(form.alertSound));
    assert m["auto_analyze_similar"] == EncodeSetting(PyBool(form.autoAnalyze));
    StoredReadsBack(m, "threads", PyInt(v.threads), SNone);
    StoredReadsBack(m, "tracking_time_threshold", PyInt(v.trackingTime), SNone);
    StoredReadsBack(m, "min_tracking_detections", PyInt(v.minDetections), SNone);
    StoredReadsBack(m, "alert_sound", PyBool(form.alertSound), SBool(true));
    StoredReadsBack(m, "auto_analyze_similar", PyBool(form.autoAnalyze), SBool(false));
  }

  // ---------------------------------------------------------------------
  // find_tracking_cases

  /** The entry checks of `find_tracking_cases`, on what `int()` made of
      its two entries: both must be numbers, the window positive and the
      detection count at least two; otherwise one `ValueError` (`None`). */
  function ValidateTrackingParams(trackingTime: Option<int>, minDetections: Option<int>): (r: Option<(int, int)>)
    ensures r.Some? ==> r.value.0 > 0 && r.value.1 >= 2
    ensures r.Some? ==> trackingTime == Some(r.value.0) && minDetections == Some(r.value.1)
  {
    match trackingTime
    case None => None
    case Some(t) =>
      match minDetections
      case None => None
      case Some(m) =>
        if t <= 0 || m < 2 then None else Some((t, m))
  }

  /** The analysis accepts exactly the tracking entries the save accepts. */
  lemma TrackingChecksAgree(p: ParsedForm, cpus: nat)
    ensures ValidateTrackingParams(p.trackingTime, p.minDetections).Some?
            <==> Accepts(p, cpus, TrackingTime) && Accepts(p, cpus, MinDetections)
  {
  }

  // ---------------------------------------------------------------------
  // Blacklist list lines

  /** A list line: "PLATE - REASON (LEVEL)". */
  function FormatEntry(e: BlacklistEntry): string {
    e.text + " - " + e.reason + " (" + e.dangerLevel + ")"
  }

  /** `item_text.split(" - ")[0].strip()`. */
  function ParseEntry(item: string): (r: string)
    ensures |r| <= |item|
  {
    Strip(SplitHead(item, " - "))
  }

  /** A line parses back to its plate text when that text is stripped and
      neither contains " - " nor ends in " -". */
  lemma EntryRoundTrip(e: BlacklistEntry)
    requires Strip(e.text) == e.text && !Contains(e.text + " -", " - ")
    ensures ParseEntry(FormatEntry(e)) == e.text
  {
    var sep := " - ";
    assert sep[..|sep| - 1] == " -";
    var rest := e.reason + " (" + e.dangerLevel + ")";
    assert FormatEntry(e) == e.text + sep + rest;
    SplitHeadOfJoin(e.text, sep, rest);
  }

  /** The lines the dialog means to show: one per entry, in the store's
      text order. */
  function BlacklistLines(bl: seq<BlacklistEntry>): (r: seq<string>)
    ensures |r| == |bl|
    ensures forall k :: 0 <= k < |bl| ==> r[k] == FormatEntry(bl[k])
  {
    seq(|bl|, k requires 0 <= k < |bl| => FormatEntry(bl[k]))
  }

  /** Removing the selected line removes the entry it shows. */
  lemma SelectedLineNamesEntry(bl: seq<BlacklistEntry>, k: nat)
    requires k < |bl| && Strip(bl[k].text) == bl[k].text && !Contains(bl[k].text + " -", " - ")
    ensures ParseEntry(BlacklistLines(bl)[k]) == bl[k].text
  {
    EntryRoundTrip(bl[k]);
  }

  /** `refresh_blacklist` as written: the rows of `get_blacklist` are
      `sqlite3.Row` objects, which have no `get` method, so the first row
      raises `AttributeError` and the handler shows one error line
      instead. */
  function BlacklistLinesAsWritten(bl: seq<BlacklistEntry>): (r: seq<string>)
    ensures |bl| == 0 <==> r == []
    ensures |bl| > 0 ==> r == ["Error loading blacklist."]
  {
    if |bl| == 0 then [] else ["Error loading blacklist."]
  }

  /** Listed as written, a non-empty blacklist never shows its entries:
      the one line shown is not the line of any entry (those end in ")"). */
  lemma ListedAsWrittenHidesEntries(bl: seq<BlacklistEntry>)
    requires |bl| > 0
    ensures BlacklistLinesAsWritten(bl) != BlacklistLines(bl)
    ensures forall e :: e in bl ==> FormatEntry(e) !in BlacklistLinesAsWritten(bl)
  {
    var line := "Error loading blacklist.";
    assert line[|line| - 1] == '.';
    forall e | e in bl ensures FormatEntry(e) != line {
      var f := FormatEntry(e);
      assert f[|f| - 1] == ')';
    }
    assert BlacklistLines(bl)[0] == FormatEntry(bl[0]);
  }

  // ---------------------------------------------------------------------
  // add_to_blacklist input

  /** The plate text `add_to_blacklist` goes on with: `None` when the
      prompt was cancelled or the text is empty or whitespace only,
      otherwise the text stripped and upper-cased. */
  function NormalizeInput(raw: Option<string>): (r: Option<string>)
    ensures r.None? <==> raw.None? || |Strip(raw.value)| == 0
  {
    if raw.None? || |Strip(raw.value)| == 0 then None else Some(Upper(Strip(raw.value)))
  }

  /** The text kept is non-empty, starts and ends with a non-blank and has
      no lower-case letter. */
  lemma NormalizedShape(raw: Option<string>)
    requires NormalizeInput(raw).Some?
    ensures var t := NormalizeInput(raw).value;
      |t| > 0 && !IsSpace(t[0]) && !IsSpace(t[|t| - 1]) && forall i :: 0 <= i < |t| ==> !('a' <= t[i] <= 'z')
  {
    UpperKeepsEnds(Strip(raw.value));
  }

  /** Upper-casing leaves no lower-case letter and keeps a text's ends
      non-blank. */
  lemma UpperKeepsEnds(t: string)
    requires |t| > 0 && !IsSpace(t[0]) && !IsSpace(t[|t| - 1])
    ensures var u := Upper(t);
      !IsSpace(u[0]) && !IsSpace(u[|u| - 1]) && forall i :: 0 <= i < |u| ==> !('a' <= u[i] <= 'z')
  {
    var u := Upper(t);
    UpperCharSpace(t[0]);
    UpperCharSpace(t[|t| - 1]);
    forall i | 0 <= i < |u| ensures !('a' <= u[i] <= 'z') {
      UpperCharSpace(t[i]);
    }
  }

  /** An upper-cased character is no lower-case letter, and is blank
      exactly when the character was. */
  lemma UpperCharSpace(c: char)
    ensures !('a' <= UpperChar(c) <= 'z')
    ensures IsSpace(UpperChar(c)) <==> IsSpace(c)
  {
    if 'a' <= c <= 'z' {
      assert 'A' <= UpperChar(c) <= 'Z';
    }
  }

  /** Normalising a normalised text changes nothing. */
  lemma NormalizeIdempotent(raw: Option<string>)
    requires NormalizeInput(raw).Some?
    ensures NormalizeInput(NormalizeInput(raw)) == NormalizeInput(raw)
  {
    var t := NormalizeInput(raw).value;
    NormalizedShape(raw);
    assert TrimStart(t) == t;
    assert TrimEnd(t) == t;
    assert Upper(t) == t by {
      forall i | 0 <= i < |t| ensures Upper(t)[i] == t[i] {
      }
    }
  }

  // ---------------------------------------------------------------------
  // Detections by day of week

  /** A row of the day-of-week query: `strftime('%w')` (0 = Sunday) and a
      count. */
  datatype DayRow = DayRow(day: int, count: nat)

  /** `day_counts.get(d, 0)` for `day_counts = {row['day']: row['count']}`:
      the last row for the day, or 0. */
  function DayCount(rows: seq<DayRow>, d: int): (c: nat)
    ensures (forall k :: 0 <= k < |rows| ==> rows[k].day != d) ==> c == 0
  {
    if |rows| == 0 then 0
    else if rows[|rows| - 1].day == d then rows[|rows| - 1].count
    else DayCount(rows[..|rows| - 1], d)
  }

  /** The seven counts the report lists, Sunday to Saturday. */
  function WeekCounts(rows: seq<DayRow>): (r: seq<nat>)
    ensures |r| == 7
    ensures forall d :: 0 <= d < 7 ==> r[d] == DayCount(rows, d)
  {
    seq(7, d requires 0 <= d < 7 => DayCount(rows, d))
  }

  /** A day the query returned shows the count of its last row; the days
      it did not return show 0. */
  lemma {:induction false} WeekCountsOfRows(rows: seq<DayRow>, k: nat)
    requires k < |rows| && 0 <= rows[k].day < 7
    requires forall j :: k < j < |rows| ==> rows[j].day != rows[k].day
    ensures WeekCounts(rows)[rows[k].day] == rows[k].count
    decreases |rows|
  {
    var n := |rows| - 1;
    if k < n {
      WeekCountsOfRows(rows[..n], k);
    }
  }
}
