/** The time helpers of utils.py: `format_time`, `calculate_time_difference`
    and `extract_timestamp_from_filename`. Instants are integer microseconds;
    durations handed to `format_time` are seconds as real numbers. */
module TimeUtil {
  import opened Wrappers
  import opened Text

  const MicrosPerSecond: int := 1000000

  // ---------------------------------------------------------------------
  // format_time

  /** Two-digit rendering, `f"{n:02d}"` for 0 <= n < 100. */
  function Pad2(n: nat): (s: string)
    requires n < 100
    ensures |s| == 2 && AllDigits(s)
  {
    [DigitChar(n / 10), DigitChar(n % 10)]
  }

  lemma Pad2Value(n: nat)
    requires n < 100
    ensures DigitsValue(Pad2(n)) == n
  {
    var s := Pad2(n);
    assert s[..1] == [DigitChar(n / 10)];
    assert s[..1][..0] == [];
    assert DigitsValue(s[..1]) == n / 10;
  }

  /** The whole minutes and the remaining whole seconds of a clamped duration. */
  function ClockParts(seconds: real): (p: (nat, nat))
    ensures p.1 < 60
    ensures seconds >= 0.0 ==>
      (60 * p.0 + p.1) as real <= seconds < (60 * p.0 + p.1 + 1) as real
    ensures seconds < 0.0 ==> p == (0, 0)
  {
    var s := if seconds < 0.0 then 0.0 else seconds;
    var m := (s / 60.0).Floor;
    var rest := s - 60.0 * m as real;
    assert 0.0 <= rest < 60.0;
    (m, rest.Floor)
  }

  /** `format_time(seconds)`: negative durations count as zero, then
      `minutes:ss`. */
  function FormatTime(seconds: real): string {
    var (m, sec) := ClockParts(seconds);
    NatToString(m) + ":" + Pad2(sec)
  }

  /** Reads `minutes:ss` back: digits, a colon, exactly two digits. */
  function ParseClock(t: string): Option<(nat, nat)> {
    match IndexOf(t, ':')
    case None => None
    case Some(i) =>
      var mm, ss := t[..i], t[i + 1..];
      if |ss| == 2 && AllDigits(ss) then
        match ParseNat(mm)
        case Some(m) => Some((m, DigitsValue(ss)))
        case None => None
      else None
  }

  /** `format_time` renders whole minutes and the seconds below 60 of the
      clamped duration, and the text reads back to them. */
  lemma FormatTimeRoundTrip(seconds: real)
    ensures var r := ParseClock(FormatTime(seconds));
      r.Some? && r.value.1 < 60 && r.value == ClockParts(seconds)
      && (seconds >= 0.0 ==>
            (60 * r.value.0 + r.value.1) as real <= seconds < (60 * r.value.0 + r.value.1 + 1) as real)
      && (seconds < 0.0 ==> r.value == (0, 0))
  {
    var (m, sec) := ClockParts(seconds);
    var ms := NatToString(m);
    var t := FormatTime(seconds);
    assert t == ms + ":" + Pad2(sec);
    assert forall k :: 0 <= k < |ms| ==> t[k] == ms[k] && t[k] != ':';
    assert t[|ms|] == ':';
    assert IndexOf(t, ':') == Some(|ms|);
    assert t[..|ms|] == ms;
    assert t[|ms| + 1..] == Pad2(sec);
    ParseNatRoundTrip(m);
    Pad2Value(sec);
  }

  /** Negative durations are shown as `0:00`. */
  lemma FormatTimeClampsNegative(seconds: real)
    requires seconds < 0.0
    ensures FormatTime(seconds) == "0:00"
  {
  }

  // ---------------------------------------------------------------------
  // calculate_time_difference

  function AbsInt(x: int): nat {
    if x < 0 then -x else x
  }

  /** The human-readable text of a difference of `us` microseconds, bucketed
      at one minute, one hour and one day (whole units, truncated). */
  function DifferenceText(us: nat): string {
    var s := us / MicrosPerSecond;
    if s < 60 then NatToString(s) + " seconds"
    else if s < 3600 then NatToString(s / 60) + " min " + NatToString(s % 60) + " sec"
    else if s < 86400 then NatToString(s / 3600) + " hours " + NatToString((s % 3600) / 60) + " min"
    else NatToString(s / 86400) + " days " + NatToString((s % 86400) / 3600) + " hours"
  }

  /** `calculate_time_difference(time1, time2)`: `(None, "Unknown")` when
      either instant is missing, otherwise the absolute difference in
      seconds and its text. */
  function CalculateTimeDifference(t1: Option<int>, t2: Option<int>): (r: (Option<real>, string))
    ensures r.0.None? <==> t1.None? || t2.None?
    ensures r.0.None? ==> r.1 == "Unknown"
    ensures r.0.Some? ==> (r.0.value >= 0.0
      && r.0.value * 1000000.0 == AbsInt(t2.value - t1.value) as real)
  {
    if t1.None? || t2.None? then (None, "Unknown")
    else
      var us := AbsInt(t2.value - t1.value);
      (Some(us as real / 1000000.0), DifferenceText(us))
  }

  /** The difference does not depend on the order of its arguments. */
  lemma TimeDifferenceSymmetric(t1: Option<int>, t2: Option<int>)
    ensures CalculateTimeDifference(t1, t2) == CalculateTimeDifference(t2, t1)
  {
  }

  /** Whole seconds below one minute are reported as seconds, and from one
      day on as days. */
  lemma TimeDifferenceBuckets(t1: int, t2: int)
    ensures var us := AbsInt(t2 - t1);
      (us < 60 * MicrosPerSecond ==>
         CalculateTimeDifference(Some(t1), Some(t2)).1 == NatToString(us / MicrosPerSecond) + " seconds")
      && (us >= 86400 * MicrosPerSecond ==>
         CalculateTimeDifference(Some(t1), Some(t2)).1
           == NatToString(us / MicrosPerSecond / 86400) + " days "
              + NatToString((us / MicrosPerSecond % 86400) / 3600) + " hours")
  {
  }

  // ---------------------------------------------------------------------
  // extract_timestamp_from_filename

  datatype DateTime = DateTime(year: int, month: int, day: int, hour: int, minute: int, second: int)

  predicate IsLeap(y: int) {
    y % 4 == 0 && (y % 100 != 0 || y % 400 == 0)
  }

  function DaysInMonth(y: int, m: int): int
    requires 1 <= m <= 12
  {
    if m == 2 then (if IsLeap(y) then 29 else 28)
    else if m == 4 || m == 6 || m == 9 || m == 11 then 30
    else 31
  }

  /** The fields `datetime` accepts: year from 1 (a four-digit year field
      cannot exceed 9999), a calendar day, and a time of day without leap
      seconds. */
  predicate ValidDateTime(d: DateTime) {
    1 <= d.year && 1 <= d.month <= 12 && 1 <= d.day <= DaysInMonth(d.year, d.month)
    && 0 <= d.hour < 24 && 0 <= d.minute < 60 && 0 <= d.second < 60
  }

  /** `YYYYMMDDHHMMSS` split into its fields. On exactly fourteen digits
      `strptime('%Y%m%d%H%M%S')` can only split the text this way, since every
      field after the year takes at most two digits. */
  function StampFields(d: string): DateTime
    requires |d| == 14 && AllDigits(d)
  {
    DateTime(DigitsValue(d[0..4]), DigitsValue(d[4..6]), DigitsValue(d[6..8]),
             DigitsValue(d[8..10]), DigitsValue(d[10..12]), DigitsValue(d[12..14]))
  }

  /** `strptime(d, '%Y%m%d%H%M%S')`, `None` where it raises. */
  function ParseStamp(d: string): (r: Option<DateTime>)
    requires |d| == 14 && AllDigits(d)
    ensures r.Some? ==> ValidDateTime(r.value)
  {
    var f := StampFields(d);
    if ValidDateTime(f) then Some(f) else None
  }

  /** `_` followed by fourteen digits and `_` starts at `i`. */
  predicate DelimitedStampAt(s: string, i: nat) {
    i + 16 <= |s| && s[i] == '_' && AllDigits(s[i + 1..i + 15]) && s[i + 15] == '_'
  }

  /** Fourteen digits start at `i`. */
  predicate DigitRunAt(s: string, i: nat) {
    i + 14 <= |s| && AllDigits(s[i..i + 14])
  }

  /** `re.search(r'_(\d{14})_', s)`: the leftmost match at or after `from`. */
  function FindDelimitedStamp(s: string, from: nat): (r: Option<nat>)
    ensures r.Some? ==> (from <= r.value && DelimitedStampAt(s, r.value)
                         && forall k :: from <= k < r.value ==> !DelimitedStampAt(s, k))
    ensures r.None? ==> forall k :: from <= k ==> !DelimitedStampAt(s, k)
    decreases |s| - from
  {
    if from + 16 > |s| then None
    else if DelimitedStampAt(s, from) then Some(from)
    else FindDelimitedStamp(s, from + 1)
  }

  /** `re.search(r'(\d{8})(\d{6})', s)`: the leftmost fourteen-digit run at
      or after `from`. */
  function FindDigitRun(s: string, from: nat): (r: Option<nat>)
    ensures r.Some? ==> (from <= r.value && DigitRunAt(s, r.value)
                         && forall k :: from <= k < r.value ==> !DigitRunAt(s, k))
    ensures r.None? ==> forall k :: from <= k ==> !DigitRunAt(s, k)
    decreases |s| - from
  {
    if from + 14 > |s| then None
    else if DigitRunAt(s, from) then Some(from)
    else FindDigitRun(s, from + 1)
  }

  /** `extract_timestamp_from_filename(filename)`: the stamp between
      underscores if there is one, else the first run of fourteen digits;
      `None` when neither is present or the first one tried is not a valid
      date (an invalid stamp between underscores raises inside the `try`,
      so the second pattern is then never tried). */
  function ExtractTimestamp(filename: string): Option<DateTime> {
    match FindDelimitedStamp(filename, 0)
    case Some(i) => ParseStamp(filename[i + 1..i + 15])
    case None =>
      match FindDigitRun(filename, 0)
      case Some(i) => ParseStamp(filename[i..i + 14])
      case None => None
  }

  /** A file name without any fourteen-digit run yields no timestamp. */
  lemma NoDigitRunNoTimestamp(filename: string)
    requires forall k: nat :: !DigitRunAt(filename, k)
    ensures ExtractTimestamp(filename) == None
  {
    forall k: nat | DelimitedStampAt(filename, k)
      ensures false
    {
      assert filename[k + 1..k + 15] == filename[k + 1..][..14];
      assert DigitRunAt(filename, k + 1);
    }
  }

  lemma DigitsValueSnoc(s: string)
    requires |s| > 0 && AllDigits(s)
    ensures DigitsValue(s) == DigitsValue(s[..|s| - 1]) * 10 + DigitValue(s[|s| - 1])
  {
  }

  lemma StampFieldsExample()
    ensures StampFields("20250226102711") == DateTime(2025, 2, 26, 10, 27, 11)
  {
    var d := "20250226102711";
    assert d[0..4] == "2025";
    assert d[4..6] == "02";
    assert d[6..8] == "26";
    assert d[8..10] == "10";
    assert d[10..12] == "27";
    assert d[12..14] == "11";
    DigitsValueSnoc("2025");
    DigitsValueSnoc("202");
    DigitsValueSnoc("20");
    assert "2025"[..3] == "202" && "202"[..2] == "20" && "20"[..1] == "2";
  }

  /** The file-name convention of the recorder, `<channel>_<stamp>_<suffix>`. */
  lemma RecorderFileNameExample()
    ensures ExtractTimestamp("00000006_20250226102711_NF.mp4")
      == Some(DateTime(2025, 2, 26, 10, 27, 11))
  {
    var s := "00000006_20250226102711_NF.mp4";
    var d := "20250226102711";
    assert s[9..23] == d;
    assert DelimitedStampAt(s, 8);
    assert forall k :: 0 <= k < 8 ==> s[k] != '_';
    assert FindDelimitedStamp(s, 0) == Some(8);
    StampFieldsExample();
    assert ValidDateTime(DateTime(2025, 2, 26, 10, 27, 11));
  }

  /** Proleptic Gregorian day number, 1 for 0001-01-01 (`date.toordinal`). */
  function Ordinal(d: DateTime): int
    requires ValidDateTime(d)
  {
    var p := d.year - 1;
    365 * p + p / 4 - p / 100 + p / 400 + DaysBeforeMonth(d.year, d.month) + d.day
  }

  function DaysBeforeMonth(y: int, m: int): int
    requires 1 <= m <= 12
  {
    if m == 1 then 0 else DaysBeforeMonth(y, m - 1) + DaysInMonth(y, m - 1)
  }

  /** A valid date and time as integer microseconds since 0001-01-01. */
  function ToMicros(d: DateTime): int
    requires ValidDateTime(d)
  {
    ((((Ordinal(d) - 1) * 24 + d.hour) * 60 + d.minute) * 60 + d.second) * MicrosPerSecond
  }
}
