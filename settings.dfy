/** The typed settings table of database.py: each setting is stored as text
    with a type tag, `set_setting` chooses the tag from the Python type of the
    value, and `_convert_setting_value` reads the text back by its tag. */
module Settings {
  import opened Wrappers
  import opened Text

  /** A row of the settings table: the text (NULL possible) and its tag. */
  datatype StoredSetting = StoredSetting(value: Option<string>, tag: string)

  /** What `get_setting` hands back: `None`, `int`, `float`, `bool` or `str`. */
  datatype SettingValue = SNone | SInt(i: int) | SFloat(f: real) | SBool(b: bool) | SStr(s: string)

  /** A Python value given to `set_setting`. A `float` carries the text
      `str()` gives it (Python's shortest round-trip repr), since float
      formatting is not part of this model. */
  datatype PyValue = PyBool(b: bool) | PyInt(i: int) | PyFloat(f: real, repr: string) | PyStr(s: string)

  /** A float's text reads back as that float, as Python's repr does. */
  predicate ReprRoundTrips(v: PyValue) {
    v.PyFloat? ==> ParseFloat(v.repr) == Some(v.f)
  }

  /** `_convert_setting_value(value, type_)`: `int(value)` for "integer",
      `float(value)` for "float", `value.lower() == 'true'` for "boolean", the
      text itself for any other tag; a failed conversion returns the raw text. */
  function ConvertSettingValue(value: Option<string>, tag: string): (r: SettingValue)
    ensures value.None? <==> r.SNone?
    ensures r.SStr? ==> value == Some(r.s)
    ensures r.SInt? ==> tag == "integer" && ParseInt(value.value) == Some(r.i)
    ensures r.SFloat? ==> tag == "float" && ParseFloat(value.value) == Some(r.f)
    ensures r.SBool? <==> tag == "boolean" && value.Some?
    ensures tag == "boolean" && value.Some? ==> r == SBool(Lower(value.value) == "true")
    ensures tag == "integer" && value.Some? && ParseInt(value.value).None? ==> r == SStr(value.value)
    ensures tag == "float" && value.Some? && ParseFloat(value.value).None? ==> r == SStr(value.value)
  {
    match value
    case None => SNone
    case Some(v) =>
      if tag == "integer" then
        (match ParseInt(v) case Some(i) => SInt(i) case None => SStr(v))
      else if tag == "float" then
        (match ParseFloat(v) case Some(f) => SFloat(f) case None => SStr(v))
      else if tag == "boolean" then SBool(Lower(v) == "true")
      else SStr(v)
  }

  /** `set_setting(sn, sv)`'s row: `bool` is checked before `int` (a Python
      `bool` is also an `int`), then `float`, and every other value is
      stored as text with the tag "string". */
  function EncodeSetting(v: PyValue): (r: StoredSetting)
    ensures r.value.Some?
    ensures v.PyBool? <==> r.tag == "boolean"
    ensures v.PyInt? <==> r.tag == "integer"
    ensures v.PyFloat? <==> r.tag == "float"
    ensures v.PyStr? <==> r.tag == "string"
  {
    match v
    case PyBool(b) => StoredSetting(Some(if b then "true" else "false"), "boolean")
    case PyInt(i) => StoredSetting(Some(IntToString(i)), "integer")
    case PyFloat(_, repr) => StoredSetting(Some(repr), "float")
    case PyStr(s) => StoredSetting(Some(s), "string")
  }

  /** The value a stored Python value should read back as. */
  function Reading(v: PyValue): SettingValue {
    match v
    case PyBool(b) => SBool(b)
    case PyInt(i) => SInt(i)
    case PyFloat(f, _) => SFloat(f)
    case PyStr(s) => SStr(s)
  }

  /** Storing a value and reading it back gives the same value, of the same
      type. */
  lemma SettingRoundTrip(v: PyValue)
    requires ReprRoundTrips(v)
    ensures var r := EncodeSetting(v); ConvertSettingValue(r.value, r.tag) == Reading(v)
  {
    match v
    case PyBool(b) =>
      assert Lower("true") == "true";
      assert Lower("false")[0] == 'f';
    case PyInt(i) =>
      ParseIntRoundTrip(i);
    case PyFloat(_, _) =>
    case PyStr(s) =>
  }

  /** Python truthiness of a setting value (`if value:`). */
  predicate Truthy(v: SettingValue) {
    match v
    case SNone => false
    case SInt(i) => i != 0
    case SFloat(f) => f != 0.0
    case SBool(b) => b
    case SStr(s) => |s| > 0
  }

  /** The number a setting value stands for in a comparison with a number;
      `None` where Python raises `TypeError` (text and `None`). */
  function NumericValue(v: SettingValue): (r: Option<real>)
    ensures r.None? <==> v.SNone? || v.SStr?
  {
    match v
    case SNone => None
    case SInt(i) => Some(i as real)
    case SFloat(f) => Some(f)
    case SBool(b) => Some(if b then 1.0 else 0.0)
    case SStr(_) => None
  }

  /** Any non-empty text is truthy, "False" included: a boolean stored as
      text with the tag "string" no longer reads back false. */
  lemma TextFalseIsTruthy()
    ensures ConvertSettingValue(Some("False"), "string") == SStr("False")
    ensures Truthy(ConvertSettingValue(Some("False"), "string"))
    ensures ConvertSettingValue(Some("False"), "boolean") == SBool(false)
  {
    assert Lower("False")[0] == 'f';
  }

  /** The rows `_init_db` seeds. */
  function DefaultSettings(): (m: map<string, StoredSetting>)
    ensures "levenshtein_threshold" in m && "similarity_ratio" in m && "min_confidence" in m
  {
    map[
      "threads" := StoredSetting(Some("4"), "integer"),
      "min_confidence" := StoredSetting(Some("50"), "float"),
      "save_blacklist_matches" := StoredSetting(Some("true"), "boolean"),
      "alert_sound" := StoredSetting(Some("true"), "boolean"),
      "levenshtein_threshold" := StoredSetting(Some("2"), "float"),
      "similarity_ratio" := StoredSetting(Some("0.8"), "float"),
      "tracking_time_threshold" := StoredSetting(Some("300"), "integer"),
      "min_tracking_detections" := StoredSetting(Some("3"), "integer"),
      "auto_analyze_similar" := StoredSetting(Some("false"), "boolean")
    ]
  }

  /** `get_setting(sn, default)` without its one write: the stored value
      converted by its tag, or the default when the row is missing. */
  function ReadSetting(settings: map<string, StoredSetting>, name: string, default: SettingValue): (r: SettingValue)
    ensures name !in settings ==> r == default
    ensures name in settings ==> r == ConvertSettingValue(settings[name].value, settings[name].tag)
  {
    if name in settings then ConvertSettingValue(settings[name].value, settings[name].tag) else default
  }

  /** The seeded similarity thresholds read as the numbers 2 and 0.8. */
  lemma DefaultThresholdSettings()
    ensures ReadSetting(DefaultSettings(), "levenshtein_threshold", SFloat(2.0)) == SFloat(2.0)
    ensures ReadSetting(DefaultSettings(), "similarity_ratio", SFloat(0.8)) == SFloat(0.8)
  {
    var m := DefaultSettings();
    assert m["levenshtein_threshold"] == StoredSetting(Some("2"), "float");
    assert m["similarity_ratio"] == StoredSetting(Some("0.8"), "float");
    FloatTextExamples();
  }

  lemma FloatTextExamples()
    ensures ParseFloat("2") == Some(2.0)
    ensures ParseFloat("0.8") == Some(0.8)
  {
    FloatTextTwo("2");
    FloatTextEight("0.8");
  }

  lemma FloatTextTwo(t: string)
    requires t == "2"
    ensures ParseFloat(t) == Some(2.0)
  {
    assert ParseUnsignedDecimal(t) == Some(2.0) by {
      assert IndexOf(t, '.') == None;
      assert t[..0] == [];
      assert DigitsValue(t) == 2;
    }
    assert Strip(t) == t by {
      StripNoSpace(t);
    }
  }

  lemma FloatTextEight(t: string)
    requires t == "0.8"
    ensures ParseFloat(t) == Some(0.8)
  {
    assert ParseUnsignedDecimal(t) == Some(0.8) by {
      assert IndexOf(t, '.') == Some(1);
      var ip, fp := t[..1], t[2..];
      assert ip == "0" && fp == "8";
      assert ip[..0] == [] && fp[..0] == [];
      assert fp[0] == '8' && DigitValue('8') == 8;
      assert DigitsValue(ip) == 0 && DigitsValue(fp) == 8;
      assert Pow10(1) == 10;
    }
    assert Strip(t) == t by {
      StripNoSpace(t);
    }
  }
}
