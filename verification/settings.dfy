/**
 * How an instance's settings are composed: the DEFAULTS, then the caller's
 * options, then the element's data attributes, later ones winning, with
 * null data values removed first.  The two implementations differ only in
 * how they read a data attribute.
 */
module Settings {
  import opened JsValues
  import opened Helpers

  /** The plain `Parallax` class, or the jQuery/Zepto `Plugin`. */
  datatype Variant = Standalone | JQuery

  /** The DEFAULTS object. */
  function Defaults(): map<string, Value> {
    map[
      "calibrationThreshold" := Num(100.0),
      "calibrationDelay" := Num(500.0),
      "supportDelay" := Num(500.0),
      "calibrateX" := Bool(false),
      "calibrateY" := Bool(true),
      "invertX" := Bool(true),
      "invertY" := Bool(true),
      "limitX" := Bool(false),
      "limitY" := Bool(false),
      "scalarX" := Num(10.0),
      "scalarY" := Num(10.0),
      "frictionX" := Num(0.1),
      "frictionY" := Num(0.1),
      "headtrackr" := Bool(false),
      "headtrackrDisplayVideo" := Bool(false),
      "headtrackrDebugView" := Bool(false),
      "headtrackrScalarX" := Num(3.0),
      "headtrackrScalarY" := Num(3.0)
    ]
  }

  /**
   * The jQuery plugin's reading of a data value: `x || null`, or
   * `parseFloat(x) || null` for the numeric settings.  Falsy results become
   * null and so are later deleted.
   */
  function JQueryRead(raw: Value, numeric: bool): (r: Value)
    ensures r == Null || Truthy(r)
    ensures !numeric && Truthy(raw) ==> r == raw
    ensures !numeric && !Truthy(raw) ==> r == Null
    ensures numeric ==> r == Null || (r.Num? && ParseFloat(raw) == Some(r.n))
    ensures numeric && ParseFloat(raw).Some? && ParseFloat(raw).value != 0.0 ==> r == Num(ParseFloat(raw).value)
    ensures numeric && (ParseFloat(raw).None? || ParseFloat(raw).value == 0.0) ==> r == Null
  {
    if numeric then
      match ParseFloat(raw)
      case Some(n) => if n != 0.0 then Num(n) else Null
      case None => Null
    else if Truthy(raw) then raw else Null
  }

  /** The value one entry of the data object gets from the attribute `data-<name>`. */
  function DataValue(variant: Variant, attributes: map<string, string>, name: string, numeric: bool): (r: Value)
    ensures variant == Standalone ==> r == ReadAttribute(attributes, name)
    ensures variant == JQuery ==> r == JQueryRead(ReadAttribute(attributes, name), numeric)
    ensures variant == JQuery ==> r == Null || Truthy(r)
  {
    var raw := ReadAttribute(attributes, name);
    if variant == Standalone then raw else JQueryRead(raw, numeric)
  }

  /** The settings an element's data attributes can give. */
  function DataKeys(): set<string> {
    {"calibrateX", "calibrateY", "invertX", "invertY", "limitX", "limitY",
     "scalarX", "scalarY", "frictionX", "frictionY", "headtrackr",
     "headtrackrDisplayVideo", "headtrackrDebugView", "headtrackrScalarX", "headtrackrScalarY"}
  }

  /**
   * For a data setting, the attribute it is read from (without the `data-`
   * prefix) and whether the jQuery plugin reads it with `parseFloat`.
   */
  function DataAttribute(key: string): (r: Option<(string, bool)>)
    ensures r.Some? <==> key in DataKeys()
  {
    match key
    case "calibrateX" => Some(("calibrate-x", false))
    case "calibrateY" => Some(("calibrate-y", false))
    case "invertX" => Some(("invert-x", false))
    case "invertY" => Some(("invert-y", false))
    case "limitX" => Some(("limit-x", true))
    case "limitY" => Some(("limit-y", true))
    case "scalarX" => Some(("scalar-x", true))
    case "scalarY" => Some(("scalar-y", true))
    case "frictionX" => Some(("friction-x", true))
    case "frictionY" => Some(("friction-y", true))
    case "headtrackr" => Some(("headtrackr", false))
    case "headtrackrDisplayVideo" => Some(("headtrackr-display-video", false))
    case "headtrackrDebugView" => Some(("headtrackr-debug-view", false))
    case "headtrackrScalarX" => Some(("headtrackr-scalar-x", true))
    case "headtrackrScalarY" => Some(("headtrackr-scalar-y", true))
    case _ => None
  }

  /** The data object built from the element's attributes. */
  function ExtractData(variant: Variant, attributes: map<string, string>): (r: map<string, Value>)
    ensures r.Keys == DataKeys()
    ensures forall key | key in r ::
      DataAttribute(key).Some? && r[key] == DataValue(variant, attributes, DataAttribute(key).value.0, DataAttribute(key).value.1)
  {
    map key | key in DataKeys() ::
      DataValue(variant, attributes, DataAttribute(key).value.0, DataAttribute(key).value.1)
  }

  /**
   * Each attribute name is its key written with hyphens: camelCase turns it
   * back into the key.
   */
  lemma AttributeNames(key: string)
    requires key in DataKeys()
    ensures DataAttribute(key).Some? && CamelCase(DataAttribute(key).value.0) == key
  {
    if key in {"calibrateX", "calibrateY", "invertX", "invertY"} {
      SwitchAttributeNames(key);
    } else if key in {"limitX", "limitY", "scalarX", "scalarY", "frictionX", "frictionY"} {
      MotionAttributeNames(key);
    } else if key == "headtrackr" {
      CamelCaseIdentity(DataAttribute(key).value.0);
    } else if key == "headtrackrDisplayVideo" {
      DisplayVideoAttributeName(key);
    } else if key == "headtrackrDebugView" {
      DebugViewAttributeName(key);
    } else {
      HeadtrackrScalarAttributeNames(key);
    }
  }

  /** `AttributeNames` for the calibration and inversion switches. */
  lemma SwitchAttributeNames(key: string)
    requires key in {"calibrateX", "calibrateY", "invertX", "invertY"}
    ensures DataAttribute(key).Some? && CamelCase(DataAttribute(key).value.0) == key
  {
    var name := DataAttribute(key).value.0;
    match key
    case "calibrateX" => HyphenWord("calibrate", "x", name, key);
    case "calibrateY" => HyphenWord("calibrate", "y", name, key);
    case "invertX" => HyphenWord("invert", "x", name, key);
    case "invertY" => HyphenWord("invert", "y", name, key);
  }

  /** `AttributeNames` for the limits, scalars and frictions. */
  lemma MotionAttributeNames(key: string)
    requires key in {"limitX", "limitY", "scalarX", "scalarY", "frictionX", "frictionY"}
    ensures DataAttribute(key).Some? && CamelCase(DataAttribute(key).value.0) == key
  {
    var name := DataAttribute(key).value.0;
    match key
    case "limitX" => HyphenWord("limit", "x", name, key);
    case "limitY" => HyphenWord("limit", "y", name, key);
    case "scalarX" => HyphenWord("scalar", "x", name, key);
    case "scalarY" => HyphenWord("scalar", "y", name, key);
    case "frictionX" => HyphenWord("friction", "x", name, key);
    case "frictionY" => HyphenWord("friction", "y", name, key);
  }

  /** `AttributeNames` for the head-tracking video switch. */
  lemma DisplayVideoAttributeName(key: string)
    requires key == "headtrackrDisplayVideo"
    ensures DataAttribute(key).Some? && CamelCase(DataAttribute(key).value.0) == key
  {
    HyphenWords("headtrackr", "display", "video", 'D', 'V', DataAttribute(key).value.0, key);
  }

  /** `AttributeNames` for the head-tracking debug view switch. */
  lemma DebugViewAttributeName(key: string)
    requires key == "headtrackrDebugView"
    ensures DataAttribute(key).Some? && CamelCase(DataAttribute(key).value.0) == key
  {
    HyphenWords("headtrackr", "debug", "view", 'D', 'V', DataAttribute(key).value.0, key);
  }

  /** `AttributeNames` for the head-tracking scalars. */
  lemma HeadtrackrScalarAttributeNames(key: string)
    requires key in {"headtrackrScalarX", "headtrackrScalarY"}
    ensures DataAttribute(key).Some? && CamelCase(DataAttribute(key).value.0) == key
  {
    var name := DataAttribute(key).value.0;
    match key
    case "headtrackrScalarX" => HyphenWords("headtrackr", "scalar", "x", 'S', 'X', name, key);
    case "headtrackrScalarY" => HyphenWords("headtrackr", "scalar", "y", 'S', 'Y', name, key);
  }

  /** `a-b` in camelCase. */
  lemma HyphenWord(a: string, b: string, name: string, key: string)
    requires '-' !in a && '-' !in b && b != []
    requires name == a + "-" + b && key == a + [RunEnd(b[0])] + b[1..]
    ensures CamelCase(name) == key
  {
    assert Hyphens(1) == "-";
    CamelCaseJoin(a, 1, b);
  }

  /** `a-b-c` in camelCase, `u` and `v` being the first letters of `b` and `c` upper-cased. */
  lemma HyphenWords(a: string, b: string, c: string, u: char, v: char, name: string, key: string)
    requires '-' !in a && '-' !in b && '-' !in c && b != [] && c != []
    requires u == RunEnd(b[0]) && v == RunEnd(c[0])
    requires name == a + "-" + b + "-" + c
    requires key == a + [u] + b[1..] + [v] + c[1..]
    ensures CamelCase(name) == key
  {
    var ab := a + [RunEnd(b[0])] + b[1..];
    assert Hyphens(1) == "-";
    CamelCaseJoin(a, 1, b);
    assert '-' !in ab;
    ConvertAppend(a + "-" + b, "-" + c, false);
    assert Convert("-" + c, false) == Convert(c, true);
    ConvertAfterRun(c);
    assert name == (a + "-" + b) + ("-" + c);
  }

  /** The settings of a new instance: `extend(this, DEFAULTS, options, data)` with nulls removed from data. */
  function ComposeSettings(variant: Variant, options: map<string, Value>, attributes: map<string, string>): map<string, Value> {
    Merged(map[], [Defaults(), options, NonNull(ExtractData(variant, attributes))])
  }

  /** A setting's value, `undefined` (modelled as null) when it is missing. */
  function Setting(settings: map<string, Value>, key: string): (r: Value)
    ensures key !in settings ==> r == Null
    ensures key in settings ==> r == settings[key]
  {
    if key in settings then settings[key] else Null
  }

  /**
   * Each setting comes from the data attributes when they give a non-null
   * value, else from the options, else from the defaults; a null data value
   * never overrides.
   */
  lemma SettingPrecedence(variant: Variant, options: map<string, Value>, attributes: map<string, string>, key: string)
    ensures var data := ExtractData(variant, attributes);
      var s := ComposeSettings(variant, options, attributes);
      && (key in s <==> (key in data && data[key] != Null) || key in options || key in Defaults())
      && (key in data && data[key] != Null ==> s[key] == data[key])
      && ((key !in data || data[key] == Null) && key in options ==> s[key] == options[key])
      && ((key !in data || data[key] == Null) && key !in options && key in Defaults() ==> s[key] == Defaults()[key])
  {
    MergedThree(map[], Defaults(), options, NonNull(ExtractData(variant, attributes)));
  }

  /** Every default is defined after composition, whatever the options and attributes. */
  lemma DefaultsAlwaysDefined(variant: Variant, options: map<string, Value>, attributes: map<string, string>)
    ensures Defaults().Keys <= ComposeSettings(variant, options, attributes).Keys
  {
    MergedThree(map[], Defaults(), options, NonNull(ExtractData(variant, attributes)));
  }

  /** The jQuery plugin keeps only truthy data values. */
  lemma JQueryDataIsTruthy(attributes: map<string, string>)
    ensures var data := NonNull(ExtractData(JQuery, attributes));
      forall key | key in data :: Truthy(data[key])
  {
  }

  /** An element without data attributes and no options gets exactly the defaults. */
  lemma NothingGivenMeansDefaults(variant: Variant)
    ensures ComposeSettings(variant, map[], map[]) == Defaults()
  {
    var data := ExtractData(variant, map[]);
    assert NonNull(data) == map[];
    MergedThree(map[], Defaults(), map[], map[]);
  }

  /**
   * `data-invert-x="false"` turns inversion off for the plain class, but the
   * jQuery plugin drops the falsy value and keeps the default `true`.
   */
  lemma FalseAttributeDivergence(options: map<string, Value>, attributes: map<string, string>)
    requires "invert-x" in attributes && attributes["invert-x"] == "false"
    requires "invertX" !in options
    ensures InstanceConfig(Standalone, options, attributes).invertX == Bool(false)
    ensures InstanceConfig(JQuery, options, attributes).invertX == Bool(true)
  {
    assert DataAttribute("invertX") == Some(("invert-x", false));
    assert ReadAttribute(attributes, "invert-x") == Bool(false);
    var plain := ExtractData(Standalone, attributes);
    var jq := ExtractData(JQuery, attributes);
    assert plain["invertX"] == Bool(false);
    assert jq["invertX"] == Null;
    DefaultInvertX();
    SettingPrecedence(Standalone, options, attributes, "invertX");
    SettingPrecedence(JQuery, options, attributes, "invertX");
  }

  /** Both axes are inverted by default. */
  lemma DefaultInvertX()
    ensures "invertX" in Defaults() && Defaults()["invertX"] == Bool(true)
  {
  }

  /** `data(layer, 'depth') || 0`: the depth cached for a layer. */
  function CachedDepth(layer: map<string, string>): (r: Value)
    ensures "depth" !in layer ==> r == Num(0.0)
    ensures r == Num(0.0) || Truthy(r)
    ensures "depth" in layer && IsDecimal(layer["depth"]) ==> ToNumber(r) == DecimalValue(layer["depth"])
    ensures Truthy(ReadAttribute(layer, "depth")) ==> r == ReadAttribute(layer, "depth")
    ensures !Truthy(ReadAttribute(layer, "depth")) ==> r == Num(0.0)
  {
    var v := ReadAttribute(layer, "depth");
    if Truthy(v) then v else Num(0.0)
  }

  /**
   * The settings an instance reads, one per DEFAULTS key, as `extend` leaves
   * them on the instance.
   */
  datatype Config = Config(
    calibrationThreshold: Value, calibrationDelay: Value, supportDelay: Value,
    calibrateX: Value, calibrateY: Value, invertX: Value, invertY: Value,
    limitX: Value, limitY: Value, scalarX: Value, scalarY: Value,
    frictionX: Value, frictionY: Value,
    headtrackr: Value, headtrackrDisplayVideo: Value, headtrackrDebugView: Value,
    headtrackrScalarX: Value, headtrackrScalarY: Value)

  /** The DEFAULTS keys of a settings map, read as properties. */
  function ConfigOf(m: map<string, Value>): Config {
    Config(
      Setting(m, "calibrationThreshold"), Setting(m, "calibrationDelay"), Setting(m, "supportDelay"),
      Setting(m, "calibrateX"), Setting(m, "calibrateY"), Setting(m, "invertX"), Setting(m, "invertY"),
      Setting(m, "limitX"), Setting(m, "limitY"), Setting(m, "scalarX"), Setting(m, "scalarY"),
      Setting(m, "frictionX"), Setting(m, "frictionY"),
      Setting(m, "headtrackr"), Setting(m, "headtrackrDisplayVideo"), Setting(m, "headtrackrDebugView"),
      Setting(m, "headtrackrScalarX"), Setting(m, "headtrackrScalarY"))
  }

  /** The settings a new instance starts with. */
  function InstanceConfig(variant: Variant, options: map<string, Value>, attributes: map<string, string>): Config {
    ConfigOf(ComposeSettings(variant, options, attributes))
  }

  /**
   * Reads the data attributes, deletes the null ones and extends an empty
   * object with the defaults, the options and the data, in that order.
   */
  method Compose(variant: Variant, options: map<string, Value>, attributes: map<string, string>)
    returns (config: Config)
    ensures config == InstanceConfig(variant, options, attributes)
  {
    var data := ExtractData(variant, attributes);
    var kept := DropNulls(data);
    var composed := Extend(map[], [Defaults(), options, kept]);
    config := ConfigOf(composed);
  }

  /**
   * An instance built with no options on an element without data attributes
   * holds exactly the defaults.
   */
  lemma DefaultInstance(variant: Variant)
    ensures InstanceConfig(variant, map[], map[]) == ConfigOf(Defaults())
  {
    NothingGivenMeansDefaults(variant);
  }

  /**
   * `x === undefined ? current : x`: a setter argument replaces the setting
   * when given, with `None` standing for `undefined`.
   */
  function Given(arg: Option<Value>, current: Value): (r: Value)
    ensures arg.None? ==> r == current
    ensures arg.Some? ==> r == arg.value
  {
    if arg.Some? then arg.value else current
  }
}
