/**
 * The input's settings: the Graylog configuration fields `launch` reads,
 * the poll period's conversion to milliseconds, and loading of the query
 * configuration, bundled or from a custom file.
 */
module Settings {
  import opened Outcomes
  import opened GLModel

  /** A Java `int`. */
  type Int32 = x: int | -0x8000_0000 <= x < 0x8000_0000

  const LongMax: int := 0x7fff_ffff_ffff_ffff
  const LongMin: int := -0x8000_0000_0000_0000

  /** `java.util.concurrent.TimeUnit`. */
  datatype TimeUnit = Nanoseconds | Microseconds | Milliseconds | Seconds | Minutes | Hours | Days

  /** The enum constant's name. */
  function UnitName(u: TimeUnit): string {
    match u
    case Nanoseconds => "NANOSECONDS"
    case Microseconds => "MICROSECONDS"
    case Milliseconds => "MILLISECONDS"
    case Seconds => "SECONDS"
    case Minutes => "MINUTES"
    case Hours => "HOURS"
    case Days => "DAYS"
  }

  /** `TimeUnit.valueOf(name)`: the constant of that exact name; null and unknown names throw. */
  function ParseTimeUnit(name: Option<string>): (r: Outcome<TimeUnit>)
    ensures r.Ok? ==> name == Some(UnitName(r.value))
    ensures name.None? ==> r == Thrown(NullPointer)
    ensures name.Some? && r.Thrown? ==> r.failure == IllegalArgument
  {
    if name.None? then Thrown(NullPointer)
    else if name.value == "NANOSECONDS" then Ok(Nanoseconds)
    else if name.value == "MICROSECONDS" then Ok(Microseconds)
    else if name.value == "MILLISECONDS" then Ok(Milliseconds)
    else if name.value == "SECONDS" then Ok(Seconds)
    else if name.value == "MINUTES" then Ok(Minutes)
    else if name.value == "HOURS" then Ok(Hours)
    else if name.value == "DAYS" then Ok(Days)
    else Thrown(IllegalArgument)
  }

  /** Every unit is parsed back from its own name. */
  lemma ParseUnitName(u: TimeUnit)
    ensures ParseTimeUnit(Some(UnitName(u))) == Ok(u)
  {
  }

  /** Java's `long` division, which truncates toward zero. */
  function Quot(a: int, b: int): (q: int)
    requires b > 0
    // q is the quotient rounded toward zero: q * b has the sign of a and lies within b of it
    ensures a >= 0 ==> 0 <= q * b <= a < q * b + b
    ensures a < 0 ==> q * b - b < a <= q * b <= 0
  {
    if a >= 0 then
      DivBounds(a, b);
      a / b
    else
      DivBounds(-a, b);
      -((-a) / b)
  }

  /** Euclidean division of a non-negative number: the quotient times the divisor is within the divisor below it. */
  lemma DivBounds(a: int, b: int)
    requires a >= 0 && b > 0
    ensures 0 <= (a / b) * b <= a < (a / b) * b + b
  {
    var q, r := a / b, a % b;
    assert a == q * b + r && 0 <= r < b;
    assert q >= 0;
    assert q * b >= 0;
  }

  /** `TimeUnit.x`: multiplication that saturates at the bounds of `long`. */
  function Scale(d: int, m: int): int
    requires m > 0
  {
    if d > LongMax / m then LongMax
    else if d < -(LongMax / m) then LongMin
    else d * m
  }

  /** `TimeUnit.MILLISECONDS.convert(d, u)`. */
  function ToMillis(d: int, u: TimeUnit): int {
    match u
    case Nanoseconds => Quot(d, 1_000_000)
    case Microseconds => Quot(d, 1_000)
    case Milliseconds => d
    case Seconds => Scale(d, 1_000)
    case Minutes => Scale(d, 60_000)
    case Hours => Scale(d, 3_600_000)
    case Days => Scale(d, 86_400_000)
  }

  /** How many milliseconds one unit is, for the units coarser than a millisecond. */
  function MillisPer(u: TimeUnit): int
    requires u.Milliseconds? || u.Seconds? || u.Minutes? || u.Hours? || u.Days?
  {
    match u
    case Milliseconds => 1
    case Seconds => 1_000
    case Minutes => 60_000
    case Hours => 3_600_000
    case Days => 86_400_000
  }

  /** An `int` interval never reaches the saturation bound: coarse units convert exactly. */
  lemma ExactForInt(d: Int32, u: TimeUnit)
    requires u.Milliseconds? || u.Seconds? || u.Minutes? || u.Hours? || u.Days?
    ensures ToMillis(d, u) == d * MillisPer(u)
    ensures LongMin < ToMillis(d, u) < LongMax
  {
    match u
    case Milliseconds =>
    case Seconds =>
      assert LongMax / 1_000 == 9_223_372_036_854_775;
    case Minutes =>
      assert LongMax / 60_000 == 153_722_867_280_912;
    case Hours =>
      assert LongMax / 3_600_000 == 2_562_047_788_015;
    case Days =>
      assert LongMax / 86_400_000 == 106_751_991_167;
  }

  /** The smallest interval that converts to at least one millisecond. */
  function MinPositive(u: TimeUnit): int {
    match u
    case Nanoseconds => 1_000_000
    case Microseconds => 1_000
    case _ => 1
  }

  /**
   * The period `scheduleAtFixedRate` gets is positive exactly when the
   * interval is at least one millisecond's worth of its unit.
   */
  lemma {:induction false} PeriodPositiveIff(d: Int32, u: TimeUnit)
    ensures ToMillis(d, u) > 0 <==> d >= MinPositive(u)
  {
    match u
    case Nanoseconds =>
      if d >= 1_000_000 {
        assert d / 1_000_000 >= 1;
      } else if d >= 0 {
        assert d / 1_000_000 == 0;
      }
    case Microseconds =>
      if d >= 1_000 {
        assert d / 1_000 >= 1;
      } else if d >= 0 {
        assert d / 1_000 == 0;
      }
    case Milliseconds =>
    case _ =>
      ExactForInt(d, u);
      if d >= 1 {
        assert d * MillisPer(u) >= MillisPer(u);
      } else {
        assert d * MillisPer(u) <= 0;
      }
  }

  /** The Graylog configuration fields the input reads; a text field may be missing. */
  datatype Configuration = Configuration(
    hosts: Option<string>,
    port: Int32,
    labelText: Option<string>,
    username: Option<string>,
    password: Option<string>,
    interval: Int32,
    intervalUnit: Option<string>,
    objectType: Option<string>,
    customFilePath: Option<string>)

  /** The object type that selects a custom configuration file. */
  const Custom: string := "custom"

  /**
   * Jackson reading a `GLQueryConfig` from JSON text, or from a stream that
   * is null (`None`); its parsing rules are not part of this model.
   */
  type JsonReader = Option<string> -> Outcome<GLQueryConfig>

  /** How loading ends: a configuration, a logged error, or an exception that leaves `launch`. */
  datatype Loading = Loaded(config: GLQueryConfig) | LoadFailed | LoadThrew(failure: Failure)

  /** The failures that are `IOException`s, which `launch` catches and logs. */
  predicate IsIOException(f: Failure) {
    f.IO? || f.Unmarshal?
  }

  /** The catch block around reading: an IOException becomes a logged error. */
  function Caught(o: Outcome<GLQueryConfig>): (l: Loading)
    ensures l.Loaded? <==> o.Ok?
    ensures l.LoadThrew? <==> o.Thrown? && !IsIOException(o.failure)
  {
    match o
    case Ok(c) => Loaded(c)
    case Thrown(f) => if IsIOException(f) then LoadFailed else LoadThrew(f)
  }

  /** The bundled resource of that name, as a stream that is null when there is none. */
  function Resource(resources: map<string, string>, name: string): Option<string> {
    if name in resources then Some(resources[name]) else None
  }

  /**
   * Loading as `launch` is written: for a custom type it hands the file's
   * PATH to Jackson's `readValue(String, Class)`, which parses its argument
   * as JSON text, so the file is checked for existence and never read.
   * `files` maps each existing path to its contents.
   */
  function LoadQueryConfigAsWritten(cfg: Configuration, files: map<string, string>, resources: map<string, string>,
                                    read: JsonReader): (l: Loading)
    // a custom configuration that loads comes from an entered path to an existing file,
    // and is the parse of that path, whatever the file holds
    ensures l.Loaded? && cfg.objectType == Some(Custom) ==>
      && cfg.customFilePath.Some? && cfg.customFilePath.value != "" && cfg.customFilePath.value in files
      && read(Some(cfg.customFilePath.value)) == Ok(l.config)
    // any other type loads the bundled resource of that name
    ensures l.Loaded? && cfg.objectType != Some(Custom) ==>
      cfg.objectType.Some? && read(Resource(resources, cfg.objectType.value)) == Ok(l.config)
    // only a failure other than an IOException leaves launch
    ensures l.LoadThrew? ==> !IsIOException(l.failure)
  {
    if cfg.objectType == Some(Custom) then
      if cfg.customFilePath.None? || cfg.customFilePath.value == "" then LoadFailed
      else if cfg.customFilePath.value !in files then LoadFailed
      else Caught(read(Some(cfg.customFilePath.value)))
    else if cfg.objectType.None? then LoadThrew(NullPointer)
    else Caught(read(Resource(resources, cfg.objectType.value)))
  }

  /** Loading as intended: a custom file's contents are parsed. */
  function LoadQueryConfig(cfg: Configuration, files: map<string, string>, resources: map<string, string>,
                           read: JsonReader): (l: Loading)
    // a custom configuration loads only from an entered path to a file that exists, and is that file's contents
    ensures l.Loaded? && cfg.objectType == Some(Custom) ==>
      && cfg.customFilePath.Some? && cfg.customFilePath.value != "" && cfg.customFilePath.value in files
      && read(Some(files[cfg.customFilePath.value])) == Ok(l.config)
    // any other type loads the bundled resource of that name
    ensures l.Loaded? && cfg.objectType != Some(Custom) ==>
      cfg.objectType.Some? && read(Resource(resources, cfg.objectType.value)) == Ok(l.config)
    // only a failure other than an IOException leaves launch
    ensures l.LoadThrew? ==> !IsIOException(l.failure)
  {
    if cfg.objectType == Some(Custom) then
      if cfg.customFilePath.None? || cfg.customFilePath.value == "" then LoadFailed
      else if cfg.customFilePath.value !in files then LoadFailed
      else Caught(read(Some(files[cfg.customFilePath.value])))
    else if cfg.objectType.None? then LoadThrew(NullPointer)
    else Caught(read(Resource(resources, cfg.objectType.value)))
  }

  /** The two loaders differ only for a custom file. */
  lemma LoadersAgreeOffCustom(cfg: Configuration, files: map<string, string>, resources: map<string, string>,
                              read: JsonReader)
    requires cfg.objectType != Some(Custom)
    ensures LoadQueryConfigAsWritten(cfg, files, resources, read) == LoadQueryConfig(cfg, files, resources, read)
  {
  }

  /** As written, what a custom file holds makes no difference: only which paths exist does. */
  lemma AsWrittenIgnoresContents(cfg: Configuration, files1: map<string, string>, files2: map<string, string>,
                                 resources: map<string, string>, read: JsonReader)
    requires files1.Keys == files2.Keys
    ensures LoadQueryConfigAsWritten(cfg, files1, resources, read) == LoadQueryConfigAsWritten(cfg, files2, resources, read)
  {
  }

  /**
   * An existing custom file with a valid configuration: the intended loader
   * loads it, the loader as written hands "/etc/graylog/jmx.json" to the
   * parser, which rejects it, and monitoring never starts.
   */
  lemma CustomFileIsNotRead()
    ensures
      var content := "{\"type\":\"app\",\"queries\":[]}";
      var files := map["/etc/graylog/jmx.json" := content];
      var read: JsonReader := s => if s == Some(content) then Ok(GLQueryConfig(Some("app"), [])) else Thrown(IO);
      var cfg := Configuration(Some("localhost"), 1099, None, None, None, 1, Some("MINUTES"), Some(Custom),
                               Some("/etc/graylog/jmx.json"));
      && LoadQueryConfigAsWritten(cfg, files, map[], read) == LoadFailed
      && LoadQueryConfig(cfg, files, map[], read) == Loaded(GLQueryConfig(Some("app"), []))
  {
    var content := "{\"type\":\"app\",\"queries\":[]}";
    assert "/etc/graylog/jmx.json"[0] != content[0];
  }
}
