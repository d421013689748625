/**
 * The GetWeather tool: the Open-Meteo query it sends and the text report it
 * builds from the decoded answer.
 *
 * Floating-point numbers appear only as the text the source prints for them
 * (`Num`); the HTTP request and the JSON decoding of the answer are an oracle
 * (`fetch`) that the caller supplies.
 */
module Weather {
  import opened Wrappers

  /** A number as the source formats it (`%.6f` in the query, `%.1f` in the report). */
  type Num = string

  /** The decoded arguments of a GetWeather tool call. */
  datatype WeatherParams = WeatherParams(
    latitude: Num,
    longitude: Num,
    current: seq<string>,
    hourly: seq<string>,
    daily: seq<string>,
    timezone: string)

  /**
   * The "current" block of an Open-Meteo answer. A humidity or wind speed of
   * zero (also the value of a missing field) is `None`: the report omits it.
   */
  datatype CurrentData = CurrentData(
    time: string,
    temperature: Num,
    humidity: Option<Num>,
    windSpeed: Option<Num>,
    weatherCode: int)

  /** The "hourly" block: one array per requested field, indexed like `time`. */
  datatype HourlyData = HourlyData(
    time: seq<string>,
    temperature: seq<Num>,
    humidity: seq<Num>,
    windSpeed: seq<Num>,
    weatherCode: seq<int>)

  /** The "daily" block: one array per requested field, indexed like `time`. */
  datatype DailyData = DailyData(
    time: seq<string>,
    temperatureMax: seq<Num>,
    temperatureMin: seq<Num>,
    precipitationSum: seq<Num>)

  /** A decoded Open-Meteo answer; the optional blocks are Go nil pointers when absent. */
  datatype WeatherData = WeatherData(
    latitude: Num,
    longitude: Num,
    timezone: string,
    current: CurrentData,
    hourly: Option<HourlyData>,
    daily: Option<DailyData>)

  /** The name under which the tool is registered with the model. */
  const ToolName := "GetWeather"

  // ---------------------------------------------------------------------
  // Weather codes
  // ---------------------------------------------------------------------

  /** The WMO weather codes the report can describe. */
  const Descriptions: map<int, string> := map[
    0 := "Clear sky",
    1 := "Mainly clear",
    2 := "Partly cloudy",
    3 := "Overcast",
    45 := "Fog",
    48 := "Depositing rime fog",
    51 := "Light drizzle",
    53 := "Moderate drizzle",
    55 := "Dense drizzle",
    61 := "Slight rain",
    63 := "Moderate rain",
    65 := "Heavy rain",
    71 := "Slight snow fall",
    73 := "Moderate snow fall",
    75 := "Heavy snow fall",
    80 := "Slight rain showers",
    81 := "Moderate rain showers",
    82 := "Violent rain showers",
    95 := "Thunderstorm",
    96 := "Thunderstorm with slight hail",
    99 := "Thunderstorm with heavy hail"]

  /** The lookup `desc, ok := weatherCodeToDescription[code]`; a description is never blank. */
  function Describe(code: int): (r: Option<string>)
    ensures r.Some? ==> |r.value| > 0
  {
    if code in Descriptions then Some(Descriptions[code]) else None
  }

  /** The codes that have a description; code 0 reads "Clear sky". */
  lemma DescribedCodes(code: int)
    ensures Describe(code).Some?
        <==> code in {0, 1, 2, 3, 45, 48, 51, 53, 55, 61, 63, 65, 71, 73, 75, 80, 81, 82, 95, 96, 99}
    ensures code == 0 ==> Describe(code) == Some("Clear sky")
  {
  }

  // ---------------------------------------------------------------------
  // The query
  // ---------------------------------------------------------------------

  /** `url.Values`: each key maps to the values added under it, in order. */
  type Values = map<string, seq<string>>

  /**
   * `url.Values.Add`: appends a value to the list kept for a key, creating
   * the list when the key is new; every other key keeps its values.
   */
  function Add(q: Values, key: string, value: string): (r: Values)
    ensures key in r && r[key] == (if key in q then q[key] else []) + [value]
  {
    if key in q then q[key := q[key] + [value]] else q[key := [value]]
  }

  /** `Add` touches no other key: each keeps its presence and its values. */
  lemma AddKeepsOthers(q: Values, key: string, value: string)
    ensures forall k :: k != key ==> (k in Add(q, key, value) <==> k in q)
    ensures forall k :: k != key && k in q ==> Add(q, key, value)[k] == q[k]
  {
  }

  /**
   * `strings.Join(xs, ",")`: a non-empty list's text starts with its first
   * name, and has a comma right after it when more names follow.
   */
  function Join(xs: seq<string>): (r: string)
    ensures |xs| > 0 ==> xs[0] <= r
    ensures |xs| > 1 ==> |xs[0]| < |r| && r[|xs[0]|] == ','
  {
    if |xs| == 0 then ""
    else if |xs| == 1 then xs[0]
    else xs[0] + "," + Join(xs[1..])
  }

  /** Cuts a field list at every comma, as the receiving server reads it. */
  function Split(s: string): (r: seq<string>)
    ensures |r| > 0
    decreases |s|
  {
    if |s| == 0 then [""]
    else if s[0] == ',' then [""] + Split(s[1..])
    else
      var rest := Split(s[1..]);
      [[s[0]] + rest[0]] + rest[1..]
  }

  /** No name in the list contains the separator. */
  predicate NoComma(xs: seq<string>) {
    forall i :: 0 <= i < |xs| ==> ',' !in xs[i]
  }

  const DefaultCurrent := "temperature_2m,relative_humidity_2m,weather_code,wind_speed_10m"
  const DefaultTimezone := "auto"

  /** A parameter sent only when its list of fields is non-empty, as their comma-join. */
  function Optional(key: string, fields: seq<string>): Values {
    if |fields| > 0 then map[key := [Join(fields)]] else map[]
  }

  /**
   * The query GetWeather sends, written key by key: every parameter it may
   * send, with the single value it carries.
   */
  function QueryOf(p: WeatherParams): Values {
    (map[
       "latitude" := [p.latitude],
       "longitude" := [p.longitude],
       "current" := [if |p.current| > 0 then Join(p.current) else DefaultCurrent]]
     + Optional("hourly", p.hourly)
     + Optional("daily", p.daily))
    ["timezone" := [if p.timezone != "" then p.timezone else DefaultTimezone]]
  }

  /** Builds the query step by step with `Add`, as GetWeather does. */
  method BuildQuery(p: WeatherParams) returns (q: Values)
    ensures q == QueryOf(p)
  {
    q := map[];
    q := Add(q, "latitude", p.latitude);
    q := Add(q, "longitude", p.longitude);
    var current := if |p.current| > 0 then Join(p.current) else DefaultCurrent;
    if |p.current| > 0 {
      q := Add(q, "current", Join(p.current));
    } else {
      q := Add(q, "current", DefaultCurrent);
    }
    assert q == map["latitude" := [p.latitude], "longitude" := [p.longitude], "current" := [current]];
    q := AddFields(q, "hourly", p.hourly);
    q := AddFields(q, "daily", p.daily);
    assert "timezone" !in q by {
      assert "timezone"[0] != "latitude"[0];
    }
    if p.timezone != "" {
      q := Add(q, "timezone", p.timezone);
    } else {
      q := Add(q, "timezone", DefaultTimezone);
    }
  }

  /** Adds a list of fields under `key` as their comma-join, only when it is non-empty. */
  method AddFields(q: Values, key: string, fields: seq<string>) returns (r: Values)
    requires key !in q
    ensures r == q + Optional(key, fields)
  {
    r := q;
    if |fields| > 0 {
      var joined := Join(fields);
      r := Add(r, key, joined);
      assert r == q[key := [joined]];
    }
  }

  lemma {:induction false} SplitNoComma(s: string)
    requires ',' !in s
    ensures Split(s) == [s]
    decreases |s|
  {
    if |s| > 0 {
      SplitNoComma(s[1..]);
      assert [s[0]] + s[1..] == s;
    }
  }

  lemma {:induction false} SplitAfterName(a: string, b: string)
    requires ',' !in a
    ensures Split(a + "," + b) == [a] + Split(b)
    decreases |a|
  {
    if |a| == 0 {
      assert (a + "," + b)[1..] == b;
    } else {
      assert (a + "," + b)[1..] == a[1..] + "," + b;
      SplitAfterName(a[1..], b);
      assert [a[0]] + a[1..] == a;
    }
  }

  /** Joining a non-empty list of names without commas loses nothing. */
  lemma {:induction false} SplitJoin(xs: seq<string>)
    requires |xs| > 0 && NoComma(xs)
    ensures Split(Join(xs)) == xs
    decreases |xs|
  {
    if |xs| == 1 {
      SplitNoComma(xs[0]);
    } else {
      assert NoComma(xs[1..]) by {
        forall i | 0 <= i < |xs[1..]| ensures ',' !in xs[1..][i] {
          assert xs[1..][i] == xs[i + 1];
        }
      }
      SplitAfterName(xs[0], Join(xs[1..]));
      SplitJoin(xs[1..]);
      assert [xs[0]] + xs[1..] == xs;
    }
  }

  /** Latitude, longitude, current and timezone are always sent; hourly and daily when requested. */
  lemma QueryKeys(p: WeatherParams)
    ensures QueryOf(p).Keys == {"latitude", "longitude", "current", "timezone"}
                               + (if |p.hourly| > 0 then {"hourly"} else {})
                               + (if |p.daily| > 0 then {"daily"} else {})
  {
  }

  /** Each parameter is sent once. */
  lemma QuerySingleValues(p: WeatherParams)
    ensures forall k :: k in QueryOf(p) ==> |QueryOf(p)[k]| == 1
  {
  }

  /** The coordinates are sent as given; defaults fill in current and timezone. */
  lemma QueryValues(p: WeatherParams)
    ensures QueryOf(p)["latitude"] == [p.latitude]
    ensures QueryOf(p)["longitude"] == [p.longitude]
    ensures |p.current| == 0 ==> QueryOf(p)["current"] == [DefaultCurrent]
    ensures QueryOf(p)["timezone"] == [if p.timezone == "" then DefaultTimezone else p.timezone]
  {
  }

  /** The field lists travel as their comma-join, from which they can be read back. */
  lemma QueryFieldLists(p: WeatherParams)
    ensures |p.current| > 0 && NoComma(p.current) ==> Split(QueryOf(p)["current"][0]) == p.current
    ensures |p.hourly| > 0 && NoComma(p.hourly) ==> Split(QueryOf(p)["hourly"][0]) == p.hourly
    ensures |p.daily| > 0 && NoComma(p.daily) ==> Split(QueryOf(p)["daily"][0]) == p.daily
  {
    if |p.current| > 0 && NoComma(p.current) { SplitJoin(p.current); }
    if |p.hourly| > 0 && NoComma(p.hourly) { SplitJoin(p.hourly); }
    if |p.daily| > 0 && NoComma(p.daily) { SplitJoin(p.daily); }
  }

  // ---------------------------------------------------------------------
  // The report, as the sequence of strings written to the builder
  // ---------------------------------------------------------------------

  /** The unit the source prints after a temperature (U+C9F8 followed by C in its text). */
  const Celsius := "\U{C9F8}C"

  const Header := "Current Weather:\n"
  const HourlyTitle := "\nHourly Forecast (next 24 hours):\n"
  const DailyTitle := "\nDaily Forecast:\n"
  const MaxHourlyEntries := 24

  /** The text of a report: its writes, in order. */
  function Concat(lines: seq<string>): string {
    if |lines| == 0 then "" else Concat(lines[..|lines| - 1]) + lines[|lines| - 1]
  }

  predicate StartsWith(s: string, prefix: string) {
    prefix <= s
  }

  /** The writes that start with a given tag, in order. */
  function Tagged(lines: seq<string>, tag: string): seq<string> {
    if |lines| == 0 then []
    else
      Tagged(lines[..|lines| - 1], tag)
      + (if StartsWith(lines[|lines| - 1], tag) then [lines[|lines| - 1]] else [])
  }

  /** Some write starts with the tag. */
  predicate HasLine(lines: seq<string>, tag: string) {
    Tagged(lines, tag) != []
  }

  // The label each formatted write begins with.
  const TimeTag := "Time: "
  const TemperatureTag := "Temperature: "
  const HumidityTag := "Humidity: "
  const WindSpeedTag := "Wind Speed: "
  const ConditionsTag := "Conditions: "
  const EntryTemperatureTag := "  Temperature: "
  const EntryHumidityTag := "  Humidity: "
  const EntryWindSpeedTag := "  Wind Speed: "
  const EntryConditionsTag := "  Conditions: "
  const DateTag := "Date: "
  const MaxTemperatureTag := "  Max Temperature: "
  const MinTemperatureTag := "  Min Temperature: "
  const PrecipitationTag := "  Precipitation: "

  /** One formatted write: its label, then the value and its unit. */
  function Line(tag: string, rest: string): string {
    tag + rest
  }

  /** The current-conditions block. */
  function CurrentLines(c: CurrentData): seq<string> {
    CurrentHead(c)
    + CurrentHumidity(c)
    + CurrentWindSpeed(c)
    + ConditionsPart(c.weatherCode)
  }

  /** The header, then the time and temperature lines, which are always written. */
  function CurrentHead(c: CurrentData): seq<string> {
    [Header, Line(TimeTag, c.time + "\n"), Line(TemperatureTag, c.temperature + Celsius + "\n")]
  }

  function CurrentHumidity(c: CurrentData): seq<string> {
    if c.humidity.Some? then [Line(HumidityTag, c.humidity.value + "%\n")] else []
  }

  function CurrentWindSpeed(c: CurrentData): seq<string> {
    if c.windSpeed.Some? then [Line(WindSpeedTag, c.windSpeed.value + " km/h\n")] else []
  }

  /** The "Conditions" line of the current block, when the code has a description. */
  function ConditionsPart(code: int): seq<string> {
    match Describe(code)
    case Some(desc) => [Line(ConditionsTag, desc + "\n")]
    case None => []
  }

  function HourlyTemperature(h: HourlyData, i: nat): seq<string> {
    if |h.temperature| > i then [Line(EntryTemperatureTag, h.temperature[i] + Celsius + "\n")] else []
  }

  function HourlyHumidity(h: HourlyData, i: nat): seq<string> {
    if |h.humidity| > i then [Line(EntryHumidityTag, h.humidity[i] + "%\n")] else []
  }

  function HourlyWindSpeed(h: HourlyData, i: nat): seq<string> {
    if |h.windSpeed| > i then [Line(EntryWindSpeedTag, h.windSpeed[i] + " km/h\n")] else []
  }

  function HourlyConditions(h: HourlyData, i: nat): seq<string> {
    if |h.weatherCode| > i && Describe(h.weatherCode[i]).Some?
    then [Line(EntryConditionsTag, Describe(h.weatherCode[i]).value + "\n")] else []
  }

  /** Hourly entry `i`: its time, then each field whose array reaches `i`. */
  function HourlyEntry(h: HourlyData, i: nat): seq<string>
    requires i < |h.time|
  {
    [Line(TimeTag, h.time[i] + "\n")]
    + HourlyTemperature(h, i) + HourlyHumidity(h, i) + HourlyWindSpeed(h, i) + HourlyConditions(h, i)
    + ["\n"]
  }

  /** The first `n` hourly entries. */
  function HourlyEntries(h: HourlyData, n: nat): seq<string>
    requires n <= |h.time|
  {
    if n == 0 then [] else HourlyEntries(h, n - 1) + HourlyEntry(h, n - 1)
  }

  function HourlyLimit(n: nat): nat {
    if n > MaxHourlyEntries then MaxHourlyEntries else n
  }

  /** The hourly section: present only for a non-empty `time` array. */
  function HourlyLines(hourly: Option<HourlyData>): seq<string> {
    if hourly.Some? && |hourly.value.time| > 0 then
      [HourlyTitle] + HourlyEntries(hourly.value, HourlyLimit(|hourly.value.time|))
    else []
  }

  function DailyMaxTemperature(d: DailyData, i: nat): seq<string> {
    if |d.temperatureMax| > i then [Line(MaxTemperatureTag, d.temperatureMax[i] + Celsius + "\n")] else []
  }

  function DailyMinTemperature(d: DailyData, i: nat): seq<string> {
    if |d.temperatureMin| > i then [Line(MinTemperatureTag, d.temperatureMin[i] + Celsius + "\n")] else []
  }

  function DailyPrecipitation(d: DailyData, i: nat): seq<string> {
    if |d.precipitationSum| > i then [Line(PrecipitationTag, d.precipitationSum[i] + " mm\n")] else []
  }

  /** Daily entry `i`: its date, then each field whose array reaches `i`. */
  function DailyEntry(d: DailyData, i: nat): seq<string>
    requires i < |d.time|
  {
    [Line(DateTag, d.time[i] + "\n")]
    + DailyMaxTemperature(d, i) + DailyMinTemperature(d, i) + DailyPrecipitation(d, i)
    + ["\n"]
  }

  /** The first `n` daily entries. */
  function DailyEntries(d: DailyData, n: nat): seq<string>
    requires n <= |d.time|
  {
    if n == 0 then [] else DailyEntries(d, n - 1) + DailyEntry(d, n - 1)
  }

  /** The daily section: present only for a non-empty `time` array. */
  function DailyLines(daily: Option<DailyData>): seq<string> {
    if daily.Some? && |daily.value.time| > 0 then
      [DailyTitle] + DailyEntries(daily.value, |daily.value.time|)
    else []
  }

  /** Every write of the report, in order. */
  function ReportLines(data: WeatherData): seq<string> {
    CurrentLines(data.current) + HourlyLines(data.hourly) + DailyLines(data.daily)
  }

  /** The text the tool returns. */
  function Report(data: WeatherData): string {
    Concat(ReportLines(data))
  }

  /**
   * Builds the report as GetWeather does after decoding. The builder is kept
   * as the list of strings written to it; its text is their concatenation.
   */
  method FormatReport(data: WeatherData) returns (report: string)
    ensures report == Report(data)
  {
    var builder: seq<string> := [];
    builder := WriteCurrent(builder, data.current);
    assert builder == CurrentLines(data.current);
    builder := WriteHourly(builder, data.hourly);
    builder := WriteDaily(builder, data.daily);
    assert builder == ReportLines(data);
    report := Concat(builder);
  }

  /** Writes the current-conditions block. */
  method WriteCurrent(before: seq<string>, c: CurrentData) returns (builder: seq<string>)
    ensures builder == before + CurrentLines(c)
  {
    builder := before + [Header];
    builder := builder + [Line(TimeTag, c.time + "\n")];
    builder := builder + [Line(TemperatureTag, c.temperature + Celsius + "\n")];
    assert builder == before + CurrentHead(c);
    if c.humidity.Some? {
      builder := builder + [Line(HumidityTag, c.humidity.value + "%\n")];
    }
    assert builder == before + CurrentHead(c) + CurrentHumidity(c);
    if c.windSpeed.Some? {
      builder := builder + [Line(WindSpeedTag, c.windSpeed.value + " km/h\n")];
    }
    assert builder == before + CurrentHead(c) + CurrentHumidity(c) + CurrentWindSpeed(c);
    if c.weatherCode != 0 || c.weatherCode == 0 {
      var desc := Describe(c.weatherCode);
      if desc.Some? {
        builder := builder + [Line(ConditionsTag, desc.value + "\n")];
      }
    }
    assert builder == before + CurrentHead(c) + CurrentHumidity(c) + CurrentWindSpeed(c) + ConditionsPart(c.weatherCode);
    AppendSix(before, CurrentHead(c), CurrentHumidity(c), CurrentWindSpeed(c), ConditionsPart(c.weatherCode), [], []);
  }

  /** Writes the hourly section: at most 24 entries. */
  method WriteHourly(before: seq<string>, hourly: Option<HourlyData>) returns (builder: seq<string>)
    ensures builder == before + HourlyLines(hourly)
  {
    builder := before;
    if hourly.Some? && |hourly.value.time| > 0 {
      var h := hourly.value;
      builder := builder + [HourlyTitle];
      var limit := |h.time|;
      if limit > MaxHourlyEntries {
        limit := MaxHourlyEntries;
      }
      builder := WriteHourlyEntries(builder, h, limit);
      HourlyLinesWritten(before, builder, h, limit);
    }
  }

  /** The title followed by the capped entries is the hourly section. */
  lemma HourlyLinesWritten(before: seq<string>, builder: seq<string>, h: HourlyData, limit: nat)
    requires |h.time| > 0 && limit == HourlyLimit(|h.time|)
    requires builder == before + [HourlyTitle] + HourlyEntries(h, limit)
    ensures builder == before + HourlyLines(Some(h))
  {
    assert HourlyLines(Some(h)) == [HourlyTitle] + HourlyEntries(h, limit);
  }

  /** The hourly loop: writes entries `0 .. limit - 1`, in order. */
  method WriteHourlyEntries(before: seq<string>, h: HourlyData, limit: nat) returns (builder: seq<string>)
    requires limit <= |h.time|
    ensures builder == before + HourlyEntries(h, limit)
  {
    builder := before;
    for i := 0 to limit
      invariant builder == before + HourlyEntries(h, i)
    {
      ghost var prev := builder;
      builder := WriteHourlyEntry(builder, h, i);
      HourlyEntriesStep(before, prev, builder, h, i);
    }
  }

  /** Writing entry `i` after the first `i` entries gives the first `i + 1`. */
  lemma HourlyEntriesStep(before: seq<string>, prev: seq<string>, next: seq<string>, h: HourlyData, i: nat)
    requires i < |h.time|
    requires prev == before + HourlyEntries(h, i) && next == prev + HourlyEntry(h, i)
    ensures next == before + HourlyEntries(h, i + 1)
  {
  }

  /** Writes hourly entry `i` (one turn of the hourly loop). */
  method WriteHourlyEntry(before: seq<string>, h: HourlyData, i: nat) returns (builder: seq<string>)
    requires i < |h.time|
    ensures builder == before + HourlyEntry(h, i)
  {
    var head := [Line(TimeTag, h.time[i] + "\n")];
    builder := before + head;
    if |h.temperature| > i {
      builder := builder + [Line(EntryTemperatureTag, h.temperature[i] + Celsius + "\n")];
    }
    assert builder == before + head + HourlyTemperature(h, i);
    if |h.humidity| > i {
      builder := builder + [Line(EntryHumidityTag, h.humidity[i] + "%\n")];
    }
    assert builder == before + head + HourlyTemperature(h, i) + HourlyHumidity(h, i);
    if |h.windSpeed| > i {
      builder := builder + [Line(EntryWindSpeedTag, h.windSpeed[i] + " km/h\n")];
    }
    assert builder == before + head + HourlyTemperature(h, i) + HourlyHumidity(h, i) + HourlyWindSpeed(h, i);
    if |h.weatherCode| > i {
      var desc := Describe(h.weatherCode[i]);
      if desc.Some? {
        builder := builder + [Line(EntryConditionsTag, desc.value + "\n")];
      }
    }
    assert builder == before + head + HourlyTemperature(h, i) + HourlyHumidity(h, i) + HourlyWindSpeed(h, i)
                      + HourlyConditions(h, i);
    builder := builder + ["\n"];
    AppendSix(before, head, HourlyTemperature(h, i), HourlyHumidity(h, i), HourlyWindSpeed(h, i),
              HourlyConditions(h, i), ["\n"]);
  }

  /** Appending six blocks one after another writes the blocks joined. */
  lemma AppendSix(b: seq<string>, p0: seq<string>, p1: seq<string>, p2: seq<string>, p3: seq<string>, p4: seq<string>, p5: seq<string>)
    ensures b + p0 + p1 + p2 + p3 + p4 + p5 == b + (p0 + p1 + p2 + p3 + p4 + p5)
  {
  }

  /** Writes the daily section: every entry. */
  method WriteDaily(before: seq<string>, daily: Option<DailyData>) returns (builder: seq<string>)
    ensures builder == before + DailyLines(daily)
  {
    builder := before;
    if daily.Some? && |daily.value.time| > 0 {
      var d := daily.value;
      builder := WriteDailyEntries(builder + [DailyTitle], d);
    }
  }

  /** The daily loop: writes every entry, in order. */
  method WriteDailyEntries(before: seq<string>, d: DailyData) returns (builder: seq<string>)
    ensures builder == before + DailyEntries(d, |d.time|)
  {
    builder := before;
    for i := 0 to |d.time|
      invariant builder == before + DailyEntries(d, i)
    {
      ghost var prev := builder;
      builder := WriteDailyEntry(builder, d, i);
      DailyEntriesStep(before, prev, builder, d, i);
    }
  }

  /** Writing entry `i` after the first `i` entries gives the first `i + 1`. */
  lemma DailyEntriesStep(before: seq<string>, prev: seq<string>, next: seq<string>, d: DailyData, i: nat)
    requires i < |d.time|
    requires prev == before + DailyEntries(d, i) && next == prev + DailyEntry(d, i)
    ensures next == before + DailyEntries(d, i + 1)
  {
  }

  /** Writes daily entry `i` (one turn of the daily loop). */
  method WriteDailyEntry(before: seq<string>, d: DailyData, i: nat) returns (builder: seq<string>)
    requires i < |d.time|
    ensures builder == before + DailyEntry(d, i)
  {
    builder := before + [Line(DateTag, d.time[i] + "\n")];
    if |d.temperatureMax| > i {
      builder := builder + [Line(MaxTemperatureTag, d.temperatureMax[i] + Celsius + "\n")];
    }
    if |d.temperatureMin| > i {
      builder := builder + [Line(MinTemperatureTag, d.temperatureMin[i] + Celsius + "\n")];
    }
    if |d.precipitationSum| > i {
      builder := builder + [Line(PrecipitationTag, d.precipitationSum[i] + " mm\n")];
    }
    builder := builder + ["\n"];
  }

  /** The result of the tool: the report, or the error of the request. */
  function WeatherResult(p: WeatherParams, fetch: Values -> Result<WeatherData, string>): (r: Result<string, string>)
    ensures r.Failure? <==> fetch(QueryOf(p)).Failure?
    ensures r.Failure? ==> r.error == fetch(QueryOf(p)).error
    ensures r.Success? ==> StartsWith(r.value, Header)
  {
    match fetch(QueryOf(p))
    case Failure(e) => Failure(e)
    case Success(data) =>
      ReportStartsWithHeader(data);
      Success(Report(data))
  }

  /**
   * GetWeather: sends the query through `fetch` (the HTTP request, its
   * status check and the JSON decoding) and formats the answer.
   */
  method GetWeather(p: WeatherParams, fetch: Values -> Result<WeatherData, string>) returns (r: Result<string, string>)
    ensures r == WeatherResult(p, fetch)
  {
    var q := BuildQuery(p);
    var answer := fetch(q);
    if answer.Failure? {
      return Failure(answer.error);
    }
    var report := FormatReport(answer.value);
    r := Success(report);
  }

  // ---------------------------------------------------------------------
  // Lemmas about the report
  // ---------------------------------------------------------------------

  lemma {:induction false} ConcatAppend(a: seq<string>, b: seq<string>)
    ensures Concat(a + b) == Concat(a) + Concat(b)
    decreases |b|
  {
    if |b| == 0 {
      assert a + b == a;
    } else {
      var init, last := b[..|b| - 1], b[|b| - 1];
      assert (a + b)[..|a + b| - 1] == a + init;
      assert (a + b)[|a + b| - 1] == last;
      calc {
        Concat(a + b);
        Concat(a + init) + last;
        { ConcatAppend(a, init); }
        Concat(a) + Concat(init) + last;
        Concat(a) + (Concat(init) + last);
      }
    }
  }

  lemma {:induction false} TaggedAppend(a: seq<string>, b: seq<string>, tag: string)
    ensures Tagged(a + b, tag) == Tagged(a, tag) + Tagged(b, tag)
    decreases |b|
  {
    if |b| == 0 {
      assert a + b == a;
    } else {
      assert (a + b)[..|a + b| - 1] == a + b[..|b| - 1];
      TaggedAppend(a, b[..|b| - 1], tag);
    }
  }

  /** The text begins with the fixed header. */
  lemma ReportStartsWithHeader(data: WeatherData)
    ensures ReportLines(data)[0] == Header
    ensures StartsWith(Report(data), Header)
  {
    var lines := ReportLines(data);
    assert lines == [Header] + lines[1..];
    ConcatAppend([Header], lines[1..]);
  }

  /** A single write that differs from a tag at position `k` is not tagged with it. */
  lemma Differ(s: string, tag: string, k: nat)
    requires k < |s| && k < |tag| && s[k] != tag[k]
    ensures Tagged([s], tag) == []
  {
    assert [s][..0] == [];
    assert !(tag <= s) by {
      assert s[k] != tag[k];
    }
  }

  /** A write labelled `tag` is not tagged by a label that differs from it at `k`. */
  lemma Foreign(tag: string, rest: string, other: string, k: nat)
    requires k < |tag| && k < |other| && tag[k] != other[k]
    ensures Tagged([Line(tag, rest)], other) == []
  {
    Differ(Line(tag, rest), other, k);
  }

  /** A write labelled `tag` is kept by it. */
  lemma Kept(tag: string, rest: string)
    ensures Tagged([Line(tag, rest)], tag) == [Line(tag, rest)]
  {
    assert [Line(tag, rest)][..0] == [];
    assert (tag + rest)[..|tag|] == tag;
  }

  lemma TaggedSix(p0: seq<string>, p1: seq<string>, p2: seq<string>, p3: seq<string>, p4: seq<string>, p5: seq<string>, tag: string)
    ensures Tagged(p0 + p1 + p2 + p3 + p4 + p5, tag)
         == Tagged(p0, tag) + Tagged(p1, tag) + Tagged(p2, tag) + Tagged(p3, tag) + Tagged(p4, tag) + Tagged(p5, tag)
  {
    TaggedAppend(p0 + p1 + p2 + p3 + p4, p5, tag);
    TaggedAppend(p0 + p1 + p2 + p3, p4, tag);
    TaggedAppend(p0 + p1 + p2, p3, tag);
    TaggedAppend(p0 + p1, p2, tag);
    TaggedAppend(p0, p1, tag);
  }

  lemma TaggedFive(p0: seq<string>, p1: seq<string>, p2: seq<string>, p3: seq<string>, p4: seq<string>, tag: string)
    ensures Tagged(p0 + p1 + p2 + p3 + p4, tag)
         == Tagged(p0, tag) + Tagged(p1, tag) + Tagged(p2, tag) + Tagged(p3, tag) + Tagged(p4, tag)
  {
    TaggedAppend(p0 + p1 + p2 + p3, p4, tag);
    TaggedAppend(p0 + p1 + p2, p3, tag);
    TaggedAppend(p0 + p1, p2, tag);
    TaggedAppend(p0, p1, tag);
  }

  // One lemma per label: which writes of an entry carry it.

  lemma HourlyHeadLine(h: HourlyData, i: nat)
    requires i < |h.time|
    ensures Tagged(HourlyEntry(h, i), TimeTag) == [Line(TimeTag, h.time[i] + "\n")]
  {
    var tag := TimeTag;
    TaggedSix([Line(TimeTag, h.time[i] + "\n")], HourlyTemperature(h, i), HourlyHumidity(h, i),
              HourlyWindSpeed(h, i), HourlyConditions(h, i), ["\n"], tag);
    Kept(tag, h.time[i] + "\n");
    if |h.temperature| > i { Foreign(EntryTemperatureTag, h.temperature[i] + Celsius + "\n", tag, 0); }
    if |h.humidity| > i { Foreign(EntryHumidityTag, h.humidity[i] + "%\n", tag, 0); }
    if |h.windSpeed| > i { Foreign(EntryWindSpeedTag, h.windSpeed[i] + " km/h\n", tag, 0); }
    if HourlyConditions(h, i) != [] { Foreign(EntryConditionsTag, Describe(h.weatherCode[i]).value + "\n", tag, 0); }
    Differ("\n", tag, 0);
  }

  lemma HourlyTemperatureLine(h: HourlyData, i: nat)
    requires i < |h.time|
    ensures Tagged(HourlyEntry(h, i), EntryTemperatureTag)
         == if |h.temperature| > i then [Line(EntryTemperatureTag, h.temperature[i] + Celsius + "\n")] else []
  {
    var tag := EntryTemperatureTag;
    TaggedSix([Line(TimeTag, h.time[i] + "\n")], HourlyTemperature(h, i), HourlyHumidity(h, i),
              HourlyWindSpeed(h, i), HourlyConditions(h, i), ["\n"], tag);
    Foreign(TimeTag, h.time[i] + "\n", tag, 0);
    if |h.temperature| > i { Kept(tag, h.temperature[i] + Celsius + "\n"); }
    if |h.humidity| > i { Foreign(EntryHumidityTag, h.humidity[i] + "%\n", tag, 2); }
    if |h.windSpeed| > i { Foreign(EntryWindSpeedTag, h.windSpeed[i] + " km/h\n", tag, 2); }
    if HourlyConditions(h, i) != [] { Foreign(EntryConditionsTag, Describe(h.weatherCode[i]).value + "\n", tag, 2); }
    Differ("\n", tag, 0);
  }

  lemma HourlyHumidityLine(h: HourlyData, i: nat)
    requires i < |h.time|
    ensures Tagged(HourlyEntry(h, i), EntryHumidityTag)
         == if |h.humidity| > i then [Line(EntryHumidityTag, h.humidity[i] + "%\n")] else []
  {
    var tag := EntryHumidityTag;
    TaggedSix([Line(TimeTag, h.time[i] + "\n")], HourlyTemperature(h, i), HourlyHumidity(h, i),
              HourlyWindSpeed(h, i), HourlyConditions(h, i), ["\n"], tag);
    Foreign(TimeTag, h.time[i] + "\n", tag, 0);
    if |h.temperature| > i { Foreign(EntryTemperatureTag, h.temperature[i] + Celsius + "\n", tag, 2); }
    if |h.humidity| > i { Kept(tag, h.humidity[i] + "%\n"); }
    if |h.windSpeed| > i { Foreign(EntryWindSpeedTag, h.windSpeed[i] + " km/h\n", tag, 2); }
    if HourlyConditions(h, i) != [] { Foreign(EntryConditionsTag, Describe(h.weatherCode[i]).value + "\n", tag, 2); }
    Differ("\n", tag, 0);
  }

  lemma HourlyWindSpeedLine(h: HourlyData, i: nat)
    requires i < |h.time|
    ensures Tagged(HourlyEntry(h, i), EntryWindSpeedTag)
         == if |h.windSpeed| > i then [Line(EntryWindSpeedTag, h.windSpeed[i] + " km/h\n")] else []
  {
    var tag := EntryWindSpeedTag;
    TaggedSix([Line(TimeTag, h.time[i] + "\n")], HourlyTemperature(h, i), HourlyHumidity(h, i),
              HourlyWindSpeed(h, i), HourlyConditions(h, i), ["\n"], tag);
    Foreign(TimeTag, h.time[i] + "\n", tag, 0);
    if |h.temperature| > i { Foreign(EntryTemperatureTag, h.temperature[i] + Celsius + "\n", tag, 2); }
    if |h.humidity| > i { Foreign(EntryHumidityTag, h.humidity[i] + "%\n", tag, 2); }
    if |h.windSpeed| > i { Kept(tag, h.windSpeed[i] + " km/h\n"); }
    if HourlyConditions(h, i) != [] { Foreign(EntryConditionsTag, Describe(h.weatherCode[i]).value + "\n", tag, 2); }
    Differ("\n", tag, 0);
  }

  lemma HourlyConditionsLine(h: HourlyData, i: nat)
    requires i < |h.time|
    ensures Tagged(HourlyEntry(h, i), EntryConditionsTag)
         == if |h.weatherCode| > i && Describe(h.weatherCode[i]).Some?
            then [Line(EntryConditionsTag, Describe(h.weatherCode[i]).value + "\n")] else []
  {
    var tag := EntryConditionsTag;
    TaggedSix([Line(TimeTag, h.time[i] + "\n")], HourlyTemperature(h, i), HourlyHumidity(h, i),
              HourlyWindSpeed(h, i), HourlyConditions(h, i), ["\n"], tag);
    Foreign(TimeTag, h.time[i] + "\n", tag, 0);
    if |h.temperature| > i { Foreign(EntryTemperatureTag, h.temperature[i] + Celsius + "\n", tag, 2); }
    if |h.humidity| > i { Foreign(EntryHumidityTag, h.humidity[i] + "%\n", tag, 2); }
    if |h.windSpeed| > i { Foreign(EntryWindSpeedTag, h.windSpeed[i] + " km/h\n", tag, 2); }
    if HourlyConditions(h, i) != [] { Kept(tag, Describe(h.weatherCode[i]).value + "\n"); }
    Differ("\n", tag, 0);
  }

  lemma DailyHeadLine(d: DailyData, i: nat)
    requires i < |d.time|
    ensures Tagged(DailyEntry(d, i), DateTag) == [Line(DateTag, d.time[i] + "\n")]
  {
    var tag := DateTag;
    TaggedFive([Line(DateTag, d.time[i] + "\n")], DailyMaxTemperature(d, i), DailyMinTemperature(d, i),
               DailyPrecipitation(d, i), ["\n"], tag);
    Kept(tag, d.time[i] + "\n");
    if |d.temperatureMax| > i { Foreign(MaxTemperatureTag, d.temperatureMax[i] + Celsius + "\n", tag, 0); }
    if |d.temperatureMin| > i { Foreign(MinTemperatureTag, d.temperatureMin[i] + Celsius + "\n", tag, 0); }
    if |d.precipitationSum| > i { Foreign(PrecipitationTag, d.precipitationSum[i] + " mm\n", tag, 0); }
    Differ("\n", tag, 0);
  }

  lemma DailyMaxTemperatureLine(d: DailyData, i: nat)
    requires i < |d.time|
    ensures Tagged(DailyEntry(d, i), MaxTemperatureTag)
         == if |d.temperatureMax| > i then [Line(MaxTemperatureTag, d.temperatureMax[i] + Celsius + "\n")] else []
  {
    var tag := MaxTemperatureTag;
    TaggedFive([Line(DateTag, d.time[i] + "\n")], DailyMaxTemperature(d, i), DailyMinTemperature(d, i),
               DailyPrecipitation(d, i), ["\n"], tag);
    Foreign(DateTag, d.time[i] + "\n", tag, 0);
    if |d.temperatureMax| > i { Kept(tag, d.temperatureMax[i] + Celsius + "\n"); }
    if |d.temperatureMin| > i { Foreign(MinTemperatureTag, d.temperatureMin[i] + Celsius + "\n", tag, 3); }
    if |d.precipitationSum| > i { Foreign(PrecipitationTag, d.precipitationSum[i] + " mm\n", tag, 2); }
    Differ("\n", tag, 0);
  }

  lemma DailyMinTemperatureLine(d: DailyData, i: nat)
    requires i < |d.time|
    ensures Tagged(DailyEntry(d, i), MinTemperatureTag)
         == if |d.temperatureMin| > i then [Line(MinTemperatureTag, d.temperatureMin[i] + Celsius + "\n")] else []
  {
    var tag := MinTemperatureTag;
    TaggedFive([Line(DateTag, d.time[i] + "\n")], DailyMaxTemperature(d, i), DailyMinTemperature(d, i),
               DailyPrecipitation(d, i), ["\n"], tag);
    Foreign(DateTag, d.time[i] + "\n", tag, 0);
    if |d.temperatureMax| > i { Foreign(MaxTemperatureTag, d.temperatureMax[i] + Celsius + "\n", tag, 3); }
    if |d.temperatureMin| > i { Kept(tag, d.temperatureMin[i] + Celsius + "\n"); }
    if |d.precipitationSum| > i { Foreign(PrecipitationTag, d.precipitationSum[i] + " mm\n", tag, 2); }
    Differ("\n", tag, 0);
  }

  lemma DailyPrecipitationLine(d: DailyData, i: nat)
    requires i < |d.time|
    ensures Tagged(DailyEntry(d, i), PrecipitationTag)
         == if |d.precipitationSum| > i then [Line(PrecipitationTag, d.precipitationSum[i] + " mm\n")] else []
  {
    var tag := PrecipitationTag;
    TaggedFive([Line(DateTag, d.time[i] + "\n")], DailyMaxTemperature(d, i), DailyMinTemperature(d, i),
               DailyPrecipitation(d, i), ["\n"], tag);
    Foreign(DateTag, d.time[i] + "\n", tag, 0);
    if |d.temperatureMax| > i { Foreign(MaxTemperatureTag, d.temperatureMax[i] + Celsius + "\n", tag, 2); }
    if |d.temperatureMin| > i { Foreign(MinTemperatureTag, d.temperatureMin[i] + Celsius + "\n", tag, 2); }
    if |d.precipitationSum| > i { Kept(tag, d.precipitationSum[i] + " mm\n"); }
    Differ("\n", tag, 0);
  }

  /**
   * Within hourly entry `i`: the time comes first and is the only line
   * labelled "Time: ", and each sub-line appears exactly when its array
   * reaches index `i`, carrying the value at `i`.
   */
  lemma HourlyEntrySubLines(h: HourlyData, i: nat)
    requires i < |h.time|
    ensures Tagged(HourlyEntry(h, i), TimeTag) == [Line(TimeTag, h.time[i] + "\n")]
    ensures Tagged(HourlyEntry(h, i), EntryTemperatureTag)
         == if |h.temperature| > i then [Line(EntryTemperatureTag, h.temperature[i] + Celsius + "\n")] else []
    ensures Tagged(HourlyEntry(h, i), EntryHumidityTag)
         == if |h.humidity| > i then [Line(EntryHumidityTag, h.humidity[i] + "%\n")] else []
    ensures Tagged(HourlyEntry(h, i), EntryWindSpeedTag)
         == if |h.windSpeed| > i then [Line(EntryWindSpeedTag, h.windSpeed[i] + " km/h\n")] else []
    ensures Tagged(HourlyEntry(h, i), EntryConditionsTag)
         == if |h.weatherCode| > i && Describe(h.weatherCode[i]).Some?
            then [Line(EntryConditionsTag, Describe(h.weatherCode[i]).value + "\n")] else []
  {
    HourlyHeadLine(h, i);
    HourlyTemperatureLine(h, i);
    HourlyHumidityLine(h, i);
    HourlyWindSpeedLine(h, i);
    HourlyConditionsLine(h, i);
  }

  /**
   * Within daily entry `i`: the date comes first and is the only line
   * labelled "Date: ", and each sub-line appears exactly when its array
   * reaches `i`.
   */
  lemma DailyEntrySubLines(d: DailyData, i: nat)
    requires i < |d.time|
    ensures Tagged(DailyEntry(d, i), DateTag) == [Line(DateTag, d.time[i] + "\n")]
    ensures Tagged(DailyEntry(d, i), MaxTemperatureTag)
         == if |d.temperatureMax| > i then [Line(MaxTemperatureTag, d.temperatureMax[i] + Celsius + "\n")] else []
    ensures Tagged(DailyEntry(d, i), MinTemperatureTag)
         == if |d.temperatureMin| > i then [Line(MinTemperatureTag, d.temperatureMin[i] + Celsius + "\n")] else []
    ensures Tagged(DailyEntry(d, i), PrecipitationTag)
         == if |d.precipitationSum| > i then [Line(PrecipitationTag, d.precipitationSum[i] + " mm\n")] else []
  {
    DailyHeadLine(d, i);
    DailyMaxTemperatureLine(d, i);
    DailyMinTemperatureLine(d, i);
    DailyPrecipitationLine(d, i);
  }

  /** Blocks of writes, one after another. */
  function Flatten(blocks: seq<seq<string>>): seq<string> {
    if |blocks| == 0 then [] else Flatten(blocks[..|blocks| - 1]) + blocks[|blocks| - 1]
  }

  /** Blocks that each carry exactly one line of a tag carry those lines, in order. */
  lemma {:induction false} FlattenHeads(blocks: seq<seq<string>>, tag: string, heads: seq<string>)
    requires |heads| == |blocks|
    requires forall j :: 0 <= j < |blocks| ==> Tagged(blocks[j], tag) == [heads[j]]
    ensures Tagged(Flatten(blocks), tag) == heads
    decreases |blocks|
  {
    if |blocks| > 0 {
      var k := |blocks| - 1;
      FlattenHeads(blocks[..k], tag, heads[..k]);
      TaggedAppend(Flatten(blocks[..k]), blocks[k], tag);
      assert heads == heads[..k] + [heads[k]];
    }
  }

  function HourlyBlocks(h: HourlyData, n: nat): seq<seq<string>>
    requires n <= |h.time|
  {
    seq(n, j requires 0 <= j < n => HourlyEntry(h, j))
  }

  function DailyBlocks(d: DailyData, n: nat): seq<seq<string>>
    requires n <= |d.time|
  {
    seq(n, j requires 0 <= j < n => DailyEntry(d, j))
  }

  lemma {:induction false} HourlyEntriesFlat(h: HourlyData, n: nat)
    requires n <= |h.time|
    ensures HourlyEntries(h, n) == Flatten(HourlyBlocks(h, n))
  {
    if n > 0 {
      HourlyEntriesFlat(h, n - 1);
      assert HourlyBlocks(h, n)[..n - 1] == HourlyBlocks(h, n - 1);
    }
  }

  lemma {:induction false} DailyEntriesFlat(d: DailyData, n: nat)
    requires n <= |d.time|
    ensures DailyEntries(d, n) == Flatten(DailyBlocks(d, n))
  {
    if n > 0 {
      DailyEntriesFlat(d, n - 1);
      assert DailyBlocks(d, n)[..n - 1] == DailyBlocks(d, n - 1);
    }
  }

  /** The first `n` hourly entries carry the first `n` times, in order. */
  lemma HourlyTimes(h: HourlyData, n: nat)
    requires n <= |h.time|
    ensures Tagged(HourlyEntries(h, n), TimeTag) == seq(n, j requires 0 <= j < n => Line(TimeTag, h.time[j] + "\n"))
  {
    var blocks := HourlyBlocks(h, n);
    forall j | 0 <= j < n
      ensures Tagged(blocks[j], TimeTag) == [Line(TimeTag, h.time[j] + "\n")]
    {
      HourlyHeadLine(h, j);
    }
    FlattenHeads(blocks, TimeTag, seq(n, j requires 0 <= j < n => Line(TimeTag, h.time[j] + "\n")));
    HourlyEntriesFlat(h, n);
  }

  /** The first `n` daily entries carry the first `n` dates, in order. */
  lemma DailyDates(d: DailyData, n: nat)
    requires n <= |d.time|
    ensures Tagged(DailyEntries(d, n), DateTag) == seq(n, j requires 0 <= j < n => Line(DateTag, d.time[j] + "\n"))
  {
    var blocks := DailyBlocks(d, n);
    forall j | 0 <= j < n
      ensures Tagged(blocks[j], DateTag) == [Line(DateTag, d.time[j] + "\n")]
    {
      DailyHeadLine(d, j);
    }
    FlattenHeads(blocks, DateTag, seq(n, j requires 0 <= j < n => Line(DateTag, d.time[j] + "\n")));
    DailyEntriesFlat(d, n);
  }

  /**
   * The hourly section is there only for a present, non-empty `time` array;
   * it then lists min(|time|, 24) entries, the first ones, in order.
   */
  lemma HourlySection(hourly: Option<HourlyData>)
    ensures !(hourly.Some? && |hourly.value.time| > 0) ==> HourlyLines(hourly) == []
    ensures hourly.Some? && |hourly.value.time| > 0 ==>
      var times := Tagged(HourlyLines(hourly), TimeTag);
      && HourlyLines(hourly)[0] == HourlyTitle
      && |times| == (if |hourly.value.time| < 24 then |hourly.value.time| else 24)
      && forall j :: 0 <= j < |times| ==> times[j] == Line(TimeTag, hourly.value.time[j] + "\n")
  {
    if hourly.Some? && |hourly.value.time| > 0 {
      HourlySectionTimes(hourly.value);
    }
  }

  /** The "Time: " lines of a present, non-empty hourly section are the first times, up to the cap. */
  lemma HourlySectionTimes(h: HourlyData)
    requires |h.time| > 0
    ensures Tagged(HourlyLines(Some(h)), TimeTag)
         == seq(HourlyLimit(|h.time|), j requires 0 <= j < HourlyLimit(|h.time|) => Line(TimeTag, h.time[j] + "\n"))
  {
    var n := HourlyLimit(|h.time|);
    assert HourlyLines(Some(h)) == [HourlyTitle] + HourlyEntries(h, n);
    TaggedAppend([HourlyTitle], HourlyEntries(h, n), TimeTag);
    Differ(HourlyTitle, TimeTag, 0);
    HourlyTimes(h, n);
  }

  /**
   * The daily section is there only for a present, non-empty `time` array;
   * it then lists every date, in order, with no cap.
   */
  lemma DailySection(daily: Option<DailyData>)
    ensures !(daily.Some? && |daily.value.time| > 0) ==> DailyLines(daily) == []
    ensures daily.Some? && |daily.value.time| > 0 ==>
      var dates := Tagged(DailyLines(daily), DateTag);
      && DailyLines(daily)[0] == DailyTitle
      && |dates| == |daily.value.time|
      && forall j :: 0 <= j < |dates| ==> dates[j] == Line(DateTag, daily.value.time[j] + "\n")
  {
    if daily.Some? && |daily.value.time| > 0 {
      var d := daily.value;
      assert DailyLines(daily) == [DailyTitle] + DailyEntries(d, |d.time|);
      TaggedAppend([DailyTitle], DailyEntries(d, |d.time|), DateTag);
      Differ(DailyTitle, DateTag, 0);
      DailyDates(d, |d.time|);
      assert Tagged(DailyLines(daily), DateTag) == seq(|d.time|, j requires 0 <= j < |d.time| => Line(DateTag, d.time[j] + "\n"));
    }
  }

  /**
   * The current block has a "Conditions" line exactly when the code has a
   * description, whatever the code (the guard around the lookup holds always).
   */
  lemma CurrentConditions(c: CurrentData)
    ensures HasLine(CurrentLines(c), ConditionsTag) <==> c.weatherCode in Descriptions
    ensures c.weatherCode in Descriptions ==>
      Tagged(CurrentLines(c), ConditionsTag) == [Line(ConditionsTag, Descriptions[c.weatherCode] + "\n")]
  {
    CurrentConditionsLine(c);
  }

  lemma CurrentConditionsLine(c: CurrentData)
    ensures Tagged(CurrentLines(c), ConditionsTag) == ConditionsPart(c.weatherCode)
  {
    var tag := ConditionsTag;
    CurrentHeadUntagged(c);
    TaggedAppend(CurrentHead(c) + CurrentHumidity(c) + CurrentWindSpeed(c), ConditionsPart(c.weatherCode), tag);
    TaggedAppend(CurrentHead(c) + CurrentHumidity(c), CurrentWindSpeed(c), tag);
    TaggedAppend(CurrentHead(c), CurrentHumidity(c), tag);
    if c.humidity.Some? { Foreign(HumidityTag, c.humidity.value + "%\n", tag, 0); }
    if c.windSpeed.Some? { Foreign(WindSpeedTag, c.windSpeed.value + " km/h\n", tag, 0); }
    if Describe(c.weatherCode).Some? { Kept(tag, Describe(c.weatherCode).value + "\n"); }
  }

  /** The header, time and temperature lines carry no "Conditions: " tag. */
  lemma CurrentHeadUntagged(c: CurrentData)
    ensures Tagged(CurrentHead(c), ConditionsTag) == []
  {
    var tag := ConditionsTag;
    var time, temperature := Line(TimeTag, c.time + "\n"), Line(TemperatureTag, c.temperature + Celsius + "\n");
    assert CurrentHead(c) == [Header] + [time] + [temperature];
    TaggedAppend([Header] + [time], [temperature], tag);
    TaggedAppend([Header], [time], tag);
    Differ(Header, tag, 1);
    Foreign(TimeTag, c.time + "\n", tag, 0);
    Foreign(TemperatureTag, c.temperature + Celsius + "\n", tag, 0);
  }

  /** Code 0, also what a missing code decodes to, prints "Conditions: Clear sky". */
  lemma ClearSkyForCodeZero(c: CurrentData)
    requires c.weatherCode == 0
    ensures Tagged(CurrentLines(c), ConditionsTag) == ["Conditions: Clear sky\n"]
  {
    CurrentConditionsLine(c);
    assert Describe(0) == Some("Clear sky");
    assert ConditionsPart(0) == [Line(ConditionsTag, "Clear sky" + "\n")];
    assert Line(ConditionsTag, "Clear sky" + "\n") == "Conditions: Clear sky\n";
  }
}
