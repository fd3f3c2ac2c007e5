/**
 The weather report formatter: a decoded dict becomes either an error line
 or one fixed Spanish sentence naming the city, the description and the
 temperature. `Format` decides which fields fill the template (or which
 exception aborts it); `Text` lays the pieces into the sentence.
 */
module WeatherReport {
  import opened Strings
  import opened PyJson

  /** City shown when the dict has no "name". */
  const Unknown: string := "Desconocida"
  /** Temperature or description shown when the dict does not provide one. */
  const NotAvailable: string := "N/A"
  /** Every error report starts with this. */
  const ErrorPrefix: string := "Error: "

  /** The fixed pieces of the success sentence, around the three fields. */
  const Opening: string := "\U{1F324}\U{FE0F} El clima en "
  const BeforeDescription: string := " es actualmente "
  const BeforeTemperature: string := " con una temperatura de "
  const Closing: string := "\U{00B0}C."

  /** A report as template pieces: the values that `str()` will render into the text. */
  datatype Report =
    | ErrorLine(detail: Json)
    | WeatherLine(city: Json, description: Json, temperature: Json)

  /**
   The field selection of `format_weather_report`. An "error" key wins over
   everything else; otherwise the city, temperature and description are looked
   up with their defaults, in the order the source evaluates them, so that the
   first failing lookup decides the exception.
   */
  function Format(data: map<string, Json>): (r: Result<Report>)
    ensures (r.Ok? && r.value.ErrorLine?) <==> "error" in data
    ensures r.Raise? ==> "error" !in data && ("main" in data || "weather" in data)
  {
    if "error" in data then
      Ok(ErrorLine(data["error"]))
    else
      var city := Get(data, "name", JStr(Unknown));
      match DictGet(Get(data, "main", JObj(map[])), "temp", JStr(NotAvailable))
      case Raise(e) => Raise(e)
      case Ok(temperature) =>
        match Subscript0(Get(data, "weather", JArr([JObj(map[])])))
        case Raise(e) => Raise(e)
        case Ok(first) =>
          match DictGet(first, "description", JStr(NotAvailable))
          case Raise(e) => Raise(e)
          case Ok(description) => Ok(WeatherLine(city, description, temperature))
  }

  /** The f-strings of the source, with `str()` supplied as `show`. */
  function Text(rep: Report, show: Json -> string): (t: string)
    ensures rep.ErrorLine? ==> t == ErrorPrefix + show(rep.detail)
    ensures rep.WeatherLine? ==> StartsWith(t, Opening)
    ensures rep.WeatherLine? ==> |Closing| <= |t| && t[|t| - |Closing|..] == Closing
  {
    match rep
    case ErrorLine(detail) => ErrorPrefix + show(detail)
    case WeatherLine(city, description, temperature) =>
      Opening + show(city) + BeforeDescription + show(description)
      + BeforeTemperature + show(temperature) + Closing
  }

  /** `format_weather_report` itself: the text, or the exception that escapes. */
  function FormatWeatherReport(data: map<string, Json>, show: Json -> string): (r: Result<string>)
    ensures r.Raise? <==> Format(data).Raise?
    ensures r.Raise? ==> r.error == Format(data).error
  {
    match Format(data)
    case Raise(e) => Raise(e)
    case Ok(rep) => Ok(Text(rep, show))
  }

  // ---------------------------------------------------------------------------
  // A declarative reading of the formatter, field by field.
  // ---------------------------------------------------------------------------

  /** The city shown: the "name" entry, whatever it holds, else "Desconocida". */
  ghost predicate CityOf(data: map<string, Json>, c: Json) {
    || ("name" in data && c == data["name"])
    || ("name" !in data && c == JStr(Unknown))
  }

  /** `data.get("main", {})` is something with a `.get`. */
  ghost predicate MainUsable(data: map<string, Json>) {
    "main" !in data || data["main"].JObj?
  }

  /** The temperature shown: "main"'s "temp" entry, else "N/A". */
  ghost predicate TemperatureOf(data: map<string, Json>, t: Json) {
    || ("main" !in data && t == JStr(NotAvailable))
    || ("main" in data && data["main"].JObj? && "temp" in data["main"].fields
        && t == data["main"].fields["temp"])
    || ("main" in data && data["main"].JObj? && "temp" !in data["main"].fields
        && t == JStr(NotAvailable))
  }

  /** `data.get("weather", [{}])[0]` exists and has a `.get`. */
  ghost predicate WeatherUsable(data: map<string, Json>) {
    "weather" !in data
    || (data["weather"].JArr? && |data["weather"].elems| > 0 && data["weather"].elems[0].JObj?)
  }

  /** The description shown: the first "weather" entry's "description", else "N/A". */
  ghost predicate DescriptionOf(data: map<string, Json>, d: Json) {
    || ("weather" !in data && d == JStr(NotAvailable))
    || ("weather" in data && WeatherUsable(data)
        && "description" in data["weather"].elems[0].fields
        && d == data["weather"].elems[0].fields["description"])
    || ("weather" in data && WeatherUsable(data)
        && "description" !in data["weather"].elems[0].fields
        && d == JStr(NotAvailable))
  }

  /** `rep` is the report the source's branches promise for `data`. */
  ghost predicate Describes(data: map<string, Json>, rep: Report) {
    match rep
    case ErrorLine(v) => "error" in data && data["error"] == v
    case WeatherLine(c, d, t) =>
      && "error" !in data
      && CityOf(data, c)
      && TemperatureOf(data, t)
      && DescriptionOf(data, d)
  }

  /** The formatter aborts: no "error" key, and "main" or "weather" has the wrong shape. */
  ghost predicate Crashes(data: map<string, Json>) {
    "error" !in data && !(MainUsable(data) && WeatherUsable(data))
  }

  /**
   The class of the exception that escapes a crashing formatter: the
   temperature lookup runs first, then `[0]`, then the description's `.get`.
   */
  ghost function CrashClass(data: map<string, Json>): Exception
    requires Crashes(data)
  {
    if !MainUsable(data) then AttributeError
    else
      match data["weather"]
      case JArr(xs) => if |xs| == 0 then IndexError else AttributeError
      case JStr(s) => if |s| == 0 then IndexError else AttributeError
      case JObj(_) => KeyError
      case _ => TypeError
  }

  /** The formatter succeeds with exactly the report the reference reading describes. */
  lemma FormatMatchesReference(data: map<string, Json>, rep: Report)
    ensures Format(data) == Ok(rep) <==> Describes(data, rep)
  {
  }

  /** The formatter raises exactly on the crashing shapes, and with their exception class. */
  lemma FormatRaisesIffCrashes(data: map<string, Json>)
    ensures Format(data).Raise? <==> Crashes(data)
    ensures Crashes(data) ==> Format(data).error == CrashClass(data)
  {
  }

  /** An empty "weather" list aborts the report with an IndexError from `[0]`. */
  lemma EmptyWeatherListRaises(data: map<string, Json>)
    requires "error" !in data && MainUsable(data)
    requires "weather" in data && data["weather"] == JArr([])
    ensures Format(data) == Raise(IndexError)
  {
  }

  /** A present "name" is shown as it is; a missing one shows "Desconocida". */
  lemma CityDefaulting(data: map<string, Json>)
    requires "error" !in data && Format(data).Ok?
    ensures "name" in data ==> Format(data).value.city == data["name"]
    ensures "name" !in data ==> Format(data).value.city == JStr(Unknown)
  {
  }

  /** No "main", or a "main" dict without "temp", shows "N/A" as the temperature. */
  lemma TemperatureDefaulting(data: map<string, Json>)
    requires "error" !in data && Format(data).Ok?
    ensures "main" !in data ==> Format(data).value.temperature == JStr(NotAvailable)
    ensures "main" in data ==> data["main"].JObj?
    ensures "main" in data && "temp" !in data["main"].fields ==>
              Format(data).value.temperature == JStr(NotAvailable)
    ensures "main" in data && "temp" in data["main"].fields ==>
              Format(data).value.temperature == data["main"].fields["temp"]
  {
  }

  /** No "weather", or a first entry without "description", shows "N/A" as the description. */
  lemma DescriptionDefaulting(data: map<string, Json>)
    requires "error" !in data && Format(data).Ok?
    ensures "weather" !in data ==> Format(data).value.description == JStr(NotAvailable)
    ensures "weather" in data ==>
              data["weather"].JArr? && |data["weather"].elems| > 0 && data["weather"].elems[0].JObj?
    ensures "weather" in data && "description" !in data["weather"].elems[0].fields ==>
              Format(data).value.description == JStr(NotAvailable)
    ensures "weather" in data && "description" in data["weather"].elems[0].fields ==>
              Format(data).value.description == data["weather"].elems[0].fields["description"]
  {
  }

  /** Only the first entry of the "weather" list is consulted. */
  lemma OnlyFirstWeatherEntryMatters(data: map<string, Json>, rest: seq<Json>)
    requires "weather" in data && data["weather"].JArr? && |data["weather"].elems| > 0
    ensures Format(data["weather" := JArr([data["weather"].elems[0]] + rest)]) == Format(data)
  {
  }

  /** Keys other than "error", "name", "main" and "weather" never change the outcome. */
  lemma OtherKeysIgnored(data: map<string, Json>, key: string, v: Json)
    requires key !in {"error", "name", "main", "weather"}
    ensures Format(data[key := v]) == Format(data)
    ensures Format(data - {key}) == Format(data)
  {
  }

  /** `d1` and `d2` hold the same entry under `key`, or both lack it. */
  ghost predicate SameEntry(d1: map<string, Json>, d2: map<string, Json>, key: string) {
    (key in d1 <==> key in d2) && (key in d1 ==> d1[key] == d2[key])
  }

  /**
   `d1` and `d2` agree on everything the report reads: "error"; and, when there
   is no error, "name", the "temp" of a dict "main", and the "description" of
   the first dict of a non-empty "weather" list. Agreement also includes the
   shapes: "main" is absent from both or a dict in both, and "weather" is absent
   from both or usable in both, although an absent "main" and an empty dict
   "main" give the same report.
   */
  ghost predicate AgreeOnReportedFields(d1: map<string, Json>, d2: map<string, Json>) {
    && SameEntry(d1, d2, "error")
    && ("error" !in d1 ==>
          && SameEntry(d1, d2, "name")
          && (("main" !in d1 && "main" !in d2)
              || ("main" in d1 && "main" in d2 && d1["main"].JObj? && d2["main"].JObj?
                  && SameEntry(d1["main"].fields, d2["main"].fields, "temp")))
          && (("weather" !in d1 && "weather" !in d2)
              || ("weather" in d1 && "weather" in d2 && WeatherUsable(d1) && WeatherUsable(d2)
                  && SameEntry(d1["weather"].elems[0].fields, d2["weather"].elems[0].fields, "description"))))
  }

  /** Nothing else matters: agreement on the reported fields gives the same outcome. */
  lemma AgreementGivesSameReport(d1: map<string, Json>, d2: map<string, Json>)
    requires AgreeOnReportedFields(d1, d2)
    ensures Format(d1) == Format(d2)
    ensures Format(d1).Ok?
  {
  }

  // ---------------------------------------------------------------------------
  // The text of a report.
  // ---------------------------------------------------------------------------

  /** A report's text starts with "Error: " exactly when it is an error report. */
  lemma TextStartsWithErrorIff(rep: Report, show: Json -> string)
    ensures StartsWith(Text(rep, show), ErrorPrefix) <==> rep.ErrorLine?
  {
    var t := Text(rep, show);
    if rep.ErrorLine? {
      assert t[..|ErrorPrefix|] == ErrorPrefix;
    } else {
      assert t[0] == Opening[0];
      FirstCharDecides(t, ErrorPrefix);
    }
  }

  /** With an "error" key the text is "Error: " followed by that value's `str()`, whatever else is there. */
  lemma ErrorKeyWins(data: map<string, Json>, show: Json -> string)
    requires "error" in data
    ensures FormatWeatherReport(data, show) == Ok(ErrorPrefix + show(data["error"]))
    ensures FormatWeatherReport(data, show) == FormatWeatherReport(map["error" := data["error"]], show)
  {
  }

  /** A string error value appears verbatim after "Error: ". */
  lemma ErrorMessageVerbatim(data: map<string, Json>, message: string, show: Json -> string)
    requires ShowsStringsVerbatim(show)
    requires "error" in data && data["error"] == JStr(message)
    ensures FormatWeatherReport(data, show) == Ok(ErrorPrefix + message)
    ensures OccursAt(message, FormatWeatherReport(data, show).value, |ErrorPrefix|)
  {
  }

  /** Without an "error" key a successful text is the sentence, never an error report. */
  lemma SuccessIsNeverAnErrorReport(data: map<string, Json>, show: Json -> string)
    requires "error" !in data && FormatWeatherReport(data, show).Ok?
    ensures !StartsWith(FormatWeatherReport(data, show).value, ErrorPrefix)
    ensures StartsWith(FormatWeatherReport(data, show).value, Opening)
  {
    var rep := Format(data).value;
    TextStartsWithErrorIff(rep, show);
    var t := Text(rep, show);
    assert t[..|Opening|] == Opening;
  }

  /**
   The sentence names the city, then the description, then the temperature,
   each rendered verbatim.
   */
  lemma WeatherLineFieldOrder(city: Json, description: Json, temperature: Json, show: Json -> string)
    ensures exists i, j, k ::
              && OccursAt(show(city), Text(WeatherLine(city, description, temperature), show), i)
              && OccursAt(show(description), Text(WeatherLine(city, description, temperature), show), j)
              && OccursAt(show(temperature), Text(WeatherLine(city, description, temperature), show), k)
              && i + |show(city)| < j
              && j + |show(description)| < k
  {
    var c, d, tp := show(city), show(description), show(temperature);
    var s1 := Opening + c;
    OccursAtEnd(Opening, c);
    var s3 := s1 + BeforeDescription + d;
    OccursExtend(c, s1, |Opening|, BeforeDescription);
    OccursExtend(c, s1 + BeforeDescription, |Opening|, d);
    OccursAtEnd(s1 + BeforeDescription, d);
    var s5 := s3 + BeforeTemperature + tp;
    OccursExtend(c, s3, |Opening|, BeforeTemperature);
    OccursExtend(c, s3 + BeforeTemperature, |Opening|, tp);
    OccursExtend(d, s3, |s1 + BeforeDescription|, BeforeTemperature);
    OccursExtend(d, s3 + BeforeTemperature, |s1 + BeforeDescription|, tp);
    OccursAtEnd(s3 + BeforeTemperature, tp);
    OccursExtend(c, s5, |Opening|, Closing);
    OccursExtend(d, s5, |s1 + BeforeDescription|, Closing);
    OccursExtend(tp, s5, |s3 + BeforeTemperature|, Closing);
    assert Text(WeatherLine(city, description, temperature), show) == s5 + Closing;
  }
}
