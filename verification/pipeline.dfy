/**
 The two tools run one after the other: the dict `get_weather` returns for a
 fetch outcome is handed to `format_weather_report`. Error outcomes always
 become a report; only a received body can still make the formatter raise.
 */
module Pipeline {
  import opened Strings
  import opened PyJson
  import opened WeatherReport
  import opened WeatherFetch

  /** The report for one fetch outcome: classify, then format. */
  function ReportFor(o: FetchOutcome, show: Json -> string): (r: Result<string>)
    ensures !o.Received? ==> r.Ok?
    ensures o.Received? && "error" !in o.body ==> (r.Raise? <==> Crashes(o.body))
  {
    FormatRaisesIffCrashes(Classify(o));
    FormatWeatherReport(Classify(o), show)
  }

  /**
   Every failure becomes "Error: " followed by the class prefix and the
   exception's text, which therefore appears verbatim in the report.
   */
  lemma FailureReportQuotesMessage(o: FetchOutcome, show: Json -> string)
    requires !o.Received? && ShowsStringsVerbatim(show)
    ensures ReportFor(o, show) == Ok(ErrorPrefix + PrefixOf(o) + o.message)
    ensures OccursAt(o.message, ReportFor(o, show).value, |ErrorPrefix| + |PrefixOf(o)|)
  {
    var text := PrefixOf(o) + o.message;
    assert Classify(o) == map["error" := JStr(text)];
    ErrorMessageVerbatim(Classify(o), text, show);
    OccursAtEnd(ErrorPrefix + PrefixOf(o), o.message);
    assert ErrorPrefix + text == ErrorPrefix + PrefixOf(o) + o.message;
  }

  /** A report is an error report exactly when the fetch failed or the body itself carries "error". */
  lemma ReportIsErrorIff(o: FetchOutcome, show: Json -> string)
    requires ReportFor(o, show).Ok?
    ensures StartsWith(ReportFor(o, show).value, ErrorPrefix) <==> (!o.Received? || "error" in o.body)
  {
    var data := Classify(o);
    TextStartsWithErrorIff(Format(data).value, show);
  }

  /** A received body is formatted exactly as it came. */
  lemma ReceivedBodyIsFormatted(body: map<string, Json>, show: Json -> string)
    ensures ReportFor(Received(body), show) == FormatWeatherReport(body, show)
  {
  }

  /** A request that never got a response reports the transport problem as a request error. */
  lemma NoResponseReport(reason: string, show: Json -> string)
    requires ShowsStringsVerbatim(show)
    ensures ReportFor(Attempt(NoResponse(reason)), show) == Ok(ErrorPrefix + RequestPrefix + reason)
  {
    FailureReportQuotesMessage(RequestFailed(reason), show);
  }

  /** An unknown city (status 404) reports the status error, whatever the body. */
  lemma NotFoundReport(statusError: string, decoded: FetchOutcome, show: Json -> string)
    requires ShowsStringsVerbatim(show)
    ensures ReportFor(Attempt(Response(404, statusError, decoded)), show)
            == Ok(ErrorPrefix + RequestPrefix + statusError)
  {
    FailureReportQuotesMessage(RequestFailed(statusError), show);
  }

  /** A typical provider answer fills the sentence with its name, description and temperature. */
  lemma MadridReport(show: Json -> string)
    requires ShowsStringsVerbatim(show)
    ensures
      var body := map[
        "name" := JStr("Madrid"),
        "main" := JObj(map["temp" := JNum(21.5)]),
        "weather" := JArr([JObj(map["description" := JStr("cielo despejado")])])];
      ReportFor(Received(body), show)
      == Ok(Opening + "Madrid" + BeforeDescription + "cielo despejado"
            + BeforeTemperature + show(JNum(21.5)) + Closing)
  {
  }

  /** A "main" without "temp" still gives a sentence, with "N/A" as the temperature. */
  lemma MissingTemperatureReport(city: string, description: string, show: Json -> string)
    requires ShowsStringsVerbatim(show)
    ensures
      var body := map[
        "name" := JStr(city),
        "main" := JObj(map[]),
        "weather" := JArr([JObj(map["description" := JStr(description)])])];
      ReportFor(Received(body), show)
      == Ok(Opening + city + BeforeDescription + description
            + BeforeTemperature + NotAvailable + Closing)
  {
  }
}
