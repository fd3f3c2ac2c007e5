# Weather report pipeline

A Dafny model of the deterministic core of a small weather chatbot. A city
name is sent to the OpenWeatherMap current-weather endpoint by the tool
`get_weather`. The decoded answer, or an error dict, goes to the tool
`format_weather_report`, which turns it into one Spanish sentence or an
`Error: ...` line.

The model has five modules, one file each:

- `Strings` (`strings.dfy`): prefix and occurrence predicates on strings.
- `PyJson` (`pyjson.dfy`): decoded JSON values (`Json`), plus the three dynamic
  Python operations the formatter uses: `dict.get` with a default, `.get` on a
  value of unknown type, and `[0]`. An operation that would raise returns
  `Raise` with the exception class.
- `WeatherReport` (`report.dfy`): `format_weather_report`. `Format` selects the
  fields as template pieces (`Report`), or the exception that escapes. `Text`
  lays the pieces into the f-strings. A declarative reading (`Describes`,
  `Crashes`, `CrashClass`) is proved equivalent to `Format`, together with the
  defaulting, precedence and "nothing else matters" properties.
- `WeatherFetch` (`fetch.dfy`): `get_weather` without the I/O. An `Exchange` is
  either no response or a status plus the outcome of decoding. `Attempt` models
  `raise_for_status` (4xx and 5xx only, the client-error and server-error classes
  of sections 15.5 and 15.6 of RFC 9110) before decoding. `Classify` models the
  two `except` clauses. `WeatherUrl` is the request URL, and `Declassify` and
  `CityFromUrl` are their inverses.
- `Pipeline` (`pipeline.dfy`): the composition "format what the fetch
  returned", with the end-to-end error contract.

Python's `str()` of a decoded value is a caller-supplied `show: Json -> string`.
This covers float formatting and the repr of dicts and lists. Where a property
needs it, the model assumes only that `str()` of a `str` is that string
(`ShowsStringsVerbatim`).

Three behaviours of the code are worth stating plainly:
- The comment on app.py:31 says an error is raised when the status is not 200.
  `raise_for_status` only raises for 4xx and 5xx, so a 204 or a 3xx goes on to
  body decoding (`OtherStatusDecodesBody`). The model follows the code.
- The formatter is not total. A `weather` value that is an empty list, not a
  list, or a list whose first entry is not a dict raises, and so does a `main`
  that is not a dict (`FormatRaisesIffCrashes`, `EmptyWeatherListRaises`). A
  missing name shows `Desconocida`.
- The `name`, `temp` and `description` fields are shown through `str()` whatever
  they hold, including `None` or nested values.

## Model

| member | source | states |
|---|---|---|
| PyJson.DictGet | app.py:49 | `.get` succeeds exactly on a dict, and otherwise raises AttributeError; on a dict it yields the entry or the default |
| PyJson.Subscript0 | app.py:50 | `[0]` succeeds exactly on a non-empty list or string. An empty one raises IndexError, a dict raises KeyError, and None, a bool or a number raises TypeError |
| WeatherReport.Format | app.py:45-50 | the result is an error report exactly when the dict has an "error" key; it raises only without "error" and only when "main" or "weather" is present |
| WeatherReport.FormatMatchesReference | app.py:45-50 | `Format` returns report `rep` if and only if `rep` matches the field-by-field reading: the "error" entry, or else the city, temperature and description with their defaults |
| WeatherReport.FormatRaisesIffCrashes | app.py:49-50 | the formatter raises exactly when "main" is not a dict, or "weather" is not a non-empty list whose first entry is a dict. The exception class follows the evaluation order (temperature lookup before `[0]`) |
| WeatherReport.EmptyWeatherListRaises | app.py:50 | an empty "weather" list produces no report: `[0]` raises IndexError |
| WeatherReport.CityDefaulting | app.py:48 | a present "name" is shown as it is; a missing one shows "Desconocida" |
| WeatherReport.TemperatureDefaulting | app.py:49 | a missing "main", or a "main" dict without "temp", shows "N/A"; otherwise the "temp" entry is shown |
| WeatherReport.DescriptionDefaulting | app.py:50 | a missing "weather", or a first entry without "description", shows "N/A"; otherwise that entry's "description" is shown |
| WeatherReport.OnlyFirstWeatherEntryMatters | app.py:50 | replacing every entry of "weather" after the first never changes the outcome |
| WeatherReport.OtherKeysIgnored | app.py:45-50 | adding, changing or removing any key other than "error", "name", "main" and "weather" never changes the outcome |
| WeatherReport.AgreementGivesSameReport | app.py:45-52 | two dicts that agree on "error", or else on "name", "main"'s "temp" and the first "weather" entry's "description", give the same successful report |
| WeatherReport.Text | app.py:46-52 | an error report is "Error: " followed by the value's `str()`; a weather report starts with the sentence opening (the sun emoji and "El clima en ") and ends with "°C." |
| WeatherReport.FormatWeatherReport | app.py:41-52 | the tool raises exactly when the field selection raises, and with the same exception |
| WeatherReport.TextStartsWithErrorIff | app.py:46-52 | a report's text starts with "Error: " if and only if it is an error report |
| WeatherReport.ErrorKeyWins | app.py:45-46 | with an "error" key the text is "Error: " followed by that value's `str()`, the same as for a dict holding only that key |
| WeatherReport.ErrorMessageVerbatim | app.py:46 | a string error value appears verbatim right after "Error: " |
| WeatherReport.SuccessIsNeverAnErrorReport | app.py:52 | without "error", a successful text starts with the weather sentence and never with "Error: " |
| WeatherReport.WeatherLineFieldOrder | app.py:52 | the sentence contains the city, the description and the temperature verbatim, in that order and not overlapping |
| WeatherFetch.Attempt | app.py:29-33 | a body is received exactly when the server answered with a non-error status and decoding succeeded, and it is the decoded one. A request failure comes exactly from a failed connection, a 4xx/5xx status or a library-class decoding failure. An exception of another class can only come from decoding |
| WeatherFetch.Classify | app.py:29-37 | a received body is returned unchanged. A failure becomes a dict whose only key is "error", holding a string that starts with the class prefix and ends with the exception's text |
| WeatherFetch.Declassify | app.py:34-37 | reads a failure back from an error dict, and answers only for single-key "error" dicts |
| WeatherFetch.DeclassifyClassify | app.py:34-37 | classifying a failure loses nothing: its class and message can be read back |
| WeatherFetch.ClassifyInjectiveOnFailures | app.py:34-37 | two failures give the same error dict only if they have the same class and message |
| WeatherFetch.ErrorStatusIsRequestFailure | app.py:31-35 | a 4xx/5xx status becomes the "Error en la solicitud: " dict, whatever the body holds |
| WeatherFetch.OtherStatusDecodesBody | app.py:31-33 | every other status, including non-200 successes, reaches body decoding, unlike what the comment on line 31 says |
| WeatherFetch.WeatherUrl | app.py:27 | the request URL starts with the endpoint, and its length is that of the endpoint, city, key and fixed parameters together |
| WeatherFetch.CityFromUrl | app.py:27 | reads the city back from a URL built with a given key |
| WeatherFetch.CityFromWeatherUrl | app.py:27 | the city can be read back from the URL built for it |
| WeatherFetch.WeatherUrlInjective | app.py:27 | with the key fixed, different cities give different URLs |
| Pipeline.ReportFor | app.py:29-52 | a failed fetch always yields a report. For a received body without "error", the pipeline raises exactly on the crashing shapes |
| Pipeline.FailureReportQuotesMessage | app.py:34-46 | every failure reports "Error: ", then the class prefix, then the exception's text verbatim |
| Pipeline.ReportIsErrorIff | app.py:33-46 | a report starts with "Error: " exactly when the fetch failed or the received body itself has an "error" key |
| Pipeline.ReceivedBodyIsFormatted | app.py:32-33 | a received body reaches the formatter unchanged |
| Pipeline.NoResponseReport | app.py:30-35 | a request the library reports as failed without a response (connection or name-resolution failure) reports "Error: Error en la solicitud: " and the reason |
| Pipeline.NotFoundReport | app.py:31-35 | a 404 reports "Error: Error en la solicitud: " and the status error, whatever the body |
| Pipeline.MadridReport | app.py:48-52 | a typical answer for Madrid gives the sentence with "Madrid", "cielo despejado" and the rendered 21.5 |
| Pipeline.MissingTemperatureReport | app.py:49-52 | a "main" without "temp" still gives the sentence, with "N/A" as the temperature |

## Left out

- The HTTP GET itself, the JSON decoding and the text of the library's exceptions (app.py:30-32). They are network I/O and library behaviour. An `Exchange` carries the reason, the status error text and the decoding outcome as given values.
- A request that never completes. `requests.get` on app.py:30 passes no `timeout`, so a server that accepts the connection and never answers blocks `get_weather` forever, and no dict or report is produced. Such a stall is not an `Exchange` of the model, and the end-to-end statements in `Pipeline` cover only requests that return or fail.
- Which exception class a body-decoding failure belongs to. It depends on the HTTP library's version, so the decoding outcome is a parameter and can be either kind of failure.
- A decoded body that is not a JSON object. The provider answers with objects, and the formatter's `"error" in` test would mean something else on a list or a string.
- Percent-encoding of the URL by the HTTP library. `WeatherUrl` is the f-string only.
- Python's `str()` of numbers, None, bools, lists and dicts, which covers float formatting. It is the caller-supplied `show`. `JNum` holds a real, so the model does not tell an int from a float.
- Loading the API keys from the environment and configuring the language model (app.py:9-19). These are configuration and foreign calls.
- The agents, tasks and crew, and `crew.kickoff` (app.py:64-109). A language model decides whether and how the tools are called, so the app does not guarantee that its output is the formatted fetch. `Pipeline` models only the intended composition.
- The Streamlit page, including the `if city:` guard that skips empty input (app.py:55-62, 106-113). This is presentation.
