/**
 The error classification of `get_weather`, with the network exchange kept
 abstract. The HTTP client either gets no response at all or gets a status
 line and a body; `raise_for_status` turns client- and server-error statuses
 into exceptions before the body is decoded; and the two `except` clauses turn
 every exception into a dict with a single "error" key.
 */
module WeatherFetch {
  import opened Strings
  import opened PyJson

  /** Message prefix for exceptions of the HTTP library's own hierarchy. */
  const RequestPrefix: string := "Error en la solicitud: "
  /** Message prefix for any other exception. */
  const UnexpectedPrefix: string := "Ocurri\U{00F3} un error inesperado: "

  datatype Option<+T> = None | Some(value: T)

  /**
   What the body of the `try` produced: the decoded dict, or an exception
   (its `str()` text) of the library's hierarchy or of any other class.
   */
  datatype FetchOutcome =
    | Received(body: map<string, Json>)
    | RequestFailed(message: string)
    | Unexpected(message: string)

  /**
   One request that returned: either the client reported that it could not
   complete it (a connection or name-resolution failure, in the library's
   hierarchy), or the server answered with a status. `statusError` is the text `raise_for_status` would
   raise with; `decoded` is what decoding the body yields, left abstract
   because the class of a decoding failure depends on the library version.
   */
  datatype Exchange =
    | NoResponse(reason: string)
    | Response(status: int, statusError: string, decoded: FetchOutcome)

  /** 4xx client errors and 5xx server errors (sections 15.5 and 15.6 of RFC 9110). */
  predicate IsErrorStatus(status: int) {
    400 <= status < 600
  }

  /**
   The `try` body: `get`, then `raise_for_status`, then `json()`. A body is
   received only past a non-error status; only decoding can raise an exception
   outside the library's hierarchy.
   */
  function Attempt(ex: Exchange): (o: FetchOutcome)
    ensures o.Received? <==> ex.Response? && !IsErrorStatus(ex.status) && ex.decoded.Received?
    ensures o.RequestFailed? <==>
              ex.NoResponse? || IsErrorStatus(ex.status) || ex.decoded.RequestFailed?
    ensures o.Unexpected? ==> ex.Response? && !IsErrorStatus(ex.status) && o == ex.decoded
    ensures o.Received? ==> o == ex.decoded
  {
    match ex
    case NoResponse(reason) => RequestFailed(reason)
    case Response(status, statusError, decoded) =>
      if IsErrorStatus(status) then RequestFailed(statusError) else decoded
  }

  /** The value `get_weather` returns for an outcome: the body, or a one-key error dict. */
  function Classify(o: FetchOutcome): (r: map<string, Json>)
    ensures o.Received? ==> r == o.body
    ensures !o.Received? ==> r.Keys == {"error"} && r["error"].JStr?
    ensures o.RequestFailed? ==> StartsWith(r["error"].s, RequestPrefix)
    ensures o.Unexpected? ==> StartsWith(r["error"].s, UnexpectedPrefix)
    ensures !o.Received? ==> OccursAt(o.message, r["error"].s, |r["error"].s| - |o.message|)
  {
    match o
    case Received(body) => body
    case RequestFailed(message) => map["error" := JStr(RequestPrefix + message)]
    case Unexpected(message) => map["error" := JStr(UnexpectedPrefix + message)]
  }

  /** The prefix `Classify` puts in front of a failure's message. */
  function PrefixOf(o: FetchOutcome): string
    requires !o.Received?
  {
    if o.RequestFailed? then RequestPrefix else UnexpectedPrefix
  }

  /**
   Reads a failure back out of an error dict: the inverse of `Classify` on
   failures. `None` means the dict is not one `Classify` builds from a failure.
   */
  function Declassify(r: map<string, Json>): (o: Option<FetchOutcome>)
    ensures o.Some? ==> !o.value.Received? && r.Keys == {"error"}
  {
    if r.Keys == {"error"} && r["error"].JStr? then
      var text := r["error"].s;
      if StartsWith(text, RequestPrefix) then Some(RequestFailed(text[|RequestPrefix|..]))
      else if StartsWith(text, UnexpectedPrefix) then Some(Unexpected(text[|UnexpectedPrefix|..]))
      else None
    else None
  }

  /** Classifying a failure loses nothing: its class and message can be read back. */
  lemma DeclassifyClassify(o: FetchOutcome)
    requires !o.Received?
    ensures Declassify(Classify(o)) == Some(o)
  {
    var text := Classify(o)["error"].s;
    if o.RequestFailed? {
      assert text[|RequestPrefix|..] == o.message;
    } else {
      assert text[..|UnexpectedPrefix|] == UnexpectedPrefix;
      FirstCharDecides(text, RequestPrefix);
      assert text[|UnexpectedPrefix|..] == o.message;
    }
  }

  /** Two failures classify to the same dict only if they are the same failure. */
  lemma ClassifyInjectiveOnFailures(o1: FetchOutcome, o2: FetchOutcome)
    requires !o1.Received? && !o2.Received?
    requires Classify(o1) == Classify(o2)
    ensures o1 == o2
  {
    DeclassifyClassify(o1);
    DeclassifyClassify(o2);
  }

  /** A client- or server-error status is a request failure, whatever the body holds. */
  lemma ErrorStatusIsRequestFailure(status: int, statusError: string, decoded: FetchOutcome)
    requires IsErrorStatus(status)
    ensures Classify(Attempt(Response(status, statusError, decoded)))
            == map["error" := JStr(RequestPrefix + statusError)]
  {
  }

  /**
   Any other status, including the non-200 successes and redirects that the
   comment on the status check does not mention, goes on to decode the body.
   */
  lemma OtherStatusDecodesBody(status: int, statusError: string, decoded: FetchOutcome)
    requires !IsErrorStatus(status)
    ensures Attempt(Response(status, statusError, decoded)) == decoded
  {
  }

  // ---------------------------------------------------------------------------
  // The request URL.
  // ---------------------------------------------------------------------------

  const Endpoint: string := "http://api.openweathermap.org/data/2.5/weather?q="
  const KeyParam: string := "&appid="
  const FixedParams: string := "&units=metric&lang=es"

  /** The URL of the current-weather request, with the city and key pasted in as they are. */
  function WeatherUrl(city: string, apiKey: string): (url: string)
    ensures StartsWith(url, Endpoint)
    ensures |url| == |Endpoint| + |city| + |KeyParam| + |apiKey| + |FixedParams|
  {
    Endpoint + city + KeyParam + apiKey + FixedParams
  }

  /** Recovers the city from a request URL built with `apiKey`; `None` for any other URL. */
  function CityFromUrl(url: string, apiKey: string): (city: Option<string>)
    ensures city.Some? ==> |url| == |Endpoint| + |city.value| + |KeyParam| + |apiKey| + |FixedParams|
  {
    var tail := KeyParam + apiKey + FixedParams;
    if |Endpoint| + |tail| <= |url| && StartsWith(url, Endpoint) && url[|url| - |tail|..] == tail then
      Some(url[|Endpoint|..|url| - |tail|])
    else None
  }

  /** The city can be read back from the URL built for it. */
  lemma CityFromWeatherUrl(city: string, apiKey: string)
    ensures CityFromUrl(WeatherUrl(city, apiKey), apiKey) == Some(city)
  {
    var url := WeatherUrl(city, apiKey);
    var tail := KeyParam + apiKey + FixedParams;
    assert url == Endpoint + city + tail;
    assert url[|url| - |tail|..] == tail;
    assert url[|Endpoint|..|url| - |tail|] == city;
  }

  /** With the key fixed, different cities give different URLs. */
  lemma WeatherUrlInjective(city1: string, city2: string, apiKey: string)
    requires WeatherUrl(city1, apiKey) == WeatherUrl(city2, apiKey)
    ensures city1 == city2
  {
    CityFromWeatherUrl(city1, apiKey);
    CityFromWeatherUrl(city2, apiKey);
  }
}
