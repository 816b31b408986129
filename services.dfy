/** The weather fetch client: input and credential checks, the request URL, the
    single GET, the classification of its outcome, and the tolerant parse step.
    The network, the JSON deserializer and the credential store are inputs:
    `transport` maps a URL to the outcome of one GET, `deserialize` maps a body to
    what the deserializer returns or throws, and `ApiConfig` holds what the
    configuration exposes. */
module Services {
  import opened Wrappers
  import opened Strings
  import opened Data

  /** The endpoint the client queries unless its serialized `baseUrl` is changed. */
  const DefaultBaseUrl: string := "https://api.openweathermap.org/data/2.5/weather"

  /** What the configuration exposes: whether a key is configured, and the key. */
  datatype ApiConfig = ApiConfig(configured: bool, apiKey: Option<string>)

  /** The state of a finished web request, with the data each case carries. */
  datatype Outcome =
    | InProgress
    | Success(text: string)
    | ConnectionError(error: string)
    | ProtocolError(responseCode: int, error: string)
    | DataProcessingError(error: string)

  /** What the deserializer does with a body: it returns a record (possibly null),
      or it throws a JSON exception with a message. */
  datatype Deserialized = Deserialized(record: Option<WeatherData>) | JsonException(message: string)

  /** One diagnostic message, by kind, with the detail it includes. */
  datatype LogEntry =
    | CityNameEmpty
    | ApiKeyNotConfigured
    | ConnectionFailed(error: string)
    | HttpError(responseCode: int, error: string)
    | DataProcessingFailed(error: string)
    | JsonParsingFailed(message: string)

  /** What one step yields and logs. */
  datatype Step = Step(result: Option<WeatherData>, log: seq<LogEntry>)

  /** What one whole fetch yields, the URLs it requested, and what it logged. */
  datatype Trace = Trace(result: Option<WeatherData>, requests: seq<string>, log: seq<LogEntry>)

  /** A string as C# interpolation renders it: null becomes "". */
  function Interpolated(s: Option<string>): string {
    match s
    case Some(v) => v
    case None => ""
  }

  /** `$"{baseUrl}?q={city}&appid={apiKey}"`: the city and the key are inserted
      verbatim, without percent-encoding. */
  function BuildUrl(baseUrl: string, city: string, apiKey: string): (url: string)
    ensures |url| == |baseUrl| + 3 + |city| + 7 + |apiKey|
    ensures url[..|baseUrl|] == baseUrl
    ensures url[|baseUrl|..|baseUrl| + 3] == "?q="
    ensures url[|baseUrl| + 3..|baseUrl| + 3 + |city|] == city
    ensures url[|baseUrl| + 3 + |city|..|baseUrl| + 10 + |city|] == "&appid="
    ensures url[|baseUrl| + 10 + |city|..] == apiKey
  {
    baseUrl + "?q=" + city + "&appid=" + apiKey
  }

  /** `ParseWeatherData`: a JSON exception becomes null plus one log entry; whatever
      the deserializer returns, null or a record, is passed on unchecked. */
  function Parse(text: string, deserialize: string -> Deserialized): (s: Step)
    ensures s.log == [] ==> deserialize(text) == Deserialized(s.result)
    ensures s.log != [] ==>
      deserialize(text).JsonException? && s.result == None &&
      s.log == [JsonParsingFailed(deserialize(text).message)]
  {
    match deserialize(text)
    case Deserialized(w) => Step(w, [])
    case JsonException(m) => Step(None, [JsonParsingFailed(m)])
  }

  /** The `switch` on the request result: only `Success` reaches the parser; the
      three error results are logged and yield null; any other result falls
      through to null without a log entry. */
  function Classify(outcome: Outcome, deserialize: string -> Deserialized): (s: Step)
    ensures outcome.Success? ==> s == Parse(outcome.text, deserialize)
    ensures !outcome.Success? ==>
      s.result == None && |s.log| == (if outcome.InProgress? then 0 else 1)
    ensures s.result.Some? ==>
      outcome.Success? && deserialize(outcome.text) == Deserialized(s.result)
  {
    match outcome
    case Success(text) => Parse(text, deserialize)
    case ConnectionError(e) => Step(None, [ConnectionFailed(e)])
    case ProtocolError(code, e) => Step(None, [HttpError(code, e)])
    case DataProcessingError(e) => Step(None, [DataProcessingFailed(e)])
    case InProgress => Step(None, [])
  }

  /** Whether a call gets past both checks and so issues its request. */
  predicate Accepted(city: Option<string>, config: ApiConfig) {
    !IsNullOrWhiteSpace(city) && config.configured
  }

  /** The URL an accepted call requests. */
  function RequestUrl(baseUrl: string, city: Option<string>, config: ApiConfig): string
    requires Accepted(city, config)
  {
    BuildUrl(baseUrl, city.value, Interpolated(config.apiKey))
  }

  /** `GetWeatherDataAsync` as a function of its inputs: the city check, then the
      key check, then one request whose outcome is classified. */
  function Fetch(baseUrl: string, city: Option<string>, config: ApiConfig,
                 transport: string -> Outcome, deserialize: string -> Deserialized): (t: Trace)
    ensures |t.requests| <= 1
    ensures |t.log| <= 1
    ensures t.result.Some? ==>
      t.log == [] && |t.requests| == 1 && transport(t.requests[0]).Success? &&
      deserialize(transport(t.requests[0]).text) == Deserialized(t.result)
  {
    if IsNullOrWhiteSpace(city) then
      Trace(None, [], [CityNameEmpty])
    else if !config.configured then
      Trace(None, [], [ApiKeyNotConfigured])
    else
      var url := BuildUrl(baseUrl, city.value, Interpolated(config.apiKey));
      var step := Classify(transport(url), deserialize);
      Trace(step.result, [url], step.log)
  }

  // ---------------------------------------------------------------------------
  // The two checks

  /** A null, empty or white-space city yields null and one log entry, and no
      request is made. */
  lemma BlankCityRejected(baseUrl: string, city: Option<string>, config: ApiConfig,
                          transport: string -> Outcome, deserialize: string -> Deserialized)
    requires IsNullOrWhiteSpace(city)
    ensures Fetch(baseUrl, city, config, transport, deserialize) == Trace(None, [], [CityNameEmpty])
  {
  }

  /** The city is checked before the key: with a blank city, neither the
      configuration nor the network nor the parser is consulted, so the call
      behaves the same whatever they are, a missing key included. */
  lemma CityCheckedFirst(baseUrl: string, city: Option<string>,
                         config1: ApiConfig, transport1: string -> Outcome, deserialize1: string -> Deserialized,
                         config2: ApiConfig, transport2: string -> Outcome, deserialize2: string -> Deserialized)
    requires IsNullOrWhiteSpace(city)
    ensures Fetch(baseUrl, city, config1, transport1, deserialize1)
         == Fetch(baseUrl, city, config2, transport2, deserialize2)
    ensures !config1.configured ==>
      Fetch(baseUrl, city, config1, transport1, deserialize1).log == [CityNameEmpty]
  {
  }

  /** A usable city with no configured key yields null and one log entry, makes no
      request, and never reads the key. */
  lemma UnconfiguredKeyRejected(baseUrl: string, city: Option<string>, config: ApiConfig,
                                apiKey: Option<string>,
                                transport1: string -> Outcome, deserialize1: string -> Deserialized,
                                transport2: string -> Outcome, deserialize2: string -> Deserialized)
    requires !IsNullOrWhiteSpace(city) && !config.configured
    ensures Fetch(baseUrl, city, config, transport1, deserialize1) == Trace(None, [], [ApiKeyNotConfigured])
    ensures Fetch(baseUrl, city, config.(apiKey := apiKey), transport2, deserialize2)
         == Fetch(baseUrl, city, config, transport1, deserialize1)
  {
  }

  // ---------------------------------------------------------------------------
  // The request

  /** A request is made exactly when both checks pass, and then exactly one, to
      `baseUrl?q=city&appid=key`; a null key is sent as "". */
  lemma OneRequestIffAccepted(baseUrl: string, city: Option<string>, config: ApiConfig,
                              transport: string -> Outcome, deserialize: string -> Deserialized)
    ensures var t := Fetch(baseUrl, city, config, transport, deserialize);
      (t.requests != [] <==> Accepted(city, config)) &&
      (Accepted(city, config) ==>
         t.requests == [baseUrl + "?q=" + city.value + "&appid=" + Interpolated(config.apiKey)])
  {
  }

  /** Without percent-encoding, a city that contains "&appid=" produces the same URL
      as a different city and key: the query cannot tell them apart. */
  lemma UnencodedCityCollides(baseUrl: string)
    ensures BuildUrl(baseUrl, "Paris&appid=x", "key") == BuildUrl(baseUrl, "Paris", "x&appid=key")
  {
  }

  /** In the URL of a city free of '&', the first '&' after "?q=" is the one that
      ends the city. */
  lemma AmpersandEndsCity(baseUrl: string, city: string, apiKey: string)
    requires '&' !in city
    ensures var url := BuildUrl(baseUrl, city, apiKey);
      url[|baseUrl| + 3 + |city|] == '&' &&
      forall j :: |baseUrl| + 3 <= j < |baseUrl| + 3 + |city| ==> url[j] != '&'
  {
  }

  /** For cities free of '&' the URL determines the city and the key. */
  lemma UrlDeterminesCityAndKey(baseUrl: string, city1: string, key1: string,
                                city2: string, key2: string)
    requires '&' !in city1 && '&' !in city2
    requires BuildUrl(baseUrl, city1, key1) == BuildUrl(baseUrl, city2, key2)
    ensures city1 == city2 && key1 == key2
  {
    AmpersandEndsCity(baseUrl, city1, key1);
    AmpersandEndsCity(baseUrl, city2, key2);
    var url := BuildUrl(baseUrl, city1, key1);
    var n := |baseUrl| + 3;
    assert |city1| == |city2|;
    assert city1 == url[n..n + |city1|] == city2;
  }

  // ---------------------------------------------------------------------------
  // The outcome

  /** Only a `Success` outcome reaches the parser: every other outcome yields null,
      with one log entry for each of the three error kinds and none otherwise. */
  lemma FailedRequestYieldsNull(baseUrl: string, city: Option<string>, config: ApiConfig,
                                transport: string -> Outcome, deserialize: string -> Deserialized)
    requires Accepted(city, config)
    requires !transport(RequestUrl(baseUrl, city, config)).Success?
    ensures var t := Fetch(baseUrl, city, config, transport, deserialize);
      t.result == None &&
      t.log == match transport(RequestUrl(baseUrl, city, config))
               case ConnectionError(e) => [ConnectionFailed(e)]
               case ProtocolError(code, e) => [HttpError(code, e)]
               case DataProcessingError(e) => [DataProcessingFailed(e)]
               case _ => []
  {
  }

  /** A body the deserializer rejects yields null and one log entry with the
      exception's message; the exception does not propagate. */
  lemma ParseFailureYieldsNull(baseUrl: string, city: Option<string>, config: ApiConfig,
                               transport: string -> Outcome, deserialize: string -> Deserialized)
    requires Accepted(city, config)
    requires transport(RequestUrl(baseUrl, city, config)).Success?
    requires deserialize(transport(RequestUrl(baseUrl, city, config)).text).JsonException?
    ensures Fetch(baseUrl, city, config, transport, deserialize)
         == Trace(None, [RequestUrl(baseUrl, city, config)],
                  [JsonParsingFailed(deserialize(transport(RequestUrl(baseUrl, city, config)).text).message)])
  {
  }

  /** A parsed record is returned as it is, without a log entry, whether or not it
      is valid: the client never checks `IsValid`. */
  lemma ParsedRecordReturnedUnchecked(baseUrl: string, city: Option<string>, config: ApiConfig,
                                      transport: string -> Outcome, deserialize: string -> Deserialized,
                                      w: WeatherData)
    requires Accepted(city, config)
    requires transport(RequestUrl(baseUrl, city, config)).Success?
    requires deserialize(transport(RequestUrl(baseUrl, city, config)).text) == Deserialized(Some(w))
    ensures Fetch(baseUrl, city, config, transport, deserialize).result == Some(w)
    ensures Fetch(baseUrl, city, config, transport, deserialize).log == []
  {
  }

  /** In particular a "not found" record (status 404, no `main`) comes back as a
      non-null result that is not valid. */
  lemma NotFoundRecordReturned(baseUrl: string, city: Option<string>, config: ApiConfig,
                               transport: string -> Outcome, deserialize: string -> Deserialized,
                               w: WeatherData)
    requires Accepted(city, config)
    requires transport(RequestUrl(baseUrl, city, config)).Success?
    requires deserialize(transport(RequestUrl(baseUrl, city, config)).text) == Deserialized(Some(w))
    requires w.statusCode == 404 && w.main.None?
    ensures var r := Fetch(baseUrl, city, config, transport, deserialize).result;
      r.Some? && !r.value.IsValid()
  {
  }

  /** Every null result that came from a check, an error outcome or a parse
      exception is accompanied by exactly one log entry; a non-null result by none. */
  lemma OneLogEntryPerFailure(baseUrl: string, city: Option<string>, config: ApiConfig,
                              transport: string -> Outcome, deserialize: string -> Deserialized)
    ensures var t := Fetch(baseUrl, city, config, transport, deserialize);
      (t.result.Some? ==> t.log == []) &&
      (|t.log| == 1 <==>
         !Accepted(city, config) ||
         match transport(RequestUrl(baseUrl, city, config))
         case InProgress => false
         case Success(text) => deserialize(text).JsonException?
         case _ => true)
  {
  }

  // ---------------------------------------------------------------------------
  // The client object

  /** The client component. Its only real state is the serialized `baseUrl`; the
      ghost fields record every URL it requested and every message it logged. */
  class WeatherApiClient {
    var baseUrl: string
    ghost var requests: seq<string>
    ghost var log: seq<LogEntry>

    constructor ()
      ensures baseUrl == DefaultBaseUrl && requests == [] && log == []
    {
      baseUrl := DefaultBaseUrl;
      requests := [];
      log := [];
    }

    /** `ParseWeatherData`: null and one log entry on a JSON exception, otherwise
        what the deserializer returned. */
    method ParseWeatherData(jsonString: string, deserialize: string -> Deserialized)
      returns (data: Option<WeatherData>)
      modifies this`log
      ensures data == Parse(jsonString, deserialize).result
      ensures log == old(log) + Parse(jsonString, deserialize).log
    {
      match deserialize(jsonString)
      case Deserialized(w) =>
        data := w;
      case JsonException(message) =>
        log := log + [JsonParsingFailed(message)];
        data := None;
    }

    /** `GetWeatherDataAsync`: returns what `Fetch` yields, appends the URLs it
        requested (none or one) and the messages it logged, and keeps `baseUrl`. */
    method GetWeatherData(city: Option<string>, config: ApiConfig,
                          transport: string -> Outcome, deserialize: string -> Deserialized)
      returns (data: Option<WeatherData>)
      modifies this`requests, this`log
      ensures baseUrl == old(baseUrl)
      ensures data == Fetch(baseUrl, city, config, transport, deserialize).result
      ensures requests == old(requests) + Fetch(baseUrl, city, config, transport, deserialize).requests
      ensures log == old(log) + Fetch(baseUrl, city, config, transport, deserialize).log
    {
      if IsNullOrWhiteSpace(city) {
        log := log + [CityNameEmpty];
        return None;
      }
      if !config.configured {
        log := log + [ApiKeyNotConfigured];
        return None;
      }
      var apiKey := Interpolated(config.apiKey);
      var url := BuildUrl(baseUrl, city.value, apiKey);
      requests := requests + [url];
      match transport(url) {
        case Success(text) =>
          data := ParseWeatherData(text, deserialize);
          return;
        case ConnectionError(e) =>
          log := log + [ConnectionFailed(e)];
        case ProtocolError(code, e) =>
          log := log + [HttpError(code, e)];
        case DataProcessingError(e) =>
          log := log + [DataProcessingFailed(e)];
        case InProgress =>
      }
      data := None;
    }
  }
}
