# Weather lookup client — Dafny model

This project models the core of a small Unity weather app. The app asks the
OpenWeatherMap "current weather" endpoint about a city and reads the JSON reply
into a `WeatherData` record. The model covers two things:

- **The weather record** (`Assets/Scripts/API/WeatherData.cs`), module `Data`.
  It is an immutable datatype with nullable parts: `main`, the `weather` array,
  each element of that array and every string are `Option`s. The three computed
  getters (`TemperatureInCelsius`, `PrimaryDescription`, `IsValid`) are functions
  of the record value. So by construction, reading a getter changes no stored field.
- **The fetch client** (`Assets/Scripts/API/WeatherApiClient.cs`), module `Services`.
  It runs in this order:
  1. it rejects a blank city;
  2. it rejects an unconfigured API key;
  3. it builds the URL by plain concatenation;
  4. it sends one GET;
  5. it switches on the request's result;
  6. its parse step turns a JSON exception into `null`.

  `Services.Fetch` states this procedure as a function of its inputs. The class
  `Services.WeatherApiClient` carries the serialized `baseUrl` and two ghost
  sequences: the URLs it requested and the messages it logged. Its methods are
  proved to return what `Fetch` and `Parse` yield and to extend both sequences
  accordingly.

The outside world comes in as inputs:
- the network is a function from URL to `Outcome` (the request's result, with its body, HTTP status and error text);
- the JSON deserializer is a function from body to `Deserialized`: a possibly-null record, or a thrown `JsonException`;
- the configuration store is an `ApiConfig(configured, apiKey)` value.

Module `Strings` gives .NET's `string.IsNullOrEmpty` and
`string.IsNullOrWhiteSpace`, with `char.IsWhiteSpace`'s exact character set.
`Wrappers` holds `Option`, the model of `null`.

The model keeps these details of the code:
- Failures are a bare `null` (`None`); the caller is not told which check or step failed.
- The key check is `IsApiKeyConfigured()` alone; a configured but null key is sent as "".
- A request result that is none of the four handled cases (`InProgress`) yields `null` without a log entry.
- A body the deserializer maps to `null` (such as `null`) yields `null` without a log entry.

## Model

| member | source | states |
|---|---|---|
| `Strings.IsWhiteSpace` | Assets/Scripts/API/WeatherApiClient.cs:25 | the characters .NET's `char.IsWhiteSpace` accepts: U+0009 to U+000D, U+0020, U+0085, U+00A0, U+1680, U+2000 to U+200A, U+2028, U+2029, U+202F, U+205F, U+3000 |
| `Strings.IsNullOrEmpty` | Assets/Scripts/API/WeatherData.cs:28 | .NET's `string.IsNullOrEmpty`: the string is null or has length 0 |
| `Strings.AllWhiteSpace` | Assets/Scripts/API/WeatherApiClient.cs:25 | true exactly when every character of the string is white space |
| `Strings.IsNullOrWhiteSpace` | Assets/Scripts/API/WeatherApiClient.cs:25 | false exactly when the string is non-null and has a character that is not white space ("non-empty after trimming") |
| `Strings.WhiteSpaceTestIsWeaker` | Assets/Scripts/API/WeatherData.cs:28 | null-or-empty implies null-or-white-space; `" "` is the latter but not the former |
| `Data.WeatherData.IsValid` | Assets/Scripts/API/WeatherData.cs:28 | the validity getter; its characterisation is stated by the lemmas below |
| `Data.IsValidExactly` | Assets/Scripts/API/WeatherData.cs:28 | a record is valid iff status is 200, `main` is present, and the city name is present and not "" |
| `Data.OtherStatusIsInvalid` | Assets/Scripts/API/WeatherData.cs:28 | any status other than 200 makes the record invalid, whatever the other fields |
| `Data.AbsentMainIsInvalid` | Assets/Scripts/API/WeatherData.cs:28 | an absent `main` makes the record invalid |
| `Data.NotFoundPayloadIsInvalid` | Assets/Scripts/API/WeatherData.cs:28 | a payload with status 404 and no `main` is invalid |
| `Data.BlankCityNameIsValid` | Assets/Scripts/API/WeatherData.cs:28 | a city name of `" "` with status 200 and `main` present is valid, although it is blank |
| `Data.WeatherData.PrimaryDescription` | Assets/Scripts/API/WeatherData.cs:26 | the description getter, with a thrown NullReferenceException as an outcome; its behaviour is stated by the three lemmas below |
| `Data.NoConditionsIsUnknown` | Assets/Scripts/API/WeatherData.cs:26 | with no weather array, or an empty one, the primary description is "Unknown" |
| `Data.FirstConditionIsPrimary` | Assets/Scripts/API/WeatherData.cs:26 | with a non-empty array it is the first entry's description; a null first entry throws |
| `Data.LaterConditionsIgnored` | Assets/Scripts/API/WeatherData.cs:26 | entries after the first never change the primary description |
| `Data.WeatherData.TemperatureInCelsius` | Assets/Scripts/API/WeatherData.cs:25 | 0 when `main` is absent; otherwise the result plus 273.15 is the Kelvin temperature |
| `Data.CelsiusOf300Kelvin` | Assets/Scripts/API/WeatherData.cs:25 | 300 K reads as 26.85 °C |
| `Services.Interpolated` | Assets/Scripts/API/WeatherApiClient.cs:40 | a string as C# interpolation renders it: a present string as itself, null as "" |
| `Services.BuildUrl` | Assets/Scripts/API/WeatherApiClient.cs:39-40 | the URL is the base, "?q=", the city verbatim, "&appid=", then the key, at these exact offsets |
| `Services.UnencodedCityCollides` | Assets/Scripts/API/WeatherApiClient.cs:40 | the city is not encoded: city `Paris&appid=x` with key `key` gives the same URL as city `Paris` with key `x&appid=key` |
| `Services.AmpersandEndsCity` | Assets/Scripts/API/WeatherApiClient.cs:40 | for a city without '&', the first '&' after "?q=" is the one right after the city |
| `Services.UrlDeterminesCityAndKey` | Assets/Scripts/API/WeatherApiClient.cs:39-40 | for cities without '&', equal URLs imply equal cities and equal keys |
| `Services.Parse` | Assets/Scripts/API/WeatherApiClient.cs:71-82 | with no log entry the result is exactly what the deserializer returned (a record or null); with a log entry the deserializer threw, the result is null, and the one entry carries the exception's message |
| `Services.Classify` | Assets/Scripts/API/WeatherApiClient.cs:48-66 | a `Success` outcome is handed to `Parse`; any other outcome yields null with one log entry, or none for a result outside the four handled cases; a non-null result comes only from a `Success` body |
| `Services.Fetch` | Assets/Scripts/API/WeatherApiClient.cs:22-68 | at most one request and at most one log entry; a non-null result has no log entry and came from a `Success` body that the deserializer turned into that record |
| `Services.BlankCityRejected` | Assets/Scripts/API/WeatherApiClient.cs:25-29 | a null, empty or white-space city yields null, no request, and one "city empty" log entry |
| `Services.CityCheckedFirst` | Assets/Scripts/API/WeatherApiClient.cs:25-36 | with a blank city, the call is the same whatever the configuration, network and parser; with no key it still logs only the city error |
| `Services.UnconfiguredKeyRejected` | Assets/Scripts/API/WeatherApiClient.cs:32-36 | with a usable city and no configured key: null, no request, one "key" log entry, and the key value is never read |
| `Services.OneRequestIffAccepted` | Assets/Scripts/API/WeatherApiClient.cs:39-45 | a request is made iff both checks pass, and then exactly one, to `baseUrl + "?q=" + city + "&appid=" + key` |
| `Services.FailedRequestYieldsNull` | Assets/Scripts/API/WeatherApiClient.cs:48-66 | every non-`Success` outcome yields null; connection, protocol and data-processing errors log one entry with their detail; any other outcome logs none |
| `Services.ParseFailureYieldsNull` | Assets/Scripts/API/WeatherApiClient.cs:71-82 | a JSON exception on a successful body yields null and one log entry with its message |
| `Services.ParsedRecordReturnedUnchecked` | Assets/Scripts/API/WeatherApiClient.cs:51 | a parsed record is returned unchanged, with no log entry, whether valid or not |
| `Services.NotFoundRecordReturned` | Assets/Scripts/API/WeatherApiClient.cs:48-51 | a parsed status-404 record without `main` comes back non-null and invalid |
| `Services.OneLogEntryPerFailure` | Assets/Scripts/API/WeatherApiClient.cs:22-82 | a non-null result logs nothing; exactly one entry is logged iff a check failed, an error outcome came back, or parsing threw |
| `Services.WeatherApiClient.constructor` | Assets/Scripts/API/WeatherApiClient.cs:17 | the base URL starts as `https://api.openweathermap.org/data/2.5/weather`; nothing is requested or logged yet |
| `Services.WeatherApiClient.ParseWeatherData` | Assets/Scripts/API/WeatherApiClient.cs:71-82 | returns the deserializer's record, or null on a JSON exception; appends that step's log entry |
| `Services.WeatherApiClient.GetWeatherData` | Assets/Scripts/API/WeatherApiClient.cs:22-68 | returns `Fetch`'s result, appends exactly `Fetch`'s requests and log entries, and keeps `baseUrl` |

## Left out

- `Assets/Scripts/API/WeatherUIController.cs`: UI wiring and display formatting, with no logic beyond calling the client.
- `async`/`await`, the `using` disposal of the request, and the `Start()` demo call: `GetWeatherData` is a sequential method.
- The real network (`UnityWebRequest`) is an input function from URL to outcome. The Newtonsoft deserializer is an input function from body to result or exception. `ApiConfig` is not part of this model; its `IsApiKeyConfigured()` and key are an input value.
- Exceptions the deserializer might raise other than `JsonException`: they would propagate, and are not modelled.
- `Data.WeatherData.TemperatureInCelsius`: temperatures are exact reals, not 32-bit floats, so IEEE rounding of `- 273.15f` is not captured.
- `Data.CelsiusOf300Kelvin`: holds exactly over reals; the float computation is only close to 26.85.
- The text of log messages: the log records the kind of each message and the detail it interpolates.
- Concurrency between calls: each call is one sequential method run. There is no cache: every accepted call makes exactly one request (`OneRequestIffAccepted` with `GetWeatherData`'s postcondition), so two calls for one city make two requests.
- Exceptions from the request object itself: `UnityWebRequest.Get` or `SendWebRequest` may throw, for instance on a URL that Unity cannot parse, which an unencoded city can produce. Such an exception would escape `GetWeatherDataAsync`; here `transport` always returns an `Outcome`.
