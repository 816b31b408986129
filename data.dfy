/** The weather record deserialized from an OpenWeatherMap "current weather"
    response, with its three computed getters. Every getter is a function of the
    record value, so reading one cannot change a stored field. */
module Data {
  import opened Wrappers
  import opened Strings

  /** C#'s 32-bit `int`, the type of the status code, humidity and pressure. */
  newtype Int32 = x: int | -0x8000_0000 <= x < 0x8000_0000

  /** The status code upstream reports for a successful lookup. */
  const SuccessStatus: Int32 := 200

  /** Offset between the Kelvin and Celsius scales. */
  const KelvinOffset: real := 273.15

  /** Text shown when the response carries no weather conditions. */
  const UnknownDescription: string := "Unknown"

  /** The "main" object: temperatures in Kelvin, humidity in percent, pressure in hPa.
      C#'s `float` fields are modelled as exact reals. */
  datatype MainWeatherInfo = MainWeatherInfo(
    temperature: real,
    feelsLike: real,
    humidity: Int32,
    pressure: Int32)

  /** One entry of the "weather" array; each string may be null. */
  datatype WeatherDescription = WeatherDescription(
    main: Option<string>,
    description: Option<string>,
    icon: Option<string>)

  /** The outcome of reading a getter: its value, or the NullReferenceException
      that dereferencing a null array element raises. */
  datatype Read<T> = Returns(value: T) | ThrowsNullReference

  /** The response record. `main`, the `weather` array, each of its elements and
      `cityName` may all be null. */
  datatype WeatherData = WeatherData(
    main: Option<MainWeatherInfo>,
    weather: Option<seq<Option<WeatherDescription>>>,
    cityName: Option<string>,
    statusCode: Int32)
  {
    /** `Main?.Temperature - 273.15f ?? 0f`: 0 without `main`, otherwise the
        Kelvin temperature moved 273.15 down the scale. */
    function TemperatureInCelsius(): (r: real)
      ensures main.None? ==> r == 0.0
      ensures main.Some? ==> r + 273.15 == main.value.temperature
    {
      match main
      case Some(m) => m.temperature - KelvinOffset
      case None => 0.0
    }

    /** `Weather?.Length > 0 ? Weather[0].Description : "Unknown"`. */
    function PrimaryDescription(): Read<Option<string>> {
      if weather.Some? && |weather.value| > 0 then
        match weather.value[0]
        case Some(d) => Returns(d.description)
        case None => ThrowsNullReference
      else
        Returns(Some(UnknownDescription))
    }

    /** `StatusCode == 200 && Main != null && !string.IsNullOrEmpty(CityName)`. */
    predicate IsValid() {
      statusCode == SuccessStatus && main.Some? && !IsNullOrEmpty(cityName)
    }
  }

  // ---------------------------------------------------------------------------
  // Validity

  /** A record is valid exactly when its status is 200, `main` is present and the
      city name is present and not the empty string. */
  lemma IsValidExactly(w: WeatherData)
    ensures w.IsValid() <==>
      w.statusCode == 200 && w.main.Some? && w.cityName.Some? && w.cityName.value != ""
  {
  }

  /** Any status other than 200 makes the record invalid, whatever else it holds. */
  lemma OtherStatusIsInvalid(w: WeatherData)
    requires w.statusCode != 200
    ensures !w.IsValid()
  {
  }

  /** An absent `main` makes the record invalid, even with status 200 and a city name. */
  lemma AbsentMainIsInvalid(w: WeatherData)
    requires w.main.None?
    ensures !w.IsValid()
  {
  }

  /** A "not found" payload (status 404, no `main`) is invalid whatever status the
      transport reported. */
  lemma NotFoundPayloadIsInvalid(weather: Option<seq<Option<WeatherDescription>>>, cityName: Option<string>)
    ensures !WeatherData(None, weather, cityName, 404).IsValid()
  {
  }

  /** Validity tests only emptiness of the city name: a name of blanks passes it,
      although the client would refuse the same text as a query. */
  lemma BlankCityNameIsValid(m: MainWeatherInfo, weather: Option<seq<Option<WeatherDescription>>>)
    ensures WeatherData(Some(m), weather, Some(" "), 200).IsValid()
    ensures IsNullOrWhiteSpace(Some(" "))
  {
  }

  // ---------------------------------------------------------------------------
  // Primary description

  /** With no weather array, or an empty one, the description is the literal "Unknown". */
  lemma NoConditionsIsUnknown(w: WeatherData)
    requires w.weather.None? || w.weather == Some([])
    ensures w.PrimaryDescription() == Returns(Some("Unknown"))
  {
  }

  /** With a non-empty weather array the description is that of the first entry,
      and a null first entry makes the getter throw. */
  lemma FirstConditionIsPrimary(w: WeatherData)
    requires w.weather.Some? && |w.weather.value| > 0
    ensures w.weather.value[0].Some? ==>
      w.PrimaryDescription() == Returns(w.weather.value[0].value.description)
    ensures w.weather.value[0].None? ==> w.PrimaryDescription() == ThrowsNullReference
  {
  }

  /** Entries after the first never affect the description. */
  lemma LaterConditionsIgnored(w: WeatherData, later: seq<Option<WeatherDescription>>)
    requires w.weather.Some? && |w.weather.value| > 0
    ensures w.(weather := Some([w.weather.value[0]] + later)).PrimaryDescription()
         == w.PrimaryDescription()
  {
  }

  // ---------------------------------------------------------------------------
  // Temperature

  /** 300 K reads as 26.85 degrees Celsius. */
  lemma CelsiusOf300Kelvin(w: WeatherData)
    requires w.main.Some? && w.main.value.temperature == 300.0
    ensures w.TemperatureInCelsius() == 26.85
  {
  }
}
