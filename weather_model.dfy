/** The library's weather model as the Yahoo provider fills it. A field that
    the provider never assigned is None (Java leaves it at its default). */
module WeatherModel {
  import opened Wrappers

  /** The library's normalised weather code, as returned by the code provider. */
  datatype WeatherCode = WeatherCode(ordinal: nat)

  /** One place-search hit. */
  datatype City = City(id: Option<string>, name: Option<string>, country: Option<string>)

  const NewCity: City := City(None, None, None)

  datatype Wind = Wind(chill: Option<int>, deg: Option<int>, speed: Option<real>)

  /** Condition fields shared by the current weather and by a day forecast.
      `visibility`, `pressure` and the wind `speed` are Java floats: the model
      keeps the value `Float.parseFloat` returned and does no arithmetic on it. */
  datatype Condition = Condition(
    weatherId: Option<int>,
    weatherCode: Option<WeatherCode>,
    descr: Option<string>,
    icon: Option<string>,
    humidity: Option<int>,
    visibility: Option<real>,
    pressure: Option<real>,
    pressureTrend: Option<int>)

  const NewCondition: Condition := Condition(None, None, None, None, None, None, None, None)

  datatype Temperature = Temperature(temp: Option<int>, minTemp: Option<int>, maxTemp: Option<int>)

  /** Sunrise and sunset are epoch milliseconds. */
  datatype Location = Location(
    city: Option<string>,
    region: Option<string>,
    country: Option<string>,
    sunrise: Option<int>,
    sunset: Option<int>)

  /** `unit` is a reference: the provider attaches its own shared WeatherUnit. */
  datatype CurrentWeather = CurrentWeather(
    wind: Wind,
    currentCondition: Condition,
    temperature: Temperature,
    location: Location,
    unit: WeatherUnit?)

  const NewCurrentWeather: CurrentWeather :=
    CurrentWeather(Wind(None, None, None), NewCondition, Temperature(None, None, None),
                   Location(None, None, None, None, None), null)

  datatype ForecastTemp = ForecastTemp(min: Option<int>, max: Option<int>)

  datatype DayForecast = DayForecast(forecastTemp: ForecastTemp, condition: Condition)

  /** The four labels of a WeatherUnit, as a value. */
  datatype UnitLabels = UnitLabels(
    tempUnit: Option<string>,
    pressureUnit: Option<string>,
    distanceUnit: Option<string>,
    speedUnit: Option<string>)

  const NoLabels: UnitLabels := UnitLabels(None, None, None, None)

  /** `Weather.WeatherUnit`: an object the provider shares with the forecast and
      with every CurrentWeather it returns, and overwrites on each units tag. */
  class WeatherUnit {
    var tempUnit: Option<string>
    var pressureUnit: Option<string>
    var distanceUnit: Option<string>
    var speedUnit: Option<string>

    constructor (labels: UnitLabels)
      ensures Labels() == labels
    {
      tempUnit := labels.tempUnit;
      pressureUnit := labels.pressureUnit;
      distanceUnit := labels.distanceUnit;
      speedUnit := labels.speedUnit;
    }

    function Labels(): UnitLabels
      reads this
    {
      UnitLabels(tempUnit, pressureUnit, distanceUnit, speedUnit)
    }
  }

  /** `WeatherForecast`: the day entries added so far and the attached units. */
  class WeatherForecast {
    var days: seq<DayForecast>
    var unit: WeatherUnit?

    constructor ()
      ensures days == [] && unit == null
    {
      days := [];
      unit := null;
    }
  }

  datatype UnitSystem = M | I

  /** `WeatherConfig`: the API key may be null. */
  datatype WeatherConfig = WeatherConfig(
    apiKey: Option<string>,
    unitSystem: UnitSystem,
    maxResult: int,
    lang: string)

  /** What a `WeatherLibException` wraps. */
  datatype Cause = NullPointer | NumberFormat | DateParse

  datatype WeatherLibException = WeatherLibException(cause: Cause)
}
