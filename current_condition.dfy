/** The weather-document parser (`getCurrentCondition`) as a function of the
    event sequence, and what it promises. The provider's method runs the same
    loop over its own fields; this module says, on values, what each event does
    and what a whole pass leaves behind. */
module CurrentCondition {
  import opened Wrappers
  import opened Decimal
  import opened Xml
  import opened WeatherModel

  /** Library calls the parser makes whose code is not part of this model:
      `Float.parseFloat` and `new SimpleDateFormat("h:mm a").parse(s).getTime()`.
      None stands for the exception each may throw. */
  datatype Platform = Platform(parseFloat: string -> Option<real>, parseTime: string -> Option<int>)

  /** `Integer.parseInt(parser.getAttributeValue(null, key))`; a missing
      attribute makes `parseInt(null)` throw NumberFormatException too. */
  function IntAttr(attrs: map<string, string>, key: string): (r: Result<int, Cause>)
    ensures r.Success? <==> key in attrs && ParseInt(attrs[key]).Some?
    ensures r.Success? ==> r.value == NumeralValue(attrs[key])
    ensures r.Failure? ==> r.error == NumberFormat
  {
    match GetAttributeValue(attrs, key)
    case None => Failure(NumberFormat)
    case Some(v) =>
      match ParseInt(v)
      case None => Failure(NumberFormat)
      case Some(n) => Success(n)
  }

  /** `Float.parseFloat(parser.getAttributeValue(null, key))`. */
  function FloatAttr(attrs: map<string, string>, key: string, platform: Platform): (r: Result<real, Cause>)
    ensures r.Success? <==> key in attrs && platform.parseFloat(attrs[key]).Some?
    ensures r.Success? ==> r.value == platform.parseFloat(attrs[key]).value
    ensures r.Failure? ==> r.error == (if key in attrs then NumberFormat else NullPointer)
  {
    match GetAttributeValue(attrs, key)
    case None => Failure(NullPointer)
    case Some(v) =>
      match platform.parseFloat(v)
      case None => Failure(NumberFormat)
      case Some(x) => Success(x)
  }

  /** A sunrise or sunset attribute: absent leaves the field alone, present
      must parse. */
  function TimeAttr(attrs: map<string, string>, key: string, platform: Platform): (r: Result<Option<int>, Cause>)
    ensures key !in attrs ==> r == Success(None)
    ensures key in attrs ==>
      (r.Success? <==> platform.parseTime(attrs[key]).Some?) &&
      (r.Success? ==> r.value == platform.parseTime(attrs[key])) &&
      (r.Failure? ==> r.error == DateParse)
  {
    match GetAttributeValue(attrs, key)
    case None => Success(None)
    case Some(v) =>
      match platform.parseTime(v)
      case None => Failure(DateParse)
      case Some(t) => Success(Some(t))
  }

  /** Java's `"°" + s` renders a null `s` as the four letters "null". */
  function JavaString(s: Option<string>): string
  {
    if s.Some? then s.value else "null"
  }

  /** The wind tag: chill, direction and speed must all parse, and become
      the chill, the direction in degrees and the speed. */
  function DecodeWind(attrs: map<string, string>, platform: Platform): (r: Result<Wind, Cause>)
    ensures r.Success? <==>
      IntAttr(attrs, "chill").Success? && IntAttr(attrs, "direction").Success? &&
      FloatAttr(attrs, "speed", platform).Success?
    ensures r.Success? ==>
      r.value.chill == Some(IntAttr(attrs, "chill").value) &&
      r.value.deg == Some(IntAttr(attrs, "direction").value) &&
      r.value.speed == Some(FloatAttr(attrs, "speed", platform).value)
  {
    var chill :- IntAttr(attrs, "chill");
    var deg :- IntAttr(attrs, "direction");
    var speed :- FloatAttr(attrs, "speed", platform);
    Success(Wind(Some(chill), Some(deg), Some(speed)))
  }

  /** The atmosphere tag: all four attributes must parse, and only the four
      atmosphere fields of the condition change. */
  function DecodeAtmosphere(c: Condition, attrs: map<string, string>, platform: Platform): (r: Result<Condition, Cause>)
    ensures r.Success? <==>
      IntAttr(attrs, "humidity").Success? && FloatAttr(attrs, "visibility", platform).Success? &&
      FloatAttr(attrs, "pressure", platform).Success? && IntAttr(attrs, "rising").Success?
    ensures r.Success? ==>
      r.value.humidity == Some(IntAttr(attrs, "humidity").value) &&
      r.value.visibility == Some(FloatAttr(attrs, "visibility", platform).value) &&
      r.value.pressure == Some(FloatAttr(attrs, "pressure", platform).value) &&
      r.value.pressureTrend == Some(IntAttr(attrs, "rising").value)
    ensures r.Success? ==>
      r.value.(humidity := c.humidity, visibility := c.visibility, pressure := c.pressure,
               pressureTrend := c.pressureTrend) == c
  {
    var humidity :- IntAttr(attrs, "humidity");
    var visibility :- FloatAttr(attrs, "visibility", platform);
    var pressure :- FloatAttr(attrs, "pressure", platform);
    var rising :- IntAttr(attrs, "rising");
    Success(c.(humidity := Some(humidity), visibility := Some(visibility),
               pressure := Some(pressure), pressureTrend := Some(rising)))
  }

  /** The first forecast tag: today's minimum and maximum. */
  function DecodeToday(t: Temperature, attrs: map<string, string>): (r: Result<Temperature, Cause>)
    ensures r.Success? <==> IntAttr(attrs, "low").Success? && IntAttr(attrs, "high").Success?
    ensures r.Success? ==> r.value.temp == t.temp
  {
    var low :- IntAttr(attrs, "low");
    var high :- IntAttr(attrs, "high");
    Success(t.(minTemp := Some(low), maxTemp := Some(high)))
  }

  /** The code provider's mapping, when one is set. */
  function Normalised(codes: Option<int -> WeatherCode>, id: int, otherwise: Option<WeatherCode>): Option<WeatherCode>
  {
    if codes.Some? then Some(codes.value(id)) else otherwise
  }

  /** A later forecast tag: one DayForecast. `max` is assigned `high` and then
      overwritten with `low`; `min` is never assigned. */
  function DecodeDay(attrs: map<string, string>, codes: Option<int -> WeatherCode>): (r: Result<DayForecast, Cause>)
    ensures r.Success? <==>
      IntAttr(attrs, "high").Success? && IntAttr(attrs, "low").Success? && IntAttr(attrs, "code").Success?
    ensures r.Success? ==>
      var d := r.value;
      d.forecastTemp == ForecastTemp(None, IntAttr(attrs, "low").ToOption()) &&
      d.condition.weatherId == IntAttr(attrs, "code").ToOption() &&
      d.condition.descr == GetAttributeValue(attrs, "text") &&
      d.condition.icon == Some(IntToString(IntAttr(attrs, "code").value)) &&
      ParseInt(d.condition.icon.value) == d.condition.weatherId &&
      d.condition.weatherCode == (if codes.Some? then Some(codes.value(IntAttr(attrs, "code").value)) else None)
  {
    var high :- IntAttr(attrs, "high");
    var highFirst := ForecastTemp(None, Some(high));
    var low :- IntAttr(attrs, "low");
    var temp := highFirst.(max := Some(low));
    var id :- IntAttr(attrs, "code");
    ParseIntToString(id);
    var cond := NewCondition.(weatherId := Some(id), weatherCode := Normalised(codes, id, None));
    var cond' := cond.(descr := GetAttributeValue(attrs, "text"), icon := Some(IntToString(id)));
    Success(DayForecast(temp, cond'))
  }

  /** The condition tag: code, icon, normalised code, description, current
      temperature. Without a code provider the normalised code is left as it was. */
  function DecodeCondition(w: CurrentWeather, attrs: map<string, string>, codes: Option<int -> WeatherCode>)
    : (r: Result<CurrentWeather, Cause>)
    ensures r.Success? <==> IntAttr(attrs, "code").Success? && IntAttr(attrs, "temp").Success?
    ensures r.Success? ==>
      r.value.wind == w.wind && r.value.location == w.location &&
      r.value.temperature.minTemp == w.temperature.minTemp && r.value.temperature.maxTemp == w.temperature.maxTemp
    ensures r.Success? && codes.None? ==> r.value.currentCondition.weatherCode == w.currentCondition.weatherCode
  {
    var id :- IntAttr(attrs, "code");
    var cond := w.currentCondition.(weatherId := Some(id), icon := Some(IntToString(id)));
    var cond' := cond.(weatherCode := Normalised(codes, id, cond.weatherCode));
    var cond'' := cond'.(descr := GetAttributeValue(attrs, "text"));
    var temp :- IntAttr(attrs, "temp");
    Success(w.(currentCondition := cond'', temperature := w.temperature.(temp := Some(temp))))
  }

  /** The units tag: never fails. The temperature label gets a degree sign;
      the other three labels are the attributes as they stand. */
  function DecodeUnits(attrs: map<string, string>): (labels: UnitLabels)
    ensures labels.tempUnit.Some? && |labels.tempUnit.value| > 0 && labels.tempUnit.value[0] == '°'
    ensures labels.tempUnit.value[1..] == JavaString(GetAttributeValue(attrs, "temperature"))
    ensures labels.pressureUnit == GetAttributeValue(attrs, "pressure")
    ensures labels.distanceUnit == GetAttributeValue(attrs, "distance")
    ensures labels.speedUnit == GetAttributeValue(attrs, "speed")
  {
    UnitLabels(Some("°" + JavaString(GetAttributeValue(attrs, "temperature"))),
               GetAttributeValue(attrs, "pressure"),
               GetAttributeValue(attrs, "distance"),
               GetAttributeValue(attrs, "speed"))
  }

  /** The location tag: city, region and country are overwritten, with None
      for an attribute that is missing; sunrise and sunset stay. */
  function DecodeLocation(l: Location, attrs: map<string, string>): (r: Location)
    ensures r.city == GetAttributeValue(attrs, "city")
    ensures r.region == GetAttributeValue(attrs, "region")
    ensures r.country == GetAttributeValue(attrs, "country")
    ensures r.sunrise == l.sunrise && r.sunset == l.sunset
  {
    l.(city := GetAttributeValue(attrs, "city"),
       region := GetAttributeValue(attrs, "region"),
       country := GetAttributeValue(attrs, "country"))
  }

  /** The astronomy tag: a sunrise or sunset that is present must parse and
      replaces the field; one that is absent leaves it. Only those two fields
      change. */
  function DecodeAstronomy(l: Location, attrs: map<string, string>, platform: Platform): (r: Result<Location, Cause>)
    ensures r.Success? <==>
      TimeAttr(attrs, "sunrise", platform).Success? && TimeAttr(attrs, "sunset", platform).Success?
    ensures r.Success? ==>
      r.value.sunrise == (if "sunrise" in attrs then platform.parseTime(attrs["sunrise"]) else l.sunrise) &&
      r.value.sunset == (if "sunset" in attrs then platform.parseTime(attrs["sunset"]) else l.sunset)
    ensures r.Success? ==> r.value.(sunrise := l.sunrise, sunset := l.sunset) == l
  {
    var sunrise :- TimeAttr(attrs, "sunrise", platform);
    var sunset :- TimeAttr(attrs, "sunset", platform);
    Success(l.(sunrise := if sunrise.Some? then sunrise else l.sunrise,
               sunset := if sunset.Some? then sunset else l.sunset))
  }

  /** What one pass has built so far: the local `weather` (without its unit),
      `currentTag`, `isFirstDayForecast`, the labels of the shared `units`
      object, whether `forecast.setUnit(units)` has run, and the day entries
      this pass added to `forecast`. */
  datatype State = State(
    weather: CurrentWeather,
    currentTag: Option<string>,
    isFirstDayForecast: bool,
    labels: UnitLabels,
    unitsAttached: bool,
    days: seq<DayForecast>)

  /** The state at the top of `getCurrentCondition`, given the labels the
      shared units object holds on entry. */
  function Begin(labels: UnitLabels): State
  {
    State(NewCurrentWeather, None, true, labels, false, [])
  }

  /** The tags whose handlers parse attributes, the only ones that can throw. */
  const ParsingTags: set<string> :=
    {"yweather:wind", "yweather:atmosphere", "yweather:forecast", "yweather:condition", "yweather:astronomy"}

  /** One turn of the parser loop. Only a tag that parses attributes can
      throw, and no turn removes a day entry. */
  function Step(s: State, e: Event, codes: Option<int -> WeatherCode>, platform: Platform): (r: Result<State, Cause>)
    ensures r.Failure? ==> e.StartTag? && e.name in ParsingTags
    ensures r.Success? ==> s.days <= r.value.days
  {
    match e
    case StartTag(name, attrs) =>
      if name == "yweather:wind" then
        var wind :- DecodeWind(attrs, platform);
        Success(s.(weather := s.weather.(wind := wind)))
      else if name == "yweather:atmosphere" then
        var c :- DecodeAtmosphere(s.weather.currentCondition, attrs, platform);
        Success(s.(weather := s.weather.(currentCondition := c)))
      else if name == "yweather:forecast" then
        if s.isFirstDayForecast then
          var t :- DecodeToday(s.weather.temperature, attrs);
          Success(s.(weather := s.weather.(temperature := t), isFirstDayForecast := false))
        else
          var day :- DecodeDay(attrs, codes);
          Success(s.(days := s.days + [day]))
      else if name == "yweather:condition" then
        var w :- DecodeCondition(s.weather, attrs, codes);
        Success(s.(weather := w))
      else if name == "yweather:units" then
        Success(s.(labels := DecodeUnits(attrs), unitsAttached := true))
      else if name == "yweather:location" then
        Success(s.(weather := s.weather.(location := DecodeLocation(s.weather.location, attrs))))
      else if name == "image" then
        Success(s.(currentTag := Some("image")))
      else if name == "lastBuildDate" then
        Success(s.(currentTag := Some("update")))
      else if name == "yweather:astronomy" then
        var l :- DecodeAstronomy(s.weather.location, attrs, platform);
        Success(s.(weather := s.weather.(location := l)))
      else
        // `url` (whose handling is commented out) and every other tag
        Success(s)
    case EndTag(_) =>
      Success(if s.currentTag == Some("image") then s.(currentTag := None) else s)
    case Text(_) =>
      Success(s)
  }

  /** Where a pass stops: the state after the last event handled, and the
      cause of the exception if one event threw. */
  datatype Outcome = Outcome(state: State, failure: Option<Cause>)

  /** The parser loop over `events`, from state `s`: it stops at the first
      event whose handler throws. Day entries are only ever added, so those
      present at the start survive, even when the pass throws. */
  function Run(s: State, events: seq<Event>, codes: Option<int -> WeatherCode>, platform: Platform): (out: Outcome)
    ensures s.days <= out.state.days
    ensures out.failure.Some? ==> exists i :: 0 <= i < |events| && events[i].StartTag? && events[i].name in ParsingTags
  {
    if |events| == 0 then Outcome(s, None)
    else
      var prior := Run(s, events[..|events| - 1], codes, platform);
      if prior.failure.Some? then prior
      else
        match Step(prior.state, events[|events| - 1], codes, platform)
        case Failure(cause) => Outcome(prior.state, Some(cause))
        case Success(next) => Outcome(next, None)
  }
  // ---------------------------------------------------------------------------
  // Lemmas

  predicate IsTag(e: Event, name: string) { e.StartTag? && e.name == name }

  /** The fields the condition tag writes. */
  datatype ConditionView = ConditionView(
    weatherId: Option<int>, icon: Option<string>, weatherCode: Option<WeatherCode>,
    descr: Option<string>, temp: Option<int>)

  function ViewOf(w: CurrentWeather): ConditionView
  {
    ConditionView(w.currentCondition.weatherId, w.currentCondition.icon,
                  w.currentCondition.weatherCode, w.currentCondition.descr, w.temperature.temp)
  }

  /** Only a forecast tag touches today's minimum and maximum, the
      first-forecast flag and the day entries. */
  lemma StepKeepsForecast(s: State, e: Event, codes: Option<int -> WeatherCode>, platform: Platform)
    requires Step(s, e, codes, platform).Success? && !IsTag(e, "yweather:forecast")
    ensures var t := Step(s, e, codes, platform).value;
      t.isFirstDayForecast == s.isFirstDayForecast && t.days == s.days &&
      t.weather.temperature.minTemp == s.weather.temperature.minTemp &&
      t.weather.temperature.maxTemp == s.weather.temperature.maxTemp
  {
    match e {
      case StartTag(name, attrs) =>
        if name == "yweather:atmosphere" {
        } else if name == "yweather:condition" {
        } else if name == "yweather:astronomy" {
        }
      case _ =>
    }
  }

  /** Only a condition tag touches the fields it writes. */
  lemma StepKeepsCondition(s: State, e: Event, codes: Option<int -> WeatherCode>, platform: Platform)
    requires Step(s, e, codes, platform).Success? && !IsTag(e, "yweather:condition")
    ensures ViewOf(Step(s, e, codes, platform).value.weather) == ViewOf(s.weather)
  {
    match e {
      case StartTag(name, attrs) =>
        if name == "yweather:atmosphere" {
        } else if name == "yweather:condition" {
        } else if name == "yweather:astronomy" {
        }
      case _ =>
    }
  }

  /** Only a units tag touches the labels and the attachment to the forecast. */
  lemma StepKeepsUnits(s: State, e: Event, codes: Option<int -> WeatherCode>, platform: Platform)
    requires Step(s, e, codes, platform).Success? && !IsTag(e, "yweather:units")
    ensures var t := Step(s, e, codes, platform).value;
      t.labels == s.labels && t.unitsAttached == s.unitsAttached
  {
    match e {
      case StartTag(name, attrs) =>
        if name == "yweather:atmosphere" {
        } else if name == "yweather:condition" {
        } else if name == "yweather:astronomy" {
        }
      case _ =>
    }
  }

  /** Without a code provider no event touches the normalised code. */
  lemma StepKeepsWeatherCode(s: State, e: Event, codes: Option<int -> WeatherCode>, platform: Platform)
    requires Step(s, e, codes, platform).Success? && codes.None?
    ensures Step(s, e, codes, platform).value.weather.currentCondition.weatherCode
            == s.weather.currentCondition.weatherCode
  {
    match e {
      case StartTag(name, attrs) =>
        if name == "yweather:atmosphere" {
        } else if name == "yweather:condition" {
        } else if name == "yweather:astronomy" {
        }
      case _ =>
    }
  }

  /** Once an event has thrown, the pass is over: later events change nothing. */
  lemma {:induction false} FailureSticks(s: State, events: seq<Event>, n: nat, codes: Option<int -> WeatherCode>, platform: Platform)
    requires n <= |events|
    requires Run(s, events[..n], codes, platform).failure.Some?
    ensures Run(s, events, codes, platform) == Run(s, events[..n], codes, platform)
  {
    if n < |events| {
      var before := events[..|events| - 1];
      assert before[..n] == events[..n];
      FailureSticks(s, before, n, codes, platform);
    } else {
      assert events[..n] == events;
    }
  }

  /** The day entries are the decodings of all forecast tags but the first,
      one each, in document order. */
  ghost predicate DaysFrom(days: seq<DayForecast>, tags: seq<map<string, string>>, codes: Option<int -> WeatherCode>)
  {
    |days| == (if |tags| == 0 then 0 else |tags| - 1) &&
    forall j :: 0 <= j < |days| ==> DecodeDay(tags[j + 1], codes) == Success(days[j])
  }

  lemma DaysFromSnoc(days: seq<DayForecast>, tags: seq<map<string, string>>, day: DayForecast,
                     attrs: map<string, string>, codes: Option<int -> WeatherCode>)
    requires DaysFrom(days, tags, codes) && |tags| > 0
    requires DecodeDay(attrs, codes) == Success(day)
    ensures DaysFrom(days + [day], tags + [attrs], codes)
  {
    var all := tags + [attrs];
    var more := days + [day];
    forall j | 0 <= j < |more|
      ensures DecodeDay(all[j + 1], codes) == Success(more[j])
    {
      if j < |days| {
        assert all[j + 1] == tags[j + 1] && more[j] == days[j];
      } else {
        assert all[j + 1] == attrs && more[j] == day;
      }
    }
  }

  /** The tags named `name` after one more event. */
  function Seen(tags: seq<map<string, string>>, e: Event, name: string): seq<map<string, string>>
  {
    if IsTag(e, name) then tags + [e.attrs] else tags
  }

  /** A pass that has not thrown has read `events` one by one: it stands at
      the step after the pass over all but the last event. */
  lemma RunLast(s: State, events: seq<Event>, codes: Option<int -> WeatherCode>, platform: Platform)
    requires |events| > 0 && Run(s, events, codes, platform).failure.None?
    ensures var prior := Run(s, events[..|events| - 1], codes, platform);
      var e := events[|events| - 1];
      prior.failure.None? && Step(prior.state, e, codes, platform).Success? &&
      Run(s, events, codes, platform).state == Step(prior.state, e, codes, platform).value
  {
  }

  lemma TagsNamedLast(name: string, events: seq<Event>)
    requires |events| > 0
    ensures TagsNamed(name, events) == Seen(TagsNamed(name, events[..|events| - 1]), events[|events| - 1], name)
  {
  }

  /** What the forecast tags seen so far have done to a state: the first one
      cleared the flag, the others each added their day. */
  ghost predicate ForecastsRead(t: State, tags: seq<map<string, string>>, codes: Option<int -> WeatherCode>)
  {
    (t.isFirstDayForecast <==> |tags| == 0) && DaysFrom(t.days, tags, codes)
  }

  lemma ForecastStep(t: State, e: Event, tags: seq<map<string, string>>, codes: Option<int -> WeatherCode>, platform: Platform)
    requires ForecastsRead(t, tags, codes) && Step(t, e, codes, platform).Success?
    ensures ForecastsRead(Step(t, e, codes, platform).value, Seen(tags, e, "yweather:forecast"), codes)
  {
    var next := Step(t, e, codes, platform).value;
    if IsTag(e, "yweather:forecast") {
      if !t.isFirstDayForecast {
        var day := DecodeDay(e.attrs, codes).value;
        assert next.days == t.days + [day];
        DaysFromSnoc(t.days, tags, day, e.attrs, codes);
      }
    } else {
      StepKeepsForecast(t, e, codes, platform);
    }
  }

  /** Forecast count: of K forecast tags, all but the first become day
      entries, K-1 of them, in document order. */
  lemma {:induction false} ForecastDays(s: State, events: seq<Event>, codes: Option<int -> WeatherCode>, platform: Platform)
    requires s.isFirstDayForecast && s.days == []
    ensures var out := Run(s, events, codes, platform);
      var tags := TagsNamed("yweather:forecast", events);
      out.failure.None? ==>
        (out.state.isFirstDayForecast <==> |tags| == 0) && DaysFrom(out.state.days, tags, codes)
  {
    if |events| > 0 && Run(s, events, codes, platform).failure.None? {
      var n := |events| - 1;
      ForecastDays(s, events[..n], codes, platform);
      RunLast(s, events, codes, platform);
      TagsNamedLast("yweather:forecast", events);
      ForecastStep(Run(s, events[..n], codes, platform).state, events[n],
                   TagsNamed("yweather:forecast", events[..n]), codes, platform);
    }
  }

  /** What the forecast tags seen so far have done to today's temperature,
      from state `s`: the first one set the minimum and maximum. */
  ghost predicate TodayRead(s: State, t: State, tags: seq<map<string, string>>)
  {
    var temperature := t.weather.temperature;
    (t.isFirstDayForecast <==> |tags| == 0) &&
    (|tags| == 0 ==> temperature.minTemp == s.weather.temperature.minTemp &&
                     temperature.maxTemp == s.weather.temperature.maxTemp) &&
    (|tags| > 0 ==> temperature.minTemp.Some? && temperature.minTemp == IntAttr(tags[0], "low").ToOption() &&
                    temperature.maxTemp.Some? && temperature.maxTemp == IntAttr(tags[0], "high").ToOption())
  }

  lemma TodayStep(s: State, t: State, e: Event, tags: seq<map<string, string>>, codes: Option<int -> WeatherCode>, platform: Platform)
    requires TodayRead(s, t, tags) && Step(t, e, codes, platform).Success?
    ensures TodayRead(s, Step(t, e, codes, platform).value, Seen(tags, e, "yweather:forecast"))
  {
    if IsTag(e, "yweather:forecast") {
      assert (tags + [e.attrs])[0] == if |tags| == 0 then e.attrs else tags[0];
    } else {
      StepKeepsForecast(t, e, codes, platform);
    }
  }

  /** The first forecast tag is today's: it sets today's minimum and maximum
      from its `low` and `high`, and no other tag changes them. */
  lemma {:induction false} TodayFromFirstForecast(s: State, events: seq<Event>, codes: Option<int -> WeatherCode>, platform: Platform)
    requires s.isFirstDayForecast
    ensures var out := Run(s, events, codes, platform);
      var tags := TagsNamed("yweather:forecast", events);
      var temperature := out.state.weather.temperature;
      out.failure.None? ==>
        (out.state.isFirstDayForecast <==> |tags| == 0) &&
        (|tags| == 0 ==> temperature.minTemp == s.weather.temperature.minTemp &&
                         temperature.maxTemp == s.weather.temperature.maxTemp) &&
        (|tags| > 0 ==> temperature.minTemp.Some? && temperature.minTemp == IntAttr(tags[0], "low").ToOption() &&
                        temperature.maxTemp.Some? && temperature.maxTemp == IntAttr(tags[0], "high").ToOption())
  {
    if |events| > 0 && Run(s, events, codes, platform).failure.None? {
      var n := |events| - 1;
      TodayFromFirstForecast(s, events[..n], codes, platform);
      RunLast(s, events, codes, platform);
      TagsNamedLast("yweather:forecast", events);
      TodayStep(s, Run(s, events[..n], codes, platform).state, events[n],
                TagsNamed("yweather:forecast", events[..n]), codes, platform);
    }
  }

  /** What the condition tags seen so far have done to a state, from state
      `s`: the last one wrote its fields, or none has and they are as in `s`. */
  ghost predicate ConditionRead(s: State, t: State, tags: seq<map<string, string>>, codes: Option<int -> WeatherCode>)
  {
    var cond := t.weather.currentCondition;
    (|tags| > 0 ==>
      var a := tags[|tags| - 1];
      IntAttr(a, "code").Success? && IntAttr(a, "temp").Success? &&
      cond.weatherId == Some(IntAttr(a, "code").value) &&
      cond.icon == Some(IntToString(IntAttr(a, "code").value)) &&
      cond.descr == GetAttributeValue(a, "text") &&
      t.weather.temperature.temp == Some(IntAttr(a, "temp").value) &&
      (codes.Some? ==> cond.weatherCode == Some(codes.value(IntAttr(a, "code").value)))) &&
    (|tags| == 0 ==> ViewOf(t.weather) == ViewOf(s.weather))
  }

  lemma ConditionStep(s: State, t: State, e: Event, tags: seq<map<string, string>>,
                      codes: Option<int -> WeatherCode>, platform: Platform)
    requires ConditionRead(s, t, tags, codes) && Step(t, e, codes, platform).Success?
    ensures ConditionRead(s, Step(t, e, codes, platform).value, Seen(tags, e, "yweather:condition"), codes)
  {
    if IsTag(e, "yweather:condition") {
      var w := DecodeCondition(t.weather, e.attrs, codes).value;
      assert Step(t, e, codes, platform).value.weather == w;
      assert Seen(tags, e, "yweather:condition") == tags + [e.attrs];
    } else {
      StepKeepsCondition(t, e, codes, platform);
    }
  }

  /** Condition tag: the last one decides the code, the icon (the code's
      decimal string), the description and the current temperature; the
      normalised code is the provider's mapping of that code. */
  lemma {:induction false} LastConditionWins(s: State, events: seq<Event>, codes: Option<int -> WeatherCode>, platform: Platform)
    ensures var out := Run(s, events, codes, platform);
      out.failure.None? ==> ConditionRead(s, out.state, TagsNamed("yweather:condition", events), codes)
  {
    if |events| > 0 && Run(s, events, codes, platform).failure.None? {
      var n := |events| - 1;
      LastConditionWins(s, events[..n], codes, platform);
      RunLast(s, events, codes, platform);
      TagsNamedLast("yweather:condition", events);
      ConditionStep(s, Run(s, events[..n], codes, platform).state, events[n],
                    TagsNamed("yweather:condition", events[..n]), codes, platform);
    }
  }

  /** Without a code provider the normalised code never changes, whatever the
      document, even on a pass that throws. */
  lemma {:induction false} NoProviderKeepsWeatherCode(s: State, events: seq<Event>, platform: Platform)
    ensures Run(s, events, None, platform).state.weather.currentCondition.weatherCode
            == s.weather.currentCondition.weatherCode
  {
    if |events| > 0 {
      var n := |events| - 1;
      NoProviderKeepsWeatherCode(s, events[..n], platform);
      var prior := Run(s, events[..n], None, platform);
      if prior.failure.None? && Step(prior.state, events[n], None, platform).Success? {
        StepKeepsWeatherCode(prior.state, events[n], None, platform);
      }
    }
  }

  /** What the units tags seen so far have done to a state, from state `s`. */
  ghost predicate UnitsRead(s: State, t: State, tags: seq<map<string, string>>)
  {
    t.labels == (if |tags| == 0 then s.labels else DecodeUnits(tags[|tags| - 1])) &&
    t.unitsAttached == (s.unitsAttached || |tags| > 0)
  }

  lemma UnitsStep(s: State, t: State, e: Event, tags: seq<map<string, string>>,
                  codes: Option<int -> WeatherCode>, platform: Platform)
    requires UnitsRead(s, t, tags) && Step(t, e, codes, platform).Success?
    ensures UnitsRead(s, Step(t, e, codes, platform).value, Seen(tags, e, "yweather:units"))
  {
    if !IsTag(e, "yweather:units") {
      StepKeepsUnits(t, e, codes, platform);
    }
  }

  /** Units: the last units tag decides the four labels, and the units object
      is attached to the forecast as soon as there is one. */
  lemma {:induction false} LastUnitsWin(s: State, events: seq<Event>, codes: Option<int -> WeatherCode>, platform: Platform)
    ensures var out := Run(s, events, codes, platform);
      var tags := TagsNamed("yweather:units", events);
      out.failure.None? ==> UnitsRead(s, out.state, tags)
  {
    if |events| > 0 && Run(s, events, codes, platform).failure.None? {
      var n := |events| - 1;
      LastUnitsWin(s, events[..n], codes, platform);
      RunLast(s, events, codes, platform);
      TagsNamedLast("yweather:units", events);
      UnitsStep(s, Run(s, events[..n], codes, platform).state, events[n],
                TagsNamed("yweather:units", events[..n]), codes, platform);
    }
  }

  /** Only a wind tag touches the wind. */
  lemma StepKeepsWind(s: State, e: Event, codes: Option<int -> WeatherCode>, platform: Platform)
    requires Step(s, e, codes, platform).Success? && !IsTag(e, "yweather:wind")
    ensures Step(s, e, codes, platform).value.weather.wind == s.weather.wind
  {
    match e {
      case StartTag(name, attrs) =>
        if name == "yweather:atmosphere" {
        } else if name == "yweather:condition" {
        } else if name == "yweather:astronomy" {
        }
      case _ =>
    }
  }

  /** The four fields the atmosphere tag writes. */
  function AtmosphereOf(c: Condition): (Option<int>, Option<real>, Option<real>, Option<int>)
  {
    (c.humidity, c.visibility, c.pressure, c.pressureTrend)
  }

  /** Only an atmosphere tag touches humidity, visibility, pressure and its trend. */
  lemma StepKeepsAtmosphere(s: State, e: Event, codes: Option<int -> WeatherCode>, platform: Platform)
    requires Step(s, e, codes, platform).Success? && !IsTag(e, "yweather:atmosphere")
    ensures AtmosphereOf(Step(s, e, codes, platform).value.weather.currentCondition)
            == AtmosphereOf(s.weather.currentCondition)
  {
    match e {
      case StartTag(name, attrs) =>
        if name == "yweather:wind" {
        } else if name == "yweather:condition" {
        } else if name == "yweather:astronomy" {
        }
      case _ =>
    }
  }

  /** Only a location tag touches city, region and country. */
  lemma StepKeepsPlace(s: State, e: Event, codes: Option<int -> WeatherCode>, platform: Platform)
    requires Step(s, e, codes, platform).Success? && !IsTag(e, "yweather:location")
    ensures var l := Step(s, e, codes, platform).value.weather.location;
      l.city == s.weather.location.city && l.region == s.weather.location.region &&
      l.country == s.weather.location.country
  {
    match e {
      case StartTag(name, attrs) =>
        if name == "yweather:atmosphere" {
        } else if name == "yweather:condition" {
        } else if name == "yweather:astronomy" {
        }
      case _ =>
    }
  }

  /** Only an astronomy tag touches sunrise and sunset. */
  lemma StepKeepsSun(s: State, e: Event, codes: Option<int -> WeatherCode>, platform: Platform)
    requires Step(s, e, codes, platform).Success? && !IsTag(e, "yweather:astronomy")
    ensures var l := Step(s, e, codes, platform).value.weather.location;
      l.sunrise == s.weather.location.sunrise && l.sunset == s.weather.location.sunset
  {
    match e {
      case StartTag(name, attrs) =>
        if name == "yweather:atmosphere" {
        } else if name == "yweather:condition" {
        } else if name == "yweather:location" {
        }
      case _ =>
    }
  }

  /** What the wind tags seen so far have done to a state, from state `s`. */
  ghost predicate WindRead(s: State, t: State, tags: seq<map<string, string>>, platform: Platform)
  {
    var wind := t.weather.wind;
    (|tags| > 0 ==>
      var a := tags[|tags| - 1];
      IntAttr(a, "chill").Success? && IntAttr(a, "direction").Success? &&
      FloatAttr(a, "speed", platform).Success? &&
      wind.chill == Some(IntAttr(a, "chill").value) &&
      wind.deg == Some(IntAttr(a, "direction").value) &&
      wind.speed == Some(FloatAttr(a, "speed", platform).value)) &&
    (|tags| == 0 ==> wind == s.weather.wind)
  }

  lemma WindStep(s: State, t: State, e: Event, tags: seq<map<string, string>>,
                 codes: Option<int -> WeatherCode>, platform: Platform)
    requires WindRead(s, t, tags, platform) && Step(t, e, codes, platform).Success?
    ensures WindRead(s, Step(t, e, codes, platform).value, Seen(tags, e, "yweather:wind"), platform)
  {
    if !IsTag(e, "yweather:wind") {
      StepKeepsWind(t, e, codes, platform);
    }
  }

  /** Wind: on a successful pass the last wind tag decides chill, direction
      and speed; with no wind tag the wind is as it was. */
  lemma {:induction false} LastWindWins(s: State, events: seq<Event>, codes: Option<int -> WeatherCode>, platform: Platform)
    ensures var out := Run(s, events, codes, platform);
      out.failure.None? ==> WindRead(s, out.state, TagsNamed("yweather:wind", events), platform)
  {
    if |events| > 0 && Run(s, events, codes, platform).failure.None? {
      var n := |events| - 1;
      LastWindWins(s, events[..n], codes, platform);
      RunLast(s, events, codes, platform);
      TagsNamedLast("yweather:wind", events);
      WindStep(s, Run(s, events[..n], codes, platform).state, events[n],
               TagsNamed("yweather:wind", events[..n]), codes, platform);
    }
  }

  /** What the atmosphere tags seen so far have done to a state, from state `s`. */
  ghost predicate AtmosphereRead(s: State, t: State, tags: seq<map<string, string>>, platform: Platform)
  {
    var c := t.weather.currentCondition;
    (|tags| > 0 ==>
      var a := tags[|tags| - 1];
      IntAttr(a, "humidity").Success? && FloatAttr(a, "visibility", platform).Success? &&
      FloatAttr(a, "pressure", platform).Success? && IntAttr(a, "rising").Success? &&
      c.humidity == Some(IntAttr(a, "humidity").value) &&
      c.visibility == Some(FloatAttr(a, "visibility", platform).value) &&
      c.pressure == Some(FloatAttr(a, "pressure", platform).value) &&
      c.pressureTrend == Some(IntAttr(a, "rising").value)) &&
    (|tags| == 0 ==> AtmosphereOf(c) == AtmosphereOf(s.weather.currentCondition))
  }

  lemma AtmosphereStep(s: State, t: State, e: Event, tags: seq<map<string, string>>,
                       codes: Option<int -> WeatherCode>, platform: Platform)
    requires AtmosphereRead(s, t, tags, platform) && Step(t, e, codes, platform).Success?
    ensures AtmosphereRead(s, Step(t, e, codes, platform).value, Seen(tags, e, "yweather:atmosphere"), platform)
  {
    if !IsTag(e, "yweather:atmosphere") {
      StepKeepsAtmosphere(t, e, codes, platform);
    }
  }

  /** Atmosphere: on a successful pass the last atmosphere tag decides
      humidity, visibility, pressure and the pressure trend (`rising`); with
      no atmosphere tag they are as they were. */
  lemma {:induction false} LastAtmosphereWins(s: State, events: seq<Event>, codes: Option<int -> WeatherCode>, platform: Platform)
    ensures var out := Run(s, events, codes, platform);
      out.failure.None? ==> AtmosphereRead(s, out.state, TagsNamed("yweather:atmosphere", events), platform)
  {
    if |events| > 0 && Run(s, events, codes, platform).failure.None? {
      var n := |events| - 1;
      LastAtmosphereWins(s, events[..n], codes, platform);
      RunLast(s, events, codes, platform);
      TagsNamedLast("yweather:atmosphere", events);
      AtmosphereStep(s, Run(s, events[..n], codes, platform).state, events[n],
                     TagsNamed("yweather:atmosphere", events[..n]), codes, platform);
    }
  }

  /** What the location tags seen so far have done to a state, from state `s`. */
  ghost predicate PlaceRead(s: State, t: State, tags: seq<map<string, string>>)
  {
    var l := t.weather.location;
    (|tags| > 0 ==>
      var a := tags[|tags| - 1];
      l.city == GetAttributeValue(a, "city") && l.region == GetAttributeValue(a, "region") &&
      l.country == GetAttributeValue(a, "country")) &&
    (|tags| == 0 ==>
      l.city == s.weather.location.city && l.region == s.weather.location.region &&
      l.country == s.weather.location.country)
  }

  lemma PlaceStep(s: State, t: State, e: Event, tags: seq<map<string, string>>,
                  codes: Option<int -> WeatherCode>, platform: Platform)
    requires PlaceRead(s, t, tags) && Step(t, e, codes, platform).Success?
    ensures PlaceRead(s, Step(t, e, codes, platform).value, Seen(tags, e, "yweather:location"))
  {
    if !IsTag(e, "yweather:location") {
      StepKeepsPlace(t, e, codes, platform);
    }
  }

  /** Location: on a successful pass the last location tag decides city,
      region and country, a missing attribute giving None; with no location
      tag they are as they were. */
  lemma {:induction false} LastLocationWins(s: State, events: seq<Event>, codes: Option<int -> WeatherCode>, platform: Platform)
    ensures var out := Run(s, events, codes, platform);
      out.failure.None? ==> PlaceRead(s, out.state, TagsNamed("yweather:location", events))
  {
    if |events| > 0 && Run(s, events, codes, platform).failure.None? {
      var n := |events| - 1;
      LastLocationWins(s, events[..n], codes, platform);
      RunLast(s, events, codes, platform);
      TagsNamedLast("yweather:location", events);
      PlaceStep(s, Run(s, events[..n], codes, platform).state, events[n],
                TagsNamed("yweather:location", events[..n]), codes, platform);
    }
  }

  /** The time the astronomy tags `tags` leave in the field `key`: that of the
      last tag that carries the attribute, or `before` when none does. */
  function LastTime(before: Option<int>, tags: seq<map<string, string>>, key: string, platform: Platform): Option<int>
  {
    if |tags| == 0 then before
    else if key in tags[|tags| - 1] then platform.parseTime(tags[|tags| - 1][key])
    else LastTime(before, tags[..|tags| - 1], key, platform)
  }

  /** What the astronomy tags seen so far have done to a state, from state `s`. */
  ghost predicate SunRead(s: State, t: State, tags: seq<map<string, string>>, platform: Platform)
  {
    t.weather.location.sunrise == LastTime(s.weather.location.sunrise, tags, "sunrise", platform) &&
    t.weather.location.sunset == LastTime(s.weather.location.sunset, tags, "sunset", platform)
  }

  lemma SunStep(s: State, t: State, e: Event, tags: seq<map<string, string>>,
                codes: Option<int -> WeatherCode>, platform: Platform)
    requires SunRead(s, t, tags, platform) && Step(t, e, codes, platform).Success?
    ensures SunRead(s, Step(t, e, codes, platform).value, Seen(tags, e, "yweather:astronomy"), platform)
  {
    if IsTag(e, "yweather:astronomy") {
      assert (tags + [e.attrs])[..|tags|] == tags;
    } else {
      StepKeepsSun(t, e, codes, platform);
    }
  }

  /** Astronomy: on a successful pass sunrise and sunset each hold the parsed
      time of the last astronomy tag that carries them; a tag without one
      leaves it, and with no such tag it is as it was. */
  lemma {:induction false} LastSunTimesWin(s: State, events: seq<Event>, codes: Option<int -> WeatherCode>, platform: Platform)
    ensures var out := Run(s, events, codes, platform);
      out.failure.None? ==> SunRead(s, out.state, TagsNamed("yweather:astronomy", events), platform)
  {
    if |events| > 0 && Run(s, events, codes, platform).failure.None? {
      var n := |events| - 1;
      LastSunTimesWin(s, events[..n], codes, platform);
      RunLast(s, events, codes, platform);
      TagsNamedLast("yweather:astronomy", events);
      SunStep(s, Run(s, events[..n], codes, platform).state, events[n],
              TagsNamed("yweather:astronomy", events[..n]), codes, platform);
    }
  }

  /** A tag whose handler throws in every state: a wind, atmosphere or
      condition tag with an attribute that does not parse, a forecast tag
      whose `low` or `high` does not parse, or an astronomy tag with a sunrise
      or sunset that does not parse. */
  predicate Rejected(e: Event, platform: Platform)
  {
    e.StartTag? &&
    ((e.name == "yweather:wind" && DecodeWind(e.attrs, platform).Failure?) ||
     (e.name == "yweather:atmosphere" && DecodeAtmosphere(NewCondition, e.attrs, platform).Failure?) ||
     (e.name == "yweather:forecast" && (IntAttr(e.attrs, "low").Failure? || IntAttr(e.attrs, "high").Failure?)) ||
     (e.name == "yweather:condition" && (IntAttr(e.attrs, "code").Failure? || IntAttr(e.attrs, "temp").Failure?)) ||
     (e.name == "yweather:astronomy" && DecodeAstronomy(NewCurrentWeather.location, e.attrs, platform).Failure?))
  }

  /** No partial result: a document holding a rejected tag makes the pass
      throw, whatever comes before or after it. */
  lemma RejectedTagFails(s: State, events: seq<Event>, i: nat, codes: Option<int -> WeatherCode>, platform: Platform)
    requires i < |events| && Rejected(events[i], platform)
    ensures Run(s, events, codes, platform).failure.Some?
  {
    var upto := events[..i + 1];
    assert upto[..i] == events[..i];
    assert upto[i] == events[i];
    FailureSticks(s, events, i + 1, codes, platform);
  }
}
