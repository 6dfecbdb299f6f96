/** The provider object: its shared units and forecast, its configuration and
    code provider, and the two parser loops that read a document. */
module YahooProvider {
  import opened Wrappers
  import opened Xml
  import opened WeatherModel
  import CitySearch
  import opened CurrentCondition

  /** One more event handled without an exception. */
  lemma Advance(begin: State, events: seq<Event>, i: nat, prior: State, next: State,
                codes: Option<int -> WeatherCode>, platform: Platform)
    requires i < |events|
    requires Run(begin, events[..i], codes, platform) == Outcome(prior, None)
    requires Step(prior, events[i], codes, platform) == Success(next)
    ensures Run(begin, events[..i + 1], codes, platform) == Outcome(next, None)
  {
    assert events[..i + 1][..i] == events[..i];
  }

  /** An exception at event `i` is where the whole pass ends. */
  lemma StopsAt(begin: State, events: seq<Event>, i: nat, prior: State, cause: Cause,
                codes: Option<int -> WeatherCode>, platform: Platform)
    requires i < |events|
    requires Run(begin, events[..i], codes, platform) == Outcome(prior, None)
    requires Step(prior, events[i], codes, platform) == Failure(cause)
    ensures Run(begin, events, codes, platform) == Outcome(prior, Some(cause))
  {
    assert events[..i + 1][..i] == events[..i];
    FailureSticks(begin, events, i + 1, codes, platform);
  }

  /** One more event handled by the place-search loop. */
  lemma ScanAdvance(events: seq<Event>, i: nat, prior: CitySearch.CityScan)
    requires i < |events|
    requires CitySearch.Scan(CitySearch.Start, events[..i]) == Success(prior)
    ensures CitySearch.Scan(CitySearch.Start, events[..i + 1]) == CitySearch.Step(prior, events[i])
  {
    assert events[..i + 1][..i] == events[..i];
  }

  class YahooWeatherProvider {
    var config: Option<WeatherConfig>
    /** Shared with the forecast and with every CurrentWeather returned. */
    var units: WeatherUnit
    var codeProvider: Option<int -> WeatherCode>
    /** Accumulates day entries over every call of GetCurrentCondition. */
    var forecast: WeatherForecast

    constructor ()
      ensures config.None? && codeProvider.None?
      ensures fresh(units) && units.Labels() == NoLabels
      ensures fresh(forecast) && forecast.days == [] && forecast.unit == null
    {
      config := None;
      units := new WeatherUnit(NoLabels);
      codeProvider := None;
      forecast := new WeatherForecast();
    }

    /** Installs the configuration and a fresh units object for its unit
        system; the forecast keeps whatever units object it had. */
    method SetConfig(c: WeatherConfig, createWeatherUnit: UnitSystem -> UnitLabels)
      modifies this
      ensures config == Some(c)
      ensures fresh(units) && units.Labels() == createWeatherUnit(c.unitSystem)
      ensures codeProvider == old(codeProvider) && forecast == old(forecast)
      ensures unchanged(forecast)
    {
      config := Some(c);
      units := new WeatherUnit(createWeatherUnit(c.unitSystem));
    }

    method SetWeatherCodeProvider(codes: Option<int -> WeatherCode>)
      modifies this
      ensures codeProvider == codes
      ensures config == old(config) && units == old(units) && forecast == old(forecast)
    {
      codeProvider := codes;
    }

    /** `getCityResultList`: the loop over the place-search document. */
    method GetCityResultList(events: seq<Event>) returns (r: Result<seq<Option<City>>, WeatherLibException>)
      ensures r == CitySearch.CityResultList(events)
    {
      var objects: seq<City> := [];
      var currentTag: Option<string> := None;
      var result: seq<Option<nat>> := [];
      var i := 0;
      while i < |events|
        invariant 0 <= i <= |events|
        invariant CitySearch.Scan(CitySearch.Start, events[..i]) == Success(CitySearch.CityScan(objects, currentTag, result))
      {
        ScanAdvance(events, i, CitySearch.CityScan(objects, currentTag, result));
        match events[i] {
        case StartTag(tagName, _) =>
          if tagName == "place" {
            objects := objects + [NewCity];
          }
          currentTag := Some(tagName);
        case Text(text) =>
          if CitySearch.IsFieldTag(currentTag) {
            if |objects| == 0 {
              CitySearch.ScanAppend(CitySearch.Start, events[..i + 1], events[i + 1..]);
              assert events[..i + 1] + events[i + 1..] == events;
              return Failure(WeatherLibException(NullPointer));
            }
            var last := |objects| - 1;
            objects := objects[last := CitySearch.SetField(objects[last], currentTag.value, text)];
          }
        case EndTag(tagName) =>
          if tagName == "place" {
            result := result + [if |objects| == 0 then None else Some(|objects| - 1)];
          }
        }
        i := i + 1;
      }
      assert events[..i] == events;
      assert CitySearch.Start.Valid();
      r := Success(CitySearch.Resolve(CitySearch.CityScan(objects, currentTag, result)));
    }

    /** The loop's locals and the provider's units and forecast are the state
        `s` of the pass, given the forecast's days and units object on entry. */
    ghost predicate Mirrors(s: State, weather: CurrentWeather, currentTag: Option<string>, isFirstDayForecast: bool,
                            days0: seq<DayForecast>, unit0: WeatherUnit?)
      reads this, units, forecast
    {
      && s.weather == weather && s.currentTag == currentTag && s.isFirstDayForecast == isFirstDayForecast
      && s.labels == units.Labels()
      && forecast.days == days0 + s.days
      && forecast.unit == (if s.unitsAttached then units else unit0)
    }

    /** `forecast.addForecast(df)`: one more day entry. */
    method AddForecast(day: DayForecast, ghost s: State, ghost days0: seq<DayForecast>, ghost unit0: WeatherUnit?,
                       ghost weather: CurrentWeather, ghost currentTag: Option<string>, ghost isFirstDayForecast: bool)
      requires Mirrors(s, weather, currentTag, isFirstDayForecast, days0, unit0)
      modifies forecast
      ensures Mirrors(s.(days := s.days + [day]), weather, currentTag, isFirstDayForecast, days0, unit0)
    {
      forecast.days := forecast.days + [day];
    }

    /** The units tag: the four labels of the shared units object are
        overwritten, and the forecast is given that object. */
    method ReadUnits(attrs: map<string, string>, ghost s: State, ghost days0: seq<DayForecast>, ghost unit0: WeatherUnit?,
                     ghost weather: CurrentWeather, ghost currentTag: Option<string>, ghost isFirstDayForecast: bool)
      requires Mirrors(s, weather, currentTag, isFirstDayForecast, days0, unit0)
      modifies units, forecast
      ensures Mirrors(s.(labels := DecodeUnits(attrs), unitsAttached := true),
                      weather, currentTag, isFirstDayForecast, days0, unit0)
    {
      units.tempUnit := Some("°" + JavaString(GetAttributeValue(attrs, "temperature")));
      units.pressureUnit := GetAttributeValue(attrs, "pressure");
      units.distanceUnit := GetAttributeValue(attrs, "distance");
      units.speedUnit := GetAttributeValue(attrs, "speed");
      forecast.unit := units;
    }

    /** The start-tag branches whose handlers parse attributes: wind,
        atmosphere, forecast, condition and astronomy. Each parses before it
        stores anything, so an exception leaves the mirrored state as it was. */
    method ParseWeatherTag(tagName: string, attrs: map<string, string>, platform: Platform,
                           ghost s: State, ghost days0: seq<DayForecast>, ghost unit0: WeatherUnit?,
                           weather: CurrentWeather, currentTag: Option<string>, isFirstDayForecast: bool)
      returns (weather': CurrentWeather, isFirstDayForecast': bool, ghost s': State, failure: Option<Cause>)
      requires tagName in ParsingTags
      requires Mirrors(s, weather, currentTag, isFirstDayForecast, days0, unit0)
      modifies forecast
      ensures Mirrors(s', weather', currentTag, isFirstDayForecast', days0, unit0)
      ensures failure.Some? ==> s' == s && Step(s, StartTag(tagName, attrs), codeProvider, platform) == Failure(failure.value)
      ensures failure.None? ==> Step(s, StartTag(tagName, attrs), codeProvider, platform) == Success(s')
    {
      weather', isFirstDayForecast', s', failure := weather, isFirstDayForecast, s, None;
      if tagName == "yweather:wind" {
        var wind := DecodeWind(attrs, platform);
        if wind.Failure? {
          failure := Some(wind.error);
          return;
        }
        weather' := weather.(wind := wind.value);
        s' := s.(weather := weather');
      } else if tagName == "yweather:atmosphere" {
        var c := DecodeAtmosphere(weather.currentCondition, attrs, platform);
        if c.Failure? {
          failure := Some(c.error);
          return;
        }
        weather' := weather.(currentCondition := c.value);
        s' := s.(weather := weather');
      } else if tagName == "yweather:forecast" {
        if isFirstDayForecast {
          var t := DecodeToday(weather.temperature, attrs);
          if t.Failure? {
            failure := Some(t.error);
            return;
          }
          weather' := weather.(temperature := t.value);
          isFirstDayForecast' := false;
          s' := s.(weather := weather', isFirstDayForecast := false);
        } else {
          var df := DecodeDay(attrs, codeProvider);
          if df.Failure? {
            failure := Some(df.error);
            return;
          }
          AddForecast(df.value, s, days0, unit0, weather, currentTag, isFirstDayForecast);
          s' := s.(days := s.days + [df.value]);
        }
      } else if tagName == "yweather:condition" {
        var w := DecodeCondition(weather, attrs, codeProvider);
        if w.Failure? {
          failure := Some(w.error);
          return;
        }
        weather' := w.value;
        s' := s.(weather := weather');
      } else {
        var l := DecodeAstronomy(weather.location, attrs, platform);
        if l.Failure? {
          failure := Some(l.error);
          return;
        }
        weather' := weather.(location := l.value);
        s' := s.(weather := weather');
      }
    }

    /** The start-tag branch of the loop in `getCurrentCondition`. When it
        throws, neither the locals nor the units object nor the forecast have
        changed. */
    method HandleStartTag(tagName: string, attrs: map<string, string>, platform: Platform,
                          ghost s: State, ghost days0: seq<DayForecast>, ghost unit0: WeatherUnit?,
                          weather: CurrentWeather, currentTag: Option<string>, isFirstDayForecast: bool)
      returns (weather': CurrentWeather, currentTag': Option<string>, isFirstDayForecast': bool,
               ghost s': State, failure: Option<Cause>)
      requires Mirrors(s, weather, currentTag, isFirstDayForecast, days0, unit0)
      modifies units, forecast
      ensures Mirrors(s', weather', currentTag', isFirstDayForecast', days0, unit0)
      ensures failure.Some? ==> s' == s && Step(s, StartTag(tagName, attrs), codeProvider, platform) == Failure(failure.value)
      ensures failure.None? ==> Step(s, StartTag(tagName, attrs), codeProvider, platform) == Success(s')
    {
      weather', currentTag', isFirstDayForecast', s', failure := weather, currentTag, isFirstDayForecast, s, None;
      if tagName in ParsingTags {
        weather', isFirstDayForecast', s', failure :=
          ParseWeatherTag(tagName, attrs, platform, s, days0, unit0, weather, currentTag, isFirstDayForecast);
      } else if tagName == "yweather:units" {
        ReadUnits(attrs, s, days0, unit0, weather, currentTag, isFirstDayForecast);
        s' := s.(labels := DecodeUnits(attrs), unitsAttached := true);
      } else if tagName == "yweather:location" {
        weather' := weather.(location := DecodeLocation(weather.location, attrs));
        s' := s.(weather := weather');
      } else if tagName == "image" {
        currentTag' := Some("image");
        s' := s.(currentTag := currentTag');
      } else if tagName == "lastBuildDate" {
        currentTag' := Some("update");
        s' := s.(currentTag := currentTag');
      }
    }

    /** `getCurrentCondition`: the loop over the weather document. The units
        object and the forecast keep every change made before an exception. */
    method GetCurrentCondition(events: seq<Event>, platform: Platform) returns (r: Result<CurrentWeather, WeatherLibException>)
      modifies units, forecast
      ensures var out := Run(Begin(old(units.Labels())), events, codeProvider, platform);
        && units.Labels() == out.state.labels
        && forecast.days == old(forecast.days) + out.state.days
        && forecast.unit == (if out.state.unitsAttached then units else old(forecast.unit))
        && (r.Failure? <==> out.failure.Some?)
        && (r.Failure? ==> r.error == WeatherLibException(out.failure.value))
        && (r.Success? ==> r.value == out.state.weather.(unit := units))
    {
      ghost var begin := Begin(units.Labels());
      ghost var days0 := forecast.days;
      ghost var unit0 := forecast.unit;
      ghost var s := begin;
      assert forecast.days == days0 + [];
      var weather := NewCurrentWeather;
      var currentTag: Option<string> := None;
      var isFirstDayForecast := true;
      var i := 0;
      while i < |events|
        invariant 0 <= i <= |events|
        invariant Run(begin, events[..i], codeProvider, platform) == Outcome(s, None)
        invariant Mirrors(s, weather, currentTag, isFirstDayForecast, days0, unit0)
      {
        match events[i] {
          case StartTag(tagName, attrs) =>
            var failure;
            ghost var next;
            weather, currentTag, isFirstDayForecast, next, failure :=
              HandleStartTag(tagName, attrs, platform, s, days0, unit0, weather, currentTag, isFirstDayForecast);
            if failure.Some? {
              StopsAt(begin, events, i, s, failure.value, codeProvider, platform);
              return Failure(WeatherLibException(failure.value));
            }
            Advance(begin, events, i, s, next, codeProvider, platform);
            s := next;
          case EndTag(_) =>
            if currentTag == Some("image") {
              currentTag := None;
            }
            Advance(begin, events, i, s, s.(currentTag := currentTag), codeProvider, platform);
            s := s.(currentTag := currentTag);
          case Text(_) =>
            Advance(begin, events, i, s, s, codeProvider, platform);
        }
        i := i + 1;
      }
      assert events[..i] == events;
      r := Success(weather.(unit := units));
    }

    /** `getForecastWeather`: the document is ignored; the answer is the
        accumulator that GetCurrentCondition fills. */
    method GetForecastWeather(events: seq<Event>) returns (r: WeatherForecast)
      ensures r == forecast
    {
      r := forecast;
    }
  }

  /** Two passes over two documents, then `getForecastWeather`: the forecast
      holds the day entries of both passes in call order, after whatever it
      held before, and keeps them even when a pass throws. */
  method CurrentConditionTwice(p: YahooWeatherProvider, first: seq<Event>, second: seq<Event>, platform: Platform)
    returns (r1: Result<CurrentWeather, WeatherLibException>, r2: Result<CurrentWeather, WeatherLibException>,
             f: WeatherForecast)
    modifies p.units, p.forecast
    ensures var out1 := Run(Begin(old(p.units.Labels())), first, p.codeProvider, platform);
            var out2 := Run(Begin(out1.state.labels), second, p.codeProvider, platform);
            && f == p.forecast
            && f.days == old(p.forecast.days) + out1.state.days + out2.state.days
            && p.units.Labels() == out2.state.labels
  {
    r1 := p.GetCurrentCondition(first, platform);
    r2 := p.GetCurrentCondition(second, platform);
    f := p.GetForecastWeather(second);
  }
}
