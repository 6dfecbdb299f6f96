/** The request URLs of the Yahoo backend. Each builder reads the provider's
    configuration; here that configuration is an argument. */
module YahooUrls {
  import opened Wrappers
  import opened Decimal
  import opened WeatherModel

  const YahooGeoUrl: string := "http://where.yahooapis.com/v1"
  const YahooWeatherUrl: string := "http://weather.yahooapis.com/forecastrss"
  const YahooImgUrl: string := "http://l.yimg.com/a/i/us/we/52/"

  datatype ApiKeyRequiredException = ApiKeyRequiredException

  /** A device position; the two coordinates are the strings Java's
      `"" + location.getLatitude()` and `"" + location.getLongitude()` give. */
  datatype Coordinates = Coordinates(latitude: string, longitude: string)

  /** `s.replaceAll(" ", "%20")`. */
  function ReplaceSpaces(s: string): (r: string)
    ensures ' ' !in r
    ensures |r| >= |s|
  {
    if |s| == 0 then "" else (if s[0] == ' ' then "%20" else [s[0]]) + ReplaceSpaces(s[1..])
  }

  /** Turns each `%20` back into a space. */
  function Unescape(r: string): string
  {
    if |r| == 0 then ""
    else if |r| >= 3 && r[..3] == "%20" then " " + Unescape(r[3..])
    else [r[0]] + Unescape(r[1..])
  }

  /** Escaping loses nothing: a pattern without `%` comes back unchanged. */
  lemma {:induction false} UnescapeReplaceSpaces(s: string)
    requires '%' !in s
    ensures Unescape(ReplaceSpaces(s)) == s
  {
    if |s| > 0 {
      var rest := ReplaceSpaces(s[1..]);
      assert '%' !in s[1..];
      UnescapeReplaceSpaces(s[1..]);
      if s[0] == ' ' {
        assert ReplaceSpaces(s) == "%20" + rest;
        assert ("%20" + rest)[..3] == "%20";
        assert ("%20" + rest)[3..] == rest;
      } else {
        var r := [s[0]] + rest;
        assert ReplaceSpaces(s) == r;
        assert r[0] == s[0] && s[0] != '%';
        assert r[1..] == rest;
      }
    }
  }

  lemma {:induction false} NatToStringHasNoSpace(n: nat)
    ensures ' ' !in NatToString(n)
  {
    if n >= 10 {
      NatToStringHasNoSpace(n / 10);
    }
  }

  /** `getQueryCityURL`: no API key is an ApiKeyRequiredException before any
      string is built; otherwise the place query for the pattern with its
      spaces escaped, the result limit and the key. */
  function GetQueryCityURL(config: WeatherConfig, cityNamePattern: string): (r: Result<string, ApiKeyRequiredException>)
    ensures r.Failure? <==> config.apiKey.None?
    ensures r.Success? ==>
      r.value == YahooGeoUrl + "/places.q(" + ReplaceSpaces(cityNamePattern) + "%2A);count="
                 + IntToString(config.maxResult) + "?appid=" + config.apiKey.value
  {
    if config.apiKey.None? then Failure(ApiKeyRequiredException)
    else
      var pattern := ReplaceSpaces(cityNamePattern);
      Success(YahooGeoUrl + "/places.q(" + pattern + "%2A);count=" + IntToString(config.maxResult)
              + "?appid=" + config.apiKey.value)
  }

  lemma IntToStringHasNoSpace(n: int)
    ensures ' ' !in IntToString(n)
  {
    if n < 0 {
      NatToStringHasNoSpace(-n);
      assert IntToString(n) == "-" + NatToString(-n);
    } else {
      NatToStringHasNoSpace(n);
    }
  }

  /** Whatever the pattern, the city query holds no raw space unless the key
      brings one. */
  lemma CityURLHasNoSpace(config: WeatherConfig, cityNamePattern: string)
    requires config.apiKey.Some? && ' ' !in config.apiKey.value
    ensures GetQueryCityURL(config, cityNamePattern).Success?
    ensures ' ' !in GetQueryCityURL(config, cityNamePattern).value
  {
    var pattern := ReplaceSpaces(cityNamePattern);
    var count := IntToString(config.maxResult);
    IntToStringHasNoSpace(config.maxResult);
    var head := YahooGeoUrl + "/places.q(";
    assert ' ' !in head by {
      forall i | 0 <= i < |head| ensures head[i] != ' ' {
      }
    }
    var a := head + pattern;
    assert ' ' !in a;
    var b := a + "%2A);count=";
    assert ' ' !in b;
    var c := b + count;
    assert ' ' !in c;
    var d := c + "?appid=";
    assert ' ' !in d;
    var url := d + config.apiKey.value;
    assert ' ' !in url;
    assert GetQueryCityURL(config, cityNamePattern).value == url;
  }

  /** `getQueryCurrentWeatherURL`: the key is checked but not sent; the city
      id and the unit flag can be read back from the URL. */
  function GetQueryCurrentWeatherURL(config: WeatherConfig, isMetric: UnitSystem -> bool, cityId: string)
    : (r: Result<string, ApiKeyRequiredException>)
    ensures r.Failure? <==> config.apiKey.None?
    ensures r.Success? ==>
      |r.value| == |YahooWeatherUrl| + |cityId| + 7 &&
      r.value[..|YahooWeatherUrl| + 3] == YahooWeatherUrl + "?w=" &&
      r.value[|YahooWeatherUrl| + 3..|r.value| - 4] == cityId &&
      r.value[|r.value| - 4..|r.value| - 1] == "&u=" &&
      (r.value[|r.value| - 1] == 'c' <==> isMetric(config.unitSystem)) &&
      (r.value[|r.value| - 1] == 'f' <==> !isMetric(config.unitSystem))
  {
    if config.apiKey.None? then Failure(ApiKeyRequiredException)
    else Success(YahooWeatherUrl + "?w=" + cityId + "&u=" + (if isMetric(config.unitSystem) then "c" else "f"))
  }

  /** `getQueryForecastWeatherURL`: the same URL as for the current weather. */
  function GetQueryForecastWeatherURL(config: WeatherConfig, isMetric: UnitSystem -> bool, cityId: string)
    : (r: Result<string, ApiKeyRequiredException>)
    ensures r == GetQueryCurrentWeatherURL(config, isMetric, cityId)
  {
    if config.apiKey.None? then Failure(ApiKeyRequiredException)
    else Success(YahooWeatherUrl + "?w=" + cityId + "&u=" + (if isMetric(config.unitSystem) then "c" else "f"))
  }

  /** `getQueryCityURLByLocation`: the place query for a coordinate pair. */
  function GetQueryCityURLByLocation(config: WeatherConfig, location: Coordinates)
    : (r: Result<string, ApiKeyRequiredException>)
    ensures r.Failure? <==> config.apiKey.None?
    ensures r.Success? ==>
      r.value == YahooGeoUrl + "/places.q(" + location.latitude + "," + location.longitude
                 + ")?appid=" + config.apiKey.value
  {
    if config.apiKey.None? then Failure(ApiKeyRequiredException)
    else Success(YahooGeoUrl + "/places.q(" + location.latitude + "," + location.longitude + ")?appid="
                 + config.apiKey.value)
  }

  /** `getQueryImageURL`: needs no key and never fails; the icon can be read
      back from the URL. */
  function GetQueryImageURL(icon: string): (r: string)
    ensures |r| == |YahooImgUrl| + |icon| + 4
    ensures r[..|YahooImgUrl|] == YahooImgUrl && r[|YahooImgUrl|..|r| - 4] == icon && r[|r| - 4..] == ".gif"
  {
    YahooImgUrl + icon + ".gif"
  }
}
