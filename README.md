# Yahoo weather provider, modelled in Dafny

This project models `YahooWeatherProvider`, the Yahoo backend of the WeatherLib
Android weather client. The provider does two kinds of work.

- **It parses two XML documents.**
  - `getCityResultList` reads a place-search answer and returns one `City` per
    `place` element.
  - `getCurrentCondition` reads an RSS weather feed. It fills a `CurrentWeather`
    from the attributes of the `yweather:*` tags. It also appends one
    `DayForecast` per forecast tag after the first to the provider's own
    `forecast` object, and rewrites the provider's shared `units` object.
- **It builds the request URLs**: the city search, the current weather, the
  forecast, the search by coordinates and the condition icon.

The modules follow the structure of the program:

- `Wrappers`: `Option` and `Result`.
- `Decimal`:
  - `Integer.parseInt` (`ParseInt`): an optional sign, decimal digits, and the
    32-bit range check.
  - Java's `"" + n` (`IntToString`).
- `Xml`: the pull parser's events (`StartTag`, `Text`, `EndTag`) and
  `getAttributeValue` as a map lookup.
- `WeatherModel`:
  - the value types of the library's model: `City`, `CurrentWeather`,
    `DayForecast` and so on;
  - the two objects the provider mutates in place: `WeatherUnit` and
    `WeatherForecast`;
  - `WeatherConfig`;
  - the exception causes.
- `CitySearch`: one turn of the place-search loop (`Step`) and the whole pass
  (`Scan`, `CityResultList`).
  - The Java loop keeps a reference `cty` to the last created City. That City
    is mutated even after it was added to the result. The model therefore keeps
    a table of created cities, and the result holds indices into that table.
  - The module also holds reference definitions over the document:
    `PlaceStarts`, `PlaceEnds`, `TagAfter`, `LastTextUnder`, `Filled`,
    `Orphan` and `PlaceBlock`. The lemmas tie the loop to them.
- `CurrentCondition`:
  - one turn of the weather-feed loop (`Step`) and the attribute decoders it
    uses;
  - the whole pass (`Run`), which stops at the first event whose handler
    throws.
- `YahooUrls`: the URL builders as functions of a `WeatherConfig`.
- `YahooProvider`: the class `YahooWeatherProvider`.
  - Its fields are `config`, `units`, `codeProvider` and `forecast`.
  - Its two parser methods are `while` loops over the events. Each is proved
    against the matching specification function (`CityResultList`, `Run`).
  - `GetCurrentCondition` writes the shared `units` object and appends to
    `forecast` in place.
  - On an exception the model keeps every change already made to those two
    objects, as the Java code does.

The model reproduces these behaviours of the code:

- In a later forecast day, `max` is assigned `high` and then overwritten with
  `low`. `min` is never assigned.
- The place-search loop never clears `currentTag` on an end tag. Text after
  `</name>` but before the next start tag still overwrites the name.
- Text under `woeid`, `name` or `country` before any `place` tag dereferences a
  null City. The result is a `WeatherLibException`, not a partial list.
- The `forecast` field is never cleared. Day entries accumulate over calls and
  survive a failing call.
- A `yweather:units` tag attaches `units` to the forecast at once. The returned
  `CurrentWeather` gets `units` only when the pass succeeds.
- `"°" + null` gives `"°null"`.

## Model

| member | source | states |
|---|---|---|
| Decimal.ParseInt | WeatherLib/lib/src/main/java/com/survivingwithandroid/weather/lib/provider/yahooweather/YahooWeatherProvider.java:137-138 | Accepts a string exactly when it is a numeral (an optional `-` or `+`, then one or more digits) whose value lies in the 32-bit range, and then returns that value. The value is defined by reading the digits left to right, and a lemma proves it equal to the parser's right-to-left reading. |
| Decimal.IntToString | WeatherLib/lib/src/main/java/com/survivingwithandroid/weather/lib/provider/yahooweather/YahooWeatherProvider.java:166 | `"" + n` is a numeral whose value is `n`, for every int. It starts with `-` exactly when `n` is negative, never has a `+`, and has no leading zero, so it is the canonical decimal string. |
| Decimal.NatToStringDigits | WeatherLib/lib/src/main/java/com/survivingwithandroid/weather/lib/provider/yahooweather/YahooWeatherProvider.java:173 | The decimal string of a natural number is nonempty, all digits, and reads back as that number. |
| Decimal.ParseIntToString | WeatherLib/lib/src/main/java/com/survivingwithandroid/weather/lib/provider/yahooweather/YahooWeatherProvider.java:172-173 | For every 32-bit int, parsing the icon string `"" + id` gives back `id`, so the icon always encodes the weather id. |
| Xml.GetAttributeValue | WeatherLib/lib/src/main/java/com/survivingwithandroid/weather/lib/provider/yahooweather/YahooWeatherProvider.java:137-218 | An attribute lookup gives a value exactly when the tag carries the attribute, and then gives that attribute's text. |
| CitySearch.Step | WeatherLib/lib/src/main/java/com/survivingwithandroid/weather/lib/provider/yahooweather/YahooWeatherProvider.java:80-103 | One loop turn keeps every reference in the result list pointing at a City that was created. A turn throws exactly on text under `woeid`, `name` or `country` while no City exists, and the exception is a null-pointer one. |
| CitySearch.Scan | WeatherLib/lib/src/main/java/com/survivingwithandroid/weather/lib/provider/yahooweather/YahooWeatherProvider.java:77-106 | The loop over all events keeps the same reference invariant. The only exception it can end with is the null-pointer one. |
| CitySearch.CityResultList | WeatherLib/lib/src/main/java/com/survivingwithandroid/weather/lib/provider/yahooweather/YahooWeatherProvider.java:57-115 | `getCityResultList` either returns the cities the references resolve to at the end, or throws a `WeatherLibException` that wraps a null-pointer exception, never another cause. |
| CitySearch.ScanAppend | WeatherLib/lib/src/main/java/com/survivingwithandroid/weather/lib/provider/yahooweather/YahooWeatherProvider.java:77-106 | Scanning `a + b` is scanning `a` and then `b` from where it stopped, and a failure in `a` is final. |
| CitySearch.ScanCounts | WeatherLib/lib/src/main/java/com/survivingwithandroid/weather/lib/provider/yahooweather/YahooWeatherProvider.java:80-103 | After a successful pass there is one City per `place` start tag and one result entry per `</place>`. `currentTag` is the name of the last start tag, because end tags never clear it. |
| CitySearch.CityCount | WeatherLib/lib/src/main/java/com/survivingwithandroid/weather/lib/provider/yahooweather/YahooWeatherProvider.java:100-102 | A successful result has exactly as many entries as the document has `</place>` events. |
| CitySearch.CityFailure | WeatherLib/lib/src/main/java/com/survivingwithandroid/weather/lib/provider/yahooweather/YahooWeatherProvider.java:89-96 | The parse throws if and only if some text event arrives under `woeid`, `name` or `country` before any `place` tag opened. |
| CitySearch.ScanWithinPlace | WeatherLib/lib/src/main/java/com/survivingwithandroid/weather/lib/provider/yahooweather/YahooWeatherProvider.java:86-99 | While no new `place` opens, the open City's id, name and country each hold the last text read while the current tag was that field; no other event changes the City. Every `</place>` appends a reference to that same City. |
| CitySearch.OpenCityFields | WeatherLib/lib/src/main/java/com/survivingwithandroid/weather/lib/provider/yahooweather/YahooWeatherProvider.java:81-96 | After `<place>` and events with no further `place` tag, the open City is a new City filled from those events alone. |
| CitySearch.ScanBlocks | WeatherLib/lib/src/main/java/com/survivingwithandroid/weather/lib/provider/yahooweather/YahooWeatherProvider.java:77-106 | After a place-free preamble, a run of closed `place` blocks scans successfully. Block `j` creates City `j`, and result entry `j` refers to it. |
| CitySearch.PlaceBlocksGiveCities | WeatherLib/lib/src/main/java/com/survivingwithandroid/weather/lib/provider/yahooweather/YahooWeatherProvider.java:72-111 | N closed `place` blocks give N cities in document order. City `j` carries the fields read inside block `j`. |
| CurrentCondition.IntAttr | WeatherLib/lib/src/main/java/com/survivingwithandroid/weather/lib/provider/yahooweather/YahooWeatherProvider.java:137 | `Integer.parseInt` of an attribute succeeds exactly when the attribute is present and is a numeral in range, and gives the numeral's value. Every failure, the missing attribute included, is a number-format exception. |
| CurrentCondition.FloatAttr | WeatherLib/lib/src/main/java/com/survivingwithandroid/weather/lib/provider/yahooweather/YahooWeatherProvider.java:139 | `Float.parseFloat` of an attribute succeeds exactly when the attribute is present and parses, and gives the parsed value. A missing attribute throws a null-pointer exception; an unparsable one throws a number-format exception. |
| CurrentCondition.TimeAttr | WeatherLib/lib/src/main/java/com/survivingwithandroid/weather/lib/provider/yahooweather/YahooWeatherProvider.java:207-218 | A missing sunrise or sunset is skipped. A present one succeeds exactly when the time parses, gives the parsed time, and otherwise throws a date-parse exception. |
| CurrentCondition.DecodeWind | WeatherLib/lib/src/main/java/com/survivingwithandroid/weather/lib/provider/yahooweather/YahooWeatherProvider.java:135-140 | The wind tag succeeds if and only if `chill` and `direction` parse as ints and `speed` parses as a float. The wind then holds `chill` as the chill, `direction` as the degrees and `speed` as the speed. |
| CurrentCondition.DecodeAtmosphere | WeatherLib/lib/src/main/java/com/survivingwithandroid/weather/lib/provider/yahooweather/YahooWeatherProvider.java:141-147 | The atmosphere tag succeeds if and only if `humidity` and `rising` parse as ints and `visibility` and `pressure` as floats. Humidity, visibility, pressure and the pressure trend (from `rising`) then hold those values, and no other field of the condition changes. |
| CurrentCondition.DecodeToday | WeatherLib/lib/src/main/java/com/survivingwithandroid/weather/lib/provider/yahooweather/YahooWeatherProvider.java:150-155 | The first forecast tag succeeds if and only if `low` and `high` both parse. The current temperature is left alone. |
| CurrentCondition.DecodeCondition | WeatherLib/lib/src/main/java/com/survivingwithandroid/weather/lib/provider/yahooweather/YahooWeatherProvider.java:170-182 | The condition tag succeeds if and only if `code` and `temp` both parse. Wind, location and today's min and max are left alone. Without a code provider the normalised code is left alone. |
| CurrentCondition.DecodeAstronomy | WeatherLib/lib/src/main/java/com/survivingwithandroid/weather/lib/provider/yahooweather/YahooWeatherProvider.java:206-220 | The astronomy tag succeeds if and only if each of `sunrise` and `sunset` is absent or parses as a time. A present one replaces the field with the parsed time, an absent one leaves the field as it was, and no other field changes. |
| CurrentCondition.DecodeDay | WeatherLib/lib/src/main/java/com/survivingwithandroid/weather/lib/provider/yahooweather/YahooWeatherProvider.java:157-166 | A later forecast tag succeeds if and only if `high`, `low` and `code` all parse. On success `max` holds `low` and `min` is unset. `weatherId` is `code`, `descr` is `text`, and the icon is the decimal string of `code` (`"" + id`), which parses back to `weatherId`. `weatherCode` is the code provider's answer when there is a provider, and unset otherwise. |
| CurrentCondition.DecodeUnits | WeatherLib/lib/src/main/java/com/survivingwithandroid/weather/lib/provider/yahooweather/YahooWeatherProvider.java:185-188 | The temperature label is always present and is `°` followed by the `temperature` attribute, or `null` when it is missing. The pressure, distance and speed labels are the `pressure`, `distance` and `speed` attributes as they stand, None when missing. |
| CurrentCondition.DecodeLocation | WeatherLib/lib/src/main/java/com/survivingwithandroid/weather/lib/provider/yahooweather/YahooWeatherProvider.java:191-195 | The location tag overwrites city, region and country with the `city`, `region` and `country` attributes, None for a missing one, and leaves sunrise and sunset alone. |
| CurrentCondition.Step | WeatherLib/lib/src/main/java/com/survivingwithandroid/weather/lib/provider/yahooweather/YahooWeatherProvider.java:131-227 | One turn of the weather loop. It can throw only on a wind, atmosphere, forecast, condition or astronomy tag, and it never removes a day entry. |
| CurrentCondition.Run | WeatherLib/lib/src/main/java/com/survivingwithandroid/weather/lib/provider/yahooweather/YahooWeatherProvider.java:131-241 | The loop, stopping at the first turn that throws. The day entries at the start are kept, even when the pass throws, and a pass that throws holds a tag of one of the five attribute-parsing kinds. |
| CurrentCondition.StepKeepsForecast | WeatherLib/lib/src/main/java/com/survivingwithandroid/weather/lib/provider/yahooweather/YahooWeatherProvider.java:148-168 | A successful step on anything but a forecast tag leaves today's min and max, the first-forecast flag and the day entries alone. |
| CurrentCondition.StepKeepsCondition | WeatherLib/lib/src/main/java/com/survivingwithandroid/weather/lib/provider/yahooweather/YahooWeatherProvider.java:170-182 | A successful step on anything but a condition tag leaves the id, icon, normalised code, description and current temperature alone. |
| CurrentCondition.StepKeepsUnits | WeatherLib/lib/src/main/java/com/survivingwithandroid/weather/lib/provider/yahooweather/YahooWeatherProvider.java:183-190 | A successful step on anything but a units tag leaves the labels and the forecast's attachment alone. |
| CurrentCondition.StepKeepsWeatherCode | WeatherLib/lib/src/main/java/com/survivingwithandroid/weather/lib/provider/yahooweather/YahooWeatherProvider.java:176-177 | Without a code provider, no successful step changes the normalised code of the current weather. |
| CurrentCondition.StepKeepsWind | WeatherLib/lib/src/main/java/com/survivingwithandroid/weather/lib/provider/yahooweather/YahooWeatherProvider.java:135-140 | A successful step on anything but a wind tag leaves the wind alone. |
| CurrentCondition.StepKeepsAtmosphere | WeatherLib/lib/src/main/java/com/survivingwithandroid/weather/lib/provider/yahooweather/YahooWeatherProvider.java:141-147 | A successful step on anything but an atmosphere tag leaves humidity, visibility, pressure and the pressure trend alone. |
| CurrentCondition.StepKeepsPlace | WeatherLib/lib/src/main/java/com/survivingwithandroid/weather/lib/provider/yahooweather/YahooWeatherProvider.java:191-195 | A successful step on anything but a location tag leaves city, region and country alone. |
| CurrentCondition.StepKeepsSun | WeatherLib/lib/src/main/java/com/survivingwithandroid/weather/lib/provider/yahooweather/YahooWeatherProvider.java:206-220 | A successful step on anything but an astronomy tag leaves sunrise and sunset alone. |
| CurrentCondition.NoProviderKeepsWeatherCode | WeatherLib/lib/src/main/java/com/survivingwithandroid/weather/lib/provider/yahooweather/YahooWeatherProvider.java:176-177 | Without a code provider the normalised code of the result is the one it started with, whatever the document, even when the pass throws. |
| CurrentCondition.FailureSticks | WeatherLib/lib/src/main/java/com/survivingwithandroid/weather/lib/provider/yahooweather/YahooWeatherProvider.java:238-241 | Once a prefix of the document throws, the whole pass ends with that exception and the state it had reached. |
| CurrentCondition.ForecastDays | WeatherLib/lib/src/main/java/com/survivingwithandroid/weather/lib/provider/yahooweather/YahooWeatherProvider.java:148-168 | With K forecast tags, a successful pass adds K-1 day entries (none when K is 0), in document order. Entry `j` is the decoding of forecast tag `j+1`. The first-forecast flag is still set exactly when K is 0. |
| CurrentCondition.TodayFromFirstForecast | WeatherLib/lib/src/main/java/com/survivingwithandroid/weather/lib/provider/yahooweather/YahooWeatherProvider.java:150-155 | On a successful pass, today's min and max are the `low` and `high` of the first forecast tag. With no forecast tag they are unchanged. |
| CurrentCondition.LastConditionWins | WeatherLib/lib/src/main/java/com/survivingwithandroid/weather/lib/provider/yahooweather/YahooWeatherProvider.java:170-182 | On a successful pass the last condition tag sets `weatherId` to `code`, the icon to its decimal string, `descr` to `text` and the temperature to `temp`. `weatherCode` goes through the code provider only when there is one. With no condition tag these fields are unchanged. |
| CurrentCondition.LastUnitsWin | WeatherLib/lib/src/main/java/com/survivingwithandroid/weather/lib/provider/yahooweather/YahooWeatherProvider.java:183-190 | On a successful pass the units labels are those of the last units tag, or unchanged if there is none. The units are attached to the forecast exactly when some units tag was seen. |
| CurrentCondition.LastWindWins | WeatherLib/lib/src/main/java/com/survivingwithandroid/weather/lib/provider/yahooweather/YahooWeatherProvider.java:135-140 | On a successful pass the last wind tag decides the chill, the degrees (from `direction`) and the speed. With no wind tag the wind is unchanged. |
| CurrentCondition.LastAtmosphereWins | WeatherLib/lib/src/main/java/com/survivingwithandroid/weather/lib/provider/yahooweather/YahooWeatherProvider.java:141-147 | On a successful pass the last atmosphere tag decides humidity, visibility, pressure and the pressure trend (from `rising`). With no atmosphere tag they are unchanged. |
| CurrentCondition.LastLocationWins | WeatherLib/lib/src/main/java/com/survivingwithandroid/weather/lib/provider/yahooweather/YahooWeatherProvider.java:191-195 | On a successful pass the last location tag decides city, region and country, None for an attribute it lacks. With no location tag they are unchanged. |
| CurrentCondition.LastSunTimesWin | WeatherLib/lib/src/main/java/com/survivingwithandroid/weather/lib/provider/yahooweather/YahooWeatherProvider.java:206-220 | On a successful pass sunrise and sunset each hold the parsed time of the last astronomy tag that carries that attribute. An astronomy tag without it leaves the earlier value, and with no such tag the value is unchanged. |
| CurrentCondition.RejectedTagFails | WeatherLib/lib/src/main/java/com/survivingwithandroid/weather/lib/provider/yahooweather/YahooWeatherProvider.java:135-220 | A wind, atmosphere, forecast, condition or astronomy tag with an attribute that does not parse makes the whole pass throw, wherever it sits. No partial result is returned. |
| YahooUrls.ReplaceSpaces | WeatherLib/lib/src/main/java/com/survivingwithandroid/weather/lib/provider/yahooweather/YahooWeatherProvider.java:254 | The escaped pattern contains no space and is at least as long as the input. |
| YahooUrls.UnescapeReplaceSpaces | WeatherLib/lib/src/main/java/com/survivingwithandroid/weather/lib/provider/yahooweather/YahooWeatherProvider.java:254 | For a pattern without `%`, turning `%20` back into spaces restores the pattern, so the escaping loses nothing. |
| YahooUrls.GetQueryCityURL | WeatherLib/lib/src/main/java/com/survivingwithandroid/weather/lib/provider/yahooweather/YahooWeatherProvider.java:248-256 | Throws `ApiKeyRequiredException` if and only if the key is null. Otherwise the URL is the geo base, `/places.q(`, the escaped pattern, `%2A);count=`, the decimal `maxResult`, `?appid=` and the key. |
| YahooUrls.CityURLHasNoSpace | WeatherLib/lib/src/main/java/com/survivingwithandroid/weather/lib/provider/yahooweather/YahooWeatherProvider.java:253-255 | With a key that holds no space, the city query URL holds no raw space, whatever the pattern. |
| YahooUrls.GetQueryCurrentWeatherURL | WeatherLib/lib/src/main/java/com/survivingwithandroid/weather/lib/provider/yahooweather/YahooWeatherProvider.java:259-264 | Throws if and only if the key is null; the key is not sent. The URL is the weather base and `?w=`, then the city id, which can be read back at a fixed position, then `&u=`. It ends in `c` exactly when the unit system is metric and in `f` otherwise. |
| YahooUrls.GetQueryForecastWeatherURL | WeatherLib/lib/src/main/java/com/survivingwithandroid/weather/lib/provider/yahooweather/YahooWeatherProvider.java:267-272 | Always the same answer as the current-weather URL builder. |
| YahooUrls.GetQueryCityURLByLocation | WeatherLib/lib/src/main/java/com/survivingwithandroid/weather/lib/provider/yahooweather/YahooWeatherProvider.java:275-280 | Throws if and only if the key is null. Otherwise the URL is `/places.q(` with the latitude, a comma and the longitude, then `)?appid=` and the key. |
| YahooUrls.GetQueryImageURL | WeatherLib/lib/src/main/java/com/survivingwithandroid/weather/lib/provider/yahooweather/YahooWeatherProvider.java:283-285 | Never throws and needs no key. The result is the image base, the icon (readable back from the URL) and `.gif`. |
| YahooProvider.YahooWeatherProvider.constructor | WeatherLib/lib/src/main/java/com/survivingwithandroid/weather/lib/provider/yahooweather/YahooWeatherProvider.java:48-54 | A new provider has no config and no code provider, a fresh empty units object, and a fresh forecast with no days and no units. |
| YahooProvider.YahooWeatherProvider.SetConfig | WeatherLib/lib/src/main/java/com/survivingwithandroid/weather/lib/provider/yahooweather/YahooWeatherProvider.java:294-297 | Stores the config and installs a fresh units object built for its unit system. The forecast object is untouched, so it keeps the previous units object if one was attached. |
| YahooProvider.YahooWeatherProvider.SetWeatherCodeProvider | WeatherLib/lib/src/main/java/com/survivingwithandroid/weather/lib/provider/yahooweather/YahooWeatherProvider.java:300-302 | Stores the code provider and leaves the other fields alone. |
| YahooProvider.YahooWeatherProvider.GetCityResultList | WeatherLib/lib/src/main/java/com/survivingwithandroid/weather/lib/provider/yahooweather/YahooWeatherProvider.java:57-115 | The loop's answer, success or exception, is `CityResultList` of the document, which the `CitySearch` lemmas characterise. |
| YahooProvider.YahooWeatherProvider.AddForecast | WeatherLib/lib/src/main/java/com/survivingwithandroid/weather/lib/provider/yahooweather/YahooWeatherProvider.java:167 | Appends one day entry to the shared forecast; the mirrored pass state gains the same day. |
| YahooProvider.YahooWeatherProvider.ReadUnits | WeatherLib/lib/src/main/java/com/survivingwithandroid/weather/lib/provider/yahooweather/YahooWeatherProvider.java:185-189 | Overwrites the shared units object's four labels with those the units tag gives, and hands that object to the forecast. |
| YahooProvider.YahooWeatherProvider.ParseWeatherTag | WeatherLib/lib/src/main/java/com/survivingwithandroid/weather/lib/provider/yahooweather/YahooWeatherProvider.java:135-220 | The wind, atmosphere, forecast, condition and astronomy branches do exactly what one step of `Run` does. When one throws, nothing has changed. |
| YahooProvider.YahooWeatherProvider.HandleStartTag | WeatherLib/lib/src/main/java/com/survivingwithandroid/weather/lib/provider/yahooweather/YahooWeatherProvider.java:134-220 | The start-tag branch does exactly what one step of `Run` does to the locals, the units object and the forecast. When it throws, none of them has changed. |
| YahooProvider.YahooWeatherProvider.GetCurrentCondition | WeatherLib/lib/src/main/java/com/survivingwithandroid/weather/lib/provider/yahooweather/YahooWeatherProvider.java:118-245 | Throws exactly when `Run` fails, with the same cause. The units labels and the forecast's days are those `Run` reached, appended to the days held before, even after an exception. The forecast points at `units` once a units tag was seen. On success the weather is `Run`'s, with `units` attached. |
| YahooProvider.YahooWeatherProvider.GetForecastWeather | WeatherLib/lib/src/main/java/com/survivingwithandroid/weather/lib/provider/yahooweather/YahooWeatherProvider.java:288-290 | Returns the provider's own forecast object, whatever document it is given. |
| YahooProvider.CurrentConditionTwice | WeatherLib/lib/src/main/java/com/survivingwithandroid/weather/lib/provider/yahooweather/YahooWeatherProvider.java:54 | After two passes, `getForecastWeather` returns the forecast holding the earlier days, then those of the first pass, then those of the second. This holds whether or not the passes throw. |

## Left out

- The XML pull parser (`XmlPullParserFactory`, `StringReader`) is a foreign library. The document is given as its sequence of start-tag, text and end-tag events. Malformed XML, which would make the parser throw, and the start/end-document events are not modelled.
- `Float.parseFloat` (wind speed, visibility, pressure) is a parameter, `Platform.parseFloat`. It may fail and gives a `real`. Floating-point rounding is not modelled.
- `SimpleDateFormat("h:mm a").parse(...).getTime()` for sunrise and sunset is a parameter, `Platform.parseTime`. It may fail and gives the epoch milliseconds.
- Decimal.ParseInt: accepts ASCII digits only. Java's `Integer.parseInt` also accepts other Unicode decimal digits.
- `WeatherUtility.isMetric` and `WeatherUtility.createWeatherUnit` are not part of this model. They are function parameters of the members that use them.
- `IWeatherCodeProvider` is a function value, `Option<int -> WeatherCode>`, where None is a null provider.
- `IWeatherProvider` is an interface with no behaviour and is not modelled.
- The URL builders are functions of a `WeatherConfig` value rather than methods reading the provider's `config` field. The `NullPointerException` of a builder called before `setConfig` is therefore not modelled.
- `getQueryCityURLByLocation` takes the two coordinates as the strings Java's double-to-string conversion gives. That conversion is not modelled.
- YahooProvider.YahooWeatherProvider.GetCityResultList: returns City values, not references. Two entries that are one Java object compare equal but are separate values. Changing a returned City after the call is not modelled. Changes made during the pass through the `cty` reference are modelled.
- Model fields that the code never assigns are `None`. The Java defaults of the library's model classes (`0` for numbers, `null` for strings) are not part of this model.
- `WeatherLibException` keeps only the kind of failure: null pointer, number format or date parse. It does not keep the wrapped `Throwable`. Errors outside the code's own calls, such as running out of memory, are not modelled.
- CurrentCondition.RejectedTagFails: states a sufficient condition for failure, not a characterisation. The other failure paths appear in the contracts of `DecodeDay` and `GetCurrentCondition`, which follow `Run` exactly.
- Null arguments are not modelled: every argument is a value. In the code, `getQueryCityURL(null)` throws a `NullPointerException` once the key check has passed. `getQueryCurrentWeatherURL(null)` and `getQueryForecastWeatherURL(null)` give `?w=null&u=`, and `getQueryImageURL(null)` gives `null.gif`. `getCityResultList(null)` and `getCurrentCondition(null)` throw a `WeatherLibException`, because `new StringReader(null)` throws. `setConfig(null)` throws a `NullPointerException`.
- YahooProvider.YahooWeatherProvider.SetConfig: assumes that `WeatherUtility.createWeatherUnit` returns a new object (`fresh(units)`). Which earlier results share the units object with the new one depends on that. If the library function returned a shared object, the model would not capture the extra aliasing.
- `printStackTrace`, `Log` and the commented-out HTTP and `url`/`update` code are I/O or dead code.
