# Prometeos weather app — a Dafny model of its core logic

Prometeos is a React Native weather app. The user types a city and picks a
suggestion from Mapbox. The app checks the name with LocationIQ, fetches
the weather from OpenWeatherMap and the local time from TimeZoneDB. It
then shows a card with a flag, a condition emoji, a temperature that can be
switched between Celsius and Fahrenheit, and a star that adds the place to
a favourites list.

This project models the parts of that app that carry logic:

- `favorites.dfy` (module `Favorites`) models the favourites store of
  `FavoritesContext.js`. It is an insertion-ordered list de-duplicated on
  the exact (latitude, longitude) pair, kept as a class with a `seq` field.
  Its add and remove operations are specified by the functions `Added` and
  `Removed`, with the no-duplicate invariant `Unique`.
- `weather_display.dfy` (module `WeatherDisplay`) models the weather card
  of `components/WeatherDisplay.js`. It holds the pure helpers: flag emoji,
  unit conversion, city-prefix stripping, the country name, the
  city/region label and the condition emoji. It also holds a `DisplayView`
  class for the card's star, unit and description state.
- `weather_manager.dfy` (module `WeatherManager`) models the search screen
  of `components/WeatherManager.js`. Its view record `View` has one field
  per `useState`. Each handler and effect is a transition function on that
  record (`AfterCheck`, `AfterWeather`, `AfterTime`, `Settled`, ...).
  The `SearchView` class has one method per handler, and each method is
  proved to produce exactly its function's new record. The render gates
  (`SpinnerShown`, `ErrorShown`, `WeatherRendered`) are predicates on
  that record.
- `city_input.dfy` (module `CityInput`) models the search field of
  `components/CityInput.js`: the 3-unit suggestion gate, the place filter,
  the truncation of a chosen name at its first comma, and the handlers. The
  handlers write the owning `SearchView`'s `city` and `error`.
- `strings.dfy` (module `Strings`) holds the JavaScript string operations
  the app relies on: `includes`, `indexOf`, and `split` with a non-empty
  separator. `Join` is proved to invert `split`: joining the parts gives
  back the string. The module also gives UTF-16 code units, which are what
  `length` and `charCodeAt` see.
- `wrappers.dfy` (module `Wrappers`) holds `Option`.

Each web service reply is an input to the model: a success carrying the
fields the code reads, or a failure. An error message is stored as the key
of the text that the translation function would look up (`ErrorKey`); no
error is `None`, the source's `""`.

Behaviour of the code worth noting:

- An empty search is not a no-op. `checkIfCity` still raises the loading
  flag and `hasSearched`, and still queries the geocoder. If the geocoder
  accepts, `fetchWeather` returns at once, and the spinner stays up
  (`WeatherManager.Searched`, the `v.city == ""` case).
- A city opened from the favourites list, and a language change, call
  `fetchWeather` directly. Neither one re-runs the city check.
- Opening the same favourite twice in a row does nothing the second time,
  even after another search: the navigation effect runs only when the
  route's city name changes (`WeatherManager.SameFavoriteReopened`,
  `WeatherManager.SameFavoriteAfterSearch`).
- A weather failure does not touch `isTimeReady`.
- A time failure after a successful weather reply leaves the spinner up
  when the search was not a refresh (`WeatherManager.Searched`). It also
  leaves it up after a refresh once the refreshing flag is cleared
  (`WeatherManager.Refreshed`).
- A pull-to-refresh never raises the flag the refresh control shows. The
  control shows `isLoading`, while a refresh sets only `isRefreshing`, whose
  one effect is to keep the full-screen spinner away.

## Model

| member | source | states |
|---|---|---|
| Strings.IndexOf | components/WeatherManager.js:106 | `includes`/`indexOf`: a result exists iff the separator occurs; it is an occurrence, and no earlier occurrence exists |
| Strings.Split | components/WeatherManager.js:107 | `split` with a non-empty separator: at least one part, no part contains the separator, joining the parts with the separator gives back the input, and there are two or more parts iff the separator occurs |
| Strings.SplitAtFirst | components/WeatherManager.js:107 | `split` scans from the left: the first part ends at the first occurrence, and the rest is the split of what follows it |
| Strings.SplitFirst | components/CityInput.js:82 | the first part of a split is the text before the first occurrence, or the whole string when there is none |
| Strings.CharUnits | components/WeatherDisplay.js:27 | below U+10000 one unit, the code point itself; above it a high surrogate and a low surrogate that decode to the code point |
| Strings.CodeUnits | components/CityInput.js:33 | the code units `length` counts: at least one per character, exactly one per character when all are in the Basic Multilingual Plane |
| Strings.CodeUnitsOne | components/CityInput.js:33 | one character contributes exactly its own UTF-16 units (one, or a surrogate pair) |
| Strings.CodeUnitsAppend | components/CityInput.js:33 | the units of a concatenation are the units of its parts in order, so each character above the Basic Multilingual Plane adds two to `length` wherever it stands |
| Strings.AstralLength | components/CityInput.js:33 | an emoji and two letters have `length` 4, with the emoji as the pair 0xD83D, 0xDE00 |
| Strings.BmpCodeUnits | components/WeatherDisplay.js:27 | in the Basic Multilingual Plane, `charCodeAt(k)` is the k-th character's code point |
| Favorites.Added | FavoritesContext.js:9-19 | the city's coordinates are present afterwards; the old list is an unchanged prefix; one entry is appended iff the coordinates were absent, and that entry is the city; uniqueness of coordinates is preserved |
| Favorites.Removed | FavoritesContext.js:22-30 | never longer; the removed pair is absent afterwards; an entry is kept iff it was present and its latitude or longitude differs |
| Favorites.RemovedConcat | FavoritesContext.js:25-29 | the filter treats each entry on its own, so kept entries stay in their original order |
| Favorites.RemovedAbsent | FavoritesContext.js:25-29 | removing a pair that is not present leaves the list unchanged, in size and order |
| Favorites.RemovedUnique | FavoritesContext.js:25-29 | removal preserves the no-duplicate-coordinates invariant |
| Favorites.AddedSameCoords | FavoritesContext.js:12-14 | duplicates are detected on latitude and longitude only: a second place with the same pair is ignored whatever its name and country |
| Favorites.FavoritesStore.constructor | FavoritesContext.js:6 | the store starts empty and valid |
| Favorites.FavoritesStore.AddToFavorites | FavoritesContext.js:9-19 | the new list is `Added(old list, city)`; the invariant holds |
| Favorites.FavoritesStore.RemoveFromFavorites | FavoritesContext.js:22-30 | the new list is `Removed(old list, lat, lon)`; the invariant holds |
| Favorites.FavoritesStore.ResetFavorites | FavoritesContext.js:33-35 | the list is empty afterwards (so a second reset changes nothing); the invariant holds |
| WeatherDisplay.FlagEmoji | components/WeatherDisplay.js:23-28 | an absent or empty code gives ""; otherwise one code point per UTF-16 code unit of the upper-cased code |
| WeatherDisplay.FlagRoundTrip | components/WeatherDisplay.js:25-27 | each code point is `127397 + charCode`: subtracting the offset gives back the upper-cased code's units, for every code including the empty one |
| WeatherDisplay.FlagOfLetters | components/WeatherDisplay.js:23-28 | a code of ASCII letters of either case gives one regional indicator symbol (U+1F1E6..U+1F1FF) per letter, the one for the upper-cased letter |
| WeatherDisplay.ConvertTemperature | components/WeatherDisplay.js:126-128 | identity in Celsius; otherwise a Fahrenheit value that converts back to the same Celsius reading |
| WeatherDisplay.FahrenheitFixedPoints | components/WeatherDisplay.js:126-128 | 0 °C shows as 32 °F and 100 °C as 212 °F |
| WeatherDisplay.StripFirstPrefix | components/WeatherDisplay.js:137-140 | unchanged when no prefix matches; otherwise the first matching alternative is removed |
| WeatherDisplay.PrefixesExclusive | components/WeatherDisplay.js:138 | no name starts with two of the five prefixes, so the order of the alternatives never matters |
| WeatherDisplay.FormatCityName | components/WeatherDisplay.js:136-141 | a name without one of the five prefixes is returned unchanged; a name with one is that prefix followed by the result |
| WeatherDisplay.FormatCityNameOnce | components/WeatherDisplay.js:136-141 | at most one prefix is removed, and only at the start: a doubled prefix keeps one copy |
| WeatherDisplay.CountryName | components/WeatherDisplay.js:144-163 | the looked-up name, or the code when the lookup gives nothing, with exactly the three renames of the table applied |
| WeatherDisplay.Subtitle | components/WeatherDisplay.js:171-177 | the state for "US" with a non-empty state, the country name otherwise |
| WeatherDisplay.CityAndRegion | components/WeatherDisplay.js:166-178 | the label is formatted name, line break, the state (for "US" with a non-empty state) or else the country name, space, flag |
| WeatherDisplay.CityAndRegionFirstLine | components/WeatherDisplay.js:173-176 | the label's first line is the formatted city name |
| WeatherDisplay.EmojiMapFor | components/WeatherDisplay.js:181-189 | the language's table, or the French table for any other language |
| WeatherDisplay.EmojiFor | components/WeatherDisplay.js:189-191 | the table's emoji for a known description, the rainbow otherwise; never anything outside the table and the rainbow |
| WeatherDisplay.UnknownLanguageIsFrench | components/WeatherDisplay.js:189 | a language without a table gives the same emoji as French |
| WeatherDisplay.DisplayView.constructor | components/WeatherDisplay.js:87-90 | the card starts in Celsius, unstarred, with empty descriptions |
| WeatherDisplay.DisplayView.DisplayedTemperature | components/WeatherDisplay.js:126-128 | the shown temperature is the reading in the selected unit |
| WeatherDisplay.DisplayView.SyncFavorite | components/WeatherDisplay.js:103-108 | the star is lit iff some favourite has exactly the card's latitude and longitude; nothing else changes |
| WeatherDisplay.DisplayView.ToggleFavorite | components/WeatherDisplay.js:111-123 | a lit star removes by coordinates, an unlit one adds {name, country, latitude, longitude}; the star flips and then agrees with the store; the store stays valid |
| WeatherDisplay.DisplayView.ToggleUnit | components/WeatherDisplay.js:131-133 | flips the unit only |
| WeatherDisplay.DisplayView.SyncUnit | components/WeatherDisplay.js:196-198 | Celsius iff the preference is "Celsius" |
| WeatherDisplay.DisplayView.SyncDescription | components/WeatherDisplay.js:188-193 | the emoji and the description for the language and the weather |
| WeatherDisplay.DefaultUnitShowsCelsius | TemperatureContext.js:6 | with the default preference the card shows the Celsius reading, and two unit toggles show it again |
| WeatherManager.GeocodeVerdict | components/WeatherManager.js:52-85 | accepted iff a first result exists and its address has a city, town, village or hamlet; a transport error or a first result without an address is a failed check |
| WeatherManager.RegionOf | components/WeatherManager.js:105-108 | "" for a name without ", "; never contains ", " |
| WeatherManager.RegionSegments | components/WeatherManager.js:105-108 | a name with ", " is its first segment, ", ", the region, then nothing or further ", "-separated segments |
| WeatherManager.RegionOfStateName | components/WeatherManager.js:105-108 | "Springfield, Illinois" has region "Illinois" |
| WeatherManager.RegionOfThreeSegments | components/WeatherManager.js:105-108 | "A, B, C" has region "B" |
| WeatherManager.RegionOfPlainName | components/WeatherManager.js:105-108 | "Paris" has no region |
| WeatherManager.LocalTimeOf | components/WeatherManager.js:139 | a time exists iff the timestamp has a space; it is a prefix of the second token, its first five characters when the token has five, the whole token when it is shorter |
| WeatherManager.LocalTimeExample | components/WeatherManager.js:139 | "2024-10-19 14:32:05" shows as "14:32" |
| WeatherManager.InitialView | components/WeatherManager.js:18-31 | the route's city, no weather, no error, no search under way, both readiness flags down, and the navigation effect not yet run; a fresh screen shows no spinner, no error line and no card |
| WeatherManager.SpinnerShown | components/WeatherManager.js:207-209 | the spinner shows iff a search was made and (loading or a readiness flag is down) and no refresh is under way |
| WeatherManager.ErrorShown | components/WeatherManager.js:223-226 | the error line shows iff there is no spinner and there is an error |
| WeatherManager.WeatherRendered | components/WeatherManager.js:227-237 | the card shows iff there is no spinner, no error, and both readiness flags are set |
| WeatherManager.RenderedWeatherIsPresent | components/WeatherManager.js:223-237 | the card is only rendered with weather and a time, and never with the error line |
| WeatherManager.Started | components/WeatherManager.js:40-46 | sets the refreshing flag or the loading flag, and `hasSearched`; every other field is kept; a keyboard search shows the spinner |
| WeatherManager.Cleared | components/WeatherManager.js:64-85 | the error key, the weather, time and region cleared, the readiness, loading, refreshing and `hasSearched` flags all down, the city kept, and the error line shown |
| WeatherManager.ClearedDifferOnlyInKey | components/WeatherManager.js:64-85 | the two rejection branches differ in their error key only |
| WeatherManager.AfterCheck | components/WeatherManager.js:39-86 | an accepted name gives the started state; a rejected one `pleaseEnterCity`; a failed check `errorCityCheck` |
| WeatherManager.AfterWeather | components/WeatherManager.js:89-126 | nothing when the city is empty; on success the payload, its region, readiness and no error, with the loading, refreshing and `hasSearched` flags kept; on failure `cityNotFound` with the result cleared and the readiness, loading, refreshing and `hasSearched` flags down; never touches `isTimeReady` |
| WeatherManager.AfterTime | components/WeatherManager.js:129-152 | the `HH:MM` and the time flag on success, with the loading flag cleared when the weather is ready; on any failure the time and loading flags down; the weather, region, error, search flags, city and route name are kept |
| WeatherManager.Settled | components/WeatherManager.js:182-187 | with both readiness flags set, loading and refreshing are cleared and the spinner goes; every other field is kept, and nothing changes otherwise |
| WeatherManager.FetchChain | components/WeatherManager.js:89-152 | nothing for an empty city; never raises `hasSearched`, loading or refreshing; keeps the city and the route name; keeps the view consistent |
| WeatherManager.Searched | components/WeatherManager.js:39-126 | the outcome of each combination of replies: the error line for a rejection or a failed fetch, the card for full success, a stuck spinner for a time failure outside a refresh; the city and the route name are kept |
| WeatherManager.Refreshed | components/WeatherManager.js:176-179 | the refreshing flag is cleared; full success renders the card; a time failure leaves the spinner up |
| WeatherManager.FavoriteOpened | components/WeatherManager.js:155-165 | nothing when the route's city name is the one the effect last ran with; otherwise the name is recorded and, when non-empty, becomes the city, flagged as a favourite; every other field is kept |
| WeatherManager.SameFavoriteReopened | components/WeatherManager.js:161-165 | opening the same favourite again changes nothing, whatever city was typed in between |
| WeatherManager.SameFavoriteAfterSearch | components/WeatherManager.js:161-165 | opening the same favourite again changes nothing after a search for another city either |
| WeatherManager.FavoriteFetched | components/WeatherManager.js:168-173 | a flagged non-empty city is fetched without the city check and the flag is reset; otherwise nothing changes |
| WeatherManager.FavoriteShowsWeather | components/WeatherManager.js:161-173 | a newly opened favourite with working services ends with its weather on screen, whatever the screen showed before, although the name was never checked |
| WeatherManager.SearchView.constructor | components/WeatherManager.js:18-31 | the fields are `InitialView` |
| WeatherManager.SearchView.Clear | components/WeatherManager.js:64-85 | the new record is `Cleared` |
| WeatherManager.SearchView.CheckIfCity | components/WeatherManager.js:39-86 | the new record is `AfterCheck`; it goes on iff the name is accepted |
| WeatherManager.SearchView.FetchWeather | components/WeatherManager.js:89-126 | the new record is `AfterWeather`; the time is requested iff the city is non-empty and the weather arrived |
| WeatherManager.SearchView.FetchLocalTime | components/WeatherManager.js:129-152 | the new record is `AfterTime` |
| WeatherManager.SearchView.SettleWhenReady | components/WeatherManager.js:182-187 | the new record is `Settled` |
| WeatherManager.SearchView.FetchWeatherAndTime | components/WeatherManager.js:89-152 | the new record is `FetchChain` |
| WeatherManager.SearchView.Search | components/WeatherManager.js:39-86 | the new record is `Searched` |
| WeatherManager.SearchView.OnRefresh | components/WeatherManager.js:176-179 | the new record is `Refreshed` |
| WeatherManager.SearchView.OpenFavorite | components/WeatherManager.js:155-165 | the new record is `FavoriteOpened` |
| WeatherManager.SearchView.FavoriteEffect | components/WeatherManager.js:168-173 | the new record is `FavoriteFetched` |
| WeatherManager.SearchView.LanguageEffect | components/WeatherManager.js:190-192 | the new record is `FetchChain`, with no city check |
| CityInput.PlaceSuggestions | components/CityInput.js:46-50 | never more suggestions than features; every place feature is suggested by its name, and every suggestion comes from a place feature |
| CityInput.PlaceSuggestionsConcat | components/CityInput.js:46-50 | the suggestions keep the order of the features |
| CityInput.AllPlacesSuggested | components/CityInput.js:46-50 | when every feature is a place, the suggestions are their names one for one |
| CityInput.SuggestionsAfter | components/CityInput.js:32-56 | empty for a query shorter than 3 code units; the place suggestions of a reply; unchanged when the request fails |
| CityInput.AstralQuerySent | components/CityInput.js:33-41 | the gate counts code units: one emoji and one letter have `length` 3 and the query is sent |
| CityInput.CityFromSuggestion | components/CityInput.js:82 | a prefix of the name without a comma: the text before the first comma, or the whole name when it has none |
| CityInput.CityInputView.constructor | components/CityInput.js:26-27 | no suggestions, nothing selected |
| CityInput.CityInputView.FetchCitySuggestions | components/CityInput.js:32-56 | the new suggestions are `SuggestionsAfter` |
| CityInput.CityInputView.ClearInput | components/CityInput.js:59-63 | the city and the error emptied, the suggestions emptied, nothing else changed |
| CityInput.CityInputView.HandleFetchWeather | components/CityInput.js:66-70 | a keyboard search (`Searched`), then the suggestions emptied |
| CityInput.CityInputView.HandleCityChange | components/CityInput.js:73-78 | the city is the text, the error cleared, the selection flag reset, the suggestions for the text |
| CityInput.CityInputView.HandleSelectCity | components/CityInput.js:81-87 | the city is the name up to its first comma; the flag set; the suggestions emptied |
| CityInput.CityInputView.SelectionEffect | components/CityInput.js:90-95 | after a selection, one search and the flag reset; otherwise nothing |
| CityInput.CityInputView.SelectSuggestion | components/CityInput.js:81-95 | choosing a suggestion searches for its city exactly once, even when the effect runs again |

## Left out

- The calls to LocationIQ, OpenWeatherMap, TimeZoneDB and Mapbox are not modelled; their replies are inputs (`GeocodeReply`, `WeatherReply`, `TimeReply`, `SuggestionReply`). A reply the handler cannot read, such as a payload without `coord`, is a failure because it throws into the same `catch`.
- Asynchrony is not modelled: each handler runs to completion before the next, in the order the code starts them. Overlapping searches and stale replies are concurrency.
- WeatherManager.AfterTime: reads the current `isWeatherReady`, where the source reads the value its closure captured. The readiness effect clears the loading flag afterwards in either case, so the final record is the same.
- WeatherManager.Refreshed: states the final record only. The source clears the refreshing flag as soon as the city check returns, before the weather arrives. No later step raises it again, so the final record is the same.
- The readiness effect (`Settled`) runs at the end of the fetch chain. That is the only point where both readiness flags can become set.
- WeatherDisplay.FlagEmoji: upper-cases ASCII letters only. Full Unicode case mapping (for example "ß" to "SS") is not modelled. Neither is the way the regex `.` skips line terminators; country codes contain neither.
- WeatherManager.LocalTimeOf: cuts the token at five characters, where `slice` cuts at five UTF-16 code units. The two agree on TimeZoneDB's ASCII timestamps.
- WeatherDisplay.CountryName: the `i18n-iso-countries` lookup for the current language is a parameter (`lookedUp`), not a table.
- WeatherDisplay.ConvertTemperature: computes over `real`, not IEEE doubles. The `toFixed(1)` rounding of the card is not modelled.
- Coordinates are `real` values compared by exact equality. NaN, which is never equal to itself, is not modelled.
- WeatherDisplay.EmojiFor: a description that is an inherited property name of a JavaScript object (such as "constructor") is not modelled.
- The Spanish emoji table lists "niebla" twice with the same emoji; the map holds it once.
- Translated text is not modelled; an error is the key of its message (`ErrorKey`).
- CityInput.PlaceSuggestions: a feature without `place_type` (reading it throws, and the list is kept) is not modelled. Every `Feature` carries its list.
- The `cityToFetch` argument of `fetchWeather` only names the city in the request, so it has no effect on the record.
- Rendering, navigation and animation are not modelled. This covers App.js, Settings.js, FavoritesPage.js, CityMap.js and the icon animation of CityInput.js. The copies of `getCountryFlagEmoji` in FavoritesPage.js and Settings.js are the same function as `FlagEmoji`.
- TemperatureContext.js is not modelled beyond its default unit (`DefaultUnit`).
