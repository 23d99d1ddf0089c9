/** The weather card of components/WeatherDisplay.js: its pure display
    helpers (flag emoji, unit conversion, city and country labels, the
    condition emoji) and its view state (favourite star, unit, description). */
module WeatherDisplay {
  import opened Wrappers
  import opened Strings
  import Favorites

  /** The fields of an OpenWeatherMap reply that the card and its callers
      read: `name`, `sys.country`, `coord.lat`, `coord.lon`, `main.temp`
      (Celsius, the request asks for metric units) and
      `weather[0].description`. */
  datatype WeatherData = WeatherData(
    name: string,
    country: string,
    latitude: real,
    longitude: real,
    temperature: real,
    description: string)

  /** The preference value the card reads as Celsius. */
  const Celsius: string := "Celsius"

  /** The unit preference every card starts from (TemperatureContext.js). */
  const DefaultUnit: string := "Celsius"

  // ---------------------------------------------------------------------
  // Flag emoji

  /** Added to each upper-cased code unit: 'A' becomes U+1F1E6, the first
      regional indicator symbol. */
  const FlagOffset: int := 127397

  /** `toUpperCase` on one character, for the ASCII letters. */
  function UpperChar(c: char): char
  {
    if 'a' <= c <= 'z' then (c as int - 32) as char else c
  }

  function UpperCase(s: string): string
  {
    seq(|s|, k requires 0 <= k < |s| => UpperChar(s[k]))
  }

  /** `getCountryFlagEmoji`: empty for an absent or empty code, otherwise one
      code point `127397 + charCode` per UTF-16 code unit of the upper-cased
      code. */
  function FlagEmoji(countryCode: Option<string>): (flag: string)
    ensures countryCode.None? || countryCode.value == "" ==> flag == ""
    ensures countryCode.Some? ==> |flag| == |CodeUnits(UpperCase(countryCode.value))|
  {
    if countryCode.None? || countryCode.value == "" then ""
    else
      var units := CodeUnits(UpperCase(countryCode.value));
      seq(|units|, k requires 0 <= k < |units| => (FlagOffset + units[k]) as char)
  }

  /** Reads a flag back into the code units it was made from. */
  function FlagUnits(flag: string): seq<int>
  {
    seq(|flag|, k requires 0 <= k < |flag| => flag[k] as int - FlagOffset)
  }

  /** The flag encodes the upper-cased code without loss. */
  lemma FlagRoundTrip(code: string)
    ensures FlagUnits(FlagEmoji(Some(code))) == CodeUnits(UpperCase(code))
  {
  }

  predicate IsAsciiLetter(c: char)
  {
    'A' <= c <= 'Z' || 'a' <= c <= 'z'
  }

  /** A code made of ASCII letters (any case) yields one regional indicator
      symbol per letter, the one for the upper-cased letter. */
  lemma {:induction false} FlagOfLetters(code: string)
    requires forall k :: 0 <= k < |code| ==> IsAsciiLetter(code[k])
    ensures |FlagEmoji(Some(code))| == |code|
    ensures forall k :: 0 <= k < |code| ==>
      0x1F1E6 <= FlagEmoji(Some(code))[k] as int <= 0x1F1FF &&
      FlagEmoji(Some(code))[k] as int == 0x1F1E6 + (UpperChar(code[k]) as int - 'A' as int)
  {
    var upper := UpperCase(code);
    BmpCodeUnits(upper);
  }

  // ---------------------------------------------------------------------
  // Temperature

  /** `convertTemperature`: the Celsius reading itself, or its Fahrenheit
      value, which converts back to the same Celsius reading. */
  function ConvertTemperature(isCelsius: bool, tempCelsius: real): (t: real)
    ensures isCelsius ==> t == tempCelsius
    ensures !isCelsius ==> (t - 32.0) * 5.0 / 9.0 == tempCelsius
  {
    if isCelsius then tempCelsius else tempCelsius * 9.0 / 5.0 + 32.0
  }

  /** Water freezes at 32 and boils at 212 degrees Fahrenheit. */
  lemma FahrenheitFixedPoints()
    ensures ConvertTemperature(false, 0.0) == 32.0
    ensures ConvertTemperature(false, 100.0) == 212.0
  {
  }

  // ---------------------------------------------------------------------
  // City and country labels

  /** The alternatives of the anchored pattern in `formatCityName`, in its
      order (`d[' ]` is the first two). */
  const CityPrefixes: seq<string> :=
    ["Arrondissement d'", "Arrondissement d ", "Arrondissement de ", "Préfecture de ", "Comté de "]

  /** Removes the first of `prefixes` (in order) that `name` starts with. */
  function StripFirstPrefix(name: string, prefixes: seq<string>): (r: string)
    ensures (forall k :: 0 <= k < |prefixes| ==> !(prefixes[k] <= name)) ==> r == name
    ensures forall k :: 0 <= k < |prefixes| && prefixes[k] <= name ==>
      (forall j :: 0 <= j < k ==> !(prefixes[j] <= name)) ==> r == name[|prefixes[k]|..]
  {
    if prefixes == [] then name
    else if prefixes[0] <= name then name[|prefixes[0]|..]
    else
      var r := StripFirstPrefix(name, prefixes[1..]);
      assert forall k :: 1 <= k < |prefixes| ==> prefixes[k] == prefixes[1..][k - 1];
      r
  }

  /** No name starts with two of the prefixes, so the order of the
      alternatives never decides which one is removed. */
  lemma PrefixesExclusive(name: string, i: nat, j: nat)
    requires i < j < |CityPrefixes|
    ensures !(CityPrefixes[i] <= name && CityPrefixes[j] <= name)
  {
    // The first two differ from the third in the character after "d",
    // and from the last two in their first character.
    var m := if j <= 2 then 16 else 0;
    assert CityPrefixes[i][m] != CityPrefixes[j][m];
    assert CityPrefixes[i] <= name ==> CityPrefixes[i][m] == name[m];
  }

  /** `formatCityName`: removes one leading administrative prefix, if the
      name starts with one, and otherwise returns the name unchanged. */
  function FormatCityName(name: string): (r: string)
    ensures (forall k :: 0 <= k < |CityPrefixes| ==> !(CityPrefixes[k] <= name)) ==> r == name
    ensures forall k :: 0 <= k < |CityPrefixes| && CityPrefixes[k] <= name ==> name == CityPrefixes[k] + r
  {
    var r := StripFirstPrefix(name, CityPrefixes);
    forall k | 0 <= k < |CityPrefixes| && CityPrefixes[k] <= name
      ensures name == CityPrefixes[k] + r
    {
      forall j | 0 <= j < k
        ensures !(CityPrefixes[j] <= name)
      {
        PrefixesExclusive(name, j, k);
      }
      assert name == CityPrefixes[k] + name[|CityPrefixes[k]|..];
    }
    r
  }

  /** The prefix is removed once: a doubled prefix leaves one copy. */
  lemma FormatCityNameOnce(k: nat, rest: string)
    requires k < |CityPrefixes|
    ensures FormatCityName(CityPrefixes[k] + CityPrefixes[k] + rest) == CityPrefixes[k] + rest
  {
    var p := CityPrefixes[k];
    assert p <= p + p + rest;
    assert (p + p + rest)[|p|..] == p + rest;
  }

  /** The three library names `getCountryName` shortens, as a table. */
  const CountryRenames: map<string, string> :=
    map["Royaume d'Eswatini" := "Eswatini",
        "Russian Federation" := "Russia",
        "People's Republic of China" := "China"]

  /** `getCountryName`: the library's name for the code in the current
      language (`lookedUp`), the code itself when the library gives
      nothing, then three names replaced by their short form. */
  function CountryName(code: string, lookedUp: Option<string>): (name: string)
    ensures var base := if lookedUp.Some? && lookedUp.value != "" then lookedUp.value else code;
            name == if base in CountryRenames then CountryRenames[base] else base
  {
    var countryName := if lookedUp.Some? && lookedUp.value != "" then lookedUp.value else code;
    var countryName := if countryName == "Royaume d'Eswatini" then "Eswatini" else countryName;
    var countryName := if countryName == "Russian Federation" then "Russia" else countryName;
    var countryName := if countryName == "People's Republic of China" then "China" else countryName;
    countryName
  }

  /** The second line of the city label before the flag: the state for a
      US city that has one, the country name otherwise. */
  function Subtitle(country: string, state: string, lookedUp: Option<string>): (x: string)
    ensures country == "US" && state != "" ==> x == state
    ensures country != "US" || state == "" ==> x == CountryName(country, lookedUp)
  {
    if country == "US" && state != "" then state else CountryName(country, lookedUp)
  }

  /** `formatCityAndRegion`: the formatted city name, a line break, the
      state of a US city that has one or else the country name, a space and
      the flag. */
  function CityAndRegion(name: string, country: string, state: string, lookedUp: Option<string>): (text: string)
    ensures country == "US" && state != "" ==>
      text == FormatCityName(name) + "\n" + state + " " + FlagEmoji(Some(country))
    ensures country != "US" || state == "" ==>
      text == FormatCityName(name) + "\n" + CountryName(country, lookedUp) + " " + FlagEmoji(Some(country))
  {
    FormatCityName(name) + "\n" + Subtitle(country, state, lookedUp) + " " + FlagEmoji(Some(country))
  }

  /** A city name without a line break is exactly the first line of the
      label. */
  lemma CityAndRegionFirstLine(name: string, country: string, state: string, lookedUp: Option<string>)
    requires !Contains(FormatCityName(name), "\n")
    ensures Split(CityAndRegion(name, country, state, lookedUp), "\n")[0] == FormatCityName(name)
  {
    var rest := Subtitle(country, state, lookedUp) + " " + FlagEmoji(Some(country));
    assert CityAndRegion(name, country, state, lookedUp) == FormatCityName(name) + "\n" + rest;
    SplitFirstPart(FormatCityName(name), "\n", rest);
  }

  // ---------------------------------------------------------------------
  // Condition emoji

  const Sun := "\U{2600}\U{FE0F}"
  const SunBehindSmallCloud := "\U{1F324}\U{FE0F}"
  const SunBehindCloud := "\U{26C5}"
  const Cloud := "\U{2601}\U{FE0F}"
  const CloudWithRain := "\U{1F327}\U{FE0F}"
  const CloudWithLightningAndRain := "\U{26C8}\U{FE0F}"
  const Snowflake := "\U{2744}\U{FE0F}"
  const CloudWithSnow := "\U{1F328}\U{FE0F}"
  const HighVoltage := "\U{26A1}"
  const Fog := "\U{1F32B}\U{FE0F}"
  /** Shown for a description no table knows. */
  const Rainbow := "\U{1F308}"

  const EmojiMapFr: map<string, string> :=
    map["ciel dégagé" := Sun,
        "peu nuageux" := SunBehindSmallCloud,
        "partiellement nuageux" := SunBehindCloud,
        "nuageux" := Cloud,
        "couvert" := Cloud,
        "pluie" := CloudWithRain,
        "pluie modérée" := CloudWithRain,
        "forte pluie" := CloudWithLightningAndRain,
        "neige" := Snowflake,
        "légères chutes de neige" := CloudWithSnow,
        "orage" := HighVoltage,
        "brouillard" := Fog]

  const EmojiMapEn: map<string, string> :=
    map["clear sky" := Sun,
        "few clouds" := SunBehindSmallCloud,
        "scattered clouds" := SunBehindCloud,
        "broken clouds" := Cloud,
        "overcast clouds" := Cloud,
        "rain" := CloudWithRain,
        "moderate rain" := CloudWithRain,
        "heavy rain" := CloudWithLightningAndRain,
        "snow" := Snowflake,
        "light snow" := CloudWithSnow,
        "thunderstorm" := HighVoltage,
        "fog" := Fog]

  /** The Spanish table lists "niebla" twice with the same emoji; it
      appears once here. */
  const EmojiMapEs: map<string, string> :=
    map["cielo despejado" := Sun,
        "pocas nubes" := SunBehindSmallCloud,
        "nubes dispersas" := SunBehindCloud,
        "nubes rotas" := Cloud,
        "nubes cubiertas" := Cloud,
        "lluvia" := CloudWithRain,
        "lluvia moderada" := CloudWithRain,
        "lluvia fuerte" := CloudWithLightningAndRain,
        "nieve" := Snowflake,
        "nieve ligera" := CloudWithSnow,
        "tormenta" := HighVoltage,
        "niebla" := Fog,
        "cielo claro" := Sun,
        "muy nuboso" := Cloud,
        "nevada ligera" := CloudWithSnow,
        "nubes" := Cloud,
        "algo de nubes" := SunBehindSmallCloud,
        "lluvia ligera" := CloudWithRain]

  /** The `emojiMaps` table, keyed by language code. */
  const EmojiMaps: map<string, map<string, string>> :=
    map["fr" := EmojiMapFr, "en" := EmojiMapEn, "es" := EmojiMapEs]

  /** `emojiMaps[language] || emojiMapFr`. */
  function EmojiMapFor(language: string): (m: map<string, string>)
    ensures language in EmojiMaps ==> m == EmojiMaps[language]
    ensures language !in EmojiMaps ==> m == EmojiMapFr
  {
    if language in EmojiMaps then EmojiMaps[language] else EmojiMapFr
  }

  /** `emojiMap[description] || "🌈"`: the table's emoji for a known
      description, the rainbow for any other. */
  function EmojiFor(language: string, description: string): (e: string)
    ensures description in EmojiMapFor(language) ==> e == EmojiMapFor(language)[description]
    ensures description !in EmojiMapFor(language) ==> e == Rainbow
    ensures e in EmojiMapFor(language).Values || e == Rainbow
  {
    var emojiMap := EmojiMapFor(language);
    if description in emojiMap then emojiMap[description] else Rainbow
  }

  /** A language without a table is treated as French. */
  lemma UnknownLanguageIsFrench(language: string, description: string)
    requires language !in EmojiMaps
    ensures EmojiFor(language, description) == EmojiFor("fr", description)
  {
  }

  // ---------------------------------------------------------------------
  // View state of the card

  /** The card's own state, for the weather it was rendered with. */
  class DisplayView {
    const weather: WeatherData
    var isCelsius: bool
    var isFavorite: bool
    var emojiDescription: string
    var description: string

    /** The initial `useState` values. */
    constructor (weather: WeatherData)
      ensures this.weather == weather
      ensures isCelsius && !isFavorite && emojiDescription == "" && description == ""
    {
      this.weather := weather;
      isCelsius := true;
      isFavorite := false;
      emojiDescription := "";
      description := "";
    }

    /** The temperature as shown, in the selected unit. */
    function DisplayedTemperature(): (t: real)
      reads this
      ensures isCelsius ==> t == weather.temperature
      ensures !isCelsius ==> (t - 32.0) * 5.0 / 9.0 == weather.temperature
    {
      ConvertTemperature(isCelsius, weather.temperature)
    }

    /** The effect on `favorites` and the coordinates: the star is lit iff
        some favourite has exactly these coordinates. */
    method SyncFavorite(store: Favorites.FavoritesStore)
      modifies this
      ensures isFavorite == Favorites.HasCoords(store.favorites, weather.latitude, weather.longitude)
      ensures isCelsius == old(isCelsius)
      ensures emojiDescription == old(emojiDescription) && description == old(description)
    {
      isFavorite := Favorites.HasCoords(store.favorites, weather.latitude, weather.longitude);
    }

    /** `toggleFavorite`: removes by coordinates when the star is lit,
        otherwise adds this city; then flips the star. Whatever the star
        showed before, afterwards it agrees with the store. */
    method ToggleFavorite(store: Favorites.FavoritesStore)
      requires store.Valid()
      modifies this, store
      ensures store.Valid()
      ensures old(isFavorite) ==>
        store.favorites == Favorites.Removed(old(store.favorites), weather.latitude, weather.longitude)
      ensures !old(isFavorite) ==>
        store.favorites == Favorites.Added(old(store.favorites),
          Favorites.Place(weather.name, weather.country, weather.latitude, weather.longitude))
      ensures isFavorite == !old(isFavorite)
      ensures isFavorite == Favorites.HasCoords(store.favorites, weather.latitude, weather.longitude)
      ensures isCelsius == old(isCelsius)
      ensures emojiDescription == old(emojiDescription) && description == old(description)
    {
      if isFavorite {
        store.RemoveFromFavorites(weather.latitude, weather.longitude);
      } else {
        store.AddToFavorites(Favorites.Place(weather.name, weather.country, weather.latitude, weather.longitude));
      }
      isFavorite := !isFavorite;
    }

    /** `toggleUnit`: a second toggle shows the original reading again. */
    method ToggleUnit()
      modifies this
      ensures isCelsius == !old(isCelsius)
      ensures isFavorite == old(isFavorite)
      ensures emojiDescription == old(emojiDescription) && description == old(description)
    {
      isCelsius := !isCelsius;
    }

    /** The effect on `defaultUnit`: Celsius iff the preference says so. */
    method SyncUnit(defaultUnit: string)
      modifies this
      ensures isCelsius == (defaultUnit == Celsius)
      ensures isFavorite == old(isFavorite)
      ensures emojiDescription == old(emojiDescription) && description == old(description)
    {
      isCelsius := defaultUnit == Celsius;
    }

    /** The effect on the language and the weather: the description and
        its emoji. */
    method SyncDescription(language: string)
      modifies this
      ensures emojiDescription == EmojiFor(language, weather.description)
      ensures description == weather.description
      ensures isCelsius == old(isCelsius) && isFavorite == old(isFavorite)
    {
      emojiDescription := EmojiFor(language, weather.description);
      description := weather.description;
    }
  }

  /** A fresh card synchronised with the default preference shows Celsius,
      and toggling the unit twice shows the original reading. */
  method DefaultUnitShowsCelsius(weather: WeatherData) returns (first: real, again: real)
    ensures first == weather.temperature
    ensures again == first
  {
    var view := new DisplayView(weather);
    view.SyncUnit(DefaultUnit);
    first := view.DisplayedTemperature();
    view.ToggleUnit();
    view.ToggleUnit();
    again := view.DisplayedTemperature();
  }
}
