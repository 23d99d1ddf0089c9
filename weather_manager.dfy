/** The search screen of components/WeatherManager.js. Each handler
    (`checkIfCity`, `fetchWeather`, `fetchLocalTime`, the effects) is a
    transition of the screen's view record; the reply of each web service
    is an input, a success with its payload or a failure. */
module WeatherManager {
  import opened Wrappers
  import opened Strings
  import WeatherDisplay

  type WeatherData = WeatherDisplay.WeatherData

  // ---------------------------------------------------------------------
  // Service replies

  /** The address fields the city check reads; "" stands for a field that
      is missing or empty (both are falsy). */
  datatype Address = Address(city: string, town: string, village: string, hamlet: string)

  /** A geocoding result; `address` is `None` when the reply has none. */
  datatype Location = Location(address: Option<Address>)

  /** The LocationIQ search reply: the result list, or a transport error. */
  datatype GeocodeReply = GeocodeOk(results: seq<Location>) | GeocodeFailed

  /** The OpenWeatherMap reply: a well-formed payload, or any failure
      (transport error, unknown city, payload the handler cannot read). */
  datatype WeatherReply = WeatherOk(data: WeatherData) | WeatherFailed

  /** The TimeZoneDB reply: its `formatted` timestamp, or any failure. */
  datatype TimeReply = TimeOk(formatted: string) | TimeFailed

  /** The message keys the screen translates into its error line. */
  datatype ErrorKey = PleaseEnterCity | ErrorCityCheck | CityNotFound

  // ---------------------------------------------------------------------
  // City check

  datatype Verdict = IsCity | NotACity | CheckFailed

  /** `address.city || address.town || address.village || address.hamlet`. */
  predicate IsLocality(a: Address)
  {
    a.city != "" || a.town != "" || a.village != "" || a.hamlet != ""
  }

  /** What `checkIfCity` makes of the reply: accepted iff a first result
      exists and its address names a locality; a transport error, or a
      first result without an address (reading it throws), is a failed
      check; anything else is not a city. */
  function GeocodeVerdict(reply: GeocodeReply): (v: Verdict)
    ensures v == IsCity <==>
      reply.GeocodeOk? && |reply.results| > 0 &&
      reply.results[0].address.Some? && IsLocality(reply.results[0].address.value)
    ensures v == CheckFailed <==>
      reply.GeocodeFailed? || (|reply.results| > 0 && reply.results[0].address.None?)
  {
    match reply
    case GeocodeFailed => CheckFailed
    case GeocodeOk(results) =>
      if |results| == 0 then NotACity
      else match results[0].address
        case None => CheckFailed
        case Some(a) => if IsLocality(a) then IsCity else NotACity
  }

  // ---------------------------------------------------------------------
  // Region and local time

  /** The region after the city in the returned name: the second
      `", "`-separated segment, or "" when the name has no `", "`. */
  function RegionOf(name: string): (region: string)
    ensures !Contains(name, ", ") ==> region == ""
    ensures !Contains(region, ", ")
  {
    var parts := Split(name, ", ");
    if Contains(name, ", ") then parts[1] else ""
  }

  /** A name with a `", "` is the city, `", "`, the region, and then either
      nothing or more segments introduced by `", "`. */
  lemma {:induction false} RegionSegments(name: string)
    requires Contains(name, ", ")
    ensures var parts := Split(name, ", ");
            !Contains(parts[0], ", ") &&
            name == parts[0] + ", " + RegionOf(name) +
                    (if |parts| == 2 then "" else ", " + Join(parts[2..], ", "))
  {
    var parts := Split(name, ", ");
    assert Join(parts, ", ") == parts[0] + ", " + Join(parts[1..], ", ");
    assert parts[1..][0] == parts[1] && parts[1..][1..] == parts[2..];
  }

  /** "Springfield, Illinois" has region "Illinois". */
  lemma RegionOfStateName()
    ensures RegionOf("Springfield, Illinois") == "Illinois"
  {
    var s := "Springfield, Illinois";
    IndexOfAt(s, ", ", 11);
    NotContains(s[13..], ", ");
    assert Split(s, ", ") == [s[..11]] + Split(s[13..], ", ");
    assert Split(s[13..], ", ") == [s[13..]];
  }

  /** "A, B, C" has region "B": only the second segment is kept. */
  lemma RegionOfThreeSegments()
    ensures RegionOf("A, B, C") == "B"
  {
    var t := "A, B, C";
    IndexOfAt(t, ", ", 1);
    IndexOfAt(t[3..], ", ", 1);
    assert Split(t, ", ") == [t[..1]] + Split(t[3..], ", ");
    assert Split(t[3..], ", ") == [t[3..][..1]] + Split(t[3..][3..], ", ");
  }

  /** "Paris" has no region. */
  lemma RegionOfPlainName()
    ensures RegionOf("Paris") == ""
  {
    NotContains("Paris", ", ");
  }

  /** The `HH:MM` the screen shows: the first five characters of the
      second space-separated token of `formatted`; `None` when there is no
      second token (reading it throws). */
  function LocalTimeOf(formatted: string): (hm: Option<string>)
    ensures hm.Some? <==> Contains(formatted, " ")
    ensures hm.Some? ==> |hm.value| <= 5 && hm.value <= Split(formatted, " ")[1]
    ensures hm.Some? && |Split(formatted, " ")[1]| >= 5 ==> |hm.value| == 5
    ensures hm.Some? && |Split(formatted, " ")[1]| < 5 ==> hm.value == Split(formatted, " ")[1]
  {
    var parts := Split(formatted, " ");
    if |parts| < 2 then None
    else
      var token := parts[1];
      Some(token[..if |token| < 5 then |token| else 5])
  }

  /** "2024-10-19 14:32:05" shows as "14:32". */
  lemma LocalTimeExample()
    ensures LocalTimeOf("2024-10-19 14:32:05") == Some("14:32")
  {
    var s := "2024-10-19 14:32:05";
    SplitInTwo(s, " ", 10);
    assert s[11..][..5] == "14:32";
  }

  /** The time a `fetchLocalTime` reply yields, if any. */
  function TimeOf(reply: TimeReply): Option<string>
  {
    match reply
    case TimeOk(formatted) => LocalTimeOf(formatted)
    case TimeFailed => None
  }

  // ---------------------------------------------------------------------
  // The view record and what the screen renders from it

  /** The screen's `useState` fields; `error` is `None` for "".
      `lastRouteCity` is the route's city name the navigation effect last
      ran with ("" before its first run, and for an absent name). */
  datatype View = View(
    lastRouteCity: string,
    city: string,
    isFromFavorites: bool,
    weather: Option<WeatherData>,
    localTime: string,
    state: string,
    isWeatherReady: bool,
    isTimeReady: bool,
    isLoading: bool,
    hasSearched: bool,
    isRefreshing: bool,
    error: Option<ErrorKey>)

  /** The state of a freshly mounted screen; `routeCity` is the city name
      it was navigated with, or "". */
  function InitialView(routeCity: string): (v: View)
    ensures v.city == routeCity && v.weather.None? && v.error.None? && v.lastRouteCity == ""
    ensures !v.hasSearched && !v.isLoading && !v.isRefreshing
    ensures !v.isWeatherReady && !v.isTimeReady && Consistent(v)
    ensures !SpinnerShown(v) && !ErrorShown(v) && !WeatherRendered(v)
  {
    View("", routeCity, false, None, "", "", false, false, false, false, false, None)
  }

  /** Ready weather is present and its region is the one shown, and the
      shown time is at most `HH:MM` long. */
  predicate Consistent(v: View)
  {
    && (v.isWeatherReady ==> v.weather.Some? && v.state == RegionOf(v.weather.value.name))
    && |v.localTime| <= 5
  }

  /** The spinner replaces the result area. */
  predicate SpinnerShown(v: View)
  {
    v.hasSearched && (v.isLoading || !v.isWeatherReady || !v.isTimeReady) && !v.isRefreshing
  }

  /** The error line is shown in the result area. */
  predicate ErrorShown(v: View)
  {
    !SpinnerShown(v) && v.error.Some?
  }

  /** The weather card is shown in the result area. */
  predicate WeatherRendered(v: View)
  {
    !SpinnerShown(v) && v.error.None? && v.isWeatherReady && v.isTimeReady
  }

  /** The card is only rendered with weather to show and a time beside it,
      and never together with the error line. */
  lemma RenderedWeatherIsPresent(v: View)
    requires Consistent(v) && WeatherRendered(v)
    ensures v.weather.Some? && v.isTimeReady && !ErrorShown(v)
  {
  }

  // ---------------------------------------------------------------------
  // Transitions

  /** The start of `checkIfCity`: the refreshing flag or the
      loading flag, and `hasSearched`. A new search started from the
      keyboard hides the previous result behind the spinner. */
  function Started(v: View, refresh: bool): (w: View)
    ensures w.hasSearched
    ensures refresh ==> w.isRefreshing && w.isLoading == v.isLoading
    ensures !refresh ==> w.isLoading && w.isRefreshing == v.isRefreshing
    ensures !refresh && !v.isRefreshing ==> SpinnerShown(w) && !WeatherRendered(w)
    ensures w.(isLoading := v.isLoading, isRefreshing := v.isRefreshing, hasSearched := v.hasSearched) == v
    ensures Consistent(v) ==> Consistent(w)
  {
    if refresh then v.(isRefreshing := true, hasSearched := true)
    else v.(isLoading := true, hasSearched := true)
  }

  /** The rejection and transport-error branches of `checkIfCity`: the
      error key, and everything the search showed or flagged cleared. */
  function Cleared(v: View, key: ErrorKey): (w: View)
    ensures w.error == Some(key) && w.weather.None? && w.localTime == "" && w.state == ""
    ensures !w.isWeatherReady && !w.isTimeReady && !w.isLoading && !w.isRefreshing && !w.hasSearched
    ensures ErrorShown(w) && !SpinnerShown(w) && !WeatherRendered(w)
    ensures Consistent(w)
    ensures w.city == v.city && w.isFromFavorites == v.isFromFavorites && w.lastRouteCity == v.lastRouteCity
  {
    v.(error := Some(key), weather := None, localTime := "", state := "",
       isWeatherReady := false, isTimeReady := false,
       isLoading := false, isRefreshing := false, hasSearched := false)
  }

  /** The two rejection branches differ in their error key only. */
  lemma ClearedDifferOnlyInKey(v: View)
    ensures Cleared(v, PleaseEnterCity).(error := None) == Cleared(v, ErrorCityCheck).(error := None)
  {
  }

  /** `checkIfCity` up to the point where it calls `fetchWeather`. */
  function AfterCheck(v: View, refresh: bool, geo: GeocodeReply): (w: View)
    ensures GeocodeVerdict(geo) == IsCity ==> w == Started(v, refresh)
    ensures GeocodeVerdict(geo) == NotACity ==> w == Cleared(v, PleaseEnterCity)
    ensures GeocodeVerdict(geo) == CheckFailed ==> w == Cleared(v, ErrorCityCheck)
    ensures Consistent(v) ==> Consistent(w)
  {
    var started := Started(v, refresh);
    match GeocodeVerdict(geo)
    case IsCity => started
    case NotACity => Cleared(started, PleaseEnterCity)
    case CheckFailed => Cleared(started, ErrorCityCheck)
  }

  /** `fetchWeather`: nothing when the screen's city is empty; otherwise
      the payload and its region, or the city-not-found error with the
      result cleared. The time flag is never touched here. */
  function AfterWeather(v: View, wx: WeatherReply): (w: View)
    ensures v.city == "" ==> w == v
    ensures w.isTimeReady == v.isTimeReady && w.city == v.city
    ensures v.city != "" && wx.WeatherOk? ==>
      w.weather == Some(wx.data) && w.state == RegionOf(wx.data.name) && w.isWeatherReady &&
      w.error.None? && w.localTime == v.localTime &&
      w.isLoading == v.isLoading && w.isRefreshing == v.isRefreshing && w.hasSearched == v.hasSearched
    ensures v.city != "" && wx.WeatherFailed? ==>
      w.error == Some(CityNotFound) && w.weather.None? && w.localTime == "" && w.state == "" &&
      !w.isWeatherReady && !w.isLoading && !w.isRefreshing && !w.hasSearched &&
      ErrorShown(w) && !SpinnerShown(w)
    ensures w.isFromFavorites == v.isFromFavorites && w.lastRouteCity == v.lastRouteCity
    ensures Consistent(v) ==> Consistent(w)
  {
    if v.city == "" then v
    else match wx
      case WeatherOk(data) =>
        v.(weather := Some(data), state := RegionOf(data.name), isWeatherReady := true, error := None)
      case WeatherFailed =>
        v.(error := Some(CityNotFound), weather := None, localTime := "", state := "",
           isWeatherReady := false, isLoading := false, isRefreshing := false, hasSearched := false)
  }

  /** `fetchLocalTime`: the `HH:MM` and the time flag, or on any failure
      the time flag and the loading flag cleared with the weather kept. */
  function AfterTime(v: View, tz: TimeReply): (w: View)
    ensures TimeOf(tz).Some? ==>
      w.localTime == TimeOf(tz).value && w.isTimeReady && w.isLoading == (v.isLoading && !v.isWeatherReady)
    ensures TimeOf(tz).None? ==> !w.isTimeReady && !w.isLoading && w.localTime == v.localTime
    ensures w.weather == v.weather && w.state == v.state && w.isWeatherReady == v.isWeatherReady
    ensures w.error == v.error && w.hasSearched == v.hasSearched && w.isRefreshing == v.isRefreshing
    ensures w.city == v.city && w.isFromFavorites == v.isFromFavorites && w.lastRouteCity == v.lastRouteCity
    ensures Consistent(v) ==> Consistent(w)
  {
    match TimeOf(tz)
    case Some(hm) =>
      v.(localTime := hm, isTimeReady := true, isLoading := if v.isWeatherReady then false else v.isLoading)
    case None =>
      v.(isTimeReady := false, isLoading := false)
  }

  /** The effect on the two readiness flags: once both are set the loading
      and refreshing flags are cleared, which takes the spinner away. */
  function Settled(v: View): (w: View)
    ensures v.isWeatherReady && v.isTimeReady ==> !w.isLoading && !w.isRefreshing && !SpinnerShown(w)
    ensures !(v.isWeatherReady && v.isTimeReady) ==> w == v
    ensures w.(isLoading := v.isLoading, isRefreshing := v.isRefreshing) == v
    ensures Consistent(v) ==> Consistent(w)
  {
    if v.isWeatherReady && v.isTimeReady then v.(isLoading := false, isRefreshing := false) else v
  }

  /** `fetchWeather` followed, on success, by `fetchLocalTime` and the
      readiness effect. It never raises a loading flag of its own. */
  function FetchChain(v: View, wx: WeatherReply, tz: TimeReply): (w: View)
    ensures v.city == "" ==> w == v
    ensures w.hasSearched ==> v.hasSearched
    ensures w.isLoading ==> v.isLoading
    ensures w.isRefreshing ==> v.isRefreshing
    ensures w.city == v.city && w.isFromFavorites == v.isFromFavorites && w.lastRouteCity == v.lastRouteCity
    ensures Consistent(v) ==> Consistent(w)
  {
    var fetched := AfterWeather(v, wx);
    if v.city == "" || wx.WeatherFailed? then fetched
    else Settled(AfterTime(fetched, tz))
  }

  /** A whole search from the input field (`checkIfCity`) or from
      pull-to-refresh (`refresh`), with the three replies. */
  function Searched(v: View, refresh: bool, geo: GeocodeReply, wx: WeatherReply, tz: TimeReply): (w: View)
    ensures GeocodeVerdict(geo) == NotACity ==>
      w.error == Some(PleaseEnterCity) && ErrorShown(w) && w.weather.None?
    ensures GeocodeVerdict(geo) == CheckFailed ==>
      w.error == Some(ErrorCityCheck) && ErrorShown(w) && w.weather.None?
    ensures GeocodeVerdict(geo) == IsCity && v.city == "" ==> w == Started(v, refresh)
    ensures GeocodeVerdict(geo) == IsCity && v.city != "" && wx.WeatherFailed? ==>
      w.error == Some(CityNotFound) && ErrorShown(w) && w.weather.None?
    ensures GeocodeVerdict(geo) == IsCity && v.city != "" && wx.WeatherOk? && TimeOf(tz).Some? ==>
      WeatherRendered(w) && w.weather == Some(wx.data) && w.state == RegionOf(wx.data.name) &&
      w.localTime == TimeOf(tz).value && !w.isLoading && !w.isRefreshing
    ensures GeocodeVerdict(geo) == IsCity && v.city != "" && wx.WeatherOk? && TimeOf(tz).None? ==>
      w.weather == Some(wx.data) && !w.isTimeReady && w.hasSearched && w.error.None? &&
      (SpinnerShown(w) <==> !w.isRefreshing)
    ensures w.city == v.city && w.lastRouteCity == v.lastRouteCity
    ensures Consistent(v) ==> Consistent(w)
  {
    var checked := AfterCheck(v, refresh, geo);
    if GeocodeVerdict(geo) == IsCity then FetchChain(checked, wx, tz) else checked
  }

  /** `onRefresh`: a refreshing search, then the refreshing flag cleared.
      When the time service fails after the weather arrived, the spinner
      stays up: nothing clears it until the next search. */
  function Refreshed(v: View, geo: GeocodeReply, wx: WeatherReply, tz: TimeReply): (w: View)
    ensures !w.isRefreshing
    ensures GeocodeVerdict(geo) == IsCity && v.city != "" && wx.WeatherOk? && TimeOf(tz).Some? ==>
      WeatherRendered(w) && w.weather == Some(wx.data)
    ensures GeocodeVerdict(geo) == IsCity && v.city != "" && wx.WeatherOk? && TimeOf(tz).None? ==>
      SpinnerShown(w) && w.weather == Some(wx.data)
    ensures Consistent(v) ==> Consistent(w)
  {
    Searched(v, true, geo, wx, tz).(isRefreshing := false)
  }

  /** The navigation effect and `handleFavoritePress`. The effect runs
      only when the route's city name differs from the one it last ran
      with; then a non-empty name becomes the city, flagged as coming from
      the favourites list. */
  function FavoriteOpened(v: View, cityName: string): (w: View)
    ensures cityName == v.lastRouteCity ==> w == v
    ensures cityName != v.lastRouteCity && cityName != "" ==> w.city == cityName && w.isFromFavorites
    ensures cityName == "" ==> w.city == v.city && w.isFromFavorites == v.isFromFavorites
    ensures w.lastRouteCity == cityName
    ensures w.(city := v.city, isFromFavorites := v.isFromFavorites, lastRouteCity := v.lastRouteCity) == v
    ensures Consistent(v) ==> Consistent(w)
  {
    if cityName == v.lastRouteCity then v
    else if cityName != "" then v.(lastRouteCity := cityName, city := cityName, isFromFavorites := true)
    else v.(lastRouteCity := cityName)
  }

  /** Opening the same favourite again does nothing, whatever was searched
      in between: the route's city name has not changed. */
  lemma SameFavoriteReopened(v: View, cityName: string, typed: string)
    ensures var shown := FavoriteOpened(v, cityName).(city := typed);
            FavoriteOpened(shown, cityName) == shown
  {
  }

  /** Nor does a search in between make the same favourite open again:
      a search never changes the route's city name. */
  lemma SameFavoriteAfterSearch(v: View, cityName: string, typed: string, refresh: bool,
                                geo: GeocodeReply, wx: WeatherReply, tz: TimeReply)
    ensures var searched := Searched(FavoriteOpened(v, cityName).(city := typed), refresh, geo, wx, tz);
            FavoriteOpened(searched, cityName) == searched
  {
  }

  /** The effect on `city` and `isFromFavorites`: a favourite is fetched
      directly, without the city check and without a loading flag. */
  function FavoriteFetched(v: View, wx: WeatherReply, tz: TimeReply): (w: View)
    ensures v.isFromFavorites && v.city != "" ==> w == FetchChain(v, wx, tz).(isFromFavorites := false)
    ensures !(v.isFromFavorites && v.city != "") ==> w == v
    ensures !w.isFromFavorites || w == v
    ensures w.hasSearched ==> v.hasSearched
    ensures Consistent(v) ==> Consistent(w)
  {
    if v.isFromFavorites && v.city != "" then FetchChain(v, wx, tz).(isFromFavorites := false) else v
  }

  /** A favourite opened from the list with working weather and time
      services ends with its weather on screen, whatever the screen showed
      before, even though the name was never checked. */
  lemma {:induction false} FavoriteShowsWeather(v: View, cityName: string, wx: WeatherReply, tz: TimeReply)
    requires cityName != "" && cityName != v.lastRouteCity
    requires wx.WeatherOk? && TimeOf(tz).Some?
    ensures var w := FavoriteFetched(FavoriteOpened(v, cityName), wx, tz);
            WeatherRendered(w) && w.weather == Some(wx.data) && w.city == cityName
  {
    var chosen := FavoriteOpened(v, cityName);
    var fetched := AfterWeather(chosen, wx);
    var timed := AfterTime(fetched, tz);
    assert fetched.isWeatherReady && timed.isTimeReady;
  }

  // ---------------------------------------------------------------------
  // The screen

  /** The screen's state, one field per `useState`. */
  class SearchView {
    var lastRouteCity: string
    var city: string
    var isFromFavorites: bool
    var weather: Option<WeatherData>
    var localTime: string
    var state: string
    var isWeatherReady: bool
    var isTimeReady: bool
    var isLoading: bool
    var hasSearched: bool
    var isRefreshing: bool
    var error: Option<ErrorKey>

    /** The fields as one record. */
    function Snapshot(): View
      reads this
    {
      View(lastRouteCity, city, isFromFavorites, weather, localTime, state, isWeatherReady, isTimeReady,
           isLoading, hasSearched, isRefreshing, error)
    }

    constructor (routeCity: string)
      ensures Snapshot() == InitialView(routeCity)
    {
      lastRouteCity := "";
      city := routeCity;
      isFromFavorites := false;
      weather := None;
      localTime := "";
      state := "";
      isWeatherReady := false;
      isTimeReady := false;
      isLoading := false;
      hasSearched := false;
      isRefreshing := false;
      error := None;
    }

    /** The nine setters shared by the two rejection branches. */
    method Clear(key: ErrorKey)
      modifies this
      ensures Snapshot() == Cleared(old(Snapshot()), key)
    {
      error := Some(key);
      weather := None;
      localTime := "";
      state := "";
      isWeatherReady := false;
      isTimeReady := false;
      isLoading := false;
      isRefreshing := false;
      hasSearched := false;
    }

    /** `checkIfCity`; `proceed` says that it goes on with `fetchWeather`. */
    method CheckIfCity(refresh: bool, geo: GeocodeReply) returns (proceed: bool)
      modifies this
      ensures proceed == (GeocodeVerdict(geo) == IsCity)
      ensures Snapshot() == AfterCheck(old(Snapshot()), refresh, geo)
    {
      if refresh {
        isRefreshing := true;
      } else {
        isLoading := true;
      }
      hasSearched := true;
      var verdict := GeocodeVerdict(geo);
      proceed := verdict == IsCity;
      if verdict == NotACity {
        Clear(PleaseEnterCity);
      } else if verdict == CheckFailed {
        Clear(ErrorCityCheck);
      }
    }

    /** `fetchWeather(cityToFetch)`. The guard reads the screen's `city`,
        not `cityToFetch`, which only names the city in the request the
        reply answers. `timeRequested` says that it goes on with
        `fetchLocalTime`. */
    method FetchWeather(cityToFetch: string, wx: WeatherReply) returns (timeRequested: bool)
      modifies this
      ensures timeRequested == (old(city) != "" && wx.WeatherOk?)
      ensures Snapshot() == AfterWeather(old(Snapshot()), wx)
    {
      timeRequested := false;
      if city == "" {
        return;
      }
      isWeatherReady := false;
      match wx
      case WeatherOk(data) =>
        weather := Some(data);
        state := RegionOf(data.name);
        isWeatherReady := true;
        error := None;
        timeRequested := true;
      case WeatherFailed =>
        error := Some(CityNotFound);
        weather := None;
        localTime := "";
        state := "";
        isWeatherReady := false;
        isLoading := false;
        isRefreshing := false;
        hasSearched := false;
    }

    /** `fetchLocalTime`. */
    method FetchLocalTime(tz: TimeReply)
      modifies this
      ensures Snapshot() == AfterTime(old(Snapshot()), tz)
    {
      isTimeReady := false;
      var formattedTime := TimeOf(tz);
      match formattedTime
      case Some(hm) =>
        localTime := hm;
        isTimeReady := true;
        if isWeatherReady {
          isLoading := false;
        }
      case None =>
        isTimeReady := false;
        isLoading := false;
    }

    /** The effect on `isWeatherReady` and `isTimeReady`. */
    method SettleWhenReady()
      modifies this
      ensures Snapshot() == Settled(old(Snapshot()))
    {
      if isWeatherReady && isTimeReady {
        isLoading := false;
        isRefreshing := false;
      }
    }

    /** `fetchWeather` with what follows it on success. */
    method FetchWeatherAndTime(cityToFetch: string, wx: WeatherReply, tz: TimeReply)
      modifies this
      ensures Snapshot() == FetchChain(old(Snapshot()), wx, tz)
    {
      var timeRequested := FetchWeather(cityToFetch, wx);
      if timeRequested {
        FetchLocalTime(tz);
        SettleWhenReady();
      }
    }

    /** `checkIfCity(refresh)` with the calls it sets off. */
    method Search(refresh: bool, geo: GeocodeReply, wx: WeatherReply, tz: TimeReply)
      modifies this
      ensures Snapshot() == Searched(old(Snapshot()), refresh, geo, wx, tz)
    {
      var proceed := CheckIfCity(refresh, geo);
      if proceed {
        FetchWeatherAndTime(city, wx, tz);
      }
    }

    /** `onRefresh`. */
    method OnRefresh(geo: GeocodeReply, wx: WeatherReply, tz: TimeReply)
      modifies this
      ensures Snapshot() == Refreshed(old(Snapshot()), geo, wx, tz)
    {
      Search(true, geo, wx, tz);
      isRefreshing := false;
    }

    /** The navigation effect on the route's city name, with
        `handleFavoritePress`; React runs it when the name has changed. */
    method OpenFavorite(cityName: string)
      modifies this
      ensures Snapshot() == FavoriteOpened(old(Snapshot()), cityName)
    {
      if cityName == lastRouteCity {
        return;
      }
      lastRouteCity := cityName;
      if cityName != "" {
        city := cityName;
        isFromFavorites := true;
      }
    }

    /** The effect on `city` and `isFromFavorites`. */
    method FavoriteEffect(wx: WeatherReply, tz: TimeReply)
      modifies this
      ensures Snapshot() == FavoriteFetched(old(Snapshot()), wx, tz)
    {
      if isFromFavorites && city != "" {
        FetchWeatherAndTime(city, wx, tz);
        isFromFavorites := false;
      }
    }

    /** The effect on the language (it also runs when the screen mounts):
        `fetchWeather()` again, without the city check. */
    method LanguageEffect(wx: WeatherReply, tz: TimeReply)
      modifies this
      ensures Snapshot() == FetchChain(old(Snapshot()), wx, tz)
    {
      FetchWeatherAndTime(city, wx, tz);
    }
  }
}
