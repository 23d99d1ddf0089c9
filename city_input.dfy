/** The search field of components/CityInput.js: place suggestions from
    the Mapbox geocoder, the choice of a suggestion, and the handlers that
    write the screen's `city` and `error` (its owner, the search screen). */
module CityInput {
  import opened Wrappers
  import opened Strings
  import opened WeatherManager

  /** A Mapbox feature: its `place_type` list and its `place_name`. */
  datatype Feature = Feature(placeType: seq<string>, placeName: string)

  /** One entry of the suggestion list, `{ name }`. */
  datatype Suggestion = Suggestion(name: string)

  /** The Mapbox reply: the feature list, or any failure. */
  datatype SuggestionReply = SuggestionsOk(features: seq<Feature>) | SuggestionsFailed

  /** Queries shorter than this (in UTF-16 code units) are not sent. */
  const MinQueryLength: nat := 3

  predicate IsPlace(f: Feature)
  {
    "place" in f.placeType
  }

  /** The filter and map of `fetchCitySuggestions`: one suggestion per
      feature whose `place_type` includes "place", in feature order. */
  function PlaceSuggestions(features: seq<Feature>): (s: seq<Suggestion>)
    ensures |s| <= |features|
    ensures forall k :: 0 <= k < |features| && IsPlace(features[k]) ==> Suggestion(features[k].placeName) in s
    ensures forall x :: x in s ==>
      exists k :: 0 <= k < |features| && IsPlace(features[k]) && x == Suggestion(features[k].placeName)
  {
    if features == [] then []
    else
      var rest := PlaceSuggestions(features[1..]);
      assert forall k :: 1 <= k < |features| ==> features[k] == features[1..][k - 1];
      (if IsPlace(features[0]) then [Suggestion(features[0].placeName)] else []) + rest
  }

  /** The filter looks at each feature on its own, so the suggestions keep
      the order of the features. */
  lemma {:induction false} PlaceSuggestionsConcat(a: seq<Feature>, b: seq<Feature>)
    ensures PlaceSuggestions(a + b) == PlaceSuggestions(a) + PlaceSuggestions(b)
  {
    if a == [] {
      assert a + b == b;
    } else {
      assert (a + b)[1..] == a[1..] + b;
      PlaceSuggestionsConcat(a[1..], b);
    }
  }

  /** When every feature is a place, the suggestions are the feature
      names, one for one. */
  lemma {:induction false} AllPlacesSuggested(features: seq<Feature>)
    requires forall k :: 0 <= k < |features| ==> IsPlace(features[k])
    ensures |PlaceSuggestions(features)| == |features|
    ensures forall k :: 0 <= k < |features| ==> PlaceSuggestions(features)[k].name == features[k].placeName
  {
    if features != [] {
      AllPlacesSuggested(features[1..]);
    }
  }

  /** The suggestion list after `fetchCitySuggestions(query)`: emptied for
      a short query, replaced by the place suggestions of a reply, and kept
      as it was when the request fails. */
  function SuggestionsAfter(current: seq<Suggestion>, query: string, reply: SuggestionReply): (s: seq<Suggestion>)
    ensures |CodeUnits(query)| < MinQueryLength ==> s == []
    ensures |CodeUnits(query)| >= MinQueryLength && reply.SuggestionsFailed? ==> s == current
    ensures |CodeUnits(query)| >= MinQueryLength && reply.SuggestionsOk? ==>
      s == PlaceSuggestions(reply.features) && |s| <= |reply.features|
  {
    if |CodeUnits(query)| < MinQueryLength then []
    else match reply
      case SuggestionsOk(features) => PlaceSuggestions(features)
      case SuggestionsFailed => current
  }

  /** The length gate counts UTF-16 code units, not characters: an emoji
      above the Basic Multilingual Plane and one letter make a query of
      length 3, which is sent. */
  lemma AstralQuerySent(current: seq<Suggestion>, features: seq<Feature>)
    ensures SuggestionsAfter(current, "\U{1F600}a", SuggestionsOk(features)) == PlaceSuggestions(features)
  {
  }

  /** `selectedCity.name.split(",")[0]`: the text before the first comma,
      or the whole name when it has none. */
  function CityFromSuggestion(name: string): (city: string)
    ensures city <= name
    ensures !Contains(city, ",")
    ensures !Contains(name, ",") ==> city == name
    ensures Contains(name, ",") ==> |city| < |name| && name[|city|] == ','
  {
    SplitFirst(name, ",");
    var i := IndexOf(name, ",");
    assert i.Some? ==> name[i.value..i.value + 1][0] == name[i.value];
    Split(name, ",")[0]
  }

  /** The field's own state; `city` and `error` belong to `owner`. */
  class CityInputView {
    const owner: SearchView
    var suggestions: seq<Suggestion>
    var selectedFromSuggestions: bool

    constructor (owner: SearchView)
      ensures this.owner == owner
      ensures suggestions == [] && !selectedFromSuggestions
    {
      this.owner := owner;
      suggestions := [];
      selectedFromSuggestions := false;
    }

    /** `fetchCitySuggestions`. */
    method FetchCitySuggestions(query: string, reply: SuggestionReply)
      modifies this
      ensures suggestions == SuggestionsAfter(old(suggestions), query, reply)
      ensures selectedFromSuggestions == old(selectedFromSuggestions)
    {
      if |CodeUnits(query)| < MinQueryLength {
        suggestions := [];
        return;
      }
      match reply
      case SuggestionsOk(features) =>
        var places := PlaceSuggestions(features);
        suggestions := places;
      case SuggestionsFailed =>
    }

    /** `clearInput`: empties the city, the error and the suggestions. */
    method ClearInput()
      modifies this, owner
      ensures owner.Snapshot() == old(owner.Snapshot()).(city := "", error := None)
      ensures suggestions == [] && selectedFromSuggestions == old(selectedFromSuggestions)
    {
      owner.city := "";
      owner.error := None;
      suggestions := [];
    }

    /** `handleFetchWeather`: the search, then the suggestions emptied. */
    method HandleFetchWeather(geo: GeocodeReply, wx: WeatherReply, tz: TimeReply)
      modifies this, owner
      ensures owner.Snapshot() == Searched(old(owner.Snapshot()), false, geo, wx, tz)
      ensures suggestions == [] && selectedFromSuggestions == old(selectedFromSuggestions)
    {
      owner.Search(false, geo, wx, tz);
      suggestions := [];
    }

    /** `handleCityChange(text)`: the city and a cleared error, the
        selection flag reset, then the suggestions for the new text. */
    method HandleCityChange(text: string, reply: SuggestionReply)
      modifies this, owner
      ensures owner.Snapshot() == old(owner.Snapshot()).(city := text, error := None)
      ensures !selectedFromSuggestions
      ensures suggestions == SuggestionsAfter(old(suggestions), text, reply)
    {
      owner.city := text;
      owner.error := None;
      selectedFromSuggestions := false;
      FetchCitySuggestions(text, reply);
    }

    /** `handleSelectCity`: the city before the first comma, the selection
        flag set, the suggestions emptied. */
    method HandleSelectCity(selected: Suggestion)
      modifies this, owner
      ensures owner.Snapshot() == old(owner.Snapshot()).(city := CityFromSuggestion(selected.name))
      ensures selectedFromSuggestions && suggestions == []
    {
      var cityName := CityFromSuggestion(selected.name);
      owner.city := cityName;
      selectedFromSuggestions := true;
      suggestions := [];
    }

    /** The effect on `city` and `selectedFromSuggestions`: after a
        selection, one search and the flag reset. */
    method SelectionEffect(geo: GeocodeReply, wx: WeatherReply, tz: TimeReply)
      modifies this, owner
      ensures old(selectedFromSuggestions) ==>
        owner.Snapshot() == Searched(old(owner.Snapshot()), false, geo, wx, tz)
      ensures !old(selectedFromSuggestions) ==> owner.Snapshot() == old(owner.Snapshot())
      ensures !selectedFromSuggestions && suggestions == old(suggestions)
    {
      if selectedFromSuggestions {
        owner.Search(false, geo, wx, tz);
        selectedFromSuggestions := false;
      }
    }

    /** Choosing a suggestion searches for its city exactly once: the
        effect runs again after the flag is reset and does nothing. */
    method SelectSuggestion(selected: Suggestion, geo: GeocodeReply, wx: WeatherReply, tz: TimeReply)
      modifies this, owner
      ensures owner.Snapshot() ==
        Searched(old(owner.Snapshot()).(city := CityFromSuggestion(selected.name)), false, geo, wx, tz)
      ensures owner.city == CityFromSuggestion(selected.name)
      ensures !selectedFromSuggestions && suggestions == []
    {
      HandleSelectCity(selected);
      SelectionEffect(geo, wx, tz);
      SelectionEffect(geo, wx, tz);
    }
  }
}
