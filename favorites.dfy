/** The favourites store of FavoritesContext.js: an insertion-ordered list
    of places, de-duplicated on the exact (latitude, longitude) pair. */
module Favorites {

  /** A saved place. Coordinates are compared only by exact equality. */
  datatype Place = Place(name: string, country: string, latitude: real, longitude: real)

  /** The duplicate test of the store: both coordinates equal, nothing else. */
  predicate SameCoords(p: Place, latitude: real, longitude: real)
  {
    p.latitude == latitude && p.longitude == longitude
  }

  /** `favs.some(fav => fav.latitude === latitude && fav.longitude === longitude)`. */
  predicate HasCoords(favs: seq<Place>, latitude: real, longitude: real)
  {
    exists k :: 0 <= k < |favs| && SameCoords(favs[k], latitude, longitude)
  }

  /** No two entries share a coordinate pair. */
  predicate Unique(favs: seq<Place>)
  {
    forall i, j :: 0 <= i < j < |favs| ==> !SameCoords(favs[j], favs[i].latitude, favs[i].longitude)
  }

  /** The list after `addToFavorites(city)`. */
  function Added(favs: seq<Place>, city: Place): (r: seq<Place>)
    ensures HasCoords(r, city.latitude, city.longitude)
    ensures |favs| <= |r| <= |favs| + 1 && r[..|favs|] == favs
    ensures |r| == |favs| + 1 <==> !HasCoords(favs, city.latitude, city.longitude)
    ensures |r| == |favs| + 1 ==> r[|favs|] == city
    ensures Unique(favs) ==> Unique(r)
  {
    if HasCoords(favs, city.latitude, city.longitude) then favs
    else
      var r := favs + [city];
      assert SameCoords(r[|favs|], city.latitude, city.longitude);
      r
  }

  /** The list after `removeFromFavorites({latitude, longitude})`: the
      entries whose latitude or longitude differs, in their order. */
  function Removed(favs: seq<Place>, latitude: real, longitude: real): (r: seq<Place>)
    ensures |r| <= |favs|
    ensures !HasCoords(r, latitude, longitude)
    ensures forall p :: p in r <==> p in favs && !SameCoords(p, latitude, longitude)
  {
    if favs == [] then []
    else if SameCoords(favs[0], latitude, longitude) then Removed(favs[1..], latitude, longitude)
    else [favs[0]] + Removed(favs[1..], latitude, longitude)
  }

  /** Removal filters each entry on its own, so it keeps the order of the
      entries it keeps. */
  lemma {:induction false} RemovedConcat(a: seq<Place>, b: seq<Place>, latitude: real, longitude: real)
    ensures Removed(a + b, latitude, longitude) == Removed(a, latitude, longitude) + Removed(b, latitude, longitude)
  {
    if a != [] {
      assert (a + b)[1..] == a[1..] + b;
      RemovedConcat(a[1..], b, latitude, longitude);
    } else {
      assert a + b == b;
    }
  }

  /** Removing a coordinate pair that is not present changes nothing,
      neither the size nor the order. */
  lemma {:induction false} RemovedAbsent(favs: seq<Place>, latitude: real, longitude: real)
    requires !HasCoords(favs, latitude, longitude)
    ensures Removed(favs, latitude, longitude) == favs
  {
    if favs != [] {
      assert !SameCoords(favs[0], latitude, longitude);
      assert !HasCoords(favs[1..], latitude, longitude) by {
        forall k | 0 <= k < |favs[1..]|
          ensures !SameCoords(favs[1..][k], latitude, longitude)
        {
          assert favs[1..][k] == favs[k + 1];
        }
      }
      RemovedAbsent(favs[1..], latitude, longitude);
    }
  }

  /** Removal keeps the store free of duplicate coordinate pairs. */
  lemma {:induction false} RemovedUnique(favs: seq<Place>, latitude: real, longitude: real)
    requires Unique(favs)
    ensures Unique(Removed(favs, latitude, longitude))
  {
    if favs != [] {
      var rest := Removed(favs[1..], latitude, longitude);
      assert Unique(favs[1..]) by {
        forall i, j | 0 <= i < j < |favs[1..]|
          ensures !SameCoords(favs[1..][j], favs[1..][i].latitude, favs[1..][i].longitude)
        {
          assert favs[1..][i] == favs[i + 1] && favs[1..][j] == favs[j + 1];
        }
      }
      RemovedUnique(favs[1..], latitude, longitude);
      if !SameCoords(favs[0], latitude, longitude) {
        var r := [favs[0]] + rest;
        forall i, j | 0 <= i < j < |r|
          ensures !SameCoords(r[j], r[i].latitude, r[i].longitude)
        {
          if i == 0 {
            assert r[j] in rest;
            var k :| 0 <= k < |favs[1..]| && favs[1..][k] == r[j];
            assert favs[k + 1] == r[j];
          } else {
            assert r[i] == rest[i - 1] && r[j] == rest[j - 1];
          }
        }
      }
    }
  }

  /** Adding two places with the same coordinates keeps only the first,
      whatever their names and countries. */
  lemma AddedSameCoords(favs: seq<Place>, first: Place, second: Place)
    requires SameCoords(second, first.latitude, first.longitude)
    ensures Added(Added(favs, first), second) == Added(favs, first)
  {
  }

  /** The favourites list as shared state: each operation replaces the list. */
  class FavoritesStore {
    var favorites: seq<Place>

    /** The object invariant: no two entries share a coordinate pair. */
    predicate Valid()
      reads this
    {
      Unique(favorites)
    }

    /** `useState([])`. */
    constructor ()
      ensures Valid() && favorites == []
    {
      favorites := [];
    }

    /** `addToFavorites`: appends `city` unless its coordinates are present. */
    method AddToFavorites(city: Place)
      requires Valid()
      modifies this
      ensures Valid()
      ensures favorites == Added(old(favorites), city)
    {
      var cityExists := HasCoords(favorites, city.latitude, city.longitude);
      if !cityExists {
        favorites := favorites + [city];
      }
    }

    /** `removeFromFavorites`: drops every entry at the given coordinates. */
    method RemoveFromFavorites(latitude: real, longitude: real)
      requires Valid()
      modifies this
      ensures Valid()
      ensures favorites == Removed(old(favorites), latitude, longitude)
    {
      RemovedUnique(favorites, latitude, longitude);
      favorites := Removed(favorites, latitude, longitude);
    }

    /** `resetFavorites`: empties the list; a second reset leaves it empty. */
    method ResetFavorites()
      requires Valid()
      modifies this
      ensures Valid()
      ensures favorites == []
    {
      favorites := [];
    }
  }
}
