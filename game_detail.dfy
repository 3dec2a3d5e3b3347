/**
 * The game screen's operations (GhostbusterQuest/GameDetailView.swift):
 * starting a hunt, adding, clearing and deleting ghosts, and the map region
 * shown for the game. The view's `game` binding is the position `index`
 * of the game in `store.games`. The MapKit rectangle that frames the
 * markers is outside the model: the region MapKit derives from it is a
 * parameter, and only whether the rectangle is still empty is tracked.
 */
module GameDetail {

  import opened Common
  import opened GameModels
  import GameStore

  // ---------------------------------------------------------------------
  // Starting a hunt
  // ---------------------------------------------------------------------

  /** The games after `setActive(gameID:)`: exactly the games with this id are active. */
  function ActivateOnly(games: seq<Game>, gameID: Uuid): seq<Game>
  {
    seq(|games|, i requires 0 <= i < |games| => games[i].(isActive := games[i].id == gameID))
  }

  /** The chosen ghost becomes active and every other ghost idle. */
  function HuntStates(ghosts: seq<Ghost>, ghostID: Uuid): seq<Ghost>
  {
    seq(|ghosts|, i requires 0 <= i < |ghosts| => ghosts[i].(state := if ghosts[i].id == ghostID then Active else Idle))
  }

  /** The games after `startHunt(with:)` on the game at `index`. */
  function StartHuntGames(games: seq<Game>, index: nat, ghostID: Uuid): seq<Game>
    requires index < |games|
  {
    var activated := ActivateOnly(games, games[index].id);
    activated[index := activated[index].(ghosts := HuntStates(activated[index].ghosts, ghostID))]
  }

  /**
   * With distinct game ids, after a hunt starts its game is the only active
   * one; in it the chosen ghost is active and all others idle; the number
   * and order of games and ghosts and every other field stay as they were.
   */
  lemma StartHuntEffect(games: seq<Game>, index: nat, ghostID: Uuid)
    requires UniqueGameIds(games) && index < |games|
    ensures var after := StartHuntGames(games, index, ghostID);
      |after| == |games| &&
      (forall i :: 0 <= i < |after| ==> (after[i].isActive <==> i == index)) &&
      (forall i :: 0 <= i < |after| && i != index ==> after[i].(isActive := games[i].isActive) == games[i]) &&
      after[index].(isActive := games[index].isActive, ghosts := games[index].ghosts) == games[index] &&
      |after[index].ghosts| == |games[index].ghosts| &&
      forall j :: 0 <= j < |after[index].ghosts| ==>
        after[index].ghosts[j].(state := games[index].ghosts[j].state) == games[index].ghosts[j] &&
        (after[index].ghosts[j].state == Active <==> games[index].ghosts[j].id == ghostID) &&
        (after[index].ghosts[j].state != Active ==> after[index].ghosts[j].state == Idle)
  {
  }

  /**
   * `startHunt(with:)`: activates the game at `index` in the store and
   * then, ghost by ghost, marks the chosen one active and the others idle.
   */
  method StartHunt(store: GameStore.GameStore, index: nat, ghostID: Uuid)
    requires index < |store.games|
    modifies store
    ensures store.games == StartHuntGames(old(store.games), index, ghostID)
  {
    store.SetActive(store.games[index].id);
    assert store.games == ActivateOnly(old(store.games), old(store.games)[index].id);
    var idx := 0;
    while idx < |store.games[index].ghosts|
      invariant |store.games| == |old(store.games)|
      invariant forall i :: 0 <= i < |store.games| && i != index ==> store.games[i] == ActivateOnly(old(store.games), old(store.games)[index].id)[i]
      invariant store.games[index].(ghosts := old(store.games)[index].ghosts) == ActivateOnly(old(store.games), old(store.games)[index].id)[index]
      invariant |store.games[index].ghosts| == |old(store.games)[index].ghosts|
      invariant 0 <= idx <= |store.games[index].ghosts|
      invariant forall j :: 0 <= j < idx ==> store.games[index].ghosts[j] == HuntStates(old(store.games)[index].ghosts, ghostID)[j]
      invariant forall j :: idx <= j < |store.games[index].ghosts| ==> store.games[index].ghosts[j] == old(store.games)[index].ghosts[j]
    {
      var g := store.games[index].ghosts[idx];
      g := g.(state := if g.id == ghostID then Active else Idle);
      store.games := store.games[index := store.games[index].(ghosts := store.games[index].ghosts[idx := g])];
      idx := idx + 1;
    }
    assert store.games[index].ghosts == HuntStates(old(store.games)[index].ghosts, ghostID);
    assert forall i :: 0 <= i < |store.games| ==> store.games[i] == StartHuntGames(old(store.games), index, ghostID)[i];
  }

  // ---------------------------------------------------------------------
  // The map region
  // ---------------------------------------------------------------------

  /** A map region: its centre and its latitude/longitude span. */
  datatype Region = Region(center: Coordinate, latitudeDelta: real, longitudeDelta: real)

  /** The region shown when there is nothing to frame. */
  const DefaultRegion := Region(Coordinate(55.7558, 37.6173), 0.05, 0.05)

  function Sum(xs: seq<real>): real
  {
    if |xs| == 0 then 0.0 else Sum(xs[..|xs| - 1]) + xs[|xs| - 1]
  }

  function Mean(xs: seq<real>): real
    requires |xs| > 0
  {
    Sum(xs) / |xs| as real
  }

  function Latitudes(ghosts: seq<Ghost>): seq<real>
  {
    seq(|ghosts|, i requires 0 <= i < |ghosts| => ghosts[i].currentLatitude)
  }

  function Longitudes(ghosts: seq<Ghost>): seq<real>
  {
    seq(|ghosts|, i requires 0 <= i < |ghosts| => ghosts[i].currentLongitude)
  }

  /**
   * `regionForContent()`. `padded` is the region MapKit derives from the
   * padded rectangle around the markers. With neither ghosts nor a user
   * location the rectangle is empty and the default region is used; with
   * ghosts, the centre is moved to the mean of their current coordinates.
   * The source's branch for an empty rectangle with a user location cannot
   * be reached, since the user's marker always enlarges the rectangle.
   */
  function ContentRegion(ghosts: seq<Ghost>, user: Option<Coordinate>, padded: Region): Region
  {
    if |ghosts| == 0 && user.None? then DefaultRegion
    else if |ghosts| > 0 then padded.(center := Coordinate(Mean(Latitudes(ghosts)), Mean(Longitudes(ghosts))))
    else padded
  }

  /** The loop of `regionForContent()`: the running sums, the count and the rectangle's emptiness. */
  method RegionForContent(ghosts: seq<Ghost>, user: Option<Coordinate>, padded: Region) returns (r: Region)
    ensures r == ContentRegion(ghosts, user, padded)
  {
    var rectIsNull := true;
    var latSum, lonSum, count := 0.0, 0.0, 0;
    var idx := 0;
    while idx < |ghosts|
      invariant 0 <= idx <= |ghosts|
      invariant rectIsNull <==> idx == 0
      invariant latSum == Sum(Latitudes(ghosts)[..idx])
      invariant lonSum == Sum(Longitudes(ghosts)[..idx])
      invariant count == idx
    {
      assert Latitudes(ghosts)[..idx + 1][..idx] == Latitudes(ghosts)[..idx];
      assert Longitudes(ghosts)[..idx + 1][..idx] == Longitudes(ghosts)[..idx];
      rectIsNull := false;
      latSum := latSum + ghosts[idx].currentLatitude;
      lonSum := lonSum + ghosts[idx].currentLongitude;
      count := count + 1;
      idx := idx + 1;
    }
    assert Latitudes(ghosts)[..idx] == Latitudes(ghosts);
    assert Longitudes(ghosts)[..idx] == Longitudes(ghosts);
    if user.Some? {
      rectIsNull := false;
    }
    if rectIsNull {
      match user {
        case Some(u) => r := Region(u, 0.01, 0.01);
        case None => r := DefaultRegion;
      }
      return;
    }
    r := padded;
    if count > 0 {
      r := r.(center := Coordinate(latSum / count as real, lonSum / count as real));
    }
  }

  /** A sum of `n` values that all lie in `[lo, hi]` lies in `[n * lo, n * hi]`. */
  lemma {:induction false} SumWithin(xs: seq<real>, lo: real, hi: real)
    requires forall i :: 0 <= i < |xs| ==> lo <= xs[i] <= hi
    ensures |xs| as real * lo <= Sum(xs) <= |xs| as real * hi
  {
    if |xs| > 0 {
      var n := |xs| - 1;
      SumWithin(xs[..n], lo, hi);
      assert (n + 1) as real * lo == n as real * lo + lo;
      assert (n + 1) as real * hi == n as real * hi + hi;
    }
  }

  /** The mean of values that all lie in `[lo, hi]` lies in `[lo, hi]`. */
  lemma MeanWithin(xs: seq<real>, lo: real, hi: real)
    requires |xs| > 0
    requires forall i :: 0 <= i < |xs| ==> lo <= xs[i] <= hi
    ensures lo <= Mean(xs) <= hi
  {
    var n := |xs| as real;
    SumWithin(xs, lo, hi);
    var m := Mean(xs);
    assert m * n == Sum(xs);
  }

  /**
   * With at least one ghost the map centres on a point inside the box
   * spanned by the ghosts' current coordinates, and on their common
   * position when they all stand at one place; with no ghosts and no user
   * location it shows the default region.
   */
  lemma ContentRegionCentre(ghosts: seq<Ghost>, user: Option<Coordinate>, padded: Region, lo: Coordinate, hi: Coordinate)
    requires forall i :: 0 <= i < |ghosts| ==>
      lo.latitude <= ghosts[i].currentLatitude <= hi.latitude && lo.longitude <= ghosts[i].currentLongitude <= hi.longitude
    ensures |ghosts| > 0 ==> var c := ContentRegion(ghosts, user, padded).center;
      lo.latitude <= c.latitude <= hi.latitude && lo.longitude <= c.longitude <= hi.longitude
    ensures |ghosts| > 0 && lo == hi ==> ContentRegion(ghosts, user, padded).center == lo
    ensures |ghosts| == 0 && user.None? ==> ContentRegion(ghosts, user, padded) == Region(Coordinate(55.7558, 37.6173), 0.05, 0.05)
    ensures |ghosts| == 0 && user.Some? ==> ContentRegion(ghosts, user, padded) == padded
  {
    if |ghosts| > 0 {
      MeanWithin(Latitudes(ghosts), lo.latitude, hi.latitude);
      MeanWithin(Longitudes(ghosts), lo.longitude, hi.longitude);
    }
  }

  // ---------------------------------------------------------------------
  // Adding, clearing and deleting ghosts
  // ---------------------------------------------------------------------

  /** The ghost `addGhost()` creates: named "Новый призрак", model "model_id", standing at `center`. */
  function NewHuntGhost(id: Uuid, center: Coordinate): (g: Ghost)
    ensures BaseLocation(g) == center && CurrentLocation(g) == center
    ensures g.name == "Новый призрак" && g.modelID == "model_id" && g.state == Idle
  {
    NewGhost(id, "Новый призрак", "model_id", center)
  }

  /** `addGhost()`: appends one new ghost at the centre of the map region; nothing else changes. */
  method AddGhost(store: GameStore.GameStore, index: nat, newID: Uuid, user: Option<Coordinate>, padded: Region)
    requires index < |store.games|
    modifies store
    ensures |store.games| == |old(store.games)|
    ensures forall i :: 0 <= i < |store.games| && i != index ==> store.games[i] == old(store.games)[i]
    ensures store.games[index] == old(store.games)[index].(ghosts := old(store.games)[index].ghosts +
      [NewHuntGhost(newID, ContentRegion(old(store.games)[index].ghosts, user, padded).center)])
  {
    var region := RegionForContent(store.games[index].ghosts, user, padded);
    var g := NewGhost(newID, "Новый призрак", "model_id", region.center);
    store.games := store.games[index := store.games[index].(ghosts := store.games[index].ghosts + [g])];
  }

  /** The "clear game" action: the game keeps everything but its ghosts. */
  method ClearGhosts(store: GameStore.GameStore, index: nat)
    requires index < |store.games|
    modifies store
    ensures store.games == old(store.games)[index := old(store.games)[index].(ghosts := [])]
  {
    store.games := store.games[index := store.games[index].(ghosts := [])];
  }

  /** Swipe-to-delete in the ghost list: removes exactly the ghosts at the given positions. */
  method DeleteGhosts(store: GameStore.GameStore, index: nat, offsets: set<nat>)
    requires index < |store.games|
    requires forall o :: o in offsets ==> o < |store.games[index].ghosts|
    modifies store
    ensures store.games == old(store.games)[index := old(store.games)[index].(ghosts := RemoveOffsets(old(store.games)[index].ghosts, offsets))]
  {
    store.games := store.games[index := store.games[index].(ghosts := RemoveOffsets(store.games[index].ghosts, offsets))];
  }
}
