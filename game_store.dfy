/**
 * The in-memory scenario store (GhostbusterQuest/GameStore.swift): one
 * object owning the list of games, which its methods update in place.
 * `save` and `load` are empty placeholders in the source and are not
 * modelled; identifiers that the source draws from `UUID()` are parameters.
 */
module GameStore {

  import opened Common
  import opened GameModels

  /** The coordinate of the mock scenario. */
  const MockBase := Coordinate(55.7558, 37.6173)

  /** `GameStore.makeMock()`: one active game with one circular zone of 120 m and one ghost. */
  function MakeMock(gameID: Uuid, zoneID: Uuid, ghostID: Uuid): seq<Game>
  {
    var circle := NewCircleZone(zoneID, MockBase, 120.0);
    var poltergeist := NewGhost(ghostID, "Полтергейст", "ghost_01", MockBase);
    [NewGame(gameID, "Патриаршие пруды", [circle], [poltergeist], true)]
  }

  /**
   * The initial store holds exactly one game, "Патриаршие пруды"; it is
   * active, has one zone of 120 m around the mock base, and its only ghost,
   * "Полтергейст" with model "ghost_01", is idle and stands at its base.
   */
  lemma MockShape(gameID: Uuid, zoneID: Uuid, ghostID: Uuid)
    ensures var games := MakeMock(gameID, zoneID, ghostID);
      |games| == 1 && games[0].isActive && games[0].name == "Патриаршие пруды" && |games[0].ghosts| == 1 &&
      CurrentLocation(games[0].ghosts[0]) == BaseLocation(games[0].ghosts[0]) == MockBase &&
      games[0].ghosts[0].state == Idle && games[0].ghosts[0].name == "Полтергейст" &&
      games[0].ghosts[0].modelID == "ghost_01" && |games[0].locationLayout| == 1 &&
      ZoneCoordinate(games[0].locationLayout[0]) == MockBase && games[0].locationLayout[0].radiusMeters == 120.0
  {
  }

  /** A ghost of a reset game: idle again and back at its base location. */
  function ResetGhost(g: Ghost): (r: Ghost)
    ensures r.state == Idle && CurrentLocation(r) == BaseLocation(r) == BaseLocation(g)
    ensures r.(state := g.state, currentLatitude := g.currentLatitude, currentLongitude := g.currentLongitude) == g
  {
    g.(state := Idle, currentLatitude := g.baseLatitude, currentLongitude := g.baseLongitude)
  }

  class GameStore {
    var games: seq<Game>

    constructor (gameID: Uuid, zoneID: Uuid, ghostID: Uuid)
      ensures games == MakeMock(gameID, zoneID, ghostID)
    {
      games := MakeMock(gameID, zoneID, ghostID);
    }

    /** Appends one inactive game with no zones and no ghosts; earlier games are untouched. */
    method AddGame(newID: Uuid)
      modifies this
      ensures |games| == |old(games)| + 1
      ensures games[..|old(games)|] == old(games)
      ensures games[|games| - 1] == NewGame(newID, "Новая игра")
      ensures !games[|games| - 1].isActive && games[|games| - 1].ghosts == [] && games[|games| - 1].locationLayout == []
    {
      var newGame := NewGame(newID, "Новая игра", [], [], false);
      games := games + [newGame];
    }

    /** Removes exactly the games at the given positions, keeping the rest in order. */
    method Delete(offsets: set<nat>)
      requires forall o :: o in offsets ==> o < |games|
      modifies this
      ensures games == RemoveOffsets(old(games), offsets)
    {
      games := RemoveOffsets(games, offsets);
    }

    /**
     * Resets the first game with this id: each of its ghosts becomes idle at
     * its base location. Nothing happens when no game has the id.
     */
    method ResetProgress(gameID: Uuid)
      modifies this
      ensures GameIndex(old(games), gameID).None? ==> games == old(games)
      ensures GameIndex(old(games), gameID).Some? ==>
        var k := GameIndex(old(games), gameID).value;
        |games| == |old(games)| &&
        (forall i :: 0 <= i < |games| && i != k ==> games[i] == old(games)[i]) &&
        games[k].(ghosts := old(games)[k].ghosts) == old(games)[k] &&
        |games[k].ghosts| == |old(games)[k].ghosts| &&
        forall j :: 0 <= j < |games[k].ghosts| ==> games[k].ghosts[j] == ResetGhost(old(games)[k].ghosts[j])
    {
      var found := GameIndex(games, gameID);
      if found.None? {
        return;
      }
      var index := found.value;
      var ghostIndex := 0;
      while ghostIndex < |games[index].ghosts|
        invariant |games| == |old(games)|
        invariant forall i :: 0 <= i < |games| && i != index ==> games[i] == old(games)[i]
        invariant games[index].(ghosts := old(games)[index].ghosts) == old(games)[index]
        invariant |games[index].ghosts| == |old(games)[index].ghosts|
        invariant 0 <= ghostIndex <= |games[index].ghosts|
        invariant forall j :: 0 <= j < ghostIndex ==> games[index].ghosts[j] == ResetGhost(old(games)[index].ghosts[j])
        invariant forall j :: ghostIndex <= j < |games[index].ghosts| ==> games[index].ghosts[j] == old(games)[index].ghosts[j]
      {
        var g := games[index].ghosts[ghostIndex];
        g := g.(state := Idle);
        g := g.(currentLatitude := g.baseLatitude);
        g := g.(currentLongitude := g.baseLongitude);
        games := games[index := games[index].(ghosts := games[index].ghosts[ghostIndex := g])];
        ghostIndex := ghostIndex + 1;
      }
    }

    /**
     * Marks as active exactly the games with this id; the number and order
     * of games and all their other fields stay as they were.
     */
    method SetActive(gameID: Uuid)
      modifies this
      ensures |games| == |old(games)|
      ensures forall i :: 0 <= i < |games| ==> (games[i].isActive <==> games[i].id == gameID)
      ensures forall i :: 0 <= i < |games| ==> games[i].(isActive := old(games)[i].isActive) == old(games)[i]
    {
      var idx := 0;
      while idx < |games|
        invariant |games| == |old(games)|
        invariant 0 <= idx <= |games|
        invariant forall i :: 0 <= i < idx ==> games[i] == old(games)[i].(isActive := old(games)[i].id == gameID)
        invariant forall i :: idx <= i < |games| ==> games[i] == old(games)[i]
      {
        games := games[idx := games[idx].(isActive := games[idx].id == gameID)];
        idx := idx + 1;
      }
    }
  }

  /** With distinct ids, activating the game at position `k` leaves it the only active game. */
  lemma SetActiveSingle(games: seq<Game>, after: seq<Game>, k: nat)
    requires UniqueGameIds(games) && k < |games| && |after| == |games|
    requires forall i :: 0 <= i < |after| ==> (after[i].isActive <==> after[i].id == games[k].id)
    requires forall i :: 0 <= i < |after| ==> after[i].id == games[i].id
    ensures forall i :: 0 <= i < |after| ==> (after[i].isActive <==> i == k)
  {
  }
}
