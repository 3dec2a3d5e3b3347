/**
 * The list screen's operations on the store (GhostbusterQuest/GameListView.swift):
 * finding a game or a ghost by id, deleting them, whether the scanner
 * shortcut is offered, and the subtitle of a game's row. The SwiftUI
 * bindings become positions into `store.games`.
 */
module GameList {

  import opened Common
  import opened GameModels
  import Scanner
  import GameStore

  /** The store's games with the first game of this id removed, or unchanged when no game has it. */
  function WithoutGame(games: seq<Game>, gameID: Uuid): (r: seq<Game>)
    ensures GameIndex(games, gameID).None? ==> r == games
    ensures GameIndex(games, gameID).Some? ==> |r| == |games| - 1
    ensures GameIndex(games, gameID).Some? ==> r == RemoveAt(games, GameIndex(games, gameID).value)
  {
    match GameIndex(games, gameID)
    case None => games
    case Some(i) => RemoveAt(games, i)
  }

  /**
   * Only the first game with the id goes: games before it stay, games after
   * it move up by one, and a later duplicate of the id survives.
   */
  lemma WithoutGameKeepsOrder(games: seq<Game>, gameID: Uuid)
    requires GameIndex(games, gameID).Some?
    ensures var i := GameIndex(games, gameID).value; var r := WithoutGame(games, gameID);
      (forall j :: 0 <= j < i ==> r[j] == games[j]) &&
      (forall j :: i < j < |games| ==> r[j - 1] == games[j]) &&
      (forall j :: 0 <= j < |r| ==> r[j] in games) &&
      ((exists j :: i < j < |games| && games[j].id == gameID) ==> GameIndex(r, gameID).Some?)
  {
    var i := GameIndex(games, gameID).value;
    var r := WithoutGame(games, gameID);
    if exists j :: i < j < |games| && games[j].id == gameID {
      var j :| i < j < |games| && games[j].id == gameID;
      assert r[j - 1].id == gameID;
    }
  }

  /** `delete(gameID:)`: removes the first game with this id, if any. */
  method DeleteGame(store: GameStore.GameStore, gameID: Uuid)
    modifies store
    ensures store.games == WithoutGame(old(store.games), gameID)
  {
    var found := GameIndex(store.games, gameID);
    if found.Some? {
      store.games := RemoveAt(store.games, found.value);
    }
  }

  /** A game lists a ghost with this id. */
  predicate HasGhost(g: Game, ghostID: Uuid)
  {
    GhostIndex(g.ghosts, ghostID).Some?
  }

  /** Where a ghost sits: the position of its game in the store and its position in that game. */
  datatype GhostRef = GhostRef(game: nat, slot: nat)

  /**
   * `ghostBinding(for:)`: the ghost in the lowest-positioned game that has
   * the id, at its first position there; nothing when no game has it.
   */
  function GhostLocation(games: seq<Game>, ghostID: Uuid): (r: Option<GhostRef>)
    ensures r.None? <==> forall k, j :: 0 <= k < |games| && 0 <= j < |games[k].ghosts| ==> games[k].ghosts[j].id != ghostID
    ensures r.Some? ==> r.value.game < |games| && r.value.slot < |games[r.value.game].ghosts|
    ensures r.Some? ==> games[r.value.game].ghosts[r.value.slot].id == ghostID
    ensures r.Some? ==> forall j :: 0 <= j < r.value.slot ==> games[r.value.game].ghosts[j].id != ghostID
    ensures r.Some? ==> forall k, j :: 0 <= k < r.value.game && 0 <= j < |games[k].ghosts| ==> games[k].ghosts[j].id != ghostID
  {
    match FirstIndex(games, (g: Game) => HasGhost(g, ghostID))
    case None =>
      assert forall k :: 0 <= k < |games| ==> !HasGhost(games[k], ghostID);
      None
    case Some(k) =>
      Some(GhostRef(k, GhostIndex(games[k].ghosts, ghostID).value))
  }

  /** The store's games after `deleteGhost(id:)`, as a function of the games before it. */
  function WithoutGhost(games: seq<Game>, ghostID: Uuid): (r: seq<Game>)
    ensures |r| == |games|
    ensures GhostLocation(games, ghostID).None? ==> r == games
    ensures GhostLocation(games, ghostID).Some? ==>
      var loc := GhostLocation(games, ghostID).value;
      (forall k :: 0 <= k < |games| && k != loc.game ==> r[k] == games[k]) &&
      r[loc.game].(ghosts := games[loc.game].ghosts) == games[loc.game] &&
      r[loc.game].ghosts == RemoveAt(games[loc.game].ghosts, loc.slot)
  {
    match GhostLocation(games, ghostID)
    case None => games
    case Some(loc) => games[loc.game := games[loc.game].(ghosts := RemoveAt(games[loc.game].ghosts, loc.slot))]
  }

  /**
   * `deleteGhost(id:)`: scans the games in order and, in the first one that
   * lists the ghost, removes its first occurrence, then stops.
   */
  method DeleteGhost(store: GameStore.GameStore, ghostID: Uuid)
    modifies store
    ensures store.games == WithoutGhost(old(store.games), ghostID)
  {
    var gameIndex := 0;
    while gameIndex < |store.games|
      invariant 0 <= gameIndex <= |store.games|
      invariant store.games == old(store.games)
      invariant forall k :: 0 <= k < gameIndex ==> !HasGhost(store.games[k], ghostID)
    {
      var found := GhostIndex(store.games[gameIndex].ghosts, ghostID);
      if found.Some? {
        var loc := FirstIndex(store.games, (g: Game) => HasGhost(g, ghostID));
        assert loc == Some(gameIndex);
        store.games := store.games[gameIndex := store.games[gameIndex].(ghosts := RemoveAt(store.games[gameIndex].ghosts, found.value))];
        return;
      }
      gameIndex := gameIndex + 1;
    }
    assert forall k :: 0 <= k < |store.games| ==> !HasGhost(store.games[k], ghostID);
  }

  /** The number of ghosts over all games. */
  function TotalGhosts(games: seq<Game>): nat
  {
    if |games| == 0 then 0 else TotalGhosts(games[..|games| - 1]) + |games[|games| - 1].ghosts|
  }

  /** Replacing the ghosts of one game changes the total by the difference in that game's count. */
  lemma {:induction false} TotalGhostsUpdate(games: seq<Game>, k: nat, g: Game)
    requires k < |games|
    ensures TotalGhosts(games[k := g]) + |games[k].ghosts| == TotalGhosts(games) + |g.ghosts|
    decreases |games|
  {
    var n := |games| - 1;
    var after := games[k := g];
    assert after[..n] == if k < n then games[..n][k := g] else games[..n];
    if k < n {
      TotalGhostsUpdate(games[..n], k, g);
    }
  }

  /**
   * Deleting a ghost that some game lists removes exactly one ghost from
   * the store; deleting an unknown id removes none.
   */
  lemma DeleteGhostRemovesOne(games: seq<Game>, ghostID: Uuid)
    ensures GhostLocation(games, ghostID).Some? ==> TotalGhosts(WithoutGhost(games, ghostID)) + 1 == TotalGhosts(games)
    ensures GhostLocation(games, ghostID).None? ==> TotalGhosts(WithoutGhost(games, ghostID)) == TotalGhosts(games)
  {
    if GhostLocation(games, ghostID).Some? {
      var loc := GhostLocation(games, ghostID).value;
      TotalGhostsUpdate(games, loc.game, WithoutGhost(games, ghostID)[loc.game]);
      assert WithoutGhost(games, ghostID) == games[loc.game := WithoutGhost(games, ghostID)[loc.game]];
    }
  }

  /** The scanner shortcut in the toolbar (`store.games.contains(where: { $0.isActive })`). */
  predicate ScannerShortcutShown(games: seq<Game>)
  {
    exists i :: 0 <= i < |games| && games[i].isActive
  }

  /** The shortcut is offered exactly when the scanner has an active game to show. */
  lemma ShortcutMatchesScanner(games: seq<Game>)
    ensures ScannerShortcutShown(games) <==> Scanner.ActiveGame(games).Some?
  {
    if ScannerShortcutShown(games) {
      var i :| 0 <= i < |games| && games[i].isActive;
      assert Scanner.ActiveGameIndex(games).Some?;
    }
  }

  /** The subtitle of a game's row: "captured / total", or the text for a game with no ghosts. */
  datatype RowSubtitle = Progress(captured: nat, total: nat) | NoGhosts

  /** `GameRowView`'s subtitle choice. */
  function RowText(game: Game): (r: RowSubtitle)
    ensures r.Progress? <==> |game.ghosts| > 0
    ensures r.Progress? ==> r.total == |game.ghosts| && r.captured == CapturedCount(game.ghosts)
    ensures r.Progress? ==> r.captured <= r.total
  {
    var total := |game.ghosts|;
    var captured := CapturedCount(game.ghosts);
    if total > 0 then Progress(captured, total) else NoGhosts
  }
}
