/**
 * The value types of the game: circular zones, ghosts and games
 * (GhostbusterQuest/GameModels.swift). Identifiers are `UUID()` values in
 * the source; here they are naturals supplied by the caller, since the
 * random generator is outside the model.
 */
module GameModels {

  import opened Common

  type Uuid = nat

  /** A `CLLocationCoordinate2D`. */
  datatype Coordinate = Coordinate(latitude: real, longitude: real)

  datatype CircleZone = CircleZone(id: Uuid, centerLatitude: real, centerLongitude: real, radiusMeters: real)

  /** `CircleZone.init(id:center:radiusMeters:)`, with the source's default radius of 100 metres. */
  function NewCircleZone(id: Uuid, center: Coordinate, radiusMeters: real := 100.0): CircleZone
  {
    CircleZone(id, center.latitude, center.longitude, radiusMeters)
  }

  /** The zone's `coordinate` property. */
  function ZoneCoordinate(z: CircleZone): Coordinate
  {
    Coordinate(z.centerLatitude, z.centerLongitude)
  }

  /** The centre a zone was created with is the coordinate it reports; the default radius is 100. */
  lemma CircleZoneCentre(id: Uuid, center: Coordinate)
    ensures ZoneCoordinate(NewCircleZone(id, center)) == center
    ensures NewCircleZone(id, center).radiusMeters == 100.0
  {
  }

  datatype GhostState = Idle | Active | ArSearch | Fight | TrapWindow | Escaped | Captured

  datatype Ghost = Ghost(
    id: Uuid,
    name: string,
    modelID: string,
    baseLatitude: real,
    baseLongitude: real,
    currentLatitude: real,
    currentLongitude: real,
    mainZoneRadius: real,
    fightRadius: real,
    trapWindowDuration: real,
    escapeDistanceMeters: real,
    state: GhostState,
    lastEscapeDate: Option<real>)

  /** `Ghost.init`, with the source's defaults; the ghost starts at its base location. */
  function NewGhost(
    id: Uuid,
    name: string,
    modelID: string,
    baseLocation: Coordinate,
    mainZoneRadius: real := 150.0,
    fightRadius: real := 20.0,
    trapWindowDuration: real := 7.0,
    escapeDistanceMeters: real := 40.0,
    state: GhostState := Idle,
    lastEscapeDate: Option<real> := None): Ghost
  {
    Ghost(id, name, modelID,
      baseLocation.latitude, baseLocation.longitude,
      baseLocation.latitude, baseLocation.longitude,
      mainZoneRadius, fightRadius, trapWindowDuration, escapeDistanceMeters,
      state, lastEscapeDate)
  }

  /** The ghost's `baseLocation` property. */
  function BaseLocation(g: Ghost): Coordinate
  {
    Coordinate(g.baseLatitude, g.baseLongitude)
  }

  /** The getter of the ghost's `currentLocation` property. */
  function CurrentLocation(g: Ghost): Coordinate
  {
    Coordinate(g.currentLatitude, g.currentLongitude)
  }

  /** The setter of the ghost's `currentLocation` property: only the two current fields change. */
  function SetCurrentLocation(g: Ghost, c: Coordinate): Ghost
  {
    g.(currentLatitude := c.latitude, currentLongitude := c.longitude)
  }

  /** A new ghost stands at its base location, idle, with the default radii and durations. */
  lemma NewGhostDefaults(id: Uuid, name: string, modelID: string, base: Coordinate)
    ensures var g := NewGhost(id, name, modelID, base);
      CurrentLocation(g) == BaseLocation(g) == base &&
      g.mainZoneRadius == 150.0 && g.fightRadius == 20.0 &&
      g.trapWindowDuration == 7.0 && g.escapeDistanceMeters == 40.0 &&
      g.state == Idle && g.lastEscapeDate == None
  {
  }

  /**
   * Writing `currentLocation` and reading it back gives the written value,
   * leaves the base location and every other field alone, and writing back
   * what was read changes nothing.
   */
  lemma CurrentLocationRoundTrip(g: Ghost, c: Coordinate)
    ensures CurrentLocation(SetCurrentLocation(g, c)) == c
    ensures BaseLocation(SetCurrentLocation(g, c)) == BaseLocation(g)
    ensures SetCurrentLocation(g, c).(currentLatitude := g.currentLatitude, currentLongitude := g.currentLongitude) == g
    ensures SetCurrentLocation(g, CurrentLocation(g)) == g
  {
  }

  datatype Game = Game(id: Uuid, name: string, locationLayout: seq<CircleZone>, ghosts: seq<Ghost>, isActive: bool)

  /** `Game.init`, with the source's defaults: no zones, no ghosts, inactive. */
  function NewGame(id: Uuid, name: string, locationLayout: seq<CircleZone> := [], ghosts: seq<Ghost> := [], isActive: bool := false): Game
  {
    Game(id, name, locationLayout, ghosts, isActive)
  }

  lemma NewGameDefaults(id: Uuid, name: string)
    ensures var g := NewGame(id, name);
      g.id == id && g.name == name && g.locationLayout == [] && g.ghosts == [] && !g.isActive
  {
  }

  /** The number of ghosts in the captured state (`ghosts.filter { $0.state == .captured }.count`). */
  function CapturedCount(ghosts: seq<Ghost>): (n: nat)
    ensures n <= |ghosts|
    ensures n == |ghosts| <==> forall i :: 0 <= i < |ghosts| ==> ghosts[i].state == Captured
    ensures n == 0 <==> forall i :: 0 <= i < |ghosts| ==> ghosts[i].state != Captured
  {
    if |ghosts| == 0 then 0
    else CapturedCount(ghosts[..|ghosts| - 1]) + (if ghosts[|ghosts| - 1].state == Captured then 1 else 0)
  }

  /** The position of the first game with this id (`games.firstIndex(where: { $0.id == id })`). */
  function GameIndex(games: seq<Game>, id: Uuid): (r: Option<nat>)
    ensures r.Some? ==> r.value < |games| && games[r.value].id == id
    ensures r.Some? ==> forall j :: 0 <= j < r.value ==> games[j].id != id
    ensures r.None? <==> forall j :: 0 <= j < |games| ==> games[j].id != id
  {
    FirstIndex(games, (g: Game) => g.id == id)
  }

  /** The position of the first ghost with this id. */
  function GhostIndex(ghosts: seq<Ghost>, id: Uuid): (r: Option<nat>)
    ensures r.Some? ==> r.value < |ghosts| && ghosts[r.value].id == id
    ensures r.Some? ==> forall j :: 0 <= j < r.value ==> ghosts[j].id != id
    ensures r.None? <==> forall j :: 0 <= j < |ghosts| ==> ghosts[j].id != id
  {
    FirstIndex(ghosts, (g: Ghost) => g.id == id)
  }

  /** The position of the first zone with this id. */
  function ZoneIndex(zones: seq<CircleZone>, id: Uuid): (r: Option<nat>)
    ensures r.Some? ==> r.value < |zones| && zones[r.value].id == id
    ensures r.Some? ==> forall j :: 0 <= j < r.value ==> zones[j].id != id
    ensures r.None? <==> forall j :: 0 <= j < |zones| ==> zones[j].id != id
  {
    FirstIndex(zones, (z: CircleZone) => z.id == id)
  }

  /** No two games share an id. */
  predicate UniqueGameIds(games: seq<Game>)
  {
    forall i, j :: 0 <= i < j < |games| ==> games[i].id != games[j].id
  }
}
