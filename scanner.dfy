/**
 * The radar screen's decisions (GhostbusterQuest/ScannerView.swift): which
 * game and ghost are hunted, the zone gating of the AR button, how the
 * ghost's radar vector is kept on the dial, and the angle arithmetic of the
 * heading-up display. Geodesic distance and bearing, `sqrt` and the
 * trigonometry are inputs here.
 */
module Scanner {

  import opened Common
  import opened GameModels

  /** The position of the first active game (`store.games.first(where: { $0.isActive })`). */
  function ActiveGameIndex(games: seq<Game>): (r: Option<nat>)
    ensures r.Some? ==> r.value < |games| && games[r.value].isActive
    ensures r.Some? ==> forall j :: 0 <= j < r.value ==> !games[j].isActive
    ensures r.None? <==> forall j :: 0 <= j < |games| ==> !games[j].isActive
  {
    FirstIndex(games, (g: Game) => g.isActive)
  }

  /** The `activeGame` property. */
  function ActiveGame(games: seq<Game>): Option<Game>
  {
    match ActiveGameIndex(games)
    case None => None
    case Some(i) => Some(games[i])
  }

  /**
   * The `targetGhost` property: in the active game, the first ghost in the
   * active state, else its first ghost; nothing without an active game or
   * with an empty one.
   */
  function TargetGhost(games: seq<Game>): (r: Option<Ghost>)
    ensures r.None? <==> ActiveGame(games).None? || |ActiveGame(games).value.ghosts| == 0
    ensures r.Some? ==> var ghosts := ActiveGame(games).value.ghosts;
      (exists i :: 0 <= i < |ghosts| && ghosts[i].state == Active) ==>
        r.value.state == Active &&
        exists i :: 0 <= i < |ghosts| && ghosts[i] == r.value && forall j :: 0 <= j < i ==> ghosts[j].state != Active
    ensures r.Some? ==> var ghosts := ActiveGame(games).value.ghosts;
      (forall i :: 0 <= i < |ghosts| ==> ghosts[i].state != Active) ==> r.value == ghosts[0]
  {
    match ActiveGame(games)
    case None => None
    case Some(game) =>
      match FirstIndex(game.ghosts, (g: Ghost) => g.state == Active)
      case Some(i) => Some(game.ghosts[i])
      case None => if |game.ghosts| == 0 then None else Some(game.ghosts[0])
  }

  /** What the scanner shows: no hunt, or the radar with the zone messages for the target ghost. */
  datatype Screen = NoActiveHunt | Radar(target: Ghost, inMainZone: bool, canFight: bool)

  /**
   * The body of the scanner view. `distance` is the geodesic distance from
   * the user to the ghost's current location (`CLLocation.distance(from:)`).
   */
  function ScannerScreen(games: seq<Game>, user: Option<Coordinate>, distance: real): (s: Screen)
    ensures s.Radar? <==> TargetGhost(games).Some? && user.Some?
    ensures s.Radar? ==> s.target == TargetGhost(games).value
    ensures s.Radar? ==> (s.inMainZone <==> distance <= s.target.mainZoneRadius)
    ensures s.Radar? ==> (s.canFight <==> distance <= s.target.fightRadius)
  {
    match TargetGhost(games)
    case None => NoActiveHunt
    case Some(g) =>
      if user.None? then NoActiveHunt
      else Radar(g, distance <= g.mainZoneRadius, distance <= g.fightRadius)
  }

  /** For a ghost whose fight radius lies inside its main zone (as the defaults 20 and 150 do), the AR button is never enabled outside the main zone. */
  lemma FightInsideMainZone(games: seq<Game>, user: Option<Coordinate>, distance: real)
    requires ScannerScreen(games, user, distance).Radar?
    requires ScannerScreen(games, user, distance).target.fightRadius <= ScannerScreen(games, user, distance).target.mainZoneRadius
    ensures ScannerScreen(games, user, distance).canFight ==> ScannerScreen(games, user, distance).inMainZone
  {
  }

  // ---------------------------------------------------------------------
  // Radar geometry
  // ---------------------------------------------------------------------

  /** A screen offset `(dx, dy)`. */
  datatype Vec2 = Vec2(dx: real, dy: real)

  function NormSq(v: Vec2): real { v.dx * v.dx + v.dy * v.dy }

  function Scale(v: Vec2, k: real): Vec2 { Vec2(v.dx * k, v.dy * k) }

  lemma NormSqScale(v: Vec2, k: real)
    ensures NormSq(Scale(v, k)) == k * k * NormSq(v)
  {
    calc {
      NormSq(Scale(v, k));
      (v.dx * k) * (v.dx * k) + (v.dy * k) * (v.dy * k);
      { assert (v.dx * k) * (v.dx * k) == k * k * (v.dx * v.dx);
        assert (v.dy * k) * (v.dy * k) == k * k * (v.dy * v.dy); }
      k * k * (v.dx * v.dx) + k * k * (v.dy * v.dy);
      k * k * NormSq(v);
    }
  }

  /** `length` is the Euclidean length of `v` (the source's `sqrt(dx * dx + dy * dy)`). */
  predicate IsLength(v: Vec2, length: real)
  {
    length >= 0.0 && length * length == NormSq(v)
  }

  /** `clamp(vector:maxRadius:)`: the ghost's dot is pulled back onto the dial's rim when it lies outside. */
  function ClampVector(v: Vec2, maxRadius: real, length: real): Vec2
    requires maxRadius >= 0.0
  {
    if !(length > maxRadius) then v else Scale(v, maxRadius / length)
  }

  /**
   * A vector inside the dial is kept as it is; one outside is shortened,
   * along its own direction, to exactly the dial's radius.
   */
  lemma ClampVectorSpec(v: Vec2, maxRadius: real, length: real)
    requires IsLength(v, length) && maxRadius >= 0.0
    ensures length <= maxRadius ==> ClampVector(v, maxRadius, length) == v
    ensures length > maxRadius ==>
      NormSq(ClampVector(v, maxRadius, length)) == maxRadius * maxRadius &&
      exists k :: 0.0 <= k < 1.0 && ClampVector(v, maxRadius, length) == Scale(v, k)
    ensures NormSq(ClampVector(v, maxRadius, length)) <= maxRadius * maxRadius
  {
    if length > maxRadius {
      var k := maxRadius / length;
      NormSqScale(v, k);
      assert k * length == maxRadius;
      assert k * k * (length * length) == maxRadius * maxRadius;
      assert 0.0 <= k < 1.0 by {
        assert length > 0.0;
        MulCancel(k, 1.0, length);
      }
    } else {
      assert NormSq(v) <= maxRadius * maxRadius by {
        assert length * length <= maxRadius * length <= maxRadius * maxRadius;
      }
    }
  }

  /** `waveOrigin(vector:maxRadius:)`: an off-dial ghost makes the waves start just beyond the rim. */
  function WaveOrigin(v: Vec2, maxRadius: real, length: real): Vec2
    requires maxRadius >= 0.0
  {
    if length <= maxRadius then v else Scale(v, (maxRadius * 1.1) / length)
  }

  /**
   * A vector inside the dial is the wave origin itself; one outside is
   * rescaled, along its own direction, to 1.1 times the dial's radius.
   */
  lemma WaveOriginSpec(v: Vec2, maxRadius: real, length: real)
    requires IsLength(v, length) && maxRadius >= 0.0
    ensures length <= maxRadius ==> WaveOrigin(v, maxRadius, length) == v
    ensures length > maxRadius ==>
      NormSq(WaveOrigin(v, maxRadius, length)) == (1.1 * maxRadius) * (1.1 * maxRadius) &&
      exists k :: k >= 0.0 && WaveOrigin(v, maxRadius, length) == Scale(v, k)
  {
    if length > maxRadius {
      var k := (maxRadius * 1.1) / length;
      NormSqScale(v, k);
      assert k * length == 1.1 * maxRadius;
      assert k * k * (length * length) == (1.1 * maxRadius) * (1.1 * maxRadius);
    }
  }

  /** The sprite's opacity, scale and tint (true = green) on the radar. */
  datatype SpriteLook = SpriteLook(opacity: real, scale: real, green: bool)

  /** A ghost within radar range is drawn green at 0.9 opacity and full size; beyond, it is hidden and shrunk. */
  function Sprite(vectorMeters: real, maxRange: real): (s: SpriteLook)
    ensures vectorMeters <= maxRange <==> s.opacity > 0.0
    ensures s.opacity > 0.0 ==> s == SpriteLook(0.9, 1.0, true)
    ensures s.opacity == 0.0 ==> s == SpriteLook(0.0, 0.75, false)
  {
    var inRange := vectorMeters <= maxRange;
    SpriteLook(if inRange then 0.9 else 0.0, if inRange then 1.0 else 0.75, inRange)
  }

  // ---------------------------------------------------------------------
  // Angles
  // ---------------------------------------------------------------------

  /** Rounding toward zero. */
  function Truncate(x: real): (t: int)
    ensures x >= 0.0 ==> t as real <= x < t as real + 1.0
    ensures x < 0.0 ==> t as real - 1.0 < x <= t as real
  {
    if x >= 0.0 then x.Floor else -((-x).Floor)
  }

  lemma MulMonotone(a: real, b: real, m: real)
    requires a <= b && m > 0.0
    ensures a * m <= b * m
    ensures a < b ==> a * m < b * m
  {
    assert b * m - a * m == (b - a) * m;
  }

  lemma MulCancel(a: real, b: real, m: real)
    requires m > 0.0 && a * m < b * m
    ensures a < b
  {
    if a >= b {
      MulMonotone(b, a, m);
    }
  }

  /** The quotient `x / m` rounded toward zero. */
  function TruncatedQuotient(x: real, m: real): int
    requires m > 0.0
  {
    Truncate(x / m)
  }

  /** Multiplying back by `m` keeps `x` between the multiples of two consecutive whole numbers around `x / m`. */
  lemma ScaleBetween(x: real, q: real, m: real)
    requires m > 0.0 && q <= x / m < q + 1.0
    ensures q * m <= x < q * m + m
    ensures q < x / m ==> q * m < x
  {
    var y := x / m;
    assert y * m == x;
    MulMonotone(q, y, m);
    MulMonotone(y, q + 1.0, m);
    calc {
      x;
    ==
      y * m;
    <
      (q + 1.0) * m;
    ==
      q * m + m;
    }
    calc {
      q * m;
    <=
      y * m;
    ==
      x;
    }
    if q < y {
      calc {
        q * m;
      <
        y * m;
      ==
        x;
      }
    }
  }

  /** `m` whole multiples of the truncated quotient lie within one `m` of `x`, on the side of zero. */
  lemma TruncatedQuotientBounds(x: real, m: real)
    requires m > 0.0
    ensures x >= 0.0 ==> TruncatedQuotient(x, m) as real * m <= x < TruncatedQuotient(x, m) as real * m + m
    ensures x < 0.0 ==> TruncatedQuotient(x, m) as real * m - m < x <= TruncatedQuotient(x, m) as real * m
  {
    var q := TruncatedQuotient(x, m) as real;
    if x >= 0.0 {
      assert x / m >= 0.0;
      ScaleBetween(x, q, m);
    } else {
      assert x / m < 0.0;
      if x / m == q {
        assert (x / m) * m == x;
      } else {
        ScaleBetween(x, q - 1.0, m);
        assert (q - 1.0) * m == q * m - m;
        assert (q - 1.0) * m + m == q * m;
      }
    }
  }

  /**
   * Swift's `truncatingRemainder(dividingBy:)` for a positive divisor, in
   * exact arithmetic: a whole number of `m` taken away from `x`, leaving
   * a remainder with the sign of `x` and smaller than `m` in size.
   */
  function TruncatingRemainder(x: real, m: real): (r: real)
    requires m > 0.0
    ensures x >= 0.0 ==> 0.0 <= r < m
    ensures x < 0.0 ==> -m < r <= 0.0
    ensures r == x - TruncatedQuotient(x, m) as real * m
  {
    TruncatedQuotientBounds(x, m);
    x - TruncatedQuotient(x, m) as real * m
  }

  /** The `wrappedDegrees` property: an angle in degrees brought into [0, 360). */
  function WrappedDegrees(x: real): real
  {
    var normalized := TruncatingRemainder(x, 360.0);
    if normalized < 0.0 then normalized + 360.0 else normalized
  }

  /** The number of whole turns that `WrappedDegrees` takes away from `x`. */
  function WrapTurns(x: real): int
  {
    var q := TruncatedQuotient(x, 360.0);
    if TruncatingRemainder(x, 360.0) < 0.0 then q - 1 else q
  }

  /** The wrapped angle lies in [0, 360), differs from the input by whole turns, and angles already in range are unchanged. */
  lemma WrappedDegreesSpec(x: real)
    ensures 0.0 <= WrappedDegrees(x) < 360.0
    ensures WrappedDegrees(x) == x - WrapTurns(x) as real * 360.0
    ensures 0.0 <= x < 360.0 ==> WrapTurns(x) == 0 && WrappedDegrees(x) == x
  {
    var k := WrapTurns(x);
    assert WrappedDegrees(x) == x - k as real * 360.0;
    if 0.0 <= x < 360.0 {
      assert -360.0 < k as real * 360.0 < 360.0;
    }
  }

  /** The compass heading in use: the true heading when valid (non-negative), else the magnetic one. */
  function HeadingDegrees(trueHeading: real, magneticHeading: real): real
  {
    if trueHeading >= 0.0 then trueHeading else magneticHeading
  }

  /** The ghost's bearing relative to where the user faces, as used by `offsetVector`. */
  function RelativeBearing(bearingDegrees: real, trueHeading: real, magneticHeading: real): real
  {
    WrappedDegrees(bearingDegrees - HeadingDegrees(trueHeading, magneticHeading))
  }

  /** The relative bearing is an angle in [0, 360), and 0 when the ghost lies straight ahead. */
  lemma RelativeBearingSpec(bearingDegrees: real, trueHeading: real, magneticHeading: real)
    ensures 0.0 <= RelativeBearing(bearingDegrees, trueHeading, magneticHeading) < 360.0
    ensures bearingDegrees == HeadingDegrees(trueHeading, magneticHeading) ==> RelativeBearing(bearingDegrees, trueHeading, magneticHeading) == 0.0
  {
    WrappedDegreesSpec(bearingDegrees - HeadingDegrees(trueHeading, magneticHeading));
  }

  /**
   * The relative bearing is 0 exactly when the bearing and the heading in
   * use differ by whole turns: any whole number of turns gives 0, and 0
   * means the difference is the whole number of turns that the wrap takes
   * away.
   */
  lemma RelativeBearingZero(bearingDegrees: real, trueHeading: real, magneticHeading: real, turns: int)
    ensures bearingDegrees - HeadingDegrees(trueHeading, magneticHeading) == 360.0 * turns as real ==>
      RelativeBearing(bearingDegrees, trueHeading, magneticHeading) == 0.0
    ensures RelativeBearing(bearingDegrees, trueHeading, magneticHeading) == 0.0 ==>
      bearingDegrees - HeadingDegrees(trueHeading, magneticHeading) == 360.0 * WrapTurns(bearingDegrees - HeadingDegrees(trueHeading, magneticHeading)) as real
  {
    var x := bearingDegrees - HeadingDegrees(trueHeading, magneticHeading);
    var t := WrapTurns(x);
    WrappedDegreesSpec(x);
    if x == 360.0 * turns as real {
      assert WrappedDegrees(x) == 360.0 * (turns - t) as real;
      NoPartialTurn(turns - t);
    }
  }

  /** A whole number of turns inside [0, 360) is no turn at all. */
  lemma NoPartialTurn(d: int)
    requires 0.0 <= 360.0 * d as real < 360.0
    ensures d == 0
  {
  }
}
