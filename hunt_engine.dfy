/**
 * The AR capture mini-game's engine (`ARHuntEngine` in
 * GhostbusterQuest/ARHuntView.swift): a target that orbits until a beam
 * hits it, beams fired at a fixed interval while the screen is held, and a
 * two-stage catch animation that ends in a completion call.
 *
 * RealityKit is outside the model. Each tick's geometry arrives as inputs:
 * for every projectile in flight, its distance to the target and its
 * distance from the world anchor after it has been moved; the target's
 * position is the value `freezeTarget` would snapshot. The two delayed
 * stages of the catch run on the main queue, modelled as a `MainQueue`
 * object that holds the stages not yet run and counts, for every
 * `performCatch` call, how often its completion has been called.
 */
module HuntEngine {

  import opened Common

  /** `fireInterval`: the least time between two shots, in seconds. */
  const FireInterval: real := 0.02
  /** `hitThreshold`: a projectile at most this far from the target hits it. */
  const HitThreshold: real := 0.14
  /** `maxDistance`: a projectile further than this from the anchor is dropped. */
  const MaxDistance: real := 20.0
  /** A projectile older than this many seconds is dropped. */
  const Lifetime: real := 3.0

  datatype Position = Position(x: real, y: real, z: real)

  /** A projectile in flight: an identity standing for its entity, and the engine time at which it was fired. */
  datatype Projectile = Projectile(id: nat, birthTime: real)

  /** What the scene reports about one projectile in one tick, once it has been moved. */
  datatype Sample = Sample(toTarget: real, fromAnchor: real)

  /**
   * The engine's fields. `hasTarget` stands for the target entity
   * (`target != nil`) and `hasView` for the AR view, both set by `attach`;
   * `nextId` numbers the projectiles' entities.
   */
  datatype Engine = Engine(
    time: real,
    isFiring: bool,
    lastFireTime: real,
    isFrozen: bool,
    freezePosition: Option<Position>,
    canCatch: bool,
    isCaptured: bool,
    hasTarget: bool,
    hasView: bool,
    projectiles: seq<Projectile>,
    nextId: nat)

  /** A newly created engine, before `attach`. */
  const Fresh := Engine(0.0, false, 0.0, false, None, false, false, false, false, [], 0)

  // ---------------------------------------------------------------------
  // Freezing the target
  // ---------------------------------------------------------------------

  /** `freezeTarget()`: nothing without a target or once captured; otherwise freeze at the target's position and offer the catch. */
  function AfterFreeze(e: Engine, targetPos: Position): (r: Engine)
    ensures !e.hasTarget || e.isCaptured ==> r == e
    ensures e.hasTarget && !e.isCaptured ==> r.isFrozen && r.canCatch && r.freezePosition == Some(targetPos)
    ensures r.(isFrozen := e.isFrozen, canCatch := e.canCatch, freezePosition := e.freezePosition) == e
  {
    if !e.hasTarget || e.isCaptured then e
    else e.(isFrozen := true, freezePosition := Some(targetPos), canCatch := true)
  }

  // ---------------------------------------------------------------------
  // Moving and culling projectiles
  // ---------------------------------------------------------------------

  /** The projectile is within hit range of the target. */
  predicate Near(s: Sample)
  {
    s.toTarget <= HitThreshold
  }

  /** The projectile is too far from the anchor. */
  predicate TooFar(s: Sample)
  {
    s.fromAnchor > MaxDistance
  }

  /** The projectile's age, `time - birthTime`, is over the lifetime (an age of exactly 3 s is not). */
  predicate Expired(e: Engine, p: Projectile)
  {
    e.time - p.birthTime > Lifetime
  }

  /** The state of `updateProjectiles`'s loop: the engine's fields and the projectiles kept so far. */
  datatype Sweep = Sweep(engine: Engine, alive: seq<Projectile>)

  /**
   * The loop over `projectiles` after its first `n` rounds: a projectile
   * near the target while the engine is not frozen is removed and freezes
   * the target; otherwise one too far away or too old is removed; any other
   * is kept.
   */
  function SweepUpTo(e: Engine, samples: seq<Sample>, targetPos: Position, n: nat): Sweep
    requires |samples| == |e.projectiles| && n <= |e.projectiles|
  {
    if n == 0 then Sweep(e, [])
    else
      var prev := SweepUpTo(e, samples, targetPos, n - 1);
      var p := e.projectiles[n - 1];
      var s := samples[n - 1];
      if !prev.engine.isFrozen && Near(s) then Sweep(AfterFreeze(prev.engine, targetPos), prev.alive)
      else if TooFar(s) || Expired(e, p) then prev
      else Sweep(prev.engine, prev.alive + [p])
  }

  /** `updateProjectiles(delta:)`: nothing without a target; otherwise the projectiles kept by the loop replace the list. */
  function AfterUpdate(e: Engine, samples: seq<Sample>, targetPos: Position): Engine
    requires |samples| == |e.projectiles|
  {
    if !e.hasTarget then e
    else
      var sweep := SweepUpTo(e, samples, targetPos, |e.projectiles|);
      sweep.engine.(projectiles := sweep.alive)
  }

  /** The engine was frozen when the loop reached projectile `i`. */
  predicate FrozenBefore(e: Engine, samples: seq<Sample>, targetPos: Position, i: nat)
    requires |samples| == |e.projectiles| && i <= |e.projectiles|
  {
    SweepUpTo(e, samples, targetPos, i).engine.isFrozen
  }

  /** Projectile `i` registers a hit: it is near the target and the engine was not yet frozen. */
  predicate HitAt(e: Engine, samples: seq<Sample>, targetPos: Position, i: nat)
    requires |samples| == |e.projectiles| && i < |e.projectiles|
  {
    !FrozenBefore(e, samples, targetPos, i) && Near(samples[i])
  }

  /** Projectile `i` is kept: it did not hit, is not too far and has not expired. */
  predicate Survives(e: Engine, samples: seq<Sample>, targetPos: Position, i: nat)
    requires |samples| == |e.projectiles|
  {
    i < |e.projectiles| &&
    !HitAt(e, samples, targetPos, i) && !TooFar(samples[i]) && !Expired(e, e.projectiles[i])
  }

  /**
   * During the loop the engine is frozen exactly when it was frozen before
   * the tick, or it has a target, is not captured and an earlier
   * projectile was near the target; only the freezing fields change, and a
   * freeze during the loop records the target's position and offers the catch.
   */
  lemma {:induction false} SweepFrozen(e: Engine, samples: seq<Sample>, targetPos: Position, n: nat)
    requires |samples| == |e.projectiles| && n <= |e.projectiles|
    ensures var s := SweepUpTo(e, samples, targetPos, n).engine;
      (s.isFrozen <==> e.isFrozen || (e.hasTarget && !e.isCaptured && exists k :: 0 <= k < n && Near(samples[k]))) &&
      s.(isFrozen := e.isFrozen, canCatch := e.canCatch, freezePosition := e.freezePosition) == e &&
      (s.isFrozen && !e.isFrozen ==> s.canCatch && s.freezePosition == Some(targetPos)) &&
      (e.isFrozen || !e.hasTarget || e.isCaptured ==> s == e)
  {
    if n > 0 {
      SweepFrozen(e, samples, targetPos, n - 1);
      if Near(samples[n - 1]) {
        assert exists k :: 0 <= k < n && Near(samples[k]);
      }
      if exists k :: 0 <= k < n && Near(samples[k]) {
        var k :| 0 <= k < n && Near(samples[k]);
        if k < n - 1 {
          assert exists j :: 0 <= j < n - 1 && Near(samples[j]);
        }
      }
    }
  }

  /** The projectiles kept by the loop's first `n` rounds are those among the first `n` that survive, in their order. */
  lemma {:induction false} SweepAlive(e: Engine, samples: seq<Sample>, targetPos: Position, n: nat)
    requires |samples| == |e.projectiles| && n <= |e.projectiles|
    ensures SweepUpTo(e, samples, targetPos, n).alive == FilterIndices(e.projectiles[..n], (i: nat) => Survives(e, samples, targetPos, i))
  {
    if n > 0 {
      SweepAlive(e, samples, targetPos, n - 1);
      assert e.projectiles[..n][..n - 1] == e.projectiles[..n - 1];
    }
  }

  /**
   * After `updateProjectiles`, the projectiles are exactly those that
   * survive, in their original order; projectile `i` survives iff it is
   * not a hit, is at most 20 from the anchor and at most 3 s old, and it
   * is a hit iff it is near the target while the engine is not frozen,
   * that is, the engine was not frozen before the tick and, if it has a
   * target and is not captured, no earlier projectile was near the target.
   */
  lemma SurvivorsSpec(e: Engine, samples: seq<Sample>, targetPos: Position)
    requires |samples| == |e.projectiles| && e.hasTarget
    ensures AfterUpdate(e, samples, targetPos).projectiles == FilterIndices(e.projectiles, (i: nat) => Survives(e, samples, targetPos, i))
    ensures forall i :: 0 <= i < |e.projectiles| ==>
      (Survives(e, samples, targetPos, i) <==>
        !HitAt(e, samples, targetPos, i) && samples[i].fromAnchor <= MaxDistance && e.time - e.projectiles[i].birthTime <= Lifetime)
    ensures forall i :: 0 <= i < |e.projectiles| ==>
      (HitAt(e, samples, targetPos, i) <==>
        Near(samples[i]) && !e.isFrozen && !(!e.isCaptured && exists k :: 0 <= k < i && Near(samples[k])))
  {
    SweepAlive(e, samples, targetPos, |e.projectiles|);
    assert e.projectiles[..|e.projectiles|] == e.projectiles;
    forall i | 0 <= i < |e.projectiles|
      ensures HitAt(e, samples, targetPos, i) <==>
        Near(samples[i]) && !e.isFrozen && !(!e.isCaptured && exists k :: 0 <= k < i && Near(samples[k]))
    {
      SweepFrozen(e, samples, targetPos, i);
    }
  }

  /**
   * After a tick's update the engine is frozen iff it was frozen before or
   * some projectile hit; a freeze is never undone; a captured engine's
   * freezing fields do not change; time, firing, capture and the shot
   * bookkeeping are untouched.
   */
  lemma UpdateFreezes(e: Engine, samples: seq<Sample>, targetPos: Position)
    requires |samples| == |e.projectiles|
    ensures var r := AfterUpdate(e, samples, targetPos);
      (r.isFrozen <==> e.isFrozen || (e.hasTarget && !e.isCaptured && exists k :: 0 <= k < |samples| && Near(samples[k]))) &&
      (e.isCaptured || e.isFrozen ==> r.isFrozen == e.isFrozen && r.canCatch == e.canCatch && r.freezePosition == e.freezePosition) &&
      (r.isFrozen && !e.isFrozen ==> r.canCatch && r.freezePosition == Some(targetPos)) &&
      r.(isFrozen := e.isFrozen, canCatch := e.canCatch, freezePosition := e.freezePosition, projectiles := e.projectiles) == e
  {
    if e.hasTarget {
      SweepFrozen(e, samples, targetPos, |e.projectiles|);
    }
  }

  /** Once frozen, no projectile is a hit: each one is kept unless it is too far or too old. */
  lemma FrozenMeansNoHits(e: Engine, samples: seq<Sample>, targetPos: Position, i: nat)
    requires |samples| == |e.projectiles| && i < |e.projectiles|
    requires e.isFrozen
    ensures !HitAt(e, samples, targetPos, i)
    ensures Survives(e, samples, targetPos, i) <==> !TooFar(samples[i]) && !Expired(e, e.projectiles[i])
  {
    SweepFrozen(e, samples, targetPos, i);
  }

  /** After the first hit in a tick, no later projectile of the same tick is a hit. */
  lemma AtMostOneHit(e: Engine, samples: seq<Sample>, targetPos: Position, i: nat, j: nat)
    requires |samples| == |e.projectiles| && i < j < |e.projectiles|
    requires HitAt(e, samples, targetPos, i) && e.hasTarget && !e.isCaptured
    ensures !HitAt(e, samples, targetPos, j)
  {
    SweepFrozen(e, samples, targetPos, i);
    SweepFrozen(e, samples, targetPos, j);
  }

  // ---------------------------------------------------------------------
  // The display-link tick
  // ---------------------------------------------------------------------

  /** `shootBeam()`: with a view, one projectile born now is appended; without one, nothing. */
  function AfterShot(e: Engine): (r: Engine)
    ensures !e.hasView ==> r == e
    ensures e.hasView ==> r.projectiles == e.projectiles + [Projectile(e.nextId, e.time)] && r.nextId == e.nextId + 1
    ensures r.(projectiles := e.projectiles, nextId := e.nextId) == e
  {
    if !e.hasView then e
    else e.(projectiles := e.projectiles + [Projectile(e.nextId, e.time)], nextId := e.nextId + 1)
  }

  /** The fire gate: firing, and at least `fireInterval` since the last shot. */
  predicate GateOpen(e: Engine)
  {
    e.isFiring && e.time - e.lastFireTime >= FireInterval
  }

  /**
   * `stepOrbit(link:)` as far as the engine's fields go: advance the clock
   * by the frame's duration, update the projectiles, and only then, when
   * there is a target and the gate is open, shoot and reset `lastFireTime`
   * to now. The target's own motion is outside the model.
   */
  function AfterTick(e: Engine, duration: real, samples: seq<Sample>, targetPos: Position): Engine
    requires |samples| == |e.projectiles|
  {
    var advanced := AfterUpdate(e.(time := e.time + duration), samples, targetPos);
    if !advanced.hasTarget then advanced
    else if GateOpen(advanced) then AfterShot(advanced).(lastFireTime := advanced.time)
    else advanced
  }

  /**
   * A tick adds exactly the frame's duration to the clock; the projectiles
   * in flight are updated before the gate is checked, so a projectile
   * fired in this tick is not among those updated; at most one projectile
   * is fired, born now and appended after the survivors; a shot happens
   * only with a target, a view and an open gate, at least `fireInterval`
   * after the previous one, and then `lastFireTime` becomes now. With a
   * target and an open gate `lastFireTime` is reset even without a view.
   */
  lemma TickSpec(e: Engine, duration: real, samples: seq<Sample>, targetPos: Position)
    requires |samples| == |e.projectiles|
    ensures var r := AfterTick(e, duration, samples, targetPos);
      var moved := e.(time := e.time + duration);
      var survivors := AfterUpdate(moved, samples, targetPos).projectiles;
      var gate := e.hasTarget && e.isFiring && r.time - e.lastFireTime >= FireInterval;
      var fired := gate && e.hasView;
      r.time == e.time + duration &&
      r.isFiring == e.isFiring && r.isCaptured == e.isCaptured &&
      r.lastFireTime == (if gate then r.time else e.lastFireTime) &&
      |r.projectiles| == |survivors| + (if fired then 1 else 0) &&
      r.projectiles[..|survivors|] == survivors &&
      (fired ==> r.projectiles[|survivors|] == Projectile(e.nextId, r.time) && r.nextId == e.nextId + 1) &&
      (!fired ==> r.nextId == e.nextId)
  {
    var moved := e.(time := e.time + duration);
    UpdateFreezes(moved, samples, targetPos);
  }

  /** Freezing and capture are never undone by a tick. */
  lemma TickNeverThaws(e: Engine, duration: real, samples: seq<Sample>, targetPos: Position)
    requires |samples| == |e.projectiles|
    ensures var r := AfterTick(e, duration, samples, targetPos);
      (e.isFrozen ==> r.isFrozen && r.freezePosition == e.freezePosition) && r.isCaptured == e.isCaptured
  {
    var moved := e.(time := e.time + duration);
    UpdateFreezes(moved, samples, targetPos);
  }

  /**
   * The projectiles in flight carry increasing ids below `nextId` and were
   * all born no later than now.
   */
  predicate Ordered(e: Engine)
  {
    (forall i, j :: 0 <= i < j < |e.projectiles| ==> e.projectiles[i].id < e.projectiles[j].id) &&
    (forall i :: 0 <= i < |e.projectiles| ==> e.projectiles[i].id < e.nextId && e.projectiles[i].birthTime <= e.time)
  }

  /** The projectiles kept by the loop are a subsequence of those in flight: in order, each id below the next one examined. */
  lemma {:induction false} SweepKeepsOrder(e: Engine, samples: seq<Sample>, targetPos: Position, n: nat)
    requires |samples| == |e.projectiles| && n <= |e.projectiles| && Ordered(e)
    ensures forall i, j :: 0 <= i < j < |SweepUpTo(e, samples, targetPos, n).alive| ==>
      SweepUpTo(e, samples, targetPos, n).alive[i].id < SweepUpTo(e, samples, targetPos, n).alive[j].id
    ensures forall i :: 0 <= i < |SweepUpTo(e, samples, targetPos, n).alive| ==>
      SweepUpTo(e, samples, targetPos, n).alive[i] in e.projectiles[..n]
  {
    if n > 0 {
      SweepKeepsOrder(e, samples, targetPos, n - 1);
      var alive := SweepUpTo(e, samples, targetPos, n).alive;
      var prev := SweepUpTo(e, samples, targetPos, n - 1).alive;
      var p := e.projectiles[n - 1];
      assert e.projectiles[..n] == e.projectiles[..n - 1] + [p];
      forall i | 0 <= i < |prev|
        ensures prev[i].id < p.id
      {
        assert prev[i] in e.projectiles[..n - 1];
        var k :| 0 <= k < n - 1 && e.projectiles[k] == prev[i];
      }
      assert alive == prev || alive == prev + [p];
    }
  }

  /** The per-tick update keeps the projectiles ordered: survivors keep their order, time and ids stay. */
  lemma UpdateKeepsOrdered(e: Engine, samples: seq<Sample>, targetPos: Position)
    requires |samples| == |e.projectiles| && Ordered(e)
    ensures Ordered(AfterUpdate(e, samples, targetPos))
  {
    var updated := AfterUpdate(e, samples, targetPos);
    UpdateFreezes(e, samples, targetPos);
    if e.hasTarget {
      SweepKeepsOrder(e, samples, targetPos, |e.projectiles|);
      assert e.projectiles[..|e.projectiles|] == e.projectiles;
      forall i | 0 <= i < |updated.projectiles|
        ensures updated.projectiles[i].id < updated.nextId && updated.projectiles[i].birthTime <= updated.time
      {
        assert updated.projectiles[i] in e.projectiles;
        var k :| 0 <= k < |e.projectiles| && e.projectiles[k] == updated.projectiles[i];
      }
    }
  }

  /** A shot keeps the projectiles ordered: the new one has the largest id and is born now. */
  lemma ShotKeepsOrdered(e: Engine)
    requires Ordered(e)
    ensures Ordered(AfterShot(e).(lastFireTime := e.time))
  {
    if e.hasView {
      assert AfterShot(e).projectiles == e.projectiles + [Projectile(e.nextId, e.time)];
    }
  }

  /** With a duration that is not negative, a tick keeps the projectiles ordered by id and born no later than now. */
  lemma TickKeepsOrdered(e: Engine, duration: real, samples: seq<Sample>, targetPos: Position)
    requires |samples| == |e.projectiles| && Ordered(e) && duration >= 0.0
    ensures Ordered(AfterTick(e, duration, samples, targetPos))
  {
    var moved := e.(time := e.time + duration);
    assert Ordered(moved);
    UpdateKeepsOrdered(moved, samples, targetPos);
    ShotKeepsOrdered(AfterUpdate(moved, samples, targetPos));
  }

  // ---------------------------------------------------------------------
  // Catching
  // ---------------------------------------------------------------------

  /**
   * A stage of the catch animation waiting on the main queue, with the
   * number of the `performCatch` call it belongs to: the end of the
   * scale-up (0.23 s after the call) and the end of the flight into the
   * camera (0.36 s after that).
   */
  datatype Stage = ScaleUpDone(call: nat) | FlightDone(call: nat)

  /** The main queue: stages not yet run, and how often each call's completion has been called. */
  datatype Dispatch = Dispatch(pending: seq<Stage>, completions: seq<nat>)

  datatype Catch = Catch(engine: Engine, queue: Dispatch)

  /**
   * `performCatch(completion:)`, as call number `|completions|`: without a
   * target or once captured, the completion is called at once and the
   * engine is left alone; otherwise the engine is captured, stops offering
   * the catch and stops firing, and the first stage is queued.
   */
  function AfterCatch(e: Engine, q: Dispatch): (r: Catch)
    ensures |r.queue.completions| == |q.completions| + 1
    ensures r.queue.completions[..|q.completions|] == q.completions
    ensures !e.hasTarget || e.isCaptured ==> r.engine == e && r.queue.pending == q.pending && r.queue.completions[|q.completions|] == 1
    ensures e.hasTarget && !e.isCaptured ==>
      r.engine == e.(isCaptured := true, canCatch := false, isFiring := false) &&
      r.queue.pending == q.pending + [ScaleUpDone(|q.completions|)] && r.queue.completions[|q.completions|] == 0
  {
    var call := |q.completions|;
    if !e.hasTarget || e.isCaptured then Catch(e, Dispatch(q.pending, q.completions + [1]))
    else Catch(e.(isCaptured := true, canCatch := false, isFiring := false), Dispatch(q.pending + [ScaleUpDone(call)], q.completions + [0]))
  }

  /** Every queued stage belongs to a call already made. */
  predicate CallsKnown(q: Dispatch)
  {
    forall i :: 0 <= i < |q.pending| ==> q.pending[i].call < |q.completions|
  }

  /** One more completion call for call `c`. */
  function Completed(completions: seq<nat>, c: nat): seq<nat>
    requires c < |completions|
  {
    completions[c := completions[c] + 1]
  }

  /**
   * The main queue runs the stage at position `k` (whichever deadline comes
   * first). The first stage calls the completion at once when the engine or
   * its target is gone, and otherwise starts the flight and queues the
   * second stage; the second stage removes the target and calls the completion.
   */
  function AfterStage(q: Dispatch, k: nat, engineAlive: bool): (r: Dispatch)
    requires CallsKnown(q) && k < |q.pending|
    ensures CallsKnown(r) && |r.completions| == |q.completions|
  {
    var rest := q.pending[..k] + q.pending[k + 1..];
    match q.pending[k]
    case ScaleUpDone(c) =>
      if engineAlive then Dispatch(rest + [FlightDone(c)], q.completions)
      else Dispatch(rest, Completed(q.completions, c))
    case FlightDone(c) => Dispatch(rest, Completed(q.completions, c))
  }

  /** The number of queued stages of call `c`. */
  function PendingFor(pending: seq<Stage>, c: nat): nat
  {
    if |pending| == 0 then 0
    else PendingFor(pending[..|pending| - 1], c) + (if pending[|pending| - 1].call == c then 1 else 0)
  }

  /** The work left on the queue: two steps for a first stage, one for a second. */
  function Work(pending: seq<Stage>): nat
  {
    if |pending| == 0 then 0
    else Work(pending[..|pending| - 1]) + (if pending[|pending| - 1].ScaleUpDone? then 2 else 1)
  }

  lemma {:induction false} PendingForAppend(a: seq<Stage>, b: seq<Stage>, c: nat)
    ensures PendingFor(a + b, c) == PendingFor(a, c) + PendingFor(b, c)
    ensures Work(a + b) == Work(a) + Work(b)
    decreases |b|
  {
    if |b| == 0 {
      assert a + b == a;
    } else {
      PendingForAppend(a, b[..|b| - 1], c);
      assert (a + b)[..|a + b| - 1] == a + b[..|b| - 1];
      assert (a + b)[|a + b| - 1] == b[|b| - 1];
    }
  }

  /** Taking the stage at position `k` out of the queue. */
  lemma PendingForRemove(pending: seq<Stage>, k: nat, c: nat)
    requires k < |pending|
    ensures PendingFor(pending, c) == PendingFor(pending[..k] + pending[k + 1..], c) + (if pending[k].call == c then 1 else 0)
    ensures Work(pending) == Work(pending[..k] + pending[k + 1..]) + (if pending[k].ScaleUpDone? then 2 else 1)
  {
    assert pending == pending[..k] + [pending[k]] + pending[k + 1..];
    PendingForAppend(pending[..k] + [pending[k]], pending[k + 1..], c);
    PendingForAppend(pending[..k], [pending[k]], c);
    PendingForAppend(pending[..k], pending[k + 1..], c);
    assert [pending[k]][..0] == [];
  }

  /**
   * Every call's completion has been called, or is still owed by exactly
   * one queued stage, and not both: each completion runs exactly once.
   */
  predicate ExactlyOnce(q: Dispatch)
  {
    CallsKnown(q) &&
    forall c :: 0 <= c < |q.completions| ==> q.completions[c] + PendingFor(q.pending, c) == 1
  }

  /** `performCatch` keeps every completion owed exactly once, its own included. */
  lemma CatchKeepsExactlyOnce(e: Engine, q: Dispatch)
    requires ExactlyOnce(q)
    ensures ExactlyOnce(AfterCatch(e, q).queue)
  {
    var r := AfterCatch(e, q).queue;
    var call := |q.completions|;
    if e.hasTarget && !e.isCaptured {
      forall c | 0 <= c < |r.completions|
        ensures r.completions[c] + PendingFor(r.pending, c) == 1
      {
        PendingForAppend(q.pending, [ScaleUpDone(call)], c);
        assert [ScaleUpDone(call)][..0] == [];
        if c == call {
          PendingForNone(q.pending, call);
        }
      }
    } else {
      PendingForNone(q.pending, call);
    }
  }

  /** No queued stage belongs to a call that has not been made. */
  lemma {:induction false} PendingForNone(pending: seq<Stage>, c: nat)
    requires forall i :: 0 <= i < |pending| ==> pending[i].call < c
    ensures PendingFor(pending, c) == 0
    decreases |pending|
  {
    if |pending| > 0 {
      PendingForNone(pending[..|pending| - 1], c);
    }
  }

  /** Running a stage keeps every completion owed exactly once, and leaves less work on the queue. */
  lemma StageKeepsExactlyOnce(q: Dispatch, k: nat, engineAlive: bool)
    requires ExactlyOnce(q) && k < |q.pending|
    ensures ExactlyOnce(AfterStage(q, k, engineAlive))
    ensures Work(AfterStage(q, k, engineAlive).pending) < Work(q.pending)
  {
    var r := AfterStage(q, k, engineAlive);
    var rest := q.pending[..k] + q.pending[k + 1..];
    var s := q.pending[k];
    PendingForRemove(q.pending, k, s.call);
    forall c | 0 <= c < |r.completions|
      ensures r.completions[c] + PendingFor(r.pending, c) == 1
    {
      PendingForRemove(q.pending, k, c);
      if s.ScaleUpDone? && engineAlive {
        PendingForAppend(rest, [FlightDone(s.call)], c);
        assert [FlightDone(s.call)][..0] == [];
      }
    }
    if s.ScaleUpDone? && engineAlive {
      PendingForAppend(rest, [FlightDone(s.call)], s.call);
      assert [FlightDone(s.call)][..0] == [];
    }
  }

  /** When the queue is empty, every call's completion has run exactly once. */
  lemma DrainedMeansCompleted(q: Dispatch)
    requires ExactlyOnce(q) && q.pending == []
    ensures forall c :: 0 <= c < |q.completions| ==> q.completions[c] == 1
  {
  }

  // ---------------------------------------------------------------------
  // The objects
  // ---------------------------------------------------------------------

  /** The main dispatch queue, as far as the catch stages go. */
  class MainQueue {
    var pending: seq<Stage>
    var completions: seq<nat>

    function Value(): Dispatch
      reads this
    {
      Dispatch(pending, completions)
    }

    constructor ()
      ensures pending == [] && completions == []
    {
      pending := [];
      completions := [];
    }

    /** Runs the stage at position `k`; whether the engine still exists is an input. */
    method RunStage(k: nat, engineAlive: bool)
      requires CallsKnown(Value()) && k < |pending|
      modifies this
      ensures Value() == AfterStage(old(Value()), k, engineAlive)
    {
      var rest := pending[..k] + pending[k + 1..];
      var stage := pending[k];
      match stage
      case ScaleUpDone(c) =>
        if engineAlive {
          pending := rest + [FlightDone(c)];
        } else {
          pending := rest;
          completions := completions[c := completions[c] + 1];
        }
      case FlightDone(c) =>
        pending := rest;
        completions := completions[c := completions[c] + 1];
    }

    /** Runs queued stages, earliest first, until none is left: then every completion has run exactly once. */
    method RunAll(engineAlive: bool)
      requires ExactlyOnce(Value())
      modifies this
      ensures pending == [] && |completions| == |old(completions)|
      ensures forall c :: 0 <= c < |completions| ==> completions[c] == 1
    {
      while |pending| > 0
        invariant ExactlyOnce(Value()) && |completions| == |old(completions)|
        decreases Work(pending)
      {
        StageKeepsExactlyOnce(Value(), 0, engineAlive);
        RunStage(0, engineAlive);
      }
      DrainedMeansCompleted(Value());
    }
  }

  /** `ARHuntEngine`: the fields the source updates in place. */
  class ARHuntEngine {
    var time: real
    var isFiring: bool
    var lastFireTime: real
    var isFrozen: bool
    var freezePosition: Option<Position>
    var canCatch: bool
    var isCaptured: bool
    var hasTarget: bool
    var hasView: bool
    var projectiles: seq<Projectile>
    var nextId: nat

    function State(): Engine
      reads this
    {
      Engine(time, isFiring, lastFireTime, isFrozen, freezePosition, canCatch, isCaptured, hasTarget, hasView, projectiles, nextId)
    }

    constructor ()
      ensures State() == Fresh
    {
      time := 0.0;
      isFiring := false;
      lastFireTime := 0.0;
      isFrozen := false;
      freezePosition := None;
      canCatch := false;
      isCaptured := false;
      hasTarget := false;
      hasView := false;
      projectiles := [];
      nextId := 0;
    }

    /** `attach(to:)`: keeps the view and sets up the target; the display link then ticks. */
    method Attach()
      modifies this`hasView, this`hasTarget
      ensures hasView && hasTarget
    {
      hasView := true;
      hasTarget := true;
    }

    /** `startFiring()`: sets `isFiring` and nothing else. */
    method StartFiring()
      modifies this`isFiring
      ensures isFiring
    {
      isFiring := true;
    }

    /** `stopFiring()`: clears `isFiring` and nothing else. */
    method StopFiring()
      modifies this`isFiring
      ensures !isFiring
    {
      isFiring := false;
    }

    /** `freezeTarget()`. */
    method FreezeTarget(targetPos: Position)
      modifies this
      ensures State() == AfterFreeze(old(State()), targetPos)
    {
      if !hasTarget || isCaptured {
        return;
      }
      isFrozen := true;
      freezePosition := Some(targetPos);
      canCatch := true;
    }

    /** `shootBeam()`. */
    method ShootBeam()
      modifies this
      ensures State() == AfterShot(old(State()))
    {
      if !hasView {
        return;
      }
      projectiles := projectiles + [Projectile(nextId, time)];
      nextId := nextId + 1;
    }

    /** `updateProjectiles(delta:)`: one pass over the projectiles, collecting the survivors. */
    method UpdateProjectiles(samples: seq<Sample>, targetPos: Position)
      requires |samples| == |projectiles|
      modifies this
      ensures State() == AfterUpdate(old(State()), samples, targetPos)
    {
      if !hasTarget {
        return;
      }
      ghost var start := State();
      var alive: seq<Projectile> := [];
      var i := 0;
      while i < |projectiles|
        invariant 0 <= i <= |projectiles| && projectiles == start.projectiles && time == start.time
        invariant Sweep(State(), alive) == SweepUpTo(start, samples, targetPos, i)
      {
        var p := projectiles[i];
        if !isFrozen && samples[i].toTarget <= HitThreshold {
          FreezeTarget(targetPos);
        } else if samples[i].fromAnchor > MaxDistance || time - p.birthTime > Lifetime {
        } else {
          alive := alive + [p];
        }
        i := i + 1;
      }
      projectiles := alive;
    }

    /** `stepOrbit(link:)` with the frame's duration; the target's motion is outside the model. */
    method StepOrbit(duration: real, samples: seq<Sample>, targetPos: Position)
      requires |samples| == |projectiles|
      modifies this
      ensures State() == AfterTick(old(State()), duration, samples, targetPos)
    {
      ghost var moved := old(State()).(time := old(time) + duration);
      time := time + duration;
      assert State() == moved;
      UpdateProjectiles(samples, targetPos);
      ghost var advanced := State();
      assert advanced == AfterUpdate(moved, samples, targetPos);
      if !hasTarget {
        return;
      }
      if isFiring && time - lastFireTime >= FireInterval {
        ShootBeam();
        assert State() == AfterShot(advanced);
        lastFireTime := time;
      }
    }

    /** `performCatch(completion:)`, whose completion and delayed stages go through `queue`. */
    method PerformCatch(queue: MainQueue)
      modifies this, queue
      ensures Catch(State(), queue.Value()) == AfterCatch(old(State()), old(queue.Value()))
    {
      var call := |queue.completions|;
      if !hasTarget || isCaptured {
        queue.completions := queue.completions + [1];
        return;
      }
      isCaptured := true;
      canCatch := false;
      isFiring := false;
      queue.completions := queue.completions + [0];
      queue.pending := queue.pending + [ScaleUpDone(call)];
    }
  }
}
