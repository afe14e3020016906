/** The module-level state of `src/App.tsx` and what changes it: the four
 *  bodies the game starts with, the `gravSources` and `bodies` registry,
 *  one frame of `GameLoop` and one key press.
 *
 *  `World` holds that state. The host's `Math` functions are its `math`
 *  field; drawing and scheduling are left out (module `Simulation` says
 *  what stands in for them).
 */
module Game {
  import opened Vector
  import opened Simulation

  /** EARTH's position, the center of the cull. */
  const EarthHome := Vector2(375.0, 375.0)

  class World {
    const math: MathLib
    const earth: Body
    const moon: Body
    const lilMoon: Body
    const ship: Body
    /** `gravSources`: the bodies that pull the others. */
    const gravSources: seq<Body>
    /** `bodies`: everything simulated, in order. */
    var bodies: seq<Body>

    /** What every frame and key press keeps: EARTH is the only source,
     *  stays first in the registry, never moves and is never destroyed;
     *  no body is registered twice; the ship is not EARTH and always has a
     *  rotation and a rotation velocity. */
    ghost predicate Valid()
      reads this, bodies, earth, ship
    {
      Lawful(math)
      && gravSources == [earth]
      && |bodies| >= 1 && bodies[0] == earth
      && earth.position == EarthHome && earth.velocity == Zero && !earth.destroyed
      && Distinct(bodies)
      && ship != earth && ship.rotation.Some? && ship.rv.Some?
    }

    /** The constants EARTH, MOON, LIL_MOON and `ship`, and the initial
     *  registry. */
    constructor (m: MathLib)
      requires Lawful(m)
      ensures Valid()
      ensures bodies == [earth, moon, lilMoon, ship] && gravSources == [earth]
      ensures earth.name == Some("EARTH") && earth.color == Some("blue") && earth.mass == 6000000000000000000000000.0
           && earth.radius == 50.0 && earth.isGravSource && earth.rotation.None? && earth.rv.None? && !earth.hasDraw
      ensures moon.name == Some("MOON") && moon.color == Some("grey") && moon.mass == 70000000000000000000000.0
           && moon.radius == 10.0 && moon.position == Vector2(375.0, 100.0) && moon.velocity == Vector2(0.3, 0.0)
           && moon.isGravSource && moon.rotation.None? && moon.rv.None? && !moon.destroyed && !moon.hasDraw
      ensures lilMoon.name == Some("lil moon") && lilMoon.color == Some("green") && lilMoon.mass == 70000000000000000000000.0
           && lilMoon.radius == 2.0 && lilMoon.position == Vector2(375.0, 250.0) && lilMoon.velocity == Vector2(0.6, 0.0)
           && !lilMoon.isGravSource && lilMoon.rotation.None? && lilMoon.rv.None? && !lilMoon.destroyed && !lilMoon.hasDraw
      ensures ship.name == Some("you!") && ship.color == Some("white") && ship.mass == 1000.0
           && ship.radius == 10.0 && ship.position == Vector2(375.0, 600.0) && ship.velocity == Vector2(-0.5, 0.0)
           && ship.rotation == Some(Pi) && ship.rv == Some(0.0)
           && !ship.isGravSource && !ship.destroyed && ship.hasDraw
    {
      math := m;
      var e := new Body(Some("EARTH"), Some("blue"), 6000000000000000000000000.0, 50.0,
                        EarthHome, Zero, None, None, true, false);
      var mo := new Body(Some("MOON"), Some("grey"), 70000000000000000000000.0, 10.0,
                         Vector2(375.0, 100.0), Vector2(0.3, 0.0), None, None, true, false);
      var lm := new Body(Some("lil moon"), Some("green"), 70000000000000000000000.0, 2.0,
                         Vector2(375.0, 250.0), Vector2(0.6, 0.0), None, None, false, false);
      var s := new Body(Some("you!"), Some("white"), 1000.0, 10.0,
                        Vector2(375.0, 600.0), Vector2(-0.5, 0.0), Some(Pi), Some(0.0), false, true);
      earth, moon, lilMoon, ship := e, mo, lm, s;
      gravSources := [e];
      bodies := [e, mo, lm, s];
    }

    /** The keydown handler. The arrow keys left and right turn the ship's
     *  rotation velocity down and up by `TurnStep`; the arrow key up adds
     *  `ThrustScale` times the unit vector of the ship's rotation to its
     *  velocity; the space bar registers a new projectile fired from the
     *  ship at the end of the list. Any other key changes nothing. */
    method KeyDown(key: string)
      requires Valid()
      modifies this, ship
      ensures Valid()
      ensures ship.rv == (if key == "ArrowLeft" then Some(old(ship.rv.value) - TurnStep)
                          else if key == "ArrowRight" then Some(old(ship.rv.value) + TurnStep)
                          else old(ship.rv))
      ensures ship.velocity == (if key == "ArrowUp" then Thrust(math, ship.rotation.value, old(ship.velocity))
                                else old(ship.velocity))
      ensures ship.position == old(ship.position) && ship.rotation == old(ship.rotation)
           && ship.destroyed == old(ship.destroyed)
      ensures key == " " ==>
        |bodies| == |old(bodies)| + 1 && bodies[..|old(bodies)|] == old(bodies)
        && fresh(bodies[|old(bodies)|]) && IsProjectileOf(math, bodies[|old(bodies)|], ship)
      ensures key != " " ==> bodies == old(bodies)
    {
      if key == "ArrowLeft" {
        ship.rv := Some(ship.rv.value - TurnStep);
      }
      if key == "ArrowRight" {
        ship.rv := Some(ship.rv.value + TurnStep);
      }
      if key == "ArrowUp" {
        ship.velocity := Thrust(math, ship.rotation.value, ship.velocity);
      }
      if key == " " {
        var p := new Body.Projectile(math, ship);
        bodies := bodies + [p];
      }
    }

    /** `plotOrbit(ship)` as `GameLoop` calls it, with the default 300 steps
     *  of size 20: the points of the ship's predicted orbit. It changes
     *  nothing (it has no write access at all). */
    method ShipOrbit() returns (orbit: Option<seq<Vector2>>)
      requires Valid()
      ensures orbit == Orbit(math, ship.position, ship.velocity)
    {
      assert Positions(gravSources) == [EarthHome];
      orbit := PlotOrbit(math, ship, gravSources, PlotSteps, PlotStepSize);
    }

    /** The cull at the head of `GameLoop`: the registry keeps, in order,
     *  the bodies that are not destroyed and lie within the cull radius of
     *  EARTH. No body changes. */
    method CullRegistry()
      requires Valid()
      modifies this
      ensures Valid()
      ensures bodies == old(Cull(math, bodies, earth.position))
      ensures forall k :: 0 <= k < |bodies| ==> bodies[k] in old(bodies) && !bodies[k].destroyed
    {
      CullForFrame(math, bodies, earth);
      bodies := Cull(math, bodies, earth.position);
    }

    /** The gravity pass and the move of `GameLoop`. EARTH, the only
     *  source, is never pulled by itself and so stays where it is. Every
     *  other body gets EARTH's pull, is flagged destroyed exactly when it
     *  touches EARTH, and moves by its new velocity whether destroyed or
     *  not; every body turns by its rotation velocity. */
    method MoveBodies()
      requires Valid()
      requires forall k :: 0 <= k < |bodies| ==> !bodies[k].destroyed
      requires NoneAtHome(bodies, earth)
      modifies bodies
      ensures Valid()
      ensures forall k :: 0 <= k < |bodies| ==>
        Stepped(math, EarthHome, bodies[k] == earth, bodies[k].radius + earth.radius,
                Motion(old(bodies[k].position), old(bodies[k].velocity), old(bodies[k].rotation), old(bodies[k].rv)),
                Motion(bodies[k].position, bodies[k].velocity, bodies[k].rotation, bodies[k].rv), bodies[k].destroyed)
    {
      SingleSourceSeparated(math, bodies, earth);
      assert Positions(gravSources) == [EarthHome];
      GravityPass(math, bodies, gravSources);
      Integrate(bodies);
      forall k | 0 <= k < |bodies|
        ensures Stepped(math, EarthHome, bodies[k] == earth, bodies[k].radius + earth.radius,
                        Motion(old(bodies[k].position), old(bodies[k].velocity), old(bodies[k].rotation), old(bodies[k].rv)),
                        Motion(bodies[k].position, bodies[k].velocity, bodies[k].rotation, bodies[k].rv), bodies[k].destroyed)
      {
        SingleSource(math, bodies[k], earth, EarthHome, old(bodies[k].position), old(bodies[k].velocity));
      }
      EarthStays(math, earth.radius + earth.radius, old(earth.rotation), old(earth.rv),
                 Motion(earth.position, earth.velocity, earth.rotation, earth.rv), earth.destroyed);
      if ship in bodies {
        var k :| 0 <= k < |bodies| && bodies[k] == ship;
        assert ship.rotation == Spin(old(ship.rotation), old(ship.rv));
      }
    }

    /** One frame of `GameLoop`, without its drawing: the cull, the ship's
     *  predicted orbit (after the cull, before anything moves), the gravity
     *  and collision pass, the move, and the choice of the bodies to draw:
     *  only the bodies not destroyed are drawn. */
    method GameLoop() returns (orbit: Option<seq<Vector2>>, drawn: seq<Body>)
      requires Valid()
      requires NoneAtHome(Cull(math, bodies, earth.position), earth)
      modifies this, bodies
      ensures Valid()
      ensures bodies == old(Cull(math, bodies, earth.position))
      ensures orbit == old(Orbit(math, ship.position, ship.velocity))
      ensures drawn == Undestroyed(bodies)
    {
      CullRegistry();
      orbit := ShipOrbit();
      assert NoneAtHome(bodies, earth);
      MoveBodies();
      drawn := SelectForDrawing(bodies);
    }
  }

  /** No body other than `earth` sits exactly at EARTH's position, where
   *  the distance the gravity pass divides by would be zero. */
  ghost predicate NoneAtHome(bodies: seq<Body>, earth: Body)
    reads (set b | b in bodies)`position
  {
    forall k :: 0 <= k < |bodies| && bodies[k] != earth ==> bodies[k].position != EarthHome
  }

  /** The path `plotOrbit(ship)` draws for a ship at `pos` moving at
   *  `vel`, with its default 300 steps of size 20 around EARTH alone: the
   *  start point, then the predicted points. None when the prediction
   *  lands on EARTH. */
  function Orbit(m: MathLib, pos: Vector2, vel: Vector2): Option<seq<Vector2>> {
    Prepend([pos], Predict(m, [EarthHome], pos, pos, vel, 0, PlotSteps, PlotStepSize))
  }

  /** Where a body is, how fast it goes, and how it turns. */
  datatype Motion = Motion(position: Vector2, velocity: Vector2, rotation: Option<real>, rv: Option<real>)

  /** What one frame does to a body, from motion `before` to motion `after`
   *  with destroyed flag `destroyed`, when the only source sits at
   *  `center` and the two touch at distance `reach` (the sum of their
   *  radii): the source itself keeps its velocity; any other body was
   *  apart from the center and gains the source's pull. Then the body
   *  moves by its new velocity and turns by its rotation velocity, and it
   *  is destroyed exactly when it is not the source and touched it. */
  ghost predicate Stepped(m: MathLib, center: Vector2, isSource: bool, reach: real,
                          before: Motion, after: Motion, destroyed: bool)
  {
    (isSource ==> after.velocity == before.velocity)
    && (!isSource ==> Apart(m, before.position, center)
                      && after.velocity == Plus(Acceleration(m, before.position, center), before.velocity))
    && after.position == Plus(From(after.velocity), before.position)
    && after.rotation == Spin(before.rotation, before.rv) && after.rv == before.rv
    && destroyed == (!isSource && Magnitude(m, DirBetween(before.position, center)) <= reach)
  }

  /** EARTH, at home and at rest before a frame, is there after it. */
  lemma EarthStays(m: MathLib, reach: real, rotation: Option<real>, rv: Option<real>, after: Motion, destroyed: bool)
    requires Stepped(m, EarthHome, true, reach, Motion(EarthHome, Zero, rotation, rv), after, destroyed)
    ensures after.position == EarthHome && after.velocity == Zero && !destroyed
  {
  }

  /** With a single source `s` at `p`: a body other than `s` is pulled
   *  toward `p` alone and collides exactly when it touches `s`; `s` itself
   *  is neither pulled nor flagged. */
  lemma SingleSource(m: MathLib, b: Body, s: Body, p: Vector2, pos: Vector2, vel: Vector2)
    ensures OtherPositions(b, [s], [p]) == (if b == s then [] else [p])
    ensures Collides(m, b, pos, [s], [p]) == (b != s && Magnitude(m, DirBetween(pos, p)) <= b.radius + s.radius)
    ensures b == s ==> Pulled(m, pos, vel, OtherPositions(b, [s], [p]), 1.0) == vel
    ensures b != s && Apart(m, pos, p) ==>
      AllApart(m, pos, OtherPositions(b, [s], [p]))
      && Pulled(m, pos, vel, OtherPositions(b, [s], [p]), 1.0) == Plus(Acceleration(m, pos, p), vel)
  {
    assert [s][..0] == [] && [p][..0] == [];
    if b != s && Apart(m, pos, p) {
      PulledStep(m, pos, vel, [], p, 1.0);
      MultiplyByOne(Acceleration(m, pos, p));
    }
  }

  /** With a single source, every distance the gravity pass divides by is
   *  non-zero when each body other than the source is apart from it. */
  lemma SingleSourceSeparated(m: MathLib, bodies: seq<Body>, s: Body)
    requires Lawful(m)
    requires forall k :: 0 <= k < |bodies| && bodies[k] != s ==> bodies[k].position != s.position
    ensures Separated(m, bodies, [s])
    ensures forall k :: 0 <= k < |bodies| && bodies[k] != s ==> Apart(m, bodies[k].position, s.position)
  {
    assert Positions([s]) == [s.position];
    forall k | 0 <= k < |bodies|
      ensures AllApart(m, bodies[k].position, OtherPositions(bodies[k], [s], [s.position]))
      ensures bodies[k] != s ==> Apart(m, bodies[k].position, s.position)
    {
      ApartIffDistinct(m, bodies[k].position, s.position);
      SingleSource(m, bodies[k], s, s.position, bodies[k].position, Zero);
    }
  }

  /** A body that is not destroyed and sits at the center of the cull
   *  survives it, and so keeps its place at the head of the list. */
  lemma CullKeepsCenter(m: MathLib, bodies: seq<Body>)
    requires Lawful(m)
    requires |bodies| >= 1 && !bodies[0].destroyed
    ensures Cull(m, bodies, bodies[0].position) == [bodies[0]] + Cull(m, bodies[1..], bodies[0].position)
  {
    var c := bodies[0].position;
    assert Survives(m, bodies[0], c) by {
      assert DirBetween(c, c) == Zero;
      MagnitudeFacts(m, Zero);
    }
  }

  /** Each body the cull keeps was in the list and survives. */
  lemma CullSurvivors(m: MathLib, bodies: seq<Body>, center: Vector2)
    ensures forall k :: 0 <= k < |Cull(m, bodies, center)| ==>
      Cull(m, bodies, center)[k] in bodies && Survives(m, Cull(m, bodies, center)[k], center)
  {
    CullMembers(m, bodies, center);
    forall k | 0 <= k < |Cull(m, bodies, center)|
      ensures Cull(m, bodies, center)[k] in bodies && Survives(m, Cull(m, bodies, center)[k], center)
    {
      assert Cull(m, bodies, center)[k] in Cull(m, bodies, center);
    }
  }

  /** The cull at the head of a frame keeps EARTH first, keeps the
   *  registry free of duplicates, and keeps only registered bodies that
   *  are not destroyed. */
  lemma CullForFrame(m: MathLib, bodies: seq<Body>, earth: Body)
    requires Lawful(m) && |bodies| >= 1 && bodies[0] == earth && !earth.destroyed && Distinct(bodies)
    ensures var c := Cull(m, bodies, earth.position);
      |c| >= 1 && c[0] == earth && Distinct(c)
      && forall k :: 0 <= k < |c| ==> c[k] in bodies && !c[k].destroyed
  {
    CullKeepsCenter(m, bodies);
    CullDistinct(m, bodies, earth.position);
    CullSurvivors(m, bodies, earth.position);
  }
}
