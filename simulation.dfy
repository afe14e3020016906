/** The world step of `src/App.tsx`: the body registry, the gravity model,
 *  the orbit predictor, one frame of `GameLoop` without its drawing, and the
 *  key handler's changes to the ship and the registry.
 *
 *  Bodies are objects, because the source compares them by reference
 *  (`body == gravSource`) and updates their fields in place. Vectors are the
 *  immutable values of module `Vector`. Canvas calls are left out; what the
 *  frame would draw is returned instead: the predicted orbit as a sequence
 *  of points and the list of bodies selected for drawing.
 */
module Simulation {
  import opened Vector

  datatype Option<T> = None | Some(value: T)

  /** `gravity`: the constant of the inverse-square law. */
  const G: real := 50.0
  /** Bodies farther than this from EARTH are culled. */
  const CullRadius: real := 500.0
  /** Change of `rv` per ArrowLeft / ArrowRight press. */
  const TurnStep: real := 0.01
  /** Scale of the thrust impulse per ArrowUp press. */
  const ThrustScale: real := 0.001
  /** Radius of a fired projectile. */
  const ProjectileRadius: real := 2.0
  /** Defaults of `plotOrbit`: number of steps and step size. */
  const PlotSteps: nat := 300
  const PlotStepSize: real := 20.0
  /** The predictor may stop once its loop index exceeds this ... */
  const LoopBackAfter: nat := 20
  /** ... and the copy is strictly closer than this to where it started. */
  const LoopBackRadius: real := 10.0
  /** `Math.PI` as the double the ship's initial rotation holds. */
  const Pi: real := 3.141592653589793

  /** A simulated body. Fields the source reassigns are `var`; the others
   *  never change after creation. `hasDraw` says whether the body carries its
   *  own `draw` behaviour. */
  class Body {
    const name: Option<string>
    const color: Option<string>
    const mass: real
    const radius: real
    var position: Vector2
    var velocity: Vector2
    var rotation: Option<real>
    var rv: Option<real>
    const isGravSource: bool
    var destroyed: bool
    const hasDraw: bool

    constructor (name: Option<string>, color: Option<string>, mass: real, radius: real,
                 position: Vector2, velocity: Vector2, rotation: Option<real>, rv: Option<real>,
                 isGravSource: bool, hasDraw: bool)
      ensures this.name == name && this.color == color && this.mass == mass && this.radius == radius
      ensures this.position == position && this.velocity == velocity
      ensures this.rotation == rotation && this.rv == rv
      ensures this.isGravSource == isGravSource && !this.destroyed && this.hasDraw == hasDraw
    {
      this.name, this.color, this.mass, this.radius := name, color, mass, radius;
      this.position, this.velocity := position, velocity;
      this.rotation, this.rv := rotation, rv;
      this.isGravSource, this.destroyed, this.hasDraw := isGravSource, false, hasDraw;
    }

    /** `{ ...b }`: a shallow copy with every field of `b`. */
    constructor Copy(b: Body)
      ensures SameFields(this, b)
    {
      name, color, mass, radius := b.name, b.color, b.mass, b.radius;
      position, velocity := b.position, b.velocity;
      rotation, rv := b.rotation, b.rv;
      isGravSource, destroyed, hasDraw := b.isGravSource, b.destroyed, b.hasDraw;
    }

    /** The body the space key pushes: the ship's fields, except for the
     *  launch velocity, radius 2, colour "red" and no `draw`. */
    constructor Projectile(m: MathLib, ship: Body)
      requires ship.rotation.Some?
      ensures IsProjectileOf(m, this, ship)
    {
      name, mass := ship.name, ship.mass;
      position, velocity := ship.position, LaunchVelocity(m, ship.rotation.value, ship.velocity);
      rotation, rv := ship.rotation, ship.rv;
      isGravSource, destroyed := ship.isGravSource, ship.destroyed;
      radius, color, hasDraw := ProjectileRadius, Some("red"), false;
    }
  }

  ghost predicate SameFields(a: Body, b: Body)
    reads a, b
  {
    a.name == b.name && a.color == b.color && a.mass == b.mass && a.radius == b.radius
    && a.position == b.position && a.velocity == b.velocity
    && a.rotation == b.rotation && a.rv == b.rv
    && a.isGravSource == b.isGravSource && a.destroyed == b.destroyed && a.hasDraw == b.hasDraw
  }

  /** `p` is what the space key makes of `ship`. */
  ghost predicate IsProjectileOf(m: MathLib, p: Body, ship: Body)
    reads p, ship
    requires ship.rotation.Some?
  {
    p.velocity == LaunchVelocity(m, ship.rotation.value, ship.velocity)
    && p.radius == ProjectileRadius && p.color == Some("red") && !p.hasDraw
    && p.name == ship.name && p.mass == ship.mass && p.position == ship.position
    && p.rotation == ship.rotation && p.rv == ship.rv
    && p.isGravSource == ship.isGravSource && p.destroyed == ship.destroyed
  }

  /** No body occurs twice in the list. */
  ghost predicate Distinct(bodies: seq<Body>) {
    forall i, j :: 0 <= i < |bodies| && 0 <= j < |bodies| && i != j ==> bodies[i] != bodies[j]
  }

  // -----------------------------------------------------------------------
  // Gravity model

  /** The distance `r` from `pos` to `center`, which the source divides by
   *  unguarded, is not zero. Where it is zero the source computes NaN; the
   *  model excludes that case. On a lawful host it means the two positions
   *  differ (`ApartIffDistinct`). */
  predicate Apart(m: MathLib, pos: Vector2, center: Vector2) {
    Magnitude(m, DirBetween(pos, center)) != 0.0
  }

  /** `pos` is apart from every center. */
  predicate AllApart(m: MathLib, pos: Vector2, centers: seq<Vector2>) {
    centers == []
    || (Apart(m, pos, centers[|centers| - 1]) && AllApart(m, pos, centers[..|centers| - 1]))
  }

  /** Being apart from all centers means being apart from each of them, and
   *  from all of any prefix. */
  lemma {:induction false} AllApartPrefix(m: MathLib, pos: Vector2, centers: seq<Vector2>, n: nat)
    requires AllApart(m, pos, centers) && n <= |centers|
    ensures AllApart(m, pos, centers[..n])
    ensures n < |centers| ==> Apart(m, pos, centers[n])
    decreases |centers|
  {
    if n == |centers| {
      assert centers[..n] == centers;
    } else {
      var init := centers[..|centers| - 1];
      AllApartPrefix(m, pos, init, n);
      assert init[..n] == centers[..n];
      if n < |init| {
        assert init[n] == centers[n];
      }
    }
  }

  lemma AllApartMember(m: MathLib, pos: Vector2, centers: seq<Vector2>, c: Vector2)
    requires AllApart(m, pos, centers) && c in centers
    ensures Apart(m, pos, c)
  {
    var k :| 0 <= k < |centers| && centers[k] == c;
    AllApartPrefix(m, pos, centers, k);
  }

  /** The acceleration `Gravity` and the frame's gravity pass give a body at
   *  `pos` toward a source at `center`: `a = G / (r * r)` and
   *  `aVec = gravVec.toUnit().multiply(a)`, the same few lines in both. */
  function Acceleration(m: MathLib, pos: Vector2, center: Vector2): Vector2
    requires Apart(m, pos, center)
  {
    var gravVec := DirBetween(pos, center);
    var r := Magnitude(m, gravVec);
    Multiply(ToUnit(m, gravVec), G / (r * r))
  }

  /** The velocity after pulls toward each of `centers` in turn, each
   *  acceleration scaled by `scale` before it is added. */
  function Pulled(m: MathLib, pos: Vector2, vel: Vector2, centers: seq<Vector2>, scale: real): Vector2
    requires AllApart(m, pos, centers)
  {
    if centers == [] then vel
    else
      var n := |centers| - 1;
      Plus(Multiply(Acceleration(m, pos, centers[n]), scale), Pulled(m, pos, vel, centers[..n], scale))
  }

  /** `Gravity(planet, satelite, scale)`: changes only the satellite's
   *  velocity, by the scaled acceleration toward the planet, and returns
   *  the distance between the two. */
  method Gravity(m: MathLib, planet: Body, satelite: Body, scale: real) returns (r: real)
    requires Apart(m, satelite.position, planet.position)
    modifies satelite`velocity
    ensures r == Magnitude(m, DirBetween(satelite.position, planet.position))
    ensures satelite.velocity
         == Plus(Multiply(Acceleration(m, satelite.position, planet.position), scale), old(satelite.velocity))
  {
    var gravVec := DirBetween(satelite.position, planet.position);
    r := Magnitude(m, gravVec);
    var aVec := Acceleration(m, satelite.position, planet.position);
    satelite.velocity := Plus(Multiply(aVec, scale), satelite.velocity);
  }

  // -----------------------------------------------------------------------
  // Bounds and cull

  /** `WithinBounds(p, center, radius)`. */
  function WithinBounds(m: MathLib, p: Vector2, center: Vector2, radius: real): bool {
    Magnitude(m, DirBetween(p, center)) <= radius
  }

  /** Whether the cull keeps a body. */
  predicate Survives(m: MathLib, b: Body, center: Vector2)
    reads b`destroyed, b`position
  {
    !b.destroyed && WithinBounds(m, b.position, center, CullRadius)
  }

  /** The `bodies.filter(...)` at the head of `GameLoop`. */
  function Cull(m: MathLib, bodies: seq<Body>, center: Vector2): seq<Body>
    reads (set b | b in bodies)`destroyed, (set b | b in bodies)`position
  {
    if bodies == [] then []
    else (if Survives(m, bodies[0], center) then [bodies[0]] else []) + Cull(m, bodies[1..], center)
  }

  // -----------------------------------------------------------------------
  // Gravity pass, integration and render selection

  /** The positions of `sources`, in order. */
  function Positions(sources: seq<Body>): (ps: seq<Vector2>)
    reads (set s | s in sources)`position
    ensures |ps| == |sources|
    ensures forall k :: 0 <= k < |sources| ==> ps[k] == sources[k].position
  {
    if sources == [] then [] else [sources[0].position] + Positions(sources[1..])
  }

  /** The positions of the sources that pull `b`, in order, given the
   *  sources' positions `ps`: every source except `b` itself. */
  function OtherPositions(b: Body, sources: seq<Body>, ps: seq<Vector2>): seq<Vector2>
    requires |ps| == |sources|
  {
    if sources == [] then []
    else
      var n := |sources| - 1;
      OtherPositions(b, sources[..n], ps[..n]) + (if sources[n] == b then [] else [ps[n]])
  }

  /** The collision test of the gravity pass for `b` at `pos`: some source
   *  other than `b` lies within the sum of the two radii. */
  predicate Collides(m: MathLib, b: Body, pos: Vector2, sources: seq<Body>, ps: seq<Vector2>)
    requires |ps| == |sources|
  {
    exists k :: 0 <= k < |sources| && sources[k] != b
      && Magnitude(m, DirBetween(pos, ps[k])) <= b.radius + sources[k].radius
  }

  /** `ps` holds the current positions of `sources`. */
  predicate At(sources: seq<Body>, ps: seq<Vector2>)
    reads (set s | s in sources)`position
  {
    |ps| == |sources| && forall k :: 0 <= k < |sources| ==> sources[k].position == ps[k]
  }

  /** Every distance the gravity pass divides by is non-zero: each body is
   *  apart from every source other than itself. */
  ghost predicate Separated(m: MathLib, bodies: seq<Body>, sources: seq<Body>)
    reads (set b | b in bodies)`position, (set s | s in sources)`position
  {
    forall k :: 0 <= k < |bodies| ==>
      AllApart(m, bodies[k].position, OtherPositions(bodies[k], sources, Positions(sources)))
  }

  /** The new rotation: `rotation + rv` when the body has both. */
  function Spin(rotation: Option<real>, rv: Option<real>): Option<real> {
    if rotation.Some? && rv.Some? then Some(rotation.value + rv.value) else rotation
  }

  /** The bodies the render loop draws: those not destroyed, in order. */
  function Undestroyed(bodies: seq<Body>): seq<Body>
    reads (set b | b in bodies)`destroyed
  {
    if bodies == [] then []
    else (if bodies[0].destroyed then [] else [bodies[0]]) + Undestroyed(bodies[1..])
  }

  /** The gravity pass of `GameLoop`: every body, against every source that
   *  is not itself, is flagged destroyed on contact and pulled (scale 1). */
  method GravityPass(m: MathLib, bodies: seq<Body>, sources: seq<Body>)
    requires Distinct(bodies)
    requires Separated(m, bodies, sources)
    modifies bodies
    ensures forall k :: 0 <= k < |bodies| ==>
      bodies[k].position == old(bodies[k].position)
      && bodies[k].rotation == old(bodies[k].rotation) && bodies[k].rv == old(bodies[k].rv)
    ensures forall k :: 0 <= k < |bodies| ==>
      bodies[k].velocity
      == Pulled(m, bodies[k].position, old(bodies[k].velocity),
                OtherPositions(bodies[k], sources, old(Positions(sources))), 1.0)
    ensures forall k :: 0 <= k < |bodies| ==>
      bodies[k].destroyed
      == (old(bodies[k].destroyed) || Collides(m, bodies[k], bodies[k].position, sources, old(Positions(sources))))
  {
    ghost var ps := Positions(sources);
    for j := 0 to |bodies|
      invariant forall k :: 0 <= k < |bodies| ==>
        bodies[k].position == old(bodies[k].position)
        && bodies[k].rotation == old(bodies[k].rotation) && bodies[k].rv == old(bodies[k].rv)
      invariant At(sources, ps)
      invariant forall k :: 0 <= k < j ==>
        bodies[k].velocity
        == Pulled(m, bodies[k].position, old(bodies[k].velocity), OtherPositions(bodies[k], sources, ps), 1.0)
        && bodies[k].destroyed
        == (old(bodies[k].destroyed) || Collides(m, bodies[k], bodies[k].position, sources, ps))
      invariant forall k :: j <= k < |bodies| ==>
        bodies[k].velocity == old(bodies[k].velocity) && bodies[k].destroyed == old(bodies[k].destroyed)
    {
      PullOne(m, bodies[j], sources, ps);
    }
  }

  /** The inner loop of the gravity pass, for one body. */
  method PullOne(m: MathLib, body: Body, sources: seq<Body>, ghost ps: seq<Vector2>)
    requires At(sources, ps)
    requires AllApart(m, body.position, OtherPositions(body, sources, ps))
    modifies body`velocity, body`destroyed
    ensures body.velocity == Pulled(m, body.position, old(body.velocity), OtherPositions(body, sources, ps), 1.0)
    ensures body.destroyed == (old(body.destroyed) || Collides(m, body, body.position, sources, ps))
  {
    ghost var pos, v0, d0 := body.position, body.velocity, body.destroyed;
    for i := 0 to |sources|
      invariant At(sources, ps) && body.position == pos
      invariant AllApart(m, pos, OtherPositions(body, sources[..i], ps[..i]))
      invariant body.velocity == Pulled(m, pos, v0, OtherPositions(body, sources[..i], ps[..i]), 1.0)
      invariant body.destroyed == (d0 || Collides(m, body, pos, sources[..i], ps[..i]))
    {
      PassStep(m, body, pos, v0, sources, ps, i);
      var gravSource := sources[i];
      if body == gravSource {
        continue;
      }
      Attract(m, body, gravSource);
    }
    assert sources[..|sources|] == sources && ps[..|ps|] == ps;
  }

  /** What one source contributes to the pass over the sources: nothing for
   *  the body itself; otherwise its pull and its collision test. */
  lemma PassStep(m: MathLib, b: Body, pos: Vector2, v0: Vector2, sources: seq<Body>, ps: seq<Vector2>, i: nat)
    requires |ps| == |sources| && i < |sources|
    requires AllApart(m, pos, OtherPositions(b, sources, ps))
    requires AllApart(m, pos, OtherPositions(b, sources[..i], ps[..i]))
    ensures AllApart(m, pos, OtherPositions(b, sources[..i + 1], ps[..i + 1]))
    ensures sources[i] == b ==>
      OtherPositions(b, sources[..i + 1], ps[..i + 1]) == OtherPositions(b, sources[..i], ps[..i])
      && Collides(m, b, pos, sources[..i + 1], ps[..i + 1]) == Collides(m, b, pos, sources[..i], ps[..i])
    ensures sources[i] != b ==>
      Apart(m, pos, ps[i])
      && Pulled(m, pos, v0, OtherPositions(b, sources[..i + 1], ps[..i + 1]), 1.0)
         == Plus(Acceleration(m, pos, ps[i]), Pulled(m, pos, v0, OtherPositions(b, sources[..i], ps[..i]), 1.0))
      && Collides(m, b, pos, sources[..i + 1], ps[..i + 1])
         == (Collides(m, b, pos, sources[..i], ps[..i])
             || Magnitude(m, DirBetween(pos, ps[i])) <= b.radius + sources[i].radius)
  {
    OtherPositionsStep(b, sources, ps, i);
    CollidesStep(m, b, pos, sources, ps, i);
    if sources[i] != b {
      OtherPositionsOmit(b, sources, ps, i);
      AllApartMember(m, pos, OtherPositions(b, sources, ps), ps[i]);
      PulledStep(m, pos, v0, OtherPositions(b, sources[..i], ps[..i]), ps[i], 1.0);
      assert OtherPositions(b, sources[..i + 1], ps[..i + 1]) == OtherPositions(b, sources[..i], ps[..i]) + [ps[i]];
      MultiplyByOne(Acceleration(m, pos, ps[i]));
    } else {
      assert OtherPositions(b, sources[..i + 1], ps[..i + 1]) == OtherPositions(b, sources[..i], ps[..i]);
    }
  }

  /** The body of the inner loop of the gravity pass, for a source that is
   *  not the body itself: flag the body destroyed on contact, and add the
   *  (unscaled) acceleration toward the source to its velocity. */
  method Attract(m: MathLib, body: Body, gravSource: Body)
    requires Apart(m, body.position, gravSource.position)
    modifies body`velocity, body`destroyed
    ensures body.velocity == Plus(Acceleration(m, body.position, gravSource.position), old(body.velocity))
    ensures body.destroyed
         == (old(body.destroyed)
             || Magnitude(m, DirBetween(body.position, gravSource.position)) <= body.radius + gravSource.radius)
  {
    var gravVec := DirBetween(body.position, gravSource.position);
    var r := Magnitude(m, gravVec);
    if r <= body.radius + gravSource.radius {
      body.destroyed := true;
    }
    var aVec := Acceleration(m, body.position, gravSource.position);
    body.velocity := Plus(aVec, body.velocity);
  }

  /** One step of the pass over the sources: the pulling positions grow by
   *  the next source's position unless it is the body itself. */
  lemma OtherPositionsStep(b: Body, sources: seq<Body>, ps: seq<Vector2>, i: nat)
    requires |ps| == |sources| && i < |sources|
    ensures OtherPositions(b, sources[..i + 1], ps[..i + 1])
         == OtherPositions(b, sources[..i], ps[..i]) + (if sources[i] == b then [] else [ps[i]])
  {
    assert sources[..i + 1][..i] == sources[..i];
    assert ps[..i + 1][..i] == ps[..i];
  }

  /** Every source other than the body pulls it. */
  lemma OtherPositionsOmit(b: Body, sources: seq<Body>, ps: seq<Vector2>, i: nat)
    requires |ps| == |sources| && i < |sources| && sources[i] != b
    ensures ps[i] in OtherPositions(b, sources, ps)
  {
    OtherPositionsStep(b, sources, ps, i);
    OtherPositionsAppend(b, sources[..i + 1], sources[i + 1..], ps[..i + 1], ps[i + 1..]);
    assert sources[..i + 1] + sources[i + 1..] == sources;
    assert ps[..i + 1] + ps[i + 1..] == ps;
  }

  /** The move loop of `GameLoop`: every body advances by its current
   *  velocity and turns by its rotation velocity. */
  method Integrate(bodies: seq<Body>)
    requires Distinct(bodies)
    modifies bodies
    ensures forall k :: 0 <= k < |bodies| ==>
      bodies[k].position == Plus(From(bodies[k].velocity), old(bodies[k].position))
      && bodies[k].velocity == old(bodies[k].velocity)
      && bodies[k].rotation == Spin(old(bodies[k].rotation), old(bodies[k].rv))
      && bodies[k].rv == old(bodies[k].rv) && bodies[k].destroyed == old(bodies[k].destroyed)
  {
    for j := 0 to |bodies|
      invariant forall k :: 0 <= k < |bodies| ==>
        bodies[k].velocity == old(bodies[k].velocity)
        && bodies[k].rv == old(bodies[k].rv) && bodies[k].destroyed == old(bodies[k].destroyed)
      invariant forall k :: 0 <= k < j ==>
        bodies[k].position == Plus(From(bodies[k].velocity), old(bodies[k].position))
        && bodies[k].rotation == Spin(old(bodies[k].rotation), old(bodies[k].rv))
      invariant forall k :: j <= k < |bodies| ==>
        bodies[k].position == old(bodies[k].position) && bodies[k].rotation == old(bodies[k].rotation)
    {
      var body := bodies[j];
      body.position := Plus(From(body.velocity), body.position);
      if body.rotation.Some? && body.rv.Some? {
        body.rotation := Some(body.rotation.value + body.rv.value);
      }
    }
  }

  /** The render loop's choice: it skips destroyed bodies. */
  method SelectForDrawing(bodies: seq<Body>) returns (drawn: seq<Body>)
    ensures drawn == Undestroyed(bodies)
  {
    drawn := [];
    for j := 0 to |bodies|
      invariant drawn == Undestroyed(bodies[..j])
    {
      UndestroyedAppend(bodies[..j], [bodies[j]]);
      assert bodies[..j] + [bodies[j]] == bodies[..j + 1];
      if bodies[j].destroyed {
        continue;
      }
      drawn := drawn + [bodies[j]];
    }
    assert bodies[..|bodies|] == bodies;
  }

  // -----------------------------------------------------------------------
  // Orbit predictor

  /** The points `plotOrbit` draws after its start point, from loop index
   *  `i` on, for a copy at `pos` moving at `vel`, with sources at `centers`
   *  and the body's own position `home`. None when, on a step the loop
   *  takes, the copy is at distance zero from a source (the source computes
   *  NaN there and goes on drawing NaN points). */
  function Predict(m: MathLib, centers: seq<Vector2>, home: Vector2, pos: Vector2, vel: Vector2,
                   i: nat, steps: nat, stepSize: real): Option<seq<Vector2>>
    decreases steps - i
  {
    if steps <= i then Some([])
    else if !AllApart(m, pos, centers) then None
    else
      var vel' := Pulled(m, pos, vel, centers, stepSize);
      var pos' := Plus(Multiply(From(vel'), stepSize), pos);
      if i > LoopBackAfter && Magnitude(m, DirBetween(pos', home)) < LoopBackRadius then Some([pos'])
      else Prepend([pos'], Predict(m, centers, home, pos', vel', i + 1, steps, stepSize))
  }

  /** `points` followed by the points of `rest`, when there are any. */
  function Prepend(points: seq<Vector2>, rest: Option<seq<Vector2>>): Option<seq<Vector2>> {
    match rest
    case None => None
    case Some(more) => Some(points + more)
  }

  /** `plotOrbit(body, steps, stepsize)` with the canvas calls replaced by
   *  collecting the points: the start point, then one point per step; None
   *  where the source would draw NaN points. It works on a copy and has no
   *  write access to `body` or the sources. */
  method PlotOrbit(m: MathLib, body: Body, gravSources: seq<Body>, steps: nat, stepSize: real)
    returns (path: Option<seq<Vector2>>)
    ensures path
         == Prepend([body.position], Predict(m, Positions(gravSources), body.position, body.position, body.velocity,
                                             0, steps, stepSize))
  {
    ghost var centers := Positions(gravSources);
    ghost var home := body.position;
    ghost var whole := Prepend([home], Predict(m, centers, home, home, body.velocity, 0, steps, stepSize));
    var plotter := new Body.Copy(body);
    var points := [plotter.position];
    var i := 0;
    while i < steps
      invariant i <= steps
      invariant plotter !in gravSources && plotter != body
      invariant At(gravSources, centers) && body.position == home
      invariant Prepend(points, Predict(m, centers, home, plotter.position, plotter.velocity, i, steps, stepSize))
             == whole
      decreases steps - i
    {
      var apart, stop;
      apart, stop, points := PlotStep(m, plotter, gravSources, centers, body.position, i, steps, stepSize, points, whole);
      if !apart {
        PositionsAt(gravSources, centers);
        return None;
      }
      if stop {
        PositionsAt(gravSources, centers);
        return Some(points);
      }
      i := i + 1;
    }
    assert points + [] == points;
    PositionsAt(gravSources, centers);
    path := Some(points);
  }

  /** Positions recorded in `ps` are the positions of the sources. */
  lemma PositionsAt(sources: seq<Body>, ps: seq<Vector2>)
    requires At(sources, ps)
    ensures Positions(sources) == ps
  {
  }

  /** One pass of the loop body of `plotOrbit`: pull and move the copy,
   *  record the point reached, then decide whether the path has come back
   *  near its start. When `points` followed by what is left of the
   *  prediction is `target`: the copy was on a source and `target` is
   *  None; or the path is now all of `target` and the loop stops; or the
   *  new path followed by the rest of the prediction is still `target`. */
  method PlotStep(m: MathLib, plotter: Body, gravSources: seq<Body>, ghost centers: seq<Vector2>,
                  home: Vector2, i: nat, steps: nat, stepSize: real, points: seq<Vector2>,
                  ghost target: Option<seq<Vector2>>)
    returns (apart: bool, stop: bool, points': seq<Vector2>)
    requires i < steps && At(gravSources, centers) && plotter !in gravSources
    requires Prepend(points, Predict(m, centers, home, plotter.position, plotter.velocity, i, steps, stepSize)) == target
    modifies plotter`velocity, plotter`position
    ensures !apart ==> target == None
    ensures apart ==> points' == points + [plotter.position]
    ensures apart && stop ==> target == Some(points')
    ensures apart && !stop ==>
      Prepend(points', Predict(m, centers, home, plotter.position, plotter.velocity, i + 1, steps, stepSize)) == target
  {
    ghost var pos, vel := plotter.position, plotter.velocity;
    apart := Advance(m, plotter, gravSources, centers, stepSize);
    if !apart {
      stop, points' := true, points;
      return;
    }
    PredictNext(m, centers, home, pos, vel, plotter.position, plotter.velocity, i, steps, stepSize);
    points' := points + [plotter.position];
    stop := i > LoopBackAfter && Magnitude(m, DirBetween(plotter.position, home)) < LoopBackRadius;
    if !stop {
      PrependTwice(points, [plotter.position],
                   Predict(m, centers, home, plotter.position, plotter.velocity, i + 1, steps, stepSize));
    }
  }

  /** Prepending two lists is prepending their concatenation. */
  lemma PrependTwice(xs: seq<Vector2>, ys: seq<Vector2>, rest: Option<seq<Vector2>>)
    ensures Prepend(xs, Prepend(ys, rest)) == Prepend(xs + ys, rest)
  {
    if rest.Some? {
      assert xs + (ys + rest.value) == (xs + ys) + rest.value;
    }
  }

  /** One step of `plotOrbit`'s copy: gravity from every source, scaled by
   *  the step size, then a move by the new velocity times the step size.
   *  It reports whether the copy was apart from every source, which is
   *  when the step is defined. */
  method Advance(m: MathLib, plotter: Body, gravSources: seq<Body>, ghost centers: seq<Vector2>, stepSize: real)
    returns (apart: bool)
    requires At(gravSources, centers)
    requires plotter !in gravSources
    modifies plotter`velocity, plotter`position
    ensures apart == AllApart(m, old(plotter.position), centers)
    ensures apart ==> plotter.velocity == Pulled(m, old(plotter.position), old(plotter.velocity), centers, stepSize)
    ensures apart ==> plotter.position == Plus(Multiply(From(plotter.velocity), stepSize), old(plotter.position))
  {
    apart := PullAll(m, plotter, gravSources, centers, stepSize);
    if apart {
      plotter.position := Plus(Multiply(From(plotter.velocity), stepSize), plotter.position);
    }
  }

  /** The inner loop of `plotOrbit`: `Gravity` from each source in turn,
   *  scaled by the step size. It stops at the first source the copy sits
   *  on, where the source's `Gravity` would compute NaN. */
  method PullAll(m: MathLib, plotter: Body, gravSources: seq<Body>, ghost centers: seq<Vector2>, stepSize: real)
    returns (apart: bool)
    requires At(gravSources, centers)
    requires plotter !in gravSources
    modifies plotter`velocity
    ensures apart == AllApart(m, plotter.position, centers)
    ensures apart ==> plotter.velocity == Pulled(m, plotter.position, old(plotter.velocity), centers, stepSize)
  {
    ghost var vel := plotter.velocity;
    for j := 0 to |gravSources|
      invariant At(gravSources, centers)
      invariant AllApart(m, plotter.position, centers[..j])
      invariant plotter.velocity == Pulled(m, plotter.position, vel, centers[..j], stepSize)
    {
      if !Apart(m, plotter.position, gravSources[j].position) {
        if AllApart(m, plotter.position, centers) {
          AllApartPrefix(m, plotter.position, centers, j);
        }
        return false;
      }
      PulledStep(m, plotter.position, vel, centers[..j], centers[j], stepSize);
      assert centers[..j] + [centers[j]] == centers[..j + 1];
      var _ := Gravity(m, gravSources[j], plotter, stepSize);
    }
    assert centers[..|gravSources|] == centers;
    apart := true;
  }

  /** One step of the predictor, from a position apart from every source:
   *  its points are the next position, then nothing more on loop-back, or
   *  else the rest of the prediction. */
  lemma PredictNext(m: MathLib, centers: seq<Vector2>, home: Vector2, pos: Vector2, vel: Vector2,
                    pos': Vector2, vel': Vector2, i: nat, steps: nat, stepSize: real)
    requires i < steps && AllApart(m, pos, centers)
    requires vel' == Pulled(m, pos, vel, centers, stepSize)
    requires pos' == Plus(Multiply(From(vel'), stepSize), pos)
    ensures i > LoopBackAfter && Magnitude(m, DirBetween(pos', home)) < LoopBackRadius ==>
      Predict(m, centers, home, pos, vel, i, steps, stepSize) == Some([pos'])
    ensures !(i > LoopBackAfter && Magnitude(m, DirBetween(pos', home)) < LoopBackRadius) ==>
      Predict(m, centers, home, pos, vel, i, steps, stepSize)
      == Prepend([pos'], Predict(m, centers, home, pos', vel', i + 1, steps, stepSize))
  {
  }

  // -----------------------------------------------------------------------
  // Key handler values

  /** The ship's velocity after one ArrowUp press. */
  function Thrust(m: MathLib, rotation: real, velocity: Vector2): Vector2 {
    Plus(Multiply(FromAngle(m, rotation), ThrustScale), velocity)
  }

  /** The velocity of a projectile fired from a ship. */
  function LaunchVelocity(m: MathLib, rotation: real, velocity: Vector2): Vector2 {
    Plus(FromAngle(m, rotation), velocity)
  }

  // -----------------------------------------------------------------------
  // Lemmas

  /** Pulling toward one more center adds that center's scaled pull. */
  lemma PulledStep(m: MathLib, pos: Vector2, vel: Vector2, centers: seq<Vector2>, c: Vector2, scale: real)
    requires AllApart(m, pos, centers) && Apart(m, pos, c)
    ensures AllApart(m, pos, centers + [c])
    ensures Pulled(m, pos, vel, centers + [c], scale)
         == Plus(Multiply(Acceleration(m, pos, c), scale), Pulled(m, pos, vel, centers, scale))
  {
    assert (centers + [c])[..|centers|] == centers;
  }

  /** The collision test over one more source. */
  lemma CollidesStep(m: MathLib, b: Body, pos: Vector2, sources: seq<Body>, ps: seq<Vector2>, i: nat)
    requires |ps| == |sources| && i < |sources|
    ensures Collides(m, b, pos, sources[..i + 1], ps[..i + 1])
        == (Collides(m, b, pos, sources[..i], ps[..i])
            || (sources[i] != b && Magnitude(m, DirBetween(pos, ps[i])) <= b.radius + sources[i].radius))
  {
    var xs, ys, qs, rs := sources[..i], sources[..i + 1], ps[..i], ps[..i + 1];
    if Collides(m, b, pos, ys, rs) && !Collides(m, b, pos, xs, qs) {
      var k :| 0 <= k < |ys| && ys[k] != b && Magnitude(m, DirBetween(pos, rs[k])) <= b.radius + ys[k].radius;
      assert k == i;
    }
    if Collides(m, b, pos, xs, qs) {
      var k :| 0 <= k < |xs| && xs[k] != b && Magnitude(m, DirBetween(pos, qs[k])) <= b.radius + xs[k].radius;
      assert ys[k] == xs[k] && rs[k] == qs[k];
    }
    if sources[i] != b && Magnitude(m, DirBetween(pos, ps[i])) <= b.radius + sources[i].radius {
      assert ys[i] == sources[i] && rs[i] == ps[i];
    }
  }

  lemma {:induction false} OtherPositionsAppend(b: Body, xs: seq<Body>, ys: seq<Body>, pxs: seq<Vector2>, pys: seq<Vector2>)
    requires |pxs| == |xs| && |pys| == |ys|
    ensures OtherPositions(b, xs + ys, pxs + pys) == OtherPositions(b, xs, pxs) + OtherPositions(b, ys, pys)
    decreases |ys|
  {
    if ys == [] {
      assert xs + ys == xs && pxs + pys == pxs;
    } else {
      var n := |ys| - 1;
      assert (xs + ys)[..|xs + ys| - 1] == xs + ys[..n];
      assert (pxs + pys)[..|pxs + pys| - 1] == pxs + pys[..n];
      OtherPositionsAppend(b, xs, ys[..n], pxs, pys[..n]);
    }
  }

  // -----------------------------------------------------------------------
  // Cull and render selection

  /** The cull keeps exactly the surviving bodies. */
  lemma {:induction false} CullMembers(m: MathLib, bodies: seq<Body>, center: Vector2)
    ensures forall b :: b in Cull(m, bodies, center) <==> b in bodies && Survives(m, b, center)
  {
    if bodies != [] {
      CullMembers(m, bodies[1..], center);
      assert forall b :: b in bodies <==> b == bodies[0] || b in bodies[1..];
    }
  }

  /** The cull keeps the original order: culling a concatenation culls each
   *  part. */
  lemma {:induction false} CullAppend(m: MathLib, xs: seq<Body>, ys: seq<Body>, center: Vector2)
    ensures Cull(m, xs + ys, center) == Cull(m, xs, center) + Cull(m, ys, center)
  {
    if xs == [] {
      assert xs + ys == ys;
    } else {
      assert (xs + ys)[1..] == xs[1..] + ys;
      CullAppend(m, xs[1..], ys, center);
    }
  }

  /** The cull never duplicates a body. */
  lemma {:induction false} CullDistinct(m: MathLib, bodies: seq<Body>, center: Vector2)
    requires Distinct(bodies)
    ensures Distinct(Cull(m, bodies, center))
  {
    if bodies != [] {
      var rest := bodies[1..];
      assert Distinct(rest) by {
        forall i, j | 0 <= i < |rest| && 0 <= j < |rest| && i != j
          ensures rest[i] != rest[j]
        {
          assert rest[i] == bodies[i + 1] && rest[j] == bodies[j + 1];
        }
      }
      CullDistinct(m, rest, center);
      CullMembers(m, rest, center);
      assert bodies[0] !in rest by {
        forall k | 0 <= k < |rest| ensures rest[k] != bodies[0] {
          assert rest[k] == bodies[k + 1];
        }
      }
    }
  }

  /** A body at distance exactly 500 from EARTH survives the cull: the
   *  bound is inclusive. */
  lemma CullBoundaryInclusive(m: MathLib, b: Body)
    requires Lawful(m)
    requires !b.destroyed && b.position == Vector2(375.0, 875.0)
    ensures Cull(m, [b], Vector2(375.0, 375.0)) == [b]
  {
    var d := DirBetween(b.position, Vector2(375.0, 375.0));
    assert d == Vector2(0.0, -500.0);
    SqrtOfSquare(m, 500.0, SquaredLength(d));
  }

  /** One step farther and the same body is culled. */
  lemma CullBeyondBound(m: MathLib, b: Body)
    requires Lawful(m)
    requires b.position == Vector2(375.0, 876.0)
    ensures Cull(m, [b], Vector2(375.0, 375.0)) == []
  {
    var d := DirBetween(b.position, Vector2(375.0, 375.0));
    assert d == Vector2(0.0, -501.0);
    SqrtOfSquare(m, 501.0, SquaredLength(d));
  }

  /** The render loop draws exactly the bodies not destroyed. */
  lemma {:induction false} UndestroyedMembers(bodies: seq<Body>)
    ensures forall b :: b in Undestroyed(bodies) <==> b in bodies && !b.destroyed
  {
    if bodies != [] {
      UndestroyedMembers(bodies[1..]);
      assert forall b :: b in bodies <==> b == bodies[0] || b in bodies[1..];
    }
  }

  /** The render selection keeps the original order. */
  lemma {:induction false} UndestroyedAppend(xs: seq<Body>, ys: seq<Body>)
    ensures Undestroyed(xs + ys) == Undestroyed(xs) + Undestroyed(ys)
  {
    if xs == [] {
      assert xs + ys == ys;
    } else {
      assert (xs + ys)[1..] == xs[1..] + ys;
      UndestroyedAppend(xs[1..], ys);
    }
  }

  /** `WithinBounds` compares squared distances: no square root is needed
   *  to decide it. */
  lemma WithinBoundsBySquares(m: MathLib, p: Vector2, center: Vector2, radius: real)
    requires Lawful(m)
    requires 0.0 <= radius
    ensures WithinBounds(m, p, center, radius) <==> SquaredLength(DirBetween(p, center)) <= Sq(radius)
  {
    CompareBySquares(m, DirBetween(p, center), radius);
  }

  // -----------------------------------------------------------------------
  // Gravity

  /** On a lawful host, being apart is being at different positions. */
  lemma ApartIffDistinct(m: MathLib, pos: Vector2, center: Vector2)
    requires Lawful(m)
    ensures Apart(m, pos, center) <==> pos != center
  {
    DirBetweenAntisymmetric(pos, center);
    MagnitudeFacts(m, DirBetween(pos, center));
  }

  /** On a lawful host, a position is apart from all centers exactly when it
   *  is none of them. */
  lemma AllApartIffNotIn(m: MathLib, pos: Vector2, centers: seq<Vector2>)
    requires Lawful(m)
    ensures AllApart(m, pos, centers) <==> pos !in centers
  {
    forall k | 0 <= k < |centers| ensures Apart(m, pos, centers[k]) <==> pos != centers[k] {
      ApartIffDistinct(m, pos, centers[k]);
    }
  }

  /** The acceleration points along `DirBetween(pos, center)`, scaled by
   *  `G / r^3`. */
  lemma AccelerationDirection(m: MathLib, pos: Vector2, center: Vector2)
    requires Apart(m, pos, center)
    ensures Acceleration(m, pos, center)
         == Multiply(DirBetween(pos, center),
                     G / (Magnitude(m, DirBetween(pos, center)) * Sq(Magnitude(m, DirBetween(pos, center)))))
  {
    var v := DirBetween(pos, center);
    var r := Magnitude(m, v);
    AccelerationUnfold(m, pos, center);
    MultiplyComposes(v, 1.0 / r, G / Sq(r));
    InverseCube(r);
  }

  /** The length of the acceleration is `G / r^2`. */
  lemma AccelerationMagnitude(m: MathLib, pos: Vector2, center: Vector2)
    requires Lawful(m)
    requires Apart(m, pos, center)
    ensures Magnitude(m, Acceleration(m, pos, center)) == G / Sq(Magnitude(m, DirBetween(pos, center)))
  {
    var v := DirBetween(pos, center);
    var r := Magnitude(m, v);
    MagnitudeFacts(m, v);
    UnitVector(m, v);
    var u := ToUnit(m, v);
    var a := G / Sq(r);
    AccelerationUnfold(m, pos, center);
    assert 0.0 <= a by {
      SquarePositive(r);
      PositiveQuotient(G, Sq(r));
    }
    MagnitudeScales(m, u, a);
  }

  /** `Acceleration` with `r * r` written as `Sq(r)`. */
  lemma AccelerationUnfold(m: MathLib, pos: Vector2, center: Vector2)
    requires Apart(m, pos, center)
    ensures Acceleration(m, pos, center)
         == Multiply(ToUnit(m, DirBetween(pos, center)), G / Sq(Magnitude(m, DirBetween(pos, center))))
  {
  }

  lemma PositiveQuotient(x: real, y: real)
    requires 0.0 < x && 0.0 < y
    ensures 0.0 < x / y
  {
  }

  /** The inverse-square law: between distinct positions the distance `r`
   *  is positive, the acceleration points from the body toward the source
   *  (a positive multiple of `DirBetween(pos, center)`), and its length is
   *  `G / r^2`. */
  lemma AccelerationLaw(m: MathLib, pos: Vector2, center: Vector2)
    requires Lawful(m)
    requires pos != center
    ensures Apart(m, pos, center)
    ensures 0.0 < Magnitude(m, DirBetween(pos, center))
    ensures Acceleration(m, pos, center)
         == Multiply(DirBetween(pos, center),
                     G / (Magnitude(m, DirBetween(pos, center)) * Sq(Magnitude(m, DirBetween(pos, center)))))
    ensures Magnitude(m, Acceleration(m, pos, center)) == G / Sq(Magnitude(m, DirBetween(pos, center)))
  {
    ApartIffDistinct(m, pos, center);
    MagnitudeFacts(m, DirBetween(pos, center));
    AccelerationDirection(m, pos, center);
    AccelerationMagnitude(m, pos, center);
  }

  lemma InverseCube(r: real)
    requires r != 0.0
    ensures Sq(r) != 0.0 && r * Sq(r) != 0.0
    ensures (1.0 / r) * (G / Sq(r)) == G / (r * Sq(r))
  {
    SquarePositive(r);
  }

  /** Which positions pull a body: exactly those of the sources that are
   *  not the body itself. */
  lemma {:induction false} OtherPositionsMembers(b: Body, sources: seq<Body>, ps: seq<Vector2>)
    requires |ps| == |sources|
    ensures |OtherPositions(b, sources, ps)| <= |sources|
    ensures forall p :: p in OtherPositions(b, sources, ps)
              <==> exists k :: 0 <= k < |sources| && sources[k] != b && ps[k] == p
  {
    if sources != [] {
      var n := |sources| - 1;
      OtherPositionsMembers(b, sources[..n], ps[..n]);
      forall p | p in OtherPositions(b, sources, ps)
        ensures exists k :: 0 <= k < |sources| && sources[k] != b && ps[k] == p
      {
        if p in OtherPositions(b, sources[..n], ps[..n]) {
          var k :| 0 <= k < n && sources[..n][k] != b && ps[..n][k] == p;
          assert sources[k] != b && ps[k] == p;
        } else {
          assert sources[n] != b && ps[n] == p;
        }
      }
      forall p | exists k :: 0 <= k < |sources| && sources[k] != b && ps[k] == p
        ensures p in OtherPositions(b, sources, ps)
      {
        var k :| 0 <= k < |sources| && sources[k] != b && ps[k] == p;
        if k < n {
          assert sources[..n][k] != b && ps[..n][k] == p;
        }
      }
    }
  }

  /** The collision test compares squared distances against the squared
   *  sum of the radii, inclusively. */
  lemma CollidesBySquares(m: MathLib, b: Body, pos: Vector2, sources: seq<Body>, ps: seq<Vector2>)
    requires Lawful(m)
    requires |ps| == |sources|
    requires 0.0 <= b.radius && forall k :: 0 <= k < |sources| ==> 0.0 <= sources[k].radius
    ensures Collides(m, b, pos, sources, ps)
        <==> exists k :: 0 <= k < |sources| && sources[k] != b
               && SquaredLength(DirBetween(pos, ps[k])) <= Sq(b.radius + sources[k].radius)
  {
    forall k | 0 <= k < |sources|
      ensures Magnitude(m, DirBetween(pos, ps[k])) <= b.radius + sources[k].radius
          <==> SquaredLength(DirBetween(pos, ps[k])) <= Sq(b.radius + sources[k].radius)
    {
      CompareBySquares(m, DirBetween(pos, ps[k]), b.radius + sources[k].radius);
    }
  }

  /** MOON's first pull: from (375, 100) EARTH at (375, 375) is 275 away
   *  straight down the canvas (y grows downward), so MOON's velocity
   *  (0.3, 0) becomes (0.3, 50 / 275^2) = (0.3, 2/3025). */
  lemma MoonFirstPull(m: MathLib)
    requires Lawful(m)
    ensures AllApart(m, Vector2(375.0, 100.0), [Vector2(375.0, 375.0)])
         && Pulled(m, Vector2(375.0, 100.0), Vector2(0.3, 0.0), [Vector2(375.0, 375.0)], 1.0)
            == Vector2(0.3, 2.0 / 3025.0)
  {
    var pos, center := Vector2(375.0, 100.0), Vector2(375.0, 375.0);
    assert DirBetween(pos, center) == Vector2(0.0, 275.0);
    SqrtOfSquare(m, 275.0, SquaredLength(Vector2(0.0, 275.0)));
    AccelerationLaw(m, pos, center);
    assert Acceleration(m, pos, center) == Vector2(0.0, 2.0 / 3025.0);
    assert [center][..0] == [];
  }

  // -----------------------------------------------------------------------
  // Orbit predictor

  /** The predictor emits at most one point per remaining step, and at
   *  least one while any step remains. */
  lemma {:induction false} PredictLength(m: MathLib, centers: seq<Vector2>, home: Vector2, pos: Vector2, vel: Vector2,
                                         i: nat, steps: nat, stepSize: real)
    requires i <= steps
    requires Predict(m, centers, home, pos, vel, i, steps, stepSize).Some?
    ensures |Predict(m, centers, home, pos, vel, i, steps, stepSize).value| <= steps - i
    ensures i < steps ==> 1 <= |Predict(m, centers, home, pos, vel, i, steps, stepSize).value|
    decreases steps - i
  {
    if i < steps {
      var vel' := Pulled(m, pos, vel, centers, stepSize);
      var pos' := Plus(Multiply(From(vel'), stepSize), pos);
      if !(i > LoopBackAfter && Magnitude(m, DirBetween(pos', home)) < LoopBackRadius) {
        PredictLength(m, centers, home, pos', vel', i + 1, steps, stepSize);
      }
    }
  }

  /** The predictor stops before its last step only on loop-back: its last
   *  point was produced at a loop index above 20 and lies strictly within
   *  10 of where the body started. */
  lemma {:induction false} PredictEarlyStop(m: MathLib, centers: seq<Vector2>, home: Vector2, pos: Vector2, vel: Vector2,
                                            i: nat, steps: nat, stepSize: real)
    requires i <= steps
    requires Predict(m, centers, home, pos, vel, i, steps, stepSize).Some?
    requires |Predict(m, centers, home, pos, vel, i, steps, stepSize).value| < steps - i
    ensures var pts := Predict(m, centers, home, pos, vel, i, steps, stepSize).value;
      pts != []
      && i + |pts| - 1 > LoopBackAfter
      && Magnitude(m, DirBetween(pts[|pts| - 1], home)) < LoopBackRadius
    decreases steps - i
  {
    var vel' := Pulled(m, pos, vel, centers, stepSize);
    var pos' := Plus(Multiply(From(vel'), stepSize), pos);
    if !(i > LoopBackAfter && Magnitude(m, DirBetween(pos', home)) < LoopBackRadius) {
      var rest := Predict(m, centers, home, pos', vel', i + 1, steps, stepSize).value;
      PredictEarlyStop(m, centers, home, pos', vel', i + 1, steps, stepSize);
      assert ([pos'] + rest)[|rest|] == rest[|rest| - 1];
    }
  }

  // -----------------------------------------------------------------------
  // Key handler

  /** ArrowUp adds an impulse of length 0.001 in the ship's heading. */
  lemma ThrustImpulse(m: MathLib, rotation: real, velocity: Vector2)
    requires Lawful(m)
    ensures DirBetween(velocity, Thrust(m, rotation, velocity)) == Multiply(FromAngle(m, rotation), ThrustScale)
    ensures Magnitude(m, DirBetween(velocity, Thrust(m, rotation, velocity))) == ThrustScale
  {
    FromAngleIsUnit(m, rotation);
    MagnitudeScales(m, FromAngle(m, rotation), ThrustScale);
  }

  /** A projectile leaves the ship at speed 1 relative to the ship, in the
   *  ship's heading. */
  lemma LaunchSpeed(m: MathLib, rotation: real, velocity: Vector2)
    requires Lawful(m)
    ensures DirBetween(velocity, LaunchVelocity(m, rotation, velocity)) == FromAngle(m, rotation)
    ensures Magnitude(m, DirBetween(velocity, LaunchVelocity(m, rotation, velocity))) == 1.0
  {
    FromAngleIsUnit(m, rotation);
  }
}
