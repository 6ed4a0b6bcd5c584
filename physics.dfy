/**
 * The flight engine as values: the rocket's state, launch, one thrust application and one
 * simulation tick, including the gravity-assist pass over the planets. The rocket object in
 * module Rockets is proved to follow these functions.
 */
module Physics {
  import opened Economy

  /**
   * The transcendental functions the flight uses, taken as inputs: the model relies on none of
   * their values, so nothing here depends on floating-point behaviour.
   */
  datatype Numerics = Numerics(
    sqrt: real -> real,
    atan2: (real, real) -> real,
    cos: real -> real,
    sin: real -> real,
    pi: real)
  {
    function Sqrt(v: real): real { sqrt(v) }
    function Atan2(y: real, x: real): real { atan2(y, x) }
    function Cos(a: real): real { cos(a) }
    function Sin(a: real): real { sin(a) }
  }

  /** A gravity well. Its mass is set equal to its radius and plays no part in the physics. */
  datatype Planet = Planet(x: real, y: real, radius: real, mass: real)

  /** Every planet has a positive radius, as generated planets do. */
  predicate AllValid(planets: seq<Planet>)
  {
    forall i :: 0 <= i < |planets| ==> planets[i].radius > 0.0
  }

  datatype RocketState = RocketState(
    x: real, y: real,
    vx: real, vy: real,
    angle: real,
    fuel: real, maxFuel: real,
    distance: real, maxHeight: real,
    gravityAssists: nat,
    isFlying: bool)

  /** The invariant the rocket keeps: no negative fuel and no negative statistics. */
  predicate Sane(s: RocketState)
  {
    s.fuel >= 0.0 && s.distance >= 0.0 && s.maxHeight >= 0.0
  }

  const LaunchX: real := 100.0
  const LaunchY: real := 500.0
  const Gravity: real := 0.2
  /** The y coordinate of the ground (y grows downwards). */
  const Ground: real := 580.0
  /** Height is measured as this value minus y. */
  const HeightOrigin: real := 600.0
  const CameraOffsetX: real := 200.0
  const CameraOffsetY: real := 300.0

  /** A bonus expressed in percent, as a fraction (the game's `bonus * 0.01`). */
  function Percent(bonus: int): real
  {
    bonus as real / 100.0
  }

  function Max(a: real, b: real): (r: real)
    ensures r >= a && r >= b && (r == a || r == b)
  {
    if a >= b then a else b
  }

  function Min(a: real, b: real): (r: real)
    ensures r <= a && r <= b && (r == a || r == b)
  {
    if a <= b then a else b
  }

  /** The rocket on the launch pad, flying, with its initial conditions taken from the upgrades. */
  function Launched(levels: Levels, m: Numerics): (r: RocketState)
    ensures r.isFlying && Sane(r)
    ensures r.x == LaunchX && r.y == LaunchY && r.angle == -m.pi / 4.0
    ensures r.fuel == r.maxFuel == 100.0 + BonusOf(Fuel, levels) as real
    ensures r.vx == 10.0 + BonusOf(Ramp, levels) as real
    ensures r.vy == -20.0 - BonusOf(Booster, levels) as real
    ensures r.distance == 0.0 && r.maxHeight == 0.0 && r.gravityAssists == 0
  {
    var fuel := 100.0 + BonusOf(Fuel, levels) as real;
    RocketState(LaunchX, LaunchY,
                10.0 + BonusOf(Ramp, levels) as real, -20.0 - BonusOf(Booster, levels) as real,
                -m.pi / 4.0, fuel, fuel, 0.0, 0.0, 0, true)
  }

  /** Buying a level of any upgrade never launches with less fuel, less ramp speed or less climb. */
  lemma LaunchedGrowsWithUpgrades(id: UpgradeId, levels: Levels, m: Numerics)
    requires id in levels
    ensures var before, after := Launched(levels, m), Launched(levels[id := levels[id] + 1], m);
      && after.maxFuel >= before.maxFuel && after.vx >= before.vx && after.vy <= before.vy
      && (id == Fuel ==> after.maxFuel == before.maxFuel + 20.0)
  {
    BonusStep(id, levels, Fuel);
    BonusStep(id, levels, Ramp);
    BonusStep(id, levels, Booster);
  }

  /**
   * One frame of thrust: nothing happens unless thrust is on and fuel remains; otherwise the
   * velocity gains a push along the heading and fuel is burnt, never below zero.
   */
  function Thrusted(s: RocketState, active: bool, levels: Levels, m: Numerics): (r: RocketState)
    ensures !active || s.fuel <= 0.0 ==> r == s
    ensures r.(vx := s.vx, vy := s.vy, fuel := s.fuel) == s
    ensures active && s.fuel > 0.0 ==> r.fuel >= 0.0
    ensures s.fuel >= 0.0 ==> r.fuel >= 0.0
    ensures Sane(s) ==> Sane(r)
    ensures active && s.fuel > 0.0 ==> (r.fuel > s.fuel <==> BonusOf(Efficiency, levels) > 100)
  {
    if !active || s.fuel <= 0.0 then s
    else
      var thrustPower := 0.5 + Percent(BonusOf(Thrust, levels));
      var fuelEfficiency := 1.0 - Percent(BonusOf(Efficiency, levels));
      var fuel := s.fuel - 0.5 * fuelEfficiency;
      s.(vx := s.vx + m.Cos(s.angle) * thrustPower,
         vy := s.vy + m.Sin(s.angle) * thrustPower,
         fuel := if fuel < 0.0 then 0.0 else fuel)
  }

  /**
   * Fuel is not bounded by the tank: past ten efficiency levels the burn rate is negative and
   * each frame of thrust adds fuel, even on a full tank.
   */
  lemma ThrustCanOverfill(s: RocketState, levels: Levels, m: Numerics)
    requires Efficiency in levels && levels[Efficiency] > 10
    requires s.fuel == s.maxFuel > 0.0
    ensures Thrusted(s, true, levels, m).fuel > s.maxFuel
  {
  }

  /** Up to ten efficiency levels, thrust never adds fuel. */
  lemma ThrustNeverRefuels(s: RocketState, active: bool, levels: Levels, m: Numerics)
    requires Efficiency in levels ==> levels[Efficiency] <= 10
    ensures Thrusted(s, active, levels, m).fuel <= s.fuel
  {
  }

  /** The distance at which a planet is noticed. */
  function DetectionRange(levels: Levels): (r: real)
    ensures r >= 100.0
  {
    100.0 + BonusOf(Detector, levels) as real
  }

  /** The multiplier of every assist impulse. */
  function BoostPower(levels: Levels): (r: real)
    ensures r >= 1.0
  {
    1.0 + Percent(BonusOf(Boost, levels))
  }

  /** Linear falloff of the assist: 1 at the planet's centre, 0 at the edge of detection. */
  function AssistStrength(range: real, d: real): real
    requires range > 0.0
  {
    (range - d) / range
  }

  /**
   * The assist vanishes exactly at the edge of detection, lies strictly between 0 and 1 inside
   * it, and exceeds one half exactly when the rocket is within half the detection range.
   */
  lemma FalloffBounds(range: real, d: real)
    requires range > 0.0
    ensures d == range ==> AssistStrength(range, d) == 0.0
    ensures 0.0 < d < range ==> 0.0 < AssistStrength(range, d) < 1.0
    ensures AssistStrength(range, d) > 0.5 <==> d < range / 2.0
  {
    var r := AssistStrength(range, d);
    assert r * range == range - d;
    FalloffEdge(range, d, r);
    FalloffInside(range, d, r);
    FalloffHalf(range, d, r);
  }

  lemma FalloffEdge(range: real, d: real, r: real)
    requires range > 0.0 && r * range == range - d
    ensures d == range ==> r == 0.0
  {
    ScaleByPositive(0.0, r, range);
    ScaleByPositive(r, 0.0, range);
  }

  lemma FalloffInside(range: real, d: real, r: real)
    requires range > 0.0 && r * range == range - d
    ensures 0.0 < d < range ==> 0.0 < r < 1.0
  {
    ScaleByPositive(0.0, r, range);
    ScaleByPositive(r, 1.0, range);
  }

  lemma FalloffHalf(range: real, d: real, r: real)
    requires range > 0.0 && r * range == range - d
    ensures r > 0.5 <==> d < range / 2.0
  {
    ScaleByPositive(0.5, r, range);
    ScaleByPositive(r, 0.5, range);
    if r > 0.5 {
      assert 0.5 * range < range - d;
    } else {
      assert r * range <= 0.5 * range;
    }
  }

  lemma ScaleByPositive(a: real, b: real, c: real)
    requires c > 0.0
    ensures a < b <==> a * c < b * c
  {
    assert a * c - b * c == (a - b) * c;
  }

  /** The closer the planet, the stronger the assist. */
  lemma AssistStrengthDecreases(range: real, d1: real, d2: real)
    requires range > 0.0 && d1 < d2
    ensures AssistStrength(range, d1) > AssistStrength(range, d2)
  {
    assert AssistStrength(range, d1) - AssistStrength(range, d2) == (d2 - d1) / range;
  }

  /**
   * The slingshot impulse of the given magnitude, along the rocket-to-planet vector (dx, dy)
   * turned a quarter turn in the direction of increasing angle. With a = atan2(dy, dx) and
   * d = |(dx, dy)|, (cos(a + pi/2), sin(a + pi/2)) is exactly (-dy/d, dx/d).
   */
  function Impulse(dx: real, dy: real, d: real, magnitude: real): (real, real)
    requires d > 0.0
  {
    (-dy * (magnitude / d), dx * (magnitude / d))
  }

  /**
   * The impulse is perpendicular to the rocket-to-planet vector, and for a non-negative
   * magnitude it turns counter-clockwise from it (its cross product with the vector is not negative).
   */
  lemma ImpulsePerpendicular(dx: real, dy: real, d: real, magnitude: real)
    requires d > 0.0
    ensures var r := Impulse(dx, dy, d, magnitude); r.0 * dx + r.1 * dy == 0.0
    ensures var r := Impulse(dx, dy, d, magnitude); magnitude >= 0.0 ==> dx * r.1 - dy * r.0 >= 0.0
  {
    var k := magnitude / d;
    assert (-dy * k) * dx + (dx * k) * dy == 0.0;
    assert dx * (dx * k) - dy * (-dy * k) == (dx * dx + dy * dy) * k;
  }

  /** When d is the true length of (dx, dy), the impulse has exactly the given magnitude. */
  lemma ImpulseMagnitude(dx: real, dy: real, d: real, magnitude: real)
    requires d > 0.0 && d * d == dx * dx + dy * dy
    ensures var r := Impulse(dx, dy, d, magnitude); r.0 * r.0 + r.1 * r.1 == magnitude * magnitude
  {
    var k := magnitude / d;
    assert k * d == magnitude;
    calc {
      (-dy * k) * (-dy * k) + (dx * k) * (dx * k);
      (dx * dx + dy * dy) * (k * k);
      (d * d) * (k * k);
      (k * d) * (k * d);
    }
  }

  /** The velocity and assist count the gravity-assist pass carries from planet to planet. */
  datatype Kick = Kick(vx: real, vy: real, assists: nat)

  /** The length of the vector (dx, dy), as the square root the flight is given computes it. */
  function Length(dx: real, dy: real, m: Numerics): real
  {
    m.Sqrt(dx * dx + dy * dy)
  }

  /** The measured distance from the rocket at (x, y) to a planet's centre. */
  function Gap(x: real, y: real, p: Planet, m: Numerics): real
  {
    Length(p.x - x, p.y - y, m)
  }

  /** A planet pulls when the rocket is outside its surface but within detection range. */
  predicate InRange(x: real, y: real, p: Planet, range: real, m: Numerics)
  {
    p.radius < Gap(x, y, p, m) < range
  }

  /** A pulling planet counts as a gravity assist when the assist is stronger than one half. */
  predicate Counts(x: real, y: real, p: Planet, range: real, m: Numerics)
    requires range > 0.0
  {
    InRange(x, y, p, range, m) && AssistStrength(range, Gap(x, y, p, m)) > 0.5
  }

  /** The pull of one planet on the rocket at (x, y). */
  function Assist(x: real, y: real, k: Kick, p: Planet, range: real, boost: real, m: Numerics): (r: Kick)
    requires range > 0.0 && p.radius > 0.0
    ensures !InRange(x, y, p, range, m) ==> r == k
    ensures r.assists == if Counts(x, y, p, range, m) then k.assists + 1 else k.assists
  {
    if InRange(x, y, p, range, m) then
      var d := Gap(x, y, p, m);
      var impulse := Impulse(p.x - x, p.y - y, d, AssistStrength(range, d) * 0.3 * boost);
      Kick(k.vx + impulse.0, k.vy + impulse.1,
           if Counts(x, y, p, range, m) then k.assists + 1 else k.assists)
    else k
  }

  /** A planet's pull changes the velocity only at right angles to the rocket-to-planet vector. */
  lemma AssistPerpendicular(x: real, y: real, k: Kick, p: Planet, range: real, boost: real, m: Numerics)
    requires range > 0.0 && p.radius > 0.0
    ensures var r := Assist(x, y, k, p, range, boost, m);
      (r.vx - k.vx) * (p.x - x) + (r.vy - k.vy) * (p.y - y) == 0.0
  {
    if InRange(x, y, p, range, m) {
      var d := Gap(x, y, p, m);
      ImpulsePerpendicular(p.x - x, p.y - y, d, AssistStrength(range, d) * 0.3 * boost);
    }
  }

  /** The number of planets that count as an assist for the rocket at (x, y). */
  function Qualifying(x: real, y: real, planets: seq<Planet>, range: real, m: Numerics): (n: nat)
    requires range > 0.0
    ensures n <= |planets|
  {
    if |planets| == 0 then 0
    else
      Qualifying(x, y, planets[..|planets| - 1], range, m)
        + (if Counts(x, y, planets[|planets| - 1], range, m) then 1 else 0)
  }

  /** The pull of every planet in turn, in list order; the rocket does not move meanwhile. */
  function AssistAll(x: real, y: real, k: Kick, planets: seq<Planet>, range: real, boost: real, m: Numerics): (r: Kick)
    requires range > 0.0 && AllValid(planets)
    ensures r.assists == k.assists + Qualifying(x, y, planets, range, m)
    ensures k.assists <= r.assists <= k.assists + |planets|
  {
    if |planets| == 0 then k
    else
      Assist(x, y, AssistAll(x, y, k, planets[..|planets| - 1], range, boost, m),
             planets[|planets| - 1], range, boost, m)
  }

  /** Planets that are all out of range leave velocity and count as they were. */
  lemma {:induction false} AssistAllOutOfRange(x: real, y: real, k: Kick, planets: seq<Planet>, range: real, boost: real, m: Numerics)
    requires range > 0.0 && AllValid(planets)
    requires forall i :: 0 <= i < |planets| ==> !InRange(x, y, planets[i], range, m)
    ensures AssistAll(x, y, k, planets, range, boost, m) == k
  {
    if |planets| > 0 {
      AssistAllOutOfRange(x, y, k, planets[..|planets| - 1], range, boost, m);
    }
  }

  /** The velocity after gravity, drag and lift, with the speed the drag was measured at. */
  datatype Flow = Flow(vx: real, vy: real, speed: real)

  /**
   * The first phase of a tick: gravity, then drag against the speed measured after gravity,
   * then lift, which pushes the rocket up (towards smaller y) only while it moves right.
   */
  function Aero(s: RocketState, levels: Levels, m: Numerics): (r: Flow)
    ensures r.speed == Length(s.vx, s.vy + Gravity, m)
    ensures r.vx == Dragged(s.vx, DragCoef(levels), r.speed)
    ensures r.vx <= 0.0 ==> r.vy == Dragged(s.vy + Gravity, DragCoef(levels), r.speed)
  {
    var vy1 := s.vy + Gravity;
    var speed := Length(s.vx, vy1, m);
    var vx2 := Dragged(s.vx, DragCoef(levels), speed);
    var vy2 := Dragged(vy1, DragCoef(levels), speed);
    Flow(vx2, if vx2 > 0.0 then vy2 - LiftCoef(levels) * vx2 else vy2, speed)
  }

  /** One velocity component after drag: the drag force opposes it, in proportion to the speed. */
  function Dragged(v: real, dragCoef: real, speed: real): real
  {
    v + -v * dragCoef * speed
  }

  /**
   * While the drag per unit of velocity (coefficient times speed) is at most one, drag slows
   * a velocity component towards zero and never reverses it.
   */
  lemma DragOpposes(v: real, dragCoef: real, speed: real)
    requires 0.0 <= dragCoef * speed <= 1.0
    ensures 0.0 <= v ==> 0.0 <= Dragged(v, dragCoef, speed) <= v
    ensures v <= 0.0 ==> v <= Dragged(v, dragCoef, speed) <= 0.0
  {
    var keep := 1.0 - dragCoef * speed;
    assert Dragged(v, dragCoef, speed) == v * keep;
    ShrinkTowardsZero(v, keep);
  }

  lemma ShrinkTowardsZero(v: real, f: real)
    requires 0.0 <= f <= 1.0
    ensures 0.0 <= v ==> 0.0 <= v * f <= v
    ensures v <= 0.0 ==> v <= v * f <= 0.0
  {
    assert v - v * f == v * (1.0 - f);
  }

  /**
   * What the first phase promises: while the drag per unit of velocity is at most one, drag
   * slows the horizontal motion without reversing it; lift pushes the rocket up (towards
   * smaller y) exactly when it moves right, and otherwise the vertical velocity is the dragged one.
   */
  lemma AeroSteers(s: RocketState, levels: Levels, m: Numerics)
    ensures var r := Aero(s, levels, m);
      0.0 <= DragCoef(levels) * r.speed <= 1.0 ==>
        && (0.0 <= s.vx ==> 0.0 <= r.vx <= s.vx)
        && (s.vx <= 0.0 ==> s.vx <= r.vx <= 0.0)
    ensures var r := Aero(s, levels, m);
      r.vx > 0.0 <==> r.vy < Dragged(s.vy + Gravity, DragCoef(levels), r.speed)
  {
    var r := Aero(s, levels, m);
    if 0.0 <= DragCoef(levels) * r.speed <= 1.0 {
      DragOpposes(s.vx, DragCoef(levels), r.speed);
    }
    if r.vx > 0.0 {
      assert LiftCoef(levels) * r.vx > 0.0;
    }
  }

  /** The drag coefficient, which the nosecone upgrade lowers. */
  function DragCoef(levels: Levels): (r: real)
    ensures r <= 0.001
  {
    0.001 * (1.0 - Percent(BonusOf(Nosecone, levels)))
  }

  /** The lift coefficient, which the wings upgrade raises. */
  function LiftCoef(levels: Levels): (r: real)
    ensures r >= 0.002
  {
    0.002 * (1.0 + Percent(BonusOf(Wings, levels)))
  }

  /**
   * The drag coefficient is the base 0.001 without a nosecone, each nosecone level lowers it,
   * and it stays non-negative exactly while the nosecone bonus is at most 100 percent.
   */
  lemma NoseconeLowersDrag(levels: Levels)
    ensures Nosecone !in levels ==> DragCoef(levels) == 0.001
    ensures Nosecone in levels ==>
      DragCoef(levels[Nosecone := levels[Nosecone] + 1]) < DragCoef(levels)
    ensures DragCoef(levels) >= 0.0 <==> BonusOf(Nosecone, levels) <= 100
  {
  }

  /** Each wings level raises the lift coefficient. */
  lemma WingsRaiseLift(levels: Levels)
    requires Wings in levels
    ensures LiftCoef(levels[Wings := levels[Wings] + 1]) > LiftCoef(levels)
  {
  }

  /**
   * The last phase of a tick, on a state whose velocity already holds the assists: move,
   * turn the nose along the velocity when fast enough, record the statistics, then land on
   * the ground or stop at the left edge.
   */
  function Advance(s: RocketState, speed: real, m: Numerics): (r: RocketState)
    ensures r.vx == s.vx && r.vy == s.vy && r.gravityAssists == s.gravityAssists
    ensures r.x == s.x + s.vx && r.y == Min(s.y + s.vy, Ground)
    ensures r.isFlying <==> s.isFlying && s.y + s.vy < Ground && r.x >= 0.0
    ensures r.distance == Max(s.distance, r.x) && r.maxHeight == Max(s.maxHeight, HeightOrigin - (s.y + s.vy))
    ensures r.fuel == s.fuel && r.maxFuel == s.maxFuel
    ensures r.angle == if speed > 1.0 then m.Atan2(s.vy, s.vx) else s.angle
  {
    var x, y := s.x + s.vx, s.y + s.vy;
    var landed := y >= Ground;
    RocketState(x, if landed then Ground else y, s.vx, s.vy,
                if speed > 1.0 then m.Atan2(s.vy, s.vx) else s.angle, s.fuel, s.maxFuel,
                Max(s.distance, x), Max(s.maxHeight, HeightOrigin - y), s.gravityAssists,
                s.isFlying && !landed && x >= 0.0)
  }

  /**
   * One simulation tick: the forces, the gravity-assist pass over the planets, then the move
   * and the checks. A stopped rocket does not change.
   */
  function Tick(s: RocketState, planets: seq<Planet>, levels: Levels, m: Numerics): (r: RocketState)
    requires AllValid(planets)
    ensures !s.isFlying ==> r == s
    ensures r.distance >= s.distance && r.maxHeight >= s.maxHeight
    ensures s.gravityAssists <= r.gravityAssists <= s.gravityAssists + |planets|
    ensures r.fuel == s.fuel && r.maxFuel == s.maxFuel
    ensures Sane(s) ==> Sane(r)
    ensures s.isFlying ==>
      && r.x == s.x + r.vx
      && r.y == Min(s.y + r.vy, Ground)
      && (r.isFlying <==> r.y < Ground && r.x >= 0.0)
      && r.distance == Max(s.distance, r.x)
      && r.maxHeight == Max(s.maxHeight, HeightOrigin - (s.y + r.vy))
      && r.gravityAssists == s.gravityAssists + Qualifying(s.x, s.y, planets, DetectionRange(levels), m)
  {
    if !s.isFlying then s
    else
      var f := Aero(s, levels, m);
      var k := AssistAll(s.x, s.y, Kick(f.vx, f.vy, s.gravityAssists), planets,
                         DetectionRange(levels), BoostPower(levels), m);
      Advance(s.(vx := k.vx, vy := k.vy, gravityAssists := k.assists), f.speed, m)
  }

  /** A rocket that ends a tick on or below the ground has landed there. */
  lemma TickLanding(s: RocketState, planets: seq<Planet>, levels: Levels, m: Numerics)
    requires AllValid(planets) && s.isFlying
    ensures var r := Tick(s, planets, levels, m);
      s.y + r.vy >= Ground ==> r.y == Ground && !r.isFlying
  {
  }

  /** A rocket that ends a tick left of the screen stops there. */
  lemma TickLeftEdge(s: RocketState, planets: seq<Planet>, levels: Levels, m: Numerics)
    requires AllValid(planets)
    ensures var r := Tick(s, planets, levels, m); r.x < 0.0 ==> !r.isFlying
  {
  }

  /** The rocket after `n` ticks. */
  function Ticks(s: RocketState, n: nat, planets: seq<Planet>, levels: Levels, m: Numerics): RocketState
    requires AllValid(planets)
  {
    if n == 0 then s else Tick(Ticks(s, n - 1, planets, levels, m), planets, levels, m)
  }

  /** Ticking a stopped rocket any number of times leaves it exactly as it was. */
  lemma {:induction false} StoppedStaysStopped(s: RocketState, n: nat, planets: seq<Planet>, levels: Levels, m: Numerics)
    requires AllValid(planets) && !s.isFlying
    ensures Ticks(s, n, planets, levels, m) == s
  {
    if n > 0 {
      StoppedStaysStopped(s, n - 1, planets, levels, m);
    }
  }

  /** Over many ticks the statistics never decrease and fuel stays as it was. */
  lemma {:induction false} TicksMonotone(s: RocketState, n: nat, planets: seq<Planet>, levels: Levels, m: Numerics)
    requires AllValid(planets)
    ensures var r := Ticks(s, n, planets, levels, m);
      && r.distance >= s.distance && r.maxHeight >= s.maxHeight
      && s.gravityAssists <= r.gravityAssists <= s.gravityAssists + n * |planets|
      && r.fuel == s.fuel
  {
    if n > 0 {
      TicksMonotone(s, n - 1, planets, levels, m);
      assert n * |planets| == (n - 1) * |planets| + |planets|;
    }
  }

  /**
   * Upgrade levels under which a launch never comes down: twenty nosecone levels cancel drag
   * and eighteen ramp levels give a launch speed of 100, at which lift exactly cancels gravity.
   */
  const Hovering: Levels := InitialLevels[Nosecone := 20][Ramp := 18]

  /**
   * Flight has no bound on its length: with the `Hovering` levels and no planet in the field,
   * the rocket climbs and moves right at constant velocity, tick after tick, and never stops.
   */
  lemma {:induction false} EndlessFlight(n: nat, m: Numerics)
    ensures var r := Ticks(Launched(Hovering, m), n, [], Hovering, m);
      && r.isFlying && r.vx == 100.0 && r.vy == -20.0
      && r.x == LaunchX + 100.0 * n as real && r.y == LaunchY - 20.0 * n as real
  {
    if n > 0 {
      EndlessFlight(n - 1, m);
      HoverStep(Ticks(Launched(Hovering, m), n - 1, [], Hovering, m), m);
    }
  }

  /** One tick of the hovering flight: velocity stays, the rocket moves 100 right and 20 up. */
  lemma HoverStep(s: RocketState, m: Numerics)
    requires s.isFlying && s.vx == 100.0 && s.vy == -20.0 && s.x >= 0.0 && s.y <= LaunchY
    ensures var r := Tick(s, [], Hovering, m);
      && r.isFlying && r.vx == 100.0 && r.vy == -20.0 && r.x == s.x + 100.0 && r.y == s.y - 20.0
  {
    assert DragCoef(Hovering) == 0.0 && LiftCoef(Hovering) == 0.002;
    var f := Aero(s, Hovering, m);
    assert f.vx == 100.0 && f.vy == -20.0;
  }
}
