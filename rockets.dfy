/** The rocket object, whose fields each frame updates in place. */
module Rockets {
  import opened Economy
  import opened Profiles
  import opened Shop
  import opened Physics

  class Rocket {
    /** Where the rocket reads its upgrade bonuses from. */
    const upgradeSystem: UpgradeSystem
    var x: real
    var y: real
    var vx: real
    var vy: real
    var angle: real
    var fuel: real
    var maxFuel: real
    var distance: real
    var maxHeight: real
    var gravityAssists: nat
    var isFlying: bool

    function State(): RocketState
      reads this
    {
      RocketState(x, y, vx, vy, angle, fuel, maxFuel, distance, maxHeight, gravityAssists, isFlying)
    }

    /** The upgrade levels currently owned. */
    function Upgrades(): Levels
      reads upgradeSystem.gameState
    {
      upgradeSystem.gameState.upgrades
    }

    constructor (upgradeSystem: UpgradeSystem, m: Numerics)
      ensures this.upgradeSystem == upgradeSystem
      ensures State() == Launched(Upgrades(), m)
    {
      this.upgradeSystem := upgradeSystem;
      new;
      Reset(m);
    }

    /** Puts the rocket back on the launch pad with the current upgrades' initial conditions. */
    method Reset(m: Numerics)
      modifies this
      ensures State() == Launched(Upgrades(), m)
    {
      var levels := Upgrades();
      x := LaunchX;
      y := LaunchY;
      vx := 10.0 + BonusOf(Ramp, levels) as real;
      vy := -20.0 - BonusOf(Booster, levels) as real;
      angle := -m.pi / 4.0;
      fuel := 100.0 + BonusOf(Fuel, levels) as real;
      maxFuel := 100.0 + BonusOf(Fuel, levels) as real;
      distance := 0.0;
      maxHeight := 0.0;
      isFlying := true;
      gravityAssists := 0;
    }

    method ApplyThrust(active: bool, m: Numerics)
      modifies this
      ensures State() == Thrusted(old(State()), active, Upgrades(), m)
    {
      if !active || fuel <= 0.0 {
        return;
      }
      var levels := Upgrades();
      var thrustPower := 0.5 + Percent(BonusOf(Thrust, levels));
      var fuelEfficiency := 1.0 - Percent(BonusOf(Efficiency, levels));
      vx := vx + m.Cos(angle) * thrustPower;
      vy := vy + m.Sin(angle) * thrustPower;
      fuel := fuel - 0.5 * fuelEfficiency;
      if fuel < 0.0 {
        fuel := 0.0;
      }
    }

    /** One frame of flight; a rocket that is not flying stays as it is. */
    method Update(planets: seq<Planet>, m: Numerics)
      requires AllValid(planets)
      modifies this
      ensures State() == Tick(old(State()), planets, Upgrades(), m)
    {
      if !isFlying {
        return;
      }
      var levels := Upgrades();
      var speed := ApplyForces(levels, m);
      AssistPass(planets, DetectionRange(levels), BoostPower(levels), m);
      Move(speed, m);
    }

    /** Gravity, drag and lift; returns the speed the drag was measured at. */
    method ApplyForces(levels: Levels, m: Numerics) returns (speed: real)
      modifies this
      ensures Flow(vx, vy, speed) == Aero(old(State()), levels, m)
      ensures State() == old(State()).(vx := vx, vy := vy)
    {
      vy := vy + Gravity;

      var dragCoef := DragCoef(levels);
      var liftCoef := LiftCoef(levels);
      speed := Length(vx, vy, m);
      vx := Dragged(vx, dragCoef, speed);
      vy := Dragged(vy, dragCoef, speed);

      if vx > 0.0 {
        vy := vy - liftCoef * vx;
      }
    }

    /** The move, the heading, the statistics and the landing and left-edge checks. */
    method Move(speed: real, m: Numerics)
      modifies this
      ensures State() == Advance(old(State()), speed, m)
    {
      x := x + vx;
      y := y + vy;

      if speed > 1.0 {
        angle := m.Atan2(vy, vx);
      }

      distance := Max(distance, x);
      maxHeight := Max(maxHeight, HeightOrigin - y);

      if y >= Ground {
        y := Ground;
        isFlying := false;
      }

      if x < 0.0 {
        isFlying := false;
      }
    }

    /** The gravity-assist pass: each planet in turn may kick the velocity and count an assist. */
    method AssistPass(planets: seq<Planet>, detectionRange: real, boostPower: real, m: Numerics)
      requires AllValid(planets) && detectionRange > 0.0
      modifies this
      ensures Kick(vx, vy, gravityAssists)
        == AssistAll(x, y, Kick(old(vx), old(vy), old(gravityAssists)), planets, detectionRange, boostPower, m)
      ensures State() == old(State()).(vx := vx, vy := vy, gravityAssists := gravityAssists)
    {
      ghost var k0 := Kick(vx, vy, gravityAssists);
      ghost var before := State();
      var i := 0;
      while i < |planets|
        invariant 0 <= i <= |planets|
        invariant Kick(vx, vy, gravityAssists) == AssistAll(x, y, k0, planets[..i], detectionRange, boostPower, m)
        invariant State() == before.(vx := vx, vy := vy, gravityAssists := gravityAssists)
      {
        Pull(planets[i], detectionRange, boostPower, m);
        assert planets[..i + 1][..i] == planets[..i];
        i := i + 1;
      }
      assert planets[..|planets|] == planets;
    }
    /** The pull of one planet: the body of the pass over the planets. */
    method Pull(planet: Planet, detectionRange: real, boostPower: real, m: Numerics)
      requires planet.radius > 0.0 && detectionRange > 0.0
      modifies this
      ensures Kick(vx, vy, gravityAssists)
        == Assist(x, y, Kick(old(vx), old(vy), old(gravityAssists)), planet, detectionRange, boostPower, m)
      ensures State() == old(State()).(vx := vx, vy := vy, gravityAssists := gravityAssists)
    {
      ghost var k0 := Kick(vx, vy, gravityAssists);
      var dx := planet.x - x;
      var dy := planet.y - y;
      var gap := Length(dx, dy, m);
      assert gap == Gap(x, y, planet, m);
      if gap < detectionRange && gap > planet.radius {
        var assistStrength := AssistStrength(detectionRange, gap);
        var assistBoost := assistStrength * 0.3 * boostPower;
        var impulse := Impulse(dx, dy, gap, assistBoost);
        ghost var want := Assist(x, y, k0, planet, detectionRange, boostPower, m);
        assert want.vx == vx + impulse.0 && want.vy == vy + impulse.1;
        assert want.assists == if assistStrength > 0.5 then gravityAssists + 1 else gravityAssists;
        vx := vx + impulse.0;
        vy := vy + impulse.1;
        if assistStrength > 0.5 {
          gravityAssists := gravityAssists + 1;
        }
      }
    }
  }
}
