/**
 * Run control: the planet field drawn for each flight, the launch guard, one frame of the
 * game loop, the settlement of a finished flight, the full reset, and the `Game` object
 * that drives them.
 */
module Controller {
  import opened Wrappers
  import opened Economy
  import opened Profiles
  import opened Shop
  import opened Physics
  import opened Rockets

  /** How many planets each flight is given. */
  const PlanetCount := 15

  /** The three draws of the random source that fix one planet. */
  datatype PlanetDraw = PlanetDraw(rx: real, ry: real, rr: real)

  /** A draw as the random source delivers it: each part in [0, 1). */
  predicate UnitDraw(d: PlanetDraw)
  {
    0.0 <= d.rx < 1.0 && 0.0 <= d.ry < 1.0 && 0.0 <= d.rr < 1.0
  }

  predicate UnitDraws(draws: seq<PlanetDraw>)
  {
    forall i :: 0 <= i < |draws| ==> UnitDraw(draws[i])
  }

  /**
   * The planet a draw places: somewhere in the strip 500 to 8500 across and 200 to 600 down,
   * with a radius from 20 to 50 and a mass equal to its radius.
   */
  function PlanetFrom(d: PlanetDraw): (p: Planet)
    ensures p.mass == p.radius
    ensures UnitDraw(d) ==> 500.0 <= p.x < 8500.0 && 200.0 <= p.y < 600.0
    ensures UnitDraw(d) ==> 20.0 <= p.radius < 50.0
  {
    var radius := 20.0 + d.rr * 30.0;
    Planet(500.0 + d.rx * 8000.0, 200.0 + d.ry * 400.0, radius, radius)
  }

  /** The planet field, one planet per draw, in draw order. */
  function Field(draws: seq<PlanetDraw>): (r: seq<Planet>)
    ensures |r| == |draws|
    ensures forall i :: 0 <= i < |draws| ==> r[i] == PlanetFrom(draws[i])
  {
    if |draws| == 0 then [] else Field(draws[..|draws| - 1]) + [PlanetFrom(draws[|draws| - 1])]
  }

  /** A field drawn from proper draws holds only planets of positive radius, inside the strip. */
  lemma FieldValid(draws: seq<PlanetDraw>)
    requires UnitDraws(draws)
    ensures AllValid(Field(draws))
    ensures forall p :: p in Field(draws) ==> 500.0 <= p.x < 8500.0 && 200.0 <= p.y < 600.0
  {
    forall p | p in Field(draws)
      ensures p.radius > 0.0 && 500.0 <= p.x < 8500.0 && 200.0 <= p.y < 600.0
    {
      var i :| 0 <= i < |Field(draws)| && Field(draws)[i] == p;
      assert UnitDraw(draws[i]);
    }
  }

  /**
   * The earnings of a flight, as the floored formula is written: a tenth of the distance plus a
   * fifth of the height, floored, plus 50 per gravity assist, scaled by the luck bonus in
   * percent and floored again.
   */
  function Earnings(distance: int, height: int, assists: nat, luck: nat): int
  {
    var baseEarnings := (distance as real / 10.0 + height as real / 5.0).Floor;
    var luckBonus := 1.0 + luck as real * 0.01;
    var assistBonus := assists * 50;
    ((baseEarnings + assistBonus) as real * luckBonus).Floor
  }

  /** The same earnings in integer arithmetic alone. */
  lemma EarningsClosedForm(distance: int, height: int, assists: nat, luck: nat)
    ensures Earnings(distance, height, assists, luck)
      == ((distance + 2 * height) / 10 + 50 * assists) * (100 + luck) / 100
  {
    var n := distance + 2 * height;
    assert distance as real / 10.0 + height as real / 5.0 == n as real / 10 as real;
    FloorOfQuotient(n, 10);
    var b := n / 10 + assists * 50;
    assert b as real * (1.0 + luck as real * 0.01) == (b * (100 + luck)) as real / 100 as real;
    FloorOfQuotient(b * (100 + luck), 100);
  }

  /** A flight that went nowhere and counted no assist earns nothing; otherwise it earns. */
  lemma EarningsNonNegative(distance: int, height: int, assists: nat, luck: nat)
    requires distance >= 0 && height >= 0
    ensures Earnings(distance, height, assists, luck) >= 0
    ensures distance + 2 * height >= 10 || assists > 0 ==> Earnings(distance, height, assists, luck) >= 1
  {
    EarningsClosedForm(distance, height, assists, luck);
    var b := (distance + 2 * height) / 10 + 50 * assists;
    assert b >= 0;
    assert b * (100 + luck) >= b * 100 by { MultiplyMore(b, 100, 100 + luck); }
  }

  lemma MultiplyMore(b: int, c: int, e: int)
    requires b >= 0 && c <= e
    ensures b * c <= b * e
  {
    assert b * e - b * c == b * (e - c);
  }

  /** Flying further, climbing higher, counting more assists or owning more luck never earns less. */
  lemma EarningsMonotone(d1: int, h1: int, a1: nat, l1: nat, d2: int, h2: int, a2: nat, l2: nat)
    requires 0 <= d1 <= d2 && 0 <= h1 <= h2 && a1 <= a2 && l1 <= l2
    ensures Earnings(d1, h1, a1, l1) <= Earnings(d2, h2, a2, l2)
  {
    EarningsClosedForm(d1, h1, a1, l1);
    EarningsClosedForm(d2, h2, a2, l2);
    var b1 := (d1 + 2 * h1) / 10 + 50 * a1;
    var b2 := (d2 + 2 * h2) / 10 + 50 * a2;
    assert 0 <= b1 <= b2;
    MultiplyMore(b1, 100 + l1, 100 + l2);
    assert b1 * (100 + l2) <= b2 * (100 + l2) by { MultiplyMore(100 + l2, b1, b2); }
  }

  /** A worked flight: 530 across, 210 up, two assists and 30 percent luck earn 253. */
  lemma EarningsExample()
    ensures Earnings(530, 210, 2, 30) == 253
  {
    EarningsClosedForm(530, 210, 2, 30);
  }

  /**
   * The profile after a finished flight: the floored distance and height and the assists are
   * paid for at the owned luck bonus, and each best record is raised to the flight's floored
   * value when that beats it.
   */
  function Settle(p: Profile, s: RocketState): (r: Profile)
    ensures r.upgrades == p.upgrades
    ensures r.money == p.money
      + Earnings(s.distance.Floor, s.maxHeight.Floor, s.gravityAssists, BonusOf(Luck, p.upgrades))
    ensures r.bestDistance >= p.bestDistance && r.bestDistance >= s.distance.Floor
    ensures r.bestDistance == p.bestDistance || r.bestDistance == s.distance.Floor
    ensures r.bestHeight >= p.bestHeight && r.bestHeight >= s.maxHeight.Floor
    ensures r.bestHeight == p.bestHeight || r.bestHeight == s.maxHeight.Floor
  {
    var distance := s.distance.Floor;
    var height := s.maxHeight.Floor;
    var totalEarnings := Earnings(distance, height, s.gravityAssists, BonusOf(Luck, p.upgrades));
    Profile(p.money + totalEarnings,
            if distance > p.bestDistance then distance else p.bestDistance,
            if height > p.bestHeight then height else p.bestHeight,
            p.upgrades)
  }

  /** A settled flight of a sane rocket never costs money. */
  lemma SettleNeverCosts(p: Profile, s: RocketState)
    requires Sane(s)
    ensures Settle(p, s).money >= p.money
  {
    EarningsNonNegative(s.distance.Floor, s.maxHeight.Floor, s.gravityAssists, BonusOf(Luck, p.upgrades));
  }

  /**
   * A worked settlement at luck level 3: a flight of 530.7 across and 210.2 up with two assists
   * pays 253, keeps the longer distance record and sets a new height record of 210.
   */
  lemma SettleExample()
    ensures var p := Profile(1000, 600, 100, InitialLevels[Luck := 3]);
      var s := RocketState(530.7, Ground, 0.0, 0.0, 0.0, 0.0, 100.0, 530.7, 210.2, 2, false);
      Settle(p, s) == Profile(1253, 600, 210, p.upgrades)
  {
    EarningsExample();
    assert (530.7).Floor == 530 && (210.2).Floor == 210;
    assert BonusOf(Luck, InitialLevels[Luck := 3]) == 30;
  }

  /** Everything the game object holds, as one value. */
  datatype Session = Session(
    profile: Profile,
    storage: Option<SaveBlob>,
    rocket: RocketState,
    planets: seq<Planet>,
    cameraX: real,
    cameraY: real,
    isPlaying: bool,
    thrustActive: bool)

  /** The end of a flight: play stops, the flight is settled into the profile, and it is saved. */
  function AfterEndFlight(g: Session): (r: Session)
    ensures !r.isPlaying
    ensures r.profile == Settle(g.profile, g.rocket)
    ensures r.storage == Some(Snapshot(r.profile))
    ensures r.(profile := g.profile, storage := g.storage, isPlaying := g.isPlaying) == g
  {
    var settled := Settle(g.profile, g.rocket);
    g.(isPlaying := false, profile := settled, storage := Some(Snapshot(settled)))
  }

  /**
   * One frame of the game loop: nothing while not playing; otherwise thrust as held, one flight
   * step, the camera following the rocket, and the end of the flight once the rocket stops.
   */
  function AfterFrame(g: Session, m: Numerics): (r: Session)
    requires AllValid(g.planets)
    ensures !g.isPlaying ==> r == g
    ensures r.planets == g.planets && r.thrustActive == g.thrustActive
    ensures r.profile.upgrades == g.profile.upgrades
    ensures g.isPlaying ==>
      && r.rocket == Tick(Thrusted(g.rocket, g.thrustActive, g.profile.upgrades, m), g.planets, g.profile.upgrades, m)
      && r.cameraX == r.rocket.x - CameraOffsetX
      && r.cameraY == r.rocket.y - CameraOffsetY
      && (r.isPlaying <==> r.rocket.isFlying)
    ensures g.isPlaying && !r.isPlaying ==>
      r.profile == Settle(g.profile, r.rocket) && r.storage == Some(Snapshot(r.profile))
    ensures r.isPlaying ==> r.profile == g.profile && r.storage == g.storage
    ensures Sane(g.rocket) ==> Sane(r.rocket)
  {
    if !g.isPlaying then g
    else
      var levels := g.profile.upgrades;
      var rocket := Tick(Thrusted(g.rocket, g.thrustActive, levels, m), g.planets, levels, m);
      var moved := g.(rocket := rocket, cameraX := rocket.x - CameraOffsetX,
                      cameraY := rocket.y - CameraOffsetY);
      if !rocket.isFlying then AfterEndFlight(moved) else moved
  }

  /**
   * Launching: refused while a flight is in play; otherwise the rocket is put on the pad, a new
   * field is drawn, play starts with thrust released and the camera at the origin, and the
   * first frame runs at once.
   */
  function AfterLaunch(g: Session, draws: seq<PlanetDraw>, m: Numerics): (r: Session)
    requires UnitDraws(draws)
    ensures g.isPlaying ==> r == g
    ensures !g.isPlaying ==>
      && r.planets == Field(draws)
      && !r.thrustActive
      && r.rocket == Tick(Launched(g.profile.upgrades, m), r.planets, g.profile.upgrades, m)
      && r.profile.upgrades == g.profile.upgrades
  {
    if g.isPlaying then g
    else
      FieldValid(draws);
      var levels := g.profile.upgrades;
      AfterFrame(g.(rocket := Launched(levels, m), planets := Field(draws), isPlaying := true,
                    thrustActive := false, cameraX := 0.0, cameraY := 0.0), m)
  }

  /**
   * The confirmed full reset: the profile returns to the initial one and is saved, the rocket
   * is built anew on the pad with no upgrades, and play stops; unconfirmed, nothing happens.
   */
  function AfterReset(g: Session, confirmed: bool, m: Numerics): (r: Session)
    ensures !confirmed ==> r == g
    ensures confirmed ==>
      && r.profile == Initial
      && r.storage == Some(Snapshot(Initial))
      && r.rocket == Launched(InitialLevels, m)
      && !r.isPlaying
    ensures r.planets == g.planets && r.thrustActive == g.thrustActive
    ensures r.cameraX == g.cameraX && r.cameraY == g.cameraY
  {
    if !confirmed then g
    else g.(profile := Initial, storage := Some(Snapshot(Initial)),
            rocket := Launched(InitialLevels, m), isPlaying := false)
  }

  /** What a later start loads after a confirmed reset is the initial profile, whatever it loads into. */
  lemma ResetSurvivesReload(g: Session, m: Numerics, current: Profile)
    ensures Restore(current, AfterReset(g, true, m).storage) == Initial
  {
    RoundTrip(Initial, current);
  }

  /** While a flight is in play the rocket is flying; a frame and a launch keep it so. */
  predicate Coherent(g: Session)
  {
    AllValid(g.planets) && (g.isPlaying ==> g.rocket.isFlying) && Sane(g.rocket)
  }

  lemma FrameCoherent(g: Session, m: Numerics)
    requires Coherent(g)
    ensures Coherent(AfterFrame(g, m))
  {
  }

  lemma LaunchCoherent(g: Session, draws: seq<PlanetDraw>, m: Numerics)
    requires Coherent(g) && UnitDraws(draws)
    ensures Coherent(AfterLaunch(g, draws, m))
  {
    FieldValid(draws);
  }

  /** A flight is paid for once: after the frame that ends it, further frames change nothing. */
  lemma SettledOnce(g: Session, m: Numerics)
    requires AllValid(g.planets) && !AfterFrame(g, m).isPlaying
    ensures AfterFrame(AfterFrame(g, m), m) == AfterFrame(g, m)
  {
  }

  /** The session after `n` frames. */
  function Frames(g: Session, n: nat, m: Numerics): Session
    requires AllValid(g.planets)
    decreases n
  {
    if n == 0 then g else Frames(AfterFrame(g, m), n - 1, m)
  }

  /**
   * Over any number of frames from a coherent session, money never falls, the best records
   * never fall, the upgrades and the field stay as they are, and the session stays coherent.
   */
  lemma {:induction false} FramesNeverLose(g: Session, n: nat, m: Numerics)
    requires Coherent(g)
    ensures var r := Frames(g, n, m);
      && Coherent(r)
      && r.profile.money >= g.profile.money
      && r.profile.bestDistance >= g.profile.bestDistance
      && r.profile.bestHeight >= g.profile.bestHeight
      && r.profile.upgrades == g.profile.upgrades
      && r.planets == g.planets
    decreases n
  {
    if n > 0 {
      var g1 := AfterFrame(g, m);
      FrameCoherent(g, m);
      if g.isPlaying && !g1.isPlaying {
        SettleNeverCosts(g.profile, g1.rocket);
      }
      FramesNeverLose(g1, n - 1, m);
    }
  }

  /** The game object: the profile holder, the shop, the rocket and the state of play. */
  class Game {
    const gameState: GameState
    const upgradeSystem: UpgradeSystem
    var rocket: Rocket
    var planets: seq<Planet>
    var cameraX: real
    var cameraY: real
    var isPlaying: bool
    var thrustActive: bool

    /** The shop and the rocket work on this game's profile, and the field is well formed. */
    ghost predicate Valid()
      reads this
    {
      upgradeSystem.gameState == gameState && rocket.upgradeSystem == upgradeSystem
      && AllValid(planets)
    }

    function Current(): Session
      reads this, rocket, gameState
    {
      Session(gameState.AsProfile(), gameState.storage, rocket.State(), planets,
              cameraX, cameraY, isPlaying, thrustActive)
    }

    /**
     * A new game: the profile is loaded from the storage slot, the rocket waits on the pad,
     * nothing is in play, and a first field is drawn.
     */
    constructor (stored: Option<SaveBlob>, draws: seq<PlanetDraw>, m: Numerics)
      requires |draws| == PlanetCount && UnitDraws(draws)
      ensures Valid()
      ensures Current() == Session(Restore(Initial, stored), stored,
                                   Launched(Restore(Initial, stored).upgrades, m), Field(draws),
                                   0.0, 0.0, false, false)
    {
      var state := new GameState(stored);
      var shop := new UpgradeSystem(state);
      gameState := state;
      upgradeSystem := shop;
      rocket := new Rocket(shop, m);
      planets := [];
      cameraX := 0.0;
      cameraY := 0.0;
      isPlaying := false;
      thrustActive := false;
      new;
      FieldValid(draws);
      GeneratePlanets(draws);
    }

    /** Draws a new field of planets, one per draw. */
    method GeneratePlanets(draws: seq<PlanetDraw>)
      requires |draws| == PlanetCount
      modifies this`planets
      ensures planets == Field(draws)
    {
      planets := [];
      var i := 0;
      while i < PlanetCount
        invariant 0 <= i <= PlanetCount
        invariant planets == Field(draws[..i])
      {
        var d := draws[i];
        var x := 500.0 + d.rx * 8000.0;
        var y := 200.0 + d.ry * 400.0;
        var radius := 20.0 + d.rr * 30.0;
        var mass := radius;
        planets := planets + [Planet(x, y, radius, mass)];
        assert draws[..i + 1][..i] == draws[..i];
        i := i + 1;
      }
      assert draws[..PlanetCount] == draws;
    }

    /** Starts a flight unless one is in play, and runs its first frame. */
    method Launch(draws: seq<PlanetDraw>, m: Numerics)
      requires Valid() && |draws| == PlanetCount && UnitDraws(draws)
      modifies this, rocket, gameState
      ensures Valid() && rocket == old(rocket)
      ensures Current() == AfterLaunch(old(Current()), draws, m)
    {
      if isPlaying {
        return;
      }
      rocket.Reset(m);
      GeneratePlanets(draws);
      FieldValid(draws);
      isPlaying := true;
      thrustActive := false;
      cameraX := 0.0;
      cameraY := 0.0;
      GameLoop(m);
    }

    /** One frame: thrust, the flight step, the camera, and the end of the flight when it stops. */
    method GameLoop(m: Numerics)
      requires Valid()
      modifies this, rocket, gameState
      ensures Valid() && rocket == old(rocket)
      ensures Current() == AfterFrame(old(Current()), m)
    {
      if !isPlaying {
        return;
      }
      rocket.ApplyThrust(thrustActive, m);
      rocket.Update(planets, m);
      cameraX := rocket.x - CameraOffsetX;
      cameraY := rocket.y - CameraOffsetY;
      if !rocket.isFlying {
        EndFlight();
        return;
      }
    }

    /** Stops play, pays for the flight, raises the records it beat, and saves. */
    method EndFlight()
      requires Valid()
      modifies this`isPlaying, gameState
      ensures Current() == AfterEndFlight(old(Current()))
    {
      isPlaying := false;
      var distance := rocket.distance.Floor;
      var height := rocket.maxHeight.Floor;
      var assists := rocket.gravityAssists;
      var totalEarnings := Earnings(distance, height, assists, BonusOf(Luck, gameState.upgrades));
      gameState.money := gameState.money + totalEarnings;
      if distance > gameState.bestDistance {
        gameState.bestDistance := distance;
      }
      if height > gameState.bestHeight {
        gameState.bestHeight := height;
      }
      gameState.SaveGame();
    }

    /** The confirmed full reset: clears and saves the profile and builds a fresh rocket. */
    method ResetGame(confirmed: bool, m: Numerics)
      requires Valid()
      modifies this, gameState
      ensures Valid()
      ensures Current() == AfterReset(old(Current()), confirmed, m)
    {
      if confirmed {
        gameState.ResetGame();
        rocket := new Rocket(upgradeSystem, m);
        isPlaying := false;
      }
    }

    /** Pressing the thrust control holds thrust, but only while a flight is in play. */
    method PressThrust()
      modifies this`thrustActive
      ensures thrustActive == (old(thrustActive) || isPlaying)
    {
      if isPlaying {
        thrustActive := true;
      }
    }

    /** Releasing the thrust control always lets go of thrust. */
    method ReleaseThrust()
      modifies this`thrustActive
      ensures !thrustActive
    {
      thrustActive := false;
    }
  }
}
