# Starship launcher — a verified model of the game core

This project models the game logic of a browser rocket-launch game, all of which sits in one file, `game.js`. It proves properties of the model in Dafny. Four parts are covered:

- **the upgrade economy:** ten upgrades, each with a price curve `floor(base · 1.5^level)` and a bonus of a fixed rate per level;
- **the persistent profile:** money, best distance, best height and the upgrade levels, plus the snapshot written to and restored from the browser's storage slot;
- **the flight:** the launch conditions, one frame of thrust, and one simulation tick. A tick applies gravity, drag and lift, then the gravity-assist pass over the planets, then the move, the statistics and the landing and left-edge checks;
- **run control:** the planet field drawn for each flight, the launch guard, the step order inside the game loop, the settlement of a finished flight (earnings and best records), and the full reset.

The source's objects stay objects. `GameState`, `UpgradeSystem`, `Rocket` and `Game` are Dafny classes whose methods update their fields in place.

Each method is proved equal to a pure function on values. `Rocket.Update` equals `Physics.Tick`. `Game.GameLoop` equals `Controller.AfterFrame`. `UpgradeSystem.Purchase` equals `Shop.AfterPurchase`. The properties the game promises are then proved about those functions.

Modules follow the structure of the program:

- `Wrappers`: `Option`.
- `Economy`: upgrade ids, costs and bonuses.
- `Profiles`: the profile, the save blob and the `GameState` class.
- `Shop`: the purchase and `UpgradeSystem`.
- `Physics`: the rocket state and the flight functions.
- `Rockets`: the `Rocket` class.
- `Controller`: planets, earnings, the session functions and the `Game` class.

Some conventions of the model:

- **Upgrade names.** They stay strings where the game looks them up by string. A name outside the ten keys has no cost, so it is never affordable. A name that is neither one of the ten keys nor a property every object inherits has bonus 0. So has a level table without an entry for the upgrade, as a loaded save can be. In the game that cost is a NaN.
- **Transcendentals.** `Math.sqrt`, `Math.atan2`, `Math.cos`, `Math.sin` and `Math.PI` are passed to the model as a `Numerics` value that the proofs know nothing about.
- **The assist impulse.** It is written with the exact identity `(cos(a + π/2), sin(a + π/2)) = (-dy/d, dx/d)`, where `a = atan2(dy, dx)` and `d` is the distance to the planet.
- **Random numbers.** `Math.random` in `generatePlanets` becomes a sequence of draws in [0, 1), passed as a parameter.
- **Storage.** The storage slot is a field `storage: Option<SaveBlob>` of `GameState`.
- **Inputs.** The `confirm` dialog of the reset becomes a boolean parameter. A press or release of the thrust control is a method call.

## Model

| member | source | states |
|---|---|---|
| Economy.Parse | game.js:66-77 | a key is recognised only as one of the ten upgrades, and the recognised upgrade's key is that key |
| Economy.ParseName | game.js:66-77 | every upgrade's key is recognised as that upgrade, so the ten keys are distinct |
| Economy.BaseCost | game.js:66-77 | the ten base prices, each between 100 and 600 |
| Economy.Cost | game.js:80-84 | the integer price `base·3^L div 2^L`; level 0 costs exactly the base price (its floor property is `CostIsFloor`) |
| Economy.CostIsFloor | game.js:80-84 | the integer price `base·3^L / 2^L` is exactly `floor(base · 1.5^L)` |
| Economy.CostAtLeastBase | game.js:80-84 | no level costs less than the base price |
| Economy.CostStrictlyIncreasing | game.js:80-84 | with a base price of at least 2 (all ten are 100 or more), each further level costs strictly more |
| Economy.CostMonotone | game.js:80-84 | the price strictly increases between any two levels |
| Economy.CostOf | game.js:66-84 | there is a price exactly when the name is a known upgrade with a level in the table, and it is at least that upgrade's base price |
| Economy.CostOfIncreases | game.js:80-84 | buying a level of a known upgrade makes its next level strictly dearer |
| Economy.CanAfford | game.js:86-88 | an unknown key is never affordable; an affordable key names an upgrade that has a level, and the money covers at least its base price |
| Economy.CostOfInitial | game.js:66-84 | on a fresh profile every upgrade costs its base price (100, 150, 200, 175, 250, 500, 600, 400, 300, 350) |
| Economy.Rate | game.js:104-113 | the ten per-level rates, each between 5 and 30 |
| Economy.BonusOf | game.js:101-116 | an upgrade's bonus is its level times its rate, or 0 when its level is missing |
| Economy.Bonus | game.js:101-116 | the bonus looked up by key is 0 for an unknown key and the upgrade's bonus otherwise |
| Economy.BonusByName | game.js:101-116 | an upgrade's own key finds that upgrade's bonus |
| Economy.BonusStep | game.js:101-116 | one more level adds exactly the rate (20, 15, 10, 8, 5, 30, 15, 10, 5, 10) to that bonus and no other |
| Economy.BonusUnknown | game.js:115 | a key outside the ten has bonus 0 whatever the table (inherited object properties aside, see "Left out") |
| Economy.BonusInitial | game.js:101-116 | a fresh profile grants no bonus |
| Profiles.Snapshot | game.js:22-29 | a save writes every field of the profile |
| Profiles.Restore | game.js:31-40 | without a save nothing changes; each missing number defaults to 0 and a missing table to the current one |
| Profiles.RoundTrip | game.js:22-40 | loading a saved profile gives back exactly that profile, whatever was loaded into |
| Profiles.RestorePresent | game.js:35-38 | each present field (money, best distance, best height, upgrades) is restored exactly as saved |
| Profiles.RestoreEmptyIsInitial | game.js:3-40 | loading an empty blob into a fresh profile leaves it fresh |
| Profiles.GameState.constructor | game.js:3-20 | a new state is the initial profile with whatever the storage slot holds loaded over it |
| Profiles.GameState.SaveGame | game.js:22-29 | the slot afterwards holds the snapshot of the current profile |
| Profiles.GameState.LoadGame | game.js:31-40 | the profile becomes the restore of the old profile from the slot; the slot is unchanged |
| Profiles.GameState.ResetGame | game.js:42-59 | the profile becomes the initial one and that is saved |
| Shop.UpgradeSystem.constructor | game.js:64-65 | the system reads and writes the given game state |
| Shop.AfterPurchase | game.js:86-99 | the purchase changes the profile iff the upgrade is affordable. When it is, money drops by exactly the price, only that upgrade gains one level, and money stays non-negative. When it is not, nothing changes |
| Shop.UpgradeSystem.Purchase | game.js:90-99 | reports affordability, leaves the profile as `AfterPurchase` says, and saves only after a successful purchase |
| Physics.Launched | game.js:170-182 | the launch sets position (100, 500), angle -π/4, `fuel = maxFuel = 100 + fuel bonus`, `vx = 10 + ramp bonus` and `vy = -20 - booster bonus`. It zeroes the statistics and sets the rocket flying |
| Physics.LaunchedGrowsWithUpgrades | game.js:170-182 | buying any level never launches with less fuel, less horizontal speed or less climb; a fuel level adds exactly 20 fuel |
| Physics.Thrusted | game.js:184-195 | thrust is a no-op when off or out of fuel; otherwise only velocity and fuel change and fuel stays non-negative. Fuel rises exactly when the efficiency bonus exceeds 100 |
| Physics.ThrustCanOverfill | game.js:188-192 | past ten efficiency levels a full tank overfills on thrust |
| Physics.ThrustNeverRefuels | game.js:188-192 | up to ten efficiency levels thrust never adds fuel |
| Physics.DetectionRange | game.js:221 | the detection range is never below 100 |
| Physics.BoostPower | game.js:222 | the assist multiplier is never below 1 |
| Physics.FalloffBounds | game.js:231 | the assist strength is 0 at the edge of detection and strictly between 0 and 1 inside it. It exceeds one half exactly within half the range |
| Physics.AssistStrength | game.js:231 | the falloff `(range - d) / range`; its bounds are `FalloffBounds` |
| Physics.AssistStrengthDecreases | game.js:231 | a closer planet gives a stronger assist |
| Physics.Impulse | game.js:232-237 | the slingshot impulse written as `(-dy, dx) · magnitude / d`; its direction and size are `ImpulsePerpendicular` and `ImpulseMagnitude` |
| Physics.ImpulsePerpendicular | game.js:232-237 | the slingshot impulse is at right angles to the rocket-to-planet vector and turns counter-clockwise from it |
| Physics.ImpulseMagnitude | game.js:232-237 | the impulse has exactly the assist magnitude when the distance is the true length |
| Physics.InRange | game.js:229 | a planet pulls exactly when its distance lies strictly between its radius and the detection range |
| Physics.Counts | game.js:239 | a pulling planet counts as an assist exactly when the assist strength exceeds one half |
| Physics.Assist | game.js:224-243 | a planet outside `radius < distance < range` leaves the velocity alone; the count rises by one exactly when the strength also exceeds one half |
| Physics.AssistPerpendicular | game.js:224-243 | one planet's pull changes the velocity only at right angles to the rocket-to-planet vector |
| Physics.Qualifying | game.js:239-241 | at most one assist per planet |
| Physics.AssistAll | game.js:224-243 | the assist pass raises the count by exactly the number of qualifying planets, so by at most the number of planets |
| Physics.AssistAllOutOfRange | game.js:229 | planets that are all out of range leave velocity and count unchanged |
| Physics.Aero | game.js:200-218 | drag is measured at the speed after gravity and applied to the horizontal velocity; with no forward motion the vertical velocity is dragged and not lifted |
| Physics.AeroSteers | game.js:204-218 | while drag per unit of velocity lies in [0, 1] the step never reverses or speeds up the horizontal velocity; lift lowers the vertical velocity below its dragged value exactly when the rocket moves forward |
| Physics.DragCoef | game.js:205 | the drag coefficient never exceeds its base 0.001 |
| Physics.Dragged | game.js:209-213 | one velocity component plus its drag `-v·coef·speed`; its effect is `DragOpposes` |
| Physics.DragOpposes | game.js:204-213 | while drag per unit of velocity is at most one, drag shrinks each velocity component towards zero and never reverses it |
| Physics.NoseconeLowersDrag | game.js:205 | each nosecone level lowers drag, and drag stays non-negative exactly while the nosecone bonus is at most 100 |
| Physics.LiftCoef | game.js:206 | the lift coefficient is at least its base 0.002 |
| Physics.WingsRaiseLift | game.js:206 | each wings level raises lift |
| Physics.Advance | game.js:245-267 | the move adds the velocity, clamps y to the ground, and records the maximum distance and height. The rocket stops exactly on reaching the ground or passing the left edge |
| Physics.Tick | game.js:197-268 | a stopped rocket does not change. Otherwise: distance and height never decrease; the assist count rises by the qualifying planets; fuel is untouched; the rocket stops exactly on landing or leaving left; the sanity invariant holds |
| Physics.TickLanding | game.js:258-262 | a rocket ending at or below 580 is clamped to 580 and stops |
| Physics.TickLeftEdge | game.js:264-267 | a rocket ending left of x = 0 stops |
| Physics.StoppedStaysStopped | game.js:197-198 | any number of ticks leave a stopped rocket exactly as it was |
| Physics.EndlessFlight | game.js:197-268 | nothing bounds a flight's length: with twenty nosecone and eighteen ramp levels and no planet in the field, the rocket climbs 20 and moves 100 each tick and never stops |
| Physics.TicksMonotone | game.js:197-268 | over n ticks the statistics never decrease and the assist count rises by at most n times the number of planets |
| Rockets.Rocket.constructor | game.js:165-168 | a new rocket is on the pad with the current upgrades |
| Rockets.Rocket.Reset | game.js:170-182 | the rocket state becomes `Launched` of the current upgrades |
| Rockets.Rocket.ApplyThrust | game.js:184-195 | the rocket state becomes `Thrusted` of the old state |
| Rockets.Rocket.Update | game.js:197-268 | the rocket state becomes `Tick` of the old state |
| Rockets.Rocket.ApplyForces | game.js:200-218 | velocity and measured speed become `Aero` of the old state; nothing else changes |
| Rockets.Rocket.AssistPass | game.js:224-243 | the loop over the planets leaves velocity and count as `AssistAll` says; nothing else changes |
| Rockets.Rocket.Pull | game.js:225-242 | one planet's pull changes velocity and count as `Assist` says |
| Rockets.Rocket.Move | game.js:245-267 | the rocket state becomes `Advance` of the old state |
| Controller.PlanetFrom | game.js:345-349 | a proper draw places a planet 500 to 8500 across and 200 to 600 down, with radius 20 to 50 and mass equal to the radius |
| Controller.Field | game.js:342-351 | the field has one planet per draw, in draw order |
| Controller.FieldValid | game.js:342-351 | every planet of a field from proper draws has a positive radius and lies in the strip |
| Controller.Earnings | game.js:452-455 | the game's earnings formula on floored distance and height; its closed form is `EarningsClosedForm` |
| Controller.EarningsClosedForm | game.js:447-455 | the floored earnings equal `((d + 2h) div 10 + 50·assists) · (100 + luck) div 100` |
| Controller.EarningsNonNegative | game.js:447-455 | earnings are never negative, and at least 1 once `d + 2h >= 10` or an assist was counted |
| Controller.EarningsMonotone | game.js:447-455 | more distance, height, assists or luck never earn less |
| Controller.EarningsExample | game.js:447-455 | d = 530, h = 210, two assists and a 30 percent luck bonus earn 253 |
| Controller.Settle | game.js:447-464 | money rises by exactly the earnings on the floored distance and height; each record becomes the larger of the old record and the floored value; upgrades are unchanged |
| Controller.SettleNeverCosts | game.js:447-457 | settling a sane flight never lowers money |
| Controller.SettleExample | game.js:447-464 | at luck level 3, 530.7 across, 210.2 up and two assists pay 253, keep a better distance record and set height 210 |
| Controller.AfterEndFlight | game.js:442-466 | ending a flight stops play, settles the profile and saves it, and changes nothing else |
| Controller.AfterFrame | game.js:421-440 | outside play nothing happens. Otherwise thrust comes before the flight step, the camera is set to the rocket minus (200, 300), and play continues exactly while the rocket flies. A stop settles and saves; otherwise the profile is untouched |
| Controller.AfterLaunch | game.js:404-419 | a launch during play changes nothing. Otherwise the new field is drawn and thrust released, and the first frame runs from the launch pad |
| Controller.AfterReset | game.js:508-517 | a confirmed reset restores and saves the initial profile, rebuilds the rocket with no upgrades and stops play; unconfirmed, nothing changes |
| Controller.ResetSurvivesReload | game.js:508-517 | after a confirmed reset, the next load yields the initial profile |
| Controller.FrameCoherent | game.js:421-440 | a frame keeps "in play implies flying", the planets valid, and the rocket sane |
| Controller.LaunchCoherent | game.js:404-419 | a launch keeps the same invariant |
| Controller.SettledOnce | game.js:421-443 | once a frame ends the flight, further frames change nothing, so a flight is paid once |
| Controller.FramesNeverLose | game.js:421-466 | over any number of frames money and both records never fall, and upgrades and the field are unchanged |
| Controller.Game.constructor | game.js:324-340 | a new game loads the profile, puts the rocket on the pad, is not in play and holds a field drawn from the draws |
| Controller.Game.GeneratePlanets | game.js:342-352 | the loop leaves exactly `Field` of the draws |
| Controller.Game.Launch | game.js:404-419 | the game becomes `AfterLaunch` of the old game |
| Controller.Game.GameLoop | game.js:421-440 | the game becomes `AfterFrame` of the old game |
| Controller.Game.EndFlight | game.js:442-466 | the game becomes `AfterEndFlight` of the old game |
| Controller.Game.ResetGame | game.js:508-517 | the game becomes `AfterReset` of the old game |
| Controller.Game.PressThrust | game.js:361-387 | pressing holds thrust only while in play |
| Controller.Game.ReleaseThrust | game.js:369-392 | releasing always lets go of thrust |

## Left out

- Drawing is not modelled: `Planet.draw`, `Rocket.draw`, `Game.render`, gradients and canvas calls are presentation only.
- `Planet.update` and the `pulsePhase` it advances are not modelled; the pulse affects only drawing.
- DOM and UI are not modelled: `setupEventListeners` apart from the thrust flags, `updateUI`, `updateFlightStats`, `toggleShop` and the message strings.
- The `confirm` dialog of the reset is the boolean `confirmed`.
- `localStorage` and `JSON` are not modelled. A save is the `SaveBlob` record, and a stored value whose JSON does not parse is not modelled.
- For the same reason, a stored field that is present but falsy (`0`, `""`) and one that is absent both load as 0. The model keeps only present or absent.
- `requestAnimationFrame` scheduling is not modelled. `Game.GameLoop` is one frame, and repeated frames are `Controller.Frames`.
- `Math.random` is not modelled; the draws are a parameter.
- IEEE floating point is not modelled. The trajectory is exact real arithmetic and the transcendentals are unknown functions, so no bit-exact trajectory is claimed.
- The rounding of `bonus * 0.01` is not modelled.
- `Math.pow(1.5, L)` agrees with the exact price only while `3^L < 2^53`.
- JavaScript numbers are unbounded integers here.
- Physics.Thrusted: thrust does not check whether the rocket is flying, as in the code. A stopped rocket is never thrusted because the game loop runs only while in play.
- Physics.Thrusted: no `fuel <= maxFuel` bound is claimed. Past ten efficiency levels the burn is negative, and `ThrustCanOverfill` shows the tank overfilling.
- A bounded number of frames until every flight stops is not claimed, because the code does not guarantee one. `EndlessFlight` gives levels under which an empty field's flight never ends. With the fifteen planets the game actually draws, the assist pass depends on the unknown square root, so the model says nothing about flight length there.
- A loaded upgrade table holding values other than natural-number levels is not modelled.
- Economy.Bonus: a key naming a property every object inherits (`constructor`, `toString`, `__proto__`) gives a non-number in the game's `bonuses[upgrade] || 0`, while the model gives 0. The game itself only looks up the ten keys.
