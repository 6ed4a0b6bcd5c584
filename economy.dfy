/**
 * The upgrade economy: the ten upgrades, their cost curve and the bonus each level grants.
 * Everything here is a pure function of an upgrade name and a level table.
 */
module Economy {
  import opened Wrappers

  /** The closed set of upgrades sold in the shop. */
  datatype UpgradeId = Fuel | Thrust | Efficiency | Wings | Nosecone | Detector | Boost | Luck | Ramp | Booster

  /**
   * Upgrade levels by id. An id without an entry has an undefined level, which is what a saved
   * upgrade table that lacks the key restores to.
   */
  type Levels = map<UpgradeId, nat>

  /** The key under which an upgrade is stored and looked up. */
  function Name(id: UpgradeId): string
  {
    match id
    case Fuel => "fuel"
    case Thrust => "thrust"
    case Efficiency => "efficiency"
    case Wings => "wings"
    case Nosecone => "nosecone"
    case Detector => "detector"
    case Boost => "boost"
    case Luck => "luck"
    case Ramp => "ramp"
    case Booster => "booster"
  }

  /** The upgrade a key names, if any. */
  function Parse(name: string): (r: Option<UpgradeId>)
    ensures r.Some? ==> Name(r.value) == name
  {
    if name == "fuel" then Some(Fuel)
    else if name == "thrust" then Some(Thrust)
    else if name == "efficiency" then Some(Efficiency)
    else if name == "wings" then Some(Wings)
    else if name == "nosecone" then Some(Nosecone)
    else if name == "detector" then Some(Detector)
    else if name == "boost" then Some(Boost)
    else if name == "luck" then Some(Luck)
    else if name == "ramp" then Some(Ramp)
    else if name == "booster" then Some(Booster)
    else None
  }

  /** Every upgrade's own key parses back to it, so the ten keys are distinct. */
  lemma ParseName(id: UpgradeId)
    ensures Parse(Name(id)) == Some(id)
  {
  }

  /** A fresh profile's table: every upgrade at level 0. */
  const InitialLevels: Levels :=
    map[Fuel := 0, Thrust := 0, Efficiency := 0, Wings := 0, Nosecone := 0,
        Detector := 0, Boost := 0, Luck := 0, Ramp := 0, Booster := 0]

  /** The price of the first level of each upgrade. */
  function BaseCost(id: UpgradeId): (r: nat)
    ensures 100 <= r <= 600
  {
    match id
    case Fuel => 100
    case Thrust => 150
    case Efficiency => 200
    case Wings => 175
    case Nosecone => 250
    case Detector => 500
    case Boost => 600
    case Luck => 400
    case Ramp => 300
    case Booster => 350
  }

  /** The bonus one level grants, in the unit the consumer of that bonus applies. */
  function Rate(id: UpgradeId): (r: nat)
    ensures 5 <= r <= 30
  {
    match id
    case Fuel => 20
    case Thrust => 15
    case Efficiency => 10
    case Wings => 8
    case Nosecone => 5
    case Detector => 30
    case Boost => 15
    case Luck => 10
    case Ramp => 5
    case Booster => 10
  }

  function Pow(b: nat, n: nat): (r: nat)
    ensures b > 0 ==> r > 0
  {
    if n == 0 then 1 else b * Pow(b, n - 1)
  }

  function RealPow(b: real, n: nat): real
  {
    if n == 0 then 1.0 else b * RealPow(b, n - 1)
  }

  /**
   * The price of the next level when `level` levels are owned: base * 1.5^level rounded down,
   * computed exactly as base * 3^level / 2^level.
   */
  function Cost(base: nat, level: nat): (r: nat)
    ensures level == 0 ==> r == base
  {
    base * Pow(3, level) / Pow(2, level)
  }

  /** 1.5^n is the ratio of the integer powers 3^n and 2^n. */
  lemma {:induction false} PowRatio(n: nat)
    ensures RealPow(1.5, n) == Pow(3, n) as real / Pow(2, n) as real
  {
    if n > 0 {
      PowRatio(n - 1);
      var p3, p2 := Pow(3, n - 1) as real, Pow(2, n - 1) as real;
      assert Pow(3, n) as real == 3.0 * p3;
      assert Pow(2, n) as real == 2.0 * p2;
      ScaleRatio(p3, p2);
    }
  }

  lemma ScaleRatio(a: real, b: real)
    requires b > 0.0
    ensures 1.5 * (a / b) == (3.0 * a) / (2.0 * b)
  {
    var q := a / b;
    assert q * b == a;
    assert (3.0 * a) / (2.0 * b) * (2.0 * b) == 3.0 * a;
  }

  lemma {:induction false} RealPowAtLeastOne(n: nat)
    ensures RealPow(1.5, n) >= 1.0
  {
    if n > 0 {
      RealPowAtLeastOne(n - 1);
    }
  }

  /** Integer division by a positive divisor rounds the exact quotient down. */
  lemma FloorOfQuotient(n: int, d: int)
    requires d > 0
    ensures (n as real / d as real).Floor == n / d
  {
    var q, m := n / d, n % d;
    assert n == d * q + m;
    assert n as real == d as real * q as real + m as real;
    assert n as real / d as real == q as real + m as real / d as real;
    assert 0.0 <= m as real / d as real < 1.0;
  }

  /** The integer formula is exactly the rounded-down real price base * 1.5^level. */
  lemma CostIsFloor(base: nat, level: nat)
    ensures Cost(base, level) == (base as real * RealPow(1.5, level)).Floor
  {
    var p3, p2 := Pow(3, level), Pow(2, level);
    PowRatio(level);
    FloorOfQuotient(base * p3, p2);
    assert (base * p3) as real == base as real * p3 as real;
    assert base as real * (p3 as real / p2 as real) == (base * p3) as real / p2 as real;
  }

  /** No level is ever cheaper than the first. */
  lemma CostAtLeastBase(base: nat, level: nat)
    ensures Cost(base, level) >= base
  {
    CostIsFloor(base, level);
    RealPowAtLeastOne(level);
    ScaleAtLeast(base as real, RealPow(1.5, level));
  }

  lemma ScaleAtLeast(b: real, x: real)
    requires b >= 0.0 && x >= 1.0
    ensures b * x >= b
  {
    assert b * x - b == b * (x - 1.0);
  }

  /** Each further level costs strictly more once the base price is at least 2. */
  lemma CostStrictlyIncreasing(base: nat, level: nat)
    requires base >= 2
    ensures Cost(base, level) < Cost(base, level + 1)
  {
    var x := base as real * RealPow(1.5, level);
    CostIsFloor(base, level);
    CostIsFloor(base, level + 1);
    RealPowAtLeastOne(level);
    assert x >= 2.0;
    assert base as real * RealPow(1.5, level + 1) == 1.5 * x;
  }

  /** Between any two levels the later one costs strictly more. */
  lemma {:induction false} CostMonotone(base: nat, lo: nat, hi: nat)
    requires base >= 2 && lo < hi
    ensures Cost(base, lo) < Cost(base, hi)
  {
    CostStrictlyIncreasing(base, hi - 1);
    if lo < hi - 1 {
      CostMonotone(base, lo, hi - 1);
    }
  }

  /**
   * The price of the next level of the upgrade called `name`: none (a NaN in the game)
   * when the name is unknown or the table holds no level for it.
   */
  function CostOf(name: string, levels: Levels): (r: Option<nat>)
    ensures r.Some? <==> Parse(name).Some? && Parse(name).value in levels
    ensures r.Some? ==> r.value >= BaseCost(Parse(name).value)
  {
    match Parse(name)
    case None => None
    case Some(id) =>
      if id in levels then
        CostAtLeastBase(BaseCost(id), levels[id]);
        Some(Cost(BaseCost(id), levels[id]))
      else None
  }

  /** Buying one more level of a known upgrade always costs more than the previous level did. */
  lemma CostOfIncreases(id: UpgradeId, levels: Levels)
    requires id in levels
    ensures CostOf(Name(id), levels).Some? && CostOf(Name(id), levels[id := levels[id] + 1]).Some?
    ensures CostOf(Name(id), levels).value < CostOf(Name(id), levels[id := levels[id] + 1]).value
  {
    ParseName(id);
    CostStrictlyIncreasing(BaseCost(id), levels[id]);
  }

  /** On a fresh table every upgrade is offered at its base price. */
  lemma CostOfInitial(id: UpgradeId)
    ensures CostOf(Name(id), InitialLevels) == Some(BaseCost(id))
  {
    ParseName(id);
  }

  /** A comparison with a missing price is false, so an unknown or unlevelled upgrade is never affordable. */
  predicate CanAfford(name: string, money: int, levels: Levels)
    ensures Parse(name).None? ==> !CanAfford(name, money, levels)
    ensures CanAfford(name, money, levels) ==>
      Parse(name).value in levels && money >= BaseCost(Parse(name).value)
  {
    match CostOf(name, levels)
    case Some(c) => money >= c
    case None => false
  }

  /** The bonus granted by the owned levels of upgrade `id`: zero when its level is missing. */
  function BonusOf(id: UpgradeId, levels: Levels): (r: nat)
    ensures id in levels ==> r == levels[id] * Rate(id)
    ensures id !in levels ==> r == 0
  {
    if id in levels then levels[id] * Rate(id) else 0
  }

  /** The bonus looked up by key: zero for an unknown key or a missing level. */
  function Bonus(name: string, levels: Levels): (r: nat)
    ensures Parse(name).None? ==> r == 0
    ensures Parse(name).Some? ==> r == BonusOf(Parse(name).value, levels)
  {
    match Parse(name)
    case None => 0
    case Some(id) => BonusOf(id, levels)
  }

  /** Looking a bonus up by an upgrade's own key finds that upgrade's bonus. */
  lemma BonusByName(id: UpgradeId, levels: Levels)
    ensures Bonus(Name(id), levels) == BonusOf(id, levels)
  {
    ParseName(id);
  }

  /** One more level adds exactly the upgrade's rate to its bonus and leaves every other bonus alone. */
  lemma BonusStep(id: UpgradeId, levels: Levels, other: UpgradeId)
    requires id in levels
    ensures BonusOf(id, levels[id := levels[id] + 1]) == BonusOf(id, levels) + Rate(id)
    ensures other != id ==> BonusOf(other, levels[id := levels[id] + 1]) == BonusOf(other, levels)
  {
  }

  /** A name outside the ten keys has no bonus, whatever the table. */
  lemma BonusUnknown(name: string, levels: Levels)
    requires Parse(name).None?
    ensures Bonus(name, levels) == 0
  {
  }

  /** A fresh profile has no bonus at all. */
  lemma BonusInitial(id: UpgradeId)
    ensures BonusOf(id, InitialLevels) == 0
  {
  }
}
