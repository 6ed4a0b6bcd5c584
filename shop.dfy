/** Buying upgrades: the atomic purchase and the `UpgradeSystem` object that performs it. */
module Shop {
  import opened Wrappers
  import opened Economy
  import opened Profiles

  /**
   * The profile after trying to buy one level of `name`: either the price is paid and that
   * upgrade alone gains a level, or nothing changes.
   */
  function AfterPurchase(name: string, p: Profile): (r: Profile)
    ensures CanAfford(name, p.money, p.upgrades) <==> r != p
    ensures !CanAfford(name, p.money, p.upgrades) ==> r == p
    ensures CanAfford(name, p.money, p.upgrades) ==>
      var id := Parse(name).value;
      && r.money == p.money - CostOf(name, p.upgrades).value
      && id in p.upgrades
      && r.upgrades == p.upgrades[id := p.upgrades[id] + 1]
      && r.bestDistance == p.bestDistance && r.bestHeight == p.bestHeight
    ensures r.upgrades.Keys == p.upgrades.Keys
    ensures forall j :: j in p.upgrades && Some(j) != Parse(name) ==> r.upgrades[j] == p.upgrades[j]
    ensures CanAfford(name, p.money, p.upgrades) ==> r.money >= 0
    ensures p.money >= 0 ==> r.money >= 0
    ensures r.money <= p.money
  {
    if CanAfford(name, p.money, p.upgrades) then
      var id := Parse(name).value;
      p.(money := p.money - CostOf(name, p.upgrades).value,
         upgrades := p.upgrades[id := p.upgrades[id] + 1])
    else p
  }

  class UpgradeSystem {
    const gameState: GameState

    constructor (gameState: GameState)
      ensures this.gameState == gameState
    {
      this.gameState := gameState;
    }

    /** Buys one level when affordable and then saves; reports whether it did. */
    method Purchase(name: string) returns (ok: bool)
      modifies gameState
      ensures ok == CanAfford(name, old(gameState.money), old(gameState.upgrades))
      ensures gameState.AsProfile() == AfterPurchase(name, old(gameState.AsProfile()))
      ensures gameState.storage == if ok then Some(Snapshot(gameState.AsProfile())) else old(gameState.storage)
    {
      var cost := CostOf(name, gameState.upgrades);
      if CanAfford(name, gameState.money, gameState.upgrades) {
        var id := Parse(name).value;
        gameState.money := gameState.money - cost.value;
        gameState.upgrades := gameState.upgrades[id := gameState.upgrades[id] + 1];
        gameState.SaveGame();
        return true;
      }
      return false;
    }
  }
}
