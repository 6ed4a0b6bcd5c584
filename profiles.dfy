/**
 * The persistent profile: money, best records and upgrade levels, its saved blob, and the
 * `GameState` object that holds it and writes it to the browser's storage slot.
 */
module Profiles {
  import opened Wrappers
  import opened Economy

  /** The value a `GameState` holds. */
  datatype Profile = Profile(money: int, bestDistance: int, bestHeight: int, upgrades: Levels)

  /** The profile of a first run and of a reset. */
  const Initial := Profile(0, 0, 0, InitialLevels)

  /**
   * The saved blob under the storage key: each field may be absent, as in a hand-edited or
   * older save.
   */
  datatype SaveBlob = SaveBlob(
    money: Option<int>,
    bestDistance: Option<int>,
    bestHeight: Option<int>,
    upgrades: Option<Levels>)

  /** What saving writes: every field present. */
  function Snapshot(p: Profile): (b: SaveBlob)
    ensures b.money.Some? && b.bestDistance.Some? && b.bestHeight.Some? && b.upgrades.Some?
  {
    SaveBlob(Some(p.money), Some(p.bestDistance), Some(p.bestHeight), Some(p.upgrades))
  }

  /**
   * What loading makes of `current` given the storage slot: nothing changes without a save;
   * otherwise each number defaults to 0 and the upgrade table to the current one.
   */
  function Restore(current: Profile, save: Option<SaveBlob>): (r: Profile)
    ensures save.None? ==> r == current
    ensures save.Some? && save.value.money.None? ==> r.money == 0
    ensures save.Some? && save.value.bestDistance.None? ==> r.bestDistance == 0
    ensures save.Some? && save.value.bestHeight.None? ==> r.bestHeight == 0
    ensures save.Some? && save.value.upgrades.None? ==> r.upgrades == current.upgrades
  {
    match save
    case None => current
    case Some(data) =>
      Profile(data.money.GetOr(0), data.bestDistance.GetOr(0), data.bestHeight.GetOr(0),
              data.upgrades.GetOr(current.upgrades))
  }

  /** Saving and then loading gives back exactly the saved profile, whatever was loaded into. */
  lemma RoundTrip(p: Profile, current: Profile)
    ensures Restore(current, Some(Snapshot(p))) == p
  {
  }

  /** A field-by-field restore: every present field is taken as saved. */
  lemma RestorePresent(current: Profile, data: SaveBlob)
    ensures data.money.Some? ==> Restore(current, Some(data)).money == data.money.value
    ensures data.bestDistance.Some? ==> Restore(current, Some(data)).bestDistance == data.bestDistance.value
    ensures data.bestHeight.Some? ==> Restore(current, Some(data)).bestHeight == data.bestHeight.value
    ensures data.upgrades.Some? ==> Restore(current, Some(data)).upgrades == data.upgrades.value
  {
  }

  /** Loading an empty blob into a fresh profile leaves it fresh. */
  lemma RestoreEmptyIsInitial()
    ensures Restore(Initial, Some(SaveBlob(None, None, None, None))) == Initial
  {
  }

  class GameState {
    var money: int
    var bestDistance: int
    var bestHeight: int
    var upgrades: Levels
    /** The browser's storage slot for this game's save. */
    var storage: Option<SaveBlob>

    function AsProfile(): Profile
      reads this
    {
      Profile(money, bestDistance, bestHeight, upgrades)
    }

    /** Starts from the initial profile and then loads whatever the storage slot holds. */
    constructor (stored: Option<SaveBlob>)
      ensures AsProfile() == Restore(Initial, stored)
      ensures storage == stored
    {
      money := 0;
      bestDistance := 0;
      bestHeight := 0;
      upgrades := InitialLevels;
      storage := stored;
      new;
      LoadGame();
    }

    method SaveGame()
      modifies this`storage
      ensures storage == Some(Snapshot(AsProfile()))
    {
      storage := Some(Snapshot(AsProfile()));
    }

    method LoadGame()
      modifies this
      ensures AsProfile() == Restore(old(AsProfile()), old(storage))
      ensures storage == old(storage)
    {
      if storage.Some? {
        var data := storage.value;
        money := data.money.GetOr(0);
        bestDistance := data.bestDistance.GetOr(0);
        bestHeight := data.bestHeight.GetOr(0);
        upgrades := data.upgrades.GetOr(upgrades);
      }
    }

    method ResetGame()
      modifies this
      ensures AsProfile() == Initial
      ensures storage == Some(Snapshot(Initial))
    {
      money := 0;
      bestDistance := 0;
      bestHeight := 0;
      upgrades := InitialLevels;
      SaveGame();
    }
  }
}
