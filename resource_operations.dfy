/**
 * Resource collection: whatever fits under each storage cap moves from the
 * player's accumulator into the player's storage, all four resources in one
 * step.
 */
module ResourceOperations {
  import opened Wrappers
  import opened DbErrors

  /** A player's stored resources and their caps. */
  datatype PlayerResource = PlayerResource(
    player_id: nat,
    food: int, wood: int, stone: int, gold: int,
    food_cap: int, wood_cap: int, stone_cap: int, gold_cap: int)

  /** Produced resources waiting to be collected. */
  datatype PlayerAccumulator = PlayerAccumulator(player_id: nat, food: int, wood: int, stone: int, gold: int)

  /** The four amounts one collection moves. */
  datatype Amounts = Amounts(food: int, wood: int, stone: int, gold: int)

  /** `LEAST(accumulated, cap - stored)`: what fits without passing the cap. */
  function Collectible(accumulated: int, stored: int, cap: int): (c: int)
    ensures c <= accumulated && c <= cap - stored
    ensures c == accumulated || c == cap - stored
  {
    if accumulated <= cap - stored then accumulated else cap - stored
  }

  function CollectibleAmounts(a: PlayerAccumulator, r: PlayerResource): Amounts
  {
    Amounts(
      Collectible(a.food, r.food, r.food_cap),
      Collectible(a.wood, r.wood, r.wood_cap),
      Collectible(a.stone, r.stone, r.stone_cap),
      Collectible(a.gold, r.gold, r.gold_cap))
  }

  /** The accumulator row after the drain. */
  function Drained(a: PlayerAccumulator, c: Amounts): (d: PlayerAccumulator)
    ensures d.player_id == a.player_id
    ensures d.food + c.food == a.food && d.wood + c.wood == a.wood
    ensures d.stone + c.stone == a.stone && d.gold + c.gold == a.gold
  {
    a.(food := a.food - c.food, wood := a.wood - c.wood, stone := a.stone - c.stone, gold := a.gold - c.gold)
  }

  /** The storage row after the fill; the caps are untouched. */
  function Filled(r: PlayerResource, c: Amounts): (f: PlayerResource)
    ensures f.player_id == r.player_id
    ensures f.food == r.food + c.food && f.wood == r.wood + c.wood
    ensures f.stone == r.stone + c.stone && f.gold == r.gold + c.gold
    ensures f.food_cap == r.food_cap && f.wood_cap == r.wood_cap
    ensures f.stone_cap == r.stone_cap && f.gold_cap == r.gold_cap
  {
    r.(food := r.food + c.food, wood := r.wood + c.wood, stone := r.stone + c.stone, gold := r.gold + c.gold)
  }

  predicate WithinCaps(r: PlayerResource)
  {
    r.food <= r.food_cap && r.wood <= r.wood_cap && r.stone <= r.stone_cap && r.gold <= r.gold_cap
  }

  predicate NonNegative(a: PlayerAccumulator)
  {
    a.food >= 0 && a.wood >= 0 && a.stone >= 0 && a.gold >= 0
  }

  /** Each resource's stored plus accumulated amount is the same after a collection. */
  lemma CollectConserves(a: PlayerAccumulator, r: PlayerResource)
    ensures var c := CollectibleAmounts(a, r);
      Filled(r, c).food + Drained(a, c).food == r.food + a.food &&
      Filled(r, c).wood + Drained(a, c).wood == r.wood + a.wood &&
      Filled(r, c).stone + Drained(a, c).stone == r.stone + a.stone &&
      Filled(r, c).gold + Drained(a, c).gold == r.gold + a.gold
  {
  }

  /** Storage never passes its cap, and the accumulator never goes negative. */
  lemma CollectKeepsBounds(a: PlayerAccumulator, r: PlayerResource)
    requires WithinCaps(r)
    ensures WithinCaps(Filled(r, CollectibleAmounts(a, r)))
    ensures NonNegative(a) ==> NonNegative(Drained(a, CollectibleAmounts(a, r)))
  {
  }

  /** Storage is either filled to the cap or the accumulator is emptied, per resource. */
  lemma CollectIsMaximal(a: PlayerAccumulator, r: PlayerResource)
    ensures var c := CollectibleAmounts(a, r);
      (Filled(r, c).food == r.food_cap || Drained(a, c).food == 0) &&
      (Filled(r, c).wood == r.wood_cap || Drained(a, c).wood == 0) &&
      (Filled(r, c).stone == r.stone_cap || Drained(a, c).stone == 0) &&
      (Filled(r, c).gold == r.gold_cap || Drained(a, c).gold == 0)
  {
  }

  /** The accumulator and storage tables, keyed by player. */
  class ResourceTables {
    var accumulators: map<nat, PlayerAccumulator>
    var resources: map<nat, PlayerResource>

    constructor(accumulators: map<nat, PlayerAccumulator>, resources: map<nat, PlayerResource>)
      ensures this.accumulators == accumulators && this.resources == resources
    {
      this.accumulators := accumulators;
      this.resources := resources;
    }

    /**
     * `collect_resources`: reads both rows, then drains the accumulator and
     * fills the storage by the same amounts in one transaction, returning the
     * new storage row. A player without both rows gets NotFound and nothing
     * changes.
     */
    method CollectResources(player: nat) returns (r: Result<PlayerResource, DbError>)
      modifies this
      ensures player !in old(accumulators) || player !in old(resources) ==>
        r == Err(NotFound) && accumulators == old(accumulators) && resources == old(resources)
      ensures player in old(accumulators) && player in old(resources) ==>
        var c := CollectibleAmounts(old(accumulators)[player], old(resources)[player]);
        accumulators == old(accumulators)[player := Drained(old(accumulators)[player], c)] &&
        resources == old(resources)[player := Filled(old(resources)[player], c)] &&
        r == Ok(resources[player])
    {
      if player !in accumulators || player !in resources {
        return Err(NotFound);
      }
      var c := CollectibleAmounts(accumulators[player], resources[player]);
      accumulators := accumulators[player := Drained(accumulators[player], c)];
      resources := resources[player := Filled(resources[player], c)];
      r := Ok(resources[player]);
    }
  }

  /** The collection test: caps of 1000 and 100 of each stored. */
  lemma CollectExample()
    ensures var a := PlayerAccumulator(7, 1000, 850, 901, 899);
      var r := PlayerResource(7, 100, 100, 100, 100, 1000, 1000, 1000, 1000);
      var c := CollectibleAmounts(a, r);
      Filled(r, c) == PlayerResource(7, 1000, 950, 1000, 999, 1000, 1000, 1000, 1000) &&
      Drained(a, c) == PlayerAccumulator(7, 100, 0, 1, 0)
  {
  }
}
