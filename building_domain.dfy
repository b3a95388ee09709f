/**
 * Building definitions: a building type, the data of each of its levels and
 * the requirements a level has on other buildings or on the tech tree.
 */
module BuildingDomain {
  import opened Wrappers
  import opened DbErrors
  import opened FactionCodec
  import opened ResourceOperations

  /** The key of a building type: a database serial id, never negative. */
  type BuildingKey = nat

  /** A building type: how far it can be upgraded and how many a player may own. */
  datatype Building = Building(id: BuildingKey, max_level: int, max_count: int, faction: FactionCode, starter: bool)

  /** What reaching `building_level` costs and how long it takes. */
  datatype BuildingLevel = BuildingLevel(
    building_id: BuildingKey,
    building_level: int,
    upgrade_seconds: int,
    req_food: Option<int>,
    req_wood: Option<int>,
    req_stone: Option<int>,
    req_gold: Option<int>)

  /**
   * A prerequisite of a level: another building at some level, or a tech
   * tree node. The table guarantees that a building requirement carries its
   * level.
   */
  datatype BuildingRequirement = BuildingRequirement(
    required_building_id: Option<BuildingKey>,
    required_building_level: Option<int>,
    required_tech_id: Option<nat>)

  /** The four amounts a level requires, an absent requirement counting as 0. */
  function LevelCost(l: BuildingLevel): (c: Amounts)
    ensures l.req_food.Some? ==> c.food == l.req_food.value
    ensures l.req_food.None? ==> c.food == 0
    ensures l.req_wood.Some? ==> c.wood == l.req_wood.value
    ensures l.req_wood.None? ==> c.wood == 0
    ensures l.req_stone.Some? ==> c.stone == l.req_stone.value
    ensures l.req_stone.None? ==> c.stone == 0
    ensures l.req_gold.Some? ==> c.gold == l.req_gold.value
    ensures l.req_gold.None? ==> c.gold == 0
  {
    Amounts(l.req_food.UnwrapOr(0), l.req_wood.UnwrapOr(0), l.req_stone.UnwrapOr(0), l.req_gold.UnwrapOr(0))
  }

  /** `has_enough_resources`: every stored amount covers the level's requirement. */
  predicate HasEnoughFor(res: PlayerResource, l: BuildingLevel)
  {
    res.food >= LevelCost(l).food && res.wood >= LevelCost(l).wood &&
    res.stone >= LevelCost(l).stone && res.gold >= LevelCost(l).gold
  }

  /** `get_next_upgrade`: the data of level `level + 1` of the building, or NotFound. */
  function NextUpgrade(levels: map<(BuildingKey, int), BuildingLevel>, building: BuildingKey, level: int): (r: Result<BuildingLevel, DbError>)
    ensures (building, level + 1) in levels <==> r.Ok?
    ensures r.Ok? ==> r.value == levels[(building, level + 1)]
  {
    if (building, level + 1) in levels then Ok(levels[(building, level + 1)]) else Err(NotFound)
  }
}
