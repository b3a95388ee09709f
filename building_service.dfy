/**
 * The older building service: construction checks resources before the
 * count rule, upgrades are bounded by the building type's maximum level, and
 * a level's upgrade time is stored as the time the upgrade finishes.
 */
module BuildingService {
  import opened Wrappers
  import opened DbErrors
  import opened ResourceOperations
  import opened ResourceRows
  import opened BuildingDomain
  import opened UserBuildings

  datatype ErrorKind =
    | ConstructBuildingError
    | UpgradeBuildingError
    | ConfirmUpgradeError

  datatype Error =
    | Described(kind: ErrorKind, description: string)
    | Db(db: DbError)

  /** A level row of the older schema: its requirements and the upgrade time text, read as a time. */
  datatype LevelRow = LevelRow(data: BuildingLevel, upgrade_time: int)

  /** The tables the service reads and never writes. */
  datatype Catalog = Catalog(buildings: map<BuildingKey, Building>, levels: map<(BuildingKey, int), LevelRow>)

  /** `get_next_upgrade`: the row of level `level + 1` of the building, or NotFound. */
  function NextLevel(cat: Catalog, building: BuildingKey, level: int): (r: Result<LevelRow, DbError>)
    ensures r.Ok? <==> (building, level + 1) in cat.levels
    ensures r.Ok? ==> r.value == cat.levels[(building, level + 1)]
    ensures r.Err? ==> r.error == NotFound
  {
    if (building, level + 1) in cat.levels then Ok(cat.levels[(building, level + 1)]) else Err(NotFound)
  }

  /** The balance test of `has_enough_resources`, with a NotFound for a player without a resource row. */
  function ResourceCheck(res: map<nat, PlayerResource>, player: nat, level: LevelRow, kind: ErrorKind): (e: Option<Error>)
    ensures e.None? <==> player in res && HasEnoughFor(res[player], level.data)
    ensures player !in res ==> e == Some(Db(NotFound))
    ensures player in res && !HasEnoughFor(res[player], level.data) ==> e == Some(Described(kind, "Not enough resources"))
  {
    if player !in res then Some(Db(NotFound))
    else if !HasEnoughFor(res[player], level.data) then Some(Described(kind, "Not enough resources"))
    else None
  }

  const MaxBuildingsReached: Error := Described(ConstructBuildingError, "Max buildings reached")
  const ConstructFailed: Error := Described(ConstructBuildingError, "Failed to construct building")
  const AtMaxLevel: Error := Described(UpgradeBuildingError, "Building is at max level")
  const UpgradeFailed: Error := Described(UpgradeBuildingError, "Failed to upgrade building")
  const NotUpgrading: Error := Described(ConfirmUpgradeError, "Building is not upgrading")
  const NotYetDone: Error := Described(ConfirmUpgradeError, "Upgrade time has not passed")

  /**
   * The checks the older `construct_building` makes before its transaction,
   * in order: level 1, the resource row and balance, then the building type
   * and its count rule. The level-1 row when all pass.
   */
  function ConstructCheck(cat: Catalog, rows: map<nat, UserBuilding>, res: map<nat, PlayerResource>, user: nat, building: BuildingKey)
    : (r: Result<LevelRow, Error>)
    ensures r.Ok? <==>
      (building, 1) in cat.levels && user in res && HasEnoughFor(res[user], cat.levels[(building, 1)].data) &&
      building in cat.buildings && |OwnedBy(rows, user, building)| < cat.buildings[building].max_count
    ensures r.Ok? ==> r.value == cat.levels[(building, 1)]
    ensures ((building, 1) in cat.levels && user in res && !HasEnoughFor(res[user], cat.levels[(building, 1)].data)) ==>
      r == Err(Described(ConstructBuildingError, "Not enough resources"))
  {
    match NextLevel(cat, building, 0)
    case Err(e) => Err(Db(e))
    case Ok(level) =>
      match ResourceCheck(res, user, level, ConstructBuildingError)
      case Some(e) => Err(e)
      case None =>
        if building !in cat.buildings then Err(Db(NotFound))
        else if |OwnedBy(rows, user, building)| >= cat.buildings[building].max_count then Err(MaxBuildingsReached)
        else Ok(level)
  }

  /** A user short of resources is told so even when the count rule would also refuse. */
  lemma ResourcesCheckedBeforeCount(cat: Catalog, rows: map<nat, UserBuilding>, res: map<nat, PlayerResource>, user: nat, building: BuildingKey)
    requires (building, 1) in cat.levels && user in res && !HasEnoughFor(res[user], cat.levels[(building, 1)].data)
    requires building in cat.buildings && |OwnedBy(rows, user, building)| >= cat.buildings[building].max_count
    ensures ConstructCheck(cat, rows, res, user, building) == Err(Described(ConstructBuildingError, "Not enough resources"))
  {
  }

  /** An accepted construction keeps the user within the building type's maximum count. */
  lemma ConstructStaysWithinMaxCount(cat: Catalog, rows: map<nat, UserBuilding>, res: map<nat, PlayerResource>,
                                     user: nat, building: BuildingKey, b: UserBuilding)
    requires ConstructCheck(cat, rows, res, user, building).Ok?
    requires b.id !in rows && b.user_id == user && b.building_id == building
    ensures |OwnedBy(rows[b.id := b], user, building)| <= cat.buildings[building].max_count
  {
    CreateCountsOne(rows, b, user, building);
  }

  /** The maximum level the older upgrade compares against; an unknown building type counts as 0. */
  function MaxLevelOf(cat: Catalog, building: BuildingKey): (m: int)
    ensures building in cat.buildings ==> m == cat.buildings[building].max_level
    ensures building !in cat.buildings ==> m == 0
  {
    if building in cat.buildings then cat.buildings[building].max_level else 0
  }

  /**
   * The checks the older `upgrade_building` makes before its transaction, in
   * order: the row, the next level, the resource row and balance, then the
   * maximum level (an unknown building type counting as maximum level 0).
   */
  function UpgradeCheck(cat: Catalog, rows: map<nat, UserBuilding>, res: map<nat, PlayerResource>, id: nat)
    : (r: Result<(UserBuilding, LevelRow), Error>)
    ensures r.Ok? <==>
      id in rows && (rows[id].building_id, rows[id].level + 1) in cat.levels &&
      rows[id].user_id in res && HasEnoughFor(res[rows[id].user_id], cat.levels[(rows[id].building_id, rows[id].level + 1)].data) &&
      rows[id].level < MaxLevelOf(cat, rows[id].building_id)
    ensures r.Ok? ==> r.value == (rows[id], cat.levels[(rows[id].building_id, rows[id].level + 1)])
    ensures (id in rows && (rows[id].building_id, rows[id].level + 1) in cat.levels &&
             rows[id].user_id in res && HasEnoughFor(res[rows[id].user_id], cat.levels[(rows[id].building_id, rows[id].level + 1)].data) &&
             rows[id].level >= MaxLevelOf(cat, rows[id].building_id)) ==> r == Err(AtMaxLevel)
  {
    if id !in rows then Err(Db(NotFound))
    else
      var ub := rows[id];
      var max_level := if ub.building_id in cat.buildings then Some(cat.buildings[ub.building_id].max_level) else None;
      match NextLevel(cat, ub.building_id, ub.level)
      case Err(e) => Err(Db(e))
      case Ok(level) =>
        match ResourceCheck(res, ub.user_id, level, UpgradeBuildingError)
        case Some(e) => Err(e)
        case None =>
          if ub.level >= max_level.UnwrapOr(0) then Err(AtMaxLevel) else Ok((ub, level))
  }

  /** An accepted upgrade leads to a level no higher than the building type's maximum. */
  lemma UpgradeBoundedByMaxLevel(cat: Catalog, rows: map<nat, UserBuilding>, res: map<nat, PlayerResource>, id: nat)
    requires UpgradeCheck(cat, rows, res, id).Ok?
    ensures rows[id].level + 1 <= MaxLevelOf(cat, rows[id].building_id)
  {
  }

  /**
   * The row after the older `confirm_upgrade`: NotFound for a missing row,
   * "not upgrading" without a time, one level up with the time cleared once
   * the time is at or before `now`, and "time has not passed" otherwise.
   */
  function ConfirmOutcome(rows: map<nat, UserBuilding>, id: nat, now: int): (r: Result<UserBuilding, Error>)
    ensures id !in rows ==> r == Err(Db(NotFound))
    ensures id in rows && rows[id].upgrade_time.None? ==> r == Err(NotUpgrading)
    ensures r.Ok? <==> id in rows && rows[id].upgrade_time.Some? && rows[id].upgrade_time.value <= now
    ensures r.Ok? ==> r.value == rows[id].(level := rows[id].level + 1, upgrade_time := None)
    ensures id in rows && rows[id].upgrade_time.Some? && rows[id].upgrade_time.value > now ==> r == Err(NotYetDone)
  {
    if id !in rows then Err(Db(NotFound))
    else
      match rows[id].upgrade_time
      case None => Err(NotUpgrading)
      case Some(t) =>
        if t <= now then Ok(rows[id].(level := rows[id].level + 1, upgrade_time := None)) else Err(NotYetDone)
  }

  /**
   * An upgrade accepted and then confirmed never takes a building past its
   * type's maximum level, however often the cycle repeats.
   */
  lemma UpgradeConfirmWithinMaxLevel(cat: Catalog, rows: map<nat, UserBuilding>, res: map<nat, PlayerResource>, id: nat, now: int)
    requires UpgradeCheck(cat, rows, res, id).Ok?
    ensures var level := UpgradeCheck(cat, rows, res, id).value.1;
      var started := rows[id := rows[id].(upgrade_time := Some(level.upgrade_time))];
      ConfirmOutcome(started, id, now).Ok? ==>
        ConfirmOutcome(started, id, now).value.level <= MaxLevelOf(cat, rows[id].building_id)
  {
    UpgradeBoundedByMaxLevel(cat, rows, res, id);
  }

  class Service {
    var resources: ResourceTable
    var buildings: UserBuildingTable

    ghost predicate Valid()
      reads this, buildings
    {
      buildings.Valid()
    }

    constructor(resources: ResourceTable, buildings: UserBuildingTable)
      ensures this.resources == resources && this.buildings == buildings
    {
      this.resources := resources;
      this.buildings := buildings;
    }

    /** `has_enough_resources`: NotFound for a player without a resource row, else the balance test. */
    method HasEnoughResources(player: nat, level: LevelRow) returns (r: Result<bool, DbError>)
      ensures player !in resources.rows ==> r == Err(NotFound)
      ensures player in resources.rows ==> r.Ok? && (r.value <==> ResourceCheck(resources.rows, player, level, ConstructBuildingError).None?)
    {
      var row := resources.GetByPlayerId(player);
      if row.Err? {
        return Err(row.error);
      }
      var res := row.value;
      var food := res.food >= level.data.req_food.UnwrapOr(0);
      var wood := res.wood >= level.data.req_wood.UnwrapOr(0);
      var stone := res.stone >= level.data.req_stone.UnwrapOr(0);
      var gold := res.gold >= level.data.req_gold.UnwrapOr(0);
      r := Ok(food && wood && stone && gold);
    }

    /**
     * The older `construct_building`. `fault` says whether the transaction
     * fails (rolled back, "Failed to construct building"). On success the
     * level-1 requirements are deducted and a level-0 row is created whose
     * upgrade time is the level's upgrade time.
     */
    method ConstructBuilding(cat: Catalog, user: nat, building: BuildingKey, fault: bool) returns (r: Result<UserBuilding, Error>)
      requires Valid()
      modifies resources, buildings
      ensures Valid()
      ensures ConstructCheck(cat, old(buildings.rows), old(resources.rows), user, building).Err? ==>
        r == Err(ConstructCheck(cat, old(buildings.rows), old(resources.rows), user, building).error) &&
        resources.rows == old(resources.rows) && buildings.rows == old(buildings.rows)
      ensures ConstructCheck(cat, old(buildings.rows), old(resources.rows), user, building).Ok? && fault ==>
        r == Err(ConstructFailed) && resources.rows == old(resources.rows) && buildings.rows == old(buildings.rows)
      ensures ConstructCheck(cat, old(buildings.rows), old(resources.rows), user, building).Ok? && !fault ==>
        var level := ConstructCheck(cat, old(buildings.rows), old(resources.rows), user, building).value;
        r.Ok? && r.value == UserBuilding(r.value.id, user, building, 0, Some(level.upgrade_time)) &&
        r.value.id !in old(buildings.rows) && buildings.rows == old(buildings.rows)[r.value.id := r.value] &&
        resources.rows == old(resources.rows)[user := Deducted(old(resources.rows)[user], LevelCost(level.data))]
    {
      var next := NextLevel(cat, building, 0);
      if next.Err? {
        return Err(Db(next.error));
      }
      var level := next.value;
      var enough := HasEnoughResources(user, level);
      if enough.Err? {
        return Err(Db(enough.error));
      }
      if !enough.value {
        return Err(Described(ConstructBuildingError, "Not enough resources"));
      }
      var can := buildings.CanConstruct(cat.buildings, user, building);
      if can.Err? {
        return Err(Db(can.error));
      }
      if !can.value {
        return Err(MaxBuildingsReached);
      }
      if fault {
        return Err(ConstructFailed);
      }
      var deducted := resources.Deduct(user, LevelCost(level.data));
      var b := buildings.Create(user, building, 0, Some(level.upgrade_time));
      r := Ok(b);
    }

    /**
     * The older `upgrade_building`. `fault` says whether the transaction
     * fails (rolled back, "Failed to upgrade building"). On success the next
     * level's requirements are deducted and the row's upgrade time is set to
     * the level's upgrade time; nothing is returned.
     */
    method UpgradeBuilding(cat: Catalog, id: nat, fault: bool) returns (r: Result<(), Error>)
      requires Valid()
      modifies resources, buildings
      ensures Valid()
      ensures UpgradeCheck(cat, old(buildings.rows), old(resources.rows), id).Err? ==>
        r == Err(UpgradeCheck(cat, old(buildings.rows), old(resources.rows), id).error) &&
        resources.rows == old(resources.rows) && buildings.rows == old(buildings.rows)
      ensures UpgradeCheck(cat, old(buildings.rows), old(resources.rows), id).Ok? && fault ==>
        r == Err(UpgradeFailed) && resources.rows == old(resources.rows) && buildings.rows == old(buildings.rows)
      ensures UpgradeCheck(cat, old(buildings.rows), old(resources.rows), id).Ok? && !fault ==>
        var (ub, level) := UpgradeCheck(cat, old(buildings.rows), old(resources.rows), id).value;
        r == Ok(()) &&
        buildings.rows == old(buildings.rows)[id := ub.(upgrade_time := Some(level.upgrade_time))] &&
        resources.rows == old(resources.rows)[ub.user_id := Deducted(old(resources.rows)[ub.user_id], LevelCost(level.data))]
    {
      var tuple := buildings.GetUpgradeTuple(cat.buildings, id);
      if tuple.Err? {
        return Err(Db(tuple.error));
      }
      var (ub, max_level) := tuple.value;
      var next := NextLevel(cat, ub.building_id, ub.level);
      if next.Err? {
        return Err(Db(next.error));
      }
      var level := next.value;
      var enough := HasEnoughResources(ub.user_id, level);
      if enough.Err? {
        return Err(Db(enough.error));
      }
      if !enough.value {
        return Err(Described(UpgradeBuildingError, "Not enough resources"));
      }
      if ub.level >= max_level.UnwrapOr(0) {
        return Err(AtMaxLevel);
      }
      if fault {
        return Err(UpgradeFailed);
      }
      var deducted := resources.Deduct(ub.user_id, LevelCost(level.data));
      var updated := buildings.SetUpgradeTime(id, Some(level.upgrade_time));
      r := Ok(());
    }

    /** The older `confirm_upgrade`: applies ConfirmOutcome's row and changes nothing on refusal. */
    method ConfirmUpgrade(id: nat, now: int) returns (r: Result<(), Error>)
      requires Valid()
      modifies buildings
      ensures Valid()
      ensures ConfirmOutcome(old(buildings.rows), id, now).Err? ==>
        r == Err(ConfirmOutcome(old(buildings.rows), id, now).error) && buildings.rows == old(buildings.rows)
      ensures ConfirmOutcome(old(buildings.rows), id, now).Ok? ==>
        r == Ok(()) && buildings.rows == old(buildings.rows)[id := ConfirmOutcome(old(buildings.rows), id, now).value]
    {
      var row := buildings.GetById(id);
      if row.Err? {
        return Err(Db(row.error));
      }
      match row.value.upgrade_time
      case None =>
        return Err(NotUpgrading);
      case Some(t) =>
        if t <= now {
          var levelled := buildings.IncLevel(id);
          r := Ok(());
        } else {
          r := Err(NotYetDone);
        }
    }
  }
}
