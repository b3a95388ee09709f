/**
 * Building construction, upgrade and upgrade confirmation: the checks each
 * operation makes, in the order it makes them, and the rows it writes.
 */
module BuildingOperations {
  import opened Wrappers
  import opened DbErrors
  import opened ResourceOperations
  import opened ResourceRows
  import opened BuildingDomain
  import opened RequirementOperations
  import opened PlayerBuildings

  datatype ErrorKind =
    | ConstructBuildingError
    | UpgradeBuildingError
    | ConfirmUpgradeError

  /** A described error or a failed table query. */
  datatype Error =
    | Described(kind: ErrorKind, description: string)
    | Db(db: DbError)

  /**
   * The tables the operations read and never write: building types, the data
   * of each (building, level), and the requirements of each (building, level).
   */
  datatype Catalog = Catalog(
    buildings: map<BuildingKey, Building>,
    levels: map<(BuildingKey, int), BuildingLevel>,
    requirements: map<(BuildingKey, int), seq<BuildingRequirement>>)

  /**
   * The level table is keyed by each row's own building and level, and every
   * requirement row naming a building carries the level it requires.
   */
  predicate CatalogWellFormed(cat: Catalog)
  {
    (forall key :: key in cat.levels ==> cat.levels[key].building_id == key.0 && cat.levels[key].building_level == key.1) &&
    (forall key :: key in cat.requirements ==> AllWellFormed(cat.requirements[key]))
  }

  /** `get_for_bld_and_level`: the requirements of one level; a level without any has none. */
  function RequirementsAt(cat: Catalog, building: BuildingKey, level: int): (reqs: seq<BuildingRequirement>)
    requires CatalogWellFormed(cat)
    ensures AllWellFormed(reqs)
    ensures (building, level) !in cat.requirements ==> reqs == []
  {
    if (building, level) in cat.requirements then cat.requirements[(building, level)] else []
  }

  /**
   * The availability `construct_building` and `upgrade_building` compute for
   * the player and the building type at the level about to be reached.
   */
  ghost function Availability(cat: Catalog, rows: map<nat, PlayerBuilding>, player: nat, building: BuildingKey, level: BuildingLevel)
    : (a: BuildingAvailability)
    requires CatalogWellFormed(cat) && building in cat.buildings
    ensures a.buildable <==>
      |OwnedOf(rows, player, building)| < cat.buildings[building].max_count &&
      RequirementLocks(RequirementsAt(cat, building, level.building_level), OwnLevel(SummaryOf(rows, cat.buildings, player, building))) == []
  {
    GenAvailData(cat.buildings[building], SummaryOf(rows, cat.buildings, player, building),
                 RequirementsAt(cat, building, level.building_level), NoConstructionInfo)
  }

  /**
   * `has_enough_resources` as the operations use it: a player without a
   * resource row is NotFound, a short balance is "Not enough resources".
   */
  function ResourceCheck(res: map<nat, PlayerResource>, player: nat, level: BuildingLevel, kind: ErrorKind): (e: Option<Error>)
    ensures e.None? <==> player in res && HasEnoughFor(res[player], level)
    ensures player !in res ==> e == Some(Db(NotFound))
    ensures player in res && !HasEnoughFor(res[player], level) ==> e == Some(Described(kind, "Not enough resources"))
  {
    if player !in res then Some(Db(NotFound))
    else if !HasEnoughFor(res[player], level) then Some(Described(kind, "Not enough resources"))
    else None
  }

  /** Passing the resource check leaves no stored amount below zero once the level's cost is deducted. */
  lemma ResourceCheckLeavesNoDebt(res: map<nat, PlayerResource>, player: nat, level: BuildingLevel, kind: ErrorKind)
    requires ResourceCheck(res, player, level, kind).None?
    ensures var n := Deducted(res[player], LevelCost(level));
      n.food >= 0 && n.wood >= 0 && n.stone >= 0 && n.gold >= 0
  {
  }

  /** A row that passes the check for one level's cost is exactly one that can pay it without debt. */
  lemma HasEnoughIffNoDebt(r: PlayerResource, level: BuildingLevel)
    ensures HasEnoughFor(r, level) <==>
      (var n := Deducted(r, LevelCost(level)); n.food >= 0 && n.wood >= 0 && n.stone >= 0 && n.gold >= 0)
  {
  }

  const ConstructLocked: Error := Described(ConstructBuildingError, "Building has locks, cannot construct")
  const ConstructFailed: Error := Described(ConstructBuildingError, "Failed to construct building")
  const UpgradeLocked: Error := Described(UpgradeBuildingError, "Building has locks")
  const UpgradeFailed: Error := Described(UpgradeBuildingError, "Failed to upgrade building")
  const NotUpgrading: Error := Described(ConfirmUpgradeError, "Building is not upgrading")
  const NotYetDone: Error := Described(ConfirmUpgradeError, "Upgrade time has not passed")

  /**
   * The checks `construct_building` makes before its transaction, in order:
   * the data of level 1, the building type, the availability locks, the
   * resource row and its balance. The level-1 data when all pass.
   */
  ghost function ConstructCheck(cat: Catalog, rows: map<nat, PlayerBuilding>, res: map<nat, PlayerResource>, player: nat, building: BuildingKey)
    : (r: Result<BuildingLevel, Error>)
    requires CatalogWellFormed(cat)
    ensures r.Ok? <==>
      (building, 1) in cat.levels && building in cat.buildings &&
      Availability(cat, rows, player, building, cat.levels[(building, 1)]).buildable &&
      player in res && HasEnoughFor(res[player], cat.levels[(building, 1)])
    ensures r.Ok? ==> r.value == cat.levels[(building, 1)]
    ensures (building, 1) !in cat.levels ==> r == Err(Db(NotFound))
    ensures ((building, 1) in cat.levels && building in cat.buildings &&
             !Availability(cat, rows, player, building, cat.levels[(building, 1)]).buildable) ==> r == Err(ConstructLocked)
  {
    match NextUpgrade(cat.levels, building, 0)
    case Err(e) => Err(Db(e))
    case Ok(level) =>
      if building !in cat.buildings then Err(Db(NotFound))
      else if !Availability(cat, rows, player, building, level).buildable then Err(ConstructLocked)
      else
        match ResourceCheck(res, player, level, ConstructBuildingError)
        case Some(e) => Err(e)
        case None => Ok(level)
  }

  /**
   * A construction that passes its checks keeps the player within the
   * building type's maximum count once the new row is added.
   */
  lemma ConstructStaysWithinMaxCount(cat: Catalog, rows: map<nat, PlayerBuilding>, res: map<nat, PlayerResource>,
                                     player: nat, building: BuildingKey, b: PlayerBuilding)
    requires CatalogWellFormed(cat)
    requires ConstructCheck(cat, rows, res, player, building).Ok?
    requires b.id !in rows && b.player_id == player && b.building_id == building
    ensures |OwnedOf(rows[b.id := b], player, building)| == |OwnedOf(rows, player, building)| + 1
    ensures |OwnedOf(rows[b.id := b], player, building)| <= cat.buildings[building].max_count
  {
    ConstructCountsOne(rows, b, player, building);
  }

  /**
   * The checks `upgrade_building` makes up to the lock test: the row (with
   * its building type's maximum level, which is not used further), the data
   * of the next level, and the building type.
   */
  function UpgradeTarget(cat: Catalog, rows: map<nat, PlayerBuilding>, id: nat): (r: Result<(PlayerBuilding, BuildingLevel), Error>)
    ensures r.Ok? <==>
      id in rows && (rows[id].building_id, rows[id].level + 1) in cat.levels && rows[id].building_id in cat.buildings
    ensures r.Ok? ==> r.value == (rows[id], cat.levels[(rows[id].building_id, rows[id].level + 1)])
    ensures r.Err? ==> r.error == Db(NotFound)
  {
    if id !in rows then Err(Db(NotFound))
    else
      var pb := rows[id];
      match NextUpgrade(cat.levels, pb.building_id, pb.level)
      case Err(e) => Err(Db(e))
      case Ok(level) =>
        if pb.building_id !in cat.buildings then Err(Db(NotFound)) else Ok((pb, level))
  }

  /**
   * The checks `upgrade_building` makes before its transaction: the target,
   * the availability locks of the next level (the count lock included), the
   * resource row and its balance.
   */
  ghost function UpgradeCheck(cat: Catalog, rows: map<nat, PlayerBuilding>, res: map<nat, PlayerResource>, id: nat)
    : (r: Result<(PlayerBuilding, BuildingLevel), Error>)
    requires CatalogWellFormed(cat)
    ensures UpgradeTarget(cat, rows, id).Err? ==> r == UpgradeTarget(cat, rows, id)
    ensures r.Ok? <==>
      UpgradeTarget(cat, rows, id).Ok? &&
      (var (pb, level) := UpgradeTarget(cat, rows, id).value;
       Availability(cat, rows, pb.player_id, pb.building_id, level).buildable &&
       pb.player_id in res && HasEnoughFor(res[pb.player_id], level))
    ensures r.Ok? ==> r == UpgradeTarget(cat, rows, id)
  {
    match UpgradeTarget(cat, rows, id)
    case Err(e) => Err(e)
    case Ok((pb, level)) =>
      if !Availability(cat, rows, pb.player_id, pb.building_id, level).buildable then Err(UpgradeLocked)
      else
        match ResourceCheck(res, pb.player_id, level, UpgradeBuildingError)
        case Some(e) => Err(e)
        case None => Ok((pb, level))
  }

  /**
   * Because the availability includes the count lock, a player owning the
   * maximum count of a building type cannot upgrade any of them: here one
   * building of a type allowed once, at level 1, with level 2 defined, no
   * requirements and plenty of resources.
   */
  lemma UpgradeBlockedAtMaxCount()
    ensures var cat := Catalog(map[3 := Building(3, 10, 1, FactionCodec.Neutral, false)],
                               map[(3, 2) := BuildingLevel(3, 2, 60, None, None, None, None)], map[]);
            var rows := map[7 := PlayerBuilding(7, 1, 3, 1, None)];
            var res := map[1 := PlayerResource(1, 100, 100, 100, 100, 1000, 1000, 1000, 1000)];
            CatalogWellFormed(cat) && UpgradeCheck(cat, rows, res, 7) == Err(UpgradeLocked)
  {
    var rows := map[7 := PlayerBuilding(7, 1, 3, 1, None)];
    assert OwnedOf(rows, 1, 3) == {7};
  }

  /**
   * The upgrade check as evidently intended: the count lock only restricts
   * building new ones, so an upgrade is locked exactly by the requirement
   * locks of the next level.
   */
  ghost function IntendedUpgradeCheck(cat: Catalog, rows: map<nat, PlayerBuilding>, res: map<nat, PlayerResource>, id: nat)
    : (r: Result<(PlayerBuilding, BuildingLevel), Error>)
    requires CatalogWellFormed(cat)
    ensures UpgradeTarget(cat, rows, id).Err? ==> r == UpgradeTarget(cat, rows, id)
    ensures r.Ok? <==>
      UpgradeTarget(cat, rows, id).Ok? &&
      (var (pb, level) := UpgradeTarget(cat, rows, id).value;
       RequirementLocks(RequirementsAt(cat, pb.building_id, level.building_level),
                        OwnLevel(SummaryOf(rows, cat.buildings, pb.player_id, pb.building_id))) == [] &&
       pb.player_id in res && HasEnoughFor(res[pb.player_id], level))
    ensures r.Ok? ==> r == UpgradeTarget(cat, rows, id)
  {
    match UpgradeTarget(cat, rows, id)
    case Err(e) => Err(e)
    case Ok((pb, level)) =>
      var reqs := RequirementsAt(cat, pb.building_id, level.building_level);
      if RequirementLocks(reqs, OwnLevel(SummaryOf(rows, cat.buildings, pb.player_id, pb.building_id))) != [] then Err(UpgradeLocked)
      else
        match ResourceCheck(res, pb.player_id, level, UpgradeBuildingError)
        case Some(e) => Err(e)
        case None => Ok((pb, level))
  }

  /**
   * The intended check differs from the written one only when the player
   * owns the maximum count: below it the two agree on every input.
   */
  lemma IntendedAgreesBelowMaxCount(cat: Catalog, rows: map<nat, PlayerBuilding>, res: map<nat, PlayerResource>, id: nat)
    requires CatalogWellFormed(cat)
    requires id in rows && rows[id].building_id in cat.buildings
    requires |OwnedOf(rows, rows[id].player_id, rows[id].building_id)| < cat.buildings[rows[id].building_id].max_count
    ensures IntendedUpgradeCheck(cat, rows, res, id) == UpgradeCheck(cat, rows, res, id)
  {
  }

  /** Under the intended check, the building of the counterexample can be upgraded. */
  lemma IntendedUpgradeAtMaxCount()
    ensures var cat := Catalog(map[3 := Building(3, 10, 1, FactionCodec.Neutral, false)],
                               map[(3, 2) := BuildingLevel(3, 2, 60, None, None, None, None)], map[]);
            var rows := map[7 := PlayerBuilding(7, 1, 3, 1, None)];
            var res := map[1 := PlayerResource(1, 100, 100, 100, 100, 1000, 1000, 1000, 1000)];
            CatalogWellFormed(cat) && IntendedUpgradeCheck(cat, rows, res, 7).Ok?
  {
  }

  /**
   * `confirm_upgrade`'s decision: NotFound for a missing row, "not upgrading"
   * without an ETA, the levelled-up row once `now` has reached the ETA, and
   * "time has not passed" before.
   */
  function ConfirmOutcome(rows: map<nat, PlayerBuilding>, id: nat, now: int): (r: Result<PlayerBuilding, Error>)
    ensures id !in rows ==> r == Err(Db(NotFound))
    ensures id in rows && rows[id].upgrade_finishes_at.None? ==> r == Err(NotUpgrading)
    ensures r.Ok? <==> id in rows && rows[id].upgrade_finishes_at.Some? && now >= rows[id].upgrade_finishes_at.value
    ensures r.Ok? ==> r.value.level == rows[id].level + 1 && r.value.upgrade_finishes_at == None &&
                      r.value.id == rows[id].id && r.value.player_id == rows[id].player_id &&
                      r.value.building_id == rows[id].building_id
    ensures id in rows && rows[id].upgrade_finishes_at.Some? && now < rows[id].upgrade_finishes_at.value ==> r == Err(NotYetDone)
  {
    if id !in rows then Err(Db(NotFound))
    else
      match rows[id].upgrade_finishes_at
      case None => Err(NotUpgrading)
      case Some(eta) => if now >= eta then Ok(LevelledUp(rows[id])) else Err(NotYetDone)
  }

  /** A confirmed upgrade cannot be confirmed again: the ETA is gone. */
  lemma ConfirmOnce(rows: map<nat, PlayerBuilding>, id: nat, now: int, later: int)
    requires ConfirmOutcome(rows, id, now).Ok?
    ensures ConfirmOutcome(rows[id := ConfirmOutcome(rows, id, now).value], id, later) == Err(NotUpgrading)
  {
  }

  /**
   * An upgrade started at `now` for a level taking `seconds` is confirmed at
   * any time from `now + seconds` on, reaching exactly the level whose data
   * was charged, and refused before.
   */
  lemma UpgradeThenConfirm(cat: Catalog, rows: map<nat, PlayerBuilding>, res: map<nat, PlayerResource>, id: nat, now: int, at: int)
    requires CatalogWellFormed(cat)
    requires UpgradeCheck(cat, rows, res, id).Ok?
    ensures var level := UpgradeCheck(cat, rows, res, id).value.1;
      var started := rows[id := rows[id].(upgrade_finishes_at := Some(now + level.upgrade_seconds))];
      (at >= now + level.upgrade_seconds ==>
         ConfirmOutcome(started, id, at).Ok? && ConfirmOutcome(started, id, at).value.level == level.building_level) &&
      (at < now + level.upgrade_seconds ==> ConfirmOutcome(started, id, at) == Err(NotYetDone))
  {
    var level := UpgradeCheck(cat, rows, res, id).value.1;
    assert level == cat.levels[(rows[id].building_id, rows[id].level + 1)];
  }

  class BuildingSystem {
    var resources: ResourceTable
    var buildings: PlayerBuildingTable

    ghost predicate Valid()
      reads this, buildings
    {
      buildings.Valid()
    }

    constructor(resources: ResourceTable, buildings: PlayerBuildingTable)
      ensures this.resources == resources && this.buildings == buildings
    {
      this.resources := resources;
      this.buildings := buildings;
    }

    /** `has_enough_resources`: NotFound for a player without a resource row, else the balance test. */
    method HasEnoughResources(player: nat, level: BuildingLevel) returns (r: Result<bool, DbError>)
      ensures player !in resources.rows ==> r == Err(NotFound)
      ensures player in resources.rows ==> r.Ok? && (r.value <==> ResourceCheck(resources.rows, player, level, ConstructBuildingError).None?)
    {
      var row := resources.GetByPlayerId(player);
      if row.Err? {
        return Err(row.error);
      }
      var res := row.value;
      var food := res.food >= level.req_food.UnwrapOr(0);
      var wood := res.wood >= level.req_wood.UnwrapOr(0);
      var stone := res.stone >= level.req_stone.UnwrapOr(0);
      var gold := res.gold >= level.req_gold.UnwrapOr(0);
      r := Ok(food && wood && stone && gold);
    }

    /** `get_player_bld_count_level`: the building type and the player's count and highest level of it. */
    method CountLevel(cat: Catalog, player: nat, building: BuildingKey) returns (r: Result<(Building, AvailabilityData), DbError>)
      ensures building !in cat.buildings ==> r == Err(NotFound)
      ensures building in cat.buildings ==> r == Ok((cat.buildings[building], SummaryOf(buildings.rows, cat.buildings, player, building)))
    {
      if building !in cat.buildings {
        return Err(NotFound);
      }
      var data := buildings.Summary(cat.buildings, player, building);
      r := Ok((cat.buildings[building], data));
    }

    /**
     * `construct_building`. `fault` says whether the transaction fails (it is
     * then rolled back and reported as "Failed to construct building"). On
     * success the level-1 cost is deducted and a level-0 row is created whose
     * upgrade finishes `upgrade_seconds` after `now`.
     */
    method ConstructBuilding(cat: Catalog, player: nat, building: BuildingKey, now: int, fault: bool)
      returns (r: Result<PlayerBuilding, Error>)
      requires Valid() && CatalogWellFormed(cat)
      modifies resources, buildings
      ensures Valid()
      ensures ConstructCheck(cat, old(buildings.rows), old(resources.rows), player, building).Err? ==>
        r == Err(ConstructCheck(cat, old(buildings.rows), old(resources.rows), player, building).error) &&
        resources.rows == old(resources.rows) && buildings.rows == old(buildings.rows)
      ensures ConstructCheck(cat, old(buildings.rows), old(resources.rows), player, building).Ok? && fault ==>
        r == Err(ConstructFailed) && resources.rows == old(resources.rows) && buildings.rows == old(buildings.rows)
      ensures ConstructCheck(cat, old(buildings.rows), old(resources.rows), player, building).Ok? && !fault ==>
        var level := ConstructCheck(cat, old(buildings.rows), old(resources.rows), player, building).value;
        r.Ok? && r.value == PlayerBuilding(r.value.id, player, building, 0, Some(now + level.upgrade_seconds)) &&
        r.value.id !in old(buildings.rows) && buildings.rows == old(buildings.rows)[r.value.id := r.value] &&
        resources.rows == old(resources.rows)[player := Deducted(old(resources.rows)[player], LevelCost(level))]
    {
      var next := NextUpgrade(cat.levels, building, 0);
      if next.Err? {
        return Err(Db(next.error));
      }
      var level := next.value;
      var reqs := RequirementsAt(cat, building, level.building_level);
      var counted := CountLevel(cat, player, building);
      if counted.Err? {
        return Err(Db(counted.error));
      }
      var avail := GenAvailData(counted.value.0, counted.value.1, reqs, NoConstructionInfo);
      if !avail.buildable {
        return Err(ConstructLocked);
      }
      var enough := HasEnoughResources(player, level);
      if enough.Err? {
        return Err(Db(enough.error));
      }
      if !enough.value {
        return Err(Described(ConstructBuildingError, "Not enough resources"));
      }
      if fault {
        return Err(ConstructFailed);
      }
      var deducted := resources.Deduct(player, LevelCost(level));
      var b := buildings.Construct(player, building, 0, Some(now + level.upgrade_seconds));
      r := Ok(b);
    }

    /**
     * `upgrade_building`. `fault` says whether the transaction fails (rolled
     * back, "Failed to upgrade building"). On success the next level's cost
     * is deducted and the row's upgrade ETA is set `upgrade_seconds` after
     * `now`; the level itself changes only on confirmation.
     */
    method UpgradeBuilding(cat: Catalog, id: nat, now: int, fault: bool) returns (r: Result<PlayerBuilding, Error>)
      requires Valid() && CatalogWellFormed(cat)
      modifies resources, buildings
      ensures Valid()
      ensures UpgradeCheck(cat, old(buildings.rows), old(resources.rows), id).Err? ==>
        r == Err(UpgradeCheck(cat, old(buildings.rows), old(resources.rows), id).error) &&
        resources.rows == old(resources.rows) && buildings.rows == old(buildings.rows)
      ensures UpgradeCheck(cat, old(buildings.rows), old(resources.rows), id).Ok? && fault ==>
        r == Err(UpgradeFailed) && resources.rows == old(resources.rows) && buildings.rows == old(buildings.rows)
      ensures UpgradeCheck(cat, old(buildings.rows), old(resources.rows), id).Ok? && !fault ==>
        var (pb, level) := UpgradeCheck(cat, old(buildings.rows), old(resources.rows), id).value;
        buildings.rows == old(buildings.rows)[id := pb.(upgrade_finishes_at := Some(now + level.upgrade_seconds))] &&
        r == Ok(buildings.rows[id]) &&
        resources.rows == old(resources.rows)[pb.player_id := Deducted(old(resources.rows)[pb.player_id], LevelCost(level))]
    {
      var tuple := buildings.GetUpgradeTuple(cat.buildings, id);
      if tuple.Err? {
        return Err(Db(tuple.error));
      }
      var pb := tuple.value.0;
      var next := NextUpgrade(cat.levels, pb.building_id, pb.level);
      if next.Err? {
        return Err(Db(next.error));
      }
      var level := next.value;
      var reqs := RequirementsAt(cat, pb.building_id, level.building_level);
      var counted := CountLevel(cat, pb.player_id, pb.building_id);
      if counted.Err? {
        return Err(Db(counted.error));
      }
      var avail := GenAvailData(counted.value.0, counted.value.1, reqs, NoConstructionInfo);
      if !avail.buildable {
        return Err(UpgradeLocked);
      }
      var enough := HasEnoughResources(pb.player_id, level);
      if enough.Err? {
        return Err(Db(enough.error));
      }
      if !enough.value {
        return Err(Described(UpgradeBuildingError, "Not enough resources"));
      }
      if fault {
        return Err(UpgradeFailed);
      }
      var deducted := resources.Deduct(pb.player_id, LevelCost(level));
      var updated := buildings.SetUpgradeEta(id, Some(now + level.upgrade_seconds));
      r := Ok(updated.value);
    }

    /** `confirm_upgrade`: applies ConfirmOutcome's levelled-up row and changes nothing on refusal. */
    method ConfirmUpgrade(id: nat, now: int) returns (r: Result<PlayerBuilding, Error>)
      requires Valid()
      modifies buildings
      ensures Valid()
      ensures r == ConfirmOutcome(old(buildings.rows), id, now)
      ensures r.Ok? ==> buildings.rows == old(buildings.rows)[id := r.value]
      ensures r.Err? ==> buildings.rows == old(buildings.rows)
    {
      var row := buildings.GetById(id);
      if row.Err? {
        return Err(Db(row.error));
      }
      match row.value.upgrade_finishes_at
      case None =>
        return Err(NotUpgrading);
      case Some(eta) =>
        if now >= eta {
          var levelled := buildings.IncLevel(id);
          r := Ok(levelled.value);
        } else {
          r := Err(NotYetDone);
        }
    }
  }
}
