/**
 * Unit training: starting a batch (validation, deduction, queue entry, job
 * link), cancelling it and completing it.
 */
module TrainingOperations {
  import opened Wrappers
  import opened DbErrors
  import opened TrainingStatusCodec
  import opened UnitTypeCodec
  import opened ResourceOperations
  import opened ResourceRows
  import opened TrainingQueue
  import opened PlayerUnits

  /** Most entries a building may have Pending or InProgress at once. */
  const MaxQueuePerBuilding: int := 5

  datatype ErrorKind =
    | InvalidQuantityError
    | StartTrainingError
    | InvalidBuildingTypeError
    | InsufficientResourcesError
    | TrainingQueueFullError
    | CancelTrainingError
    | CompleteTrainingError

  /** A described error, a failed table query, or a failed job insert. */
  datatype Error =
    | Described(kind: ErrorKind, description: string)
    | Db(db: DbError)
    | Enqueue(message: string)

  /** One cost row of a unit: a resource name and the amount per unit. */
  datatype UnitCost = UnitCost(resource: string, amount: int)

  /** A player's building: its owner and the building type it is an instance of. */
  datatype PlayerBuilding = PlayerBuilding(player_id: nat, building_id: nat)

  datatype Unit = Unit(id: nat, unit_type: UnitType, base_training_seconds: int)

  /**
   * The rows training reads and never writes: player buildings by key, units
   * by key, each unit's cost rows, and which unit types each building type
   * can train.
   */
  datatype Catalog = Catalog(
    buildings: map<nat, PlayerBuilding>,
    units: map<nat, Unit>,
    costs: map<nat, seq<UnitCost>>,
    trainable: set<(nat, UnitType)>)

  /** `get_by_unit`: a unit's cost rows; a unit without any has none. */
  function CostsOf(cat: Catalog, unit: nat): seq<UnitCost>
  {
    if unit in cat.costs then cat.costs[unit] else []
  }

  /** The amount of the last cost row naming `name`, or 0 when none does. */
  function LastAmount(costs: seq<UnitCost>, name: string): (a: int)
    ensures (forall i :: 0 <= i < |costs| ==> costs[i].resource != name) ==> a == 0
    ensures a != 0 ==> exists i :: 0 <= i < |costs| && costs[i].resource == name && costs[i].amount == a
  {
    if costs == [] then 0
    else if costs[|costs| - 1].resource == name then costs[|costs| - 1].amount
    else LastAmount(costs[..|costs| - 1], name)
  }

  /** The row that counts is the last one naming the resource: later rows overwrite earlier ones. */
  lemma {:induction false} LastAmountIsLastRow(costs: seq<UnitCost>, name: string, i: int)
    requires 0 <= i < |costs| && costs[i].resource == name
    requires forall j :: i < j < |costs| ==> costs[j].resource != name
    ensures LastAmount(costs, name) == costs[i].amount
    decreases |costs|
  {
    if i < |costs| - 1 {
      var init := costs[..|costs| - 1];
      assert forall j :: i < j < |init| ==> init[j] == costs[j];
      LastAmountIsLastRow(init, name, i);
    }
  }

  /** `get_total_cost` as a value: each known resource's amount times the quantity. */
  function TotalCost(costs: seq<UnitCost>, quantity: int): Amounts
  {
    Amounts(
      LastAmount(costs, "food") * quantity,
      LastAmount(costs, "wood") * quantity,
      LastAmount(costs, "stone") * quantity,
      LastAmount(costs, "gold") * quantity)
  }

  /** A cost row naming none of the four resources changes nothing. */
  lemma TotalCostIgnoresUnknown(costs: seq<UnitCost>, c: UnitCost, quantity: int)
    requires c.resource !in {"food", "wood", "stone", "gold"}
    ensures TotalCost(costs + [c], quantity) == TotalCost(costs, quantity)
  {
    assert (costs + [c])[..|costs|] == costs;
  }

  /** A later row for a resource overwrites an earlier one. */
  lemma TotalCostLaterWins(costs: seq<UnitCost>, amount: int, quantity: int)
    ensures TotalCost(costs + [UnitCost("wood", amount)], quantity).wood == amount * quantity
    ensures TotalCost(costs + [UnitCost("wood", amount)], quantity).food == TotalCost(costs, quantity).food
  {
    assert (costs + [UnitCost("wood", amount)])[..|costs|] == costs;
  }

  /**
   * `get_total_cost`: four running amounts, each set (not added to) by every
   * cost row for its resource.
   */
  method GetTotalCost(costs: seq<UnitCost>, quantity: int) returns (total: Amounts)
    ensures total == TotalCost(costs, quantity)
  {
    var food, wood, stone, gold := 0, 0, 0, 0;
    var i := 0;
    while i < |costs|
      invariant 0 <= i <= |costs|
      invariant food == LastAmount(costs[..i], "food") * quantity
      invariant wood == LastAmount(costs[..i], "wood") * quantity
      invariant stone == LastAmount(costs[..i], "stone") * quantity
      invariant gold == LastAmount(costs[..i], "gold") * quantity
    {
      var c := costs[i];
      assert costs[..i + 1][..i] == costs[..i];
      if c.resource == "food" {
        food := c.amount * quantity;
      } else if c.resource == "wood" {
        wood := c.amount * quantity;
      } else if c.resource == "stone" {
        stone := c.amount * quantity;
      } else if c.resource == "gold" {
        gold := c.amount * quantity;
      }
      i := i + 1;
    }
    assert costs[..i] == costs;
    total := Amounts(food, wood, stone, gold);
  }

  /** `has_enough_resources`: every stored amount covers its cost. */
  predicate HasEnough(res: PlayerResource, cost: Amounts)
  {
    res.food >= cost.food && res.wood >= cost.wood && res.stone >= cost.stone && res.gold >= cost.gold
  }

  /**
   * The checks `start_training` makes before its transaction, in order:
   * quantity, building lookup and ownership, unit lookup, building/unit type
   * match, resource lookup and balance. None when all pass.
   */
  function StartCheck(cat: Catalog, rows: map<nat, PlayerResource>, player: nat, building: nat, unit: nat, quantity: int): (e: Option<Error>)
    ensures quantity <= 0 ==> e == Some(Described(InvalidQuantityError, "Quantity must be positive"))
    ensures e.None? <==>
      quantity > 0 && building in cat.buildings && cat.buildings[building].player_id == player &&
      unit in cat.units && (cat.buildings[building].building_id, cat.units[unit].unit_type) in cat.trainable &&
      player in rows && HasEnough(rows[player], TotalCost(CostsOf(cat, unit), quantity))
  {
    if quantity <= 0 then Some(Described(InvalidQuantityError, "Quantity must be positive"))
    else if building !in cat.buildings then Some(Db(NotFound))
    else if cat.buildings[building].player_id != player then Some(Described(StartTrainingError, "Building not found"))
    else if unit !in cat.units then Some(Db(NotFound))
    else if (cat.buildings[building].building_id, cat.units[unit].unit_type) !in cat.trainable then
      Some(Described(InvalidBuildingTypeError, "Building cannot train this unit type"))
    else if player !in rows then Some(Db(NotFound))
    else if !HasEnough(rows[player], TotalCost(CostsOf(cat, unit), quantity)) then
      Some(Described(InsufficientResourcesError, "Not enough resources"))
    else None
  }

  /** Training at another player's building is refused whatever else holds. */
  lemma ForeignBuildingRefused(cat: Catalog, rows: map<nat, PlayerResource>, player: nat, building: nat, unit: nat, quantity: int)
    requires quantity > 0 && building in cat.buildings && cat.buildings[building].player_id != player
    ensures StartCheck(cat, rows, player, building, unit, quantity) == Some(Described(StartTrainingError, "Building not found"))
  {
  }

  /** Past the earlier checks, the resource check fails exactly when some resource is short of amount × quantity. */
  lemma InsufficientIffShort(cat: Catalog, rows: map<nat, PlayerResource>, player: nat, building: nat, unit: nat, quantity: int)
    requires quantity > 0 && building in cat.buildings && cat.buildings[building].player_id == player
    requires unit in cat.units && (cat.buildings[building].building_id, cat.units[unit].unit_type) in cat.trainable
    requires player in rows
    ensures var c := CostsOf(cat, unit);
      StartCheck(cat, rows, player, building, unit, quantity) == Some(Described(InsufficientResourcesError, "Not enough resources")) <==>
      (rows[player].food < LastAmount(c, "food") * quantity || rows[player].wood < LastAmount(c, "wood") * quantity ||
       rows[player].stone < LastAmount(c, "stone") * quantity || rows[player].gold < LastAmount(c, "gold") * quantity)
  {
  }

  /** Whether any of the four amounts is above zero. */
  predicate Positive(a: Amounts)
  {
    a.food > 0 || a.wood > 0 || a.stone > 0 || a.gold > 0
  }

  /** The error every failure inside the start transaction is reported as. */
  const StartFailed: Error := Described(StartTrainingError, "Failed to start training")

  /** The entry the start transaction creates, before the job link. */
  function StartedEntry(id: nat, player: nat, building: nat, unit: nat, quantity: int, now: int): TrainingQueueEntry
  {
    TrainingQueueEntry(id, player, building, unit, quantity, now, None, InProgress, None)
  }

  class TrainingSystem {
    var resources: ResourceTable
    var queue: TrainingQueueTable
    var units: PlayerUnitTable

    ghost predicate Valid()
      reads this, queue
    {
      queue.Valid()
    }

    constructor(resources: ResourceTable, queue: TrainingQueueTable, units: PlayerUnitTable)
      ensures this.resources == resources && this.queue == queue && this.units == units
    {
      this.resources := resources;
      this.queue := queue;
      this.units := units;
    }

    /**
     * The transaction of `start_training`: refuses a full queue, deducts the
     * total cost and creates an InProgress entry.
     */
    method StartTransaction(cat: Catalog, player: nat, building: nat, unit: nat, quantity: int, now: int)
      returns (r: Result<TrainingQueueEntry, Error>)
      requires Valid() && player in resources.rows
      modifies resources, queue
      ensures Valid()
      ensures |ActiveIds(old(queue.rows), building)| >= MaxQueuePerBuilding ==>
        r == Err(StartFailed) && resources.rows == old(resources.rows) && queue.rows == old(queue.rows)
      ensures |ActiveIds(old(queue.rows), building)| < MaxQueuePerBuilding ==>
        r.Ok? && r.value == StartedEntry(r.value.id, player, building, unit, quantity, now) &&
        r.value.id !in old(queue.rows) && queue.rows == old(queue.rows)[r.value.id := r.value] &&
        resources.rows == old(resources.rows)[player := Deducted(old(resources.rows)[player], TotalCost(CostsOf(cat, unit), quantity))]
    {
      var active := queue.GetActiveCountForBuilding(building);
      if active >= MaxQueuePerBuilding {
        return Err(StartFailed);
      }
      var costs := GetTotalCost(CostsOf(cat, unit), quantity);
      var deducted := resources.Deduct(player, costs);
      var entry := queue.Create(player, building, unit, quantity, InProgress, None, now);
      r := Ok(entry);
    }

    /**
     * `start_training`. The entry starts at `now`; the completion job it is
     * linked to is due when the unit's training duration has passed, and
     * `job` is the outcome of enqueuing that job.
     * The transaction is committed before the job is enqueued, so a failed
     * enqueue leaves the deduction and the unlinked entry in place.
     */
    method StartTraining(cat: Catalog, player: nat, building: nat, unit: nat, quantity: int, now: int, job: Result<nat, string>)
      returns (r: Result<TrainingQueueEntry, Error>)
      requires Valid()
      modifies resources, queue
      ensures Valid()
      ensures StartCheck(cat, old(resources.rows), player, building, unit, quantity).Some? ==>
        r == Err(StartCheck(cat, old(resources.rows), player, building, unit, quantity).value) &&
        resources.rows == old(resources.rows) && queue.rows == old(queue.rows)
      ensures StartCheck(cat, old(resources.rows), player, building, unit, quantity).None? &&
              |ActiveIds(old(queue.rows), building)| >= MaxQueuePerBuilding ==>
        r == Err(StartFailed) && resources.rows == old(resources.rows) && queue.rows == old(queue.rows)
      ensures StartCheck(cat, old(resources.rows), player, building, unit, quantity).None? &&
              |ActiveIds(old(queue.rows), building)| < MaxQueuePerBuilding ==>
        resources.rows == old(resources.rows)[player := Deducted(old(resources.rows)[player], TotalCost(CostsOf(cat, unit), quantity))] &&
        exists id :: id !in old(queue.rows) &&
          (job.Err? ==> r == Err(Enqueue(job.error)) &&
                        queue.rows == old(queue.rows)[id := StartedEntry(id, player, building, unit, quantity, now)]) &&
          (job.Ok? ==> r == Ok(StartedEntry(id, player, building, unit, quantity, now).(job_id := Some(job.value))) &&
                       queue.rows == old(queue.rows)[id := r.value])
    {
      var check := StartCheck(cat, resources.rows, player, building, unit, quantity);
      if check.Some? {
        return Err(check.value);
      }
      var entry := StartTransaction(cat, player, building, unit, quantity, now);
      if entry.Err? {
        return Err(entry.error);
      }
      if job.Err? {
        return Err(Enqueue(job.error));
      }
      var linked := queue.SetJobId(entry.value.id, job.value);
      r := Ok(linked.value);
    }

    /**
     * `complete_training`: finds the entry linked to the job; a Completed or
     * Cancelled entry is returned as it is, so a second completion adds no
     * units. Otherwise the entry's units are added and it is marked Completed
     * at `now`.
     */
    method CompleteTraining(job: nat, now: int) returns (r: Result<TrainingQueueEntry, Error>)
      requires Valid()
      modifies queue, units
      ensures Valid()
      ensures (forall k :: k in old(queue.rows) ==> old(queue.rows)[k].job_id != Some(job)) ==>
        r == Err(Db(NotFound)) && queue.rows == old(queue.rows) && units.rows == old(units.rows)
      ensures r.Ok? ==> r.value.id in old(queue.rows) && old(queue.rows)[r.value.id].job_id == Some(job)
      ensures r.Ok? && old(queue.rows)[r.value.id].status in {Completed, Cancelled} ==>
        r.value == old(queue.rows)[r.value.id] && queue.rows == old(queue.rows) && units.rows == old(units.rows)
      ensures r.Ok? && old(queue.rows)[r.value.id].status !in {Completed, Cancelled} ==>
        var e := old(queue.rows)[r.value.id];
        r.value == MarkCompleted(e, now) && queue.rows == old(queue.rows)[e.id := r.value] &&
        units.rows == Upserted(old(units.rows), e.player_id, e.unit_id, e.quantity)
      ensures (exists k :: k in old(queue.rows) && old(queue.rows)[k].job_id == Some(job)) ==> r.Ok?
      ensures r.Err? ==> r == Err(Db(NotFound)) && queue.rows == old(queue.rows) && units.rows == old(units.rows)
    {
      var found := queue.GetByJobId(job);
      if found.Err? {
        return Err(Db(found.error));
      }
      var entry := found.value;
      if entry.status == Completed || entry.status == Cancelled {
        return Ok(entry);
      }
      var added := units.AddUnits(entry.player_id, entry.unit_id, entry.quantity);
      var completed := queue.Complete(entry.id, now);
      r := Ok(completed.value);
    }

    /**
     * `cancel_training`: only the owner may cancel, and only an entry that is
     * neither Completed nor Cancelled. `refund` is the refund the elapsed time
     * gives; it is added back only when some component is positive. Cancelling
     * the linked job is not part of this model.
     */
    method CancelTraining(player: nat, entry_id: nat, refund: Amounts) returns (r: Result<TrainingQueueEntry, Error>)
      requires Valid()
      modifies resources, queue
      ensures Valid()
      ensures entry_id !in old(queue.rows) ==>
        r == Err(Db(NotFound)) && resources.rows == old(resources.rows) && queue.rows == old(queue.rows)
      ensures entry_id in old(queue.rows) && old(queue.rows)[entry_id].player_id != player ==>
        r == Err(Described(CancelTrainingError, "Training entry not found")) &&
        resources.rows == old(resources.rows) && queue.rows == old(queue.rows)
      ensures entry_id in old(queue.rows) && old(queue.rows)[entry_id].player_id == player &&
              old(queue.rows)[entry_id].status in {Completed, Cancelled} ==>
        r == Err(Described(CancelTrainingError, "Training cannot be cancelled")) &&
        resources.rows == old(resources.rows) && queue.rows == old(queue.rows)
      ensures r.Ok? ==>
        entry_id in old(queue.rows) && old(queue.rows)[entry_id].player_id == player &&
        old(queue.rows)[entry_id].status !in {Completed, Cancelled} &&
        r.value == MarkCancelled(old(queue.rows)[entry_id]) && queue.rows == old(queue.rows)[entry_id := r.value]
      ensures r.Ok? && Positive(refund) ==>
        player in old(resources.rows) && resources.rows == old(resources.rows)[player := Added(old(resources.rows)[player], refund)]
      ensures r.Ok? && !Positive(refund) ==> resources.rows == old(resources.rows)
      ensures entry_id in old(queue.rows) && old(queue.rows)[entry_id].player_id == player &&
              old(queue.rows)[entry_id].status !in {Completed, Cancelled} ==>
        if Positive(refund) && player !in old(resources.rows) then
          r == Err(Described(CancelTrainingError, "Failed to cancel training")) &&
          resources.rows == old(resources.rows) && queue.rows == old(queue.rows)
        else r.Ok?
    {
      var found := queue.GetById(entry_id);
      if found.Err? {
        return Err(Db(found.error));
      }
      var entry := found.value;
      if entry.player_id != player {
        return Err(Described(CancelTrainingError, "Training entry not found"));
      }
      if entry.status == Completed || entry.status == Cancelled {
        return Err(Described(CancelTrainingError, "Training cannot be cancelled"));
      }
      if Positive(refund) {
        var added := resources.Add(player, refund);
        if added.Err? {
          return Err(Described(CancelTrainingError, "Failed to cancel training"));
        }
      }
      var count := queue.Cancel(entry_id);
      r := Ok(queue.rows[entry_id]);
    }
  }
}
