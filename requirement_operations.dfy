/**
 * Building availability: the locks that keep a player from constructing a
 * building, from the number already owned and from the requirements of the
 * building's next level.
 */
module RequirementOperations {
  import opened Wrappers
  import opened BuildingDomain

  /** Resource costs and time of a construction, all zero by default. */
  datatype ConstructionInfo = ConstructionInfo(food: int, wood: int, stone: int, gold: int, time_seconds: int)

  const NoConstructionInfo := ConstructionInfo(0, 0, 0, 0, 0)

  /** A restriction that prevents construction. */
  datatype BuildingLock =
    | MaxCountReached
    | BuildingLevelRequired(building: BuildingKey, current: int, required: int)
    | TechNodeRequired(node_id: nat)

  /** How many of the building the player owns, how many are allowed, and the highest level owned. */
  datatype AvailabilityData = AvailabilityData(owned_count: int, max_count: int, max_level: Option<int>)

  datatype BuildingAvailability = BuildingAvailability(
    building: Building,
    buildable: bool,
    current_count: int,
    max_count: int,
    locks: seq<BuildingLock>,
    construction: ConstructionInfo)

  /** What the table guarantees: a building requirement carries the level it asks for. */
  predicate WellFormed(req: BuildingRequirement)
  {
    req.required_building_id.Some? ==> req.required_building_level.Some?
  }

  predicate AllWellFormed(reqs: seq<BuildingRequirement>)
  {
    forall i :: 0 <= i < |reqs| ==> WellFormed(reqs[i])
  }

  /**
   * `parse_req_lock`: a building requirement locks when `max_level` is below
   * the required level, recording both; a requirement without a building
   * locks on its tech node whenever it names one.
   */
  function ParseReqLock(req: BuildingRequirement, max_level: int): (l: Option<BuildingLock>)
    requires WellFormed(req)
    ensures req.required_building_id.Some? ==>
      (l.Some? <==> max_level < req.required_building_level.value) &&
      (l.Some? ==> l.value == BuildingLevelRequired(req.required_building_id.value, max_level, req.required_building_level.value))
    ensures req.required_building_id.None? ==>
      (l.Some? <==> req.required_tech_id.Some?) &&
      (l.Some? ==> l.value == TechNodeRequired(req.required_tech_id.value))
  {
    match req.required_building_id
    case Some(id) =>
      var required := req.required_building_level.value;
      if max_level < required then Some(BuildingLevelRequired(id, max_level, required)) else None
    case None =>
      match req.required_tech_id
      case Some(node) => Some(TechNodeRequired(node))
      case None => None
  }

  /** The locks of the requirements, in requirement order, unmet ones only. */
  function RequirementLocks(reqs: seq<BuildingRequirement>, max_level: int): (locks: seq<BuildingLock>)
    requires AllWellFormed(reqs)
    ensures |locks| <= |reqs|
    ensures MaxCountReached !in locks
  {
    if reqs == [] then []
    else
      var rest := RequirementLocks(reqs[1..], max_level);
      match ParseReqLock(reqs[0], max_level)
      case Some(l) => [l] + rest
      case None => rest
  }

  /** No requirement lock arises exactly when every requirement is met. */
  lemma {:induction false} NoRequirementLocksIff(reqs: seq<BuildingRequirement>, max_level: int)
    requires AllWellFormed(reqs)
    ensures RequirementLocks(reqs, max_level) == [] <==>
      forall i :: 0 <= i < |reqs| ==> ParseReqLock(reqs[i], max_level).None?
  {
    if reqs != [] {
      NoRequirementLocksIff(reqs[1..], max_level);
      assert forall i :: 1 <= i < |reqs| ==> reqs[i] == reqs[1..][i - 1];
    }
  }

  /** The level requirements are checked against: the highest level owned, 0 when none is. */
  function OwnLevel(data: AvailabilityData): int
  {
    data.max_level.UnwrapOr(0)
  }

  /**
   * `gen_avail_data`: MaxCountReached first when the count has reached the
   * maximum, then the requirement locks; buildable exactly when there is no
   * lock. The count, maximum, building and construction data pass through.
   */
  function GenAvailData(building: Building, data: AvailabilityData, reqs: seq<BuildingRequirement>, construction: ConstructionInfo)
    : (a: BuildingAvailability)
    requires AllWellFormed(reqs)
    ensures a.buildable <==> a.locks == []
    ensures a.building == building && a.construction == construction
    ensures a.current_count == data.owned_count && a.max_count == data.max_count
    ensures MaxCountReached in a.locks <==> data.owned_count >= data.max_count
    ensures data.owned_count >= data.max_count ==> a.locks[0] == MaxCountReached
  {
    var countLock := if data.owned_count >= data.max_count then [MaxCountReached] else [];
    var locks := countLock + RequirementLocks(reqs, OwnLevel(data));
    BuildingAvailability(building, locks == [], data.owned_count, data.max_count, locks, construction)
  }

  /** A building is buildable exactly when the count is below the maximum and every requirement is met. */
  lemma BuildableIff(building: Building, data: AvailabilityData, reqs: seq<BuildingRequirement>, construction: ConstructionInfo)
    requires AllWellFormed(reqs)
    ensures GenAvailData(building, data, reqs, construction).buildable <==>
      data.owned_count < data.max_count &&
      forall i :: 0 <= i < |reqs| ==> ParseReqLock(reqs[i], OwnLevel(data)).None?
  {
    NoRequirementLocksIff(reqs, OwnLevel(data));
  }

  /** After the count lock, the locks are those of the requirements, in requirement order. */
  lemma LocksInOrder(building: Building, data: AvailabilityData, reqs: seq<BuildingRequirement>, construction: ConstructionInfo)
    requires AllWellFormed(reqs)
    ensures var locks := GenAvailData(building, data, reqs, construction).locks;
      var skip := if data.owned_count >= data.max_count then 1 else 0;
      |locks| >= skip && locks[skip..] == RequirementLocks(reqs, OwnLevel(data))
  {
  }

  /** The availability test: no requirements and 0 of 5 owned is buildable with no locks. */
  lemma GenAvailDataBuildableExample(building: Building)
    ensures var a := GenAvailData(building, AvailabilityData(0, 5, None), [], NoConstructionInfo);
      a.buildable && a.locks == [] && a.current_count == 0 && a.max_count == 5 && a.building == building
  {
  }

  /** The availability test: 3 of 3 owned gives exactly the MaxCountReached lock. */
  lemma GenAvailDataMaxCountExample(building: Building)
    ensures var a := GenAvailData(building, AvailabilityData(3, 3, Some(3)), [], NoConstructionInfo);
      !a.buildable && a.locks == [MaxCountReached]
  {
  }

  function RequirementsOf(reqs_and_info: map<BuildingKey, (seq<BuildingRequirement>, ConstructionInfo)>, key: BuildingKey): seq<BuildingRequirement>
  {
    if key in reqs_and_info then reqs_and_info[key].0 else []
  }

  function InfoOf(reqs_and_info: map<BuildingKey, (seq<BuildingRequirement>, ConstructionInfo)>, key: BuildingKey): ConstructionInfo
  {
    if key in reqs_and_info then reqs_and_info[key].1 else NoConstructionInfo
  }

  predicate AllRequirementsWellFormed(reqs_and_info: map<BuildingKey, (seq<BuildingRequirement>, ConstructionInfo)>)
  {
    forall k :: k in reqs_and_info ==> AllWellFormed(reqs_and_info[k].0)
  }

  /**
   * `gen_avail_list` as written: one availability per key of `bld_data`,
   * computed inline. Every requirement is checked against the highest level
   * of the building being examined, not of the building the requirement
   * names. The source expects every key of `bld_data` to have a definition.
   */
  function GenAvailListAsWritten(
    blds: map<BuildingKey, Building>,
    bld_data: map<BuildingKey, AvailabilityData>,
    reqs_and_info: map<BuildingKey, (seq<BuildingRequirement>, ConstructionInfo)>)
    : (list: map<BuildingKey, BuildingAvailability>)
    requires bld_data.Keys <= blds.Keys
    requires AllRequirementsWellFormed(reqs_and_info)
    ensures list.Keys == bld_data.Keys
    ensures forall k :: k in list ==>
      list[k] == GenAvailData(blds[k], bld_data[k], RequirementsOf(reqs_and_info, k), InfoOf(reqs_and_info, k))
  {
    map k | k in bld_data ::
      var d := bld_data[k];
      var reqs := RequirementsOf(reqs_and_info, k);
      var locks := (if d.owned_count >= d.max_count then [MaxCountReached] else []) + RequirementLocks(reqs, OwnLevel(d));
      BuildingAvailability(blds[k], locks == [], d.owned_count, d.max_count, locks, InfoOf(reqs_and_info, k))
  }

  /**
   * Building 2 requires building 1 at level 2, and the player owns building
   * 1 at level 5 but no building 2: the list as written still locks building
   * 2, reporting the required building's level as 0.
   */
  lemma OwnLevelUsedForOtherBuilding(b1: Building, b2: Building)
    ensures var req := BuildingRequirement(Some(1), Some(2), None);
      var list := GenAvailListAsWritten(
        map[1 := b1, 2 := b2],
        map[1 := AvailabilityData(1, 1, Some(5)), 2 := AvailabilityData(0, 1, None)],
        map[2 := ([req], NoConstructionInfo)]);
      list[2].locks == [BuildingLevelRequired(1, 0, 2)] && !list[2].buildable
  {
    var req := BuildingRequirement(Some(1), Some(2), None);
    assert RequirementLocks([req], 0) == [BuildingLevelRequired(1, 0, 2)] by {
      assert [req][1..] == [];
    }
  }

  /** The highest level the player owns of building `key`, 0 when none (or no data). */
  function LevelOf(bld_data: map<BuildingKey, AvailabilityData>, key: BuildingKey): int
  {
    if key in bld_data then OwnLevel(bld_data[key]) else 0
  }

  /** The lock of one requirement, checked against the level of the building it names. */
  function RequirementLock(req: BuildingRequirement, bld_data: map<BuildingKey, AvailabilityData>): (l: Option<BuildingLock>)
    requires WellFormed(req)
    ensures req.required_building_id.Some? ==>
      var id := req.required_building_id.value;
      (l.Some? <==> LevelOf(bld_data, id) < req.required_building_level.value) &&
      (l.Some? ==> l.value == BuildingLevelRequired(id, LevelOf(bld_data, id), req.required_building_level.value))
    ensures req.required_building_id.None? ==> l == ParseReqLock(req, 0)
  {
    match req.required_building_id
    case Some(id) => ParseReqLock(req, LevelOf(bld_data, id))
    case None => ParseReqLock(req, 0)
  }

  /** The locks of the requirements, each against its own required building. */
  function RequiredBuildingLocks(reqs: seq<BuildingRequirement>, bld_data: map<BuildingKey, AvailabilityData>): (locks: seq<BuildingLock>)
    requires AllWellFormed(reqs)
    ensures MaxCountReached !in locks
  {
    if reqs == [] then []
    else
      var rest := RequiredBuildingLocks(reqs[1..], bld_data);
      match RequirementLock(reqs[0], bld_data)
      case Some(l) => [l] + rest
      case None => rest
  }

  /** A requirement's lock appears in the list exactly when it is unmet. */
  lemma {:induction false} RequiredBuildingLocksExact(reqs: seq<BuildingRequirement>, bld_data: map<BuildingKey, AvailabilityData>, l: BuildingLock)
    requires AllWellFormed(reqs)
    ensures l in RequiredBuildingLocks(reqs, bld_data) <==>
      exists i :: 0 <= i < |reqs| && RequirementLock(reqs[i], bld_data) == Some(l)
  {
    if reqs != [] {
      RequiredBuildingLocksExact(reqs[1..], bld_data, l);
      if exists i :: 0 <= i < |reqs| && RequirementLock(reqs[i], bld_data) == Some(l) {
        var i :| 0 <= i < |reqs| && RequirementLock(reqs[i], bld_data) == Some(l);
        if i > 0 {
          assert reqs[1..][i - 1] == reqs[i];
        }
      }
      if exists i :: 0 <= i < |reqs[1..]| && RequirementLock(reqs[1..][i], bld_data) == Some(l) {
        var i :| 0 <= i < |reqs[1..]| && RequirementLock(reqs[1..][i], bld_data) == Some(l);
        assert reqs[i + 1] == reqs[1..][i];
      }
    }
  }

  /**
   * `gen_avail_list` with each building requirement checked against the
   * highest level owned of the building it names.
   */
  function GenAvailList(
    blds: map<BuildingKey, Building>,
    bld_data: map<BuildingKey, AvailabilityData>,
    reqs_and_info: map<BuildingKey, (seq<BuildingRequirement>, ConstructionInfo)>)
    : (list: map<BuildingKey, BuildingAvailability>)
    requires bld_data.Keys <= blds.Keys
    requires AllRequirementsWellFormed(reqs_and_info)
    ensures list.Keys == bld_data.Keys
    ensures forall k :: k in list ==>
      list[k].building == blds[k] && list[k].construction == InfoOf(reqs_and_info, k) &&
      list[k].current_count == bld_data[k].owned_count && list[k].max_count == bld_data[k].max_count &&
      (list[k].buildable <==> list[k].locks == []) &&
      (MaxCountReached in list[k].locks <==> bld_data[k].owned_count >= bld_data[k].max_count)
  {
    map k | k in bld_data ::
      var d := bld_data[k];
      var locks := (if d.owned_count >= d.max_count then [MaxCountReached] else []) +
        RequiredBuildingLocks(RequirementsOf(reqs_and_info, k), bld_data);
      BuildingAvailability(blds[k], locks == [], d.owned_count, d.max_count, locks, InfoOf(reqs_and_info, k))
  }

  /**
   * In the corrected list a building requirement's lock is present exactly when the
   * player's highest level of the required building is below the required
   * level.
   */
  lemma GenAvailListLevelLock(
    blds: map<BuildingKey, Building>,
    bld_data: map<BuildingKey, AvailabilityData>,
    reqs_and_info: map<BuildingKey, (seq<BuildingRequirement>, ConstructionInfo)>,
    k: BuildingKey, req: BuildingRequirement)
    requires bld_data.Keys <= blds.Keys
    requires AllRequirementsWellFormed(reqs_and_info)
    requires k in bld_data && req in RequirementsOf(reqs_and_info, k) && req.required_building_id.Some?
    ensures var id := req.required_building_id.value;
      var lock := BuildingLevelRequired(id, LevelOf(bld_data, id), req.required_building_level.value);
      lock in GenAvailList(blds, bld_data, reqs_and_info)[k].locks <==> LevelOf(bld_data, id) < req.required_building_level.value
  {
    var reqs := RequirementsOf(reqs_and_info, k);
    var i :| 0 <= i < |reqs| && reqs[i] == req;
    var id := req.required_building_id.value;
    var lock := BuildingLevelRequired(id, LevelOf(bld_data, id), req.required_building_level.value);
    RequiredBuildingLocksExact(reqs, bld_data, lock);
    if lock in GenAvailList(blds, bld_data, reqs_and_info)[k].locks {
      assert lock in RequiredBuildingLocks(reqs, bld_data);
      var j :| 0 <= j < |reqs| && RequirementLock(reqs[j], bld_data) == Some(lock);
      assert reqs[j].required_building_id == Some(id);
    }
  }

  /** The same case as above: with the correction building 2 is buildable. */
  lemma RequiredLevelMetExample(b1: Building, b2: Building)
    ensures var req := BuildingRequirement(Some(1), Some(2), None);
      var list := GenAvailList(
        map[1 := b1, 2 := b2],
        map[1 := AvailabilityData(1, 1, Some(5)), 2 := AvailabilityData(0, 1, None)],
        map[2 := ([req], NoConstructionInfo)]);
      list[2].locks == [] && list[2].buildable
  {
    var req := BuildingRequirement(Some(1), Some(2), None);
    var data := map[1 := AvailabilityData(1, 1, Some(5)), 2 := AvailabilityData(0, 1, None)];
    assert RequiredBuildingLocks([req], data) == [] by {
      assert [req][1..] == [];
    }
  }
}
