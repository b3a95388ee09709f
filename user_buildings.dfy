/**
 * The older building table, keyed rows of (user, building type, level,
 * upgrade time), with the repository operations the older building service
 * relies on.
 */
module UserBuildings {
  import opened Wrappers
  import opened DbErrors
  import opened BuildingDomain

  /** A row; `upgrade_time` is the time a running upgrade finishes. */
  datatype UserBuilding = UserBuilding(
    id: nat,
    user_id: nat,
    building_id: BuildingKey,
    level: int,
    upgrade_time: Option<int>)

  /** The keys of the user's rows of building type `building`. */
  function OwnedBy(rows: map<nat, UserBuilding>, user: nat, building: BuildingKey): (ids: set<nat>)
    ensures forall k :: k in ids <==> k in rows && rows[k].user_id == user && rows[k].building_id == building
  {
    set k | k in rows && rows[k].user_id == user && rows[k].building_id == building
  }

  /** Adding a row under a fresh key adds it to its owner's count of its type and to no other count. */
  lemma CreateCountsOne(rows: map<nat, UserBuilding>, b: UserBuilding, user: nat, building: BuildingKey)
    requires b.id !in rows
    ensures |OwnedBy(rows[b.id := b], user, building)| ==
      if b.user_id == user && b.building_id == building then |OwnedBy(rows, user, building)| + 1 else |OwnedBy(rows, user, building)|
  {
    if b.user_id == user && b.building_id == building {
      assert OwnedBy(rows[b.id := b], user, building) == OwnedBy(rows, user, building) + {b.id};
    } else {
      assert OwnedBy(rows[b.id := b], user, building) == OwnedBy(rows, user, building);
    }
  }

  class UserBuildingTable {
    var rows: map<nat, UserBuilding>
    var nextId: nat

    ghost predicate Valid()
      reads this
    {
      forall k :: k in rows ==> k < nextId && rows[k].id == k
    }

    constructor()
      ensures Valid() && rows == map[]
    {
      rows := map[];
      nextId := 0;
    }

    /** `get_by_id`. */
    method GetById(id: nat) returns (r: Result<UserBuilding, DbError>)
      ensures id in rows ==> r == Ok(rows[id])
      ensures id !in rows ==> r == Err(NotFound)
    {
      if id !in rows {
        return Err(NotFound);
      }
      r := Ok(rows[id]);
    }

    /** `create`: inserts exactly one row, under a fresh key, and returns it. */
    method Create(user: nat, building: BuildingKey, level: int, upgrade_time: Option<int>) returns (b: UserBuilding)
      requires Valid()
      modifies this
      ensures Valid()
      ensures b.id !in old(rows) && rows == old(rows)[b.id := b]
      ensures b == UserBuilding(b.id, user, building, level, upgrade_time)
    {
      b := UserBuilding(nextId, user, building, level, upgrade_time);
      rows := rows[nextId := b];
      nextId := nextId + 1;
    }

    /** `delete`: removes the keyed row and returns how many rows went (0 or 1). */
    method Delete(id: nat) returns (count: nat)
      requires Valid()
      modifies this
      ensures Valid()
      ensures rows == old(rows) - {id}
      ensures count == (if id in old(rows) then 1 else 0)
    {
      count := if id in rows then 1 else 0;
      rows := rows - {id};
    }

    /**
     * `can_construct`: whether the user owns fewer of the building type than
     * its maximum count; an unknown building type is NotFound.
     */
    method CanConstruct(buildings: map<BuildingKey, Building>, user: nat, building: BuildingKey) returns (r: Result<bool, DbError>)
      ensures building !in buildings ==> r == Err(NotFound)
      ensures building in buildings ==> r.Ok? && (r.value <==> |OwnedBy(rows, user, building)| < buildings[building].max_count)
    {
      if building !in buildings {
        return Err(NotFound);
      }
      var count := |OwnedBy(rows, user, building)|;
      r := Ok(count < buildings[building].max_count);
    }

    /** `get_upgrade_tuple`: the row and its building type's maximum level, None when the type is unknown. */
    method GetUpgradeTuple(buildings: map<BuildingKey, Building>, id: nat) returns (r: Result<(UserBuilding, Option<int>), DbError>)
      ensures id !in rows ==> r == Err(NotFound)
      ensures id in rows ==> r.Ok? && r.value.0 == rows[id]
      ensures id in rows && rows[id].building_id in buildings ==> r.value.1 == Some(buildings[rows[id].building_id].max_level)
      ensures id in rows && rows[id].building_id !in buildings ==> r.value.1 == None
    {
      if id !in rows {
        return Err(NotFound);
      }
      var b := rows[id];
      var max := if b.building_id in buildings then Some(buildings[b.building_id].max_level) else None;
      r := Ok((b, max));
    }

    /** `set_upgrade_time`: sets or clears the upgrade time of one row and changes nothing else. */
    method SetUpgradeTime(id: nat, time: Option<int>) returns (r: Result<UserBuilding, DbError>)
      requires Valid()
      modifies this
      ensures Valid()
      ensures id !in old(rows) ==> r == Err(NotFound) && rows == old(rows)
      ensures id in old(rows) ==> rows == old(rows)[id := old(rows)[id].(upgrade_time := time)] && r == Ok(rows[id])
    {
      if id !in rows {
        return Err(NotFound);
      }
      rows := rows[id := rows[id].(upgrade_time := time)];
      r := Ok(rows[id]);
    }

    /** `inc_level`: one level up and the upgrade time cleared. */
    method IncLevel(id: nat) returns (r: Result<UserBuilding, DbError>)
      requires Valid()
      modifies this
      ensures Valid()
      ensures id !in old(rows) ==> r == Err(NotFound) && rows == old(rows)
      ensures id in old(rows) ==>
        rows == old(rows)[id := old(rows)[id].(level := old(rows)[id].level + 1, upgrade_time := None)] && r == Ok(rows[id])
    {
      if id !in rows {
        return Err(NotFound);
      }
      rows := rows[id := rows[id].(level := rows[id].level + 1, upgrade_time := None)];
      r := Ok(rows[id]);
    }
  }
}
