/**
 * The player building table: one row per building a player owns, with its
 * level and the time its running upgrade finishes.
 */
module PlayerBuildings {
  import opened Wrappers
  import opened DbErrors
  import opened FactionCodec
  import opened BuildingDomain
  import opened RequirementOperations

  datatype PlayerBuilding = PlayerBuilding(
    id: nat,
    player_id: nat,
    building_id: BuildingKey,
    level: int,
    upgrade_finishes_at: Option<int>)

  /** The keys of the player's rows of building type `building`. */
  function OwnedOf(rows: map<nat, PlayerBuilding>, player: nat, building: BuildingKey): (ids: set<nat>)
    ensures forall k :: k in ids <==> k in rows && rows[k].player_id == player && rows[k].building_id == building
  {
    set k | k in rows && rows[k].player_id == player && rows[k].building_id == building
  }

  /** `l` is the highest level among the rows `ids`, None exactly when there are none. */
  ghost predicate IsMaxLevel(rows: map<nat, PlayerBuilding>, ids: set<nat>, l: Option<int>)
    requires ids <= rows.Keys
  {
    (l.None? <==> ids == {}) &&
    (l.Some? ==> (exists k :: k in ids && rows[k].level == l.value) && forall k :: k in ids ==> rows[k].level <= l.value)
  }

  /** The highest level among the rows `ids`, None for no rows. */
  ghost function HighestLevel(rows: map<nat, PlayerBuilding>, ids: set<nat>): (l: Option<int>)
    requires ids <= rows.Keys
    ensures IsMaxLevel(rows, ids, l)
    decreases ids
  {
    if ids == {} then None
    else
      var k :| k in ids;
      var rest := HighestLevel(rows, ids - {k});
      if rest.None? || rows[k].level > rest.value then Some(rows[k].level) else rest
  }

  /** At most one value is the highest level of a set of rows. */
  lemma MaxLevelUnique(rows: map<nat, PlayerBuilding>, ids: set<nat>, l1: Option<int>, l2: Option<int>)
    requires ids <= rows.Keys
    requires IsMaxLevel(rows, ids, l1) && IsMaxLevel(rows, ids, l2)
    ensures l1 == l2
  {
  }

  /** What `get_player_bld_counts_levels` reports for one building type. */
  ghost function SummaryOf(rows: map<nat, PlayerBuilding>, buildings: map<BuildingKey, Building>, player: nat, k: BuildingKey): (d: AvailabilityData)
    requires k in buildings
    ensures d.owned_count == |OwnedOf(rows, player, k)| && d.max_count == buildings[k].max_count
    ensures d.owned_count == 0 <==> d.max_level == None
  {
    AvailabilityData(|OwnedOf(rows, player, k)|, buildings[k].max_count, HighestLevel(rows, OwnedOf(rows, player, k)))
  }

  /** The building types offered to a player of `faction`: its own and the neutral ones. */
  function AvailableTo(buildings: map<BuildingKey, Building>, faction: FactionCode): (keys: set<BuildingKey>)
    ensures forall k :: k in keys <==> k in buildings && (buildings[k].faction == faction || buildings[k].faction == Neutral)
  {
    set k | k in buildings && (buildings[k].faction == faction || buildings[k].faction == Neutral)
  }

  /** The row after `inc_level`: one level up, no upgrade running. */
  function LevelledUp(b: PlayerBuilding): (n: PlayerBuilding)
    ensures n.level == b.level + 1 && n.upgrade_finishes_at == None
    ensures n.(level := b.level, upgrade_finishes_at := b.upgrade_finishes_at) == b
  {
    b.(level := b.level + 1, upgrade_finishes_at := None)
  }

  class PlayerBuildingTable {
    var rows: map<nat, PlayerBuilding>
    var nextId: nat

    ghost predicate Valid()
      reads this
    {
      forall k :: k in rows ==> k < nextId && rows[k].id == k
    }

    constructor()
      ensures Valid() && rows == map[]
    {
      rows := map[];
      nextId := 0;
    }

    /** `get_by_id`. */
    method GetById(id: nat) returns (r: Result<PlayerBuilding, DbError>)
      ensures id in rows ==> r == Ok(rows[id])
      ensures id !in rows ==> r == Err(NotFound)
    {
      if id !in rows {
        return Err(NotFound);
      }
      r := Ok(rows[id]);
    }

    /** `construct` (and `create`): adds exactly one row, under a fresh key. */
    method Construct(player: nat, building: BuildingKey, level: int, eta: Option<int>) returns (b: PlayerBuilding)
      requires Valid()
      modifies this
      ensures Valid()
      ensures b.id !in old(rows) && rows == old(rows)[b.id := b]
      ensures b == PlayerBuilding(b.id, player, building, level, eta)
    {
      b := PlayerBuilding(nextId, player, building, level, eta);
      rows := rows[nextId := b];
      nextId := nextId + 1;
    }

    /** `delete`: removes the keyed row and returns how many rows went (0 or 1). */
    method Delete(id: nat) returns (count: nat)
      requires Valid()
      modifies this
      ensures Valid()
      ensures rows == old(rows) - {id}
      ensures count == (if id in old(rows) then 1 else 0)
    {
      count := if id in rows then 1 else 0;
      rows := rows - {id};
    }

    /**
     * `can_construct`: whether the player owns fewer of the building type
     * than its maximum; an unknown building type is NotFound.
     */
    method CanConstruct(buildings: map<BuildingKey, Building>, player: nat, building: BuildingKey) returns (r: Result<bool, DbError>)
      ensures building !in buildings ==> r == Err(NotFound)
      ensures building in buildings ==> r.Ok? && (r.value <==> |OwnedOf(rows, player, building)| < buildings[building].max_count)
    {
      if building !in buildings {
        return Err(NotFound);
      }
      var count := |OwnedOf(rows, player, building)|;
      r := Ok(count < buildings[building].max_count);
    }

    /** `get_upgrade_tuple`: the row and its building type's maximum level, None when the type is unknown. */
    method GetUpgradeTuple(buildings: map<BuildingKey, Building>, id: nat) returns (r: Result<(PlayerBuilding, Option<int>), DbError>)
      ensures id !in rows ==> r == Err(NotFound)
      ensures id in rows ==> r.Ok? && r.value.0 == rows[id]
      ensures id in rows && rows[id].building_id in buildings ==> r.value.1 == Some(buildings[rows[id].building_id].max_level)
      ensures id in rows && rows[id].building_id !in buildings ==> r.value.1 == None
    {
      if id !in rows {
        return Err(NotFound);
      }
      var b := rows[id];
      var max := if b.building_id in buildings then Some(buildings[b.building_id].max_level) else None;
      r := Ok((b, max));
    }

    /** `set_upgrade_eta`: sets or clears the ETA of one row and changes nothing else. */
    method SetUpgradeEta(id: nat, eta: Option<int>) returns (r: Result<PlayerBuilding, DbError>)
      requires Valid()
      modifies this
      ensures Valid()
      ensures id !in old(rows) ==> r == Err(NotFound) && rows == old(rows)
      ensures id in old(rows) ==> rows == old(rows)[id := old(rows)[id].(upgrade_finishes_at := eta)] && r == Ok(rows[id])
    {
      if id !in rows {
        return Err(NotFound);
      }
      rows := rows[id := rows[id].(upgrade_finishes_at := eta)];
      r := Ok(rows[id]);
    }

    /** `inc_level`: one level up and the ETA cleared. */
    method IncLevel(id: nat) returns (r: Result<PlayerBuilding, DbError>)
      requires Valid()
      modifies this
      ensures Valid()
      ensures id !in old(rows) ==> r == Err(NotFound) && rows == old(rows)
      ensures id in old(rows) ==> rows == old(rows)[id := LevelledUp(old(rows)[id])] && r == Ok(rows[id])
    {
      if id !in rows {
        return Err(NotFound);
      }
      rows := rows[id := LevelledUp(rows[id])];
      r := Ok(rows[id]);
    }

    /** The highest level among the rows `ids`. */
    method MaxLevel(ids: set<nat>) returns (l: Option<int>)
      requires ids <= rows.Keys
      ensures IsMaxLevel(rows, ids, l)
    {
      var table := rows;
      l := None;
      ghost var best: nat := 0;
      var remaining := ids;
      while remaining != {}
        invariant remaining <= ids
        invariant l.None? ==> remaining == ids
        invariant l.Some? ==> best in ids && best !in remaining && table[best].level == l.value
        invariant l.Some? ==> forall k :: k in ids && k !in remaining ==> table[k].level <= l.value
        decreases |remaining|
      {
        var k :| k in remaining;
        if l.None? || table[k].level > l.value {
          l := Some(table[k].level);
          best := k;
        }
        remaining := remaining - {k};
      }
    }

    /** One entry of the summary: the player's count of type `k`, its maximum count and the highest level owned. */
    method Summary(buildings: map<BuildingKey, Building>, player: nat, k: BuildingKey) returns (entry: AvailabilityData)
      requires k in buildings
      ensures entry == SummaryOf(rows, buildings, player, k)
    {
      var owned := OwnedOf(rows, player, k);
      var level := MaxLevel(owned);
      MaxLevelUnique(rows, owned, level, HighestLevel(rows, owned));
      entry := AvailabilityData(|owned|, buildings[k].max_count, level);
    }

    /**
     * `get_player_bld_counts_levels`: for every building type of the
     * player's faction or neutral, the number the player owns, the type's
     * maximum count, and the highest level owned (None when none is owned).
     */
    method GetPlayerBldCountsLevels(buildings: map<BuildingKey, Building>, player: nat, faction: FactionCode)
      returns (blds: map<BuildingKey, Building>, data: map<BuildingKey, AvailabilityData>)
      ensures blds.Keys == AvailableTo(buildings, faction) && data.Keys == AvailableTo(buildings, faction)
      ensures forall k :: k in blds ==> blds[k] == buildings[k]
      ensures Summarised(rows, buildings, player, data)
    {
      blds, data := map[], map[];
      var keys := AvailableTo(buildings, faction);
      var remaining := keys;
      while remaining != {}
        invariant remaining <= keys && keys <= buildings.Keys
        invariant forall k :: k in blds <==> k in keys && k !in remaining
        invariant forall k :: k in data <==> k in keys && k !in remaining
        invariant forall k :: k in blds ==> blds[k] == buildings[k]
        invariant Summarised(rows, buildings, player, data)
        decreases |remaining|
      {
        var k :| k in remaining;
        var entry := Summary(buildings, player, k);

        data := data[k := entry];
        blds := blds[k := buildings[k]];
        remaining := remaining - {k};
      }
    }
  }

  /** Each entry of `data` summarises the player's rows of that building type. */
  ghost predicate Summarised(rows: map<nat, PlayerBuilding>, buildings: map<BuildingKey, Building>, player: nat, data: map<BuildingKey, AvailabilityData>)
  {
    forall k :: k in data ==> k in buildings && data[k] == SummaryOf(rows, buildings, player, k)
  }

  /** A building type the player owns none of is reported with count 0 and no level. */
  lemma {:induction false} UnbuiltHasNoLevel(rows: map<nat, PlayerBuilding>, buildings: map<BuildingKey, Building>, player: nat, k: BuildingKey)
    requires k in buildings
    requires forall id :: id in rows ==> rows[id].player_id != player || rows[id].building_id != k
    ensures SummaryOf(rows, buildings, player, k) == AvailabilityData(0, buildings[k].max_count, None)
  {
    assert OwnedOf(rows, player, k) == {};
  }

  /** Construction adds one to the owner's count of that type and leaves every other count alone. */
  lemma ConstructCountsOne(rows: map<nat, PlayerBuilding>, b: PlayerBuilding, player: nat, k: BuildingKey)
    requires b.id !in rows
    ensures OwnedOf(rows[b.id := b], player, k) ==
      if b.player_id == player && b.building_id == k then OwnedOf(rows, player, k) + {b.id} else OwnedOf(rows, player, k)
  {
  }
}
