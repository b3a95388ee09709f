/**
 * The player unit table: at most one row per (player, unit) pair holding how
 * many of that unit the player owns.
 */
module PlayerUnits {
  import opened Wrappers
  import opened DbErrors

  /** The key of a row: the owner and the unit. */
  datatype Owned = Owned(player_id: nat, unit_id: nat)

  /** How many of `unit` the player owns; no row counts as 0. */
  function UnitCount(rows: map<Owned, int>, player: nat, unit: nat): int
  {
    if Owned(player, unit) in rows then rows[Owned(player, unit)] else 0
  }

  /** The table after the insert-or-add upsert of `quantity` units. */
  function Upserted(rows: map<Owned, int>, player: nat, unit: nat, quantity: int): map<Owned, int>
  {
    var k := Owned(player, unit);
    rows[k := if k in rows then rows[k] + quantity else quantity]
  }

  /** An upsert raises the pair's count by exactly `quantity` and leaves every other pair's count alone. */
  lemma UpsertAddsExactly(rows: map<Owned, int>, player: nat, unit: nat, quantity: int, p: nat, u: nat)
    ensures UnitCount(Upserted(rows, player, unit, quantity), player, unit) == UnitCount(rows, player, unit) + quantity
    ensures (p, u) != (player, unit) ==> UnitCount(Upserted(rows, player, unit, quantity), p, u) == UnitCount(rows, p, u)
  {
  }

  /** Two upserts for the same pair add up. */
  lemma UpsertsAccumulate(rows: map<Owned, int>, player: nat, unit: nat, a: int, b: int)
    ensures Upserted(Upserted(rows, player, unit, a), player, unit, b) == Upserted(rows, player, unit, a + b)
  {
  }

  class PlayerUnitTable {
    var rows: map<Owned, int>

    constructor(rows: map<Owned, int>)
      ensures this.rows == rows
    {
      this.rows := rows;
    }

    /** `get_player_unit_count`: the stored quantity, or 0 when the player has no row for the unit. */
    method GetPlayerUnitCount(player: nat, unit: nat) returns (n: int)
      ensures Owned(player, unit) in rows ==> n == rows[Owned(player, unit)]
      ensures Owned(player, unit) !in rows ==> n == 0
    {
      var k := Owned(player, unit);
      n := if k in rows then rows[k] else 0;
    }

    /** `update_quantity`: adds a possibly negative delta to an existing row; no row is NotFound. */
    method UpdateQuantity(player: nat, unit: nat, delta: int) returns (r: Result<int, DbError>)
      modifies this
      ensures Owned(player, unit) !in old(rows) ==> r == Err(NotFound) && rows == old(rows)
      ensures Owned(player, unit) in old(rows) ==>
        rows == old(rows)[Owned(player, unit) := old(rows)[Owned(player, unit)] + delta] && r == Ok(rows[Owned(player, unit)])
    {
      var k := Owned(player, unit);
      if k !in rows {
        return Err(NotFound);
      }
      rows := rows[k := rows[k] + delta];
      r := Ok(rows[k]);
    }

    /** `create_or_update`: inserts the pair with `quantity`, or adds `quantity` to the existing row. */
    method CreateOrUpdate(player: nat, unit: nat, quantity: int) returns (n: int)
      modifies this
      ensures rows == Upserted(old(rows), player, unit, quantity)
      ensures n == UnitCount(rows, player, unit) == UnitCount(old(rows), player, unit) + quantity
    {
      var k := Owned(player, unit);
      if k in rows {
        rows := rows[k := rows[k] + quantity];
      } else {
        rows := rows[k := quantity];
      }
      n := rows[k];
    }

    /** `add_units`: the upsert with the given quantity. */
    method AddUnits(player: nat, unit: nat, quantity: int) returns (n: int)
      modifies this
      ensures rows == Upserted(old(rows), player, unit, quantity)
      ensures n == UnitCount(rows, player, unit) == UnitCount(old(rows), player, unit) + quantity
    {
      n := CreateOrUpdate(player, unit, quantity);
    }
  }
}
