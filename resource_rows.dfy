/**
 * The player resource table: lookups by player and the unchecked deduction
 * used when training starts.
 */
module ResourceRows {
  import opened Wrappers
  import opened DbErrors
  import opened ResourceOperations

  /** The row after taking `d` off each of the four stored amounts; caps and owner are kept. */
  function Deducted(r: PlayerResource, d: Amounts): (n: PlayerResource)
    ensures n.food == r.food - d.food && n.wood == r.wood - d.wood
    ensures n.stone == r.stone - d.stone && n.gold == r.gold - d.gold
    ensures n.(food := r.food, wood := r.wood, stone := r.stone, gold := r.gold) == r
  {
    r.(food := r.food - d.food, wood := r.wood - d.wood, stone := r.stone - d.stone, gold := r.gold - d.gold)
  }

  /** The row after adding `d` to each of the four stored amounts. */
  function Added(r: PlayerResource, d: Amounts): (n: PlayerResource)
    ensures n.food == r.food + d.food && n.wood == r.wood + d.wood
    ensures n.stone == r.stone + d.stone && n.gold == r.gold + d.gold
    ensures n.(food := r.food, wood := r.wood, stone := r.stone, gold := r.gold) == r
  {
    r.(food := r.food + d.food, wood := r.wood + d.wood, stone := r.stone + d.stone, gold := r.gold + d.gold)
  }

  /** Adding back what was deducted restores the row. */
  lemma DeductThenAdd(r: PlayerResource, d: Amounts)
    ensures Added(Deducted(r, d), d) == r
  {
  }

  /** A deduction larger than the stock is not refused: the amount goes below zero. */
  lemma DeductMayGoNegative()
    ensures Deducted(PlayerResource(1, 10, 0, 0, 0, 100, 100, 100, 100), Amounts(15, 0, 0, 0)).food == -5
  {
  }

  class ResourceTable {
    var rows: map<nat, PlayerResource>

    constructor(rows: map<nat, PlayerResource>)
      ensures this.rows == rows
    {
      this.rows := rows;
    }

    /** `get_by_player_id`: the player's row, or NotFound. */
    method GetByPlayerId(player: nat) returns (r: Result<PlayerResource, DbError>)
      ensures player in rows ==> r == Ok(rows[player])
      ensures player !in rows ==> r == Err(NotFound)
    {
      if player !in rows {
        return Err(NotFound);
      }
      r := Ok(rows[player]);
    }

    /**
     * `deduct`: subtracts the four amounts from the player's row without
     * checking balances and returns the new row; a player without a row gets
     * NotFound. No other row changes.
     */
    method Deduct(player: nat, amounts: Amounts) returns (r: Result<PlayerResource, DbError>)
      modifies this
      ensures player !in old(rows) ==> r == Err(NotFound) && rows == old(rows)
      ensures player in old(rows) ==> rows == old(rows)[player := Deducted(old(rows)[player], amounts)] && r == Ok(rows[player])
    {
      if player !in rows {
        return Err(NotFound);
      }
      rows := rows[player := Deducted(rows[player], amounts)];
      r := Ok(rows[player]);
    }

    /** `add`, the refund counterpart of `deduct`; a player without a row gets NotFound. */
    method Add(player: nat, amounts: Amounts) returns (r: Result<PlayerResource, DbError>)
      modifies this
      ensures player !in old(rows) ==> r == Err(NotFound) && rows == old(rows)
      ensures player in old(rows) ==> rows == old(rows)[player := Added(old(rows)[player], amounts)] && r == Ok(rows[player])
    {
      if player !in rows {
        return Err(NotFound);
      }
      rows := rows[player := Added(rows[player], amounts)];
      r := Ok(rows[player]);
    }
  }
}
