/**
 * The player row and the changeset an update applies to it, with the player
 * table the update operations read and write.
 */
module Players {
  import opened Wrappers
  import opened FactionCodec
  import UserNames

  /** A player row; times are seconds. */
  datatype Player = Player(
    id: nat,
    name: string,
    pwd_hash: string,
    email: Option<string>,
    faction: FactionCode,
    created_at: int,
    updated_at: int)

  /** `UpdatePlayer`: the row to change and the fields to overwrite; None leaves a field alone. */
  datatype UpdatePlayer = UpdatePlayer(
    id: nat,
    name: Option<UserNames.UserName>,
    pwd_hash: Option<string>,
    email: Option<string>,
    faction: Option<FactionCode>)

  /** The changeset written over one row: each present field replaces the stored one. */
  function Apply(p: Player, cs: UpdatePlayer): (q: Player)
    ensures q.id == p.id && q.created_at == p.created_at && q.updated_at == p.updated_at
    ensures q.name == (if cs.name.Some? then UserNames.AsRef(cs.name.value) else p.name)
    ensures q.pwd_hash == cs.pwd_hash.UnwrapOr(p.pwd_hash)
    ensures q.email == (if cs.email.Some? then cs.email else p.email)
    ensures q.faction == cs.faction.UnwrapOr(p.faction)
  {
    p.(name := if cs.name.Some? then cs.name.value.text else p.name,
       pwd_hash := if cs.pwd_hash.Some? then cs.pwd_hash.value else p.pwd_hash,
       email := if cs.email.Some? then cs.email else p.email,
       faction := if cs.faction.Some? then cs.faction.value else p.faction)
  }

  /**
   * A changeset with no field present. The database layer refuses to build an
   * UPDATE from it ("There are no changes to save"), so the statement fails.
   */
  predicate NoChanges(cs: UpdatePlayer)
  {
    cs.name.None? && cs.pwd_hash.None? && cs.email.None? && cs.faction.None?
  }

  /**
   * Written over a row, a changeset with no field present would leave it as
   * it was; the table never applies one (see `PlayerTable.Update`).
   */
  lemma EmptyChangesetIsIdentity(p: Player, id: nat)
    ensures Apply(p, UpdatePlayer(id, None, None, None, None)) == p
  {
  }

  /** Applying the same changeset twice is the same as applying it once. */
  lemma ApplyIdempotent(p: Player, cs: UpdatePlayer)
    ensures Apply(Apply(p, cs), cs) == Apply(p, cs)
  {
  }

  /**
   * `players::update` as written: the UPDATE names the whole table and no
   * key, so the changeset lands on every row.
   */
  function UpdateAsWritten(rows: map<nat, Player>, cs: UpdatePlayer): (r: map<nat, Player>)
    ensures r.Keys == rows.Keys
    ensures forall k :: k in rows ==> r[k] == Apply(rows[k], cs)
  {
    map k | k in rows :: Apply(rows[k], cs)
  }

  /** The intended update: the changeset lands on the row it names and only there. */
  function UpdateKeyed(rows: map<nat, Player>, cs: UpdatePlayer): (r: map<nat, Player>)
    requires cs.id in rows
    ensures r.Keys == rows.Keys
    ensures r[cs.id] == Apply(rows[cs.id], cs)
    ensures forall k :: k in rows && k != cs.id ==> r[k] == rows[k]
  {
    rows[cs.id := Apply(rows[cs.id], cs)]
  }

  /** Player 1 joining the Orc faction also moves player 2 into it under the as-written update. */
  lemma UpdateReachesOtherPlayers()
    ensures var rows := map[1 := Player(1, "ann", "h1", None, Neutral, 0, 0),
                            2 := Player(2, "bob", "h2", None, Human, 0, 0)];
            var cs := UpdatePlayer(1, None, None, None, Some(Orc));
            UpdateAsWritten(rows, cs)[2].faction == Orc && rows[2].faction == Human
  {
  }

  /** Under the intended update, every player but the named one keeps their row. */
  lemma KeyedUpdateSparesOtherPlayers(rows: map<nat, Player>, cs: UpdatePlayer, k: nat)
    requires cs.id in rows && k in rows && k != cs.id
    ensures UpdateKeyed(rows, cs)[k] == rows[k]
    ensures UpdateKeyed(rows, cs)[cs.id] == UpdateAsWritten(rows, cs)[cs.id]
  {
  }

  class PlayerTable {
    var rows: map<nat, Player>

    ghost predicate Valid()
      reads this
    {
      forall k :: k in rows ==> rows[k].id == k
    }

    constructor(rows: map<nat, Player>)
      requires forall k :: k in rows ==> rows[k].id == k
      ensures Valid() && this.rows == rows
    {
      this.rows := rows;
    }

    /** `get_by_id`: the keyed row, or None when there is none. */
    method GetById(id: nat) returns (r: Option<Player>)
      ensures id in rows ==> r == Some(rows[id])
      ensures id !in rows ==> r == None
    {
      if id !in rows {
        return None;
      }
      r := Some(rows[id]);
    }

    /**
     * `update` with the corrected key: the changeset lands on the row its id
     * names (`UpdateKeyed`), where the statement as written reaches every
     * row (`UpdateAsWritten`). `fault` stands for a failed statement, and a
     * changeset with no field present fails too; a failure changes nothing.
     */
    method Update(cs: UpdatePlayer, fault: bool) returns (r: Option<Player>)
      requires Valid()
      modifies this
      ensures Valid()
      ensures (fault || NoChanges(cs) || cs.id !in old(rows)) ==> r == None && rows == old(rows)
      ensures !fault && !NoChanges(cs) && cs.id in old(rows) ==>
        rows == UpdateKeyed(old(rows), cs) && r == Some(rows[cs.id])
    {
      if fault || NoChanges(cs) || cs.id !in rows {
        return None;
      }
      rows := UpdateKeyed(rows, cs);
      r := Some(rows[cs.id]);
    }
  }
}
