/**
 * Start-up hydration: the faction and building tables are checked against
 * the default lists and, when a table does not hold exactly the defaults,
 * every default is inserted into it in list order.
 */
module Hydrate {
  import opened Wrappers

  /** The default factions' ids. */
  const DefaultFactionIds: seq<string> := ["H", "O", "E"]

  /** The default buildings' names. */
  const DefaultBuildingNames: seq<string> := ["Castle", "Honor Hold", "Council Hall"]

  /** Why initialisation stopped: the insert of this default failed. */
  datatype InitError = CreateFailed(key: string)

  /**
   * A table holds the defaults: it is not empty, it has as many rows as
   * there are defaults, and every default is among them.
   */
  predicate Complete(stored: seq<string>, defaults: seq<string>)
  {
    |stored| != 0 && |stored| == |defaults| && forall i :: 0 <= i < |defaults| ==> defaults[i] in stored
  }

  /**
   * The shared body of `has_all_factions` and `has_all_buildings`: the
   * empty and wrong-size checks first, then each default in turn, returning
   * false at the first one missing.
   */
  method HasAll(stored: seq<string>, defaults: seq<string>) returns (b: bool)
    ensures b <==> Complete(stored, defaults)
    ensures |stored| == 0 || |stored| != |defaults| ==> !b
  {
    if |stored| == 0 || |stored| != |defaults| {
      return false;
    }
    var i := 0;
    while i < |defaults|
      invariant 0 <= i <= |defaults|
      invariant forall j :: 0 <= j < i ==> defaults[j] in stored
    {
      if defaults[i] !in stored {
        return false;
      }
      i := i + 1;
    }
    return true;
  }

  /** `has_all_factions`, by id; a failed read (None) counts as an empty table. */
  method HasAllFactions(stored: Option<seq<string>>) returns (b: bool)
    ensures b <==> Complete(stored.UnwrapOr([]), DefaultFactionIds)
    ensures stored.None? ==> !b
  {
    b := HasAll(stored.UnwrapOr([]), DefaultFactionIds);
  }

  /** `has_all_buildings`, by name; a failed read (None) counts as an empty table. */
  method HasAllBuildings(stored: Option<seq<string>>) returns (b: bool)
    ensures b <==> Complete(stored.UnwrapOr([]), DefaultBuildingNames)
    ensures stored.None? ==> !b
  {
    b := HasAll(stored.UnwrapOr([]), DefaultBuildingNames);
  }

  /**
   * Inserting `defaults` in order into `stored`, stopping at the first
   * insert that fails (`fails`): the rows afterwards and the default that
   * failed, if any.
   */
  function InsertDefaults(stored: seq<string>, defaults: seq<string>, fails: string -> bool): (r: (seq<string>, Option<string>))
    ensures |stored| <= |r.0| <= |stored| + |defaults|
    ensures r.0 == stored + defaults[..|r.0| - |stored|]
    ensures r.1.None? <==> forall i :: 0 <= i < |defaults| ==> !fails(defaults[i])
    ensures r.1.None? ==> r.0 == stored + defaults
    ensures r.1.Some? ==> |r.0| < |stored| + |defaults| && r.1.value == defaults[|r.0| - |stored|] && fails(r.1.value)
    ensures forall i :: 0 <= i < |r.0| - |stored| ==> !fails(defaults[i])
  {
    var k := FirstFailure(defaults, fails, 0);
    assert defaults[..|defaults|] == defaults;
    (stored + defaults[..k], if k < |defaults| then Some(defaults[k]) else None)
  }

  /** The position of the first default from `i` on whose insert fails, or the end of the list. */
  function FirstFailure(defaults: seq<string>, fails: string -> bool, i: nat): (k: nat)
    requires i <= |defaults|
    ensures i <= k <= |defaults|
    ensures forall j :: i <= j < k ==> !fails(defaults[j])
    ensures k < |defaults| ==> fails(defaults[k])
    decreases |defaults| - i
  {
    if i == |defaults| || fails(defaults[i]) then i else FirstFailure(defaults, fails, i + 1)
  }

  /** A table the initialisation writes; `create` appends a row unless the insert fails. */
  class Table {
    var rows: seq<string>

    constructor(rows: seq<string>)
      ensures this.rows == rows
    {
      this.rows := rows;
    }

    /** `create`: the row is appended, or, when the insert fails, nothing changes. */
    method Create(key: string, fails: string -> bool) returns (r: Result<string, InitError>)
      modifies this
      ensures fails(key) ==> r == Err(CreateFailed(key)) && rows == old(rows)
      ensures !fails(key) ==> r == Ok(key) && rows == old(rows) + [key]
    {
      if fails(key) {
        return Err(CreateFailed(key));
      }
      rows := rows + [key];
      r := Ok(key);
    }

    /** The insert loop of `initialize_database`: each default in order, stopping at the first failure (`?`). */
    method InsertAll(defaults: seq<string>, fails: string -> bool) returns (r: Result<(), InitError>)
      modifies this
      ensures var (rows', failed) := InsertDefaults(old(rows), defaults, fails);
        rows == rows' && (failed.None? ==> r == Ok(())) && (failed.Some? ==> r == Err(CreateFailed(failed.value)))
    {
      var i := 0;
      while i < |defaults|
        invariant 0 <= i <= |defaults|
        invariant rows == old(rows) + defaults[..i]
        invariant forall j :: 0 <= j < i ==> !fails(defaults[j])
      {
        var created := Create(defaults[i], fails);
        if created.Err? {
          assert FirstFailure(defaults, fails, 0) == i;
          return Err(created.error);
        }
        assert defaults[..i + 1] == defaults[..i] + [defaults[i]];
        i := i + 1;
      }
      assert FirstFailure(defaults, fails, 0) == i;
      r := Ok(());
    }
  }

  /** What initialisation does to one table: nothing when it is complete, otherwise every default inserted. */
  function InitTable(stored: seq<string>, readFault: bool, defaults: seq<string>, fails: string -> bool): (r: (seq<string>, Option<string>))
  {
    if !readFault && Complete(stored, defaults) then (stored, None)
    else InsertDefaults(stored, defaults, fails)
  }

  /**
   * `initialize_database`: factions first, then buildings; a failed insert
   * stops everything after it. `factionReadFault` and `buildingReadFault`
   * stand for a failed `get_all`, which counts as an empty table.
   */
  method InitializeDatabase(factions: Table, buildings: Table, factionReadFault: bool, buildingReadFault: bool,
                            fails: string -> bool) returns (r: Result<(), InitError>)
    requires factions != buildings
    modifies factions, buildings
    ensures var (f, ff) := InitTable(old(factions.rows), factionReadFault, DefaultFactionIds, fails);
      factions.rows == f &&
      (ff.Some? ==> r == Err(CreateFailed(ff.value)) && buildings.rows == old(buildings.rows)) &&
      (ff.None? ==>
        var (b, bf) := InitTable(old(buildings.rows), buildingReadFault, DefaultBuildingNames, fails);
        buildings.rows == b && (bf.None? ==> r == Ok(())) && (bf.Some? ==> r == Err(CreateFailed(bf.value))))
  {
    var hasFactions := HasAllFactions(if factionReadFault then None else Some(factions.rows));
    if !hasFactions {
      var inserted := factions.InsertAll(DefaultFactionIds, fails);
      if inserted.Err? {
        return Err(inserted.error);
      }
    }
    var hasBuildings := HasAllBuildings(if buildingReadFault then None else Some(buildings.rows));
    if !hasBuildings {
      var inserted := buildings.InsertAll(DefaultBuildingNames, fails);
      if inserted.Err? {
        return Err(inserted.error);
      }
    }
    r := Ok(());
  }

  /** The default lists name each entry once. */
  lemma DefaultsDistinct()
    ensures forall i, j :: 0 <= i < j < |DefaultFactionIds| ==> DefaultFactionIds[i] != DefaultFactionIds[j]
    ensures forall i, j :: 0 <= i < j < |DefaultBuildingNames| ==> DefaultBuildingNames[i] != DefaultBuildingNames[j]
  {
  }

  /** Initialising an empty table, with every insert succeeding, leaves it complete. */
  lemma {:induction false} EmptyTableBecomesComplete(readFault: bool, defaults: seq<string>, fails: string -> bool)
    requires |defaults| != 0 && forall i :: 0 <= i < |defaults| ==> !fails(defaults[i])
    ensures InitTable([], readFault, defaults, fails) == (defaults, None)
    ensures Complete(defaults, defaults)
  {
    var r := InsertDefaults([], defaults, fails);
    assert r.0 == [] + defaults == defaults;
    assert forall i :: 0 <= i < |defaults| ==> defaults[i] in defaults;
  }

  /** A complete table is left alone: a second initialisation inserts nothing. */
  lemma CompleteTableUntouched(stored: seq<string>, defaults: seq<string>, fails: string -> bool)
    requires Complete(stored, defaults)
    ensures InitTable(stored, false, defaults, fails) == (stored, None)
  {
  }

  /**
   * An incomplete table has every default inserted after its rows, so a
   * table holding some but not all defaults ends with duplicates unless an
   * insert is refused.
   */
  lemma IncompleteTableGetsAllDefaults(stored: seq<string>, readFault: bool, defaults: seq<string>, fails: string -> bool)
    requires readFault || !Complete(stored, defaults)
    requires forall i :: 0 <= i < |defaults| ==> !fails(defaults[i])
    ensures InitTable(stored, readFault, defaults, fails) == (stored + defaults, None)
  {
  }

  /** Run twice on empty tables: the first run fills both, the second changes nothing. */
  method InitializeTwice() returns (f1: seq<string>, b1: seq<string>, f2: seq<string>, b2: seq<string>)
    ensures f1 == DefaultFactionIds && b1 == DefaultBuildingNames
    ensures f2 == f1 && b2 == b1
  {
    var never := (key: string) => false;
    var factions := new Table([]);
    var buildings := new Table([]);
    EmptyTableBecomesComplete(false, DefaultFactionIds, never);
    EmptyTableBecomesComplete(false, DefaultBuildingNames, never);
    var _ := InitializeDatabase(factions, buildings, false, false, never);
    f1, b1 := factions.rows, buildings.rows;
    CompleteTableUntouched(f1, DefaultFactionIds, never);
    CompleteTableUntouched(b1, DefaultBuildingNames, never);
    var _ := InitializeDatabase(factions, buildings, false, false, never);
    f2, b2 := factions.rows, buildings.rows;
  }
}
