/**
 * The units API's own computations: per-unit cost folding, affordability,
 * the largest affordable batch, the cost of a batch, and the training queue
 * view with its time remaining, ordered by start time.
 */
module UnitHandlers {
  import opened ResourceOperations
  import opened TrainingQueue
  import opened TrainingOperations

  /** `i64::MAX`, the bound when no resource has a positive cost. */
  const I64Max: int := 0x7FFF_FFFF_FFFF_FFFF

  /**
   * The per-unit cost display: each known resource takes the amount of its
   * last cost row; unknown names are ignored.
   */
  method FoldUnitCost(costs: seq<UnitCost>) returns (dto: Amounts)
    ensures dto == TotalCost(costs, 1)
  {
    dto := Amounts(0, 0, 0, 0);
    var i := 0;
    while i < |costs|
      invariant 0 <= i <= |costs|
      invariant dto == TotalCost(costs[..i], 1)
    {
      assert costs[..i + 1][..i] == costs[..i];
      match costs[i].resource {
        case "food" => dto := dto.(food := costs[i].amount);
        case "wood" => dto := dto.(wood := costs[i].amount);
        case "stone" => dto := dto.(stone := costs[i].amount);
        case "gold" => dto := dto.(gold := costs[i].amount);
        case _ =>
      }
      i := i + 1;
    }
    assert costs[..i] == costs;
  }

  /** A batch costs its per-unit cost times the quantity, resource by resource. */
  lemma BatchCostScales(costs: seq<UnitCost>, quantity: int)
    ensures TotalCost(costs, quantity) == Amounts(
      TotalCost(costs, 1).food * quantity, TotalCost(costs, 1).wood * quantity,
      TotalCost(costs, 1).stone * quantity, TotalCost(costs, 1).gold * quantity)
  {
  }

  /** `resources_spent` in the train response: amount × quantity per resource, last row winning. */
  method ResourcesSpent(costs: seq<UnitCost>, quantity: int) returns (spent: Amounts)
    ensures spent.food == LastAmount(costs, "food") * quantity
    ensures spent.wood == LastAmount(costs, "wood") * quantity
    ensures spent.stone == LastAmount(costs, "stone") * quantity
    ensures spent.gold == LastAmount(costs, "gold") * quantity
  {
    spent := GetTotalCost(costs, quantity);
  }

  /** `can_afford`: every stored amount covers one unit's cost. */
  predicate CanAfford(res: PlayerResource, cost: Amounts)
  {
    res.food >= cost.food && res.wood >= cost.wood && res.stone >= cost.stone && res.gold >= cost.gold
  }

  /** Whether `q` units fit in the stock, counting only the resources with a positive cost. */
  predicate Affords(res: PlayerResource, cost: Amounts, q: int)
  {
    (cost.food > 0 ==> q * cost.food <= res.food) &&
    (cost.wood > 0 ==> q * cost.wood <= res.wood) &&
    (cost.stone > 0 ==> q * cost.stone <= res.stone) &&
    (cost.gold > 0 ==> q * cost.gold <= res.gold)
  }

  /** `c` times something no larger stays no larger. */
  lemma ScaleMonotone(p: int, q: int, c: int)
    requires p <= q && c > 0
    ensures p * c <= q * c
  {
  }

  /**
   * One step of the running minimum: `min(m, amount / c)`, which still fits,
   * and when it drops below `m` it is the largest `q` with `q * c <= amount`.
   */
  function Narrow(m: int, amount: int, c: int): (n: int)
    requires 1 <= m && 0 < c <= amount
    ensures 1 <= n <= m && n * c <= amount
    ensures n < m ==> amount < (n + 1) * c
  {
    var q := amount / c;
    assert q * c <= amount < (q + 1) * c;
    assert 1 <= q by {
      if q < 1 { ScaleMonotone(q + 1, 1, c); }
    }
    if q < m then q
    else
      ScaleMonotone(m, q, c);
      m
  }

  /**
   * `max_affordable`: 0 when one unit is not affordable; otherwise the least
   * quotient stock / cost over the resources with a positive cost, starting
   * from `i64::MAX`.
   */
  method MaxAffordable(res: PlayerResource, cost: Amounts) returns (m: int)
    ensures !CanAfford(res, cost) ==> m == 0
    ensures CanAfford(res, cost) ==> 1 <= m <= I64Max && Affords(res, cost, m)
    ensures CanAfford(res, cost) && m < I64Max ==> !Affords(res, cost, m + 1)
    ensures CanAfford(res, cost) && !(cost.food > 0 || cost.wood > 0 || cost.stone > 0 || cost.gold > 0) ==> m == I64Max
  {
    if !CanAfford(res, cost) {
      return 0;
    }
    m := I64Max;
    if cost.food > 0 {
      m := Narrow(m, res.food, cost.food);
    }
    var m1 := m;
    if cost.wood > 0 {
      m := Narrow(m, res.wood, cost.wood);
    }
    var m2 := m;
    if cost.stone > 0 {
      m := Narrow(m, res.stone, cost.stone);
    }
    var m3 := m;
    if cost.gold > 0 {
      m := Narrow(m, res.gold, cost.gold);
    }
    if cost.food > 0 { ScaleMonotone(m, m1, cost.food); }
    if cost.wood > 0 { ScaleMonotone(m, m2, cost.wood); }
    if cost.stone > 0 { ScaleMonotone(m, m3, cost.stone); }
  }

  /** Fitting is monotone: fewer units fit whenever more do. */
  lemma AffordsDownward(res: PlayerResource, cost: Amounts, p: int, q: int)
    requires 0 <= p <= q && Affords(res, cost, q)
    ensures Affords(res, cost, p)
  {
    assert cost.food > 0 ==> p * cost.food <= q * cost.food;
    assert cost.wood > 0 ==> p * cost.wood <= q * cost.wood;
    assert cost.stone > 0 ==> p * cost.stone <= q * cost.stone;
    assert cost.gold > 0 ==> p * cost.gold <= q * cost.gold;
  }

  /**
   * `seconds_remaining`: the training time left at `now`, with the elapsed
   * time clamped at zero and the result clamped at zero.
   */
  function SecondsRemaining(now: int, started_at: int, total: int): (r: int)
    ensures r >= 0
    ensures now <= started_at ==> r == (if total > 0 then total else 0)
    ensures now >= started_at && now - started_at <= total ==> r + (now - started_at) == total
    ensures now - started_at >= total ==> r == 0
  {
    var elapsed := if now - started_at > 0 then now - started_at else 0;
    if total - elapsed > 0 then total - elapsed else 0
  }

  /** Time remaining never goes up as time passes. */
  lemma RemainingNeverGrows(now1: int, now2: int, started_at: int, total: int)
    requires now1 <= now2
    ensures SecondsRemaining(now2, started_at, total) <= SecondsRemaining(now1, started_at, total)
  {
  }

  /** One row of the queue view. */
  datatype QueueRow = QueueRow(entry: TrainingQueueEntry, estimated_completion: int, seconds_remaining: int)

  /** The row of an entry whose training takes `total` seconds, viewed at `now`. */
  function RowOf(e: TrainingQueueEntry, total: int, now: int): QueueRow
  {
    QueueRow(e, e.started_at + total, SecondsRemaining(now, e.started_at, total))
  }

  /**
   * The rows of the entries whose unit is known, in the entries' order; an
   * entry whose unit is missing is skipped. `total` gives each entry's
   * training time.
   */
  function Rows(entries: seq<TrainingQueueEntry>, units: set<nat>, total: TrainingQueueEntry -> int, now: int): (rows: seq<QueueRow>)
    ensures |rows| <= |entries|
    ensures forall r :: r in rows ==> r.entry in entries && r.entry.unit_id in units
  {
    if entries == [] then []
    else
      var init := Rows(entries[..|entries| - 1], units, total, now);
      var e := entries[|entries| - 1];
      if e.unit_id in units then init + [RowOf(e, total(e), now)] else init
  }

  /** Every entry whose unit is known gets exactly its row. */
  lemma {:induction false} RowsKeepKnown(entries: seq<TrainingQueueEntry>, units: set<nat>, total: TrainingQueueEntry -> int, now: int, i: int)
    requires 0 <= i < |entries| && entries[i].unit_id in units
    ensures RowOf(entries[i], total(entries[i]), now) in Rows(entries, units, total, now)
    decreases |entries|
  {
    if i < |entries| - 1 {
      RowsKeepKnown(entries[..|entries| - 1], units, total, now, i);
    }
  }

  predicate SortedByStart(rows: seq<QueueRow>)
  {
    forall i, j :: 0 <= i < j < |rows| ==> rows[i].entry.started_at <= rows[j].entry.started_at
  }

  /** A row no later than every row of a sorted sequence can go in front. */
  lemma PrependSorted(x: QueueRow, rows: seq<QueueRow>)
    requires SortedByStart(rows)
    requires forall i :: 0 <= i < |rows| ==> x.entry.started_at <= rows[i].entry.started_at
    ensures SortedByStart([x] + rows)
  {
  }

  /** The head of a sorted sequence is no later than anything an insertion into its tail holds. */
  lemma HeadBelowInsertion(rows: seq<QueueRow>, r: QueueRow, rest: seq<QueueRow>)
    requires SortedByStart(rows) && |rows| > 0 && rows[0].entry.started_at <= r.entry.started_at
    requires multiset(rest) == multiset(rows[1..]) + multiset{r}
    ensures forall i :: 0 <= i < |rest| ==> rows[0].entry.started_at <= rest[i].entry.started_at
  {
    forall i | 0 <= i < |rest|
      ensures rows[0].entry.started_at <= rest[i].entry.started_at
    {
      var y := rest[i];
      assert y in multiset(rest);
      if y != r {
        assert y in multiset(rows[1..]);
        var j :| 0 <= j < |rows[1..]| && rows[1..][j] == y;
        assert rows[j + 1] == y;
      }
    }
  }

  /** Puts `r` before the first row that starts later. */
  function InsertByStart(r: QueueRow, rows: seq<QueueRow>): (s: seq<QueueRow>)
    requires SortedByStart(rows)
    ensures SortedByStart(s)
    ensures multiset(s) == multiset(rows) + multiset{r}
  {
    if rows == [] then [r]
    else if r.entry.started_at < rows[0].entry.started_at then
      PrependSorted(r, rows);
      [r] + rows
    else
      var rest := InsertByStart(r, rows[1..]);
      assert rows == [rows[0]] + rows[1..];
      HeadBelowInsertion(rows, r, rest);
      PrependSorted(rows[0], rest);
      [rows[0]] + rest
  }

  /** The view's ordering: the same rows, ordered by start time. */
  function SortByStart(rows: seq<QueueRow>): (s: seq<QueueRow>)
    ensures SortedByStart(s)
    ensures multiset(s) == multiset(rows)
  {
    if rows == [] then []
    else
      assert rows == rows[..|rows| - 1] + [rows[|rows| - 1]];
      InsertByStart(rows[|rows| - 1], SortByStart(rows[..|rows| - 1]))
  }

  /**
   * `get_training_queue`'s view of the player's active entries: one row per
   * entry whose unit is known, then the rows ordered by start time.
   */
  method QueueView(entries: seq<TrainingQueueEntry>, units: set<nat>, total: TrainingQueueEntry -> int, now: int)
    returns (rows: seq<QueueRow>)
    ensures SortedByStart(rows)
    ensures multiset(rows) == multiset(Rows(entries, units, total, now))
  {
    var built: seq<QueueRow> := [];
    var i := 0;
    while i < |entries|
      invariant 0 <= i <= |entries|
      invariant built == Rows(entries[..i], units, total, now)
    {
      assert entries[..i + 1][..i] == entries[..i];
      var e := entries[i];
      if e.unit_id in units {
        built := built + [RowOf(e, total(e), now)];
      }
      i := i + 1;
    }
    assert entries[..i] == entries;
    rows := SortByStart(built);
  }

  /** One unit as the available-units view shows it. */
  datatype AvailableUnit = AvailableUnit(unit_id: nat, cost: Amounts, can_afford: bool, max_affordable: int)

  /**
   * The available-units view: each unit with its per-unit cost (no cost rows
   * means all zero), whether one is affordable, and the largest affordable
   * batch.
   */
  method AvailableUnits(units: seq<nat>, costs: map<nat, seq<UnitCost>>, res: PlayerResource)
    returns (view: seq<AvailableUnit>)
    ensures |view| == |units|
    ensures forall i :: 0 <= i < |units| ==>
      var c := TotalCost(if units[i] in costs then costs[units[i]] else [], 1);
      view[i].unit_id == units[i] && view[i].cost == c && (view[i].can_afford <==> CanAfford(res, c))
    ensures forall i :: 0 <= i < |units| ==>
      (view[i].can_afford <==> view[i].max_affordable >= 1) &&
      (view[i].can_afford ==> Affords(res, view[i].cost, view[i].max_affordable))
  {
    view := [];
    var i := 0;
    while i < |units|
      invariant 0 <= i <= |units|
      invariant |view| == i
      invariant forall k :: 0 <= k < i ==>
        var c := TotalCost(if units[k] in costs then costs[units[k]] else [], 1);
        view[k].unit_id == units[k] && view[k].cost == c && (view[k].can_afford <==> CanAfford(res, c))
      invariant forall k :: 0 <= k < i ==>
        (view[k].can_afford <==> view[k].max_affordable >= 1) &&
        (view[k].can_afford ==> Affords(res, view[k].cost, view[k].max_affordable))
    {
      var c := FoldUnitCost(if units[i] in costs then costs[units[i]] else []);
      var m := MaxAffordable(res, c);
      view := view + [AvailableUnit(units[i], c, CanAfford(res, c), m)];
      i := i + 1;
    }
  }
}
