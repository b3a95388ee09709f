/**
 * The older modifier service: modifiers aimed at one (target, resource) are
 * grouped by their stacking group, each group is worth 1 + the sum of its
 * magnitudes, and the total is the product of the groups. Results are
 * memoised in a cache keyed by (user, target, resource).
 */
module ModifierService {
  import opened Wrappers
  import opened ModifierCodecs
  import opened ResourceTypeCodec
  import opened SourceTypeCodec
  import opened FullModifiers
  import opened JobQueue
  import opened ModifierScheduler

  /** A definition lookup that found no row. */
  datatype LookupError = MissingModifier(id: nat)

  /** The definitions behind `active`, in order; the first activation without a definition is an error. */
  function Resolve(active: seq<ActiveModifier>, defs: map<nat, Modifier>): (r: Result<seq<Modifier>, LookupError>)
    ensures r.Ok? ==> |r.value| == |active| &&
                      forall i :: 0 <= i < |active| ==> active[i].modifier_id in defs && r.value[i] == defs[active[i].modifier_id]
    ensures r.Ok? <==> forall i :: 0 <= i < |active| ==> active[i].modifier_id in defs
  {
    if active == [] then Ok([])
    else
      var n := |active| - 1;
      match Resolve(active[..n], defs)
      case Err(e) => Err(e)
      case Ok(ms) =>
        if active[n].modifier_id in defs then Ok(ms + [defs[active[n].modifier_id]])
        else Err(MissingModifier(active[n].modifier_id))
  }

  predicate Aims(m: Modifier, t: ModifierTarget, res: Option<ResourceType>)
  {
    m.target_type == t && m.target_resource == res
  }

  /** The modifiers that survive the target and resource filter, in order. */
  function Selected(ms: seq<Modifier>, t: ModifierTarget, res: Option<ResourceType>): (out: seq<Modifier>)
    ensures forall m :: m in out <==> m in ms && Aims(m, t, res)
  {
    if ms == [] then []
    else
      var n := |ms| - 1;
      Selected(ms[..n], t, res) + (if Aims(ms[n], t, res) then [ms[n]] else [])
  }

  /** One entry of the grouping map: a stacking group (None is a group of its own) and its members. */
  datatype StackGroup = StackGroup(key: Option<string>, members: seq<Modifier>)

  function Insert(groups: seq<StackGroup>, m: Modifier): seq<StackGroup>
  {
    if groups == [] then [StackGroup(m.stacking_group, [m])]
    else if groups[0].key == m.stacking_group then [groups[0].(members := groups[0].members + [m])] + groups[1..]
    else [groups[0]] + Insert(groups[1..], m)
  }

  /** The grouping loop, in first-seen order of the keys. */
  function Grouped(ms: seq<Modifier>): seq<StackGroup>
  {
    if ms == [] then []
    else Insert(Grouped(ms[..|ms| - 1]), ms[|ms| - 1])
  }

  /** The service's per-group stacking rule: the fold from 1 adding each magnitude. */
  function GroupValue(ms: seq<Modifier>): real
  {
    if ms == [] then 1.0 else GroupValue(ms[..|ms| - 1]) + ms[|ms| - 1].magnitude
  }

  /** The product of the group values, starting from 1. */
  function ProductOfGroups(groups: seq<StackGroup>): real
  {
    if groups == [] then 1.0
    else ProductOfGroups(groups[..|groups| - 1]) * GroupValue(groups[|groups| - 1].members)
  }

  /** What `calculate_total_multiplier` computes over a user's activations. */
  function TotalMultiplier(active: seq<ActiveModifier>, defs: map<nat, Modifier>, t: ModifierTarget, res: Option<ResourceType>): Result<real, LookupError>
  {
    match Resolve(active, defs)
    case Err(e) => Err(e)
    case Ok(ms) => Ok(ProductOfGroups(Grouped(Selected(ms, t, res))))
  }

  /**
   * `calculate_total_multiplier`: looks every activation's definition up (a
   * missing one fails the whole call, even for a modifier the filter would
   * skip), groups the matching ones and multiplies the group values.
   */
  method CalculateTotalMultiplier(active: seq<ActiveModifier>, defs: map<nat, Modifier>, t: ModifierTarget, res: Option<ResourceType>)
    returns (r: Result<real, LookupError>)
    ensures r == TotalMultiplier(active, defs, t, res)
  {
    var groups: seq<StackGroup> := [];
    ghost var resolved: seq<Modifier> := [];
    var i := 0;
    while i < |active|
      invariant 0 <= i <= |active|
      invariant Resolve(active[..i], defs) == Ok(resolved)
      invariant groups == Grouped(Selected(resolved, t, res))
    {
      var a := active[i];
      if a.modifier_id !in defs {
        ResolveMissing(active, defs, t, res, i, resolved);
        return Err(MissingModifier(a.modifier_id));
      }
      var m := defs[a.modifier_id];
      ResolveStep(active, defs, i, resolved);
      GroupStep(resolved, m, t, res);
      if Aims(m, t, res) {
        groups := Insert(groups, m);
      }
      resolved := resolved + [m];
      i := i + 1;
    }
    assert active[..i] == active;
    var total := MultiplyGroups(groups);
    r := Ok(total);
  }

  /** The final loop of `calculate_total_multiplier`: the running product of the group values. */
  method MultiplyGroups(groups: seq<StackGroup>) returns (total: real)
    ensures total == ProductOfGroups(groups)
  {
    total := 1.0;
    var j := 0;
    while j < |groups|
      invariant 0 <= j <= |groups|
      invariant total == ProductOfGroups(groups[..j])
    {
      ProductStep(groups, j);
      total := total * GroupValue(groups[j].members);
      j := j + 1;
    }
    assert groups[..j] == groups;
  }

  lemma {:induction false} ResolveStep(active: seq<ActiveModifier>, defs: map<nat, Modifier>, i: nat, resolved: seq<Modifier>)
    requires i < |active| && Resolve(active[..i], defs) == Ok(resolved) && active[i].modifier_id in defs
    ensures Resolve(active[..i + 1], defs) == Ok(resolved + [defs[active[i].modifier_id]])
  {
    assert active[..i + 1][..i] == active[..i];
  }

  lemma ResolveMissing(active: seq<ActiveModifier>, defs: map<nat, Modifier>, t: ModifierTarget, res: Option<ResourceType>,
                       i: nat, resolved: seq<Modifier>)
    requires i < |active| && Resolve(active[..i], defs) == Ok(resolved) && active[i].modifier_id !in defs
    ensures TotalMultiplier(active, defs, t, res) == Err(MissingModifier(active[i].modifier_id))
  {
    assert active[..i + 1][..i] == active[..i];
    ResolveErrorSticks(active, defs, i + 1);
  }

  lemma {:induction false} GroupStep(resolved: seq<Modifier>, m: Modifier, t: ModifierTarget, res: Option<ResourceType>)
    ensures Grouped(Selected(resolved + [m], t, res)) ==
      if Aims(m, t, res) then Insert(Grouped(Selected(resolved, t, res)), m) else Grouped(Selected(resolved, t, res))
  {
    assert (resolved + [m])[..|resolved|] == resolved;
    var sel := Selected(resolved, t, res);
    if Aims(m, t, res) {
      assert Selected(resolved + [m], t, res) == sel + [m];
      assert (sel + [m])[..|sel|] == sel;
    } else {
      assert Selected(resolved + [m], t, res) == sel + [];
      assert sel + [] == sel;
    }
  }

  lemma {:induction false} ProductStep(groups: seq<StackGroup>, j: nat)
    requires j < |groups|
    ensures ProductOfGroups(groups[..j + 1]) == ProductOfGroups(groups[..j]) * GroupValue(groups[j].members)
  {
    assert groups[..j + 1][..j] == groups[..j];
  }

  /** Once a prefix fails to resolve, every longer prefix fails with the same error. */
  lemma {:induction false} ResolveErrorSticks(active: seq<ActiveModifier>, defs: map<nat, Modifier>, k: nat)
    requires k <= |active| && Resolve(active[..k], defs).Err?
    ensures Resolve(active, defs) == Resolve(active[..k], defs)
    decreases |active|
  {
    if k < |active| {
      var n := |active| - 1;
      assert active[..n][..k] == active[..k];
      ResolveErrorSticks(active[..n], defs, k);
    } else {
      assert active[..k] == active;
    }
  }

  // ---- properties of the grouping ----

  predicate DistinctKeys(groups: seq<StackGroup>)
  {
    forall i, j :: 0 <= i < j < |groups| ==> groups[i].key != groups[j].key
  }

  /** Every group holds only members of its own key, drawn from the input. */
  predicate Faithful(groups: seq<StackGroup>, ms: seq<Modifier>)
  {
    forall i :: 0 <= i < |groups| ==>
      forall x :: x in groups[i].members ==> x.stacking_group == groups[i].key && x in ms
  }

  /** Every key after an insert is the inserted modifier's or an old one. */
  lemma {:induction false} InsertKeys(groups: seq<StackGroup>, m: Modifier)
    ensures |Insert(groups, m)| >= |groups|
    ensures forall i :: 0 <= i < |Insert(groups, m)| ==>
      Insert(groups, m)[i].key == m.stacking_group || exists j :: 0 <= j < |groups| && groups[j].key == Insert(groups, m)[i].key
  {
    if groups != [] && groups[0].key != m.stacking_group {
      InsertKeys(groups[1..], m);
      var r := Insert(groups, m);
      var tail := Insert(groups[1..], m);
      assert r == [groups[0]] + tail;
      forall i | 0 <= i < |r|
        ensures r[i].key == m.stacking_group || exists j :: 0 <= j < |groups| && groups[j].key == r[i].key
      {
        if i == 0 {
          assert groups[0].key == r[i].key;
        } else if r[i].key != m.stacking_group {
          var j :| 0 <= j < |groups[1..]| && groups[1..][j].key == tail[i - 1].key;
          assert groups[j + 1].key == r[i].key;
        }
      }
    } else if groups != [] {
      var r := Insert(groups, m);
      forall i | 0 <= i < |r|
        ensures r[i].key == m.stacking_group || exists j :: 0 <= j < |groups| && groups[j].key == r[i].key
      {
        assert r[i].key == groups[i].key;
      }
    }
  }

  lemma {:induction false} InsertKeeps(groups: seq<StackGroup>, m: Modifier, ms: seq<Modifier>)
    requires DistinctKeys(groups) && Faithful(groups, ms)
    ensures DistinctKeys(Insert(groups, m)) && Faithful(Insert(groups, m), ms + [m])
  {
    if groups != [] && groups[0].key != m.stacking_group {
      InsertKeeps(groups[1..], m, ms);
      InsertKeys(groups[1..], m);
      var r := Insert(groups, m);
      var tail := Insert(groups[1..], m);
      assert r == [groups[0]] + tail;
      forall i, j | 0 <= i < j < |r|
        ensures r[i].key != r[j].key
      {
        if i == 0 {
          if tail[j - 1].key != m.stacking_group {
            var k :| 0 <= k < |groups[1..]| && groups[1..][k].key == tail[j - 1].key;
            assert groups[k + 1].key == r[j].key;
          }
        } else {
          assert r[i] == tail[i - 1] && r[j] == tail[j - 1];
        }
      }
      forall i | 0 <= i < |r|
        ensures forall x :: x in r[i].members ==> x.stacking_group == r[i].key && x in ms + [m]
      {
        if i == 0 {
          assert r[0] == groups[0];
        } else {
          assert r[i] == tail[i - 1];
        }
      }
    } else if groups != [] {
      var r := Insert(groups, m);
      forall i | 0 <= i < |r|
        ensures forall x :: x in r[i].members ==> x.stacking_group == r[i].key && x in ms + [m]
      {
        if i > 0 {
          assert r[i] == groups[i];
        }
      }
      forall i, j | 0 <= i < j < |r|
        ensures r[i].key != r[j].key
      {
        assert r[j] == groups[j];
        assert r[i].key == groups[i].key;
      }
    }
  }

  /** The grouping has one group per key, and each group holds only input modifiers of its key. */
  lemma {:induction false} GroupedWellFormed(ms: seq<Modifier>)
    ensures DistinctKeys(Grouped(ms)) && Faithful(Grouped(ms), ms)
  {
    if ms != [] {
      var n := |ms| - 1;
      GroupedWellFormed(ms[..n]);
      InsertKeeps(Grouped(ms[..n]), ms[n], ms[..n]);
      assert ms[..n] + [ms[n]] == ms;
    }
  }

  /** A key not used by any input modifier names no group. */
  lemma {:induction false} GroupedKeysFromInput(ms: seq<Modifier>, key: Option<string>)
    requires forall x :: x in ms ==> x.stacking_group != key
    ensures forall i :: 0 <= i < |Grouped(ms)| ==> Grouped(ms)[i].key != key
  {
    if ms != [] {
      var n := |ms| - 1;
      assert forall x :: x in ms[..n] ==> x in ms;
      GroupedKeysFromInput(ms[..n], key);
      InsertKeys(Grouped(ms[..n]), ms[n]);
    }
  }

  lemma {:induction false} InsertFresh(groups: seq<StackGroup>, m: Modifier)
    requires forall i :: 0 <= i < |groups| ==> groups[i].key != m.stacking_group
    ensures Insert(groups, m) == groups + [StackGroup(m.stacking_group, [m])]
  {
    if groups != [] {
      InsertFresh(groups[1..], m);
    }
  }

  lemma {:induction false} NothingSelected(ms: seq<Modifier>, t: ModifierTarget, res: Option<ResourceType>)
    requires forall i :: 0 <= i < |ms| ==> !Aims(ms[i], t, res)
    ensures Selected(ms, t, res) == []
  {
    if ms != [] {
      NothingSelected(ms[..|ms| - 1], t, res);
    }
  }

  /** When every definition resolves and none aims at the query, the total is exactly 1. */
  lemma {:induction false} NoMatchesGiveOne(active: seq<ActiveModifier>, defs: map<nat, Modifier>, t: ModifierTarget, res: Option<ResourceType>)
    requires forall i :: 0 <= i < |active| ==> active[i].modifier_id in defs && !Aims(defs[active[i].modifier_id], t, res)
    ensures TotalMultiplier(active, defs, t, res) == Ok(1.0)
  {
    NothingSelected(Resolve(active, defs).value, t, res);
  }

  /** A modifier aimed elsewhere leaves the total unchanged. */
  lemma {:induction false} NonMatchingSkipped(ms: seq<Modifier>, m: Modifier, t: ModifierTarget, res: Option<ResourceType>)
    requires !Aims(m, t, res)
    ensures Selected(ms + [m], t, res) == Selected(ms, t, res)
  {
    assert (ms + [m])[..|ms|] == ms;
  }

  /** A modifier whose stacking group is new contributes its own factor 1 + magnitude. */
  lemma {:induction false} NewGroupMultiplies(ms: seq<Modifier>, m: Modifier)
    requires forall x :: x in ms ==> x.stacking_group != m.stacking_group
    ensures ProductOfGroups(Grouped(ms + [m])) == ProductOfGroups(Grouped(ms)) * (1.0 + m.magnitude)
  {
    assert (ms + [m])[..|ms|] == ms;
    GroupedKeysFromInput(ms, m.stacking_group);
    InsertFresh(Grouped(ms), m);
    var gs := Grouped(ms);
    var g := StackGroup(m.stacking_group, [m]);
    assert (gs + [g])[..|gs|] == gs;
    assert [m][..0] == [];
    assert GroupValue([m]) == 1.0 + m.magnitude;
  }

  lemma {:induction false} OneGroupShape(ms: seq<Modifier>, key: Option<string>)
    requires ms != [] && forall i :: 0 <= i < |ms| ==> ms[i].stacking_group == key
    ensures Grouped(ms) == [StackGroup(key, ms)]
  {
    var n := |ms| - 1;
    if n == 0 {
      assert ms[..0] == [];
      assert ms == [ms[0]];
    } else {
      OneGroupShape(ms[..n], key);
      assert ms[..n] + [ms[n]] == ms;
    }
  }

  /** Modifiers that all share one stacking group form one group worth 1 + the sum of their magnitudes. */
  lemma {:induction false} OneGroup(ms: seq<Modifier>, key: Option<string>)
    requires ms != [] && forall i :: 0 <= i < |ms| ==> ms[i].stacking_group == key
    ensures ProductOfGroups(Grouped(ms)) == GroupValue(ms)
  {
    OneGroupShape(ms, key);
    var g := [StackGroup(key, ms)];
    assert g[..0] == [];
  }

  /**
   * `get_nearest_expiration`: the earliest expiry among the activations that
   * have one, over all of the user's activations whatever their target.
   */
  function NearestExpiration(active: seq<ActiveModifier>): (r: Option<int>)
    ensures r.None? <==> forall i :: 0 <= i < |active| ==> active[i].expires_at.None?
    ensures r.Some? ==> exists i :: 0 <= i < |active| && active[i].expires_at == r
    ensures r.Some? ==> forall i :: 0 <= i < |active| && active[i].expires_at.Some? ==> r.value <= active[i].expires_at.value
  {
    if active == [] then None
    else
      var rest := NearestExpiration(active[1..]);
      match active[0].expires_at
      case None =>
        assert forall i :: 1 <= i < |active| ==> active[i] == active[1..][i - 1];
        rest
      case Some(e) =>
        assert forall i :: 1 <= i < |active| ==> active[i] == active[1..][i - 1];
        if rest.None? || e <= rest.value then Some(e) else rest
  }

  // ---- the service and its cache ----

  datatype CacheKey = CacheKey(user_id: nat, target_type: ModifierTarget, target_resource: Option<ResourceType>)
  datatype CacheEntry = CacheEntry(total_multiplier: real, expires_at: Option<int>)

  /**
   * The fields of a new activation; the key and timestamps are assigned on
   * insert, and a missing `started_at` takes the column default, the time of
   * the insert.
   */
  datatype NewActiveModifier = NewActiveModifier(
    user_id: nat,
    modifier_id: nat,
    started_at: Option<int>,
    expires_at: Option<int>,
    source_type: ModifierSourceType,
    source_id: Option<nat>)

  /** Why the activation's insert was refused. */
  datatype InsertError =
    | ExpiresBeforeStart
    | UnknownModifier(id: nat)
    | Database(message: string)

  datatype ServiceError = Lookup(e: LookupError) | Scheduling(message: string) | Insert(reason: InsertError)

  /** The start time the stored row gets. */
  function StartOf(n: NewActiveModifier, now: int): int
  {
    n.started_at.UnwrapOr(now)
  }

  /**
   * The outcome of inserting `n` into the activations table at `now`: the
   * table's check refuses an expiry before the start, its foreign key an
   * unknown definition, and `fault` stands for any other database error
   * (an unknown user among them). None means the row is stored.
   */
  function InsertFailure(n: NewActiveModifier, now: int, defs: map<nat, Modifier>, fault: Option<string>): (e: Option<InsertError>)
    ensures e.None? <==> fault.None? && (n.expires_at.None? || StartOf(n, now) <= n.expires_at.value) && n.modifier_id in defs
  {
    if fault.Some? then Some(Database(fault.value))
    else if n.expires_at.Some? && n.expires_at.value < StartOf(n, now) then Some(ExpiresBeforeStart)
    else if n.modifier_id !in defs then Some(UnknownModifier(n.modifier_id))
    else None
  }

  /** `get_by_user_id`: one user's activations, in table order. */
  function UserActives(active: seq<ActiveModifier>, user: nat): (out: seq<ActiveModifier>)
    ensures forall a :: a in out <==> a in active && a.player_id == user
  {
    if active == [] then []
    else
      var n := |active| - 1;
      UserActives(active[..n], user) + (if active[n].player_id == user then [active[n]] else [])
  }

  /** The activation row `create` stores for `n` under key `id`. */
  function NewRow(id: nat, n: NewActiveModifier, now: int): (a: ActiveModifier)
    ensures a.id == id && a.player_id == n.user_id && a.modifier_id == n.modifier_id && a.expires_at == n.expires_at
    ensures a.started_at == (if n.started_at.Some? then n.started_at.value else now)
  {
    ActiveModifier(id, n.user_id, n.modifier_id, StartOf(n, now), n.expires_at, n.source_type, n.source_id, now, now)
  }

  /** The cache key `apply_modifier` refreshes: the user and the definition's target. */
  function ApplyKey(defs: map<nat, Modifier>, n: NewActiveModifier): CacheKey
    requires n.modifier_id in defs
  {
    CacheKey(n.user_id, defs[n.modifier_id].target_type, defs[n.modifier_id].target_resource)
  }

  /** The total `apply_modifier` recomputes once the activation is stored. */
  function ApplyTotal(active: seq<ActiveModifier>, defs: map<nat, Modifier>, n: NewActiveModifier): Result<real, LookupError>
    requires n.modifier_id in defs
  {
    TotalMultiplier(UserActives(active, n.user_id), defs, defs[n.modifier_id].target_type, defs[n.modifier_id].target_resource)
  }

  /** The expiry job scheduled for the activation with key `active_id`. */
  function ExpiryJob(k: nat, active_id: nat, n: NewActiveModifier): Job
    requires n.expires_at.Some?
  {
    NewJobRow(k, LegacyJobCodecs.Modifier, ExpireModifier(active_id, n.user_id), Normal, n.expires_at.value)
  }

  class Service {
    var active: seq<ActiveModifier>
    var nextActiveId: nat
    var defs: map<nat, Modifier>
    var cache: map<CacheKey, CacheEntry>
    var scheduler: Scheduler

    ghost predicate Valid()
      reads this, scheduler, scheduler.queue
    {
      scheduler.queue.Valid()
    }

    constructor(defs: map<nat, Modifier>, scheduler: Scheduler)
      ensures this.defs == defs && this.scheduler == scheduler
      ensures active == [] && cache == map[]
    {
      this.defs := defs;
      this.scheduler := scheduler;
      active := [];
      nextActiveId := 0;
      cache := map[];
    }

    /**
     * `get_total_multiplier`: a cache hit returns the stored value untouched;
     * a miss computes the total, stores it with the nearest expiry of the
     * user's activations, and returns it. A failed computation stores nothing.
     */
    method GetTotalMultiplier(user: nat, t: ModifierTarget, res: Option<ResourceType>) returns (r: Result<real, ServiceError>)
      modifies this`cache
      ensures CacheKey(user, t, res) in old(cache) ==>
        r == Ok(old(cache)[CacheKey(user, t, res)].total_multiplier) && cache == old(cache)
      ensures CacheKey(user, t, res) !in old(cache) && TotalMultiplier(UserActives(active, user), defs, t, res).Err? ==>
        r == Err(Lookup(TotalMultiplier(UserActives(active, user), defs, t, res).error)) && cache == old(cache)
      ensures CacheKey(user, t, res) !in old(cache) && TotalMultiplier(UserActives(active, user), defs, t, res).Ok? ==>
        r == Ok(TotalMultiplier(UserActives(active, user), defs, t, res).value) &&
        cache == old(cache)[CacheKey(user, t, res) := CacheEntry(r.value, NearestExpiration(UserActives(active, user)))]
    {
      var key := CacheKey(user, t, res);
      if key in cache {
        return Ok(cache[key].total_multiplier);
      }
      var mine := UserActives(active, user);
      var total := CalculateTotalMultiplier(mine, defs, t, res);
      if total.Err? {
        return Err(Lookup(total.error));
      }
      var expires_at := NearestExpiration(mine);
      cache := cache[key := CacheEntry(total.value, expires_at)];
      r := Ok(total.value);
    }

    /**
     * The cache steps of `apply_modifier`: drop the entry under `key`,
     * recompute the total for the key's user and target, and store it with
     * `expires_at`. A failed computation leaves the entry dropped.
     */
    method Refresh(key: CacheKey, expires_at: Option<int>) returns (total: Result<real, LookupError>)
      modifies this`cache
      ensures total == TotalMultiplier(UserActives(active, key.user_id), defs, key.target_type, key.target_resource)
      ensures total.Err? ==> cache == old(cache) - {key}
      ensures total.Ok? ==> cache == old(cache)[key := CacheEntry(total.value, expires_at)]
    {
      cache := cache - {key};
      total := CalculateTotalMultiplier(UserActives(active, key.user_id), defs, key.target_type, key.target_resource);
      if total.Ok? {
        cache := cache[key := CacheEntry(total.value, expires_at)];
      }
    }

    /**
     * `apply_modifier`: stores the activation (`insertFault` stands for a
     * database error on the insert), looks its definition up, drops the cache
     * entry for the definition's target, recomputes and stores it with the
     * new activation's expiry, and schedules an expiry job when the
     * activation expires (`fault` stands for a failed enqueue). A refused
     * insert stores nothing and changes nothing. After it there is no
     * transaction: an error leaves the steps before it in place.
     */
    method ApplyModifier(n: NewActiveModifier, now: int, insertFault: Option<string>, fault: Option<string>)
      returns (r: Result<(), ServiceError>)
      requires Valid()
      modifies this`active, this`nextActiveId, this`cache, scheduler.queue
      ensures Valid()
      ensures InsertFailure(n, now, defs, insertFault).Some? ==>
        r == Err(Insert(InsertFailure(n, now, defs, insertFault).value)) &&
        active == old(active) && nextActiveId == old(nextActiveId) &&
        cache == old(cache) && scheduler.queue.jobs == old(scheduler.queue.jobs)
      ensures InsertFailure(n, now, defs, insertFault).None? ==>
        active == old(active) + [NewRow(old(nextActiveId), n, now)] && nextActiveId == old(nextActiveId) + 1
      ensures InsertFailure(n, now, defs, insertFault).None? && ApplyTotal(active, defs, n).Err? ==> r == Err(Lookup(ApplyTotal(active, defs, n).error))
      ensures InsertFailure(n, now, defs, insertFault).None? && ApplyTotal(active, defs, n).Err? ==>
        cache == old(cache) - {ApplyKey(defs, n)} && scheduler.queue.jobs == old(scheduler.queue.jobs)
      ensures InsertFailure(n, now, defs, insertFault).None? && ApplyTotal(active, defs, n).Ok? ==>
        cache == old(cache)[ApplyKey(defs, n) := CacheEntry(ApplyTotal(active, defs, n).value, n.expires_at)]
      ensures InsertFailure(n, now, defs, insertFault).None? && ApplyTotal(active, defs, n).Ok? && n.expires_at.None? ==>
        r == Ok(()) && scheduler.queue.jobs == old(scheduler.queue.jobs)
      ensures InsertFailure(n, now, defs, insertFault).None? && ApplyTotal(active, defs, n).Ok? && n.expires_at.Some? && fault.Some? ==>
        r == Err(Scheduling(fault.value)) && scheduler.queue.jobs == old(scheduler.queue.jobs)
      ensures InsertFailure(n, now, defs, insertFault).None? && ApplyTotal(active, defs, n).Ok? && n.expires_at.Some? && fault.None? ==> r == Ok(())
      ensures InsertFailure(n, now, defs, insertFault).None? && ApplyTotal(active, defs, n).Ok? && n.expires_at.Some? && fault.None? ==>
        exists k :: k !in old(scheduler.queue.jobs) && scheduler.queue.jobs == old(scheduler.queue.jobs)[k := ExpiryJob(k, old(nextActiveId), n)]
    {
      var refused := InsertFailure(n, now, defs, insertFault);
      if refused.Some? {
        return Err(Insert(refused.value));
      }
      var row := NewRow(nextActiveId, n, now);
      active := active + [row];
      nextActiveId := nextActiveId + 1;
      {
        var def := defs[row.modifier_id];
        var key := CacheKey(row.player_id, def.target_type, def.target_resource);
        var total := Refresh(key, row.expires_at);
        assert key == ApplyKey(defs, n) && total == ApplyTotal(active, defs, n);
        if total.Err? {
          r := Err(Lookup(total.error));
        } else {
          r := Ok(());
          if row.expires_at.Some? {
            var job := scheduler.ScheduleExpiration(row.id, row.player_id, row.expires_at.value, fault);
            if job.Err? {
              r := Err(Scheduling(job.error));
            }
          }
        }
      }
    }
  }
}
