/**
 * Production rates and the production cycle of the resource service: a rate
 * per resource type is its base rate times the resource multiplier, and each
 * production run schedules the next one two minutes later.
 */
module ResourceService {
  import opened Wrappers
  import opened ResourceTypeCodec
  import opened ModifierCodecs
  import opened LegacyJobCodecs
  import opened JobQueue
  import opened ResourceScheduler

  /** The player's hourly base rates, one column per resource type. */
  datatype BaseRates = BaseRates(population: int, food: int, wood: int, stone: int, gold: int)

  /** The variants in declaration order, as the type's iterator yields them. */
  const AllResourceTypes: seq<ResourceType> := [Population, Food, Wood, Stone, Gold]

  /** Where a resource type sits in the iteration order. */
  function Position(t: ResourceType): (j: nat)
    ensures j < |AllResourceTypes| && AllResourceTypes[j] == t
  {
    match t
    case Population => 0
    case Food => 1
    case Wood => 2
    case Stone => 3
    case Gold => 4
  }

  /** The iteration visits every resource type, each once. */
  lemma AllResourceTypesComplete()
    ensures forall t: ResourceType :: t in AllResourceTypes
    ensures forall i, j :: 0 <= i < j < |AllResourceTypes| ==> AllResourceTypes[i] != AllResourceTypes[j]
  {
    forall t: ResourceType
      ensures t in AllResourceTypes
    {
      var j := Position(t);
    }
  }

  /** The base-rate column each resource type reads. */
  function BaseRate(b: BaseRates, t: ResourceType): int
  {
    match t
    case Population => b.population
    case Food => b.food
    case Wood => b.wood
    case Stone => b.stone
    case Gold => b.gold
  }

  /** The multiplier query made for one resource type. */
  function MultiplierOf(multiplier: (ModifierTarget, Option<ResourceType>) -> Result<real, string>, t: ResourceType): Result<real, string>
  {
    multiplier(ModifierTarget.Resource, Some(t))
  }

  /** The index of the first resource type whose multiplier query fails, or 5. */
  function FirstFailing(multiplier: (ModifierTarget, Option<ResourceType>) -> Result<real, string>, ts: seq<ResourceType>): (k: nat)
    ensures k <= |ts|
    ensures forall i :: 0 <= i < k ==> MultiplierOf(multiplier, ts[i]).Ok?
    ensures k < |ts| ==> MultiplierOf(multiplier, ts[k]).Err?
  {
    if ts == [] then 0
    else if MultiplierOf(multiplier, ts[0]).Err? then 0
    else 1 + FirstFailing(multiplier, ts[1..])
  }

  /**
   * `get_production_rates`: queries the Resource multiplier of every resource
   * type in declaration order (the first failing query is the error), then
   * reads the base rates (`base` is that read's outcome), then multiplies.
   * `multiplier` stands for the modifier service's total-multiplier query.
   */
  method GetProductionRates(multiplier: (ModifierTarget, Option<ResourceType>) -> Result<real, string>, base: Result<BaseRates, string>)
    returns (r: Result<map<ResourceType, real>, string>)
    ensures FirstFailing(multiplier, AllResourceTypes) < 5 ==>
      r == Err(MultiplierOf(multiplier, AllResourceTypes[FirstFailing(multiplier, AllResourceTypes)]).error)
    ensures FirstFailing(multiplier, AllResourceTypes) == 5 && base.Err? ==> r == Err(base.error)
    ensures FirstFailing(multiplier, AllResourceTypes) == 5 && base.Ok? ==> r.Ok?
    ensures r.Ok? ==> forall t: ResourceType :: t in r.value
    ensures r.Ok? ==> forall t: ResourceType ::
      (MultiplierOf(multiplier, t).Ok? && r.value[t] == (BaseRate(base.value, t) as real) * MultiplierOf(multiplier, t).value)
  {
    var mods: map<ResourceType, real> := map[];
    var i := 0;
    while i < |AllResourceTypes|
      invariant 0 <= i <= |AllResourceTypes|
      invariant forall j :: 0 <= j < i ==> MultiplierOf(multiplier, AllResourceTypes[j]).Ok?
      invariant forall j :: 0 <= j < i ==>
        AllResourceTypes[j] in mods && mods[AllResourceTypes[j]] == MultiplierOf(multiplier, AllResourceTypes[j]).value
    {
      var t := AllResourceTypes[i];
      var m := multiplier(ModifierTarget.Resource, Some(t));
      if m.Err? {
        FirstFailingAt(multiplier, AllResourceTypes, i);
        return Err(m.error);
      }
      mods := mods[t := m.value];
      i := i + 1;
    }
    FirstFailingNone(multiplier, AllResourceTypes);
    if base.Err? {
      return Err(base.error);
    }
    forall t: ResourceType
      ensures t in mods && MultiplierOf(multiplier, t).Ok? && mods[t] == MultiplierOf(multiplier, t).value
    {
      var j := Position(t);
    }
    var rates := map t | t in mods :: (BaseRate(base.value, t) as real) * mods[t];
    r := Ok(rates);
  }

  lemma {:induction false} FirstFailingAt(multiplier: (ModifierTarget, Option<ResourceType>) -> Result<real, string>, ts: seq<ResourceType>, i: nat)
    requires i < |ts| && MultiplierOf(multiplier, ts[i]).Err?
    requires forall j :: 0 <= j < i ==> MultiplierOf(multiplier, ts[j]).Ok?
    ensures FirstFailing(multiplier, ts) == i
  {
    if i > 0 {
      FirstFailingAt(multiplier, ts[1..], i - 1);
    }
  }

  lemma {:induction false} FirstFailingNone(multiplier: (ModifierTarget, Option<ResourceType>) -> Result<real, string>, ts: seq<ResourceType>)
    requires forall j :: 0 <= j < |ts| ==> MultiplierOf(multiplier, ts[j]).Ok?
    ensures FirstFailing(multiplier, ts) == |ts|
  {
    if ts != [] {
      FirstFailingNone(multiplier, ts[1..]);
    }
  }

  /** The interval between two production runs, in seconds. */
  const ProductionInterval: int := 120

  class Service {
    var scheduler: ProductionScheduler

    constructor(scheduler: ProductionScheduler)
      ensures this.scheduler == scheduler
    {
      this.scheduler := scheduler;
    }

    /**
     * `produce_for_player`: computes the rates, runs production with them
     * (`produced` is that step's outcome: None for success, or its error),
     * then schedules the next run two minutes after `now`. Any error ends
     * the run and is returned as it is.
     */
    method ProduceForPlayer(player: nat, now: int,
                            multiplier: (ModifierTarget, Option<ResourceType>) -> Result<real, string>,
                            base: Result<BaseRates, string>, produced: Option<string>, fault: Option<string>)
      returns (r: Result<(), string>)
      requires scheduler.queue.Valid()
      modifies scheduler.queue
      ensures scheduler.queue.Valid()
      ensures FirstFailing(multiplier, AllResourceTypes) < 5 || base.Err? || produced.Some? ==>
        r.Err? && scheduler.queue.jobs == old(scheduler.queue.jobs)
      ensures FirstFailing(multiplier, AllResourceTypes) < 5 ==>
        r == Err(MultiplierOf(multiplier, AllResourceTypes[FirstFailing(multiplier, AllResourceTypes)]).error)
      ensures FirstFailing(multiplier, AllResourceTypes) == 5 && base.Err? ==> r == Err(base.error)
      ensures FirstFailing(multiplier, AllResourceTypes) == 5 && base.Ok? && produced.Some? ==> r == Err(produced.value)
      ensures FirstFailing(multiplier, AllResourceTypes) == 5 && base.Ok? && produced.None? && fault.Some? ==>
        r == Err(fault.value) && scheduler.queue.jobs == old(scheduler.queue.jobs)
      ensures FirstFailing(multiplier, AllResourceTypes) == 5 && base.Ok? && produced.None? && fault.None? ==>
        r == Ok(()) &&
        exists k :: k !in old(scheduler.queue.jobs) &&
          scheduler.queue.jobs == old(scheduler.queue.jobs)[k := NewJobRow(k, JobType.Resource, ProduceResources(player), Normal, now + ProductionInterval)]
    {
      var rates := GetProductionRates(multiplier, base);
      if rates.Err? {
        return Err(rates.error);
      }
      if produced.Some? {
        return Err(produced.value);
      }
      var job := scheduler.ScheduleProduction(player, now + ProductionInterval, fault);
      if job.Err? {
        return Err(job.error);
      }
      r := Ok(());
    }
  }
}
