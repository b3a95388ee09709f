/**
 * The production scheduler: enqueues ProduceResources jobs for one player,
 * or builds the request list for a batch of players.
 *
 * src/game/resources/resource_scheduler.rs imports the job enums from
 * `crate::domain::jobs` (the `JobCodecs` module here). The job table in
 * `JobQueue` is typed by the older copy, `LegacyJobCodecs`, which declares
 * the same three job types, statuses and spellings, so this module uses
 * that copy to build rows the table accepts.
 */
module ResourceScheduler {
  import opened Wrappers
  import opened LegacyJobCodecs
  import opened JobQueue

  /** One entry of a batch insert: job type, payload, priority and run time. */
  datatype JobRequest = JobRequest(job_type: JobType, payload: Payload, priority: JobPriority, run_at: int)

  /** The request built for one player, before the Null filter. */
  function ProductionRequest(player: nat, produce_at: int): JobRequest
  {
    JobRequest(Resource, ProduceResources(player), Normal, produce_at)
  }

  function MapRequests(players: seq<nat>, produce_at: int): (rs: seq<JobRequest>)
    ensures |rs| == |players|
    ensures forall i :: 0 <= i < |players| ==> rs[i] == ProductionRequest(players[i], produce_at)
  {
    if players == [] then []
    else [ProductionRequest(players[0], produce_at)] + MapRequests(players[1..], produce_at)
  }

  function DropNull(rs: seq<JobRequest>): (out: seq<JobRequest>)
    ensures forall r :: r in out <==> r in rs && r.payload != Null
    ensures |out| <= |rs|
  {
    if rs == [] then []
    else (if rs[0].payload == Null then [] else [rs[0]]) + DropNull(rs[1..])
  }

  /**
   * The request list `batch_schedule_production` hands to the queue's batch
   * insert: one ProduceResources request per player, then every request whose
   * payload is Null dropped.
   */
  function BatchRequests(players: seq<nat>, produce_at: int): seq<JobRequest>
  {
    DropNull(MapRequests(players, produce_at))
  }

  lemma {:induction false} DropNullKeepsAll(rs: seq<JobRequest>)
    requires forall i :: 0 <= i < |rs| ==> rs[i].payload != Null
    ensures DropNull(rs) == rs
  {
    if rs != [] {
      DropNullKeepsAll(rs[1..]);
    }
  }

  /**
   * Every player gets exactly one Resource job at Normal priority due at
   * `produce_at`, in input order: the Null filter never drops a request.
   */
  lemma BatchRequestsOnePerPlayer(players: seq<nat>, produce_at: int)
    ensures |BatchRequests(players, produce_at)| == |players|
    ensures forall i :: 0 <= i < |players| ==>
      BatchRequests(players, produce_at)[i] == JobRequest(Resource, ProduceResources(players[i]), Normal, produce_at)
  {
    DropNullKeepsAll(MapRequests(players, produce_at));
  }

  class ProductionScheduler {
    var queue: JobTable

    constructor(queue: JobTable)
      ensures this.queue == queue
    {
      this.queue := queue;
    }

    /** `schedule_production`: a Normal-priority ProduceResources job due at `produce_at`; errors pass through unchanged. */
    method ScheduleProduction(player: nat, produce_at: int, fault: Option<string>)
      returns (r: Result<nat, string>)
      requires queue.Valid()
      modifies queue
      ensures queue.Valid()
      ensures fault.Some? ==> r == Err(fault.value) && queue.jobs == old(queue.jobs)
      ensures fault.None? ==> r.Ok? && r.value !in old(queue.jobs)
      ensures fault.None? ==> queue.jobs == old(queue.jobs)[r.value := NewJobRow(r.value, Resource, ProduceResources(player), Normal, produce_at)]
    {
      r := queue.Enqueue(Resource, ProduceResources(player), Normal, produce_at, fault);
    }
  }
}
