/**
 * The background job table and its small state machine: jobs are inserted
 * as Pending, claimed one at a time (lowest priority value first) by a
 * worker, and finished as Completed or Failed. Failure is terminal: nothing
 * in the queue puts a Failed job back to Pending.
 */
module JobQueue {
  import opened Wrappers
  import opened LegacyJobCodecs
  import opened ResourceTypeCodec

  /** The JSON payloads the schedulers store; `Null` is the value a failed serialisation falls back to. */
  datatype Payload =
    | Null
    | ExpireModifier(modifier_id: nat, user_id: nat)
    | RecalculateResources(recalc_user_id: nat, resource_types: seq<ResourceType>)
    | UpdateModifierCache(cache_user_id: nat)
    | ProduceResources(players_id: nat)
    | CollectResources(collect_players_id: nat)

  datatype JobPriority = High | Normal | Low

  /** The integer stored in the `priority` column; a smaller value is served first. */
  function PriorityValue(p: JobPriority): (v: int)
    ensures v in {0, 50, 100}
  {
    match p
    case High => 0
    case Normal => 50
    case Low => 100
  }

  lemma PriorityOrder()
    ensures PriorityValue(High) < PriorityValue(Normal) < PriorityValue(Low)
    ensures forall a: JobPriority, b: JobPriority :: PriorityValue(a) == PriorityValue(b) ==> a == b
  {
  }

  /** One row of the jobs table (the database's own timestamp columns are left out). */
  datatype Job = Job(
    id: nat,
    job_type: JobType,
    status: JobStatus,
    payload: Payload,
    run_at: int,
    last_error: Option<string>,
    retries: int,
    max_retries: int,
    priority: int,
    timeout_seconds: int,
    locked_at: Option<int>,
    locked_by: Option<string>)

  const MaxRetries: int := 3
  const TimeoutSeconds: int := 300

  /** The row `enqueue` inserts under a fresh key. */
  function NewJobRow(id: nat, t: JobType, payload: Payload, priority: JobPriority, run_at: int): (j: Job)
    ensures j.id == id && j.job_type == t && j.payload == payload && j.run_at == run_at
    ensures j.status == Pending && j.locked_at.None? && j.locked_by.None? && j.last_error.None?
    ensures j.max_retries == 3 && j.timeout_seconds == 300 && j.priority == PriorityValue(priority)
  {
    Job(id, t, Pending, payload, run_at, None, 0, MaxRetries, PriorityValue(priority), TimeoutSeconds, None, None)
  }

  /** A job a worker may claim at time `now`: pending, unlocked and due within the next second. */
  predicate Eligible(j: Job, now: int)
  {
    j.status == Pending && j.run_at <= now + 1 && j.locked_at.None?
  }

  /** The row after a worker claims it. */
  function Claimed(j: Job, now: int, worker: string): (c: Job)
    ensures c.status == InProgress && c.locked_at == Some(now) && c.locked_by == Some(worker)
    ensures c.(status := j.status, locked_at := j.locked_at, locked_by := j.locked_by) == j
  {
    j.(status := InProgress, locked_at := Some(now), locked_by := Some(worker))
  }

  function MarkCompleted(j: Job): (c: Job)
    ensures c.status == Completed && c.locked_at.None? && c.locked_by.None?
    ensures c.(status := j.status, locked_at := j.locked_at, locked_by := j.locked_by) == j
  {
    j.(status := Completed, locked_at := None, locked_by := None)
  }

  function MarkFailed(j: Job, error: string): (c: Job)
    ensures c.status == Failed && c.last_error == Some(error) && c.locked_at.None? && c.locked_by.None?
    ensures c.(status := j.status, last_error := j.last_error, locked_at := j.locked_at, locked_by := j.locked_by) == j
  {
    j.(status := Failed, last_error := Some(error), locked_at := None, locked_by := None)
  }

  /** A claimed, completed or failed row can never be claimed again. */
  lemma FinishedNotEligible(j: Job, now: int, later: int, worker: string, error: string)
    ensures !Eligible(Claimed(j, now, worker), later)
    ensures !Eligible(MarkCompleted(j), later)
    ensures !Eligible(MarkFailed(j, error), later)
  {
  }

  /** A freshly enqueued job becomes claimable exactly once its run time is at most a second away. */
  lemma NewJobEligibleWhenDue(id: nat, t: JobType, payload: Payload, priority: JobPriority, run_at: int, now: int)
    ensures Eligible(NewJobRow(id, t, payload, priority, run_at), now) <==> run_at <= now + 1
  {
  }

  /** The row a claim should pick: eligible, and no eligible row has a smaller priority value. */
  predicate IsNextJob(jobs: map<nat, Job>, now: int, k: nat)
  {
    k in jobs && Eligible(jobs[k], now) &&
    forall k' :: k' in jobs && Eligible(jobs[k'], now) ==> jobs[k].priority <= jobs[k'].priority
  }

  /**
   * The selection of `get_next_job`: scans the table and keeps an eligible
   * row with the smallest priority value. Ties are resolved arbitrarily, as
   * the SQL ordering is only by priority.
   */
  method SelectNext(jobs: map<nat, Job>, now: int) returns (r: Option<nat>)
    ensures r.None? <==> forall k :: k in jobs ==> !Eligible(jobs[k], now)
    ensures r.Some? ==> IsNextJob(jobs, now, r.value)
  {
    r := None;
    var remaining := jobs.Keys;
    while remaining != {}
      invariant remaining <= jobs.Keys
      invariant r.None? <==> forall k :: k in jobs && k !in remaining ==> !Eligible(jobs[k], now)
      invariant r.Some? ==> r.value in jobs && r.value !in remaining && Eligible(jobs[r.value], now)
      invariant r.Some? ==> forall k :: k in jobs && k !in remaining && Eligible(jobs[k], now) ==>
                              jobs[r.value].priority <= jobs[k].priority
      decreases |remaining|
    {
      var k :| k in remaining;
      if Eligible(jobs[k], now) && (r.None? || jobs[k].priority < jobs[r.value].priority) {
        r := Some(k);
      }
      remaining := remaining - {k};
    }
  }

  /** The jobs table. Keys are handed out by the table, so a new key is never in use. */
  class JobTable {
    var jobs: map<nat, Job>
    var nextId: nat

    ghost predicate Valid()
      reads this
    {
      forall k :: k in jobs ==> k < nextId && jobs[k].id == k
    }

    constructor()
      ensures Valid() && jobs == map[]
    {
      jobs := map[];
      nextId := 0;
    }

    /**
     * `enqueue`: inserts a Pending row under a fresh key and returns the key.
     * `fault` stands for a failed insert, which leaves the table as it was.
     */
    method Enqueue(t: JobType, payload: Payload, priority: JobPriority, run_at: int, fault: Option<string>)
      returns (r: Result<nat, string>)
      requires Valid()
      modifies this
      ensures Valid()
      ensures fault.Some? ==> r == Err(fault.value) && jobs == old(jobs)
      ensures fault.None? ==> r.Ok? && r.value !in old(jobs) &&
                              jobs == old(jobs)[r.value := NewJobRow(r.value, t, payload, priority, run_at)]
    {
      if fault.Some? {
        return Err(fault.value);
      }
      var id := nextId;
      jobs := jobs[id := NewJobRow(id, t, payload, priority, run_at)];
      nextId := nextId + 1;
      r := Ok(id);
    }

    /**
     * `get_next_job`: claims the next job for `worker` as one atomic step.
     * The returned job is the row as read before the claim, so it is still Pending.
     */
    method GetNextJob(worker: string, now: int) returns (r: Option<Job>)
      requires Valid()
      modifies this
      ensures Valid()
      ensures r.None? <==> forall k :: k in old(jobs) ==> !Eligible(old(jobs)[k], now)
      ensures r.None? ==> jobs == old(jobs)
      ensures r.Some? ==> IsNextJob(old(jobs), now, r.value.id) && r.value == old(jobs)[r.value.id] &&
                          jobs == old(jobs)[r.value.id := Claimed(r.value, now, worker)]
    {
      var k := SelectNext(jobs, now);
      if k.None? {
        return None;
      }
      var job := jobs[k.value];
      jobs := jobs[k.value := Claimed(job, now, worker)];
      r := Some(job);
    }

    /** `complete_job`: marks the row Completed and unlocks it; an unknown key changes nothing. */
    method CompleteJob(id: nat)
      requires Valid()
      modifies this
      ensures Valid()
      ensures jobs == if id in old(jobs) then old(jobs)[id := MarkCompleted(old(jobs)[id])] else old(jobs)
    {
      if id in jobs {
        jobs := jobs[id := MarkCompleted(jobs[id])];
      }
    }

    /** `fail_job`: marks the row Failed with the message and unlocks it; an unknown key changes nothing. */
    method FailJob(id: nat, error: string)
      requires Valid()
      modifies this
      ensures Valid()
      ensures jobs == if id in old(jobs) then old(jobs)[id := MarkFailed(old(jobs)[id], error)] else old(jobs)
    {
      if id in jobs {
        jobs := jobs[id := MarkFailed(jobs[id], error)];
      }
    }
  }
}
