/**
 * The modifier scheduler: each request is one enqueue of a Modifier job with
 * a fixed payload shape, priority and run time.
 */
module ModifierScheduler {
  import opened Wrappers
  import opened LegacyJobCodecs
  import opened ResourceTypeCodec
  import opened JobQueue

  /** The table after inserting `ids[i]` ↦ an UpdateModifierCache job for `users[i]`, in order. */
  function Extend(jobs: map<nat, Job>, ids: seq<nat>, users: seq<nat>, run_at: int): map<nat, Job>
    requires |ids| == |users|
  {
    if ids == [] then jobs
    else
      var n := |ids| - 1;
      Extend(jobs, ids[..n], users[..n], run_at)[ids[n] := NewJobRow(ids[n], Modifier, UpdateModifierCache(users[n]), Low, run_at)]
  }

  /** Every key in `ids` is absent from `jobs`, and no key occurs twice. */
  predicate FreshDistinct(ids: seq<nat>, jobs: map<nat, Job>)
  {
    (forall i :: 0 <= i < |ids| ==> ids[i] !in jobs) &&
    (forall i, j :: 0 <= i < j < |ids| ==> ids[i] != ids[j])
  }

  /** The index of the first failing enqueue, or the length when none fails. */
  function FirstFault(faults: seq<Option<string>>): (k: nat)
    ensures k <= |faults|
    ensures forall j :: 0 <= j < k ==> faults[j].None?
    ensures k < |faults| ==> faults[k].Some?
  {
    if faults == [] then 0
    else if faults[0].Some? then 0
    else 1 + FirstFault(faults[1..])
  }

  class Scheduler {
    var queue: JobTable

    constructor(queue: JobTable)
      ensures this.queue == queue
    {
      this.queue := queue;
    }

    /** `schedule_expiration`: a Normal-priority ExpireModifier job due exactly at the expiry time. */
    method ScheduleExpiration(modifier_id: nat, user_id: nat, expires_at: int, fault: Option<string>)
      returns (r: Result<nat, string>)
      requires queue.Valid()
      modifies queue
      ensures queue.Valid()
      ensures fault.Some? ==> r == Err(fault.value) && queue.jobs == old(queue.jobs)
      ensures fault.None? ==> r.Ok? && r.value !in old(queue.jobs)
      ensures fault.None? ==> queue.jobs == old(queue.jobs)[r.value := NewJobRow(r.value, Modifier, ExpireModifier(modifier_id, user_id), Normal, expires_at)]
    {
      r := queue.Enqueue(Modifier, ExpireModifier(modifier_id, user_id), Normal, expires_at, fault);
    }

    /** `schedule_resource_recalculation`: a High-priority job due now. */
    method ScheduleResourceRecalculation(user_id: nat, resource_types: seq<ResourceType>, now: int, fault: Option<string>)
      returns (r: Result<nat, string>)
      requires queue.Valid()
      modifies queue
      ensures queue.Valid()
      ensures fault.Some? ==> r == Err(fault.value) && queue.jobs == old(queue.jobs)
      ensures fault.None? ==> r.Ok? && r.value !in old(queue.jobs)
      ensures fault.None? ==> queue.jobs == old(queue.jobs)[r.value := NewJobRow(r.value, Modifier, RecalculateResources(user_id, resource_types), High, now)]
    {
      r := queue.Enqueue(Modifier, RecalculateResources(user_id, resource_types), High, now, fault);
    }

    /** `schedule_cache_update`: a Low-priority job at the given run time. */
    method ScheduleCacheUpdate(user_id: nat, run_at: int, fault: Option<string>)
      returns (r: Result<nat, string>)
      requires queue.Valid()
      modifies queue
      ensures queue.Valid()
      ensures fault.Some? ==> r == Err(fault.value) && queue.jobs == old(queue.jobs)
      ensures fault.None? ==> r.Ok? && r.value !in old(queue.jobs)
      ensures fault.None? ==> queue.jobs == old(queue.jobs)[r.value := NewJobRow(r.value, Modifier, UpdateModifierCache(user_id), Low, run_at)]
    {
      r := queue.Enqueue(Modifier, UpdateModifierCache(user_id), Low, run_at, fault);
    }

    /**
     * `schedule_batch_cache_update`: one cache-update job per user, in input
     * order, returning the keys in that order. The first failing enqueue ends
     * the batch with its error; the jobs enqueued before it stay in the table.
     * `faults[i]` is the outcome of the i-th insert.
     */
    method ScheduleBatchCacheUpdate(users: seq<nat>, run_at: int, faults: seq<Option<string>>)
      returns (r: Result<seq<nat>, string>)
      requires |faults| == |users|
      requires queue.Valid()
      modifies queue
      ensures queue.Valid()
      ensures r.Ok? <==> FirstFault(faults) == |users|
      ensures r.Ok? ==> |r.value| == |users| && queue.jobs == Extend(old(queue.jobs), r.value, users, run_at)
      ensures r.Ok? ==> FreshDistinct(r.value, old(queue.jobs))
      ensures r.Err? ==> r.error == faults[FirstFault(faults)].value
      ensures r.Err? ==> exists ids :: |ids| == FirstFault(faults) && FreshDistinct(ids, old(queue.jobs)) &&
                                       queue.jobs == Extend(old(queue.jobs), ids, users[..|ids|], run_at)
    {
      var ids: seq<nat> := [];
      var i := 0;
      while i < |users|
        invariant 0 <= i <= |users| && |ids| == i
        invariant forall j :: 0 <= j < i ==> faults[j].None?
        invariant queue.Valid()
        invariant queue.jobs == Extend(old(queue.jobs), ids, users[..i], run_at)
        invariant FreshDistinct(ids, old(queue.jobs))
        invariant forall k :: k in old(queue.jobs) ==> k in queue.jobs
        invariant forall j :: 0 <= j < |ids| ==> ids[j] in queue.jobs
      {
        var res := ScheduleCacheUpdate(users[i], run_at, faults[i]);
        if res.Err? {
          FirstFaultAt(faults, i);
          return Err(res.error);
        }
        assert (ids + [res.value])[..i] == ids;
        assert users[..i + 1][..i] == users[..i];
        ids := ids + [res.value];
        i := i + 1;
      }
      assert users[..i] == users;
      FirstFaultNone(faults);
      r := Ok(ids);
    }
  }

  /**
   * With fresh, distinct keys a batch overwrites nothing: every earlier job
   * is still there, and key `ids[i]` holds the cache-update job for `users[i]`.
   */
  lemma {:induction false} ExtendWithFreshKeys(jobs: map<nat, Job>, ids: seq<nat>, users: seq<nat>, run_at: int)
    requires |ids| == |users| && FreshDistinct(ids, jobs)
    ensures forall k :: k in jobs ==> k in Extend(jobs, ids, users, run_at) && Extend(jobs, ids, users, run_at)[k] == jobs[k]
    ensures forall i :: 0 <= i < |ids| ==>
      ids[i] in Extend(jobs, ids, users, run_at) &&
      Extend(jobs, ids, users, run_at)[ids[i]] == NewJobRow(ids[i], Modifier, UpdateModifierCache(users[i]), Low, run_at)
  {
    if ids != [] {
      var n := |ids| - 1;
      assert FreshDistinct(ids[..n], jobs);
      ExtendWithFreshKeys(jobs, ids[..n], users[..n], run_at);
      forall i | 0 <= i < n
        ensures ids[i] != ids[n] && ids[..n][i] == ids[i] && users[..n][i] == users[i]
      {
      }
    }
  }

  lemma {:induction false} FirstFaultAt(faults: seq<Option<string>>, i: nat)
    requires i < |faults| && faults[i].Some?
    requires forall j :: 0 <= j < i ==> faults[j].None?
    ensures FirstFault(faults) == i
  {
    if i > 0 {
      FirstFaultAt(faults[1..], i - 1);
    }
  }

  lemma {:induction false} FirstFaultNone(faults: seq<Option<string>>)
    requires forall j :: 0 <= j < |faults| ==> faults[j].None?
    ensures FirstFault(faults) == |faults|
  {
    if faults != [] {
      FirstFaultNone(faults[1..]);
    }
  }
}
