/**
 * The training queue table: one row per batch of units being trained, with
 * its status, completion time and the key of the job that will complete it.
 */
module TrainingQueue {
  import opened Wrappers
  import opened DbErrors
  import opened TrainingStatusCodec

  datatype TrainingQueueEntry = TrainingQueueEntry(
    id: nat,
    player_id: nat,
    building_id: nat,
    unit_id: nat,
    quantity: int,
    started_at: int,
    completed_at: Option<int>,
    status: TrainingStatus,
    job_id: Option<nat>)

  /** Pending and InProgress entries occupy a queue slot; Completed and Cancelled ones do not. */
  predicate Active(e: TrainingQueueEntry)
  {
    e.status == Pending || e.status == InProgress
  }

  /** The keys of the building's active entries. */
  function ActiveIds(rows: map<nat, TrainingQueueEntry>, building: nat): (ids: set<nat>)
    ensures forall k :: k in ids <==> k in rows && rows[k].building_id == building && Active(rows[k])
  {
    set k | k in rows && rows[k].building_id == building && Active(rows[k])
  }

  /** The entry after `complete`: Completed, finished at `now`. */
  function MarkCompleted(e: TrainingQueueEntry, now: int): (c: TrainingQueueEntry)
    ensures c.status == Completed && c.completed_at == Some(now)
    ensures c.(status := e.status, completed_at := e.completed_at) == e
  {
    e.(status := Completed, completed_at := Some(now))
  }

  /** The entry after `cancel`: Cancelled, with no completion time recorded. */
  function MarkCancelled(e: TrainingQueueEntry): (c: TrainingQueueEntry)
    ensures c.status == Cancelled && c.completed_at == e.completed_at
    ensures c.(status := e.status) == e
  {
    e.(status := Cancelled)
  }

  /** Completing or cancelling an entry frees its slot. */
  lemma FinishingFreesSlot(rows: map<nat, TrainingQueueEntry>, k: nat, now: int)
    requires k in rows && Active(rows[k])
    ensures ActiveIds(rows[k := MarkCompleted(rows[k], now)], rows[k].building_id) == ActiveIds(rows, rows[k].building_id) - {k}
    ensures ActiveIds(rows[k := MarkCancelled(rows[k])], rows[k].building_id) == ActiveIds(rows, rows[k].building_id) - {k}
  {
  }

  /** A new active entry takes one more slot of its building and none of another. */
  lemma InsertTakesSlot(rows: map<nat, TrainingQueueEntry>, e: TrainingQueueEntry, building: nat)
    requires e.id !in rows && Active(e)
    ensures building == e.building_id ==> ActiveIds(rows[e.id := e], building) == ActiveIds(rows, building) + {e.id}
    ensures building != e.building_id ==> ActiveIds(rows[e.id := e], building) == ActiveIds(rows, building)
  {
  }

  class TrainingQueueTable {
    var rows: map<nat, TrainingQueueEntry>
    var nextId: nat

    ghost predicate Valid()
      reads this
    {
      forall k :: k in rows ==> k < nextId && rows[k].id == k
    }

    constructor()
      ensures Valid() && rows == map[]
    {
      rows := map[];
      nextId := 0;
    }

    /** `create`: inserts the entry under a fresh key, started at `now`, not completed. */
    method Create(player: nat, building: nat, unit: nat, quantity: int, status: TrainingStatus, job: Option<nat>, now: int)
      returns (e: TrainingQueueEntry)
      requires Valid()
      modifies this
      ensures Valid()
      ensures e.id !in old(rows) && rows == old(rows)[e.id := e]
      ensures e == TrainingQueueEntry(e.id, player, building, unit, quantity, now, None, status, job)
    {
      e := TrainingQueueEntry(nextId, player, building, unit, quantity, now, None, status, job);
      rows := rows[nextId := e];
      nextId := nextId + 1;
    }

    /** `get_by_id`. */
    method GetById(id: nat) returns (r: Result<TrainingQueueEntry, DbError>)
      ensures id in rows ==> r == Ok(rows[id])
      ensures id !in rows ==> r == Err(NotFound)
    {
      if id !in rows {
        return Err(NotFound);
      }
      r := Ok(rows[id]);
    }

    /** `get_by_job_id`: an entry linked to the job, or NotFound when none is. */
    method GetByJobId(job: nat) returns (r: Result<TrainingQueueEntry, DbError>)
      requires Valid()
      ensures r.Ok? ==> r.value.id in rows && rows[r.value.id] == r.value && r.value.job_id == Some(job)
      ensures r.Err? <==> forall k :: k in rows ==> rows[k].job_id != Some(job)
      ensures r.Err? ==> r.error == NotFound
    {
      var remaining := rows.Keys;
      while remaining != {}
        invariant remaining <= rows.Keys
        invariant forall k :: k in rows && k !in remaining ==> rows[k].job_id != Some(job)
        decreases |remaining|
      {
        var k :| k in remaining;
        if rows[k].job_id == Some(job) {
          return Ok(rows[k]);
        }
        remaining := remaining - {k};
      }
      r := Err(NotFound);
    }

    /** `get_active_count_for_building`: how many of the building's entries are active. */
    method GetActiveCountForBuilding(building: nat) returns (count: nat)
      ensures count == |ActiveIds(rows, building)|
    {
      count := |ActiveIds(rows, building)|;
    }

    /** `complete`: the entry becomes Completed at `now`; an unknown key is NotFound. */
    method Complete(id: nat, now: int) returns (r: Result<TrainingQueueEntry, DbError>)
      requires Valid()
      modifies this
      ensures Valid()
      ensures id !in old(rows) ==> r == Err(NotFound) && rows == old(rows)
      ensures id in old(rows) ==> rows == old(rows)[id := MarkCompleted(old(rows)[id], now)] && r == Ok(rows[id])
    {
      if id !in rows {
        return Err(NotFound);
      }
      rows := rows[id := MarkCompleted(rows[id], now)];
      r := Ok(rows[id]);
    }

    /** `cancel`: the entry becomes Cancelled; returns how many rows changed (0 or 1). */
    method Cancel(id: nat) returns (count: nat)
      requires Valid()
      modifies this
      ensures Valid()
      ensures count == (if id in old(rows) then 1 else 0)
      ensures rows == if id in old(rows) then old(rows)[id := MarkCancelled(old(rows)[id])] else old(rows)
    {
      if id !in rows {
        return 0;
      }
      rows := rows[id := MarkCancelled(rows[id])];
      count := 1;
    }

    /** `set_job_id`: links the job to the entry and changes nothing else. */
    method SetJobId(id: nat, job: nat) returns (r: Result<TrainingQueueEntry, DbError>)
      requires Valid()
      modifies this
      ensures Valid()
      ensures id !in old(rows) ==> r == Err(NotFound) && rows == old(rows)
      ensures id in old(rows) ==> rows == old(rows)[id := old(rows)[id].(job_id := Some(job))] && r == Ok(rows[id])
    {
      if id !in rows {
        return Err(NotFound);
      }
      rows := rows[id := rows[id].(job_id := Some(job))];
      r := Ok(rows[id]);
    }
  }
}
