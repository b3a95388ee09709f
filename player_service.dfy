/**
 * The older player service: the same update rule as the player operations,
 * held in a service object that owns its repository and production
 * scheduler. The payload conversion is the same function.
 */
module PlayerService {
  import opened Wrappers
  import opened ResourceScheduler
  import opened Players
  import opened PlayerOperations

  class Service {
    var repo: PlayerTable
    var prodScheduler: ProductionScheduler

    constructor(repo: PlayerTable, prodScheduler: ProductionScheduler)
      ensures this.repo == repo && this.prodScheduler == prodScheduler
    {
      this.repo := repo;
      this.prodScheduler := prodScheduler;
    }

    /**
     * `update_user`: validate, look up, update, then schedule production for
     * a player leaving Neutral; the outcomes are those of `UpdateEffect`.
     */
    method UpdateUser(id: nat, p: UpdatePayload, graphemes: nat,
                      parseEmail: string -> Result<string, string>, hash: string -> Option<string>,
                      updateFault: bool, now: int, scheduleFault: Option<string>)
      returns (r: Result<Player, Status>)
      requires repo.Valid() && prodScheduler.queue.Valid()
      modifies repo, prodScheduler.queue
      ensures repo.Valid() && prodScheduler.queue.Valid()
      ensures UpdateEffect(old(repo.rows), old(prodScheduler.queue.jobs), repo.rows, prodScheduler.queue.jobs, r,
                           id, p, graphemes, parseEmail, hash, updateFault, now, scheduleFault)
    {
      var changeset := TryFrom(id, p, graphemes, parseEmail, hash);
      if changeset.Err? {
        return Err(BadRequest);
      }
      var user := repo.GetById(id);
      if user.None? {
        return Err(NotFound);
      }
      var updated := repo.Update(changeset.value, updateFault);
      if updated.None? {
        return Err(InternalServerError);
      }
      var factionChanged := FactionChanged(user.value.faction, changeset.value.faction);
      if factionChanged && user.value.faction == FactionCodec.Neutral {
        var job := prodScheduler.ScheduleProduction(id, now, scheduleFault);
        if job.Err? {
          return Err(InternalServerError);
        }
      }
      r := Ok(updated.value);
    }
  }
}
