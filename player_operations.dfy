/**
 * Player updates: the payload is validated field by field into a changeset,
 * the row is updated, and a player who leaves the Neutral faction gets their
 * first production run scheduled.
 */
module PlayerOperations {
  import opened Wrappers
  import opened FactionCodec
  import opened LegacyJobCodecs
  import opened JobQueue
  import opened ResourceScheduler
  import UserNames
  import opened Players

  /** `UpdateUserPayload`: every field optional. */
  datatype UpdatePayload = UpdatePayload(
    username: Option<string>,
    password: Option<string>,
    email: Option<string>,
    faction: Option<FactionCode>)

  /** Why a payload did not convert. */
  datatype ConversionError =
    | BadName(name: UserNames.Error)
    | BadEmail(message: string)
    | Internal(description: string)

  const HashFailed := "Failed to hash password"

  /** The HTTP outcome of a failed update. */
  datatype Status = BadRequest | NotFound | InternalServerError

  /**
   * `TryFrom<UpdateUserId> for UpdatePlayer`. Each present field is checked
   * in turn (name, then email, then password) and the first failure is the
   * result. `graphemes` is the grapheme count of the user name;
   * `parseEmail` and `hash` stand for `UserEmail::parse` and
   * `hash_password`, which are not part of this model.
   */
  function TryFrom(id: nat, p: UpdatePayload, graphemes: nat,
                   parseEmail: string -> Result<string, string>,
                   hash: string -> Option<string>): (r: Result<UpdatePlayer, ConversionError>)
    ensures p.username.Some? && UserNames.Parse(p.username.value, graphemes).Err? ==>
      r == Err(BadName(UserNames.Parse(p.username.value, graphemes).error))
    ensures r.Ok? <==>
      (p.username.None? || UserNames.Parse(p.username.value, graphemes).Ok?) &&
      (p.email.None? || parseEmail(p.email.value).Ok?) &&
      (p.password.None? || hash(p.password.value).Some?)
    ensures r.Err? && r.error == Internal(HashFailed) ==> p.password.Some? && hash(p.password.value).None?
    ensures r.Ok? ==> r.value.id == id && r.value.faction == p.faction
    ensures r.Ok? ==> (r.value.name.Some? <==> p.username.Some?) &&
                      (r.value.name.Some? ==> UserNames.AsRef(r.value.name.value) == p.username.value)
    ensures r.Ok? ==> (r.value.email.Some? <==> p.email.Some?) &&
                      (r.value.email.Some? ==> r.value.email == Some(parseEmail(p.email.value).value))
    ensures r.Ok? ==> (r.value.pwd_hash.Some? <==> p.password.Some?) &&
                      (r.value.pwd_hash.Some? ==> r.value.pwd_hash == hash(p.password.value))
  {
    var name := if p.username.None? then Ok(None) else
      var n := UserNames.Parse(p.username.value, graphemes);
      if n.Err? then Err(BadName(n.error)) else Ok(Some(n.value));
    if name.Err? then Err(name.error) else
    var email := if p.email.None? then Ok(None) else
      var e := parseEmail(p.email.value);
      if e.Err? then Err(BadEmail(e.error)) else Ok(Some(e.value));
    if email.Err? then Err(email.error) else
    var pwd := if p.password.None? then Ok(None) else
      var h := hash(p.password.value);
      if h.None? then Err(Internal(HashFailed)) else Ok(Some(h.value));
    if pwd.Err? then Err(pwd.error) else
    Ok(UpdatePlayer(id, name.value, pwd.value, email.value, p.faction))
  }

  /** `faction_changed`: a faction is given and it differs from the stored one. */
  function FactionChanged(stored: FactionCode, requested: Option<FactionCode>): (b: bool)
    ensures b <==> requested.Some? && requested.value != stored
  {
    requested.Some? && requested != Some(stored)
  }

  /** Production is scheduled when the faction changes and the stored one is Neutral. */
  function SchedulesProduction(stored: FactionCode, requested: Option<FactionCode>): bool
  {
    FactionChanged(stored, requested) && stored == Neutral
  }

  /** Exactly the Neutral players who pick a real faction get production scheduled. */
  lemma SchedulesIffLeavingNeutral(stored: FactionCode, requested: Option<FactionCode>)
    ensures SchedulesProduction(stored, requested) <==>
      stored == Neutral && requested.Some? && requested.value != Neutral
  {
  }

  /** Once a player has left Neutral, no later update schedules production again. */
  lemma NoSecondSchedule(p: Player, cs: UpdatePlayer, later: Option<FactionCode>)
    requires SchedulesProduction(p.faction, cs.faction)
    ensures !SchedulesProduction(Apply(p, cs).faction, later)
  {
  }

  /**
   * What one player update does, from the tables before (`rows`, `jobs`) to
   * the tables after (`rows'`, `jobs'`) and the result `r`: a payload that
   * does not convert is BAD_REQUEST and an unknown player NOT_FOUND, both
   * before anything changes; a failed update (`updateFault`), and an update
   * whose changeset has no field, is INTERNAL_SERVER_ERROR. After the update,
   * a player leaving Neutral gets a production job due `now`; if that enqueue
   * fails (`scheduleFault`) the result is INTERNAL_SERVER_ERROR but the row
   * stays updated, since the two steps share no transaction.
   */
  ghost predicate UpdateEffect(rows: map<nat, Player>, jobs: map<nat, Job>,
                               rows': map<nat, Player>, jobs': map<nat, Job>, r: Result<Player, Status>,
                               id: nat, p: UpdatePayload, graphemes: nat,
                               parseEmail: string -> Result<string, string>, hash: string -> Option<string>,
                               updateFault: bool, now: int, scheduleFault: Option<string>)
  {
    var cs := TryFrom(id, p, graphemes, parseEmail, hash);
    if cs.Err? then r == Err(BadRequest) && rows' == rows && jobs' == jobs
    else if id !in rows then r == Err(NotFound) && rows' == rows && jobs' == jobs
    else if updateFault || NoChanges(cs.value) then r == Err(InternalServerError) && rows' == rows && jobs' == jobs
    else
      rows' == UpdateKeyed(rows, cs.value) &&
      (if !SchedulesProduction(rows[id].faction, p.faction) then r == Ok(rows'[id]) && jobs' == jobs
       else if scheduleFault.Some? then r == Err(InternalServerError) && jobs' == jobs
       else (r == Ok(rows'[id]) &&
             exists k :: k !in jobs && jobs' == jobs[k := NewJobRow(k, JobType.Resource, ProduceResources(id), Normal, now)]))
  }

  /**
   * A job is added only for a Neutral player who picked a real faction, and
   * an update that succeeds returns the stored row with every present field
   * of the payload written over it. A payload with no field at all never
   * succeeds: the database refuses the empty changeset.
   */
  lemma UpdateEffectMeaning(rows: map<nat, Player>, jobs: map<nat, Job>,
                            rows': map<nat, Player>, jobs': map<nat, Job>, r: Result<Player, Status>,
                            id: nat, p: UpdatePayload, graphemes: nat,
                            parseEmail: string -> Result<string, string>, hash: string -> Option<string>,
                            updateFault: bool, now: int, scheduleFault: Option<string>)
    requires UpdateEffect(rows, jobs, rows', jobs', r, id, p, graphemes, parseEmail, hash, updateFault, now, scheduleFault)
    ensures jobs' != jobs ==> id in rows && rows[id].faction == Neutral && p.faction.Some? && p.faction.value != Neutral
    ensures r.Ok? ==> id in rows && r.value == rows'[id] &&
                      r.value.faction == p.faction.UnwrapOr(rows[id].faction) &&
                      (p.username.Some? ==> r.value.name == p.username.value) &&
                      (p.username.None? ==> r.value.name == rows[id].name)
    ensures r.Ok? ==> forall k :: k in rows && k != id ==> k in rows' && rows'[k] == rows[k]
    ensures p == UpdatePayload(None, None, None, None) && id in rows ==>
      r == Err(InternalServerError) && rows' == rows && jobs' == jobs
  {
    var cs := TryFrom(id, p, graphemes, parseEmail, hash);
    if cs.Ok? && id in rows && !updateFault {
      SchedulesIffLeavingNeutral(rows[id].faction, p.faction);
      assert rows'[id] == Apply(rows[id], cs.value);
    }
  }

  class Operations {
    var players: PlayerTable
    var scheduler: ProductionScheduler

    constructor(players: PlayerTable, scheduler: ProductionScheduler)
      ensures this.players == players && this.scheduler == scheduler
    {
      this.players := players;
      this.scheduler := scheduler;
    }

    /** `get_player`: the row, or NOT_FOUND. */
    method GetPlayer(id: nat) returns (r: Result<Player, Status>)
      ensures id in players.rows ==> r == Ok(players.rows[id])
      ensures id !in players.rows ==> r == Err(NotFound)
    {
      var p := players.GetById(id);
      if p.None? {
        return Err(NotFound);
      }
      r := Ok(p.value);
    }

    /**
     * `update_player`. A payload that does not convert is BAD_REQUEST and an
     * unknown player NOT_FOUND, both before anything changes; a failed update
     * (`updateFault`) or an empty changeset is INTERNAL_SERVER_ERROR. After the update, a player
     * leaving Neutral gets a production job due `now`; if that enqueue fails
     * (`scheduleFault`) the result is INTERNAL_SERVER_ERROR but the row stays
     * updated, since the two steps share no transaction.
     */
    method UpdatePlayer(id: nat, p: UpdatePayload, graphemes: nat,
                        parseEmail: string -> Result<string, string>, hash: string -> Option<string>,
                        updateFault: bool, now: int, scheduleFault: Option<string>)
      returns (r: Result<Player, Status>)
      requires players.Valid() && scheduler.queue.Valid()
      modifies players, scheduler.queue
      ensures players.Valid() && scheduler.queue.Valid()
      ensures UpdateEffect(old(players.rows), old(scheduler.queue.jobs), players.rows, scheduler.queue.jobs, r,
                           id, p, graphemes, parseEmail, hash, updateFault, now, scheduleFault)
    {
      var changeset := TryFrom(id, p, graphemes, parseEmail, hash);
      if changeset.Err? {
        return Err(BadRequest);
      }
      var user := players.GetById(id);
      if user.None? {
        return Err(NotFound);
      }
      var updated := players.Update(changeset.value, updateFault);
      if updated.None? {
        return Err(InternalServerError);
      }
      if SchedulesProduction(user.value.faction, changeset.value.faction) {
        var job := scheduler.ScheduleProduction(id, now, scheduleFault);
        if job.Err? {
          return Err(InternalServerError);
        }
      }
      r := Ok(updated.value);
    }
  }
}
