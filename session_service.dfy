/**
 * Session life cycle: a session is created for 30 days under the hash of its
 * token; validating it fails when it is missing, deletes it when it has
 * expired, extends it when fewer than 15 days remain, and otherwise leaves
 * it as it is.
 */
module SessionService {
  import opened Wrappers
  import opened DbErrors
  import opened Players
  import opened PlayerSessions

  /** A session with fewer than 15 days left is extended when validated. */
  const RefreshWindow: int := 15 * Day

  const NoSessionMessage := "No session found for the provided token."
  const ExpiredMessage := "The provided session has expired."

  datatype Error =
    | NoSession(message: string)
    | SessionExpired(message: string)

  /** Where a session stands at time `now`. */
  datatype Standing = Expired | NearExpiry | Fresh

  function StandingAt(expires_at: int, now: int): (s: Standing)
    ensures s == Expired <==> expires_at <= now
    ensures s == NearExpiry <==> now < expires_at < now + RefreshWindow
    ensures s == Fresh <==> expires_at >= now + RefreshWindow
  {
    if expires_at <= now then Expired
    else if expires_at - RefreshWindow < now then NearExpiry
    else Fresh
  }

  /**
   * A session created (or refreshed) at `created` is fresh for its first 15
   * days, due for refresh until day 30, and expired from then on.
   */
  lemma NewSessionStanding(created: int, t: int)
    ensures t <= created + RefreshWindow ==> StandingAt(created + SessionLifetime, t) == Fresh
    ensures created + RefreshWindow < t < created + SessionLifetime ==> StandingAt(created + SessionLifetime, t) == NearExpiry
    ensures t >= created + SessionLifetime ==> StandingAt(created + SessionLifetime, t) == Expired
  {
  }

  /** Every session validation hands back has at least 15 days left. */
  lemma ValidatedHasFifteenDays(expires_at: int, now: int)
    requires StandingAt(expires_at, now) != Expired
    ensures var e := if StandingAt(expires_at, now) == NearExpiry then now + SessionLifetime else expires_at;
            e >= now + RefreshWindow && StandingAt(e, now) == Fresh
  {
  }

  /**
   * `create_session`: stores the session under `encode(token)`, owned by
   * `player`, expiring 30 days after `now`. `encode` stands for the token
   * hash.
   */
  method CreateSession(table: SessionTable, token: string, player: nat, now: int, encode: string -> string)
    returns (r: Result<PlayerSession, DbError>)
    requires table.Valid()
    modifies table
    ensures table.Valid()
    ensures encode(token) in old(table.sessions) ==> r == Err(UniqueViolation) && table.sessions == old(table.sessions)
    ensures encode(token) !in old(table.sessions) ==>
      r == Ok(PlayerSession(encode(token), player, now + SessionLifetime)) &&
      table.sessions == old(table.sessions)[encode(token) := r.value]
  {
    var id := encode(token);
    r := table.Create(PlayerSession(id, player, now + SessionLifetime));
  }

  /**
   * `validate_session_token`, all at one instant `now`. An unknown token
   * changes nothing; an expired session is deleted; a session close to
   * expiry is extended and the extended row returned.
   */
  method ValidateSessionToken(table: SessionTable, players: map<nat, Player>, token: string, now: int, encode: string -> string)
    returns (r: Result<(PlayerSession, Player), Error>)
    requires table.Valid()
    modifies table
    ensures table.Valid()
    ensures var key := encode(token);
      !(key in old(table.sessions) && old(table.sessions)[key].player_id in players) ==>
        r == Err(NoSession(NoSessionMessage)) && table.sessions == old(table.sessions)
    ensures var key := encode(token);
      key in old(table.sessions) && old(table.sessions)[key].player_id in players ==>
        var s := old(table.sessions)[key];
        var owner := players[s.player_id];
        match StandingAt(s.expires_at, now)
        case Expired =>
          r == Err(SessionExpired(ExpiredMessage)) && table.sessions == old(table.sessions) - {key}
        case NearExpiry =>
          table.sessions == old(table.sessions)[key := s.(expires_at := now + SessionLifetime)] &&
          r == Ok((s.(expires_at := now + SessionLifetime), owner))
        case Fresh =>
          r == Ok((s, owner)) && table.sessions == old(table.sessions)
  {
    var key := encode(token);
    var found := table.FindById(key, players);
    if found.None? {
      return Err(NoSession(NoSessionMessage));
    }
    var (session, player) := found.value;
    if session.expires_at <= now {
      var _ := table.Delete(session.id);
      return Err(SessionExpired(ExpiredMessage));
    }
    if session.expires_at - RefreshWindow < now {
      var refreshed := table.RefreshToken(session.id, now);
      return Ok((refreshed.value, player));
    }
    r := Ok((session, player));
  }

  /** `invalidate_session`: deletes the session if there is one; a missing key is not an error. */
  method InvalidateSession(table: SessionTable, key: string)
    requires table.Valid()
    modifies table
    ensures table.Valid()
    ensures table.sessions == old(table.sessions) - {key}
  {
    var _ := table.Delete(key);
  }

  /** `invalidate_all_sessions`: the player's sessions go and every other session stays. */
  method InvalidateAllSessions(table: SessionTable, player: nat)
    requires table.Valid()
    modifies table
    ensures table.Valid()
    ensures table.sessions == WithoutPlayer(old(table.sessions), player)
  {
    var _ := table.DeleteByPlayer(player);
  }

  /** After all of a player's sessions are invalidated, none of their tokens finds a session. */
  lemma InvalidatedTokensFindNothing(sessions: map<string, PlayerSession>, player: nat, key: string)
    requires key in sessions && sessions[key].player_id == player
    ensures key !in WithoutPlayer(sessions, player)
    ensures SessionsOf(WithoutPlayer(sessions, player), player) == {}
  {
  }
}
