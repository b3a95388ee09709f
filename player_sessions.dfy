/**
 * The session table: one row per hashed session token, owned by a player and
 * valid until its expiry time.
 */
module PlayerSessions {
  import opened Wrappers
  import opened DbErrors
  import opened Players

  const Day: int := 86400
  /** A new or refreshed session lasts 30 days. */
  const SessionLifetime: int := 30 * Day

  /** A session row; the key is the hashed token. */
  datatype PlayerSession = PlayerSession(id: string, player_id: nat, expires_at: int)

  /** The keys of the sessions a player owns. */
  function SessionsOf(sessions: map<string, PlayerSession>, player: nat): (ks: set<string>)
    ensures forall k :: k in ks <==> k in sessions && sessions[k].player_id == player
  {
    set k | k in sessions && sessions[k].player_id == player
  }

  /** The table without the player's sessions. */
  function WithoutPlayer(sessions: map<string, PlayerSession>, player: nat): (r: map<string, PlayerSession>)
    ensures forall k :: k in r <==> k in sessions && sessions[k].player_id != player
    ensures forall k :: k in r ==> r[k] == sessions[k]
  {
    map k | k in sessions && sessions[k].player_id != player :: sessions[k]
  }

  /** Removing a player's sessions removes exactly as many rows as the player owned. */
  lemma WithoutPlayerCount(sessions: map<string, PlayerSession>, player: nat)
    ensures |WithoutPlayer(sessions, player)| == |sessions| - |SessionsOf(sessions, player)|
  {
    var kept := WithoutPlayer(sessions, player).Keys;
    var gone := SessionsOf(sessions, player);
    assert sessions.Keys == kept + gone;
    assert kept * gone == {};
  }

  class SessionTable {
    var sessions: map<string, PlayerSession>

    ghost predicate Valid()
      reads this
    {
      forall k :: k in sessions ==> sessions[k].id == k
    }

    constructor()
      ensures Valid() && sessions == map[]
    {
      sessions := map[];
    }

    /**
     * `find_by_id`: the session joined with its owner; None when there is
     * no such session or its owner is not in `players`.
     */
    method FindById(key: string, players: map<nat, Player>) returns (r: Option<(PlayerSession, Player)>)
      ensures r.Some? <==> key in sessions && sessions[key].player_id in players
      ensures r.Some? ==> r.value == (sessions[key], players[sessions[key].player_id])
    {
      if key !in sessions || sessions[key].player_id !in players {
        return None;
      }
      var s := sessions[key];
      r := Some((s, players[s.player_id]));
    }

    /** `create`: inserts the session; a key already present is a unique violation. */
    method Create(s: PlayerSession) returns (r: Result<PlayerSession, DbError>)
      requires Valid()
      modifies this
      ensures Valid()
      ensures s.id in old(sessions) ==> r == Err(UniqueViolation) && sessions == old(sessions)
      ensures s.id !in old(sessions) ==> r == Ok(s) && sessions == old(sessions)[s.id := s]
    {
      if s.id in sessions {
        return Err(UniqueViolation);
      }
      sessions := sessions[s.id := s];
      r := Ok(s);
    }

    /** `delete`: removes the keyed session and returns how many went (0 or 1). */
    method Delete(key: string) returns (count: nat)
      requires Valid()
      modifies this
      ensures Valid()
      ensures sessions == old(sessions) - {key}
      ensures count == (if key in old(sessions) then 1 else 0)
    {
      count := if key in sessions then 1 else 0;
      sessions := sessions - {key};
    }

    /** `delete_by_player`: removes all and only the player's sessions and returns how many. */
    method DeleteByPlayer(player: nat) returns (count: nat)
      requires Valid()
      modifies this
      ensures Valid()
      ensures sessions == WithoutPlayer(old(sessions), player)
      ensures count == |SessionsOf(old(sessions), player)|
    {
      count := |SessionsOf(sessions, player)|;
      sessions := WithoutPlayer(sessions, player);
    }

    /** `refresh_token`: the session's expiry becomes now + 30 days; nothing else changes. */
    method RefreshToken(key: string, now: int) returns (r: Result<PlayerSession, DbError>)
      requires Valid()
      modifies this
      ensures Valid()
      ensures key !in old(sessions) ==> r == Err(NotFound) && sessions == old(sessions)
      ensures key in old(sessions) ==>
        sessions == old(sessions)[key := old(sessions)[key].(expires_at := now + SessionLifetime)] &&
        r == Ok(sessions[key])
    {
      if key !in sessions {
        return Err(NotFound);
      }
      sessions := sessions[key := sessions[key].(expires_at := now + SessionLifetime)];
      r := Ok(sessions[key]);
    }
  }
}
