/** The player profile returned to clients, and the join-faction request. */
module PlayerModels {
  import opened Wrappers
  import opened FactionCodec
  import opened Players
  import opened PlayerOperations

  /** `PlayerProfileResponse`: Neutral is reported as no faction at all. */
  datatype Profile = Profile(
    id: nat,
    username: string,
    email: Option<string>,
    faction: Option<FactionCode>,
    created_at: int,
    updated_at: int)

  /** `From<Player>`: the row's fields copied, with the faction hidden while it is Neutral. */
  function ProfileFrom(p: Player): (r: Profile)
    ensures r.id == p.id && r.username == p.name && r.email == p.email
    ensures r.created_at == p.created_at && r.updated_at == p.updated_at
    ensures r.faction != Some(Neutral)
    ensures r.faction.UnwrapOr(Neutral) == p.faction
  {
    Profile(p.id, p.name, p.email, if p.faction == Neutral then None else Some(p.faction), p.created_at, p.updated_at)
  }

  /** Two rows that differ only in their faction show different profiles. */
  lemma ProfileShowsFaction(p: Player, f: FactionCode)
    requires f != p.faction
    ensures ProfileFrom(p.(faction := f)) != ProfileFrom(p)
  {
    assert ProfileFrom(p.(faction := f)).faction.UnwrapOr(Neutral) == f;
  }

  /** `From<JoinFactionPayload> for UpdateUserPayload`: only the faction is set. */
  function JoinFaction(faction: FactionCode): (r: UpdatePayload)
    ensures r.username.None? && r.password.None? && r.email.None?
    ensures r.faction == Some(faction)
  {
    UpdatePayload(None, None, None, Some(faction))
  }

  /**
   * A join-faction request always converts, changes only the faction, and
   * schedules production exactly when a Neutral player joins a real faction.
   */
  lemma JoinFactionChangesOnlyFaction(p: Player, faction: FactionCode, graphemes: nat,
                                      parseEmail: string -> Result<string, string>, hash: string -> Option<string>)
    ensures TryFrom(p.id, JoinFaction(faction), graphemes, parseEmail, hash).Ok?
    ensures Apply(p, TryFrom(p.id, JoinFaction(faction), graphemes, parseEmail, hash).value) == p.(faction := faction)
    ensures SchedulesProduction(p.faction, JoinFaction(faction).faction) <==> p.faction == Neutral && faction != Neutral
  {
  }
}
