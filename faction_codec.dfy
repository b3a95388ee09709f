/** Database spelling of a faction code; Neutral is the default faction of a new player. */
module FactionCodec {
  import opened Wrappers

  /** The decoder's message; the offending text is quoted back. */
  function UnrecognizedVariant(s: string): string
  {
    "Unrecognized enum variant: " + s
  }

  /** The playable factions, plus Neutral. */
  datatype FactionCode = Neutral | Human | Orc | Elf | Dwarf | Goblin

  /** The text `to_sql` writes for each FactionCode. */
  function FactionCodeToSql(v: FactionCode): string
  {
    match v
    case Neutral => "neutral"
    case Human => "human"
    case Orc => "orc"
    case Elf => "elf"
    case Dwarf => "dwarf"
    case Goblin => "goblin"
  }

  /** `from_sql`: exactly the 6 spellings decode, each to the variant that writes it; anything else is an error. */
  function FactionCodeFromSql(s: string): (r: Result<FactionCode, string>)
    ensures r.Ok? <==> s in {"neutral", "human", "orc", "elf", "dwarf", "goblin"}
    ensures r.Ok? ==> FactionCodeToSql(r.value) == s
    ensures r.Err? ==> r.error == UnrecognizedVariant(s)
  {
    if s == "neutral" then Ok(Neutral)
    else if s == "human" then Ok(Human)
    else if s == "orc" then Ok(Orc)
    else if s == "elf" then Ok(Elf)
    else if s == "dwarf" then Ok(Dwarf)
    else if s == "goblin" then Ok(Goblin)
    else Err(UnrecognizedVariant(s))
  }

  lemma FactionCodeRoundTrip(v: FactionCode)
    ensures FactionCodeFromSql(FactionCodeToSql(v)) == Ok(v)
  {
    match v
    case Neutral =>
    case Human =>
    case Orc =>
    case Elf =>
    case Dwarf =>
    case Goblin =>
  }

  /** No two variants share a spelling. */
  lemma FactionCodeSpellingsDistinct(a: FactionCode, b: FactionCode)
    ensures FactionCodeToSql(a) == FactionCodeToSql(b) ==> a == b
  {
    FactionCodeRoundTrip(a);
    FactionCodeRoundTrip(b);
  }
}
