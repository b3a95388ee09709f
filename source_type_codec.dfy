/** Database spelling of where an active modifier comes from. */
module SourceTypeCodec {
  import opened Wrappers

  /** The decoder's message; the offending text is quoted back. */
  function UnrecognizedVariant(s: string): string
  {
    "Unrecognized enum variant: " + s
  }

  /** The origin of an active modifier. */
  datatype ModifierSourceType = Faction | Item | Skill | Research | Event

  /** The text `to_sql` writes for each ModifierSourceType. */
  function ModifierSourceTypeToSql(v: ModifierSourceType): string
  {
    match v
    case Faction => "faction"
    case Item => "item"
    case Skill => "skill"
    case Research => "research"
    case Event => "event"
  }

  /** `from_sql`: exactly the 5 spellings decode, each to the variant that writes it; anything else is an error. */
  function ModifierSourceTypeFromSql(s: string): (r: Result<ModifierSourceType, string>)
    ensures r.Ok? <==> s in {"faction", "item", "skill", "research", "event"}
    ensures r.Ok? ==> ModifierSourceTypeToSql(r.value) == s
    ensures r.Err? ==> r.error == UnrecognizedVariant(s)
  {
    if s == "faction" then Ok(Faction)
    else if s == "item" then Ok(Item)
    else if s == "skill" then Ok(Skill)
    else if s == "research" then Ok(Research)
    else if s == "event" then Ok(Event)
    else Err(UnrecognizedVariant(s))
  }

  lemma ModifierSourceTypeRoundTrip(v: ModifierSourceType)
    ensures ModifierSourceTypeFromSql(ModifierSourceTypeToSql(v)) == Ok(v)
  {
    match v
    case Faction =>
    case Item =>
    case Skill =>
    case Research =>
    case Event =>
  }

  /** No two variants share a spelling. */
  lemma ModifierSourceTypeSpellingsDistinct(a: ModifierSourceType, b: ModifierSourceType)
    ensures ModifierSourceTypeToSql(a) == ModifierSourceTypeToSql(b) ==> a == b
  {
    ModifierSourceTypeRoundTrip(a);
    ModifierSourceTypeRoundTrip(b);
  }

  /** The `Display` text of a ModifierSourceType: the variant's own name. */
  function ModifierSourceTypeDisplay(v: ModifierSourceType): string
  {
    match v
    case Faction => "Faction"
    case Item => "Item"
    case Skill => "Skill"
    case Research => "Research"
    case Event => "Event"
  }
}
