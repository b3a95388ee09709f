/** The older generation of the modifier enums, whose decoder reports no offending value. */
module LegacyModifierCodecs {
  import opened Wrappers

  /** The decoder's message, which does not quote the offending text. */
  const UnrecognizedVariant: string := "Unrecognized enum variant"

  /** How a modifier's magnitude is meant to be read. */
  datatype ModifierType = Percentage | Flat | Multiplier

  /** The text `to_sql` writes for each ModifierType. */
  function ModifierTypeToSql(v: ModifierType): string
  {
    match v
    case Percentage => "percentage"
    case Flat => "flat"
    case Multiplier => "multiplier"
  }

  /** `from_sql`: exactly the 3 spellings decode, each to the variant that writes it; anything else is an error. */
  function ModifierTypeFromSql(s: string): (r: Result<ModifierType, string>)
    ensures r.Ok? <==> s in {"percentage", "flat", "multiplier"}
    ensures r.Ok? ==> ModifierTypeToSql(r.value) == s
    ensures r.Err? ==> r.error == UnrecognizedVariant
  {
    if s == "percentage" then Ok(Percentage)
    else if s == "flat" then Ok(Flat)
    else if s == "multiplier" then Ok(Multiplier)
    else Err(UnrecognizedVariant)
  }

  lemma ModifierTypeRoundTrip(v: ModifierType)
    ensures ModifierTypeFromSql(ModifierTypeToSql(v)) == Ok(v)
  {
    match v
    case Percentage =>
    case Flat =>
    case Multiplier =>
  }

  /** No two variants share a spelling. */
  lemma ModifierTypeSpellingsDistinct(a: ModifierType, b: ModifierType)
    ensures ModifierTypeToSql(a) == ModifierTypeToSql(b) ==> a == b
  {
    ModifierTypeRoundTrip(a);
    ModifierTypeRoundTrip(b);
  }

  /** The game system a modifier applies to. */
  datatype ModTargetType = Resource | Combat | Training | Research

  /** The text `to_sql` writes for each ModTargetType. */
  function ModTargetTypeToSql(v: ModTargetType): string
  {
    match v
    case Resource => "resource"
    case Combat => "combat"
    case Training => "training"
    case Research => "research"
  }

  /** `from_sql`: exactly the 4 spellings decode, each to the variant that writes it; anything else is an error. */
  function ModTargetTypeFromSql(s: string): (r: Result<ModTargetType, string>)
    ensures r.Ok? <==> s in {"resource", "combat", "training", "research"}
    ensures r.Ok? ==> ModTargetTypeToSql(r.value) == s
    ensures r.Err? ==> r.error == UnrecognizedVariant
  {
    if s == "resource" then Ok(Resource)
    else if s == "combat" then Ok(Combat)
    else if s == "training" then Ok(Training)
    else if s == "research" then Ok(Research)
    else Err(UnrecognizedVariant)
  }

  lemma ModTargetTypeRoundTrip(v: ModTargetType)
    ensures ModTargetTypeFromSql(ModTargetTypeToSql(v)) == Ok(v)
  {
    match v
    case Resource =>
    case Combat =>
    case Training =>
    case Research =>
  }

  /** No two variants share a spelling. */
  lemma ModTargetTypeSpellingsDistinct(a: ModTargetType, b: ModTargetType)
    ensures ModTargetTypeToSql(a) == ModTargetTypeToSql(b) ==> a == b
  {
    ModTargetTypeRoundTrip(a);
    ModTargetTypeRoundTrip(b);
  }
}
