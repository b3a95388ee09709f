/** Database spelling of a unit's class. */
module UnitTypeCodec {
  import opened Wrappers

  /** The decoder's message; the offending text is quoted back. */
  function UnrecognizedVariant(s: string): string
  {
    "Unrecognized enum variant: " + s
  }

  /** The class of a trainable unit. */
  datatype UnitType = Infantry | Ranged | Cavalry | Artillery | Magical

  /** The text `to_sql` writes for each UnitType. */
  function UnitTypeToSql(v: UnitType): string
  {
    match v
    case Infantry => "infantry"
    case Ranged => "ranged"
    case Cavalry => "cavalry"
    case Artillery => "artillery"
    case Magical => "magical"
  }

  /** `from_sql`: exactly the 5 spellings decode, each to the variant that writes it; anything else is an error. */
  function UnitTypeFromSql(s: string): (r: Result<UnitType, string>)
    ensures r.Ok? <==> s in {"infantry", "ranged", "cavalry", "artillery", "magical"}
    ensures r.Ok? ==> UnitTypeToSql(r.value) == s
    ensures r.Err? ==> r.error == UnrecognizedVariant(s)
  {
    if s == "infantry" then Ok(Infantry)
    else if s == "ranged" then Ok(Ranged)
    else if s == "cavalry" then Ok(Cavalry)
    else if s == "artillery" then Ok(Artillery)
    else if s == "magical" then Ok(Magical)
    else Err(UnrecognizedVariant(s))
  }

  lemma UnitTypeRoundTrip(v: UnitType)
    ensures UnitTypeFromSql(UnitTypeToSql(v)) == Ok(v)
  {
    match v
    case Infantry =>
    case Ranged =>
    case Cavalry =>
    case Artillery =>
    case Magical =>
  }

  /** No two variants share a spelling. */
  lemma UnitTypeSpellingsDistinct(a: UnitType, b: UnitType)
    ensures UnitTypeToSql(a) == UnitTypeToSql(b) ==> a == b
  {
    UnitTypeRoundTrip(a);
    UnitTypeRoundTrip(b);
  }
}
