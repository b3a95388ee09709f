/** Database spelling of a resource type. */
module ResourceTypeCodec {
  import opened Wrappers

  /** The decoder's message; the offending text is quoted back. */
  function UnrecognizedVariant(s: string): string
  {
    "Unrecognized enum variant: " + s
  }

  /** The five resources a player holds or produces. */
  datatype ResourceType = Population | Food | Wood | Stone | Gold

  /** The text `to_sql` writes for each ResourceType. */
  function ResourceTypeToSql(v: ResourceType): string
  {
    match v
    case Population => "population"
    case Food => "food"
    case Wood => "wood"
    case Stone => "stone"
    case Gold => "gold"
  }

  /** `from_sql`: exactly the 5 spellings decode, each to the variant that writes it; anything else is an error. */
  function ResourceTypeFromSql(s: string): (r: Result<ResourceType, string>)
    ensures r.Ok? <==> s in {"population", "food", "wood", "stone", "gold"}
    ensures r.Ok? ==> ResourceTypeToSql(r.value) == s
    ensures r.Err? ==> r.error == UnrecognizedVariant(s)
  {
    if s == "population" then Ok(Population)
    else if s == "food" then Ok(Food)
    else if s == "wood" then Ok(Wood)
    else if s == "stone" then Ok(Stone)
    else if s == "gold" then Ok(Gold)
    else Err(UnrecognizedVariant(s))
  }

  lemma ResourceTypeRoundTrip(v: ResourceType)
    ensures ResourceTypeFromSql(ResourceTypeToSql(v)) == Ok(v)
  {
    match v
    case Population =>
    case Food =>
    case Wood =>
    case Stone =>
    case Gold =>
  }

  /** No two variants share a spelling. */
  lemma ResourceTypeSpellingsDistinct(a: ResourceType, b: ResourceType)
    ensures ResourceTypeToSql(a) == ResourceTypeToSql(b) ==> a == b
  {
    ResourceTypeRoundTrip(a);
    ResourceTypeRoundTrip(b);
  }
}
