/** Database spelling of a modifier-history action; the decoder reports no offending value. */
module ActionTypeCodec {
  import opened Wrappers

  /** The decoder's message, which does not quote the offending text. */
  const UnrecognizedVariant: string := "Unrecognized enum variant"

  /** What happened to a modifier in its history log. */
  datatype ModifierActionType = Applied | Expired | Removed | Updated

  /** The text `to_sql` writes for each ModifierActionType. */
  function ModifierActionTypeToSql(v: ModifierActionType): string
  {
    match v
    case Applied => "applied"
    case Expired => "expired"
    case Removed => "removed"
    case Updated => "updated"
  }

  /** `from_sql`: exactly the 4 spellings decode, each to the variant that writes it; anything else is an error. */
  function ModifierActionTypeFromSql(s: string): (r: Result<ModifierActionType, string>)
    ensures r.Ok? <==> s in {"applied", "expired", "removed", "updated"}
    ensures r.Ok? ==> ModifierActionTypeToSql(r.value) == s
    ensures r.Err? ==> r.error == UnrecognizedVariant
  {
    if s == "applied" then Ok(Applied)
    else if s == "expired" then Ok(Expired)
    else if s == "removed" then Ok(Removed)
    else if s == "updated" then Ok(Updated)
    else Err(UnrecognizedVariant)
  }

  lemma ModifierActionTypeRoundTrip(v: ModifierActionType)
    ensures ModifierActionTypeFromSql(ModifierActionTypeToSql(v)) == Ok(v)
  {
    match v
    case Applied =>
    case Expired =>
    case Removed =>
    case Updated =>
  }

  /** No two variants share a spelling. */
  lemma ModifierActionTypeSpellingsDistinct(a: ModifierActionType, b: ModifierActionType)
    ensures ModifierActionTypeToSql(a) == ModifierActionTypeToSql(b) ==> a == b
  {
    ModifierActionTypeRoundTrip(a);
    ModifierActionTypeRoundTrip(b);
  }
}
