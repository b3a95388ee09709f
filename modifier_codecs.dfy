/** Database spellings of the modifier enums (modifier type, target and stacking behaviour). */
module ModifierCodecs {
  import opened Wrappers

  /** The decoder's message; the offending text is quoted back. */
  function UnrecognizedVariant(s: string): string
  {
    "Unrecognized enum variant: " + s
  }

  /** How a modifier's magnitude is meant to be read. */
  datatype ModifierType = Percentage | Flat | Multiplier

  /** The text `to_sql` writes for each ModifierType. */
  function ModifierTypeToSql(v: ModifierType): string
  {
    match v
    case Percentage => "percentage"
    case Flat => "flat"
    case Multiplier => "multiplier"
  }

  /** `from_sql`: exactly the 3 spellings decode, each to the variant that writes it; anything else is an error. */
  function ModifierTypeFromSql(s: string): (r: Result<ModifierType, string>)
    ensures r.Ok? <==> s in {"percentage", "flat", "multiplier"}
    ensures r.Ok? ==> ModifierTypeToSql(r.value) == s
    ensures r.Err? ==> r.error == UnrecognizedVariant(s)
  {
    if s == "percentage" then Ok(Percentage)
    else if s == "flat" then Ok(Flat)
    else if s == "multiplier" then Ok(Multiplier)
    else Err(UnrecognizedVariant(s))
  }

  lemma ModifierTypeRoundTrip(v: ModifierType)
    ensures ModifierTypeFromSql(ModifierTypeToSql(v)) == Ok(v)
  {
    match v
    case Percentage =>
    case Flat =>
    case Multiplier =>
  }

  /** No two variants share a spelling. */
  lemma ModifierTypeSpellingsDistinct(a: ModifierType, b: ModifierType)
    ensures ModifierTypeToSql(a) == ModifierTypeToSql(b) ==> a == b
  {
    ModifierTypeRoundTrip(a);
    ModifierTypeRoundTrip(b);
  }

  /** The game system a modifier applies to. */
  datatype ModifierTarget = Resource | Combat | Training | Research

  /** The text `to_sql` writes for each ModifierTarget. */
  function ModifierTargetToSql(v: ModifierTarget): string
  {
    match v
    case Resource => "resource"
    case Combat => "combat"
    case Training => "training"
    case Research => "research"
  }

  /** `from_sql`: exactly the 4 spellings decode, each to the variant that writes it; anything else is an error. */
  function ModifierTargetFromSql(s: string): (r: Result<ModifierTarget, string>)
    ensures r.Ok? <==> s in {"resource", "combat", "training", "research"}
    ensures r.Ok? ==> ModifierTargetToSql(r.value) == s
    ensures r.Err? ==> r.error == UnrecognizedVariant(s)
  {
    if s == "resource" then Ok(Resource)
    else if s == "combat" then Ok(Combat)
    else if s == "training" then Ok(Training)
    else if s == "research" then Ok(Research)
    else Err(UnrecognizedVariant(s))
  }

  lemma ModifierTargetRoundTrip(v: ModifierTarget)
    ensures ModifierTargetFromSql(ModifierTargetToSql(v)) == Ok(v)
  {
    match v
    case Resource =>
    case Combat =>
    case Training =>
    case Research =>
  }

  /** No two variants share a spelling. */
  lemma ModifierTargetSpellingsDistinct(a: ModifierTarget, b: ModifierTarget)
    ensures ModifierTargetToSql(a) == ModifierTargetToSql(b) ==> a == b
  {
    ModifierTargetRoundTrip(a);
    ModifierTargetRoundTrip(b);
  }

  /** The `Display` text of a ModifierTarget: the variant's own name. */
  function ModifierTargetDisplay(v: ModifierTarget): string
  {
    match v
    case Resource => "Resource"
    case Combat => "Combat"
    case Training => "Training"
    case Research => "Research"
  }

  /** How modifiers that hit the same target combine. */
  datatype StackingBehaviour = Additive | Multiplicative | HighestOnly

  /** The text `to_sql` writes for each StackingBehaviour. */
  function StackingBehaviourToSql(v: StackingBehaviour): string
  {
    match v
    case Additive => "additive"
    case Multiplicative => "multiplicative"
    case HighestOnly => "highest"
  }

  /** `from_sql`: exactly the 3 spellings decode, each to the variant that writes it; anything else is an error. */
  function StackingBehaviourFromSql(s: string): (r: Result<StackingBehaviour, string>)
    ensures r.Ok? <==> s in {"additive", "multiplicative", "highest"}
    ensures r.Ok? ==> StackingBehaviourToSql(r.value) == s
    ensures r.Err? ==> r.error == UnrecognizedVariant(s)
  {
    if s == "additive" then Ok(Additive)
    else if s == "multiplicative" then Ok(Multiplicative)
    else if s == "highest" then Ok(HighestOnly)
    else Err(UnrecognizedVariant(s))
  }

  lemma StackingBehaviourRoundTrip(v: StackingBehaviour)
    ensures StackingBehaviourFromSql(StackingBehaviourToSql(v)) == Ok(v)
  {
    match v
    case Additive =>
    case Multiplicative =>
    case HighestOnly =>
  }

  /** No two variants share a spelling. */
  lemma StackingBehaviourSpellingsDistinct(a: StackingBehaviour, b: StackingBehaviour)
    ensures StackingBehaviourToSql(a) == StackingBehaviourToSql(b) ==> a == b
  {
    StackingBehaviourRoundTrip(a);
    StackingBehaviourRoundTrip(b);
  }
}
