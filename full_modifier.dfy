/**
 * The modifier records: a definition (`Modifier`), its activation for one
 * player (`ActiveModifier`) and the merged view the aggregation works on
 * (`FullModifier`). Instants are integer seconds, keys are naturals and
 * magnitudes are exact decimals, modelled as reals.
 */
module FullModifiers {
  import opened Wrappers
  import opened Text
  import opened ModifierCodecs
  import opened SourceTypeCodec
  import opened ResourceTypeCodec

  /** The definition's magnitude kind, carried through unchanged; its variants are not part of this model. */
  datatype MagnitudeKind = MagnitudeKind(name: string)

  /** A modifier definition as the merge reads it. */
  datatype Modifier = Modifier(
    id: nat,
    name: string,
    description: string,
    magnitude: real,
    magnitude_kind: MagnitudeKind,
    target_type: ModifierTarget,
    target_resource: Option<ResourceType>,
    stacking_behaviour: StackingBehaviour,
    stacking_group: Option<string>,
    created_at: int,
    updated_at: int)

  /** One activation of a definition for a player. */
  datatype ActiveModifier = ActiveModifier(
    id: nat,
    player_id: nat,
    modifier_id: nat,
    started_at: int,
    expires_at: Option<int>,
    source_type: ModifierSourceType,
    source_id: Option<nat>,
    created_at: int,
    updated_at: int)

  datatype FullModifier = FullModifier(
    id: nat,
    modifier_id: nat,
    player_id: nat,
    name: string,
    description: string,
    magnitude: real,
    magnitude_kind: MagnitudeKind,
    source_type: ModifierSourceType,
    source_id: Option<nat>,
    target_type: ModifierTarget,
    target_resource: Option<ResourceType>,
    stacking_behaviour: StackingBehaviour,
    stacking_group: Option<string>,
    started_at: int,
    expires_at: Option<int>,
    created_at: int,
    updated_at: int)

  /**
   * `get_stacking_group`: the lower-cased display names of the source and the
   * target joined by an underscore, which is the pair of database spellings.
   */
  function GetStackingGroup(m: FullModifier): (g: string)
    ensures g == ModifierSourceTypeToSql(m.source_type) + "_" + ModifierTargetToSql(m.target_type)
  {
    LowerDisplayIsSpelling(m.source_type, m.target_type);
    Lower(ModifierSourceTypeDisplay(m.source_type)) + "_" + Lower(ModifierTargetDisplay(m.target_type))
  }

  /** Lower-casing a capitalised word changes only its first letter. */
  lemma LowerCapitalised(s: string)
    requires |s| >= 1 && 'A' <= s[0] <= 'Z'
    requires forall i :: 1 <= i < |s| ==> 'a' <= s[i] <= 'z'
    ensures Lower(s) == [LowerChar(s[0])] + s[1..]
  {
  }

  lemma LowerDisplayIsSpelling(s: ModifierSourceType, t: ModifierTarget)
    ensures Lower(ModifierSourceTypeDisplay(s)) == ModifierSourceTypeToSql(s)
    ensures Lower(ModifierTargetDisplay(t)) == ModifierTargetToSql(t)
  {
    LowerSourceDisplay(s);
    LowerTargetDisplay(t);
  }

  lemma LowerSourceDisplay(s: ModifierSourceType)
    ensures Lower(ModifierSourceTypeDisplay(s)) == ModifierSourceTypeToSql(s)
  {
    match s
    case Faction => LowerWord("Faction", "faction");
    case Item => LowerWord("Item", "item");
    case Skill => LowerWord("Skill", "skill");
    case Research => LowerWord("Research", "research");
    case Event => LowerWord("Event", "event");
  }

  lemma LowerTargetDisplay(t: ModifierTarget)
    ensures Lower(ModifierTargetDisplay(t)) == ModifierTargetToSql(t)
  {
    match t
    case Resource => LowerWord("Resource", "resource");
    case Combat => LowerWord("Combat", "combat");
    case Training => LowerWord("Training", "training");
    case Research => LowerWord("Research", "research");
  }

  /** A capitalised word whose lower-cased first letter starts `w`, with the same rest, lower-cases to `w`. */
  lemma LowerWord(s: string, w: string)
    requires |s| >= 1 && 'A' <= s[0] <= 'Z'
    requires forall i :: 1 <= i < |s| ==> 'a' <= s[i] <= 'z'
    requires |w| == |s| && w[0] == LowerChar(s[0]) && w[1..] == s[1..]
    ensures Lower(s) == w
  {
    LowerCapitalised(s);
    assert w == [w[0]] + w[1..];
  }

  /** The activation a merged record was built from. */
  function ActiveOf(f: FullModifier): ActiveModifier
  {
    ActiveModifier(f.id, f.player_id, f.modifier_id, f.started_at, f.expires_at,
                   f.source_type, f.source_id, f.created_at, f.updated_at)
  }

  /** The definition a merged record was built from, with the definition's own timestamps supplied. */
  function DefinitionOf(f: FullModifier, created_at: int, updated_at: int): Modifier
  {
    Modifier(f.modifier_id, f.name, f.description, f.magnitude, f.magnitude_kind,
             f.target_type, f.target_resource, f.stacking_behaviour, f.stacking_group,
             created_at, updated_at)
  }

  /**
   * `into_full`: identity, owner, source and every instant come from the
   * activation; `modifier_id` is the definition's id (the activation's own
   * reference to it is not read) and the effect fields come from the
   * definition. Only the definition's timestamps are dropped.
   */
  function IntoFull(def: Modifier, active: ActiveModifier): (f: FullModifier)
    ensures ActiveOf(f) == active.(modifier_id := def.id)
    ensures DefinitionOf(f, def.created_at, def.updated_at) == def
  {
    FullModifier(
      active.id, def.id, active.player_id,
      def.name, def.description, def.magnitude, def.magnitude_kind,
      active.source_type, active.source_id,
      def.target_type, def.target_resource, def.stacking_behaviour, def.stacking_group,
      active.started_at, active.expires_at, active.created_at, active.updated_at)
  }
}
