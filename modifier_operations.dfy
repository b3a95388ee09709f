/**
 * The current modifier aggregation: modifiers that hit one target are split
 * by stacking behaviour into additive ones, multiplicative ones and
 * highest-only groups; the total is (1 + sum of additives) times the product
 * of (1 + m) over the multiplicative magnitudes and the group maxima, clamped
 * to [0.5, 3].
 */
module ModifierOperations {
  import opened Wrappers
  import opened FullModifiers
  import opened ModifierCodecs
  import opened SourceTypeCodec
  import opened ResourceTypeCodec

  const GlobalMaxCap: real := 3.0
  const GlobalMinFloor: real := 0.5
  const Base: real := 1.0

  predicate Targets(m: FullModifier, t: ModifierTarget, res: Option<ResourceType>)
  {
    m.target_type == t && m.target_resource == res
  }

  /** The filter of `calc_multiplier`, keeping the player's order. */
  function Matching(mods: seq<FullModifier>, t: ModifierTarget, res: Option<ResourceType>): (out: seq<FullModifier>)
    ensures |out| <= |mods|
    ensures forall m :: m in out <==> m in mods && Targets(m, t, res)
  {
    if mods == [] then []
    else
      var n := |mods| - 1;
      Matching(mods[..n], t, res) + (if Targets(mods[n], t, res) then [mods[n]] else [])
  }

  lemma MatchingAppend(mods: seq<FullModifier>, m: FullModifier, t: ModifierTarget, res: Option<ResourceType>)
    ensures Matching(mods + [m], t, res) == Matching(mods, t, res) + (if Targets(m, t, res) then [m] else [])
  {
    assert (mods + [m])[..|mods|] == mods;
  }

  /** `calc_multiplier` over the player's full modifiers. */
  function CalcMultiplier(mods: seq<FullModifier>, t: ModifierTarget, res: Option<ResourceType>): (r: real)
    ensures GlobalMinFloor <= r <= GlobalMaxCap
  {
    ApplyStackingRules(Matching(mods, t, res))
  }

  /** A modifier aimed at another target or resource never changes the multiplier. */
  lemma {:induction false} NonMatchingIgnored(mods: seq<FullModifier>, m: FullModifier, t: ModifierTarget, res: Option<ResourceType>)
    requires !Targets(m, t, res)
    ensures CalcMultiplier(mods + [m], t, res) == CalcMultiplier(mods, t, res)
  {
    MatchingAppend(mods, m, t, res);
    assert Matching(mods, t, res) + [] == Matching(mods, t, res);
  }

  /** The key of a highest-only group: the explicit stacking group, else the derived one. */
  function GroupKey(m: FullModifier): (k: string)
    ensures m.stacking_group.Some? ==> k == m.stacking_group.value
    ensures m.stacking_group.None? ==> k == ModifierSourceTypeToSql(m.source_type) + "_" + ModifierTargetToSql(m.target_type)
  {
    m.stacking_group.UnwrapOr(GetStackingGroup(m))
  }

  datatype Group = Group(key: string, magnitudes: seq<real>)

  /** The three buckets the partition loop fills; groups are kept in first-seen order. */
  datatype Partition = Partition(additive: seq<real>, multiplicative: seq<real>, groups: seq<Group>)

  function AddToGroup(groups: seq<Group>, key: string, x: real): (r: seq<Group>)
  {
    if groups == [] then [Group(key, [x])]
    else if groups[0].key == key then [groups[0].(magnitudes := groups[0].magnitudes + [x])] + groups[1..]
    else [groups[0]] + AddToGroup(groups[1..], key, x)
  }

  function Place(p: Partition, m: FullModifier): Partition
  {
    match m.stacking_behaviour
    case Additive => p.(additive := p.additive + [m.magnitude])
    case Multiplicative => p.(multiplicative := p.multiplicative + [m.magnitude])
    case HighestOnly => p.(groups := AddToGroup(p.groups, GroupKey(m), m.magnitude))
  }

  /** The partition loop, one modifier at a time in input order. */
  function Partitioned(mods: seq<FullModifier>): Partition
  {
    PartitionLoop(mods)
  }

  function PartitionLoop(mods: seq<FullModifier>): Partition
  {
    if mods == [] then Partition([], [], [])
    else Place(PartitionLoop(mods[..|mods| - 1]), mods[|mods| - 1])
  }

  /** The fold from 0 adding each magnitude. */
  function Sum(xs: seq<real>): real
  {
    SumFold(xs)
  }

  function SumFold(xs: seq<real>): real
  {
    if xs == [] then 0.0 else SumFold(xs[..|xs| - 1]) + xs[|xs| - 1]
  }

  /** The fold from 1 multiplying in (1 + m) for each magnitude m. */
  function ProductOnePlus(xs: seq<real>): real
  {
    OnePlusFold(xs)
  }

  function OnePlusFold(xs: seq<real>): real
  {
    if xs == [] then Base else OnePlusFold(xs[..|xs| - 1]) * (Base + xs[|xs| - 1])
  }

  /** The largest magnitude of a group, 0 for an empty one. */
  function MaxOf(xs: seq<real>): (r: real)
    ensures forall i :: 0 <= i < |xs| ==> xs[i] <= r
    ensures xs != [] ==> exists i :: 0 <= i < |xs| && xs[i] == r
  {
    if xs == [] then 0.0
    else if |xs| == 1 then xs[0]
    else
      var m := MaxOf(xs[..|xs| - 1]);
      if xs[|xs| - 1] > m then xs[|xs| - 1] else m
  }

  function GroupMaxima(groups: seq<Group>): (r: seq<real>)
    ensures |r| == |groups|
  {
    if groups == [] then [] else [MaxOf(groups[0].magnitudes)] + GroupMaxima(groups[1..])
  }

  /** The multiplicative total of a partition: multiplicative magnitudes first, then the group maxima. */
  function MultiplicativeOf(p: Partition): real
  {
    ProductOnePlus(p.multiplicative + GroupMaxima(p.groups))
  }

  function RawOf(p: Partition): real
  {
    (Base + Sum(p.additive)) * MultiplicativeOf(p)
  }

  function Clamp(x: real, lo: real, hi: real): real
  {
    if x < lo then lo else if x > hi then hi else x
  }

  /**
   * `apply_stacking_rules`: 1 for no modifiers; otherwise the raw total
   * brought into [0.5, 3], unchanged when it already lies there.
   */
  function ApplyStackingRules(mods: seq<FullModifier>): (r: real)
    ensures mods == [] ==> r == Base
    ensures GlobalMinFloor <= r <= GlobalMaxCap
    ensures mods != [] && GlobalMinFloor <= RawOf(Partitioned(mods)) <= GlobalMaxCap ==> r == RawOf(Partitioned(mods))
    ensures mods != [] && RawOf(Partitioned(mods)) > GlobalMaxCap ==> r == GlobalMaxCap
    ensures mods != [] && RawOf(Partitioned(mods)) < GlobalMinFloor ==> r == GlobalMinFloor
  {
    if mods == [] then Base
    else Clamp(RawOf(Partitioned(mods)), GlobalMinFloor, GlobalMaxCap)
  }

  // ---- how each kind of modifier moves the raw total ----

  lemma {:induction false} PartitionedAppend(mods: seq<FullModifier>, m: FullModifier)
    ensures Partitioned(mods + [m]) == Place(Partitioned(mods), m)
  {
    assert (mods + [m])[..|mods|] == mods;
  }

  lemma {:induction false} ProductOnePlusSnoc(xs: seq<real>, x: real)
    ensures ProductOnePlus(xs + [x]) == ProductOnePlus(xs) * (Base + x)
  {
    assert (xs + [x])[..|xs|] == xs;
  }

  lemma {:induction false} ProductOnePlusConcat(a: seq<real>, b: seq<real>)
    ensures ProductOnePlus(a + b) == ProductOnePlus(a) * ProductOnePlus(b)
    decreases |b|
  {
    if b != [] {
      var b' := b[..|b| - 1];
      var x := b[|b| - 1];
      assert b == b' + [x];
      assert a + b == (a + b') + [x];
      ProductOnePlusSnoc(a + b', x);
      ProductOnePlusSnoc(b', x);
      ProductOnePlusConcat(a, b');
      Associate(ProductOnePlus(a), ProductOnePlus(b'), Base + x);
      calc {
        ProductOnePlus(a + b);
        ProductOnePlus((a + b') + [x]);
        ProductOnePlus(a + b') * (Base + x);
        ProductOnePlus(a) * ProductOnePlus(b') * (Base + x);
        ProductOnePlus(a) * (ProductOnePlus(b') * (Base + x));
        ProductOnePlus(a) * ProductOnePlus(b' + [x]);
        ProductOnePlus(a) * ProductOnePlus(b);
      }
    } else {
      assert a + b == a;
    }
  }

  lemma Associate(p: real, q: real, r: real)
    ensures p * q * r == p * (q * r)
  {
  }

  lemma Distribute(a: real, x: real, m: real)
    ensures (a + x) * m == a * m + x * m
  {
  }

  lemma Regroup(a: real, p: real, f: real, g: real)
    ensures a * (p * f * g) == a * (p * g) * f
  {
  }

  lemma PlaceAdditive(p: Partition, x: real)
    ensures MultiplicativeOf(p.(additive := p.additive + [x])) == MultiplicativeOf(p)
    ensures RawOf(p.(additive := p.additive + [x])) == RawOf(p) + x * MultiplicativeOf(p)
  {
    var add := p.additive + [x];
    assert add[..|add| - 1] == p.additive;
    assert Sum(add) == Sum(p.additive) + x;
    Distribute(Base + Sum(p.additive), x, MultiplicativeOf(p));
  }

  /** An additive modifier adds its magnitude times the multiplicative total. */
  lemma {:induction false} AdditiveContribution(mods: seq<FullModifier>, m: FullModifier)
    requires m.stacking_behaviour == Additive
    ensures MultiplicativeOf(Partitioned(mods + [m])) == MultiplicativeOf(Partitioned(mods))
    ensures RawOf(Partitioned(mods + [m])) == RawOf(Partitioned(mods)) + m.magnitude * MultiplicativeOf(Partitioned(mods))
  {
    PartitionedAppend(mods, m);
    PlaceAdditive(Partitioned(mods), m.magnitude);
  }

  lemma PlaceMultiplicative(p: Partition, x: real)
    ensures RawOf(p.(multiplicative := p.multiplicative + [x])) == RawOf(p) * (Base + x)
  {
    var gm := GroupMaxima(p.groups);
    var mult := p.multiplicative + [x];
    ProductOnePlusSnoc(p.multiplicative, x);
    ProductOnePlusConcat(mult, gm);
    ProductOnePlusConcat(p.multiplicative, gm);
    var A := Base + Sum(p.additive);
    Regroup(A, ProductOnePlus(p.multiplicative), Base + x, ProductOnePlus(gm));
    Associate(A, ProductOnePlus(p.multiplicative) * ProductOnePlus(gm), Base + x);
  }

  /** A multiplicative modifier multiplies the raw total by (1 + magnitude). */
  lemma {:induction false} MultiplicativeFactor(mods: seq<FullModifier>, m: FullModifier)
    requires m.stacking_behaviour == Multiplicative
    ensures RawOf(Partitioned(mods + [m])) == RawOf(Partitioned(mods)) * (Base + m.magnitude)
  {
    PartitionedAppend(mods, m);
    PlaceMultiplicative(Partitioned(mods), m.magnitude);
  }

  // ---- highest-only groups ----

  predicate HighestIn(mods: seq<FullModifier>, key: string)
  {
    exists i :: 0 <= i < |mods| && mods[i].stacking_behaviour == HighestOnly && GroupKey(mods[i]) == key
  }

  lemma {:induction false} AddToGroupFresh(groups: seq<Group>, key: string, x: real)
    requires forall i :: 0 <= i < |groups| ==> groups[i].key != key
    ensures AddToGroup(groups, key, x) == groups + [Group(key, [x])]
  {
    if groups != [] {
      AddToGroupFresh(groups[1..], key, x);
    }
  }

  lemma {:induction false} GroupMaximaSnoc(groups: seq<Group>, g: Group)
    ensures GroupMaxima(groups + [g]) == GroupMaxima(groups) + [MaxOf(g.magnitudes)]
  {
    if groups != [] {
      assert (groups + [g])[1..] == groups[1..] + [g];
      GroupMaximaSnoc(groups[1..], g);
    }
  }

  /** Every group key comes from some highest-only member of the input. */
  lemma {:induction false} GroupKeysFromMembers(mods: seq<FullModifier>)
    ensures forall i :: 0 <= i < |Partitioned(mods).groups| ==> HighestIn(mods, Partitioned(mods).groups[i].key)
  {
    if mods != [] {
      var pre := mods[..|mods| - 1];
      var m := mods[|mods| - 1];
      GroupKeysFromMembers(pre);
      AddToGroupKeys(Partitioned(pre).groups, GroupKey(m), m.magnitude);
      forall i | 0 <= i < |Partitioned(mods).groups|
        ensures HighestIn(mods, Partitioned(mods).groups[i].key)
      {
        var k := Partitioned(mods).groups[i].key;
        if m.stacking_behaviour == HighestOnly && k == GroupKey(m) {
          assert mods[|mods| - 1] == m;
        } else {
          var j :| 0 <= j < |Partitioned(pre).groups| && Partitioned(pre).groups[j].key == k;
          var w :| 0 <= w < |pre| && pre[w].stacking_behaviour == HighestOnly && GroupKey(pre[w]) == k;
          assert mods[w] == pre[w];
        }
      }
    }
  }

  lemma {:induction false} AddToGroupKeys(groups: seq<Group>, key: string, x: real)
    ensures forall i :: 0 <= i < |AddToGroup(groups, key, x)| ==>
      AddToGroup(groups, key, x)[i].key == key ||
      exists j :: 0 <= j < |groups| && groups[j].key == AddToGroup(groups, key, x)[i].key
  {
    if groups != [] && groups[0].key != key {
      AddToGroupKeys(groups[1..], key, x);
      var r := AddToGroup(groups, key, x);
      forall i | 0 <= i < |r|
        ensures r[i].key == key || exists j :: 0 <= j < |groups| && groups[j].key == r[i].key
      {
        if i == 0 {
          assert groups[0].key == r[0].key;
        } else {
          assert r[i] == AddToGroup(groups[1..], key, x)[i - 1];
          if r[i].key != key {
            var j :| 0 <= j < |groups[1..]| && groups[1..][j].key == r[i].key;
            assert groups[j + 1].key == r[i].key;
          }
        }
      }
    }
  }

  lemma PlaceFreshGroup(p: Partition, key: string, x: real)
    requires forall i :: 0 <= i < |p.groups| ==> p.groups[i].key != key
    ensures RawOf(p.(groups := AddToGroup(p.groups, key, x))) == RawOf(p) * (Base + x)
  {
    AddToGroupFresh(p.groups, key, x);
    GroupMaximaSnoc(p.groups, Group(key, [x]));
    var gm := GroupMaxima(p.groups);
    var all := p.multiplicative + gm;
    var q := p.(groups := p.groups + [Group(key, [x])]);
    assert GroupMaxima(q.groups) == gm + [x];
    assert q.multiplicative + GroupMaxima(q.groups) == all + [x];
    ProductOnePlusSnoc(all, x);
    assert MultiplicativeOf(q) == MultiplicativeOf(p) * (Base + x);
    Associate(Base + Sum(p.additive), MultiplicativeOf(p), Base + x);
  }

  /** A highest-only modifier opening a new group multiplies the raw total by (1 + magnitude). */
  lemma {:induction false} NewGroupFactor(mods: seq<FullModifier>, m: FullModifier)
    requires m.stacking_behaviour == HighestOnly
    requires !HighestIn(mods, GroupKey(m))
    ensures RawOf(Partitioned(mods + [m])) == RawOf(Partitioned(mods)) * (Base + m.magnitude)
  {
    PartitionedAppend(mods, m);
    GroupKeysFromMembers(mods);
    PlaceFreshGroup(Partitioned(mods), GroupKey(m), m.magnitude);
  }

  /** Every highest-only magnitude sits in the group of its key. */
  lemma {:induction false} MemberInItsGroup(mods: seq<FullModifier>, w: nat)
    requires w < |mods| && mods[w].stacking_behaviour == HighestOnly
    ensures exists i :: (0 <= i < |Partitioned(mods).groups| &&
                         Partitioned(mods).groups[i].key == GroupKey(mods[w]) &&
                         mods[w].magnitude in Partitioned(mods).groups[i].magnitudes)
  {
    var pre := mods[..|mods| - 1];
    var m := mods[|mods| - 1];
    var groups := Partitioned(pre).groups;
    assert Partitioned(mods) == Place(Partitioned(pre), m);
    if w == |mods| - 1 {
      assert Partitioned(mods).groups == AddToGroup(groups, GroupKey(m), m.magnitude);
      AddToGroupPlaces(groups, GroupKey(m), m.magnitude);
    } else {
      assert mods[w] == pre[w];
      MemberInItsGroup(pre, w);
      var i :| 0 <= i < |groups| && groups[i].key == GroupKey(mods[w]) && mods[w].magnitude in groups[i].magnitudes;
      if m.stacking_behaviour == HighestOnly {
        assert Partitioned(mods).groups == AddToGroup(groups, GroupKey(m), m.magnitude);
        AddToGroupKeeps(groups, GroupKey(m), m.magnitude, i);
      } else {
        assert Partitioned(mods).groups == groups;
      }
    }
  }

  lemma {:induction false} AddToGroupPlaces(groups: seq<Group>, key: string, x: real)
    ensures exists i :: (0 <= i < |AddToGroup(groups, key, x)| &&
                         AddToGroup(groups, key, x)[i].key == key && x in AddToGroup(groups, key, x)[i].magnitudes)
  {
    var r := AddToGroup(groups, key, x);
    if groups == [] || groups[0].key == key {
      assert r[0].key == key && x in r[0].magnitudes;
    } else {
      AddToGroupPlaces(groups[1..], key, x);
      var i :| 0 <= i < |AddToGroup(groups[1..], key, x)| &&
        AddToGroup(groups[1..], key, x)[i].key == key && x in AddToGroup(groups[1..], key, x)[i].magnitudes;
      assert r[i + 1] == AddToGroup(groups[1..], key, x)[i];
    }
  }

  lemma {:induction false} AddToGroupKeeps(groups: seq<Group>, key: string, x: real, i: nat)
    requires i < |groups|
    ensures i < |AddToGroup(groups, key, x)|
    ensures AddToGroup(groups, key, x)[i].key == groups[i].key
    ensures forall y :: y in groups[i].magnitudes ==> y in AddToGroup(groups, key, x)[i].magnitudes
  {
    if groups[0].key != key && i > 0 {
      AddToGroupKeeps(groups[1..], key, x, i - 1);
    }
  }

  /** Appending a value no larger than the current maximum leaves the maximum alone. */
  lemma MaxOfDominated(xs: seq<real>, x: real)
    requires exists y :: y in xs && x <= y
    ensures MaxOf(xs + [x]) == MaxOf(xs)
  {
    var ys := xs + [x];
    assert ys[..|ys| - 1] == xs;
    var y :| y in xs && x <= y;
    var k :| 0 <= k < |xs| && xs[k] == y;
  }

  lemma {:induction false} AddToGroupDominated(groups: seq<Group>, key: string, x: real)
    requires UniqueKeys(groups)
    requires exists i :: 0 <= i < |groups| && groups[i].key == key && exists y :: y in groups[i].magnitudes && x <= y
    ensures GroupMaxima(AddToGroup(groups, key, x)) == GroupMaxima(groups)
  {
    if groups[0].key == key {
      var i :| 0 <= i < |groups| && groups[i].key == key && exists y :: y in groups[i].magnitudes && x <= y;
      FirstKeyWins(groups, key, i);
      MaxOfDominated(groups[0].magnitudes, x);
      var r := AddToGroup(groups, key, x);
      assert r[1..] == groups[1..];
    } else {
      var i :| 0 <= i < |groups| && groups[i].key == key && exists y :: y in groups[i].magnitudes && x <= y;
      assert groups[1..][i - 1] == groups[i];
      assert UniqueKeys(groups[1..]) by {
        forall a, b | 0 <= a < b < |groups[1..]| ensures groups[1..][a].key != groups[1..][b].key {
          assert groups[1..][a] == groups[a + 1] && groups[1..][b] == groups[b + 1];
        }
      }
      AddToGroupDominated(groups[1..], key, x);
    }
  }

  /** Keys are unique: the first group with a key is the only one. */
  lemma FirstKeyWins(groups: seq<Group>, key: string, i: nat)
    requires i < |groups| && groups[i].key == key && groups[0].key == key
    requires UniqueKeys(groups)
    ensures i == 0
  {
  }

  predicate UniqueKeys(groups: seq<Group>)
  {
    forall i, j :: 0 <= i < j < |groups| ==> groups[i].key != groups[j].key
  }

  lemma {:induction false} AddToGroupUnique(groups: seq<Group>, key: string, x: real)
    requires UniqueKeys(groups)
    ensures UniqueKeys(AddToGroup(groups, key, x))
  {
    if groups != [] && groups[0].key != key {
      AddToGroupUnique(groups[1..], key, x);
      AddToGroupKeys(groups[1..], key, x);
      var r := AddToGroup(groups, key, x);
      forall i, j | 0 <= i < j < |r| ensures r[i].key != r[j].key {
        if i == 0 {
          var t := AddToGroup(groups[1..], key, x);
          assert r[j] == t[j - 1];
          if t[j - 1].key != key {
            var k :| 0 <= k < |groups[1..]| && groups[1..][k].key == t[j - 1].key;
            assert groups[k + 1].key == t[j - 1].key;
          }
        }
      }
    } else if groups != [] {
      var r := AddToGroup(groups, key, x);
      assert forall i :: 0 <= i < |r| ==> r[i].key == groups[i].key;
    }
  }

  lemma {:induction false} PartitionedUnique(mods: seq<FullModifier>)
    ensures UniqueKeys(Partitioned(mods).groups)
  {
    if mods != [] {
      PartitionedUnique(mods[..|mods| - 1]);
      var m := mods[|mods| - 1];
      if m.stacking_behaviour == HighestOnly {
        AddToGroupUnique(Partitioned(mods[..|mods| - 1]).groups, GroupKey(m), m.magnitude);
      }
    }
  }

  lemma PlaceDominated(p: Partition, key: string, x: real)
    requires UniqueKeys(p.groups)
    requires exists i :: 0 <= i < |p.groups| && p.groups[i].key == key && exists y :: y in p.groups[i].magnitudes && x <= y
    ensures RawOf(p.(groups := AddToGroup(p.groups, key, x))) == RawOf(p)
  {
    AddToGroupDominated(p.groups, key, x);
  }

  /**
   * In a highest-only group only the maximum counts: a new member no larger
   * than an existing member of its group changes nothing.
   */
  lemma {:induction false} DominatedMemberIgnored(mods: seq<FullModifier>, m: FullModifier)
    requires m.stacking_behaviour == HighestOnly
    requires exists w :: (0 <= w < |mods| && mods[w].stacking_behaviour == HighestOnly &&
                          GroupKey(mods[w]) == GroupKey(m) && m.magnitude <= mods[w].magnitude)
    ensures RawOf(Partitioned(mods + [m])) == RawOf(Partitioned(mods))
    ensures ApplyStackingRules(mods + [m]) == ApplyStackingRules(mods)
  {
    var w :| 0 <= w < |mods| && mods[w].stacking_behaviour == HighestOnly &&
      GroupKey(mods[w]) == GroupKey(m) && m.magnitude <= mods[w].magnitude;
    var p := Partitioned(mods);
    var q := p.(groups := AddToGroup(p.groups, GroupKey(m), m.magnitude));
    PartitionedAppend(mods, m);
    assert Partitioned(mods + [m]) == q;
    PartitionedUnique(mods);
    MemberInItsGroup(mods, w);
    PlaceDominated(p, GroupKey(m), m.magnitude);
  }

  // ---- the documented examples ----

  function Sample(magnitude: real, behaviour: StackingBehaviour): FullModifier
  {
    FullModifier(0, 0, 0, "", "", magnitude, MagnitudeKind(""), Faction, None,
                 Resource, Some(Food), behaviour, None, 0, None, 0, 0)
  }

  /** +10% and +20% stack to 1.3 additively. */
  lemma AdditiveExample()
    ensures ApplyStackingRules([Sample(0.1, Additive), Sample(0.2, Additive)]) == 1.3
  {
    var a := [Sample(0.1, Additive), Sample(0.2, Additive)];
    var p := Partition([0.1, 0.2], [], []);
    assert Partitioned(a) == p by {
      PartitionedAppend([], a[0]);
      PartitionedAppend([a[0]], a[1]);
      assert [] + [a[0]] == [a[0]] && [a[0]] + [a[1]] == a;
    }
    assert Sum(p.additive) == 0.3 by {
      assert [0.1, 0.2][..1] == [0.1] && [0.1][..0] == [];
      assert SumFold([0.1]) == 0.1;
    }
    assert MultiplicativeOf(p) == 1.0 by {
      assert p.multiplicative + GroupMaxima(p.groups) == [];
    }
    assert RawOf(p) == 1.3;
  }

  lemma ProductExample()
    ensures ProductOnePlus([0.1, 0.2]) == 1.32
  {
    assert [0.1, 0.2][..1] == [0.1] && [0.1][..0] == [];
    assert OnePlusFold([0.1]) == 1.1;
  }

  /** +10% and +20% stack to 1.32 multiplicatively. */
  lemma MultiplicativeExample()
    ensures ApplyStackingRules([Sample(0.1, Multiplicative), Sample(0.2, Multiplicative)]) == 1.32
  {
    var b := [Sample(0.1, Multiplicative), Sample(0.2, Multiplicative)];
    PartitionedAppend([], b[0]);
    PartitionedAppend([b[0]], b[1]);
    assert [] + [b[0]] == [b[0]] && [b[0]] + [b[1]] == b;
    var p := Partition([], [0.1, 0.2], []);
    assert Partitioned(b) == p;
    assert p.multiplicative + GroupMaxima(p.groups) == [0.1, 0.2];
    ProductExample();
    assert Sum(p.additive) == 0.0;
  }
}
