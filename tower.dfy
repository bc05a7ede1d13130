/**
 * The preparation done by `from_subgroup_tower`: the checks on a tower of
 * nested groups whose first member is a Sylow subgroup of its last, and the
 * lists of names and descriptions handed to the rings of the tower. The
 * rings themselves are computed by further factory calls, which are not part
 * of this model.
 */
module Tower {
  import opened Common
  import opened Text
  import opened Groups

  /** A `GroupName` or `GroupDescr` keyword: absent, a list, or one string. */
  datatype Labels = NoLabels | LabelList(labels: seq<string>) | OneLabel(text: string)

  /** What the tower's rings are computed with. */
  datatype TowerPlan = TowerPlan(p: int, names: seq<Option<string>>, descrs: seq<Option<string>>)

  /** A label list, if one is given, has one entry per group. */
  predicate LabelsFit(l: Labels, height: nat)
  {
    l.LabelList? ==> |l.labels| == height
  }

  /** Every group of the tower is contained in the next one. */
  predicate Nested(groups: seq<Group>, b: Backend)
  {
    forall i :: 0 <= i < |groups| - 1 ==> b.isSubgroup(groups[i + 1], groups[i])
  }

  /**
   * The first group has `p`-power order `q`, and `p` does not divide the
   * index `|last| / q`: the first group is a Sylow subgroup of the last.
   */
  predicate SylowAtBottom(groups: seq<Group>, b: Backend)
    requires |groups| > 1 && IsPrimePower(b.order(groups[0]))
  {
    var q := b.order(groups[0]);
    var p := SmallestPrimeFactor(q);
    var top := b.order(groups[|groups| - 1]);
    top % q == 0 && (top / q) % p != 0
  }

  /** Reference definition: all the assertions of `from_subgroup_tower` hold. */
  predicate AdmissibleTower(groups: seq<Group>, names: Labels, descrs: Labels, b: Backend)
  {
    && |groups| > 1
    && IsPrimePower(b.order(groups[0]))
    && LabelsFit(names, |groups|)
    && LabelsFit(descrs, |groups|)
    && Nested(groups, b)
    && SylowAtBottom(groups, b)
  }

  /**
   * `ns` are the names a tower of `|ns|` groups gets from `arg`: a list
   * entry by entry, one name `N` as `Syl_<p>_N`, `Subgp_<i>_N` for every
   * intermediate group, then `N`, and no name as none at all.
   */
  predicate NamedAs(arg: Labels, p: int, ns: seq<Option<string>>)
  {
    match arg
    case LabelList(ls) => |ls| == |ns| && forall i :: 0 <= i < |ns| ==> ns[i] == Some(ls[i])
    case NoLabels => forall i :: 0 <= i < |ns| ==> ns[i].None?
    case OneLabel(n) =>
      && |ns| >= 2
      && ns[0] == Some("Syl_" + IntToString(p) + "_" + n)
      && (forall i :: 1 <= i < |ns| - 1 ==> ns[i] == Some("Subgp_" + IntToString(i) + "_" + n))
      && ns[|ns| - 1] == Some(n)
  }

  /**
   * `ds` are the intended descriptions a tower of `|ds|` groups gets from
   * `arg`: a list entry by entry, one description `D` as `Sylow <p>-subgroup
   * of D`, `<ordinal> intermediate subgroup of D` for every intermediate
   * group, then `D`, and no description as none at all.
   */
  predicate DescribedAs(arg: Labels, p: int, ds: seq<Option<string>>)
  {
    match arg
    case LabelList(ls) => |ls| == |ds| && forall i :: 0 <= i < |ds| ==> ds[i] == Some(ls[i])
    case NoLabels => forall i :: 0 <= i < |ds| ==> ds[i].None?
    case OneLabel(d) =>
      && |ds| >= 2
      && ds[0] == Some("Sylow " + IntToString(p) + "-subgroup of " + d)
      && (forall i :: 1 <= i < |ds| - 1 ==> ds[i] == Some(Ordinal(i) + " intermediate subgroup of " + d))
      && ds[|ds| - 1] == Some(d)
  }

  /** The case-by-case description of the names is `NamedAs`. */
  lemma NamedAsByCases(arg: Labels, p: int, ns: seq<Option<string>>)
    requires |ns| >= 2 && LabelsFit(arg, |ns|)
    requires arg.LabelList? ==> forall i :: 0 <= i < |ns| ==> ns[i] == Some(arg.labels[i])
    requires arg.NoLabels? ==> forall i :: 0 <= i < |ns| ==> ns[i].None?
    requires arg.OneLabel? ==>
      && ns[0] == Some("Syl_" + IntToString(p) + "_" + arg.text)
      && (forall i :: 1 <= i < |ns| - 1 ==> ns[i] == Some("Subgp_" + IntToString(i) + "_" + arg.text))
      && ns[|ns| - 1] == Some(arg.text)
    ensures NamedAs(arg, p, ns)
  {
  }

  /** The case-by-case description of the descriptions is `DescribedAs`. */
  lemma DescribedAsByCases(arg: Labels, p: int, ds: seq<Option<string>>)
    requires |ds| >= 2 && LabelsFit(arg, |ds|)
    requires arg.LabelList? ==> forall i :: 0 <= i < |ds| ==> ds[i] == Some(arg.labels[i])
    requires arg.NoLabels? ==> forall i :: 0 <= i < |ds| ==> ds[i].None?
    requires arg.OneLabel? ==>
      && ds[0] == Some("Sylow " + IntToString(p) + "-subgroup of " + arg.text)
      && (forall i :: 1 <= i < |ds| - 1 ==> ds[i] == Some(Ordinal(i) + " intermediate subgroup of " + arg.text))
      && ds[|ds| - 1] == Some(arg.text)
    ensures DescribedAs(arg, p, ds)
  {
  }

  /**
   * The names of the tower's rings. A list is taken as it is; one name `N`
   * gives `Syl_<p>_N`, then `Subgp_<i>_N` for every intermediate group, then
   * `N` itself; no name gives no names.
   */
  method TowerNames(arg: Labels, height: nat, p: int) returns (r: Result<seq<Option<string>>>)
    requires height >= 2
    ensures r.Ok? ==> |r.value| == height
    ensures r.Err? <==> !LabelsFit(arg, height)
    ensures r.Err? ==> r.error == TowerNameCount
    ensures r.Ok? && arg.LabelList? ==> forall i :: 0 <= i < height ==> r.value[i] == Some(arg.labels[i])
    ensures r.Ok? && arg.NoLabels? ==> forall i :: 0 <= i < height ==> r.value[i].None?
    ensures r.Ok? && arg.OneLabel? ==>
      && r.value[0] == Some("Syl_" + IntToString(p) + "_" + arg.text)
      && (forall i :: 1 <= i < height - 1 ==> r.value[i] == Some("Subgp_" + IntToString(i) + "_" + arg.text))
      && r.value[height - 1] == Some(arg.text)
  {
    match arg
    case LabelList(ls) =>
      if |ls| != height {
        return Err(TowerNameCount);
      }
      return Ok(seq(height, i requires 0 <= i < height => Some(ls[i])));
    case NoLabels =>
      return Ok(seq(height, i => None));
    case OneLabel(n) =>
      var names := [Some("Syl_" + IntToString(p) + "_" + n)];
      var i := 1;
      while i < height - 1
        invariant 1 <= i <= height - 1
        invariant |names| == i
        invariant names[0] == Some("Syl_" + IntToString(p) + "_" + n)
        invariant forall j :: 1 <= j < i ==> names[j] == Some("Subgp_" + IntToString(j) + "_" + n)
      {
        names := names + [Some("Subgp_" + IntToString(i) + "_" + n)];
        i := i + 1;
      }
      return Ok(names + [Some(n)]);
  }

  /**
   * The descriptions of the tower's rings, as written: one description `D`
   * gives `Sylow <p>-subgroup of D` first, but the text for an intermediate
   * group refers to `ZZ`, a name the module never defines, so any tower with
   * an intermediate group fails there.
   */
  method TowerDescriptionsAsWritten(arg: Labels, height: nat, p: int) returns (r: Result<seq<Option<string>>>)
    requires height >= 2
    ensures arg.OneLabel? && height > 2 ==> r == Err(UndefinedName)
    ensures arg.OneLabel? && height == 2 ==>
      r == Ok([Some("Sylow " + IntToString(p) + "-subgroup of " + arg.text), Some(arg.text)])
    ensures !arg.OneLabel? ==> (r.Err? <==> !LabelsFit(arg, height))
  {
    match arg
    case LabelList(ls) =>
      if |ls| != height {
        return Err(TowerNameCount);
      }
      return Ok(seq(height, i requires 0 <= i < height => Some(ls[i])));
    case NoLabels =>
      return Ok(seq(height, i => None));
    case OneLabel(d) =>
      var descrs := [Some("Sylow " + IntToString(p) + "-subgroup of " + d)];
      if 1 < height - 1 {
        // the first intermediate description evaluates the undefined `ZZ`
        return Err(UndefinedName);
      }
      assert descrs + [Some(d)] == [descrs[0], Some(d)];
      return Ok(descrs + [Some(d)]);
  }

  /**
   * The descriptions of the tower's rings with the evident intent: the
   * intermediate groups are described as `<ordinal> intermediate subgroup of
   * D`, the ordinal written as Sage writes it (1st, 2nd, 3rd, 4th, ...).
   */
  method TowerDescriptions(arg: Labels, height: nat, p: int) returns (r: Result<seq<Option<string>>>)
    requires height >= 2
    ensures r.Ok? ==> |r.value| == height
    ensures r.Err? <==> !LabelsFit(arg, height)
    ensures r.Err? ==> r.error == TowerNameCount
    ensures r.Ok? && arg.LabelList? ==> forall i :: 0 <= i < height ==> r.value[i] == Some(arg.labels[i])
    ensures r.Ok? && arg.NoLabels? ==> forall i :: 0 <= i < height ==> r.value[i].None?
    ensures r.Ok? && arg.OneLabel? ==>
      && r.value[0] == Some("Sylow " + IntToString(p) + "-subgroup of " + arg.text)
      && (forall i :: 1 <= i < height - 1 ==> r.value[i] == Some(Ordinal(i) + " intermediate subgroup of " + arg.text))
      && r.value[height - 1] == Some(arg.text)
  {
    match arg
    case LabelList(ls) =>
      if |ls| != height {
        return Err(TowerNameCount);
      }
      return Ok(seq(height, i requires 0 <= i < height => Some(ls[i])));
    case NoLabels =>
      return Ok(seq(height, i => None));
    case OneLabel(d) =>
      var descrs := [Some("Sylow " + IntToString(p) + "-subgroup of " + d)];
      var i := 1;
      while i < height - 1
        invariant 1 <= i <= height - 1
        invariant |descrs| == i
        invariant descrs[0] == Some("Sylow " + IntToString(p) + "-subgroup of " + d)
        invariant forall j :: 1 <= j < i ==> descrs[j] == Some(Ordinal(j) + " intermediate subgroup of " + d)
      {
        descrs := descrs + [Some(Ordinal(i) + " intermediate subgroup of " + d)];
        i := i + 1;
      }
      return Ok(descrs + [Some(d)]);
  }

  /**
   * The checks of `from_subgroup_tower`, in the order the source makes
   * them: at least two groups, a first group of prime-power order, name and
   * description lists of the right length, each group inside the next, and
   * the first group a Sylow subgroup of the last. On success, the prime and
   * one name and one description per group.
   */
  method PrepareTower(groups: seq<Group>, names: Labels, descrs: Labels, b: Backend) returns (r: Result<TowerPlan>)
    ensures r.Ok? <==> AdmissibleTower(groups, names, descrs, b)
    ensures |groups| <= 1 ==> r == Err(TowerTooShort)
    ensures |groups| > 1 && !IsPrimePower(b.order(groups[0])) ==> r == Err(TowerNotPrimePower)
    ensures r.Err? && r.error == TowerNotNested ==> !Nested(groups, b)
    ensures r.Ok? ==>
      && r.value.p == SmallestPrimeFactor(b.order(groups[0]))
      && |r.value.names| == |groups| && |r.value.descrs| == |groups|
      && NamedAs(names, r.value.p, r.value.names)
      && DescribedAs(descrs, r.value.p, r.value.descrs)
  {
    if |groups| <= 1 {
      return Err(TowerTooShort);
    }
    var q := b.order(groups[0]);
    if !IsPrimePower(q) {
      return Err(TowerNotPrimePower);
    }
    var p := SmallestPrimeFactor(q);
    var ns := TowerNames(names, |groups|, p);
    if ns.Err? {
      return Err(ns.error);
    }
    var ds := TowerDescriptions(descrs, |groups|, p);
    if ds.Err? {
      return Err(ds.error);
    }
    var i := 0;
    while i < |groups| - 1
      invariant 0 <= i <= |groups| - 1
      invariant forall j :: 0 <= j < i ==> b.isSubgroup(groups[j + 1], groups[j])
    {
      if !b.isSubgroup(groups[i + 1], groups[i]) {
        return Err(TowerNotNested);
      }
      i := i + 1;
    }
    var top := b.order(groups[|groups| - 1]);
    if !(top % q == 0 && (top / q) % p != 0) {
      return Err(TowerNotSylow);
    }
    NamedAsByCases(names, p, ns.value);
    DescribedAsByCases(descrs, p, ds.value);
    return Ok(TowerPlan(p, ns.value, ds.value));
  }
}
