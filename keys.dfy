/**
 * Group keys and cache keys, and the comparison `_IsKeyEquivalent` that
 * decides whether two cache keys denote the same cohomology ring.
 */
module Keys {
  import opened Common

  /**
   * The group part of a cache key (`KEY` in factory.py):
   *  - `SmallId(q, n)`: the pair `(q, n)` of a SmallGroups address;
   *  - `PermGroup(text)`: the one-tuple `(text,)` holding a GAP expression
   *    for a permutation group;
   *  - `Definition(text)`: a `GroupDefinition` string kept verbatim (in
   *    Python a bare string, whose length is its number of characters).
   */
  datatype GroupKey =
    | SmallId(order: int, index: int)
    | PermGroup(text: string)
    | Definition(text: string)

  /** `len(KEY)`. */
  function GroupKeyLength(k: GroupKey): nat
  {
    match k
    case SmallId(_, _) => 2
    case PermGroup(_) => 1
    case Definition(s) => |s|
  }

  /**
   * A cache key.
   *  - `PKey(group, state)`: `(KEY, <workspace>/<GStem>/dat/State)` of a
   *    prime-power group;
   *  - `TKey(group, stem, sub)`: a three-component composite key
   *    `(KEY, GStem, subgroup key)`, the layout the comparison descends into;
   *  - `NKey(group, stem, sub, prime)`: `(KEY, GStem, HP._key, pr)`, the
   *    composite key the factory builds for a non prime-power group.
   */
  datatype CacheKey =
    | PKey(group: GroupKey, state: Path)
    | TKey(group: GroupKey, stem: string, sub: CacheKey)
    | NKey(group: GroupKey, stem: string, sub: CacheKey, prime: int)

  /** `len(key)`. */
  function Length(k: CacheKey): nat
  {
    match k
    case PKey(_, _) => 2
    case TKey(_, _, _) => 3
    case NKey(_, _, _, _) => 4
  }

  /** Similarity levels: 0 different, 1 isomorphic groups, 2 equal group keys. */
  const DIFFERENT: int := 0
  const EQUIVALENT: int := 1
  const EQUAL: int := 2

  function Min(a: int, b: int): int
  {
    if a <= b then a else b
  }

  /**
   * Top-level similarity: 2 when the group keys coincide, else 1 when the
   * backend finds a canonical isomorphism between the groups they denote,
   * else 0.
   */
  function TopSimilarity(g1: GroupKey, g2: GroupKey, iso: (GroupKey, GroupKey) -> bool): (s: int)
    ensures s == EQUAL <==> g1 == g2
    ensures s == DIFFERENT <==> g1 != g2 && !iso(g1, g2)
    ensures DIFFERENT <= s <= EQUAL
  {
    if g1 == g2 then EQUAL else if iso(g1, g2) then EQUIVALENT else DIFFERENT
  }

  /**
   * `_IsKeyEquivalent` as written: keys of different length are different;
   * the recursion into the subgroup key happens only for keys of length 3,
   * so the four-component keys the factory builds are compared by their
   * group part alone.
   */
  function IsKeyEquivalentAsWritten(k1: CacheKey, k2: CacheKey, iso: (GroupKey, GroupKey) -> bool): (s: int)
    ensures DIFFERENT <= s <= EQUAL
    ensures Length(k1) != Length(k2) ==> s == DIFFERENT
    ensures Length(k1) == Length(k2) && Length(k1) != 3 ==> s == TopSimilarity(k1.group, k2.group, iso)
  {
    if Length(k1) != Length(k2) then DIFFERENT
    else
      var sim := TopSimilarity(k1.group, k2.group, iso);
      if sim == DIFFERENT then DIFFERENT
      else if Length(k1) == 3 then Min(sim, IsKeyEquivalentAsWritten(k1.sub, k2.sub, iso))
      else sim
  }

  /**
   * The comparison with the evident intent restored: every composite key,
   * of three or of four components, also compares its subgroup keys, and
   * the result is the smaller of the two similarities.
   */
  function IsKeyEquivalent(k1: CacheKey, k2: CacheKey, iso: (GroupKey, GroupKey) -> bool): (s: int)
    ensures DIFFERENT <= s <= EQUAL
    ensures Length(k1) != Length(k2) ==> s == DIFFERENT
    ensures s <= TopSimilarity(k1.group, k2.group, iso)
    ensures Length(k1) == Length(k2) && !k1.PKey? ==> s <= IsKeyEquivalent(k1.sub, k2.sub, iso)
  {
    if Length(k1) != Length(k2) then DIFFERENT
    else
      var sim := TopSimilarity(k1.group, k2.group, iso);
      if sim == DIFFERENT then DIFFERENT
      else if k1.PKey? then sim
      else Min(sim, IsKeyEquivalent(k1.sub, k2.sub, iso))
  }

  /**
   * Reference definition: two keys have the same shape and, level by
   * level, the same group key.
   */
  predicate SameTower(k1: CacheKey, k2: CacheKey)
  {
    Length(k1) == Length(k2) && k1.group == k2.group
    && (!k1.PKey? ==> SameTower(k1.sub, k2.sub))
  }

  /**
   * Reference definition: two keys have the same shape and, level by
   * level, equal or canonically isomorphic groups.
   */
  predicate EquivalentTower(k1: CacheKey, k2: CacheKey, iso: (GroupKey, GroupKey) -> bool)
  {
    Length(k1) == Length(k2) && (k1.group == k2.group || iso(k1.group, k2.group))
    && (!k1.PKey? ==> EquivalentTower(k1.sub, k2.sub, iso))
  }

  /** The comparison answers 2 exactly for keys that agree level by level. */
  lemma {:induction false} IsKeyEquivalentEqual(k1: CacheKey, k2: CacheKey, iso: (GroupKey, GroupKey) -> bool)
    ensures IsKeyEquivalent(k1, k2, iso) == EQUAL <==> SameTower(k1, k2)
  {
    if Length(k1) == Length(k2) && !k1.PKey? {
      IsKeyEquivalentEqual(k1.sub, k2.sub, iso);
    }
  }

  /** The comparison is nonzero exactly for keys equivalent level by level. */
  lemma {:induction false} IsKeyEquivalentNonzero(k1: CacheKey, k2: CacheKey, iso: (GroupKey, GroupKey) -> bool)
    ensures IsKeyEquivalent(k1, k2, iso) != DIFFERENT <==> EquivalentTower(k1, k2, iso)
  {
    if Length(k1) == Length(k2) && !k1.PKey? {
      IsKeyEquivalentNonzero(k1.sub, k2.sub, iso);
    }
  }

  /** A key is equal to itself, whatever the backend says. */
  lemma {:induction false} IsKeyEquivalentReflexive(k: CacheKey, iso: (GroupKey, GroupKey) -> bool)
    ensures IsKeyEquivalent(k, k, iso) == EQUAL
  {
    if !k.PKey? {
      IsKeyEquivalentReflexive(k.sub, iso);
    }
  }

  /** With a symmetric isomorphism test, the comparison is symmetric. */
  lemma {:induction false} IsKeyEquivalentSymmetric(k1: CacheKey, k2: CacheKey, iso: (GroupKey, GroupKey) -> bool)
    requires forall g, h :: iso(g, h) == iso(h, g)
    ensures IsKeyEquivalent(k1, k2, iso) == IsKeyEquivalent(k2, k1, iso)
  {
    if Length(k1) == Length(k2) && !k1.PKey? {
      IsKeyEquivalentSymmetric(k1.sub, k2.sub, iso);
    }
  }

  /**
   * The discrepancy: two four-component keys with the same group part but
   * subgroup keys of different shape (hence different rings). The comparison
   * as written calls them equal; the intended comparison calls them different.
   */
  lemma AsWrittenIgnoresSubgroupKey(iso: (GroupKey, GroupKey) -> bool)
    ensures var g := PermGroup("Group([(1,2,3),(1,2)])");
      var k1 := NKey(g, "S3", PKey(SmallId(2, 1), ["ws", "2gp1", "dat", "State"]), 2);
      var k2 := NKey(g, "S3", NKey(SmallId(6, 1), "6gp1", PKey(SmallId(2, 1), []), 2), 2);
      IsKeyEquivalentAsWritten(k1, k2, iso) == EQUAL && IsKeyEquivalent(k1, k2, iso) == DIFFERENT
  {
  }

  /** As written, a four-component key is compared by its group part alone. */
  lemma AsWrittenCompositeTopOnly(k1: CacheKey, k2: CacheKey, iso: (GroupKey, GroupKey) -> bool)
    requires k1.NKey? && k2.NKey?
    ensures IsKeyEquivalentAsWritten(k1, k2, iso) == TopSimilarity(k1.group, k2.group, iso)
  {
  }

  /**
   * Against the state key of a prime-power group, the key
   * `_check_compatibility` compares with, the two comparisons agree.
   */
  lemma AsWrittenAgreesOnStateKeys(k1: CacheKey, k2: CacheKey, iso: (GroupKey, GroupKey) -> bool)
    requires k1.PKey?
    ensures IsKeyEquivalentAsWritten(k1, k2, iso) == IsKeyEquivalent(k1, k2, iso)
    ensures IsKeyEquivalentAsWritten(k1, k2, iso) ==
      if k2.PKey? then TopSimilarity(k1.group, k2.group, iso) else DIFFERENT
  {
  }

  /** Keys built only from two- and three-component layers. */
  predicate NoFourComponentLayer(k: CacheKey)
  {
    match k
    case PKey(_, _) => true
    case TKey(_, _, sub) => NoFourComponentLayer(sub)
    case NKey(_, _, _, _) => false
  }

  /** Where no layer has four components, the two comparisons agree. */
  lemma {:induction false} AsWrittenAgreesWithoutFourComponents(k1: CacheKey, k2: CacheKey, iso: (GroupKey, GroupKey) -> bool)
    requires NoFourComponentLayer(k1) && NoFourComponentLayer(k2)
    ensures IsKeyEquivalentAsWritten(k1, k2, iso) == IsKeyEquivalent(k1, k2, iso)
  {
    if k1.TKey? && k2.TKey? {
      AsWrittenAgreesWithoutFourComponents(k1.sub, k2.sub, iso);
    }
  }
}
