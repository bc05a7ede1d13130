/**
 * The checks the factory makes before computing the cohomology ring of a
 * group whose order is not a prime power (a "modular" ring, computed from
 * the ring of a subgroup containing a Sylow subgroup): the prime modulus,
 * the consistency of a stored ring with the given subgroups and rings, the
 * given subgroups themselves, the choice of the intermediate subgroup, the
 * composite cache key and the key a freshly built ring must carry.
 */
module Modular {
  import opened Common
  import opened Text
  import opened Groups
  import opened Keys
  import opened Rings

  /** The `prime` keyword: an integer, or something `Integer()` cannot convert. */
  datatype PrimeArg = Int(i: int) | NotInteger

  /**
   * Only a group whose order is not a prime power needs a prime: it must be
   * given, be a prime, and divide the order. `None` on success means that
   * no modulus is needed.
   */
  function ValidatePrime(q: int, prime: Option<PrimeArg>): (r: Result<Option<int>>)
    ensures IsPrimePower(q) ==> r == Ok(None)
    ensures !IsPrimePower(q) ==>
      (r.Ok? <==> prime.Some? && prime.value.Int? && IsPrime(prime.value.i) && q % prime.value.i == 0)
    ensures !IsPrimePower(q) && r.Ok? ==> r == Ok(Some(prime.value.i))
    ensures !IsPrimePower(q) && prime.None? ==> r == Err(NoPrime)
    ensures !IsPrimePower(q) && prime.Some? && !(prime.value.Int? && IsPrime(prime.value.i)) ==> r == Err(NotPrime)
    ensures !IsPrimePower(q) && prime.Some? && prime.value.Int? && IsPrime(prime.value.i) && q % prime.value.i != 0 ==>
      r == Err(PrimeNotDividing)
    ensures r.Ok? && r.value.Some? ==> r.value.value >= 2 && q % r.value.value == 0
  {
    if IsPrimePower(q) then Ok(None)
    else match prime
      case None => Err(NoPrime)
      case Some(NotInteger) => Err(NotPrime)
      case Some(Int(p)) =>
        if !IsPrime(p) then Err(NotPrime)
        else if q % p != 0 then Err(PrimeNotDividing)
        else Ok(Some(p))
  }

  /**
   * A stored ring found for the group is only returned if it was computed
   * from the given subgroup ring (the same object), a subgroup canonically
   * isomorphic to the given one, the given Sylow subgroup ring (the same
   * object) and a Sylow subgroup canonically isomorphic to the given one.
   */
  function StoredConsistency(out: Ring, hp: Option<Ring>, subgroup: Option<Group>,
                             hsyl: Option<Ring>, sylow: Option<Group>, b: Backend): (r: Outcome)
    ensures r.Pass? ==> hp.Some? ==> out.hp.Some? && out.hp.value.handle == hp.value.handle
    ensures r.Pass? ==> subgroup.Some? ==> out.subgroup.Some? && b.canonicallyIsomorphic(subgroup.value, out.subgroup.value)
    ensures r.Pass? ==> hsyl.Some? ==> out.hsyl.Some? && out.hsyl.value.handle == hsyl.value.handle
    ensures r.Pass? ==> sylow.Some? ==> out.sylow.Some? && b.canonicallyIsomorphic(sylow.value, out.sylow.value)
    ensures hp.None? && subgroup.None? && hsyl.None? && sylow.None? ==> r.Pass?
    ensures r.Fail? ==> r.error in {StoredSubRingMismatch, StoredSubgroupMismatch}
  {
    if hp.Some? && (out.hp.None? || out.hp.value.handle != hp.value.handle) then Fail(StoredSubRingMismatch)
    else if subgroup.Some? && (out.subgroup.None? || !b.canonicallyIsomorphic(subgroup.value, out.subgroup.value)) then
      Fail(StoredSubgroupMismatch)
    else if hsyl.Some? && (out.hsyl.None? || out.hsyl.value.handle != hsyl.value.handle) then Fail(StoredSubRingMismatch)
    else if sylow.Some? && (out.sylow.None? || !b.canonicallyIsomorphic(sylow.value, out.sylow.value)) then
      Fail(StoredSubgroupMismatch)
    else Pass
  }

  /**
   * The ring of the Sylow subgroup: with a subgroup ring given, its own Sylow
   * ring (or the subgroup ring itself) replaces whatever was passed as the
   * Sylow ring; a modular ring is refused.
   */
  function SylowRingOf(hp: Option<Ring>, hsyl: Option<Ring>): (r: Result<Option<Ring>>)
    ensures r.Ok? && r.value.Some? ==> !r.value.value.modular
    ensures hp.Some? && r.Ok? ==> r.value.Some?
    ensures hp.None? ==> (r.Ok? <==> hsyl.None? || !hsyl.value.modular)
    ensures hp.None? && r.Ok? ==> r.value == hsyl
    ensures r.Err? ==> r.error == ModularSylowRing
  {
    var s := if hp.Some? then (if hp.value.hsyl.Some? then hp.value.hsyl else hp) else hsyl;
    if s.Some? && s.value.modular then Err(ModularSylowRing) else Ok(s)
  }

  /** With a subgroup ring given, the Sylow ring passed alongside it plays no part. */
  lemma SylowRingIgnoredWithSubgroupRing(hp: Ring, hsyl1: Option<Ring>, hsyl2: Option<Ring>)
    ensures SylowRingOf(Some(hp), hsyl1) == SylowRingOf(Some(hp), hsyl2)
  {
  }

  /**
   * The given subgroups: a subgroup must lie in the group with index prime
   * to `pr`; a Sylow subgroup must lie in the group with index prime to
   * `pr`, have order divisible by `pr`, and lie in the given subgroup.
   */
  function CheckSubgroups(g: Group, subgroup: Option<Group>, sylow: Option<Group>, pr: int, b: Backend): (r: Outcome)
    requires pr >= 2
    ensures r.Pass? <==>
      && (subgroup.Some? ==> b.isSubgroup(g, subgroup.value) && b.index(g, subgroup.value) % pr != 0)
      && (sylow.Some? ==> b.isSubgroup(g, sylow.value) && b.index(g, sylow.value) % pr != 0
                          && b.order(sylow.value) % pr == 0)
      && (sylow.Some? && subgroup.Some? ==> b.isSubgroup(subgroup.value, sylow.value))
    ensures subgroup.Some? && !b.isSubgroup(g, subgroup.value) ==> r == Fail(NotASubgroup)
    ensures subgroup.Some? && b.isSubgroup(g, subgroup.value) && b.index(g, subgroup.value) % pr == 0 ==>
      r == Fail(IndexDivisible)
  {
    if subgroup.Some? && !b.isSubgroup(g, subgroup.value) then Fail(NotASubgroup)
    else if subgroup.Some? && b.index(g, subgroup.value) % pr == 0 then Fail(IndexDivisible)
    else if sylow.Some? && !b.isSubgroup(g, sylow.value) then Fail(NotASubgroup)
    else if sylow.Some? && b.index(g, sylow.value) % pr == 0 then Fail(IndexDivisible)
    else if sylow.Some? && b.order(sylow.value) % pr != 0 then Fail(OrderNotDivisible)
    else if sylow.Some? && subgroup.Some? && !b.isSubgroup(subgroup.value, sylow.value) then Fail(SylowNotInSubgroup)
    else Pass
  }

  /**
   * A subgroup given together with its ring must be canonically isomorphic
   * to the ring's group, and likewise for the Sylow subgroup and its ring.
   */
  function MatchGiven(subgroup: Option<Group>, hp: Option<Ring>, sylow: Option<Group>, hsyl: Option<Ring>, b: Backend)
    : (r: Outcome)
    ensures r.Pass? <==>
      && (subgroup.Some? && hp.Some? ==> b.canonicallyIsomorphic(hp.value.group, subgroup.value))
      && (sylow.Some? && hsyl.Some? ==> b.canonicallyIsomorphic(hsyl.value.group, sylow.value))
    ensures r.Fail? ==> r.error in {SubgroupRingMismatch, SylowRingMismatch}
  {
    if subgroup.Some? && hp.Some? && !b.canonicallyIsomorphic(hp.value.group, subgroup.value) then
      Fail(SubgroupRingMismatch)
    else if sylow.Some? && hsyl.Some? && !b.canonicallyIsomorphic(hsyl.value.group, sylow.value) then
      Fail(SylowRingMismatch)
    else Pass
  }

  /** The intermediate subgroup, its ring if already known, and whether it was newly computed. */
  datatype Intermediate = Intermediate(subgroup: Group, ring: Option<Ring>, fromScratch: bool)

  /**
   * The subgroup the modular ring is computed from. `OneStep` uses the Sylow
   * subgroup directly. A given subgroup is used as it is. Otherwise the
   * normalizer of the centre of the Sylow subgroup is taken, unless it is
   * the whole group or a `p`-group, in which case the computation collapses
   * to the one-step case.
   */
  function ChooseIntermediate(oneStep: bool, subgroup: Option<Group>, hp: Option<Ring>,
                              sylow: Group, hsyl: Ring, q: int, normalizer: Group, b: Backend)
    : (c: Intermediate)
    ensures oneStep ==> c == Intermediate(sylow, Some(hsyl), false)
    ensures !oneStep && subgroup.Some? ==> c == Intermediate(subgroup.value, hp, false)
    ensures c.fromScratch <==>
      !oneStep && subgroup.None? && b.order(normalizer) != q && !IsPrimePower(b.order(normalizer))
    ensures c.fromScratch ==> c.subgroup == normalizer && c.ring == hp
    ensures !oneStep && subgroup.None? && !c.fromScratch ==> c == Intermediate(sylow, Some(hsyl), false)
  {
    if oneStep then Intermediate(sylow, Some(hsyl), false)
    else if subgroup.Some? then Intermediate(subgroup.value, hp, false)
    else
      var qP := b.order(normalizer);
      if qP == q || IsPrimePower(qP) then Intermediate(sylow, Some(hsyl), false)
      else Intermediate(normalizer, hp, true)
  }

  /** The composite cache key of a modular ring: `(KEY, GStem, HP._key, pr)`. */
  function CompositeKey(key: GroupKey, stem: string, hp: Ring, pr: int): (ck: CacheKey)
    ensures Length(ck) == 4 && ck.group == key && ck.sub == hp.key
  {
    NKey(key, stem, hp.key, pr)
  }

  /**
   * A cached entry under the composite key: absent gives nothing; present
   * is returned if its own key is that key or compares as equivalent to
   * it, and otherwise the cache is broken.
   */
  function CachedComposite(cache: map<CacheKey, Ring>, ck: CacheKey, iso: (GroupKey, GroupKey) -> bool)
    : (r: Result<Option<Ring>>)
    ensures ck !in cache ==> r == Ok(None)
    ensures ck in cache ==> (r == Ok(Some(cache[ck])) <==> EquivalentTower(ck, cache[ck].key, iso))
    ensures ck in cache && !EquivalentTower(ck, cache[ck].key, iso) ==> r == Err(BrokenCache)
  {
    if ck !in cache then Ok(None)
    else
      var out := cache[ck];
      IsKeyEquivalentNonzero(ck, out.key, iso);
      if out.key == ck then
        IsKeyEquivalentReflexive(ck, iso);
        Ok(Some(out))
      else if IsKeyEquivalent(ck, out.key, iso) != DIFFERENT then Ok(Some(out))
      else Err(BrokenCache)
  }

  /**
   * The cache lookup under the composite key as the source writes it, with
   * `_IsKeyEquivalent` as written: a cached entry whose own key differs is
   * returned whenever that comparison is nonzero, which for the
   * four-component keys built here looks at the group parts alone.
   */
  function CachedCompositeAsWritten(cache: map<CacheKey, Ring>, ck: CacheKey, iso: (GroupKey, GroupKey) -> bool)
    : (r: Result<Option<Ring>>)
    ensures ck !in cache ==> r == Ok(None)
    ensures ck in cache ==>
      (r == Ok(Some(cache[ck])) <==> cache[ck].key == ck || IsKeyEquivalentAsWritten(ck, cache[ck].key, iso) != DIFFERENT)
    ensures r.Err? ==> r == Err(BrokenCache)
  {
    if ck !in cache then Ok(None)
    else
      var out := cache[ck];
      if out.key == ck then Ok(Some(out))
      else if IsKeyEquivalentAsWritten(ck, out.key, iso) != DIFFERENT then Ok(Some(out))
      else Err(BrokenCache)
  }

  /**
   * The two lookups differ exactly on a cached ring whose four-component key
   * has an equal or isomorphic group part but a subgroup key that is not
   * equivalent: as written that ring is returned, while the lookup with the
   * intended comparison reports the cache as broken.
   */
  lemma CachedCompositeDivergence(cache: map<CacheKey, Ring>, ck: CacheKey, iso: (GroupKey, GroupKey) -> bool)
    requires ck in cache && ck.NKey? && cache[ck].key.NKey?
    ensures CachedCompositeAsWritten(cache, ck, iso) != CachedComposite(cache, ck, iso) <==>
      (ck.group == cache[ck].key.group || iso(ck.group, cache[ck].key.group))
      && !EquivalentTower(ck.sub, cache[ck].key.sub, iso)
    ensures CachedCompositeAsWritten(cache, ck, iso) != CachedComposite(cache, ck, iso) ==>
      CachedCompositeAsWritten(cache, ck, iso) == Ok(Some(cache[ck])) && CachedComposite(cache, ck, iso) == Err(BrokenCache)
  {
    AsWrittenCompositeTopOnly(ck, cache[ck].key, iso);
  }

  /** The text of a group key of length one. */
  function OneText(g: GroupKey): string
    requires GroupKeyLength(g) == 1
  {
    match g
    case PermGroup(t) => t
    case Definition(t) => t
  }

  /**
   * The key of a freshly built ring, as the factory repairs it: a key that
   * differs from the requested one and whose group part has length one gets
   * that part replaced by the permutation-group key of its text with all
   * whitespace removed.
   */
  function NormaliseBuiltKey(k: CacheKey, ck: CacheKey): (r: CacheKey)
    ensures k == ck ==> r == k
    ensures r != k ==> GroupKeyLength(k.group) == 1 && r == k.(group := PermGroup(RemoveWhitespace(OneText(k.group))))
    ensures Length(r) == Length(k) && (!k.PKey? ==> r.sub == k.sub)
  {
    if k != ck && GroupKeyLength(k.group) == 1 then k.(group := PermGroup(RemoveWhitespace(OneText(k.group))))
    else k
  }

  /** Repairing a key twice changes nothing more than repairing it once. */
  lemma NormaliseBuiltKeyIdempotent(k: CacheKey, ck: CacheKey)
    ensures NormaliseBuiltKey(NormaliseBuiltKey(k, ck), ck) == NormaliseBuiltKey(k, ck)
  {
    var r := NormaliseBuiltKey(k, ck);
    if r != k && r != ck {
      var t := RemoveWhitespace(OneText(k.group));
      assert r.group == PermGroup(t);
      assert RemoveWhitespace(t) == t;
    }
  }

  /** A built key that differs from the requested one only by whitespace in its permutation text is repaired. */
  lemma NormaliseBuiltKeyRepairsWhitespace(k: CacheKey, ck: CacheKey)
    requires k.group.PermGroup? && ck.group.PermGroup?
    requires ck == k.(group := PermGroup(RemoveWhitespace(k.group.text)))
    ensures NormaliseBuiltKey(k, ck) == ck
  {
  }
}
