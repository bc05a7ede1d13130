/**
 * Cohomology rings as the factory sees them: a handle standing for object
 * identity, the cache key, the autosave location, the group, and the rings
 * a modular ring was computed from. The ring algebra itself lives outside
 * this model.
 */
module Rings {
  import opened Common
  import opened Groups
  import opened Keys
  import opened Options

  datatype Ring = Ring(
    handle: nat,                  // Python object identity (`is`)
    key: CacheKey,                // `_key`
    autosave: Path,               // `autosave_name()`
    group: Group,                 // `group()`
    knownDeg: nat,                // degree up to which the ring is known
    modular: bool,                // an instance of the non prime-power class
    props: map<string, Value>,    // properties set with `setprop`
    hp: Option<Ring>,             // `_HP`: ring of the intermediate subgroup
    hsyl: Option<Ring>,           // `_HSyl`: ring of the Sylow subgroup
    subgroup: Option<Group>,      // `subgroup()`
    sylow: Option<Group>          // `sylow_subgroup()`
  )

  /** `for k, v in kwds.items(): R.setprop(k, v)`. */
  function SetProps(r: Ring, kw: map<string, Value>): (r': Ring)
    ensures r'.handle == r.handle && r'.key == r.key && r'.autosave == r.autosave
    ensures forall k :: k in kw ==> k in r'.props && r'.props[k] == kw[k]
    ensures forall k :: k in r.props && k !in kw ==> k in r'.props && r'.props[k] == r.props[k]
    ensures r'.props.Keys == r.props.Keys + kw.Keys
  {
    r.(props := r.props + kw)
  }

  /**
   * `_check_compatibility(CacheKey, R)`: the ring is handed back unless its
   * key compares as different to the requested one (a warning is logged
   * when the groups are only isomorphic).
   */
  function CheckCompatibility(key: CacheKey, r: Ring, iso: (GroupKey, GroupKey) -> bool): (res: Result<Ring>)
    ensures res.Ok? ==> res.value == r
    ensures res.Err? ==> res.error == IncompatibleRing
  {
    if IsKeyEquivalent(key, r.key, iso) == DIFFERENT then Err(IncompatibleRing) else Ok(r)
  }

  /** Compatibility holds exactly for keys that agree up to isomorphism at every level. */
  lemma CheckCompatibilityIff(key: CacheKey, r: Ring, iso: (GroupKey, GroupKey) -> bool)
    ensures CheckCompatibility(key, r, iso).Ok? <==> EquivalentTower(key, r.key, iso)
  {
    IsKeyEquivalentNonzero(key, r.key, iso);
  }

  /**
   * For the state key of a prime-power group, compatibility is decided by
   * the comparison as written in the source as well.
   */
  lemma CheckCompatibilityAsWritten(key: CacheKey, r: Ring, iso: (GroupKey, GroupKey) -> bool)
    requires key.PKey?
    ensures CheckCompatibility(key, r, iso).Ok? <==> IsKeyEquivalentAsWritten(key, r.key, iso) != DIFFERENT
  {
    AsWrittenAgreesOnStateKeys(key, r.key, iso);
  }

  /** A ring always fits its own key. */
  lemma CheckCompatibilityOwnKey(r: Ring, iso: (GroupKey, GroupKey) -> bool)
    ensures CheckCompatibility(r.key, r, iso) == Ok(r)
  {
    IsKeyEquivalentReflexive(r.key, iso);
  }
}
