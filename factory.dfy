/**
 * The cohomology ring factory `CohomologyRingFactory`: its cache of rings,
 * the option dictionary and the configured locations, the configuration
 * methods, and the factory call that resolves a group to its cohomology
 * ring. The rings of subgroups that the call obtains by calling the factory
 * again are supplied as a `Derivation`.
 */
module Factory {
  import opened Common
  import opened Text
  import opened Groups
  import opened Keys
  import opened Options
  import opened Rings
  import opened Naming
  import opened Modular
  import opened Resolve

  /** `<SAGE_SHARE>/pGroupCohomology`, the default local sources. */
  const ShareFolder: Path := ["SAGE_SHARE", "pGroupCohomology"]

  /** The `options` keyword of a factory call. */
  datatype OptionsArg = NoOptions | OptionWord(word: string) | OptionDict(entries: OptionMap) | OptionList(items: seq<Arg>)

  /** What `global_options` returns: a copy of the options, or nothing, or an exception. */
  datatype OptionsReply = Snapshot(current: OptionMap) | Updated | Rejected(error: Error)

  /** The argument of `set_remote_sources`. */
  datatype UrlsArg = DefaultUrls | UrlTuple(urls: seq<string>) | NotATuple

  /** The argument of `set_local_sources`: a false value, a true non-string, or a path. */
  datatype FolderArg = NoFolder | DefaultFolder | FolderPath(path: Path)

  predicate FolderTruthy(f: FolderArg)
  {
    f.DefaultFolder? || (f.FolderPath? && f.path != [])
  }

  function FolderOf(f: FolderArg): Path
    requires FolderTruthy(f)
  {
    if f.DefaultFolder? then ShareFolder else f.path
  }

  /** A folder `set_local_sources` accepts: an existing one, or one it can create. */
  predicate UsableFolder(s: FolderState)
  {
    s.Directory? || s == Absent(true)
  }

  /** The arguments of a factory call. */
  datatype Request = Request(
    args: GroupArgs,
    rootGiven: bool,                 // a keyword named `root`
    options: OptionsArg,
    fromScratch: bool,
    minimalGenerators: bool,
    groupId: Option<(int, int)>,
    definition: string,              // `GroupDefinition`, "" if absent
    prime: Option<PrimeArg>,
    stem: string,                    // `GStem`, "" if absent
    groupName: string,               // `GroupName`, "" if absent
    websource: Option<Value>,
    subgroup: Option<Group>,         // `Subgroup`
    sylow: Option<Group>,            // `SylowSubgroup`
    subRing: Option<Ring>,           // `SubgpCohomology`
    sylowRing: Option<Ring>,         // `SylowSubgpCohomology`
    oneStep: bool,                   // `OneStep`
    others: map<string, Value>)      // the remaining keywords

  /** The group data of a call once its arguments are checked. */
  datatype Prepared = Prepared(
    q: int,                  // the group order
    group: Group,            // `Hfinal`
    key: GroupKey,           // `KEY`
    stem: string,            // `GStem`
    name: Option<string>,    // `GroupName`
    prime: Option<int>)      // the modulus, for a group that is not a p-group

  /**
   * The results of the factory calls made while computing the ring of a
   * group that is not a p-group: a subgroup matching the given subgroup
   * ring, a Sylow subgroup and its ring, whether a Sylow subgroup isomorphic
   * to the group of a given Sylow ring was found, the normalizer of the
   * centre of the Sylow subgroup, the ring of the intermediate subgroup, and
   * the new modular ring.
   */
  datatype Derivation = Derivation(
    matchedSubgroup: Option<Group>,
    sylow: Group,
    sylowMatched: bool,
    sylowRing: Ring,
    normalizer: Group,
    subRing: Ring,
    built: Ring)

  /**
   * The argument handling at the start of the factory call: the name of a
   * single argument, `check_arguments`, `create_group_key`, the prime, the
   * stem and the group name. The arguments are replaced by the SmallGroups
   * address of the key, or by the checked group.
   */
  function Prepare(req: Request, b: Backend): (r: Result<Prepared>)
    requires WellFormedArity(req.args)
    ensures req.args.OneGroup? && req.args.g.Foreign? ==> r == Err(NoAttribute)
    ensures r.Ok? ==>
      && CheckArguments(req.args, req.minimalGenerators, req.groupId, b) == Ok((r.value.q, r.value.group))
      && !req.args.Arity?
      && CreateGroupKey(req.args, req.groupId, req.definition, b) == Ok(r.value.key)
      && r.value.q != 1
      && (r.value.prime.None? <==> IsPrimePower(r.value.q))
      && (r.value.prime.Some? ==> IsPrime(r.value.prime.value) && r.value.q % r.value.prime.value == 0)
      && (forall i :: 0 <= i < |r.value.stem| ==> IsFileNameChar(r.value.stem[i]))
      && (req.stem != "" ==> r.value.stem == Sanitise(req.stem))
      && (req.groupName != "" ==> r.value.name == Some(req.groupName))
  {
    if req.args.OneGroup? && req.args.g.Foreign? then Err(NoAttribute)
    else if req.args.Arity? then Err(BadArity)
    else
      var checked :- CheckArguments(req.args, req.minimalGenerators, req.groupId, b);
      var key := CreateGroupKey(req.args, req.groupId, req.definition, b).value;
      var pr :- ValidatePrime(checked.0, req.prime);
      var args := if key.SmallId? then Address(key.order, key.index) else OneGroup(Gap(checked.1));
      var nameForStem :=
        if req.groupName != "" then req.groupName
        else (match GapName(req.args, b) case Some(n) => n case None => "");
      var stem :- Gstem(args, req.stem, nameForStem, req.groupId, b);
      Ok(Prepared(checked.0, checked.1, key, stem, GroupName(args, req.groupName, b), pr))
  }

  /** What the p-group lookup is asked: below order 128 the web is not consulted. */
  function PRequestOf(req: Request, p: Prepared): (pr: PRequest)
    ensures p.q < 128 ==> pr.web == NoWeb
  {
    PRequest(p.stem, p.key, req.fromScratch, if p.q < 128 then NoWeb else WebSourceOf(req.websource), req.others)
  }

  /** Web access is switched off in the options. */
  predicate WebSwitchedOff(options: OptionMap)
  {
    "use_web" in options && options["use_web"] == Flag(false)
  }

  /** An update that touches at most the root marker leaves web access switched off. */
  lemma WebSwitchSurvives(before: OptionMap, after: OptionMap)
    requires forall k :: k != RootMarker ==> (k in after <==> k in before) && (k in before ==> after[k] == before[k])
    ensures WebSwitchedOff(before) ==> WebSwitchedOff(after)
  {
    assert |"use_web"| != |RootMarker|;
  }

  /**
   * A stored ring of a group that is not a p-group is returned only if it
   * belongs to the requested group and agrees with the given subgroups and
   * subgroup rings.
   */
  function AcceptStored(out: Ring, req: Request, p: Prepared, b: Backend): (r: Result<Ring>)
    ensures r.Ok? <==> (b.canonicallyIsomorphic(p.group, out.group)
                        && StoredConsistency(out, req.subRing, req.subgroup, req.sylowRing, req.sylow, b).Pass?)
    ensures r.Ok? ==> r.value == out
    ensures !b.canonicallyIsomorphic(p.group, out.group) ==> r == Err(StoredGroupMismatch)
    ensures r.Err? ==> r.error in {StoredGroupMismatch, StoredSubRingMismatch, StoredSubgroupMismatch}
  {
    if !b.canonicallyIsomorphic(p.group, out.group) then Err(StoredGroupMismatch)
    else
      var consistent := StoredConsistency(out, req.subRing, req.subgroup, req.sylowRing, req.sylow, b);
      if consistent.Fail? then Err(consistent.error) else Ok(out)
  }

  class RingFactory {
    /** `_cache`: the rings alive, by cache key. */
    var cache: map<CacheKey, Ring>
    /** `coho_options`. */
    var options: OptionMap
    /** `_create_local_sources`: new rings go to the local sources rather than the workspace. */
    var createLocalSources: bool
    /** `COHO.local_sources`. */
    var localSources: Option<Path>
    /** `COHO.workspace`. */
    var workspace: Path
    /** `COHO.remote_sources`. */
    var remoteSources: seq<string>
    /** The identity the next ring created by the factory receives. */
    var nextHandle: nat

    /** Every cached ring was created before the next identity was handed out. */
    predicate Valid()
      reads this
    {
      forall k :: k in cache ==> cache[k].handle < nextHandle
    }

    /** The folder new rings are stored under. */
    function RootWorkspace(): (root: Option<Path>)
      reads this
      ensures !createLocalSources ==> root == Some(workspace)
      ensures createLocalSources ==> root == localSources
    {
      if createLocalSources then localSources else Some(workspace)
    }

    function CurrentSources(): Sources
      reads this
    {
      Sources(RootWorkspace(), localSources, remoteSources)
    }

    /** A factory starts with an empty cache and stores new rings in the workspace. */
    constructor (options: OptionMap, workspace: Path, localSources: Option<Path>, remoteSources: seq<string>)
      ensures cache == map[] && !createLocalSources
      ensures this.options == options && this.workspace == workspace
      ensures this.localSources == localSources && this.remoteSources == remoteSources
      ensures Valid() && RootWorkspace() == Some(workspace)
    {
      cache := map[];
      createLocalSources := false;
      this.options := options;
      this.workspace := workspace;
      this.localSources := localSources;
      this.remoteSources := remoteSources;
      nextHandle := 0;
    }

    /**
     * `global_options(*args, **kwds)`. Without keywords and with no
     * argument or a single false one, a copy of the options. Otherwise the
     * string arguments are applied one by one; a non-string one raises
     * TypeError, the earlier ones having taken effect; then the keywords
     * are set.
     */
    method GlobalOptions(args: seq<Arg>, kwds: OptionMap) returns (reply: OptionsReply)
      modifies this`options
      ensures kwds == map[] && (args == [] || (|args| == 1 && Falsy(args[0]))) ==>
        reply == Snapshot(old(options)) && options == old(options)
      ensures !(kwds == map[] && (args == [] || (|args| == 1 && Falsy(args[0])))) ==>
        var n := FirstNonString(args);
        && (n < |args| ==> reply == Rejected(NonStringOption) && options == ApplyWords(old(options), Words(args[..n])))
        && (n == |args| ==> reply == Updated && options == ApplyWords(old(options), Words(args)) + kwds)
    {
      if kwds == map[] && (args == [] || (|args| == 1 && Falsy(args[0]))) {
        return Snapshot(options);
      }
      var i := 0;
      while i < |args|
        invariant 0 <= i <= |args|
        invariant forall j :: 0 <= j < i ==> args[j].Str?
        invariant options == ApplyWords(old(options), Words(args[..i]))
      {
        if args[i].NonStr? {
          FirstNonStringIs(args, i);
          return Rejected(NonStringOption);
        }
        ApplyWordsStep(old(options), args, i);
        options := ApplyWord(options, args[i].s);
        i := i + 1;
      }
      FirstNonStringIs(args, i);
      assert args[..i] == args;
      options := options + kwds;
      return Updated;
    }

    /** `set_remote_sources(URLs)`: `None` restores the default, a tuple is taken as it is. */
    method SetRemoteSources(urls: UrlsArg) returns (r: Outcome)
      modifies this`remoteSources
      ensures urls.DefaultUrls? ==> r == Pass && remoteSources == DefaultRemoteSources
      ensures urls.UrlTuple? ==> r == Pass && remoteSources == urls.urls
      ensures urls.NotATuple? ==> r == Fail(BadRemoteSources) && remoteSources == old(remoteSources)
    {
      match urls
      case DefaultUrls =>
        remoteSources := DefaultRemoteSources;
        return Pass;
      case UrlTuple(us) =>
        remoteSources := us;
        return Pass;
      case NotATuple =>
        return Fail(BadRemoteSources);
    }

    /**
     * `set_local_sources(folder)`. A true value switches to storing new
     * rings in the local sources, then settles the folder: a true
     * non-string means the default share folder. An existing folder that is
     * not writeable is used for reading only; a missing one is created; a
     * path that is not a folder raises OSError with the switch already on.
     * A false value switches back to the workspace.
     */
    method SetLocalSources(folder: FolderArg, disk: Disk) returns (r: Outcome)
      modifies this`createLocalSources, this`localSources
      ensures !FolderTruthy(folder) ==> r == Pass && !createLocalSources && localSources == old(localSources)
      ensures FolderTruthy(folder) ==> (r.Pass? <==> UsableFolder(disk.folder(FolderOf(folder))))
      ensures FolderTruthy(folder) && r.Pass? ==>
        localSources == Some(FolderOf(folder))
        && (createLocalSources <==> disk.folder(FolderOf(folder)) != Directory(false))
      ensures r.Fail? ==>
        createLocalSources && localSources == old(localSources)
        && r.error == (if disk.folder(FolderOf(folder)).NotADirectory? then NotAFolder else NotWritable)
    {
      if !FolderTruthy(folder) {
        createLocalSources := false;
        return Pass;
      }
      createLocalSources := true;
      var path := FolderOf(folder);
      match disk.folder(path) {
        case Directory(writable) =>
          if !writable {
            createLocalSources := false;
          }
        case NotADirectory =>
          return Fail(NotAFolder);
        case Absent(creatable) =>
          if !creatable {
            return Fail(NotWritable);
          }
      }
      localSources := Some(path);
      return Pass;
    }

    /**
     * `from_local_sources(*args, **kwds)`: the call made with the local
     * sources as root when they are writeable; the switch is restored
     * afterwards, unless settling the local sources raised.
     */
    method FromLocalSources(req: Request, derive: Derivation, disk: Disk, b: Backend) returns (res: Result<Ring>)
      requires Valid() && WellFormedArity(req.args)
      modifies this`createLocalSources, this`localSources, this`cache, this`options, this`nextHandle
      ensures Valid()
      ensures localSources == old(localSources)
      ensures createLocalSources == old(createLocalSources) || (res.Err? && !old(createLocalSources) && createLocalSources)
    {
      var saved := createLocalSources;
      if !createLocalSources {
        var arg := if localSources.Some? then FolderPath(localSources.value) else NoFolder;
        var settled := SetLocalSources(arg, disk);
        if settled.Fail? {
          return Err(settled.error);
        }
      }
      res := Call(req, derive, disk, b);
      createLocalSources := saved;
    }

    /**
     * `from_workspace(*args, **kwds)`: the call made with no local and no
     * remote sources and the workspace as root; the three settings are
     * restored afterwards.
     */
    method FromWorkspace(req: Request, derive: Derivation, disk: Disk, b: Backend) returns (res: Result<Ring>)
      requires Valid() && WellFormedArity(req.args)
      modifies this`createLocalSources, this`localSources, this`remoteSources, this`cache, this`options, this`nextHandle
      ensures Valid()
      ensures createLocalSources == old(createLocalSources)
      ensures localSources == old(localSources) && remoteSources == old(remoteSources)
    {
      var savedCreate, savedLocal, savedRemote := createLocalSources, localSources, remoteSources;
      localSources := None;
      remoteSources := [];
      var settled := SetLocalSources(NoFolder, disk);
      assert RootWorkspace() == Some(workspace);
      res := Call(req, derive, disk, b);
      createLocalSources, localSources, remoteSources := savedCreate, savedLocal, savedRemote;
    }

    /**
     * `_get_p_group_from_scratch`: a new ring for the group of the key,
     * stored under the root in use, and registered in the cache by its
     * constructor.
     */
    method GetPGroupFromScratch(key: GroupKey, stem: string, b: Backend) returns (ring: Ring)
      requires Valid() && RootWorkspace().Some?
      modifies this`cache, this`nextHandle
      ensures Valid()
      ensures ring.key == StateKey(RootWorkspace().value, stem, key)
      ensures ring.autosave == RootWorkspace().value + PFile(stem)
      ensures ring.group == b.groupOfKey(key) && ring.knownDeg == 0 && !ring.modular
      ensures cache == old(cache)[ring.key := ring]
      ensures ring.handle == old(nextHandle) && nextHandle == old(nextHandle) + 1
      ensures forall k :: k in old(cache) ==> old(cache)[k].handle != ring.handle
    {
      var root := RootWorkspace().value;
      ring := Ring(nextHandle, StateKey(root, stem, key), root + PFile(stem), b.groupOfKey(key), 0, false,
                   map[], None, None, None, None);
      cache := cache[ring.key := ring];
      nextHandle := nextHandle + 1;
    }

    /**
     * The `options` and `from_scratch` keywords of a factory call: a word or
     * a list goes through `global_options`, a dictionary updates the options
     * directly, and a computation from scratch switches web access off.
     */
    method ApplyOptions(req: Request) returns (rejected: Option<Error>)
      modifies this`options
      ensures rejected.Some? ==> req.options.OptionList? && rejected.value == NonStringOption
      ensures req.options.NoOptions? ==>
        rejected.None? && options == (if req.fromScratch then old(options)["use_web" := Flag(false)] else old(options))
      ensures req.options.OptionDict? ==>
        var updated := old(options) + req.options.entries;
        rejected.None? && options == (if req.fromScratch then updated["use_web" := Flag(false)] else updated)
      ensures rejected.None? && req.fromScratch ==> WebSwitchedOff(options)
    {
      match req.options {
        case NoOptions =>
        case OptionWord(w) =>
          var ignored := GlobalOptions([Str(w)], map[]);
        case OptionDict(m) =>
          options := options + m;
        case OptionList(items) =>
          var reply := GlobalOptions(items, map[]);
          if reply.Rejected? {
            return Some(reply.error);
          }
      }
      if req.fromScratch {
        options := options["use_web" := Flag(false)];
      }
      rejected := None;
    }

    /**
     * `CohomologyRing(*args, **kwds)`. The `root` keyword is refused; the
     * `options` keyword is applied; a computation from scratch switches web
     * access off. After the arguments are checked, a p-group's ring is
     * looked up, or else computed from scratch, and must fit the requested
     * cache key; below order 128 the web is not asked. Other groups go on
     * in `CallNonPrimePower`.
     */
    method Call(req: Request, derive: Derivation, disk: Disk, b: Backend) returns (res: Result<Ring>)
      requires Valid() && WellFormedArity(req.args)
      modifies this`cache, this`options, this`nextHandle
      ensures Valid()
      ensures req.rootGiven ==> res == Err(RootKeyword) && cache == old(cache) && options == old(options)
      ensures !req.rootGiven && !req.options.OptionList? && Prepare(req, b).Err? ==>
        res == Err(Prepare(req, b).error) && cache == old(cache)
      ensures res.Ok? ==> !req.rootGiven && Prepare(req, b).Ok?
      ensures res.Ok? && req.fromScratch ==> WebSwitchedOff(options)
      ensures res.Ok? && Prepare(req, b).value.prime.None? ==>
        var p := Prepare(req, b).value;
        RootWorkspace().Some?
        && EquivalentTower(StateKey(RootWorkspace().value, p.stem, p.key), res.value.key, b.keysIsomorphic)
    {
      if req.rootGiven {
        return Err(RootKeyword);
      }
      var rejected := ApplyOptions(req);
      if rejected.Some? {
        return Err(rejected.value);
      }
      var prepared := Prepare(req, b);
      if prepared.Err? {
        return Err(prepared.error);
      }
      var p := prepared.value;
      if p.prime.Some? {
        res := CallNonPrimePower(req, p, derive, disk, b);
        return;
      }
      res := CallPrimePower(req, p, disk, b);
    }

    /**
     * The factory call for a p-group: the lookup, or else a new ring, which
     * must fit the cache key of the request.
     */
    method CallPrimePower(req: Request, p: Prepared, disk: Disk, b: Backend) returns (res: Result<Ring>)
      requires Valid()
      modifies this`cache, this`options, this`nextHandle
      ensures Valid()
      ensures RootWorkspace().None? ==> res == Err(NoWorkspaceRoot) && cache == old(cache) && options == old(options)
      ensures WebSwitchedOff(old(options)) ==> WebSwitchedOff(options)
      ensures RootWorkspace().Some? ==>
        var ck := StateKey(RootWorkspace().value, p.stem, p.key);
        var l := FindPGroup(old(cache), old(options), CurrentSources(), PRequestOf(req, p), disk, b);
        && options == l.options
        && (l.result.Err? ==> res == Err(l.result.error) && cache == l.cache)
        && (l.result.Ok? && l.result.value.Some? ==>
              res == CheckCompatibility(ck, l.result.value.value, b.keysIsomorphic) && cache == l.cache)
        // nothing stored: a new ring under the requested key, distinct from every cached one
        && (l.result == Ok(None) ==>
              res.Ok? && res.value.key == ck && cache == l.cache[ck := res.value]
              && (forall k :: k in old(cache) ==> old(cache)[k].handle != res.value.handle))
        && (res.Ok? ==> EquivalentTower(ck, res.value.key, b.keysIsomorphic))
    {
      var root := RootWorkspace();
      if root.None? {
        return Err(NoWorkspaceRoot);
      }
      var ck := StateKey(root.value, p.stem, p.key);
      var lookup := FindPGroup(cache, options, CurrentSources(), PRequestOf(req, p), disk, b);
      cache, options := lookup.cache, lookup.options;
      if lookup.result.Err? {
        return Err(lookup.result.error);
      }
      var ring: Ring;
      if lookup.result.value.Some? {
        ring := lookup.result.value.value;
      } else {
        ring := GetPGroupFromScratch(p.key, p.stem, b);
        CheckCompatibilityOwnKey(ring, b.keysIsomorphic);
      }
      CheckCompatibilityIff(ck, ring, b.keysIsomorphic);
      res := CheckCompatibility(ck, ring, b.keysIsomorphic);
    }

    /**
     * The factory call for a group that is not a p-group. A stored ring
     * must belong to the group and agree with the given subgroups and
     * rings. Otherwise the given data are checked, the subgroups and their
     * rings completed, and a ring cached under the composite key is
     * returned if it compares as equivalent; else the new modular ring is
     * registered under its own key, which is repaired when its group part
     * is a text, and must then be the composite key.
     */
    method CallNonPrimePower(req: Request, p: Prepared, derive: Derivation, disk: Disk, b: Backend)
      returns (res: Result<Ring>)
      requires Valid() && p.prime.Some? && p.prime.value >= 2
      modifies this`cache, this`options, this`nextHandle
      ensures Valid()
      ensures WebSwitchedOff(old(options)) ==> WebSwitchedOff(options)
      ensures var l := FindNonPGroup(old(options), CurrentSources(), p.stem, p.prime.value, req.fromScratch,
                                     WebSourceOf(req.websource), disk);
        && (l.result.Err? ==> res == Err(l.result.error) && cache == old(cache))
        && (l.result.Ok? && l.result.value.Some? ==>
              var out := l.result.value.value;
              cache == old(cache)
              && (res.Ok? <==> b.canonicallyIsomorphic(p.group, out.group)
                               && StoredConsistency(out, req.subRing, req.subgroup, req.sylowRing, req.sylow, b).Pass?)
              && (res.Ok? ==> res.value == out))
        && (l.result.Ok? && l.result.value.None? && res.Ok? ==>
              res.value.key.NKey?
              && (res.value.key.group == p.key || b.keysIsomorphic(p.key, res.value.key.group)))
        && (l.result.Ok? && l.result.value.None? && SylowRingOf(req.subRing, req.sylowRing).Ok?
            && CheckSubgroups(p.group, req.subgroup, req.sylow, p.prime.value, b).Fail? ==>
              res == Err(CheckSubgroups(p.group, req.subgroup, req.sylow, p.prime.value, b).error))
    {
      var pr := p.prime.value;
      var src := CurrentSources();
      var lookup := FindNonPGroup(options, src, p.stem, pr, req.fromScratch, WebSourceOf(req.websource), disk);
      WebSwitchSurvives(options, lookup.options);
      options := lookup.options;
      assert CurrentSources() == src;
      if lookup.result.Err? {
        return Err(lookup.result.error);
      }
      if lookup.result.value.Some? {
        return AcceptStored(lookup.result.value.value, req, p, b);
      }
      res := ComputeNonPrimePower(req, p, derive, b);
    }

    /**
     * The hard work for a group that is not a p-group and has no stored
     * ring: the given subgroups and rings are checked and completed, a
     * ring cached under the composite key is returned if it compares as
     * equivalent, and otherwise the new modular ring is registered.
     */
    method ComputeNonPrimePower(req: Request, p: Prepared, derive: Derivation, b: Backend) returns (res: Result<Ring>)
      requires Valid() && p.prime.Some? && p.prime.value >= 2
      modifies this`cache, this`nextHandle
      ensures Valid()
      ensures res.Ok? ==>
        res.value.key.NKey? && (res.value.key.group == p.key || b.keysIsomorphic(p.key, res.value.key.group))
      ensures SylowRingOf(req.subRing, req.sylowRing).Err? ==>
        res == Err(SylowRingOf(req.subRing, req.sylowRing).error) && cache == old(cache)
      ensures SylowRingOf(req.subRing, req.sylowRing).Ok?
              && CheckSubgroups(p.group, req.subgroup, req.sylow, p.prime.value, b).Fail? ==>
        res == Err(CheckSubgroups(p.group, req.subgroup, req.sylow, p.prime.value, b).error) && cache == old(cache)
      ensures SylowRingOf(req.subRing, req.sylowRing).Ok?
              && CheckSubgroups(p.group, req.subgroup, req.sylow, p.prime.value, b).Pass?
              && MatchGiven(req.subgroup, req.subRing, req.sylow, SylowRingOf(req.subRing, req.sylowRing).value, b).Pass?
              && req.sylow.None? && req.subRing.None? && req.sylowRing.Some? && !derive.sylowMatched ==>
        res == Err(NoMatchingSylow) && cache == old(cache)
    {
      var hsyl :- SylowRingOf(req.subRing, req.sylowRing);
      var pr := p.prime.value;
      var checked := CheckSubgroups(p.group, req.subgroup, req.sylow, pr, b);
      if checked.Fail? {
        return Err(checked.error);
      }
      var subgroup := req.subgroup;
      if subgroup.None? && req.subRing.Some? {
        if derive.matchedSubgroup.None? {
          return Err(NoMatchingSubgroup);
        }
        subgroup := derive.matchedSubgroup;
      }
      var matched := MatchGiven(req.subgroup, req.subRing, req.sylow, hsyl, b);
      if matched.Fail? {
        return Err(matched.error);
      }
      // without a subgroup ring, a given Sylow ring must match some Sylow subgroup
      if req.sylow.None? && req.subRing.None? && hsyl.Some? && !derive.sylowMatched {
        return Err(NoMatchingSylow);
      }
      var sylow := if req.sylow.Some? then req.sylow.value else derive.sylow;
      var sylowRing := if hsyl.Some? then hsyl.value else derive.sylowRing;
      var inter := ChooseIntermediate(req.oneStep, subgroup, req.subRing, sylow, sylowRing, p.q, derive.normalizer, b);
      var hp := if inter.ring.Some? then inter.ring.value else derive.subRing;
      var ck := CompositeKey(p.key, p.stem, hp, pr);
      var cached :- CachedComposite(cache, ck, b.keysIsomorphic);
      if cached.Some? {
        return Ok(cached.value);
      }
      var built := derive.built.(handle := nextHandle, modular := true);
      var repaired := built.(key := NormaliseBuiltKey(built.key, ck));
      cache := cache[built.key := repaired];
      nextHandle := nextHandle + 1;
      if repaired.key != ck {
        return Err(CorruptedKeys);
      }
      return Ok(repaired);
    }
  }
}
