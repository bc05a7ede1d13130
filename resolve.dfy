/**
 * Where the factory finds an existing cohomology ring before it computes
 * one: the cache, the workspace, the local sources and the web repository,
 * tried in that order (`_get_p_group_from_cache_or_db` and
 * `_get_non_p_group_from_db`). The file system, the unpickler and the web
 * are oracles gathered in a `Disk` value; the lookups are functions of the
 * factory's state and return its new state.
 */
module Resolve {
  import opened Common
  import opened Text
  import opened Groups
  import opened Keys
  import opened Options
  import opened Rings

  /** The repository used when no remote source was configured. */
  const DefaultRemoteSources: seq<string> := ["http://cohomology.uni-jena.de/db/"]

  /** The option that tells the unpickler which root a stored ring lives under. */
  const RootMarker: string := "@use_this_root@"

  /** The `websource` keyword: absent, `False`, or a URL. */
  datatype WebSource = DefaultWeb | NoWeb | WebUrl(url: string)

  /** Python `v == False`, which also holds for the integer 0. */
  predicate IsFalse(v: Value)
  {
    v == Flag(false) || v == Number(0)
  }

  /** How the lookups read the `websource` keyword. */
  function WebSourceOf(v: Option<Value>): (w: WebSource)
    ensures w == NoWeb <==> v.Some? && IsFalse(v.value)
    ensures w.WebUrl? <==> v.Some? && v.value.Word?
    ensures w.WebUrl? ==> v == Some(Word(w.url))
  {
    match v
    case None => DefaultWeb
    case Some(Word(s)) => WebUrl(s)
    case Some(x) => if IsFalse(x) then NoWeb else DefaultWeb
  }

  /** What fetching a ring from a list of repositories gave. */
  datatype WebReply =
    | Fetched(ring: Ring)     // downloaded and loaded
    | Missing                 // not found (HTTP 404, a bad archive, an interrupt)
    | Raised                  // any other exception

  /** What `os.path.exists`, `isdir` and `os.access(W_OK)` say about a folder. */
  datatype FolderState = Absent(creatable: bool) | Directory(writable: bool) | NotADirectory

  /** The outside world as the factory sees it. */
  datatype Disk = Disk(
    readable: set<Path>,                // `os.access(path, os.R_OK)`
    load: Path -> Option<Ring>,         // `load(path)`; `None` when it raises
    mirror: (Path, Path) -> bool,       // `_symlink_to_database(publ, priv)` succeeded
    link: (Path, Path) -> bool,         // `os.symlink(src, dst)` succeeded
    fetch: seq<string> -> WebReply,     // `from_remote_sources` once its URL list is fixed
    folder: Path -> FolderState)

  /** The configured locations: the root used for new rings, the local sources, the remote sources. */
  datatype Sources = Sources(root: Option<Path>, local: Option<Path>, remote: seq<string>)

  /** `coho_options.get('use_web')` is true. */
  predicate UseWeb(options: OptionMap)
  {
    "use_web" in options && Truthy(options["use_web"])
  }

  predicate EndsWithSlash(s: string)
  {
    |s| > 0 && s[|s| - 1] == '/'
  }

  /**
   * The repositories `from_remote_sources` tries: the configured remote
   * sources, or the one URL given; none when that list or URL is empty.
   * Every URL ends with a slash.
   */
  function RemoteUrls(remote: seq<string>, w: WebSource): (urls: Option<seq<string>>)
    ensures urls.Some? ==> |urls.value| > 0 && forall i :: 0 <= i < |urls.value| ==> EndsWithSlash(urls.value[i])
    ensures w.WebUrl? ==> (urls.Some? <==> w.url != "") && (urls.Some? ==> urls.value == [WithTrailingSlash(w.url)])
    ensures w.DefaultWeb? ==> (urls.Some? <==> remote != [])
    ensures w.DefaultWeb? && urls.Some? ==>
      |urls.value| == |remote| && forall i :: 0 <= i < |remote| ==> urls.value[i] == WithTrailingSlash(remote[i])
    ensures w.NoWeb? ==> urls.None?
  {
    match w
    case NoWeb => None
    case WebUrl(u) => if u == "" then None else Some([WithTrailingSlash(u)])
    case DefaultWeb =>
      if remote == [] then None
      else Some(seq(|remote|, i requires 0 <= i < |remote| => WithTrailingSlash(remote[i])))
  }

  /** `from_remote_sources(GStem[, websource])`: nothing unless web access is enabled. */
  function FetchRemote(options: OptionMap, remote: seq<string>, w: WebSource, disk: Disk): WebReply
  {
    if !UseWeb(options) then Missing
    else match RemoteUrls(remote, w)
      case None => Missing
      case Some(urls) => disk.fetch(urls)
  }

  /** `<GStem>/H<GStem>.sobj`, relative to a root. */
  function PFile(stem: string): Path
  {
    [stem, "H" + stem + ".sobj"]
  }

  /** `H<GStem>mod<pr>.sobj`, relative to a root. */
  function NonPFile(stem: string, pr: int): Path
  {
    ["H" + stem + "mod" + IntToString(pr) + ".sobj"]
  }

  /** The cache key of a prime-power group: the group key and the ring's state file. */
  function StateKey(root: Path, stem: string, key: GroupKey): (ck: CacheKey)
    ensures ck.PKey? && ck.group == key && Common.IsPrefix(root, ck.state)
  {
    PKey(key, root + [stem, "dat", "State"])
  }

  /** Local sources are used only when they are set to a non-empty path. */
  predicate HasLocal(src: Sources)
  {
    src.local.Some? && src.local.value != []
  }

  /** A request for the ring of a prime-power group, with the keywords the lookup reads. */
  datatype PRequest = PRequest(
    stem: string,
    key: GroupKey,
    fromScratch: bool,
    web: WebSource,
    props: map<string, Value>)     // the remaining keywords, set as ring properties

  /** The result of a lookup and the new cache and options. */
  datatype Lookup = Lookup(result: Result<Option<Ring>>, cache: map<CacheKey, Ring>, options: OptionMap)

  /**
   * `load` with the root marker set around it: the marker is gone
   * afterwards whether the load succeeded or not.
   */
  function LoadAt(options: OptionMap, path: Path, disk: Disk): (r: (Result<Option<Ring>>, OptionMap))
    ensures r.1 == options - {RootMarker}
    ensures r.0.Ok? <==> disk.load(path).Some?
    ensures r.0.Ok? ==> r.0.value == disk.load(path)
    ensures r.0.Err? ==> r.0.error == LoadFailed
  {
    match disk.load(path)
    case Some(ring) => (Ok(Some(ring)), options - {RootMarker})
    case None => (Err(LoadFailed), options - {RootMarker})
  }

  /** The stored ring is in the workspace. */
  predicate PInWorkspace(root: Path, req: PRequest, disk: Disk)
  {
    root + PFile(req.stem) in disk.readable
  }

  /** The stored ring is taken from the local sources. */
  predicate PInLocal(root: Path, src: Sources, req: PRequest, disk: Disk)
  {
    !PInWorkspace(root, req, disk) && HasLocal(src) && src.local.value + PFile(req.stem) in disk.readable
    && !req.fromScratch
  }

  /** The web repository is asked. */
  predicate PAsksWeb(root: Path, src: Sources, req: PRequest, disk: Disk)
  {
    !PInWorkspace(root, req, disk) && !PInLocal(root, src, req, disk) && req.web != NoWeb && !req.fromScratch
  }

  /** Steps 2 to 4 of the prime-power lookup: workspace, local sources, web. */
  function FindPStored(options: OptionMap, root: Path, src: Sources, req: PRequest, disk: Disk)
    : (r: (Result<Option<Ring>>, OptionMap))
  {
    var file := PFile(req.stem);
    if PInWorkspace(root, req, disk) then
      if req.fromScratch then (Err(FromScratchButStored), options)
      else LoadAt(options, root + file, disk)
    else if PInLocal(root, src, req, disk) then
      if !disk.mirror(src.local.value + [req.stem], root + [req.stem]) then (Err(MirrorFailed), options)
      else LoadAt(options, root + file, disk)
    else if PAsksWeb(root, src, req, disk) then
      match FetchRemote(options, src.remote, req.web, disk)
      case Fetched(ring) => (Ok(Some(ring)), options)
      case Missing => (Ok(None), options)
      case Raised => (Err(RemoteFailure), options)
    else (Ok(None), options)
  }

  /**
   * A ring read from disk or the web: a ring stored for a SmallGroups
   * address must hold a group canonically isomorphic to the library's, and
   * it receives the remaining keywords as properties.
   */
  function CheckStored(found: Result<Option<Ring>>, key: GroupKey, props: map<string, Value>, b: Backend)
    : Result<Option<Ring>>
  {
    match found
    case Ok(Some(ring)) =>
      if key.SmallId? && !b.canonicallyIsomorphic(ring.group, b.smallGroup(key.order, key.index)) then
        Err(StoredGroupMismatch)
      else Ok(Some(SetProps(ring, props)))
    case _ => found
  }

  /** The cache entry of the request is present and its autosave file is readable. */
  predicate CacheHit(cache: map<CacheKey, Ring>, root: Path, req: PRequest, disk: Disk)
  {
    var ck := StateKey(root, req.stem, req.key);
    ck in cache && cache[ck].autosave in disk.readable
  }

  /**
   * `_get_p_group_from_cache_or_db`. The cache first; an entry whose file
   * has vanished is evicted. Then the workspace (refused for a computation
   * from scratch), then the local sources, mirrored into the workspace,
   * then the web unless `websource` is `False`. A computation from scratch
   * also switches web access off for good.
   */
  function FindPGroup(cache: map<CacheKey, Ring>, options: OptionMap, src: Sources, req: PRequest,
                      disk: Disk, b: Backend): (l: Lookup)
    // the options change only in `use_web` and the root marker
    ensures forall k :: k != "use_web" && k != RootMarker ==>
      (k in l.options <==> k in options) && (k in options ==> l.options[k] == options[k])
    ensures RootMarker !in options ==> RootMarker !in l.options
    ensures req.fromScratch ==> "use_web" in l.options && l.options["use_web"] == Flag(false)
    ensures !req.fromScratch ==>
      && ("use_web" in l.options <==> "use_web" in options)
      && ("use_web" in options ==> l.options["use_web"] == options["use_web"])
    ensures forall k :: k in l.cache ==> k in cache && l.cache[k] == cache[k]
    ensures src.root.None? ==> l.result == Err(NoWorkspaceRoot) && l.cache == cache
    ensures src.root.Some? ==>
      var root := src.root.value;
      var ck := StateKey(root, req.stem, req.key);
      // only the stale entry of the request can leave the cache, and nothing enters it
      && l.cache.Keys <= cache.Keys
      && (forall k :: k in cache && k != ck ==> k in l.cache && l.cache[k] == cache[k])
      && (ck in l.cache <==> CacheHit(cache, root, req, disk))
      && (CacheHit(cache, root, req, disk) ==> l.result == Ok(Some(cache[ck])))
      // a computation from scratch never returns a stored ring
      && (req.fromScratch && l.result.Ok? && l.result.value.Some? ==> CacheHit(cache, root, req, disk))
      && (req.fromScratch && !CacheHit(cache, root, req, disk) && PInWorkspace(root, req, disk) ==>
            l.result == Err(FromScratchButStored))
      // a ring read from disk or the web carries the keywords and, for a
      // SmallGroups address, the library's group
      && (l.result.Ok? && l.result.value.Some? && !CacheHit(cache, root, req, disk) ==>
            var ring := l.result.value.value;
            (forall k :: k in req.props ==> k in ring.props && ring.props[k] == req.props[k])
            && (req.key.SmallId? ==> b.canonicallyIsomorphic(ring.group, b.smallGroup(req.key.order, req.key.index))))
      // the web is asked only when it is enabled and allowed
      && (l.result.Ok? && l.result.value.Some? && !CacheHit(cache, root, req, disk)
            && !PInWorkspace(root, req, disk) && !PInLocal(root, src, req, disk) ==>
            req.web != NoWeb && UseWeb(options))
    ensures l.result.Err? ==>
      l.result.error in {NoWorkspaceRoot, FromScratchButStored, LoadFailed, MirrorFailed, RemoteFailure, StoredGroupMismatch}
  {
    assert "use_web" != RootMarker by {
      assert |"use_web"| != |RootMarker|;
    }
    var opts := if req.fromScratch then options["use_web" := Flag(false)] else options;
    if src.root.None? then Lookup(Err(NoWorkspaceRoot), cache, opts)
    else
      var root := src.root.value;
      var ck := StateKey(root, req.stem, req.key);
      if CacheHit(cache, root, req, disk) then Lookup(Ok(Some(cache[ck])), cache, opts)
      else
        var stored := FindPStored(opts, root, src, req, disk);
        Lookup(CheckStored(stored.0, req.key, req.props, b), cache - {ck}, stored.1)
  }

  /**
   * The order of the tiers after a cache miss: a file in the workspace is
   * loaded from there (or refused for a computation from scratch); else a
   * file in the local sources is mirrored into the workspace and loaded
   * from the mirror; only when neither file is present is the web asked,
   * and a computation from scratch or a switched-off web finds nothing.
   */
  lemma FindPGroupTiers(cache: map<CacheKey, Ring>, options: OptionMap, src: Sources, req: PRequest,
                        disk: Disk, b: Backend)
    requires src.root.Some? && !CacheHit(cache, src.root.value, req, disk)
    ensures var root := src.root.value;
      var l := FindPGroup(cache, options, src, req, disk, b);
      var loaded := CheckStored(LoadAt(options, root + PFile(req.stem), disk).0, req.key, req.props, b);
      && (PInWorkspace(root, req, disk) && !req.fromScratch ==> l.result == loaded && l.options == options - {RootMarker})
      && (!PInWorkspace(root, req, disk) && req.fromScratch ==> l.result == Ok(None))
      && (PInLocal(root, src, req, disk) ==>
            l.result == if disk.mirror(src.local.value + [req.stem], root + [req.stem]) then loaded else Err(MirrorFailed))
      && (!PInWorkspace(root, req, disk) && !PInLocal(root, src, req, disk) && !req.fromScratch ==>
            var reply := FetchRemote(options, src.remote, req.web, disk);
            && l.options == options
            && (req.web == NoWeb ==> l.result == Ok(None))
            && (req.web != NoWeb && reply.Missing? ==> l.result == Ok(None))
            && (req.web != NoWeb && reply.Raised? ==> l.result == Err(RemoteFailure))
            && (req.web != NoWeb && reply.Fetched? ==> l.result == CheckStored(Ok(Some(reply.ring)), req.key, req.props, b)))
  {
  }

  /** Steps 2 to 4 give the same answer again with the options they left. */
  lemma FindPStoredRepeatable(opts: OptionMap, root: Path, src: Sources, req: PRequest, disk: Disk)
    requires req.fromScratch ==> "use_web" in opts && opts["use_web"] == Flag(false)
    ensures var s := FindPStored(opts, root, src, req, disk);
      var again := if req.fromScratch then s.1["use_web" := Flag(false)] else s.1;
      FindPStored(again, root, src, req, disk) == s
  {
    var s := FindPStored(opts, root, src, req, disk);
    var again := if req.fromScratch then s.1["use_web" := Flag(false)] else s.1;
    if req.fromScratch {
      assert s.1 == opts;
      assert again == opts;
    } else if PInWorkspace(root, req, disk)
              || (PInLocal(root, src, req, disk) && disk.mirror(src.local.value + [req.stem], root + [req.stem])) {
      assert again == opts - {RootMarker};
      assert again - {RootMarker} == again;
    } else {
      assert again == opts;
    }
  }

  /**
   * The lookup can be repeated: against the same disk, a second call with
   * the cache and options the first one left gives the same result and
   * changes nothing further.
   */
  lemma FindPGroupRepeatable(cache: map<CacheKey, Ring>, options: OptionMap, src: Sources, req: PRequest,
                             disk: Disk, b: Backend)
    ensures var l := FindPGroup(cache, options, src, req, disk, b);
      FindPGroup(l.cache, l.options, src, req, disk, b) == l
  {
    var l := FindPGroup(cache, options, src, req, disk, b);
    var opts := if req.fromScratch then options["use_web" := Flag(false)] else options;
    var opts2 := if req.fromScratch then l.options["use_web" := Flag(false)] else l.options;
    if src.root.Some? {
      var root := src.root.value;
      var ck := StateKey(root, req.stem, req.key);
      if CacheHit(cache, root, req, disk) {
        assert l.options == opts;
        assert opts2 == opts;
      } else {
        assert !CacheHit(l.cache, root, req, disk);
        assert l.cache - {ck} == l.cache;
        FindPStoredRepeatable(opts, root, src, req, disk);
      }
    }
  }

  // ---------------------------------------------------------------------
  // The message raised when a ring linked from the local sources cannot be
  // loaded. Python's `%` formatting refuses a template with a malformed
  // directive by raising ValueError, so the template decides which
  // exception the caller sees.
  // ---------------------------------------------------------------------

  /** The template as written: `%.` has no conversion character after the precision. */
  const WrittenLoadMessage: string := "%. Saved data at %s are not readable"

  /** The evident intent: the load error, then the path. */
  const IntendedLoadMessage: string := "%s. Saved data at %s are not readable"

  predicate IsFormatFlag(c: char)
  {
    c == '#' || c == '0' || c == '-' || c == ' ' || c == '+'
  }

  predicate IsConversion(c: char)
  {
    || c == 'd' || c == 'i' || c == 'o' || c == 'u' || c == 'x' || c == 'X'
    || c == 'e' || c == 'E' || c == 'f' || c == 'F' || c == 'g' || c == 'G'
    || c == 'c' || c == 'r' || c == 's' || c == 'a' || c == '%'
  }

  /** The first position at or after `i` whose character is not a flag. */
  function SkipFlags(t: string, i: nat): (j: nat)
    requires i <= |t|
    ensures i <= j <= |t| && (j < |t| ==> !IsFormatFlag(t[j]))
    decreases |t| - i
  {
    if i < |t| && IsFormatFlag(t[i]) then SkipFlags(t, i + 1) else i
  }

  /** The first position at or after `i` whose character is not a digit. */
  function SkipDigits(t: string, i: nat): (j: nat)
    requires i <= |t|
    ensures i <= j <= |t| && (j < |t| ==> !IsDigit(t[j]))
    decreases |t| - i
  {
    if i < |t| && IsDigit(t[i]) then SkipDigits(t, i + 1) else i
  }

  /**
   * A directive starting just after a `%` at `i`: flags, a width, an
   * optional `.` and precision, then a conversion character. The position
   * after it, or `None` when the conversion character is missing.
   */
  function DirectiveEnd(t: string, i: nat): (e: Option<nat>)
    requires i <= |t|
    ensures e.Some? ==> i < e.value <= |t| && IsConversion(t[e.value - 1])
  {
    var j := SkipDigits(t, SkipFlags(t, i));
    var k := if j < |t| && t[j] == '.' then SkipDigits(t, j + 1) else j;
    if k < |t| && IsConversion(t[k]) then Some(k + 1) else None
  }

  /** The number of arguments the template from `i` on consumes, or `None` if it is malformed. */
  function Directives(t: string, i: nat): Option<nat>
    requires i <= |t|
    decreases |t| - i
  {
    if i == |t| then Some(0)
    else if t[i] != '%' then Directives(t, i + 1)
    else match DirectiveEnd(t, i + 1)
      case None => None
      case Some(e) =>
        match Directives(t, e)
        case None => None
        case Some(n) => Some(if t[e - 1] == '%' then n else n + 1)
  }

  /** Text without a `%` consumes no argument. */
  lemma {:induction false} DirectivesPlainText(t: string, i: nat, j: nat)
    requires i <= j <= |t| && forall m :: i <= m < j ==> t[m] != '%'
    ensures Directives(t, i) == Directives(t, j)
    decreases j - i
  {
    if i < j {
      DirectivesPlainText(t, i + 1, j);
    }
  }

  /** The exception raised for a failed load: formatting the message fails with ValueError if it is malformed. */
  function LocalLoadError(template: string): (e: Error)
    ensures Directives(template, 0) == Some(2) ==> e == LoadFailed && Kind(e) == IOError
    ensures Directives(template, 0).None? ==> e == MalformedMessage && Kind(e) == ValueError
  {
    match Directives(template, 0)
    case Some(2) => LoadFailed
    case Some(_) => MalformedMessage
    case None => MalformedMessage
  }

  /**
   * As written, a failed load from the local sources surfaces as a
   * ValueError about the format string instead of the IOError every other
   * failed load raises; the intended template gives the IOError.
   */
  lemma LocalLoadErrorAsWritten()
    ensures LocalLoadError(WrittenLoadMessage) == MalformedMessage
    ensures Kind(LocalLoadError(WrittenLoadMessage)) == ValueError
    ensures LocalLoadError(IntendedLoadMessage) == LoadFailed
    ensures Kind(LocalLoadError(IntendedLoadMessage)) == IOError
  {
    WrittenMalformed();
    IntendedTakesTwo();
  }

  lemma WrittenMalformed()
    ensures Directives(WrittenLoadMessage, 0).None?
  {
    var w := WrittenLoadMessage;
    assert w[0] == '%' && w[1] == '.' && w[2] == ' ';
    assert SkipFlags(w, 1) == 1;
    assert SkipDigits(w, 1) == 1;
    assert SkipDigits(w, 2) == 2;
    assert DirectiveEnd(w, 1).None?;
  }

  lemma IntendedTail()
    ensures Directives(IntendedLoadMessage, 18) == Some(1)
  {
    var t := IntendedLoadMessage;
    assert |t| == 37;
    assert t[18] == '%' && t[19] == 's';
    assert forall m :: 20 <= m < 37 ==> t[m] != '%';
    DirectivesPlainText(t, 20, 37);
    assert SkipFlags(t, 19) == 19 && SkipDigits(t, 19) == 19;
    assert DirectiveEnd(t, 19) == Some(20);
  }

  lemma IntendedTakesTwo()
    ensures Directives(IntendedLoadMessage, 0) == Some(2)
  {
    var t := IntendedLoadMessage;
    assert |t| == 37;
    assert t[0] == '%' && t[1] == 's';
    assert forall m :: 2 <= m < 18 ==> t[m] != '%';
    DirectivesPlainText(t, 2, 18);
    IntendedTail();
    assert SkipFlags(t, 1) == 1 && SkipDigits(t, 1) == 1;
    assert DirectiveEnd(t, 1) == Some(2);
  }

  // ---------------------------------------------------------------------
  // The lookup for a group whose order is not a prime power.
  // ---------------------------------------------------------------------

  /** The result of that lookup and the new options; it never touches the cache. */
  datatype NonPLookup = NonPLookup(result: Result<Option<Ring>>, options: OptionMap)

  predicate NonPInWorkspace(root: Path, stem: string, pr: int, disk: Disk)
  {
    root + NonPFile(stem, pr) in disk.readable
  }

  predicate NonPInLocal(root: Path, src: Sources, stem: string, pr: int, fromScratch: bool, disk: Disk)
  {
    !NonPInWorkspace(root, stem, pr, disk) && HasLocal(src) && src.local.value + NonPFile(stem, pr) in disk.readable
    && !fromScratch
  }

  /**
   * `_get_non_p_group_from_db`: the workspace (refused for a computation
   * from scratch), then the local sources, linked file by file into the
   * workspace, then the web unless `websource` is `False`, where every
   * failure just means that nothing was found. There is no cache step.
   */
  function FindNonPGroup(options: OptionMap, src: Sources, stem: string, pr: int, fromScratch: bool,
                         web: WebSource, disk: Disk): (l: NonPLookup)
    ensures forall k :: k != RootMarker ==>
      (k in l.options <==> k in options) && (k in options ==> l.options[k] == options[k])
    ensures RootMarker !in options ==> RootMarker !in l.options
    ensures src.root.None? ==> l.result == Err(NoWorkspaceRoot)
    ensures src.root.Some? ==>
      var root := src.root.value;
      var file := NonPFile(stem, pr);
      // a computation from scratch never returns a stored ring
      && (fromScratch ==> l.result == (if NonPInWorkspace(root, stem, pr, disk) then Err(FromScratchButStored) else Ok(None)))
      // every failed load raises IOError
      && (NonPInWorkspace(root, stem, pr, disk) && !fromScratch ==> (l.result.Err? <==> disk.load(root + file).None?))
      && (NonPInLocal(root, src, stem, pr, fromScratch, disk) && disk.link(src.local.value + file, root + file) ==>
            (l.result.Err? <==> disk.load(root + file).None?))
      && (l.result.Err? && l.result.error != FromScratchButStored && l.result.error != LinkFailed ==>
            l.result.error == LoadFailed)
      // the web never raises and is asked only when enabled and allowed
      && (!NonPInWorkspace(root, stem, pr, disk) && !NonPInLocal(root, src, stem, pr, fromScratch, disk) ==>
            l.result.Ok? && (l.result.value.Some? ==> web != NoWeb && UseWeb(options)))
    ensures l.result.Err? ==> l.result.error in {NoWorkspaceRoot, FromScratchButStored, LoadFailed, LinkFailed}
  {
    if src.root.None? then NonPLookup(Err(NoWorkspaceRoot), options)
    else
      var root := src.root.value;
      var file := NonPFile(stem, pr);
      if NonPInWorkspace(root, stem, pr, disk) then
        if fromScratch then NonPLookup(Err(FromScratchButStored), options)
        else
          var r := LoadAt(options, root + file, disk);
          NonPLookup(r.0, r.1)
      else if NonPInLocal(root, src, stem, pr, fromScratch, disk) then
        if !disk.link(src.local.value + file, root + file) then NonPLookup(Err(LinkFailed), options)
        else
          var r := LoadAt(options, root + file, disk);
          IntendedTakesTwo();
          NonPLookup(if r.0.Err? then Err(LocalLoadError(IntendedLoadMessage)) else r.0, r.1)
      else if web != NoWeb && !fromScratch then
        match FetchRemote(options, src.remote, web, disk)
        case Fetched(ring) => NonPLookup(Ok(Some(ring)), options)
        case _ => NonPLookup(Ok(None), options)
      else NonPLookup(Ok(None), options)
  }
}
