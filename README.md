# A verified model of the p_group_cohomology ring factory

This project is a Dafny model of three parts of `p_group_cohomology`.

- **The cohomology ring factory** `CohomologyRingFactory` (`factory.py`). It resolves a finite group to its mod-p cohomology ring. The model covers:
  - the group key, the file-name stem and the display name of a group;
  - the recursive comparison of cache keys;
  - the lookup in the ring cache, the workspace, the local sources and the web repository;
  - the checks the factory call makes for groups whose order is not a prime power, including the composite cache key `(KEY, GStem, HP._key, pr)`;
  - the option dictionary (`global_options`) and the source settings;
  - the name and description lists of `from_subgroup_tower`;
  - the recursive mirroring of a database folder into the workspace with symbolic links.
- **The bookkeeping of the noncommutative Buchberger algorithm** (`nBuchberger.c`):
  - the counter of unfruitful rounds;
  - the expansion levels of the reduced vectors;
  - the rank and termination predicates.
- **The group information tool** (`gi.c`): the p-adic valuation of the number of nontips, and the name of the monomial ordering.

The factory is a class `Factory.RingFactory` whose fields are the cache, the options and the configured folders. Its methods update these fields in place.

The computer-algebra backend (GAP) is a `Groups.Backend` value whose fields are uninterpreted functions. These cover group order, SmallGroups library, subgroups, canonical isomorphism and names.

The file system, the unpickler and the web are a `Resolve.Disk` value. The rings obtained by the factory's own recursive calls are a `Factory.Derivation` value.

The workspace that `_symlink_to_database` changes is a class `Mirror.Workspace` holding a map from paths to entries (folder, file or link). The public database it reads is a `Mirror.Tree`.

Every exception the source raises is a `Common.Error` value. `Common.Kind` maps each one to its Python exception class.

The modules, in dependency order:

1. `Common`
2. `Text`
3. `Keys`
4. `Groups`
5. `Options`
6. `Rings`
7. `Naming`
8. `Modular`
9. `Resolve`
10. `Tower`
11. `Factory`
12. `Mirror`
13. `Buchberger`
14. `GroupInfo`

## Model

| member | source | states |
|---|---|---|
| Text.RemoveWhitespace | src/pGroupCohomology/factory.py:933-935 | the joined `split()` pieces contain no whitespace, are no longer than the input, and leave whitespace-free text unchanged |
| Text.RemoveBlanksAndNewlines | src/pGroupCohomology/factory.py:943 | removing `'\n'` and `' '` leaves neither character, and leaves text without them unchanged |
| Text.RemoveWhitespaceConcat | src/pGroupCohomology/factory.py:933-935 | the removal works piece by piece: that of a concatenation is the concatenation of the removals, so the kept characters keep their order |
| Text.RemoveWhitespaceChar | src/pGroupCohomology/factory.py:933-935 | a single character is dropped exactly when it is Python whitespace |
| Text.RemoveWhitespaceCounts | src/pGroupCohomology/factory.py:933-935 | every character that is not whitespace is kept exactly as often as it occurs |
| Text.RemoveBlanksAndNewlinesConcat | src/pGroupCohomology/factory.py:943 | the removal of that of a concatenation is the concatenation of the removals |
| Text.RemoveBlanksAndNewlinesChar | src/pGroupCohomology/factory.py:943 | a single character is dropped exactly when it is a blank or a newline |
| Text.RemoveBlanksAndNewlinesCounts | src/pGroupCohomology/factory.py:943 | every other character is kept exactly as often as it occurs |
| Text.Sanitise | src/pGroupCohomology/factory.py:68 | the `_GStemMaker` substitution keeps the length, keeps every ASCII letter and digit, and replaces every other character by `_` |
| Text.SanitiseIdempotent | src/pGroupCohomology/factory.py:68 | sanitising a sanitised stem changes nothing |
| Text.NatToString | src/pGroupCohomology/factory.py:744 | `%d` of a natural number is a non-empty digit string without a leading zero |
| Text.NatToStringRoundTrip | src/pGroupCohomology/factory.py:744 | reading the digits of `%d` back gives the number |
| Text.IntToString | src/pGroupCohomology/factory.py:744 | `%d` is non-empty, starts with `-` exactly for negative numbers, and otherwise holds digits only |
| Text.IntToStringRoundTrip | src/pGroupCohomology/factory.py:744 | reading `%d` back gives the number: its digits for a natural number, the digits after `-` for the negated value otherwise |
| Text.Ordinal | src/pGroupCohomology/factory.py:1585 | `ordinal_str` is the decimal number followed by a two-letter suffix, which is `th` for 11, 12 and 13 modulo 100 |
| Text.WithTrailingSlash | src/pGroupCohomology/factory.py:2266-2267 | a URL ends with `/` afterwards, is unchanged if it already did, and otherwise only gains the slash |
| Groups.SmallestPrimeFactor | src/pGroupCohomology/factory.py:1566 | `q.factor()[0][0]` is a prime dividing `q` below which no number from 2 on divides `q` |
| Groups.PrimePowerShape | src/pGroupCohomology/factory.py:1565-1566 | a prime power is a positive power of its smallest prime factor |
| Keys.TopSimilarity | src/pGroupCohomology/factory.py:2419-2432 | 2 exactly for equal group keys, 0 exactly for unequal keys without a canonical isomorphism, else 1 |
| Keys.IsKeyEquivalentAsWritten | src/pGroupCohomology/factory.py:2417-2436 | `_IsKeyEquivalent` as written: 0 for different lengths; for keys of any length but 3 it is the top-level similarity alone |
| Keys.IsKeyEquivalent | src/pGroupCohomology/factory.py:2417-2436 | the comparison with recursion into every composite key: 0 for different lengths, at most the top-level similarity and at most the similarity of the subgroup keys |
| Keys.IsKeyEquivalentEqual | src/pGroupCohomology/factory.py:2417-2436 | the comparison gives 2 exactly when the keys have the same group key at every level |
| Keys.IsKeyEquivalentNonzero | src/pGroupCohomology/factory.py:2417-2436 | the comparison is non-zero exactly when the keys are equal or canonically isomorphic at every level |
| Keys.IsKeyEquivalentReflexive | src/pGroupCohomology/factory.py:2417-2436 | every key compares as 2 with itself, whatever the backend answers |
| Keys.IsKeyEquivalentSymmetric | src/pGroupCohomology/factory.py:2417-2436 | with a symmetric isomorphism test the comparison is symmetric |
| Keys.AsWrittenIgnoresSubgroupKey | src/pGroupCohomology/factory.py:2434-2436 | two composite keys with different subgroup keys compare as 2 as written and as 0 with the recursion |
| Keys.AsWrittenCompositeTopOnly | src/pGroupCohomology/factory.py:2434-2436 | as written, two four-component keys are compared by their group part alone |
| Keys.AsWrittenAgreesOnStateKeys | src/pGroupCohomology/factory.py:2417-2436 | against the two-component state key of a p-group, the comparison as written and with the recursion agree |
| Keys.AsWrittenAgreesWithoutFourComponents | src/pGroupCohomology/factory.py:2434-2436 | on keys without four-component layers, the comparison as written and with the recursion agree |
| Options.ApplyWordsKeepsOthers | src/pGroupCohomology/factory.py:483-513 | an option that no positional word names keeps its value or its absence |
| Options.ApplyWordsLastWins | src/pGroupCohomology/factory.py:483-513 | the last word naming an option decides it: `False` after `no`, else `True` |
| Options.ApplyWordsIdempotent | src/pGroupCohomology/factory.py:483-513 | applying the same words twice gives the dictionary of applying them once |
| Rings.SetProps | src/pGroupCohomology/factory.py:1258-1259 | every keyword becomes a property with its value; other properties, the identity and the key are unchanged |
| Rings.CheckCompatibility | src/pGroupCohomology/factory.py:1075-1082 | `_check_compatibility` returns the very ring or raises for a key that compares as 0 |
| Rings.CheckCompatibilityIff | src/pGroupCohomology/factory.py:1075-1082 | a ring is accepted exactly when its key agrees with the requested one up to canonical isomorphism at every level |
| Rings.CheckCompatibilityAsWritten | src/pGroupCohomology/factory.py:1075-1082 | for the state key of a p-group, the model's compatibility test gives the answer of `_IsKeyEquivalent` as written |
| Rings.CheckCompatibilityOwnKey | src/pGroupCohomology/factory.py:1075-1082 | a ring is always accepted under its own key |
| Naming.CheckArguments | src/pGroupCohomology/factory.py:986-1025 | the order and group for a SmallGroups address (with the library's bounds and `GroupId` agreement) or for a group (its order or `GroupId`'s, never 1, with an admissible generating set for a p-group unless `minimal_generators`); success exactly under these conditions, and for each failed condition its own error: `GroupId` mismatch, no library, index out of range, trivial group, not admissible |
| Naming.PermGroupText | src/pGroupCohomology/factory.py:933-935 | the key text of a permutation group contains no whitespace |
| Naming.ConvertedGroupText | src/pGroupCohomology/factory.py:937-943 | the key text of a converted group contains no blank and no newline |
| Naming.CreateGroupKey | src/pGroupCohomology/factory.py:913-944 | `GroupDefinition` verbatim first; then the SmallGroups address given, `GroupId`, or the address found by `IdGroup` with a canonical isomorphism; else exactly the permutation-group text, or the text of the converted group, without blanks or newlines; TypeError only for an object without `parent` |
| Naming.CheckedAddressIsKey | src/pGroupCohomology/factory.py:913-944 | once the arguments are checked, a SmallGroups address or `GroupId` becomes the key, with the checked order |
| Naming.PermGroupKeyNormalised | src/pGroupCohomology/factory.py:933-935 | a key made for a permutation group is unchanged by the whitespace removal applied to built rings |
| Naming.Gstem | src/pGroupCohomology/factory.py:740-758 | `GStem` sanitised, else `<q>gp<n>` of the address, else of `GroupId`, else exactly the sanitised `GroupName`, else exactly the sanitised backend name; ValueError exactly when none of them is there; only file-name characters |
| Naming.StemNamesSmallIdKey | src/pGroupCohomology/factory.py:744-747 | for a SmallGroups key, the stem reads back into the key's order and index |
| Naming.StemFollowsName | src/pGroupCohomology/factory.py:748-749 | without stem, address or `GroupId`, the stem is the sanitised group name |
| Naming.SmallGroupStemIsFileName | src/pGroupCohomology/factory.py:744-747 | a stem `<q>gp<n>` consists of file-name characters only |
| Naming.ParseJoinedDigits | src/pGroupCohomology/factory.py:744-747 | two digit strings joined by `gp` read back into their values |
| Naming.SmallGroupStemRoundTrip | src/pGroupCohomology/factory.py:744 | the stem `<q>gp<n>` can be read back into `(q, n)` |
| Naming.GroupName | src/pGroupCohomology/factory.py:803-814 | the given name, else none for a SmallGroups address, else exactly the backend's name of the group |
| Modular.ValidatePrime | src/pGroupCohomology/factory.py:1747-1758 | no modulus for a prime power; otherwise accepted exactly for a given prime dividing the order, which is then the modulus; each failure has its own ValueError: missing, not a prime, not dividing |
| Modular.StoredConsistency | src/pGroupCohomology/factory.py:1804-1816 | a stored ring is returned only if it was computed from the very given subgroup and Sylow rings and from subgroups canonically isomorphic to the given ones |
| Modular.SylowRingOf | src/pGroupCohomology/factory.py:1822-1830 | with `SubgpCohomology` given, its Sylow ring (or itself) replaces `SylowSubgpCohomology`; a modular Sylow ring raises TypeError |
| Modular.SylowRingIgnoredWithSubgroupRing | src/pGroupCohomology/factory.py:1825 | with a subgroup ring given, the Sylow ring keyword plays no part |
| Modular.CheckSubgroups | src/pGroupCohomology/factory.py:1832-1850 | the given subgroups pass exactly when they lie in the group with index prime to `pr`, the Sylow one has order divisible by `pr` and lies in the given subgroup |
| Modular.MatchGiven | src/pGroupCohomology/factory.py:1873-1897 | a subgroup given with its ring, and a Sylow subgroup given with its ring, must be canonically isomorphic to the ring's group |
| Modular.ChooseIntermediate | src/pGroupCohomology/factory.py:1926-1944 | `OneStep` uses the Sylow subgroup; a given subgroup is kept; else the normalizer, unless it is the whole group or a p-group, which collapses to the one-step case |
| Modular.CompositeKey | src/pGroupCohomology/factory.py:1986 | the composite cache key has four components: the group key, the stem, the subgroup ring's key and the prime |
| Modular.CachedComposite | src/pGroupCohomology/factory.py:1986-1999 | with the intended comparison: a cached ring under the composite key is returned exactly when its own key is equivalent to it at every level; otherwise "cache is broken" |
| Modular.CachedCompositeAsWritten | src/pGroupCohomology/factory.py:1986-1999 | as written: a cached ring is returned exactly when its key is the composite key or `_IsKeyEquivalent` as written is nonzero; otherwise "cache is broken" |
| Modular.CachedCompositeDivergence | src/pGroupCohomology/factory.py:1986-1999 | the two lookups differ exactly for a cached ring with an equal or isomorphic group part but a subgroup key that is not equivalent; there the source returns the ring and the intended lookup reports a broken cache |
| Modular.NormaliseBuiltKey | src/pGroupCohomology/factory.py:2017-2022 | a built key equal to the requested one is kept; only a one-text group part is replaced, by its text without whitespace |
| Modular.NormaliseBuiltKeyIdempotent | src/pGroupCohomology/factory.py:2017-2022 | repairing a key twice gives the key repaired once |
| Modular.NormaliseBuiltKeyRepairsWhitespace | src/pGroupCohomology/factory.py:2017-2024 | a built key that differs from the requested one only by whitespace is repaired to it |
| Resolve.WebSourceOf | src/pGroupCohomology/factory.py:1231-1235 | the web is refused exactly for `websource == False` (also for 0), and a string is the URL |
| Resolve.RemoteUrls | src/pGroupCohomology/factory.py:2250-2267 | the URLs tried are the given one or the configured ones, each ending with `/`; none for an empty list or URL or for `websource=False` |
| Resolve.StateKey | src/pGroupCohomology/factory.py:1189 | the cache key of a p-group is the group key and the state path under the root |
| Resolve.LoadAt | src/pGroupCohomology/factory.py:1203-1211 | `load` with the root marker: the marker is gone afterwards, and the load fails with IOError exactly when the unpickler fails |
| Resolve.FindPGroup | src/pGroupCohomology/factory.py:1175-1259 | the cache hit, the eviction of exactly the stale entry, the refusal of stored data for `from_scratch`, the tier order, properties and SmallGroups check on stored rings, the web only when enabled, and the options changed only in `use_web` and the marker |
| Resolve.FindPGroupTiers | src/pGroupCohomology/factory.py:1197-1257 | after a cache miss: a workspace file is loaded and checked; else a local-sources file is mirrored and then loaded, or the mirror fails; only with neither file is the web asked, giving nothing, a failure or the checked ring; a computation from scratch without a workspace file finds nothing |
| Resolve.FindPGroupRepeatable | src/pGroupCohomology/factory.py:1175-1259 | a second lookup with the cache and options the first left gives the same result and changes nothing |
| Resolve.FindPStoredRepeatable | src/pGroupCohomology/factory.py:1198-1257 | the workspace, local-source and web steps give the same answer again with the options they left |
| Resolve.DirectivesPlainText | src/pGroupCohomology/factory.py:1410 | text without `%` consumes no formatting argument |
| Resolve.LocalLoadError | src/pGroupCohomology/factory.py:1410 | a template with two directives gives the IOError; a malformed one gives ValueError |
| Resolve.LocalLoadErrorAsWritten | src/pGroupCohomology/factory.py:1410 | the template as written raises ValueError instead of IOError; the intended one raises IOError |
| Resolve.WrittenMalformed | src/pGroupCohomology/factory.py:1410 | the template `%. Saved data ...` is malformed |
| Resolve.IntendedTakesTwo | src/pGroupCohomology/factory.py:1410 | the template `%s. Saved data at %s ...` takes two arguments |
| Resolve.FindNonPGroup | src/pGroupCohomology/factory.py:1378-1428 | the workspace, then the local sources linked into it, then the web: stored data refused for `from_scratch`, IOError exactly for a failed load, the web never raising and asked only when enabled, options unchanged but for the marker |
| Tower.TowerNames | src/pGroupCohomology/factory.py:1567-1576 | a list of the tower's height is taken as it is; one name `N` gives `Syl_<p>_N`, `Subgp_<i>_N` for each intermediate group, then `N`; none gives none |
| Tower.TowerDescriptionsAsWritten | src/pGroupCohomology/factory.py:1577-1587 | as written, one description with an intermediate group raises NameError for `ZZ`; a tower of two gets the Sylow text and the description |
| Tower.TowerDescriptions | src/pGroupCohomology/factory.py:1577-1587 | the intended descriptions: the Sylow text, `<ordinal> intermediate subgroup of D` for each intermediate group, then `D` |
| Tower.PrepareTower | src/pGroupCohomology/factory.py:1561-1591 | accepted exactly for at least two nested groups, a p-group first that is a Sylow subgroup of the last, and label lists of the right length; the prime is that of the first group, and the names and descriptions are those the labels give |
| Factory.Prepare | src/pGroupCohomology/factory.py:1734-1763 | the checked order and group, the group key, the prime exactly for non-prime-power orders, a file-name stem and the name |
| Factory.PRequestOf | src/pGroupCohomology/factory.py:1776-1779 | below order 128 the web is not consulted |
| Factory.RingFactory.constructor | src/pGroupCohomology/factory.py:323-347 | a new factory has an empty cache and stores new rings in the workspace |
| Factory.RingFactory.RootWorkspace | src/pGroupCohomology/factory.py:1177-1180 | new rings go to the local sources when switched on, else to the workspace |
| Factory.RingFactory.GlobalOptions | src/pGroupCohomology/factory.py:481-516 | a snapshot without change for no input; else the words applied left to right, TypeError at the first non-string with the earlier words in effect, keywords last |
| Factory.RingFactory.SetRemoteSources | src/pGroupCohomology/factory.py:2164-2168 | `None` restores the default repository, a tuple is taken as it is, anything else raises TypeError and changes nothing |
| Factory.RingFactory.SetLocalSources | src/pGroupCohomology/factory.py:617-641 | a false value switches back to the workspace; a folder succeeds exactly if it exists or can be created, is used for writing only if writeable, and a non-folder raises with the switch on |
| Factory.RingFactory.FromLocalSources | src/pGroupCohomology/factory.py:684-689 | the local sources and the switch are as before the call |
| Factory.RingFactory.FromWorkspace | src/pGroupCohomology/factory.py:2113-2124 | the switch, the local and the remote sources are restored after the call |
| Factory.RingFactory.GetPGroupFromScratch | src/pGroupCohomology/factory.py:1297-1327 | the new ring has the state key and autosave file under the root, the key's group and a new identity, and is added to the cache |
| Factory.RingFactory.ApplyOptions | src/pGroupCohomology/factory.py:1719-1728 | a dictionary updates the options directly; only a list with a non-string item is refused, with TypeError; `from_scratch` then switches the web off |
| Factory.RingFactory.Call | src/pGroupCohomology/factory.py:1717-1791 | `root` is refused; argument errors are raised before any lookup; `from_scratch` switches the web off; a p-group's ring fits the requested key up to isomorphism |
| Factory.RingFactory.CallPrimePower | src/pGroupCohomology/factory.py:1776-1781 | the looked-up ring checked against the key, or a fresh ring under the key distinct from every cached one |
| Factory.RingFactory.CallNonPrimePower | src/pGroupCohomology/factory.py:1791-2027 | a stored ring is returned exactly when it matches the group and the given data; the subgroup errors; a new ring has a composite key for an equivalent group |
| Factory.AcceptStored | src/pGroupCohomology/factory.py:1792-1816 | a stored ring is returned exactly when its group is canonically isomorphic to the requested one and it agrees with the given subgroups and rings; a different group raises ValueError |
| Factory.RingFactory.ComputeNonPrimePower | src/pGroupCohomology/factory.py:1818-2027 | the errors of the given Sylow ring, of the subgroup checks and of a Sylow ring matching no Sylow subgroup, with the cache untouched; a result has a composite key for an equivalent group |
| Mirror.Workspace.MakeDirs | src/pGroupCohomology/factory.py:269 | `os.makedirs` succeeds exactly when nothing on the way is a non-folder, creates the folder, and adds only missing parent folders |
| Mirror.Workspace.Mirror | src/pGroupCohomology/factory.py:265-292 | afterwards the folder mirrors every entry of the public folder, a second run changes nothing, nothing outside the folder changes but missing parents, and it succeeds where nothing is in the way |
| Mirror.Workspace.MirrorEntries | src/pGroupCohomology/factory.py:272-292 | the loop over the public entries: afterwards each is mirrored, a complete mirror is left alone, and an empty folder on an unobstructed way is filled without failure |
| Mirror.Workspace.MirrorEntry | src/pGroupCohomology/factory.py:273-292 | a correct link is kept, a wrong one replaced, a subfolder mirrored, a file linked, `rmdir` fails on a non-empty folder, and nothing fails where nothing is in the way |
| Mirror.Workspace.SymlinkToDatabase | src/pGroupCohomology/factory.py:218-292 | ValueError for an unreadable or non-folder `publ` and for `priv == publ`; otherwise the mirror, idempotent, confined to `priv`, and successful when nothing exists at or below `priv` and the way there holds only folders |
| Mirror.MirrorsDependsBelow | src/pGroupCohomology/factory.py:273-292 | whether a mirror is in place depends only on the entries at or below it |
| Buchberger.Ngs.InitializeStatus | src/present/src/nBuchberger.c:41-46 | `prev_pnon` becomes `pnontips` and `unfruitful` becomes 0 |
| Buchberger.Ngs.UpdateStatus | src/present/src/nBuchberger.c:61-70 | fewer nontips reset the counter and record the count; otherwise the counter grows by one |
| Buchberger.RunTracksMinimum | src/present/src/nBuchberger.c:41-70 | after initialisation and updates, `prev_pnon` is the minimum seen and `unfruitful` counts the rounds since it was reached |
| Buchberger.Ngs.RaiseExpansionLevel | src/present/src/nBuchberger.c:112-114 | every reduced vector at the expanded level moves up one level, the others are unchanged, the system's level moves up, and it stays a lower bound of the vectors' levels |
| Buchberger.RelGs.RecordVisibleKernel | src/present/src/nBuchberger.c:58 | the kernel's size is recorded, so it has not shrunk since |
| Buchberger.EasyCorrectRank | src/present/src/nBuchberger.c:171-176 | true only for a known target rank that, with the nontips, makes `r * nontips` |
| Buchberger.AllExpansionsDone | src/present/src/nBuchberger.c:181-189 | -1 exactly without a Buchberger run, 1 when nothing is to expand, and for a real level 0 exactly while it is at most the longest nontip |
| Buchberger.ExpansionLevelsRunOut | src/present/src/nBuchberger.c:181-189 | after raising the level from `before`, expansions remain exactly while `before` was below the longest nontip, and all are done exactly when it was the longest nontip |
| Buchberger.HardCorrectRank | src/present/src/nBuchberger.c:194-201 | 1 when the easy test holds; 0 while the parent is unfinished or vectors wait; otherwise exactly the answer of `allExpansionsDone` |
| Buchberger.HardRankOnceExpanded | src/present/src/nBuchberger.c:181-201 | for a finished parent with no waiting vectors, the hard test passes exactly when the easy one does or the level has passed the longest nontip, and never reports an error |
| Buchberger.AppropriateToPerformHeadyBuchberger | src/present/src/nBuchberger.c:218-226 | only with the easy rank test; then for a finished parent or at the overshoot; with an unfinished parent, never below the overshoot and, beyond it, exactly when the kernel shrank |
| Buchberger.AppropriateAfterRecording | src/present/src/nBuchberger.c:218-226 | right after recording the kernel's size, only a finished parent or the overshoot starts the run |
| Buchberger.CheckRanksCorrect | src/present/src/nBuchberger.c:231-242 | 0 exactly when a known target rank differs from the kernel's nontips |
| Buchberger.ShouldFetchMoreGenerators | src/present/src/nBuchberger.c:252-260 | only while the parent is unfinished, the counter has reached its maximum and the easy test fails; then exactly when the deepest heady vector is at or below the level |
| Buchberger.EasyRankStopsFetching | src/present/src/nBuchberger.c:252-260 | an easily correct rank never fetches more generators and is also hard-correct |
| GroupInfo.Valuation | src/present/src/gi.c:73-79 | the loop returns the valuation: `p^nu` divides `n` and `p^(nu+1)` does not |
| GroupInfo.ValZero | src/present/src/gi.c:77 | a number `p` does not divide has valuation 0 |
| GroupInfo.ValMul | src/present/src/gi.c:77 | multiplying by `p` raises the valuation by one |
| GroupInfo.OrderingName | src/present/src/gi.c:96-98 | `R` gives "Reverse length lexicographical", `L` "Length lexicographical", anything else "Jennings" |

## Left out

- Group theory. GAP's group computations are uninterpreted fields of `Groups.Backend`, with no axioms. These are order, `IdGroup`, `SmallGroup`, `canonicalIsomorphism`, `admissibleGroup`, subgroups, index, Sylow subgroups and normalizers.
- Ring construction. The ring computations behind `COHO` and `MODCOHO` are not modelled: `make`, `_check_valid`, `reconstruct_singular` and `safe_save` of the first ring setup.
- The rings of subgroups that the factory gets by calling itself are given as a `Factory.Derivation`, not computed.
- The network and the tar archives of `from_remote_sources` are an oracle `fetch` in `Resolve.Disk`. Only the choice of URLs and their trailing slash are modelled.
- Interrupts and logging are left out.
- The cache is a plain map with explicit deletion. The weak-reference eviction of `WeakValueDictionary` cannot be stated.
- Object identity (`is`) is a handle number in each ring.
- Paths are lists of components, and `os.path.realpath` is the identity. The model does not follow symbolic links: `isdir` and `islink` look at the entry itself.
- `Mirror.Workspace.Mirror`: the public database is a separate, read-only `Tree`. A workspace folder nested inside the database it mirrors (aliasing through links) is not modelled.
- `Mirror.Workspace.MirrorEntry`: a single `os.symlink` or `os.unlink` never fails.
- `Mirror.Workspace.SymlinkToDatabase` requires a non-empty `priv`, because `makedirs('')` is not meaningful.
- The lookups use the oracle `mirror` in `Resolve.Disk` for the success of `_symlink_to_database`. That operation itself is modelled separately in `Mirror`.
- `Factory.RingFactory.Call`: the `options` keyword is applied through `global_options`. The properties the constructor of a new ring receives are not modelled.
- `Factory.PRequestOf`: the source hands every keyword except `pr`, `GStem`, `KEY`, `GroupName` and `q` to the lookups (lines 1770-1773), which store all but `from_scratch` and `websource` as ring properties (lines 1258-1259). The model hands on only the keywords it does not otherwise read (`Factory.Request.others`). So `GroupId`, `GroupDefinition`, `options`, `minimal_generators`, `prime`, the subgroups and their rings, which the model keeps as typed fields of `Factory.Request`, do not become properties of a stored ring.
- `Factory.RingFactory.Call` states no result for groups that are not p-groups; `Factory.RingFactory.CallNonPrimePower` states it.
- `Factory.RingFactory.CallNonPrimePower`: its contract covers a stored ring, the subgroup checks and the shape of a new key. The errors of `Modular.MatchGiven`, a missing matching subgroup, a broken cache and corrupted keys are in its body but not restated in its `ensures`.
- `Factory.RingFactory.ComputeNonPrimePower`: the errors of `Modular.MatchGiven`, a missing matching subgroup, a broken cache and corrupted keys are in its body but not restated in its `ensures`.
- Whether a Sylow subgroup isomorphic to the group of a given Sylow ring exists (lines 1884-1892) is a boolean of `Factory.Derivation`, not a group computation.
- The factory uses `Modular.CachedComposite`, the lookup with the intended comparison. `Modular.CachedCompositeAsWritten` models the source's lookup, and `Modular.CachedCompositeDivergence` states where the two differ.
- `Factory.RingFactory.ApplyOptions` states the options after a dictionary or no `options` keyword; after a word or a list it states only the rejection and the switched-off web. `Factory.RingFactory.GlobalOptions` states the rest.
- `Factory.RingFactory.FromLocalSources` and `Factory.RingFactory.FromWorkspace` state the restored settings. The result of the call they wrap is stated by `Factory.RingFactory.Call`.
- The SmallGroups identification of the Sylow subgroup and the intermediate subgroup, and the stems and names of their rings (lines 1903-1966), belong to the derivation and are not modelled.
- `set_workspace`, `reset`, `doctest_setup`, `get_local_sources` and `get_workspace` are left out: they are folder creation and session housekeeping.
- `unit_test_64` and `_name2latex` are left out. The first runs whole computations and times them; the second is unused formatting.
- A `GroupDefinition` that happens to be a text of length 2 is treated by the source as a SmallGroups address wherever it tests `len(KEY)==2`. Here a definition is always a text key.
- `from_subgroup_tower` itself is not modelled: its loop `while i in range(...)` at line 1595 reuses a stale loop variable, and the rings it asks for are further factory calls. `Tower.PrepareTower` models its checks and its name lists.
- `Tower.PrepareTower` rejects with `TowerNotSylow` unless the order of the last group is a multiple of the first group's order. For a non-integral quotient, the source's test at line 1591 uses Sage's `%` on a rational, which is not modelled.
- The nBuchberger drivers are not modelled: `nFgsBuchberger`, `nRgsBuchberger` and `nFgsBuchbergerFinished`. As written they do not compile (`swith` at line 210, the missing `;` and `}` at line 185). At lines 275 and 310, `allExpDone = f(...) == 0` binds the comparison first, so the error value -1 can never reach the tests at lines 294 and 329.
- `Buchberger.AllExpansionsDone` models the evident intent of lines 183-185: return -1 for `NO_BUCHBERGER_REQUIRED`.
- `Buchberger.CheckRanksCorrect`: line 235 returns no value from an `int` function when the target rank is unknown. The model returns 1, the value for "no error".
- `Buchberger.Ngs.RaiseExpansionLevel` models the closing loops of `nFgsExpandThisLevel` and `nRgsExpandThisLevel`. The expansion of the vectors before them is MeatAxe arithmetic and is not modelled.
- `Buchberger.Ngs.UpdateStatus`: the counters are unbounded integers. C `int` overflow after 2^31 rounds is not modelled.
- The header constants `RANK_UNKNOWN`, `NOTHING_TO_EXPAND` and `NO_BUCHBERGER_REQUIRED` are defined in a header that is not part of this model. They are given the values -1, -1 and -2. The first two are equal, which is harmless: one is a value of the target rank, the other of the expansion level.
- `GroupInfo.Valuation` requires `p >= 2` and `n != 0`. For `n == 0` the C loop never ends, and for `p` of 0 or 1 it divides by zero or loops. C `long` overflow cannot occur, since the cofactor only shrinks.
- `gi.c`'s `main`, `Init` and `Cleanup` are left out: command-line parsing, header reading and printing.

## Findings

| source | as written | input that shows it | evidently intended | confidence | as-written member | corrected member |
|---|---|---|---|---|---|---|
| src/pGroupCohomology/factory.py:2434 | the recursion into the subgroup key happens only for keys of length 3, while the composite keys built at line 1986 have length 4 | two keys `(('Group([(1,2,3),(1,2)])',), 'S3', HP._key, 2)` whose `HP._key` differ in shape compare as 2 | compare the subgroup keys of every composite key and take the minimum | not executed; the doctest at 2405-2412 only covers equal subgroup keys | Keys.IsKeyEquivalentAsWritten | Keys.IsKeyEquivalent |
| src/pGroupCohomology/factory.py:1585 | `ZZ(i).ordinal_str()` uses `ZZ`, which the module never imports | `from_subgroup_tower` with three groups and `GroupDescr='D'` raises NameError | the ordinal of `i`, as `Integer(i).ordinal_str()` at line 1590 does | not executed | Tower.TowerDescriptionsAsWritten | Tower.TowerDescriptions |
| src/pGroupCohomology/factory.py:1410 | the template `"%. Saved data at %s are not readable"` has no conversion after `%.` | a ring linked from the local sources whose `load` fails: formatting raises ValueError instead of the IOError | `"%s. Saved data at %s are not readable"` | not executed | Resolve.LocalLoadErrorAsWritten | Resolve.FindNonPGroup |
