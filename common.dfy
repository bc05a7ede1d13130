/**
 * Shared vocabulary of the model: optional values, results carrying the
 * Python exception that the factory would raise, and file-system paths.
 */
module Common {

  datatype Option<T> = None | Some(value: T)

  /** The Python exception class a failure surfaces as. */
  datatype ExceptionKind =
    | ValueError
    | TypeError
    | RuntimeError
    | IOError
    | OSError
    | AttributeError
    | AssertionError
    | NameError

  /**
   * Why an operation failed. Each reason is mapped to the exception class the
   * source raises for it by `Kind`.
   */
  datatype Error =
    // factory entry point and argument checks
    | RootKeyword                 // a keyword argument named 'root' was given
    | BadArity                    // not one or two positional arguments
    | GroupIdMismatch             // GroupId differs from the SmallGroups address / the group
    | NoSmallGroupsLibrary        // the SmallGroups library does not cover the order
    | IndexOutOfRange             // SmallGroups index outside 1..NumberSmallGroups(q)
    | NotAGapGroup                // the argument is not an object of the group backend
    | NoAttribute                 // an attribute lookup failed on a non-backend object
    | TrivialGroup                // the group has order 1
    | NotAdmissible               // no admissible generating set
    | NoStem                      // no short identifier can be inferred
    | NoPrime                     // non prime power order and no prime given
    | NotPrime                    // the given modulus is not a prime
    | PrimeNotDividing            // the given prime does not divide the order
    | NonStringOption             // global_options got a non-string positional argument
    | BadRemoteSources            // set_remote_sources got neither None nor a tuple
    | NotAFolder                  // a path exists but is not a directory
    | NotWritable                 // a folder can neither be written to nor created
    | IncompatibleRing            // a ring does not fit the requested cache key
    | StoredGroupMismatch         // the stored ring belongs to a different group
    | StoredSubgroupMismatch      // the stored ring was computed from a different subgroup
    | StoredSubRingMismatch       // the stored ring was computed from a different subgroup ring
    | NotASubgroup                // a given subgroup is not contained in the group
    | IndexDivisible              // the prime divides the index of the given subgroup
    | OrderNotDivisible           // the prime does not divide the order of a "Sylow" subgroup
    | SylowNotInSubgroup          // the Sylow subgroup is not contained in the given subgroup
    | ModularSylowRing            // the ring of the Sylow subgroup is itself a modular ring
    | SubgroupRingMismatch        // Subgroup and SubgpCohomology do not match
    | SylowRingMismatch           // SylowSubgroup and SylowSubgpCohomology do not match
    | NoMatchingSubgroup          // no subgroup isomorphic to the group of SubgpCohomology
    | NoMatchingSylow             // no Sylow subgroup isomorphic to the group of SylowSubgpCohomology
    | BrokenCache                 // a cached ring fails the key comparison
    | CorruptedKeys               // a freshly built ring does not carry the requested key
    | FromScratchButStored        // from_scratch was requested but data is already stored
    | LoadFailed                  // stored data could not be read
    | MalformedMessage            // building an error message failed on a bad format string
    | NoWorkspaceRoot             // the root folder to use is None
    | MirrorFailed                // the local sources could not be linked into the workspace
    | LinkFailed                  // a single file could not be linked into the workspace
    | RemoteFailure               // an unexpected error while fetching remote data
    | TowerTooShort               // from_subgroup_tower got fewer than two groups
    | TowerNotPrimePower          // the first group of a tower is not a p-group
    | TowerNameCount              // name list and group list differ in length
    | TowerNotNested              // a group of the tower is not a subgroup of the next
    | TowerNotSylow               // the first group is not a Sylow subgroup of the last
    | UndefinedName               // a name the code refers to is not defined
    | UnreadableFolder            // the public folder is missing or unreadable
    | SameFolder                  // public and private folders coincide
    | FolderNotEmpty              // rmdir on a folder with entries
    | BlockedPath                 // makedirs meets a non-directory on the way

  function Kind(e: Error): ExceptionKind
  {
    match e
    case NotAGapGroup | NonStringOption | BadRemoteSources | ModularSylowRing
      | NoWorkspaceRoot => TypeError
    case NoAttribute => AttributeError
    case BrokenCache => ValueError
    case CorruptedKeys | FromScratchButStored => RuntimeError
    case LoadFailed => IOError
    case NotAFolder | NotWritable | FolderNotEmpty | BlockedPath | LinkFailed
      | RemoteFailure => OSError
    case TowerTooShort | TowerNotPrimePower | TowerNameCount | TowerNotNested
      | TowerNotSylow => AssertionError
    case UndefinedName => NameError
    case _ => ValueError
  }

  datatype Result<T> = Ok(value: T) | Err(error: Error)
  {
    predicate IsFailure() { Err? }
    function PropagateFailure<U>(): Result<U>
      requires Err?
    {
      Err(error)
    }
    function Extract(): T
      requires Ok?
    {
      value
    }
  }

  /** Outcome of an operation that returns nothing (Python `None`) or raises. */
  datatype Outcome = Pass | Fail(error: Error)

  /** A file-system path as its list of components; joining is concatenation. */
  type Path = seq<string>

  predicate IsPrefix(a: Path, b: Path)
  {
    |a| <= |b| && b[..|a|] == a
  }
}
