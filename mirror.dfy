/**
 * `_symlink_to_database(publ, priv)`: a folder of a possibly write-protected
 * database is mirrored into the workspace, folder by folder, with a
 * symbolic link for every file. The database is a read-only tree; the
 * workspace is a mutable map from paths to entries.
 */
module Mirror {
  import opened Common

  /** A folder of the database: its entries by name, in listing order, and what each is. */
  datatype Tree = Leaf | Folder(names: seq<string>, subtrees: seq<Tree>)

  /** A listing names each entry once and describes each one. */
  predicate ValidTree(t: Tree)
  {
    match t
    case Leaf => true
    case Folder(names, subtrees) =>
      && |names| == |subtrees|
      && (forall i, j :: 0 <= i < j < |names| ==> names[i] != names[j])
      && (forall i :: 0 <= i < |subtrees| ==> ValidTree(subtrees[i]))
  }

  /** An entry of the workspace. */
  datatype Entry = Dir | File | Link(target: Path)

  /**
   * The mirror of a database entry at `publ`: a link to it, or, for a
   * folder, a folder mirroring each of its entries.
   */
  predicate Mirrors(entries: map<Path, Entry>, publ: Path, priv: Path, t: Tree)
    decreases t, 1
  {
    priv in entries
    && (entries[priv] == Link(publ) || (t.Folder? && MirrorsFolder(entries, publ, priv, t)))
  }

  /** A folder mirroring each entry of the database folder `t` at `publ`. */
  predicate MirrorsFolder(entries: map<Path, Entry>, publ: Path, priv: Path, t: Tree)
    requires t.Folder?
    decreases t, 0
  {
    && priv in entries && entries[priv] == Dir
    && forall i :: 0 <= i < |t.names| && i < |t.subtrees| ==>
         Mirrors(entries, publ + [t.names[i]], priv + [t.names[i]], t.subtrees[i])
  }

  /**
   * Outside the folder `priv`, nothing is removed or changed, and the only
   * new entries are missing parent folders of `priv`.
   */
  predicate Frame(e0: map<Path, Entry>, e1: map<Path, Entry>, priv: Path)
  {
    && (forall p :: p in e0 && !IsPrefix(priv, p) ==> p in e1 && e1[p] == e0[p])
    && (forall p :: p in e1 && p !in e0 ==> IsPrefix(priv, p) || (IsPrefix(p, priv) && e1[p] == Dir))
  }

  /** Two maps that agree on everything at or below `priv`. */
  ghost predicate AgreeBelow(e0: map<Path, Entry>, e1: map<Path, Entry>, priv: Path)
  {
    forall p :: IsPrefix(priv, p) ==> (p in e0 <==> p in e1) && (p in e0 ==> e0[p] == e1[p])
  }

  /** Whether a mirror is in place depends only on the entries at or below it. */
  lemma {:induction false} MirrorsDependsBelow(e0: map<Path, Entry>, e1: map<Path, Entry>, publ: Path, priv: Path, t: Tree)
    requires AgreeBelow(e0, e1, priv)
    ensures Mirrors(e0, publ, priv, t) ==> Mirrors(e1, publ, priv, t)
    ensures t.Folder? ==> MirrorsFolder(e0, publ, priv, t) ==> MirrorsFolder(e1, publ, priv, t)
    decreases t
  {
    assert IsPrefix(priv, priv);
    if t.Folder? {
      forall i | 0 <= i < |t.names| && i < |t.subtrees|
        ensures Mirrors(e0, publ + [t.names[i]], priv + [t.names[i]], t.subtrees[i])
            ==> Mirrors(e1, publ + [t.names[i]], priv + [t.names[i]], t.subtrees[i])
      {
        var c := priv + [t.names[i]];
        forall p | IsPrefix(c, p)
          ensures IsPrefix(priv, p)
        {
          assert p[..|priv|] == c[..|priv|];
        }
        MirrorsDependsBelow(e0, e1, publ + [t.names[i]], c, t.subtrees[i]);
      }
      if MirrorsFolder(e0, publ, priv, t) {
        assert MirrorsFolder(e1, publ, priv, t);
      }
    }
  }

  /** Below two different names of one folder lie disjoint paths. */
  lemma SiblingsApart(priv: Path, x: string, y: string, p: Path)
    requires x != y && IsPrefix(priv + [x], p)
    ensures !IsPrefix(priv + [y], p) && !IsPrefix(p, priv + [y])
  {
    assert p[|priv|] == (priv + [x])[|priv|] == x;
    assert (priv + [y])[|priv|] == y;
  }

  /** A change confined to a child folder is confined to the folder. */
  lemma FrameWidens(e0: map<Path, Entry>, e1: map<Path, Entry>, priv: Path, d: string)
    requires Frame(e0, e1, priv + [d])
    ensures Frame(e0, e1, priv)
  {
    forall p | IsPrefix(priv + [d], p)
      ensures IsPrefix(priv, p)
    {
      assert p[..|priv|] == (priv + [d])[..|priv|];
    }
    forall p | IsPrefix(p, priv + [d]) && |p| <= |priv|
      ensures IsPrefix(p, priv)
    {
      assert priv[..|p|] == (priv + [d])[..|p|];
    }
    forall p | IsPrefix(p, priv + [d]) && |p| > |priv|
      ensures p == priv + [d]
    {
    }
  }

  lemma FrameTransitive(e0: map<Path, Entry>, e1: map<Path, Entry>, e2: map<Path, Entry>, priv: Path)
    requires Frame(e0, e1, priv) && Frame(e1, e2, priv)
    ensures Frame(e0, e2, priv)
  {
  }

  /** A change confined to one entry of a folder leaves its siblings alone. */
  lemma FrameKeepsSibling(e0: map<Path, Entry>, e1: map<Path, Entry>, priv: Path, x: string, y: string)
    requires x != y && Frame(e0, e1, priv + [y])
    ensures AgreeBelow(e0, e1, priv + [x])
  {
    forall p | IsPrefix(priv + [x], p)
      ensures (p in e0 <==> p in e1) && (p in e0 ==> e0[p] == e1[p])
    {
      SiblingsApart(priv, x, y, p);
    }
  }

  /** Nothing exists at or below `q`. */
  predicate NothingBelow(entries: map<Path, Entry>, q: Path)
  {
    forall p :: p in entries ==> !IsPrefix(q, p)
  }

  /**
   * A place where a mirror can be built without obstruction: nothing exists
   * at or below it, and whatever exists on the way there is a folder.
   */
  predicate Unoccupied(entries: map<Path, Entry>, priv: Path)
  {
    NothingBelow(entries, priv) && Unobstructed(entries, priv)
  }

  /** Whatever exists on the way to `priv` is a folder. */
  predicate Unobstructed(entries: map<Path, Entry>, priv: Path)
  {
    forall k :: 1 <= k < |priv| && priv[..k] in entries ==> entries[priv[..k]] == Dir
  }

  /** Nothing exists strictly below `priv`. */
  predicate EmptyBelow(entries: map<Path, Entry>, priv: Path)
  {
    forall p :: p in entries && IsPrefix(priv, p) ==> p == priv
  }

  /** A path below a child of `priv` is below `priv`. */
  lemma BelowChild(priv: Path, d: string, p: Path)
    requires IsPrefix(priv + [d], p)
    ensures IsPrefix(priv, p)
  {
    assert p[..|priv|] == (priv + [d])[..|priv|];
  }

  /**
   * A change confined to one entry of a folder leaves nothing below a
   * sibling entry that had nothing below it.
   */
  lemma FrameKeepsNothingBelow(e0: map<Path, Entry>, e1: map<Path, Entry>, priv: Path, x: string, y: string)
    requires x != y && Frame(e0, e1, priv + [y]) && NothingBelow(e0, priv + [x])
    ensures NothingBelow(e1, priv + [x])
  {
    forall p | p in e1
      ensures !IsPrefix(priv + [x], p)
    {
      if IsPrefix(priv + [x], p) {
        SiblingsApart(priv, x, y, p);
      }
    }
  }

  /** The entry `d` of an existing, unobstructed folder is unoccupied if nothing is below it. */
  lemma UnoccupiedChild(entries: map<Path, Entry>, priv: Path, d: string)
    requires priv in entries && entries[priv] == Dir
    requires Unobstructed(entries, priv)
    requires NothingBelow(entries, priv + [d])
    ensures Unoccupied(entries, priv + [d])
  {
    forall k | 1 <= k < |priv + [d]| && (priv + [d])[..k] in entries
      ensures entries[(priv + [d])[..k]] == Dir
    {
      if k < |priv| {
        assert (priv + [d])[..k] == priv[..k];
      } else {
        assert (priv + [d])[..k] == priv;
      }
    }
  }

  /**
   * A folder just created where nothing was: nothing lies below any of
   * the entries it is to hold.
   */
  lemma NewFolderIsEmpty(e0: map<Path, Entry>, e1: map<Path, Entry>, priv: Path)
    requires NothingBelow(e0, priv)
    requires forall p :: p in e1 && p !in e0 ==> IsPrefix(p, priv)
    ensures EmptyBelow(e1, priv)
  {
  }

  /** Below the entries of an empty folder lies nothing. */
  lemma EmptyFolderChildren(entries: map<Path, Entry>, priv: Path, names: seq<string>)
    requires EmptyBelow(entries, priv)
    ensures forall j :: 0 <= j < |names| ==> NothingBelow(entries, priv + [names[j]])
  {
    forall j, p | 0 <= j < |names| && p in entries
      ensures !IsPrefix(priv + [names[j]], p)
    {
      if IsPrefix(priv + [names[j]], p) {
        BelowChild(priv, names[j], p);
      }
    }
  }

  /**
   * Mirroring the entry `names[i]` of a folder keeps the way to the folder
   * unobstructed and leaves nothing below the entries still to come.
   */
  lemma MirrorStepKeepsUnobstructed(e0: map<Path, Entry>, e1: map<Path, Entry>, priv: Path, names: seq<string>, i: nat)
    requires i < |names| && forall j, k :: 0 <= j < k < |names| ==> names[j] != names[k]
    requires Frame(e0, e1, priv + [names[i]])
    requires Unobstructed(e0, priv)
    requires forall j :: i <= j < |names| ==> NothingBelow(e0, priv + [names[j]])
    ensures Unobstructed(e1, priv)
    ensures forall j :: i < j < |names| ==> NothingBelow(e1, priv + [names[j]])
  {
    forall j | i < j < |names|
      ensures NothingBelow(e1, priv + [names[j]])
    {
      FrameKeepsNothingBelow(e0, e1, priv, names[j], names[i]);
    }
    forall k | 1 <= k < |priv| && priv[..k] in e1
      ensures e1[priv[..k]] == Dir
    {
      assert !IsPrefix(priv + [names[i]], priv[..k]);
    }
  }

  class Workspace {
    /** What exists in the workspace, by path; links are not followed. */
    var entries: map<Path, Entry>

    constructor (entries: map<Path, Entry>)
      ensures this.entries == entries
    {
      this.entries := entries;
    }

    /**
     * `os.makedirs(path)` for a path that does not exist: every missing
     * folder on the way is created; a non-folder on the way raises OSError.
     */
    method MakeDirs(path: Path) returns (r: Outcome)
      requires path != [] && path !in entries
      modifies this
      ensures r.Pass? <==> forall k :: 1 <= k < |path| && path[..k] in old(entries) ==> old(entries)[path[..k]] == Dir
      ensures r.Pass? ==> path in entries && entries[path] == Dir
      ensures r.Fail? ==> r.error == BlockedPath
      ensures Frame(old(entries), entries, path)
      ensures forall p :: p in entries && p !in old(entries) ==> IsPrefix(p, path) && entries[p] == Dir
    {
      var k := 1;
      while k <= |path|
        invariant 1 <= k <= |path| + 1
        invariant forall p :: p in entries && p !in old(entries) ==> IsPrefix(p, path) && entries[p] == Dir
        invariant forall m :: 1 <= m < k && m < |path| && path[..m] in old(entries) ==> old(entries)[path[..m]] == Dir
        invariant forall m :: 1 <= m < k ==> path[..m] in entries && entries[path[..m]] == Dir
        invariant Frame(old(entries), entries, path)
        invariant path !in entries || k > |path|
      {
        var p := path[..k];
        assert IsPrefix(p, path);
        assert k == |path| ==> p == path;
        if p !in entries {
          entries := entries[p := Dir];
        } else if entries[p] != Dir {
          assert p in old(entries) && k < |path|;
          return Fail(BlockedPath);
        }
        k := k + 1;
      }
      assert path[..|path|] == path;
      return Pass;
    }

    /**
     * The body of `_symlink_to_database` once `publ` is known to be a
     * readable folder other than `priv`: `priv` is made a folder, then each
     * entry of `publ` is mirrored in listing order. Running it again on a
     * complete mirror changes nothing.
     */
    method Mirror(publ: Path, t: Tree, priv: Path) returns (r: Outcome)
      requires t.Folder? && ValidTree(t) && priv != []
      modifies this
      ensures r.Pass? ==> MirrorsFolder(entries, publ, priv, t)
      ensures r.Fail? ==> r.error == BlockedPath || r.error == FolderNotEmpty
      ensures old(MirrorsFolder(entries, publ, priv, t)) ==> r.Pass? && entries == old(entries)
      ensures old(Unoccupied(entries, priv)) ==> r.Pass?
      ensures Frame(old(entries), entries, priv)
      decreases t, 1
    {
      ghost var free := Unoccupied(entries, priv);
      if !(priv in entries && entries[priv] == Dir) {
        // anything else at `priv` is unlinked, then the folder is created
        entries := entries - {priv};
        var e1 := entries;
        r := MakeDirs(priv);
        FrameTransitive(old(entries), e1, entries, priv);
        if r.Fail? {
          return;
        }
        if free {
          NewFolderIsEmpty(e1, entries, priv);
        }
      } else {
        assert IsPrefix(priv, priv);
      }
      var e2 := entries;
      r := MirrorEntries(publ, t, priv);
      FrameTransitive(old(entries), e2, entries, priv);
    }

    /**
     * The loop of `_symlink_to_database` over the entries of `publ`, in
     * listing order, once `priv` is a folder. It succeeds whenever the
     * folder is empty and the way to it unobstructed.
     */
    method MirrorEntries(publ: Path, t: Tree, priv: Path) returns (r: Outcome)
      requires t.Folder? && ValidTree(t) && priv != []
      requires priv in entries && entries[priv] == Dir
      modifies this
      ensures r.Pass? ==> MirrorsFolder(entries, publ, priv, t)
      ensures r.Fail? ==> r.error == BlockedPath || r.error == FolderNotEmpty
      ensures old(MirrorsFolder(entries, publ, priv, t)) ==> r.Pass? && entries == old(entries)
      ensures old(EmptyBelow(entries, priv) && Unobstructed(entries, priv)) ==> r.Pass?
      ensures Frame(old(entries), entries, priv)
      decreases t, 0
    {
      ghost var free := EmptyBelow(entries, priv) && Unobstructed(entries, priv);
      if free {
        EmptyFolderChildren(entries, priv, t.names);
      }
      var i := 0;
      while i < |t.names|
        invariant 0 <= i <= |t.names|
        invariant priv in entries && entries[priv] == Dir
        invariant forall j :: 0 <= j < i ==> Mirrors(entries, publ + [t.names[j]], priv + [t.names[j]], t.subtrees[j])
        invariant Frame(old(entries), entries, priv)
        invariant old(MirrorsFolder(entries, publ, priv, t)) ==> entries == old(entries)
        invariant free ==> Unobstructed(entries, priv)
        invariant free ==> forall j :: i <= j < |t.names| ==> NothingBelow(entries, priv + [t.names[j]])
      {
        var d := t.names[i];
        var e0 := entries;
        if free {
          UnoccupiedChild(entries, priv, d);
        }
        r := MirrorEntry(publ + [d], t.subtrees[i], priv + [d]);
        if r.Fail? {
          FrameWidens(e0, entries, priv, d);
          FrameTransitive(old(entries), e0, entries, priv);
          return;
        }
        forall j | 0 <= j < i
          ensures Mirrors(entries, publ + [t.names[j]], priv + [t.names[j]], t.subtrees[j])
        {
          FrameKeepsSibling(e0, entries, priv, t.names[j], d);
          MirrorsDependsBelow(e0, entries, publ + [t.names[j]], priv + [t.names[j]], t.subtrees[j]);
        }
        assert !IsPrefix(priv + [d], priv);
        if free {
          MirrorStepKeepsUnobstructed(e0, entries, priv, t.names, i);
        }
        FrameWidens(e0, entries, priv, d);
        FrameTransitive(old(entries), e0, entries, priv);
        i := i + 1;
      }
      return Pass;
    }

    /**
     * One entry `d` of the public folder, mirrored at `priv = priv0/d`: a
     * link already pointing at `publ` is kept, any other link is removed; a
     * folder is mirrored recursively; a file replaces whatever is at `priv`
     * by a link to it, where a folder in the way is removed with `rmdir`,
     * which fails on a folder that is not empty.
     */
    method MirrorEntry(publ: Path, t: Tree, priv: Path) returns (r: Outcome)
      requires ValidTree(t) && priv != []
      modifies this
      ensures r.Pass? ==> Mirrors(entries, publ, priv, t)
      ensures r.Fail? ==> r.error == BlockedPath || r.error == FolderNotEmpty
      ensures old(Mirrors(entries, publ, priv, t)) ==> r.Pass? && entries == old(entries)
      ensures old(Unoccupied(entries, priv)) ==> r.Pass?
      ensures Frame(old(entries), entries, priv)
      decreases t, 2
    {
      ghost var mirrored := Mirrors(entries, publ, priv, t);
      assert IsPrefix(priv, priv);
      if priv in entries && entries[priv].Link? {
        if entries[priv].target == publ {
          return Pass;
        }
        assert t.Folder? ==> !MirrorsFolder(entries, publ, priv, t);
        assert !mirrored;
        entries := entries - {priv};
      }
      if t.Folder? {
        var e1 := entries;
        assert mirrored ==> MirrorsFolder(e1, publ, priv, t);
        r := Mirror(publ, t, priv);
        FrameTransitive(old(entries), e1, entries, priv);
        return;
      }
      if priv in entries && entries[priv] == Dir {
        if exists p :: p in entries && IsPrefix(priv, p) && p != priv {
          return Fail(FolderNotEmpty);
        }
      }
      entries := entries[priv := Link(publ)];
      assert IsPrefix(priv, priv);
      return Pass;
    }

    /**
     * `_symlink_to_database(publ, priv)`, with the public database given as
     * the tree found at `publ` (`None` when nothing readable is there).
     */
    method SymlinkToDatabase(publ: Path, db: Option<Tree>, priv: Path) returns (r: Outcome)
      requires priv != [] && (db.Some? ==> ValidTree(db.value))
      modifies this
      ensures (db.None? || db.value.Leaf?) ==> r == Fail(UnreadableFolder) && entries == old(entries)
      ensures db.Some? && db.value.Folder? && priv == publ ==> r == Fail(SameFolder) && entries == old(entries)
      ensures db.Some? && db.value.Folder? && priv != publ ==>
        && (r.Pass? ==> MirrorsFolder(entries, publ, priv, db.value))
        && (r.Fail? ==> r.error == BlockedPath || r.error == FolderNotEmpty)
        && (old(MirrorsFolder(entries, publ, priv, db.value)) ==> r.Pass? && entries == old(entries))
        && (old(Unoccupied(entries, priv)) ==> r.Pass?)
      ensures Frame(old(entries), entries, priv)
    {
      if db.None? || db.value.Leaf? {
        return Fail(UnreadableFolder);
      }
      if priv == publ {
        return Fail(SameFolder);
      }
      r := Mirror(publ, db.value, priv);
    }
  }
}
