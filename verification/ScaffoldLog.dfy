/**
 The undo logs of the scaffold transaction and what ties them to the file system:
 every node of ours is logged under its inode, nobody else's node ever matches a
 log entry, and directories are logged parents first.
 */
module ScaffoldLog {
  import opened Prelude
  import opened FileTree

  datatype Created = Created(path: Path, inode: nat)

  function Paths(log: seq<Created>): set<Path> {
    set e | e in log :: e.path
  }

  /** A log entry that compare-and-remove can only match against a node of ours. */
  ghost predicate Logged(s: State, e: Created) {
    && e.path != [] && e.inode < s.next
    && (e.path in s.theirs ==> s.theirs[e.path].inode != e.inode)
    && (e.path in s.ours ==> s.ours[e.path].inode == e.inode)
  }

  ghost predicate AllLogged(s: State, log: seq<Created>) {
    forall e :: e in log ==> Logged(s, e)
  }

  /** Every node of ours is in the log of its kind, but for one directory that was made and not recorded. */
  ghost predicate Covered(s: State, files: set<Path>, dirs: set<Path>, leaked: Option<Path>) {
    forall p :: p in s.ours ==>
      (s.ours[p].File? && p in files) || (s.ours[p].Dir? && (p in dirs || leaked == Some(p)))
  }

  /** No directory is logged after one below it. */
  ghost predicate ParentsFirst(dirs: seq<Created>) {
    forall i, j :: 0 <= i < j < |dirs| ==> !(dirs[j].path < dirs[i].path)
  }

  ghost predicate CommitInv(s: State, files: seq<Created>, dirs: seq<Created>, leaked: Option<Path>) {
    && Valid(s) && AllLogged(s, files) && AllLogged(s, dirs)
    && Covered(s, Paths(files), Paths(dirs), leaked)
    && ParentsFirst(dirs)
    && (forall e :: e in dirs ==> e.path in s.ours && s.ours[e.path].Dir?)
    && (forall e :: e in files ==> e.path in TreeOf(s) && e.path !in Paths(dirs) && leaked != Some(e.path))
    && (leaked.Some? ==> Unrecorded(s, leaked.value, dirs))
  }

  /** A directory of ours that no log entry names, and below which nothing was logged. */
  ghost predicate Unrecorded(s: State, p: Path, dirs: seq<Created>) {
    p in s.ours && s.ours[p].Dir? && p != [] && forall e :: e in dirs ==> !(p <= e.path)
  }

  lemma LoggedUnderInterference(s: State, t: State, log: seq<Created>, staging: Path)
    requires Interfered(s, t, staging) && AllLogged(s, log)
    ensures AllLogged(t, log)
  {
    forall e | e in log ensures Logged(t, e) { assert Logged(s, e); }
  }

  lemma CommitUnderInterference(
      s: State, t: State, files: seq<Created>, dirs: seq<Created>, leaked: Option<Path>, staging: Path)
    requires Interfered(s, t, staging) && CommitInv(s, files, dirs, leaked)
    ensures CommitInv(t, files, dirs, leaked)
  {
    LoggedUnderInterference(s, t, files, staging);
    LoggedUnderInterference(s, t, dirs, staging);
  }

  lemma LoggedAfterAdding(s: State, p: Path, node: Node, next: nat, log: seq<Created>)
    requires s.next <= next && AllLogged(s, log)
    requires forall e :: e in log ==> e.path != p
    ensures AllLogged(Added(s, p, node, next), log)
  {
    forall e | e in log ensures Logged(Added(s, p, node, next), e) { assert Logged(s, e); }
  }

  /** Mkdirat made a directory; it is not in the log yet. */
  lemma DirMade(s: State, p: Path, files: seq<Created>, dirs: seq<Created>)
    requires CommitInv(s, files, dirs, None) && Free(TreeOf(s), p)
    ensures CommitInv(Added(s, p, Dir(s.next), s.next + 1), files, dirs, Some(p))
  {
    var t := Added(s, p, Dir(s.next), s.next + 1);
    AddedIsValid(s, p, Dir(s.next), s.next + 1);
    LoggedAfterAdding(s, p, Dir(s.next), s.next + 1, files);
    LoggedAfterAdding(s, p, Dir(s.next), s.next + 1, dirs);
    forall e | e in dirs ensures !(p <= e.path) {
      if p < e.path { AncestorsPresent(TreeOf(s), e.path, p); }
    }
  }

  /** The directory that was just made is appended to the log. */
  lemma DirRecorded(s: State, p: Path, files: seq<Created>, dirs: seq<Created>)
    requires CommitInv(s, files, dirs, Some(p))
    ensures CommitInv(s, files, dirs + [Created(p, s.ours[p].inode)], None)
  {
    var e := Created(p, s.ours[p].inode);
    var log := dirs + [e];
    assert Paths(log) == Paths(dirs) + {p};
    assert Logged(s, e);
    assert forall f :: f in log ==> f in dirs || f == e;
    forall i, j | 0 <= i < j < |log| ensures !(log[j].path < log[i].path) {
      assert log[i] in dirs;
      assert i < |dirs| && log[i] == dirs[i];
    }
  }

  /** The log with the directory that was just made appended under its inode. */
  function Recorded(s: State, p: Path, ghost files: seq<Created>, dirs: seq<Created>): (log: seq<Created>)
    requires CommitInv(s, files, dirs, Some(p))
    ensures CommitInv(s, files, log, None)
    ensures forall e :: e in log <==> e in dirs || e == Created(p, s.ours[p].inode)
  {
    DirRecorded(s, p, files, dirs);
    dirs + [Created(p, s.ours[p].inode)]
  }

  /** Linkat gave a staged file its name; the new name is appended to the log. */
  lemma FileLinked(s: State, p: Path, node: Node, files: seq<Created>, dirs: seq<Created>)
    requires CommitInv(s, files, dirs, None) && Free(TreeOf(s), p) && node.File? && node.inode < s.next
    ensures CommitInv(Added(s, p, node, s.next), files + [Created(p, node.inode)], dirs, None)
  {
    var t := Added(s, p, node, s.next);
    var e := Created(p, node.inode);
    AddedIsValid(s, p, node, s.next);
    LoggedAfterAdding(s, p, node, s.next, files);
    LoggedAfterAdding(s, p, node, s.next, dirs);
    assert Paths(files + [e]) == Paths(files) + {p};
    assert forall f :: f in files + [e] ==> f in files || f == e;
    assert Logged(t, e);
  }

  /** The log with the file that was just linked appended under the inode of its staged file. */
  function FileRecorded(ghost s: State, p: Path, ghost node: Node, inode: nat, files: seq<Created>,
                        ghost dirs: seq<Created>): (log: seq<Created>)
    requires CommitInv(s, files, dirs, None) && Free(TreeOf(s), p) && node.File? && node.inode == inode < s.next
    ensures CommitInv(Added(s, p, node, s.next), log, dirs, None)
    ensures forall e :: e in log <==> e in files || e == Created(p, inode)
  {
    FileLinked(s, p, node, files, dirs);
    files + [Created(p, inode)]
  }

  // --------------------------------------------------------------------- undoing

  /** All entries from `k` on have been undone; the files of ours are among the first `k` entries. */
  ghost predicate UndoFilesInv(s: State, files: seq<Created>, k: nat, dirs: seq<Created>, leaked: Option<Path>)
    requires k <= |files|
  {
    && Valid(s) && AllLogged(s, files) && AllLogged(s, dirs)
    && Covered(s, Paths(files[..k]), Paths(dirs), leaked)
    && (leaked.Some? ==> Unrecorded(s, leaked.value, dirs))
  }

  /** A directory that may stay: something of another process, or the unrecorded directory, is at or below it. */
  ghost predicate Held(s: State, p: Path, leaked: Option<Path>) {
    exists q :: p <= q && (q in s.theirs || leaked == Some(q))
  }

  ghost predicate LeftDirs(s: State, logged: set<Path>, leaked: Option<Path>) {
    forall p :: p in s.ours ==> s.ours[p].Dir? && (p in logged || Held(s, p, leaked))
  }

  /** Only directories of ours are left; those not held are among the first `k` entries. */
  ghost predicate UndoDirsInv(s: State, dirs: seq<Created>, k: nat, leaked: Option<Path>)
    requires k <= |dirs|
  {
    && Valid(s) && AllLogged(s, dirs)
    && LeftDirs(s, Paths(dirs[..k]), leaked)
    && (leaked.Some? ==> Unrecorded(s, leaked.value, dirs))
  }

  /** What compare-and-remove does to a state. */
  function RemoveIf(s: State, e: Created): State {
    if e.path in TreeOf(s) && TreeOf(s)[e.path].inode == e.inode && !HasChild(TreeOf(s), e.path)
    then Removed(s, e.path) else s
  }

  /** A log entry never matches a node that is not ours. */
  lemma RemovesOnlyOurs(s: State, e: Created)
    requires Valid(s) && Logged(s, e)
    ensures RemoveIf(s, e).theirs == s.theirs && Valid(RemoveIf(s, e))
  {
    if RemoveIf(s, e) != s { RemovedIsValid(s, e.path); }
  }

  lemma LoggedAfterRemoving(s: State, e: Created, log: seq<Created>)
    requires Logged(s, e) && AllLogged(s, log)
    ensures AllLogged(RemoveIf(s, e), log)
  {
    forall f | f in log ensures Logged(RemoveIf(s, e), f) { assert Logged(s, f); }
  }

  lemma FilesHaveNoChildren(t: Tree, p: Path)
    requires Rooted(t) && p in t && !t[p].Dir?
    ensures !HasChild(t, p)
  {
    forall c | c in t && c != [] ensures Parent(c) != p { assert BelowDirectory(t, c); }
  }

  lemma FileUndone(s: State, files: seq<Created>, k: nat, dirs: seq<Created>, leaked: Option<Path>)
    requires 0 < k <= |files| && UndoFilesInv(s, files, k, dirs, leaked)
    requires forall f :: f in files ==> f.path !in Paths(dirs) && leaked != Some(f.path)
    ensures UndoFilesInv(RemoveIf(s, files[k - 1]), files, k - 1, dirs, leaked)
  {
    var e := files[k - 1];
    var t := RemoveIf(s, e);
    assert e in files && Logged(s, e);
    RemovesOnlyOurs(s, e);
    LoggedAfterRemoving(s, e, files);
    LoggedAfterRemoving(s, e, dirs);
    assert files[..k] == files[..k - 1] + [e];
    assert Paths(files[..k]) == Paths(files[..k - 1]) + {e.path};
    if e.path in s.ours {
      assert TreeOf(s)[e.path].File?;
      FilesHaveNoChildren(TreeOf(s), e.path);
    }
  }

  lemma HeldStays(s: State, t: State, p: Path, leaked: Option<Path>)
    requires s.theirs.Keys <= t.theirs.Keys && Held(s, p, leaked)
    ensures Held(t, p, leaked)
  {
    var q :| p <= q && (q in s.theirs || leaked == Some(q));
    assert q in t.theirs || leaked == Some(q);
  }

  /** A logged directory that is not empty when its turn comes holds something we may not remove. */
  lemma ChildHolds(s: State, dirs: seq<Created>, k: nat, leaked: Option<Path>)
    requires 0 < k <= |dirs| && UndoDirsInv(s, dirs, k, leaked) && ParentsFirst(dirs)
    requires HasChild(TreeOf(s), dirs[k - 1].path)
    ensures Held(s, dirs[k - 1].path, leaked)
  {
    var d := dirs[k - 1].path;
    var c :| c in TreeOf(s) && c != [] && Parent(c) == d;
    assert d <= c;
    if c !in s.theirs {
      LaterThanChild(dirs, k, c);
      HeldBelow(s, d, c, leaked);
    }
  }

  /** Nothing logged before a directory lies in it. */
  lemma LaterThanChild(dirs: seq<Created>, k: nat, c: Path)
    requires 0 < k <= |dirs| && ParentsFirst(dirs) && dirs[k - 1].path < c
    ensures c !in Paths(dirs[..k])
  {
    forall i | 0 <= i < k ensures dirs[i].path != c {
      if i < k - 1 { assert !(dirs[k - 1].path < dirs[i].path); }
    }
  }

  lemma HeldBelow(s: State, d: Path, c: Path, leaked: Option<Path>)
    requires d <= c && Held(s, c, leaked)
    ensures Held(s, d, leaked)
  {
    var q :| c <= q && (q in s.theirs || leaked == Some(q));
    assert d <= q;
  }

  lemma DirUndone(s: State, dirs: seq<Created>, k: nat, leaked: Option<Path>)
    requires 0 < k <= |dirs| && UndoDirsInv(s, dirs, k, leaked) && ParentsFirst(dirs)
    ensures UndoDirsInv(RemoveIf(s, dirs[k - 1]), dirs, k - 1, leaked)
  {
    var e := dirs[k - 1];
    var t := RemoveIf(s, e);
    assert e in dirs && Logged(s, e);
    RemovesOnlyOurs(s, e);
    LoggedAfterRemoving(s, e, dirs);
    assert LeftDirs(t, Paths(dirs[..k - 1]), leaked) by {
      assert dirs[..k] == dirs[..k - 1] + [e];
      assert Paths(dirs[..k]) == Paths(dirs[..k - 1]) + {e.path};
      forall p | p in t.ours ensures t.ours[p].Dir? && (p in Paths(dirs[..k - 1]) || Held(t, p, leaked)) {
        assert p in s.ours;
        if p !in Paths(dirs[..k - 1]) {
          if p == e.path { ChildHolds(s, dirs, k, leaked); }
          HeldStays(s, t, p, leaked);
        }
      }
    }
  }

  lemma UndoFilesUnderInterference(
      s: State, t: State, files: seq<Created>, k: nat, dirs: seq<Created>, leaked: Option<Path>, staging: Path)
    requires Interfered(s, t, staging) && k <= |files| && UndoFilesInv(s, files, k, dirs, leaked)
    ensures UndoFilesInv(t, files, k, dirs, leaked)
  {
    LoggedUnderInterference(s, t, files, staging);
    LoggedUnderInterference(s, t, dirs, staging);
  }

  lemma UndoDirsUnderInterference(s: State, t: State, dirs: seq<Created>, k: nat, leaked: Option<Path>, staging: Path)
    requires Interfered(s, t, staging) && k <= |dirs| && UndoDirsInv(s, dirs, k, leaked)
    ensures UndoDirsInv(t, dirs, k, leaked)
  {
    LoggedUnderInterference(s, t, dirs, staging);
    forall p | p in t.ours ensures t.ours[p].Dir? && (p in Paths(dirs[..k]) || Held(t, p, leaked)) {
      assert p in s.ours;
      if p !in Paths(dirs[..k]) {
        HeldStays(s, t, p, leaked);
      }
    }
  }
}
