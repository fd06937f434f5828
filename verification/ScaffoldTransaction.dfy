/**
 The scaffold transaction: create missing directories, hard-link staged files
 into place, keep two undo logs, and take everything back in reverse on failure.

 Every system call may fail and other processes may act before each of them. The
 removals of the rollback themselves are not made to fail; a removal does nothing
 when the name no longer is the logged node or a directory is not empty.
 */
module ScaffoldTransaction {
  import opened Prelude
  import opened FileTrace
  import opened FileTree
  import opened ScaffoldLog

  datatype Status = Create | Unchanged | Conflict
  datatype FilePlan = FilePlan(path: Path, status: Status, contents: seq<byte>, mode: nat)

  /** The paths a plan creates. */
  function Planned(plan: seq<FilePlan>): set<Path> {
    set f | f in plan && f.status == Create :: f.path
  }

  /** A directory to be created above one of the planned files. */
  ghost predicate AbovePlanned(plan: seq<FilePlan>, p: Path) {
    exists q :: q in Planned(plan) && p < q
  }

  /** The staged files hold the planned bytes and modes, under private names. */
  ghost predicate StagedAs(tree: Tree, plan: seq<FilePlan>, staged: map<Path, Path>, staging: Path) {
    forall f :: f in plan && f.status == Create ==>
      && f.path != [] && f.path in staged && staging <= staged[f.path] && staged[f.path] in tree
      && tree[staged[f.path]].File? && tree[staged[f.path]].contents == f.contents && tree[staged[f.path]].mode == f.mode
  }

  /** The staged nodes are as they were. */
  ghost predicate StagingKept(before: Tree, now: Tree, staging: Path) {
    forall p :: staging <= p && p in before ==> p in now && now[p] == before[p]
  }

  /** Nothing of anybody else was touched, and without other processes nothing else changed at all. */
  ghost predicate Steady(w: World, past: History)
    reads w
  {
    && w.Ok() && Trace(w.history, past, w.foreign, w.staging)
    && (w.Quiet() ==> w.state.theirs == past.now.theirs)
    && StagingKept(past.now.theirs, w.state.theirs, w.staging)
  }

  /** A call that leaves theirs as the other processes left them. */
  lemma CallFollows(h: History, past: History, foreign: nat -> seq<ForeignOp>, staging: Path, mid: State, t: State)
    requires Trace(h, past, foreign, staging) && Valid(h.now)
    requires Acted(foreign, Calls(h), staging, h.now, mid) && mid.next <= t.next && t.theirs == mid.theirs
    ensures Trace(Then(h, t), past, foreign, staging)
  {
    IsCall(h.now, foreign, Calls(h), staging, mid, t);
  }

  lemma StagingStays(start: Tree, before: State, mid: State, staging: Path)
    requires StagingKept(start, before.theirs, staging) && Interfered(before, mid, staging)
    ensures StagingKept(start, mid.theirs, staging)
  {
  }

  /** A directory was made whose opening or inspection then failed. */
  ghost predicate LeakFault(madeAt: set<nat>, faults: nat -> bool) {
    exists n :: n in madeAt && Doomed(n, faults)
  }

  /** One of the two calls after the call with this number fails. */
  predicate Doomed(call: nat, faults: nat -> bool) {
    Fails(faults, call + 1) || Fails(faults, call + 2)
  }

  lemma LeakFaultAfter(madeAt: set<nat>, call: nat, faults: nat -> bool)
    requires !LeakFault(madeAt, faults)
    ensures LeakFault(madeAt + {call}, faults) <==> Doomed(call, faults)
  {
    if Doomed(call, faults) { assert call in madeAt + {call}; }
  }

  /**
   After `done` of the plan was linked: each name is the staged file's, or another process has
   since moved a new node over it.
   */
  ghost predicate Linked(s: State, done: seq<FilePlan>, staged: map<Path, Path>, start: State) {
    && start.next <= s.next
    && forall f :: f in done && f.status == Create ==>
         && f.path in staged && staged[f.path] in start.theirs
         && if f.path in s.ours then s.ours[f.path] == start.theirs[staged[f.path]]
            else f.path in s.theirs && s.theirs[f.path].inode >= start.next
  }

  ghost predicate LogsPlanned(plan: seq<FilePlan>, files: seq<Created>, dirs: seq<Created>) {
    && (forall e :: e in files ==> e.path in Planned(plan))
    && (forall e :: e in dirs ==> AbovePlanned(plan, e.path))
  }

  lemma LinkedUnderInterference(
      s: State, t: State, done: seq<FilePlan>, staged: map<Path, Path>, start: State, staging: Path)
    requires Valid(s) && Interfered(s, t, staging) && Linked(s, done, staged, start)
    ensures Linked(t, done, staged, start)
  {
    forall f | f in done && f.status == Create && f.path !in t.ours
      ensures f.path in t.theirs && t.theirs[f.path].inode >= start.next
    {
      assert f.path in t.theirs;
    }
  }

  predicate HasDirectory(s: State, p: Path) {
    p in TreeOf(s) && TreeOf(s)[p].Dir?
  }

  predicate AncestorsAreDirectories(t: Tree, path: Path) {
    forall k :: 0 <= k < |path| && path[..k] in t ==> t[path[..k]].Dir?
  }

  predicate Opened(u: int) { true }

  /**
   What holds at every call while the plan is being committed. It is looked into only where
   `OpenUp` is called, which keeps the methods above the single calls short to prove.
   */
  ghost predicate Committing(w: World, past: History, files: seq<Created>, dirs: seq<Created>, leaked: Option<Path>,
                             done: seq<FilePlan>, staged: map<Path, Path>)
    reads w
  {
    forall u {:trigger Opened(u)} :: Opened(u) ==>
      Steady(w, past) && CommitInv(w.state, files, dirs, leaked) && Linked(w.state, done, staged, past.now)
  }

  lemma OpenUp(w: World, past: History, files: seq<Created>, dirs: seq<Created>, leaked: Option<Path>,
               done: seq<FilePlan>, staged: map<Path, Path>)
    requires Committing(w, past, files, dirs, leaked, done, staged)
    ensures Steady(w, past) && CommitInv(w.state, files, dirs, leaked) && Linked(w.state, done, staged, past.now)
  {
    assert Opened(0);
  }

  lemma CloseUp(w: World, past: History, files: seq<Created>, dirs: seq<Created>, leaked: Option<Path>,
                done: seq<FilePlan>, staged: map<Path, Path>)
    requires Steady(w, past) && CommitInv(w.state, files, dirs, leaked) && Linked(w.state, done, staged, past.now)
    ensures Committing(w, past, files, dirs, leaked, done, staged)
  {
  }

  /** A read-only call: other processes may act, nothing of ours changes. */
  method Observe(w: World, ghost past: History, ghost files: seq<Created>, ghost dirs: seq<Created>,
                 ghost leaked: Option<Path>, ghost done: seq<FilePlan>, ghost staged: map<Path, Path>)
      returns (fails: bool)
    requires Committing(w, past, files, dirs, leaked, done, staged)
    modifies w
    ensures Committing(w, past, files, dirs, leaked, done, staged)
    ensures fails == Fails(w.faults, old(w.calls)) && w.calls == old(w.calls) + 1 && w.madeAt == old(w.madeAt)
            && w.firstMade == old(w.firstMade)
    ensures w.failed == old(w.failed) + if fails then 1 else 0
    ensures w.Quiet() ==> w.state == old(w.state)
  {
    OpenUp(w, past, files, dirs, leaked, done, staged);
    fails := w.Enter();
    CallFollows(old(w.history), past, w.foreign, w.staging, w.state, w.state);
    StagingStays(past.now.theirs, old(w.state), w.state, w.staging);
    CommitUnderInterference(old(w.state), w.state, files, dirs, leaked, w.staging);
    LinkedUnderInterference(old(w.state), w.state, done, staged, past.now, w.staging);
    CloseUp(w, past, files, dirs, leaked, done, staged);
  }

  lemma DirectoryStays(s: State, t: State, staging: Path, p: Path)
    requires Valid(s) && Interfered(s, t, staging) && HasDirectory(s, p)
    ensures HasDirectory(t, p)
  {
  }

  /** Inspecting a directory: it stays one. */
  method Inspect(w: World, path: Path, ghost past: History, ghost files: seq<Created>,
                 ghost dirs: seq<Created>, ghost done: seq<FilePlan>, ghost staged: map<Path, Path>)
      returns (fails: bool)
    requires Committing(w, past, files, dirs, None, done, staged)
    requires HasDirectory(w.state, path)
    modifies w
    ensures Committing(w, past, files, dirs, None, done, staged)
    ensures HasDirectory(w.state, path) && w.madeAt == old(w.madeAt) && w.firstMade == old(w.firstMade)
    ensures w.failed == old(w.failed) + if fails then 1 else 0
    ensures w.Quiet() ==> w.state == old(w.state)
  {
    OpenUp(w, past, files, dirs, None, done, staged);
    fails := w.Enter();
    CallFollows(old(w.history), past, w.foreign, w.staging, w.state, w.state);
    StagingStays(past.now.theirs, old(w.state), w.state, w.staging);
    CommitUnderInterference(old(w.state), w.state, files, dirs, None, w.staging);
    LinkedUnderInterference(old(w.state), w.state, done, staged, past.now, w.staging);
    CloseUp(w, past, files, dirs, None, done, staged);
    DirectoryStays(old(w.state), w.state, w.staging, path);
  }

  lemma LinkedAfterAdding(s: State, p: Path, node: Node, next: nat, done: seq<FilePlan>, staged: map<Path, Path>,
      start: State)
    requires Linked(s, done, staged, start) && p !in TreeOf(s) && s.next <= next
    ensures Linked(Added(s, p, node, next), done, staged, start)
  {
  }

  /** What is new in the tree is directories. */
  ghost predicate OnlyDirectoriesAdded(before: Tree, after: Tree) {
    forall p :: p in after ==> after[p].Dir? || (p in before && before[p] == after[p])
  }

  /** Mkdirat alone: the directory is ours and not recorded yet. */
  method MakeUnrecorded(w: World, path: Path, ghost past: History, ghost files: seq<Created>, ghost dirs: seq<Created>,
                        ghost done: seq<FilePlan>, ghost staged: map<Path, Path>)
      returns (made: bool)
    requires Committing(w, past, files, dirs, None, done, staged)
    modifies w
    ensures Committing(w, past, files, dirs, if made then Some(path) else None, done, staged)
    ensures made ==> HasDirectory(w.state, path)
    ensures w.calls == old(w.calls) + 1
    ensures w.madeAt == (if made then old(w.madeAt) + {old(w.calls)} else old(w.madeAt))
    ensures w.firstMade == if made && old(w.firstMade).None? then Some(old(w.calls)) else old(w.firstMade)
    ensures w.failed >= old(w.failed) && (made ==> w.failed == old(w.failed))
    ensures w.Quiet() ==> (made <==> !Fails(w.faults, old(w.calls)) && Free(TreeOf(old(w.state)), path))
    ensures w.Quiet() && w.failed == old(w.failed) && Free(TreeOf(old(w.state)), path) ==> made
    ensures w.Quiet() ==> OnlyDirectoriesAdded(TreeOf(old(w.state)), TreeOf(w.state))
  {
    OpenUp(w, past, files, dirs, None, done, staged);
    ghost var mid;
    made, mid := w.Mkdir(path);
    CallFollows(old(w.history), past, w.foreign, w.staging, mid, w.state);
    StagingStays(past.now.theirs, old(w.state), mid, w.staging);
    CommitUnderInterference(old(w.state), mid, files, dirs, None, w.staging);
    LinkedUnderInterference(old(w.state), mid, done, staged, past.now, w.staging);
    if made {
      DirMade(mid, path, files, dirs);
      LinkedAfterAdding(mid, path, Dir(mid.next), mid.next + 1, done, staged, past.now);
    }
    CloseUp(w, past, files, dirs, if made then Some(path) else None, done, staged);
  }

  /**
   Mkdirat, open, inspect, record: the log with one entry more. When the call after a successful
   Mkdirat fails, the log stays as it was and the directory is `leaked`.
   */
  method MakeDirectory(w: World, path: Path, dirs: seq<Created>, ghost past: History, ghost files: seq<Created>,
                       ghost done: seq<FilePlan>, ghost staged: map<Path, Path>)
      returns (ok: bool, made: bool, log: seq<Created>, ghost leaked: Option<Path>)
    requires Committing(w, past, files, dirs, None, done, staged)
    modifies w
    ensures Committing(w, past, files, log, leaked, done, staged)
    ensures w.madeAt == (if made then old(w.madeAt) + {old(w.calls)} else old(w.madeAt))
    ensures w.firstMade == if made && old(w.firstMade).None? then Some(old(w.calls)) else old(w.firstMade)
    ensures ok <==> made && !Doomed(old(w.calls), w.faults)
    ensures ok ==> HasDirectory(w.state, path)
    ensures leaked.Some? <==> made && !ok
    ensures leaked.Some? ==> leaked.value == path
    ensures forall e :: e in log ==> e in dirs || e.path == path
    ensures w.Quiet() ==> (made <==> !Fails(w.faults, old(w.calls)) && Free(TreeOf(old(w.state)), path))
    ensures w.failed >= old(w.failed) && (ok ==> w.failed == old(w.failed))
    ensures w.Quiet() && w.failed == old(w.failed) && Free(TreeOf(old(w.state)), path) ==> ok
    ensures w.Quiet() ==> OnlyDirectoriesAdded(TreeOf(old(w.state)), TreeOf(w.state))
  {
    ok, log, leaked := false, dirs, None;
    ghost var call := w.calls;
    made := MakeUnrecorded(w, path, past, files, dirs, done, staged);
    if !made { return; }
    leaked := Some(path);
    var fails := Observe(w, past, files, dirs, leaked, done, staged);          // Openat
    if !fails {
      fails := Observe(w, past, files, dirs, leaked, done, staged);            // Stat
    }
    assert fails <==> Doomed(call, w.faults);
    if !fails {
      OpenUp(w, past, files, dirs, leaked, done, staged);
      assert Unrecorded(w.state, path, dirs);
      ok, log, leaked := true, Recorded(w.state, path, files, dirs), None;
      assert HasDirectory(w.state, path);
      CloseUp(w, past, files, log, None, done, staged);
    }
  }

  /** Alone, with the next two calls not failing: opening the missing directory and making it. */
  ghost predicate WillMake(w: World, s: State, call: nat, path: Path) {
    w.Quiet() && Free(TreeOf(s), path) && !Fails(w.faults, call) && !Fails(w.faults, call + 1)
  }

  /** Alone, a directory is there or can be made. */
  ghost predicate Openable(w: World, t: Tree, path: Path) {
    w.Quiet() && if path in t then t[path].Dir? else Free(t, path)
  }

  /** One component: open the directory, or make it, inspect it and record it in the log. */
  method OpenOrMake(w: World, path: Path, dirs: seq<Created>, ghost past: History, ghost files: seq<Created>,
                    ghost done: seq<FilePlan>, ghost staged: map<Path, Path>, ghost makes: bool, ghost smooth: bool)
      returns (ok: bool, log: seq<Created>, ghost leaked: Option<Path>)
    requires Committing(w, past, files, dirs, None, done, staged)
    requires !LeakFault(w.madeAt, w.faults)
    requires makes ==> w.firstMade.None? && WillMake(w, w.state, w.calls, path)
    requires smooth ==> Openable(w, TreeOf(w.state), path)
    modifies w
    ensures Committing(w, past, files, log, leaked, done, staged)
    ensures LeakFault(w.madeAt, w.faults) <==> leaked.Some?
    ensures ok ==> leaked.None? && HasDirectory(w.state, path)
    ensures leaked.Some? ==> leaked.value == path
    ensures forall e :: e in log ==> e in dirs || e.path == path
    ensures old(w.firstMade).Some? ==> w.firstMade == old(w.firstMade)
    ensures makes ==> w.firstMade == Some(old(w.calls) + 1)
    ensures w.failed >= old(w.failed) && (ok ==> w.failed == old(w.failed))
    ensures smooth && w.failed == old(w.failed) ==> ok
    ensures w.Quiet() ==> OnlyDirectoriesAdded(TreeOf(old(w.state)), TreeOf(w.state))
  {
    ok, log, leaked := false, dirs, None;
    var fails := Observe(w, past, files, log, None, done, staged);             // Openat
    if fails { return; }
    if w.Lookup(path) == None {
      LeakFaultAfter(w.madeAt, w.calls, w.faults);
      var made;
      ok, made, log, leaked := MakeDirectory(w, path, dirs, past, files, done, staged);
    } else if w.Lookup(path).value.Dir? {
      fails := Inspect(w, path, past, files, dirs, done, staged);              // Stat
      ok := !fails;
    }
  }

  /** Alone: the root is missing, and the call with this number and the next two, which makes it, do not fail. */
  ghost predicate MakesRoot(w: World, s: State, root: Path, directory: Path, call: nat) {
    root != [] && root <= directory && !Fails(w.faults, call) && WillMake(w, s, call + 1, root)
  }

  /** What was logged since, and what was left unlogged, is this directory or above it. */
  ghost predicate LogsUpTo(dirs: seq<Created>, log: seq<Created>, leaked: Option<Path>, directory: Path) {
    && (forall e :: e in log ==> e in dirs || e.path <= directory)
    && (leaked.Some? ==> leaked.value <= directory)
  }

  lemma LogsOneMore(dirs: seq<Created>, before: seq<Created>, log: seq<Created>, leaked: Option<Path>, path: Path,
                    directory: Path)
    requires path <= directory && LogsUpTo(dirs, before, None, directory)
    requires (forall e :: e in log ==> e in before || e.path == path) && (leaked.Some? ==> leaked.value == path)
    ensures LogsUpTo(dirs, log, leaked, directory)
  {
  }

  lemma RootIsFirst(root: Path, directory: Path)
    requires root != [] && root <= directory
    ensures Parent(root) <= directory && |Parent(root)| < |directory| && directory[..|Parent(root)| + 1] == root
  {
  }

  lemma SliceIsPrefix(p: Path, k: nat)
    requires k <= |p|
    ensures p[..k] <= p && p[..|p|] == p
  {
  }

  /** Nothing but directories is at or above the path. */
  ghost predicate ClearWay(t: Tree, directory: Path) {
    forall k :: 0 <= k <= |directory| && directory[..k] in t ==> t[directory[..k]].Dir?
  }

  lemma StillClear(before: Tree, after: Tree, directory: Path)
    requires ClearWay(before, directory) && OnlyDirectoriesAdded(before, after)
    ensures ClearWay(after, directory)
  {
  }

  lemma NextOpenable(w: World, s: State, directory: Path, k: nat)
    requires w.Quiet() && k < |directory| && HasDirectory(s, directory[..k]) && ClearWay(TreeOf(s), directory)
    ensures Openable(w, TreeOf(s), directory[..k + 1])
  {
    assert Parent(directory[..k + 1]) == directory[..k];
  }

  /** The next component of a directory all of whose first `k` are there. */
  method OpenNext(w: World, directory: Path, k: nat, ghost dirs: seq<Created>, before: seq<Created>, ghost past: History,
                  ghost files: seq<Created>, ghost done: seq<FilePlan>, ghost staged: map<Path, Path>, ghost makes: bool,
                  ghost smooth: bool)
      returns (ok: bool, log: seq<Created>, ghost leaked: Option<Path>)
    requires k < |directory| && HasDirectory(w.state, directory[..k])
    requires Committing(w, past, files, before, None, done, staged)
    requires !LeakFault(w.madeAt, w.faults) && LogsUpTo(dirs, before, None, directory)
    requires makes ==> w.firstMade.None? && WillMake(w, w.state, w.calls, directory[..k + 1])
    requires smooth ==> w.Quiet() && ClearWay(TreeOf(w.state), directory)
    modifies w
    ensures Committing(w, past, files, log, leaked, done, staged)
    ensures LeakFault(w.madeAt, w.faults) <==> leaked.Some?
    ensures ok ==> leaked.None? && HasDirectory(w.state, directory[..k + 1])
    ensures LogsUpTo(dirs, log, leaked, directory) && (old(w.firstMade).Some? ==> w.firstMade == old(w.firstMade))
    ensures makes ==> w.firstMade == Some(old(w.calls) + 1)
    ensures w.failed >= old(w.failed) && (ok ==> w.failed == old(w.failed))
    ensures smooth ==> ClearWay(TreeOf(w.state), directory) && (w.failed == old(w.failed) ==> ok)
  {
    if smooth { NextOpenable(w, w.state, directory, k); }
    SliceIsPrefix(directory, k + 1);
    var path := directory[..k + 1];
    ok, log, leaked := OpenOrMake(w, path, before, past, files, done, staged, makes, smooth);
    LogsOneMore(dirs, before, log, leaked, path, directory);
    if smooth { StillClear(old(TreeOf(w.state)), TreeOf(w.state), directory); }
  }

  /** The components after the first `from`. */
  method WalkDown(w: World, directory: Path, from: nat, dirs: seq<Created>, ghost past: History,
                  ghost files: seq<Created>, ghost done: seq<FilePlan>, ghost staged: map<Path, Path>, ghost makes: bool,
                  ghost smooth: bool)
      returns (ok: bool, log: seq<Created>, ghost leaked: Option<Path>)
    requires makes ==> w.firstMade.None? && from < |directory| && WillMake(w, w.state, w.calls, directory[..from + 1])
    requires smooth ==> w.Quiet() && ClearWay(TreeOf(w.state), directory)
    requires from <= |directory| && HasDirectory(w.state, directory[..from])
    requires Committing(w, past, files, dirs, None, done, staged)
    requires !LeakFault(w.madeAt, w.faults)
    modifies w
    ensures Committing(w, past, files, log, leaked, done, staged)
    ensures LeakFault(w.madeAt, w.faults) <==> leaked.Some?
    ensures ok ==> leaked.None? && HasDirectory(w.state, directory)
    ensures LogsUpTo(dirs, log, leaked, directory) && (old(w.firstMade).Some? ==> w.firstMade == old(w.firstMade))
    ensures makes ==> w.firstMade == Some(old(w.calls) + 1)
    ensures w.failed >= old(w.failed) && (ok ==> w.failed == old(w.failed))
    ensures smooth && w.failed == old(w.failed) ==> ok
  {
    ghost var first := w.calls;
    ok, log, leaked := true, dirs, None;
    var k := from;
    while ok && k < |directory|
      invariant from <= k <= |directory|
      invariant Committing(w, past, files, log, leaked, done, staged)
      invariant LeakFault(w.madeAt, w.faults) <==> leaked.Some?
      invariant ok ==> leaked.None? && HasDirectory(w.state, directory[..k])
      invariant LogsUpTo(dirs, log, leaked, directory) && (old(w.firstMade).Some? ==> w.firstMade == old(w.firstMade))
      invariant k == from ==> ok && w.state == old(w.state) && w.calls == first && w.firstMade == old(w.firstMade)
      invariant makes && k > from ==> w.firstMade == Some(first + 1)
      invariant w.failed >= old(w.failed) && (ok ==> w.failed == old(w.failed))
      invariant smooth ==> ClearWay(TreeOf(w.state), directory) && (w.failed == old(w.failed) ==> ok)
      decreases |directory| - k
    {
      ok, log, leaked := OpenNext(w, directory, k, dirs, log, past, files, done, staged, makes && k == from, smooth);
      k := k + 1;
    }
    SliceIsPrefix(directory, |directory|);
  }

  /**
   Opens the directory component by component below the parent of the root, making the
   missing ones and recording each in the log.
   */
  method EnsureDirectories(w: World, root: Path, directory: Path, dirs: seq<Created>, ghost past: History,
                           ghost files: seq<Created>, ghost done: seq<FilePlan>, ghost staged: map<Path, Path>,
                           ghost makes: bool, ghost smooth: bool)
      returns (ok: bool, log: seq<Created>, ghost leaked: Option<Path>)
    requires root != [] && (makes ==> w.firstMade.None? && MakesRoot(w, w.state, root, directory, w.calls))
    requires smooth ==>
             w.Quiet() && root <= directory && HasDirectory(w.state, Parent(root)) && ClearWay(TreeOf(w.state), directory)
    requires Committing(w, past, files, dirs, None, done, staged)
    requires !LeakFault(w.madeAt, w.faults)
    modifies w
    ensures Committing(w, past, files, log, leaked, done, staged)
    ensures LeakFault(w.madeAt, w.faults) <==> leaked.Some?
    ensures ok ==> leaked.None? && HasDirectory(w.state, directory)
    ensures LogsUpTo(dirs, log, leaked, directory) && (old(w.firstMade).Some? ==> w.firstMade == old(w.firstMade))
    ensures makes ==> w.firstMade == Some(old(w.calls) + 2)
    ensures w.failed >= old(w.failed) && (ok ==> w.failed == old(w.failed))
    ensures smooth && w.failed == old(w.failed) ==> ok
  {
    if root <= directory { RootIsFirst(root, directory); }
    ok, log, leaked := false, dirs, None;
    var base := Parent(root);
    if !(base <= directory) { return; }
    var fails := Observe(w, past, files, log, None, done, staged);
    if fails || w.Lookup(base) == None || !w.Lookup(base).value.Dir? { return; }
    SliceIsPrefix(directory, |base|);
    assert directory[..|base|] == base;
    ok, log, leaked := WalkDown(w, directory, |base|, dirs, past, files, done, staged, makes, smooth);
  }

  // ------------------------------------------------------------------ committing

  lemma LinkedOneMore(s: State, plan: seq<FilePlan>, i: nat, node: Node, staged: map<Path, Path>, start: State)
    requires i < |plan| && Linked(s, plan[..i], staged, start) && plan[i].status == Create && Free(TreeOf(s), plan[i].path)
    requires plan[i].path in staged && staged[plan[i].path] in start.theirs
    requires node == start.theirs[staged[plan[i].path]]
    ensures Linked(Added(s, plan[i].path, node, s.next), plan[..i + 1], staged, start)
  {
    var t := Added(s, plan[i].path, node, s.next);
    LinkedAfterAdding(s, plan[i].path, node, s.next, plan[..i], staged, start);
    assert plan[..i + 1] == plan[..i] + [plan[i]];
    assert plan[i].path in t.ours && t.ours[plan[i].path] == node;
  }

  lemma LinkedSkip(s: State, plan: seq<FilePlan>, i: nat, staged: map<Path, Path>, start: State)
    requires i < |plan| && Linked(s, plan[..i], staged, start) && plan[i].status != Create
    ensures Linked(s, plan[..i + 1], staged, start)
  {
    assert plan[..i + 1] == plan[..i] + [plan[i]];
  }

  /** The staged file is where it was, unchanged. */
  lemma SourceStays(w: World, past: History, plan: seq<FilePlan>, i: nat, staged: map<Path, Path>, files: seq<Created>,
                    dirs: seq<Created>)
    requires i < |plan| && plan[i].status == Create && StagedAs(past.now.theirs, plan, staged, w.staging)
    requires Committing(w, past, files, dirs, None, plan[..i], staged)
    ensures var source := staged[plan[i].path];
            && w.staging <= source && source in past.now.theirs && past.now.theirs[source].File?
            && source in w.state.theirs && w.state.theirs[source] == past.now.theirs[source]
            && source in TreeOf(w.state) && TreeOf(w.state)[source] == past.now.theirs[source]
  {
    OpenUp(w, past, files, dirs, None, plan[..i], staged);
    assert plan[i] in plan;
  }

  /** Lstat, open, Linkat, record one staged file. */
  method LinkStaged(w: World, plan: seq<FilePlan>, i: nat, staged: map<Path, Path>, files: seq<Created>,
                    ghost dirs: seq<Created>, ghost past: History, ghost smooth: bool)
      returns (ok: bool, log: seq<Created>)
    requires i < |plan| && plan[i].status == Create && StagedAs(past.now.theirs, plan, staged, w.staging)
    requires smooth ==> && w.Quiet() && plan[i].path != [] && HasDirectory(w.state, Parent(plan[i].path))
                        && plan[i].path !in TreeOf(w.state) && AncestorsAreDirectories(TreeOf(w.state), plan[i].path)
    requires Committing(w, past, files, dirs, None, plan[..i], staged)
    modifies w
    ensures Committing(w, past, log, dirs, None, plan[..if ok then i + 1 else i], staged)
    ensures w.madeAt == old(w.madeAt) && w.firstMade == old(w.firstMade)
    ensures forall e :: e in log ==> e in files || e.path == plan[i].path
    ensures w.failed >= old(w.failed) && (ok ==> w.failed == old(w.failed))
    ensures smooth && w.failed == old(w.failed) ==> ok
  {
    ok, log := false, files;
    var source := staged[plan[i].path];
    if smooth { SourceStays(w, past, plan, i, staged, files, dirs); }
    var fails := Observe(w, past, files, dirs, None, plan[..i], staged);                // Lstat
    if fails || w.Lookup(source) == None { return; }
    SourceStays(w, past, plan, i, staged, files, dirs);
    var info := w.Lookup(source).value.inode;
    fails := Observe(w, past, files, dirs, None, plan[..i], staged);                    // open the parent
    if fails || !AncestorsAreDirectories(TreeOf(w.state), plan[i].path) { return; }
    OpenUp(w, past, files, dirs, None, plan[..i], staged);
    SourceStays(w, past, plan, i, staged, files, dirs);
    ghost var mid;
    ghost var before, history := w.state, w.history;
    ok, mid := w.LinkTo(source, plan[i].path);
    CallFollows(history, past, w.foreign, w.staging, mid, w.state);
    StagingStays(past.now.theirs, before, mid, w.staging);
    CommitUnderInterference(before, mid, files, dirs, None, w.staging);
    LinkedUnderInterference(before, mid, plan[..i], staged, past.now, w.staging);
    if ok {
      assert mid.theirs[source] == past.now.theirs[source] && TreeOf(mid)[source] == past.now.theirs[source];
      log := FileRecorded(mid, plan[i].path, past.now.theirs[source], info, files, dirs);
      LinkedOneMore(mid, plan, i, past.now.theirs[source], staged, past.now);
    }
    CloseUp(w, past, log, dirs, None, plan[..if ok then i + 1 else i], staged);
  }

  /** The same with the validation before it. */
  ghost predicate ReachesRoot(w: World, s: State, root: Path, path: Path, call: nat) {
    path != [] && !Fails(w.faults, call) && MakesRoot(w, s, root, Parent(path), call + 1)
  }

  lemma LogsPlannedUpTo(plan: seq<FilePlan>, i: nat, files: seq<Created>, dirs: seq<Created>, log: seq<Created>,
                        leaked: Option<Path>)
    requires i < |plan| && plan[i].status == Create && plan[i].path != [] && LogsPlanned(plan, files, dirs)
    requires LogsUpTo(dirs, log, leaked, Parent(plan[i].path))
    ensures LogsPlanned(plan, files, log) && (leaked.Some? ==> AbovePlanned(plan, leaked.value))
  {
    var path := plan[i].path;
    assert plan[i] in plan && path in Planned(plan);
    forall e | e in log ensures AbovePlanned(plan, e.path) {
      if e !in dirs { assert e.path < path; }
    }
    if leaked.Some? { assert leaked.value < path; }
  }

  /** Below a missing root nothing exists, so nothing is in the way. */
  lemma NothingInTheWay(t: Tree, root: Path, path: Path)
    requires Rooted(t) && Free(t, root) && path != [] && root <= Parent(path)
    ensures AncestorsAreDirectories(t, path)
  {
    forall k | 0 <= k < |path| && path[..k] in t ensures t[path[..k]].Dir? {
      assert root == path[..|root|];
      if k >= |root| {
        assert root <= path[..k];
        if root != path[..k] { AncestorsPresent(t, path[..k], root); }
      } else if k + 1 < |root| {
        assert Parent(root) == path[..|root| - 1];
        AncestorsPresent(t, Parent(root), path[..k]);
      } else {
        assert path[..k] == Parent(root);
      }
    }
  }

  lemma ParentIsClear(t: Tree, path: Path)
    requires path != [] && AncestorsAreDirectories(t, path)
    ensures ClearWay(t, Parent(path))
  {
    forall k | 0 <= k <= |path| - 1 ensures Parent(path)[..k] == path[..k] {}
  }

  /** Validate, then open or make the parent directories of one planned file. */
  method PrepareParent(w: World, root: Path, plan: seq<FilePlan>, i: nat, ghost staged: map<Path, Path>,
                       ghost files: seq<Created>, dirs: seq<Created>, ghost past: History, ghost makes: bool,
                       ghost smooth: bool)
      returns (ok: bool, log: seq<Created>, ghost leaked: Option<Path>)
    requires root != [] && i < |plan| && plan[i].status == Create && plan[i].path != []
    requires Committing(w, past, files, dirs, None, plan[..i], staged)
    requires !LeakFault(w.madeAt, w.faults) && LogsPlanned(plan, files, dirs)
    requires makes ==> w.firstMade.None? && ReachesRoot(w, w.state, root, plan[i].path, w.calls)
    requires smooth ==> && w.Quiet() && root <= Parent(plan[i].path) && HasDirectory(w.state, Parent(root))
                        && AncestorsAreDirectories(TreeOf(w.state), plan[i].path)
    modifies w
    ensures Committing(w, past, files, log, leaked, plan[..i], staged)
    ensures LeakFault(w.madeAt, w.faults) <==> leaked.Some?
    ensures ok ==> leaked.None? && HasDirectory(w.state, Parent(plan[i].path))
    ensures LogsPlanned(plan, files, log) && (leaked.Some? ==> AbovePlanned(plan, leaked.value))
    ensures old(w.firstMade).Some? ==> w.firstMade == old(w.firstMade)
    ensures makes ==> w.firstMade == Some(old(w.calls) + 3)
    ensures w.failed >= old(w.failed) && (ok ==> w.failed == old(w.failed))
    ensures smooth && w.failed == old(w.failed) ==> ok
  {
    ok, log, leaked := false, dirs, None;
    var path := plan[i].path;
    if makes {
      OpenUp(w, past, files, dirs, None, plan[..i], staged);
      NothingInTheWay(TreeOf(w.state), root, path);
    }
    var fails := Observe(w, past, files, dirs, None, plan[..i], staged);
    if fails || !(root <= Parent(path)) || !AncestorsAreDirectories(TreeOf(w.state), path) { return; }
    ParentIsClear(TreeOf(w.state), path);
    ok, log, leaked := EnsureDirectories(w, root, Parent(path), dirs, past, files, plan[..i], staged, makes, smooth);
    LogsPlannedUpTo(plan, i, files, dirs, log, leaked);
  }

  /** Only files before the i-th have been logged. */
  ghost predicate FilesAmong(plan: seq<FilePlan>, i: nat, files: seq<Created>)
    requires i <= |plan|
  {
    forall e :: e in files ==> e.path in Planned(plan[..i])
  }

  /**
   A plan nothing stands in the way of: the directory above the root exists, every file to be
   created is free below it with directories or nothing above, and none is at or below another.
   */
  ghost predicate Committable(t: Tree, root: Path, plan: seq<FilePlan>) {
    && root != [] && Parent(root) in t && t[Parent(root)].Dir?
    && (forall f :: f in plan && f.status == Create ==>
          && f.path != [] && root <= Parent(f.path) && f.path !in t && AncestorsAreDirectories(t, f.path))
    && (forall i, j ::
          0 <= i < |plan| && 0 <= j < |plan| && i != j && plan[i].status == Create && plan[j].status == Create ==>
          !(plan[i].path <= plan[j].path))
  }

  lemma PlannedBefore(plan: seq<FilePlan>, i: nat, p: Path) returns (j: nat)
    requires i <= |plan| && p in Planned(plan[..i])
    ensures j < i && plan[j].status == Create && plan[j].path == p
  {
    var f :| f in plan[..i] && f.status == Create && f.path == p;
    j :| 0 <= j < i && plan[..i][j] == f;
  }

  lemma PlannedIsElsewhere(t: Tree, root: Path, plan: seq<FilePlan>, i: nat, upTo: nat, p: Path)
    requires Committable(t, root, plan) && i < |plan| && plan[i].status == Create
    requires upTo <= |plan| && p in Planned(plan[..upTo])
    ensures p != plan[i].path ==> !(p <= plan[i].path) && !(plan[i].path <= p)
    ensures upTo <= i ==> p != plan[i].path
  {
    var j := PlannedBefore(plan, upTo, p);
  }

  lemma AboveIsNotPlanned(t: Tree, root: Path, plan: seq<FilePlan>, i: nat, p: Path)
    requires Committable(t, root, plan) && i < |plan| && plan[i].status == Create && AbovePlanned(plan, p)
    ensures p != plan[i].path
  {
    var q :| q in Planned(plan) && p < q;
    assert plan[..|plan|] == plan;
    PlannedIsElsewhere(t, root, plan, i, |plan|, q);
  }

  /** What the transaction made so far stands in nobody's way, and the file whose turn it is is not there yet. */
  lemma WayStaysClear(s: State, start: State, root: Path, plan: seq<FilePlan>, i: nat, upTo: nat,
                      files: seq<Created>, dirs: seq<Created>)
    requires i < |plan| && plan[i].status == Create && i <= upTo <= i + 1
    requires Committable(start.theirs, root, plan) && s.theirs == start.theirs
    requires CommitInv(s, files, dirs, None) && LogsPlanned(plan, files, dirs) && FilesAmong(plan, upTo, files)
    ensures AncestorsAreDirectories(TreeOf(s), plan[i].path) && HasDirectory(s, Parent(root))
    ensures plan[i].path != [] && root <= Parent(plan[i].path)
    ensures upTo == i ==> plan[i].path !in TreeOf(s)
  {
    var path := plan[i].path;
    assert plan[i] in plan;
    forall p | p in s.ours
      ensures s.ours[p].File? ==> p == path || !(p <= path)
      ensures upTo == i ==> p != path
    {
      if s.ours[p].File? {
        var e :| e in files && e.path == p;
        PlannedIsElsewhere(start.theirs, root, plan, i, upTo, p);
      } else {
        var e :| e in dirs && e.path == p;
        AboveIsNotPlanned(start.theirs, root, plan, i, p);
      }
    }
    forall k | 0 <= k < |path| && path[..k] in TreeOf(s) ensures TreeOf(s)[path[..k]].Dir? {
      SliceIsPrefix(path, k);
    }
  }

  lemma WayIsClear(w: World, past: History, root: Path, plan: seq<FilePlan>, i: nat, upTo: nat,
                   files: seq<Created>, dirs: seq<Created>, staged: map<Path, Path>)
    requires i < |plan| && plan[i].status == Create && i <= upTo <= i + 1
    requires w.Quiet() && Committable(past.now.theirs, root, plan)
    requires Committing(w, past, files, dirs, None, plan[..upTo], staged)
    requires LogsPlanned(plan, files, dirs) && FilesAmong(plan, upTo, files)
    ensures AncestorsAreDirectories(TreeOf(w.state), plan[i].path) && HasDirectory(w.state, Parent(root))
    ensures plan[i].path != [] && root <= Parent(plan[i].path)
    ensures upTo == i ==> plan[i].path !in TreeOf(w.state)
  {
    OpenUp(w, past, files, dirs, None, plan[..upTo], staged);
    WayStaysClear(w.state, past.now, root, plan, i, upTo, files, dirs);
  }

  /** What holds with one more of the plan linked holds without it. */
  lemma OneFewer(w: World, past: History, files: seq<Created>, dirs: seq<Created>, plan: seq<FilePlan>, i: nat,
                 staged: map<Path, Path>)
    requires i < |plan| && Committing(w, past, files, dirs, None, plan[..i + 1], staged)
    ensures Committing(w, past, files, dirs, None, plan[..i], staged)
  {
    OpenUp(w, past, files, dirs, None, plan[..i + 1], staged);
    assert plan[..i + 1] == plan[..i] + [plan[i]];
    CloseUp(w, past, files, dirs, None, plan[..i], staged);
  }

  lemma SkipOne(w: World, past: History, files: seq<Created>, dirs: seq<Created>, plan: seq<FilePlan>, i: nat,
                staged: map<Path, Path>)
    requires i < |plan| && plan[i].status != Create && Committing(w, past, files, dirs, None, plan[..i], staged)
    ensures Committing(w, past, files, dirs, None, plan[..i + 1], staged)
  {
    OpenUp(w, past, files, dirs, None, plan[..i], staged);
    LinkedSkip(w.state, plan, i, staged, past.now);
    CloseUp(w, past, files, dirs, None, plan[..i + 1], staged);
  }

  lemma MoreFilesAmong(plan: seq<FilePlan>, i: nat, files: seq<Created>, log: seq<Created>)
    requires i < |plan| && FilesAmong(plan, i, files)
    requires forall e :: e in log ==> e in files || (plan[i].status == Create && e.path == plan[i].path)
    ensures FilesAmong(plan, i + 1, log)
  {
    assert plan[..i + 1] == plan[..i] + [plan[i]];
    forall e | e in log ensures e.path in Planned(plan[..i + 1]) {
      if e in files {
        var j := PlannedBefore(plan, i, e.path);
        assert plan[..i + 1][j] == plan[j];
      } else {
        assert plan[..i + 1][i] == plan[i];
      }
    }
  }

  /** One planned file: prepare its parent, run the hook, validate, link, validate. */
  method CommitOne(w: World, root: Path, plan: seq<FilePlan>, i: nat, staged: map<Path, Path>,
                   files: seq<Created>, dirs: seq<Created>, ghost past: History, ghost makes: bool,
                   ghost smooth: bool)
      returns (ok: bool, fileLog: seq<Created>, dirLog: seq<Created>, ghost leaked: Option<Path>)
    requires root != [] && i < |plan| && plan[i].status == Create && StagedAs(past.now.theirs, plan, staged, w.staging)
    requires Committing(w, past, files, dirs, None, plan[..i], staged)
    requires !LeakFault(w.madeAt, w.faults) && LogsPlanned(plan, files, dirs)
    requires makes ==> w.firstMade.None? && ReachesRoot(w, w.state, root, plan[i].path, w.calls)
    requires smooth ==> w.Quiet() && Committable(past.now.theirs, root, plan)
    requires FilesAmong(plan, i, files)
    modifies w
    ensures Committing(w, past, fileLog, dirLog, leaked, plan[..if ok then i + 1 else i], staged)
    ensures LogsPlanned(plan, fileLog, dirLog)
    ensures LeakFault(w.madeAt, w.faults) <==> leaked.Some?
    ensures leaked.Some? ==> AbovePlanned(plan, leaked.value)
    ensures ok ==> leaked.None?
    ensures old(w.firstMade).Some? ==> w.firstMade == old(w.firstMade)
    ensures makes ==> w.firstMade == Some(old(w.calls) + 3)
    ensures w.failed >= old(w.failed) && (ok ==> w.failed == old(w.failed))
    ensures smooth && w.failed == old(w.failed) ==> ok
    ensures FilesAmong(plan, i + 1, fileLog)
  {
    fileLog := files;
    if smooth { WayIsClear(w, past, root, plan, i, i, files, dirs, staged); }
    MoreFilesAmong(plan, i, files, files);
    ok, dirLog, leaked := PrepareParent(w, root, plan, i, staged, files, dirs, past, makes, smooth);
    if ok { ok, fileLog := CommitPrepared(w, root, plan, i, staged, files, dirLog, past, smooth); }
  }

  /** The hook, the second validation, the link, and the third. */
  method CommitPrepared(w: World, ghost root: Path, plan: seq<FilePlan>, i: nat, staged: map<Path, Path>,
                        files: seq<Created>, ghost dirs: seq<Created>, ghost past: History, ghost smooth: bool)
      returns (ok: bool, log: seq<Created>)
    requires i < |plan| && plan[i].status == Create && StagedAs(past.now.theirs, plan, staged, w.staging)
    requires Committing(w, past, files, dirs, None, plan[..i], staged)
    requires LogsPlanned(plan, files, dirs) && FilesAmong(plan, i, files)
    requires smooth ==> w.Quiet() && Committable(past.now.theirs, root, plan) && HasDirectory(w.state, Parent(plan[i].path))
    modifies w
    ensures Committing(w, past, log, dirs, None, plan[..if ok then i + 1 else i], staged) && LogsPlanned(plan, log, dirs)
    ensures w.madeAt == old(w.madeAt) && w.firstMade == old(w.firstMade) && FilesAmong(plan, i + 1, log)
    ensures w.failed >= old(w.failed) && (ok ==> w.failed == old(w.failed))
    ensures smooth && w.failed == old(w.failed) ==> ok
  {
    log := files;
    assert plan[i] in plan && plan[i].path in Planned(plan);
    if smooth { WayIsClear(w, past, root, plan, i, i, files, dirs, staged); }
    MoreFilesAmong(plan, i, files, files);
    var hookFails := Observe(w, past, files, dirs, None, plan[..i], staged);
    var validateFails := Observe(w, past, files, dirs, None, plan[..i], staged);
    ok := !hookFails && !validateFails && AncestorsAreDirectories(TreeOf(w.state), plan[i].path);
    if ok {
      ok, log := LinkStaged(w, plan, i, staged, files, dirs, past, smooth);
      MoreFilesAmong(plan, i, files, log);
      if ok {
        var fails := Observe(w, past, log, dirs, None, plan[..i + 1], staged);
        if smooth { WayIsClear(w, past, root, plan, i, i + 1, log, dirs, staged); }
        ok := !fails && AncestorsAreDirectories(TreeOf(w.state), plan[i].path);
        if !ok { OneFewer(w, past, log, dirs, plan, i, staged); }
      }
    }
  }

  /** One entry of the plan; only those to be created are committed. */
  method CommitNext(w: World, root: Path, plan: seq<FilePlan>, i: nat, staged: map<Path, Path>,
                    files: seq<Created>, dirs: seq<Created>, ghost past: History, ghost makes: bool,
                    ghost smooth: bool)
      returns (ok: bool, fileLog: seq<Created>, dirLog: seq<Created>, ghost leaked: Option<Path>)
    requires root != [] && i < |plan| && StagedAs(past.now.theirs, plan, staged, w.staging)
    requires Committing(w, past, files, dirs, None, plan[..i], staged)
    requires !LeakFault(w.madeAt, w.faults) && LogsPlanned(plan, files, dirs)
    requires makes ==> w.firstMade.None? && plan[i].status == Create && ReachesRoot(w, w.state, root, plan[i].path, w.calls)
    requires smooth ==> w.Quiet() && Committable(past.now.theirs, root, plan)
    requires FilesAmong(plan, i, files)
    modifies w
    ensures Committing(w, past, fileLog, dirLog, leaked, plan[..if ok then i + 1 else i], staged)
    ensures LogsPlanned(plan, fileLog, dirLog)
    ensures LeakFault(w.madeAt, w.faults) <==> leaked.Some?
    ensures leaked.Some? ==> AbovePlanned(plan, leaked.value)
    ensures ok ==> leaked.None?
    ensures old(w.firstMade).Some? ==> w.firstMade == old(w.firstMade)
    ensures makes ==> w.firstMade == Some(old(w.calls) + 3)
    ensures w.failed >= old(w.failed) && (ok ==> w.failed == old(w.failed))
    ensures smooth && w.failed == old(w.failed) ==> ok
    ensures FilesAmong(plan, i + 1, fileLog)
  {
    if plan[i].status == Create {
      ok, fileLog, dirLog, leaked := CommitOne(w, root, plan, i, staged, files, dirs, past, makes, smooth);
    } else {
      ok, fileLog, dirLog, leaked := true, files, dirs, None;
      SkipOne(w, past, files, dirs, plan, i, staged);
      MoreFilesAmong(plan, i, files, files);
    }
  }

  /** The first planned file is to be created below a missing root, which the fourth call makes. */
  ghost predicate MakesRootFirst(w: World, s: State, root: Path, plan: seq<FilePlan>, call: nat) {
    plan != [] && plan[0].status == Create && ReachesRoot(w, s, root, plan[0].path, call)
  }

  /** The loop over the plan; it stops at the first failure with the logs as they are. */
  method CommitLoop(w: World, root: Path, plan: seq<FilePlan>, staged: map<Path, Path>, ghost past: History,
                    ghost makes: bool, ghost smooth: bool)
      returns (ok: bool, files: seq<Created>, dirs: seq<Created>, ghost leaked: Option<Path>, ghost linked: nat)
    requires root != [] && w.state.ours == map[] && w.state == past.now && w.madeAt == {}
    requires Committing(w, past, [], [], None, plan[..0], staged) && StagedAs(past.now.theirs, plan, staged, w.staging)
    requires makes ==> w.firstMade.None? && MakesRootFirst(w, w.state, root, plan, w.calls)
    requires smooth ==> w.Quiet() && Committable(past.now.theirs, root, plan)
    modifies w
    ensures linked <= |plan| && Committing(w, past, files, dirs, leaked, plan[..linked], staged)
    ensures LogsPlanned(plan, files, dirs) && (LeakFault(w.madeAt, w.faults) <==> leaked.Some?)
    ensures ok ==> leaked.None? && linked == |plan|
    ensures leaked.Some? ==> AbovePlanned(plan, leaked.value)
    ensures makes ==> w.firstMade == Some(old(w.calls) + 3)
    ensures w.failed >= old(w.failed) && (ok ==> w.failed == old(w.failed))
    ensures smooth && w.failed == old(w.failed) ==> ok
  {
    ghost var first := w.calls;
    assert makes ==> plan[0].status == Create && ReachesRoot(w, w.state, root, plan[0].path, first);
    ok, files, dirs, leaked, linked := true, [], [], None, 0;
    var i := 0;
    while ok && i < |plan|
      invariant 0 <= linked <= i <= |plan| && (ok ==> linked == i && leaked.None?)
      invariant Committing(w, past, files, dirs, leaked, plan[..linked], staged) && LogsPlanned(plan, files, dirs)
      invariant LeakFault(w.madeAt, w.faults) <==> leaked.Some?
      invariant leaked.Some? ==> AbovePlanned(plan, leaked.value)
      invariant i == 0 ==> ok && w.state == past.now && w.calls == first && w.firstMade == old(w.firstMade)
      invariant makes && i > 0 ==> w.firstMade == Some(first + 3)
      invariant w.failed >= old(w.failed) && (ok ==> w.failed == old(w.failed))
      invariant (smooth && w.failed == old(w.failed) ==> ok) && FilesAmong(plan, i, files)
      decreases |plan| - i
    {
      ok, files, dirs, leaked := CommitNext(w, root, plan, i, staged, files, dirs, past, makes && i == 0, smooth);
      linked := if ok then i + 1 else i;
      i := i + 1;
    }
    if ok {
      var fails := Observe(w, past, files, dirs, None, plan[..linked], staged);         // sync
      ok := !fails;
    }
  }

  // --------------------------------------------------------------------- undoing

  /** Compare-and-remove every logged file, last first. */
  method UndoFiles(w: World, files: seq<Created>, ghost dirs: seq<Created>, ghost leaked: Option<Path>, ghost past: History)
    requires Steady(w, past) && CommitInv(w.state, files, dirs, leaked)
    modifies w
    ensures Steady(w, past) && UndoFilesInv(w.state, files, 0, dirs, leaked) && w.madeAt == old(w.madeAt)
    ensures w.failed >= old(w.failed)
  {
    var k := |files|;
    assert files[..k] == files;
    while k > 0
      invariant 0 <= k <= |files| && w.madeAt == old(w.madeAt)
      invariant w.failed >= old(w.failed)
      invariant Steady(w, past) && UndoFilesInv(w.state, files, k, dirs, leaked)
    {
      ghost var before, history := w.state, w.history;
      assert files[k - 1] in files && Logged(before, files[k - 1]);
      ghost var mid := w.RemoveIfSame(files[k - 1].path, files[k - 1].inode);
      UndoFilesUnderInterference(before, mid, files, k, dirs, leaked, w.staging);
      assert Logged(mid, files[k - 1]);
      RemovesOnlyOurs(mid, files[k - 1]);
      assert w.state == RemoveIf(mid, files[k - 1]);
      CallFollows(history, past, w.foreign, w.staging, mid, w.state);
      StagingStays(past.now.theirs, before, mid, w.staging);
      FileUndone(mid, files, k, dirs, leaked);
      k := k - 1;
    }
  }

  /** Compare-and-remove every logged directory, last first; one that is not empty stays. */
  method UndoDirs(w: World, dirs: seq<Created>, ghost leaked: Option<Path>, ghost past: History)
    requires Steady(w, past) && UndoDirsInv(w.state, dirs, |dirs|, leaked) && ParentsFirst(dirs)
    modifies w
    ensures Steady(w, past) && UndoDirsInv(w.state, dirs, 0, leaked) && w.madeAt == old(w.madeAt)
    ensures w.failed >= old(w.failed)
  {
    var k := |dirs|;
    while k > 0
      invariant 0 <= k <= |dirs| && w.madeAt == old(w.madeAt)
      invariant w.failed >= old(w.failed)
      invariant Steady(w, past) && UndoDirsInv(w.state, dirs, k, leaked)
    {
      ghost var before, history := w.state, w.history;
      assert dirs[k - 1] in dirs && Logged(before, dirs[k - 1]);
      ghost var mid := w.RemoveIfSame(dirs[k - 1].path, dirs[k - 1].inode);
      UndoDirsUnderInterference(before, mid, dirs, k, leaked, w.staging);
      assert Logged(mid, dirs[k - 1]);
      RemovesOnlyOurs(mid, dirs[k - 1]);
      assert w.state == RemoveIf(mid, dirs[k - 1]);
      CallFollows(history, past, w.foreign, w.staging, mid, w.state);
      StagingStays(past.now.theirs, before, mid, w.staging);
      DirUndone(mid, dirs, k, leaked);
      k := k - 1;
    }
  }

  lemma FilesGone(s: State, files: seq<Created>, dirs: seq<Created>, leaked: Option<Path>)
    requires UndoFilesInv(s, files, 0, dirs, leaked)
    ensures UndoDirsInv(s, dirs, |dirs|, leaked)
  {
    assert files[..0] == [] && dirs[..|dirs|] == dirs;
    forall p | p in s.ours ensures s.ours[p].Dir? && (p in Paths(dirs) || Held(s, p, leaked)) {
      if leaked == Some(p) { assert p <= p; }
    }
  }

  // ---------------------------------------------------------------- the transaction

  /** What success means: the planned files are there, and ours is nothing but them and directories above them. */
  ghost predicate Installed(s: State, plan: seq<FilePlan>, staged: map<Path, Path>, start: State) {
    && Linked(s, plan, staged, start)
    && forall p :: p in s.ours ==> (s.ours[p].File? && p in Planned(plan)) || (s.ours[p].Dir? && AbovePlanned(plan, p))
  }

  /** What a rolled back transaction leaves: no file, and only directories it must not remove. */
  ghost predicate RolledBack(s: State, leaked: Option<Path>) {
    && (forall p :: p in s.ours ==> s.ours[p].Dir? && Held(s, p, leaked))
    && (leaked.Some? ==> leaked.value in s.ours)
  }

  lemma CommittedIsInstalled(s: State, plan: seq<FilePlan>, staged: map<Path, Path>, start: State,
                             files: seq<Created>, dirs: seq<Created>)
    requires CommitInv(s, files, dirs, None) && LogsPlanned(plan, files, dirs) && Linked(s, plan, staged, start)
    ensures Installed(s, plan, staged, start)
  {
    forall p | p in s.ours
      ensures (s.ours[p].File? && p in Planned(plan)) || (s.ours[p].Dir? && AbovePlanned(plan, p))
    {
      if s.ours[p].File? {
        var e :| e in files && e.path == p;
      } else {
        var e :| e in dirs && e.path == p;
      }
    }
  }

  /** What the tree has become, when no other process acts and the transaction succeeded. */
  ghost predicate Grown(before: Tree, after: Tree, plan: seq<FilePlan>) {
    && (forall p :: p in after <==> p in before || p in Planned(plan) || AbovePlanned(plan, p))
    && (forall p :: p in before ==> after[p] == before[p])
    && (forall f :: f in plan && f.status == Create ==>
          && f.path !in before && f.path in after
          && after[f.path].File? && after[f.path].contents == f.contents && after[f.path].mode == f.mode)
    && (forall p :: p in after && p !in before && p !in Planned(plan) ==> after[p].Dir?)
  }

  /** Without other processes, a successful transaction adds exactly the planned files and their missing ancestors. */
  lemma InstalledExactly(start: State, s: State, plan: seq<FilePlan>, staged: map<Path, Path>, staging: Path)
    requires Valid(start) && Valid(s) && s.theirs == start.theirs && start.ours == map[]
    requires Installed(s, plan, staged, start) && StagedAs(start.theirs, plan, staged, staging)
    ensures Grown(start.theirs, TreeOf(s), plan)
  {
    forall f | f in plan && f.status == Create ensures f.path in s.ours {}
    forall p | AbovePlanned(plan, p) ensures p in TreeOf(s) {
      var q :| q in Planned(plan) && p < q;
      AncestorsPresent(TreeOf(s), q, p);
    }
  }

  /** Without other processes, a failed transaction restores the tree exactly unless it left a directory unrecorded. */
  lemma RestoredIff(start: State, s: State, leaked: Option<Path>)
    requires Valid(start) && Valid(s) && s.theirs == start.theirs && start.ours == map[] && RolledBack(s, leaked)
    ensures TreeOf(s) == TreeOf(start) <==> leaked.None?
    ensures leaked.Some? ==> forall p :: p in s.ours ==> p <= leaked.value
  {
    assert TreeOf(start) == start.theirs;
    forall p | p in s.ours ensures leaked.Some? && p <= leaked.value {
      assert Held(s, p, leaked);
      var q :| p <= q && (q in s.theirs || leaked == Some(q));
      if q in start.theirs && p != q { AncestorsPresent(start.theirs, q, p); }
    }
    if leaked.None? {
      assert s.ours == map[];
      assert TreeOf(s) == start.theirs;
    } else {
      assert leaked.value in TreeOf(s) && leaked.value !in start.theirs;
    }
  }

  /** The deferred rollback: both logs, last entry first. */
  method RollBack(w: World, files: seq<Created>, dirs: seq<Created>, ghost leaked: Option<Path>, ghost past: History,
                  ghost done: seq<FilePlan>, ghost staged: map<Path, Path>)
    requires Committing(w, past, files, dirs, leaked, done, staged)
    modifies w
    ensures Steady(w, past) && RolledBack(w.state, leaked)
    ensures w.madeAt == old(w.madeAt) && w.failed >= old(w.failed)
  {
    OpenUp(w, past, files, dirs, leaked, done, staged);
    UndoFiles(w, files, dirs, leaked, past);
    FilesGone(w.state, files, dirs, leaked);
    UndoDirs(w, dirs, leaked, past);
    LeftAfterUndo(w.state, dirs, leaked);
  }

  /** Once all of the plan is linked it is installed. */
  lemma AllCommitted(w: World, past: History, files: seq<Created>, dirs: seq<Created>, plan: seq<FilePlan>,
                     staged: map<Path, Path>)
    requires Committing(w, past, files, dirs, None, plan[..|plan|], staged) && LogsPlanned(plan, files, dirs)
    ensures Steady(w, past) && Installed(w.state, plan, staged, past.now)
  {
    OpenUp(w, past, files, dirs, None, plan[..|plan|], staged);
    assert plan[..|plan|] == plan;
    CommittedIsInstalled(w.state, plan, staged, past.now, files, dirs);
  }

  lemma FirstIsMade(w: World, past: History, files: seq<Created>, dirs: seq<Created>, leaked: Option<Path>,
                    done: seq<FilePlan>, staged: map<Path, Path>)
    requires Committing(w, past, files, dirs, leaked, done, staged)
    ensures w.firstMade.Some? ==> w.firstMade.value in w.madeAt
  {
    OpenUp(w, past, files, dirs, leaked, done, staged);
  }

  /** Commit the plan or roll it back. */
  method CommitOrRollBack(w: World, root: Path, plan: seq<FilePlan>, staged: map<Path, Path>, ghost past: History,
                          ghost makes: bool, ghost smooth: bool)
      returns (ok: bool, ghost leaked: Option<Path>)
    requires root != [] && w.state.ours == map[] && w.state == past.now && w.madeAt == {}
    requires Steady(w, past) && StagedAs(past.now.theirs, plan, staged, w.staging)
    requires makes ==> w.firstMade.None? && MakesRootFirst(w, w.state, root, plan, w.calls)
    requires smooth ==> w.Quiet() && Committable(past.now.theirs, root, plan)
    modifies w
    ensures Steady(w, past)
    ensures ok ==> Installed(w.state, plan, staged, past.now)
    ensures !ok ==> RolledBack(w.state, leaked)
    ensures leaked.Some? <==> LeakFault(w.madeAt, w.faults)
    ensures leaked.Some? ==> !ok && AbovePlanned(plan, leaked.value)
    ensures makes ==> old(w.calls) + 3 in w.madeAt
    ensures w.failed >= old(w.failed) && (ok ==> w.failed == old(w.failed))
    ensures smooth && w.failed == old(w.failed) ==> ok
  {
    var files, dirs;
    ghost var linked;
    CloseUp(w, past, [], [], None, plan[..0], staged);
    ok, files, dirs, leaked, linked := CommitLoop(w, root, plan, staged, past, makes, smooth);
    FirstIsMade(w, past, files, dirs, leaked, plan[..linked], staged);
    if ok {
      AllCommitted(w, past, files, dirs, plan, staged);
    } else {
      RollBack(w, files, dirs, leaked, past, plan[..linked], staged);
    }
  }

  /**
   The whole transaction. Whatever fails and whoever else acts, no node of anybody else is
   overwritten or removed: what is not ours is exactly the first tree overlaid with what other
   processes put there before each call. When nobody else acts, a plan nothing stands in the way
   of succeeds exactly when no call fails, success adds exactly the
   plan, and failure restores the tree exactly when no call failed right after a successful Mkdirat.
   */
  method CommitFiles(w: World, root: Path, plan: seq<FilePlan>, staged: map<Path, Path>)
      returns (ok: bool, ghost leaked: Option<Path>)
    requires root != [] && w.Ok() && w.state.ours == map[] && w.madeAt == {}
    requires StagedAs(w.state.theirs, plan, staged, w.staging)
    modifies w
    ensures w.Ok() && Trace(w.history, old(w.history), w.foreign, w.staging)
    ensures Untouched(old(w.state), w.state, w.staging)
    ensures SameOutside(w.state.theirs, Overlay(w.history, old(w.history), w.foreign, w.staging), w.staging)
    ensures StagingKept(old(w.state.theirs), w.state.theirs, w.staging)
    ensures ok ==> NoFault(w.faults, old(w.calls), w.calls)
    ensures w.Quiet() && Committable(old(w.state.theirs), root, plan) ==> (ok <==> NoFault(w.faults, old(w.calls), w.calls))
    ensures ok ==> Installed(w.state, plan, staged, old(w.state))
    ensures !ok ==> RolledBack(w.state, leaked)
    ensures leaked.Some? <==> LeakFault(w.madeAt, w.faults)
    ensures leaked.Some? ==> !ok && AbovePlanned(plan, leaked.value)
    ensures MakesRootFirst(w, old(w.state), root, plan, old(w.calls)) ==> old(w.calls) + 3 in w.madeAt
    ensures w.Quiet() ==> w.state.theirs == old(w.state.theirs)
    ensures w.Quiet() && ok ==> Grown(old(TreeOf(w.state)), TreeOf(w.state), plan)
    ensures w.Quiet() && !ok ==>
              (TreeOf(w.state) == old(TreeOf(w.state)) <==> !LeakFault(w.madeAt, w.faults))
  {
    ghost var start, past := w.state, w.history;
    assert TreeOf(start) == start.theirs;
    ghost var makes := w.firstMade.None? && MakesRootFirst(w, start, root, plan, w.calls);
    ghost var smooth := w.Quiet() && Committable(start.theirs, root, plan);
    ok, leaked := CommitOrRollBack(w, root, plan, staged, past, makes, smooth);
    if w.Quiet() {
      if ok { InstalledExactly(start, w.state, plan, staged, w.staging); } else { RestoredIff(start, w.state, leaked); }
    }
    TraceGrows(w.history, past, w.foreign, w.staging);
    NoFaultIff(w.faults, old(w.calls), w.calls);
    TraceKeepsTheirs(w.history, past, w.foreign, w.staging);
    TheirsAreOverlaid(w.history, past, w.foreign, w.staging);
  }

  lemma LeftAfterUndo(s: State, dirs: seq<Created>, leaked: Option<Path>)
    requires UndoDirsInv(s, dirs, 0, leaked)
    ensures RolledBack(s, leaked)
  {
    assert Paths(dirs[..0]) == {};
  }

  /** Conversely, a directory with a node of another process below it is not empty: compare-and-remove had to leave it. */
  lemma HeldMustStay(s: State, e: Created, q: Path)
    requires Valid(s) && q in s.theirs && e.path < q
    ensures e.path in TreeOf(s) && RemoveIf(s, e) == s
  {
    var p := e.path;
    AncestorsPresent(TreeOf(s), q, p);
    var c := q[..|p| + 1];
    if c != q { AncestorsPresent(TreeOf(s), q, c); }
    assert c in TreeOf(s) && Parent(c) == p;
  }

  const FRESH_TREE: Tree := map[
    [] := Dir(0),
    ["staging"] := Dir(1),
    ["staging", "000000"] := File(2, [7], 420)]

  const FRESH_PLAN := [FilePlan(["app", "main"], Create, [7], 420)]

  /** A tree without the root, and a file staged for it. */
  lemma FreshTree()
    ensures Valid(State(FRESH_TREE, map[], 3)) && TreeOf(State(FRESH_TREE, map[], 3)) == FRESH_TREE
    ensures StagedAs(FRESH_TREE, FRESH_PLAN, map[["app", "main"] := ["staging", "000000"]], ["staging"])
  {
    var t := FRESH_TREE;
    assert TreeOf(State(t, map[], 3)) == t;
    assert Parent(["staging"]) == [] && Parent(["staging", "000000"]) == ["staging"];
    var path := FRESH_PLAN[0].path;
    assert Parent(path) == ["app"] && Parent(["app"]) == [];
    assert path[..0] == [] && path[..1] == ["app"];
  }

  lemma OnlyRootAbove(p: Path)
    requires AbovePlanned(FRESH_PLAN, p) && p != []
    ensures p == ["app"]
  {
    var q :| q in Planned(FRESH_PLAN) && p < q;
    assert q == ["app", "main"];
    assert p == q[..|p|];
  }

  /** What stays of ours is a single directory, since nothing but the root is above the plan. */
  lemma OursIsRoot(start: State, s: State, leaked: Option<Path>)
    requires Valid(start) && Valid(s) && s.theirs == start.theirs && start.ours == map[]
    requires RolledBack(s, leaked) && leaked.Some? && AbovePlanned(FRESH_PLAN, leaked.value)
    ensures s.ours.Keys == {["app"]} && s.ours[["app"]].Dir?
  {
    assert [] in start.theirs by { assert TreeOf(start) == start.theirs; }
    OnlyRootAbove(leaked.value);
    RestoredIff(start, s, leaked);
    forall p | p in s.ours ensures p == ["app"] {
      assert p <= ["app"] && p == ["app"][..|p|] && p != [];
    }
  }

  /**
   A run in which a failure is not taken back: the root is missing, so the fourth call makes it;
   the fifth, which opens it, fails, and the new directory stays although nobody else acts.
   */
  method UnrecordedDirectoryStays() returns (w: World, ok: bool)
    ensures w.Quiet() && (forall n :: Fails(w.faults, n) <==> n == 4)
    ensures !ok && w.state.theirs == FRESH_TREE
    ensures w.state.ours.Keys == {["app"]} && w.state.ours[["app"]].Dir?
  {
    FreshTree();
    w := new World(FRESH_TREE, 3, ["staging"], n => [], n => n == 4);
    ghost var start, leaked := w.state, None;
    assert MakesRootFirst(w, start, ["app"], FRESH_PLAN, 0);
    ok, leaked := CommitFiles(w, ["app"], FRESH_PLAN, map[["app", "main"] := ["staging", "000000"]]);
    assert LeakFault(w.madeAt, w.faults) by { assert 3 in w.madeAt && Doomed(3, w.faults); }
    OursIsRoot(start, w.state, leaked);
  }

  /** Nothing stands in that plan's way, so without a failing call it is committed. */
  method FreshPlanIsCommitted() returns (w: World, ok: bool)
    ensures w.Quiet() && (forall n :: !Fails(w.faults, n))
    ensures ok && Grown(FRESH_TREE, TreeOf(w.state), FRESH_PLAN)
  {
    FreshTree();
    w := new World(FRESH_TREE, 3, ["staging"], n => [], n => false);
    assert Committable(FRESH_TREE, ["app"], FRESH_PLAN) by {
      var path := FRESH_PLAN[0].path;
      assert Parent(path) == ["app"] && Parent(["app"]) == [];
      assert path[..0] == [] && path[..1] == ["app"];
    }
    ghost var leaked;
    ok, leaked := CommitFiles(w, ["app"], FRESH_PLAN, map[["app", "main"] := ["staging", "000000"]]);
  }
}
