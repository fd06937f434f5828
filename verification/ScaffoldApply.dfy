/**
 Applying a plan: compare every destination again, stop at any conflict before anything
 is written, stage the missing files in a private directory, run the transaction, and
 remove the staging directory. The comparison is one look at the tree.
 */
module ScaffoldApply {
  import opened Prelude
  import opened FileTrace
  import opened FileTree
  import opened ScaffoldTransaction

  /** What a destination holds against what it should hold. */
  function CompareDestination(t: Tree, path: Path, expected: seq<byte>): Status {
    if path !in t then Create
    else if t[path].File? && t[path].contents == expected then Unchanged
    else Conflict
  }

  predicate ValidDestination(t: Tree, root: Path, path: Path) {
    path != [] && root <= Parent(path) && AncestorsAreDirectories(t, path)
  }

  /** The walk from the root down: the first missing component ends it. */
  method CheckAncestors(t: Tree, path: Path) returns (ok: bool)
    requires Rooted(t)
    ensures ok <==> AncestorsAreDirectories(t, path)
  {
    var k := 0;
    while k < |path|
      invariant 0 <= k <= |path|
      invariant forall j :: 0 <= j < k ==> path[..j] in t && t[path[..j]].Dir?
    {
      if path[..k] !in t {
        NothingBelow(t, path, k);
        return true;
      }
      if !t[path[..k]].Dir? { return false; }
      k := k + 1;
    }
    return true;
  }

  lemma NothingBelow(t: Tree, path: Path, k: nat)
    requires Rooted(t) && k < |path| && path[..k] !in t
    ensures forall j :: k <= j < |path| ==> path[..j] !in t
  {
    forall j | k < j < |path| ensures path[..j] !in t {
      if path[..j] in t {
        assert path[..k] == path[..j][..k] && path[..k] < path[..j];
        AncestorsPresent(t, path[..j], path[..k]);
      }
    }
  }

  /** The plan with its statuses as the tree now has them. */
  ghost predicate Refreshed(t: Tree, root: Path, plan: seq<FilePlan>, current: seq<FilePlan>) {
    && |current| == |plan|
    && forall i :: 0 <= i < |plan| ==>
         && ValidDestination(t, root, plan[i].path)
         && current[i] == plan[i].(status := CompareDestination(t, plan[i].path, plan[i].contents))
  }

  method Refresh(t: Tree, root: Path, plan: seq<FilePlan>) returns (current: Option<seq<FilePlan>>)
    requires Rooted(t)
    ensures current.Some? <==> forall i :: 0 <= i < |plan| ==> ValidDestination(t, root, plan[i].path)
    ensures current.Some? ==> Refreshed(t, root, plan, current.value)
  {
    var out: seq<FilePlan> := [];
    for i := 0 to |plan|
      invariant Refreshed(t, root, plan[..i], out)
    {
      var file := plan[i];
      assert plan[..i + 1] == plan[..i] + [file];
      if file.path == [] || !(root <= Parent(file.path)) { return None; }
      var ok := CheckAncestors(t, file.path);
      if !ok { return None; }
      out := out + [file.(status := CompareDestination(t, file.path, file.contents))];
    }
    assert plan[..|plan|] == plan;
    return Some(out);
  }

  predicate HasConflict(plan: seq<FilePlan>) { exists f :: f in plan && f.status == Conflict }

  /** The destination is a regular file with exactly the planned bytes. */
  ghost predicate Holds(t: Tree, f: FilePlan) { f.path in t && t[f.path].File? && t[f.path].contents == f.contents }

  /** Something else is there. */
  ghost predicate Occupied(t: Tree, f: FilePlan) { f.path in t && !Holds(t, f) }

  ghost predicate ToldApart(t: Tree, plan: seq<FilePlan>, current: seq<FilePlan>) {
    && |current| == |plan|
    && forall i :: 0 <= i < |plan| ==> current[i] == plan[i].(status := if Holds(t, plan[i]) then Unchanged else Create)
  }

  /** A conflict is a destination where something else is; without one the statuses say what is there and what is not. */
  lemma StatusesTell(t: Tree, root: Path, plan: seq<FilePlan>, current: seq<FilePlan>)
    requires Refreshed(t, root, plan, current)
    ensures HasConflict(current) <==> exists f :: f in plan && Occupied(t, f)
    ensures !HasConflict(current) ==> ToldApart(t, plan, current)
  {
    forall i | 0 <= i < |plan| ensures current[i].status == Conflict <==> Occupied(t, plan[i]) {}
    if HasConflict(current) {
      var i :| 0 <= i < |current| && current[i].status == Conflict;
      assert plan[i] in plan && Occupied(t, plan[i]);
    }
    if f :| f in plan && Occupied(t, f) {
      var i :| 0 <= i < |plan| && plan[i] == f;
      assert current[i] in current && current[i].status == Conflict;
    } else {
      forall i | 0 <= i < |plan|
        ensures current[i] == plan[i].(status := if Holds(t, plan[i]) then Unchanged else Create)
      {
        assert plan[i] in plan && !Occupied(t, plan[i]);
      }
    }
  }

  // -------------------------------------------------------------------- staging

  /** The index as a decimal of at least `width` digits. */
  function StagedName(index: nat, width: nat): string
    decreases index + width
  {
    if index == 0 && width == 0 then ""
    else StagedName(index / 10, if width > 0 then width - 1 else 0) + [('0' as int + index % 10) as char]
  }

  /** The number a string of decimal digits stands for. */
  function DecimalValue(s: string): int
  {
    if s == "" then 0 else DecimalValue(s[..|s| - 1]) * 10 + (s[|s| - 1] as int - '0' as int)
  }

  lemma {:induction false} NameHasValue(index: nat, width: nat)
    ensures DecimalValue(StagedName(index, width)) == index
    decreases index + width
  {
    if index != 0 || width != 0 {
      var rest := StagedName(index / 10, if width > 0 then width - 1 else 0);
      NameHasValue(index / 10, if width > 0 then width - 1 else 0);
      assert StagedName(index, width)[..|rest|] == rest;
    }
  }

  /** Where the file with this index is staged. */
  function StagedPath(staging: Path, index: nat): Path {
    staging + [StagedName(index, 6)]
  }

  lemma StagedPathsDiffer(staging: Path, i: nat, j: nat)
    requires i != j
    ensures StagedPath(staging, i) != StagedPath(staging, j)
  {
    NameHasValue(i, 6);
    NameHasValue(j, 6);
    assert StagedPath(staging, i)[|staging|] == StagedName(i, 6);
    assert StagedPath(staging, j)[|staging|] == StagedName(j, 6);
  }

  /** The staging directory is there, and the names from this index on are free. */
  ghost predicate NamesLeft(t: Tree, staging: Path, index: nat) {
    && staging in t && t[staging].Dir?
    && forall k :: index <= k ==> StagedPath(staging, k) !in t
  }

  lemma NameIsFree(t: Tree, staging: Path, index: nat)
    requires NamesLeft(t, staging, index)
    ensures Free(t, StagedPath(staging, index))
  {
    assert Parent(StagedPath(staging, index)) == staging;
  }

  lemma NameTaken(t: Tree, staging: Path, index: nat, node: Node)
    requires NamesLeft(t, staging, index)
    ensures NamesLeft(t[StagedPath(staging, index) := node], staging, index + 1)
  {
    assert StagedPath(staging, index) != staging;
    forall k | index + 1 <= k ensures StagedPath(staging, k) !in t[StagedPath(staging, index) := node] {
      StagedPathsDiffer(staging, index, k);
    }
  }

  lemma AllNamesLeft(t: Tree, staging: Path, node: Node)
    requires Rooted(t) && staging !in t && staging != [] && node.Dir?
    ensures NamesLeft(t[staging := node], staging, 0)
  {
    forall k: nat ensures StagedPath(staging, k) !in t[staging := node] {
      if StagedPath(staging, k) in t { AncestorsPresent(t, StagedPath(staging, k), staging); }
    }
  }

  ghost predicate DistinctPaths(plan: seq<FilePlan>) {
    forall i, j :: 0 <= i < j < |plan| ==> plan[i].path != plan[j].path
  }

  /** Nothing is planned inside the staging directory. */
  ghost predicate Outside(plan: seq<FilePlan>, staging: Path) {
    forall i :: 0 <= i < |plan| ==> !(staging <= plan[i].path)
  }

  /** Since `past` only other processes and the staging have acted. */
  ghost predicate StagingOnly(w: World, past: History)
    reads w
  {
    && w.Ok() && Trace(w.history, past, w.foreign, w.staging)
    && w.state.ours == map[] && w.madeAt == {}
    && (w.Quiet() ==> WithoutBelow(w.state.theirs, w.staging) == past.now.theirs)
  }

  lemma StagingStep(h: History, past: History, foreign: nat -> seq<ForeignOp>, staging: Path, mid: State, after: State,
                    path: Path, node: Node, ok: bool)
    requires staging <= path && Trace(h, past, foreign, staging) && Valid(h.now) && h.now.ours == map[]
    requires Acted(foreign, Calls(h), staging, h.now, mid) && Interfered(h.now, mid, staging)
    requires after == if ok then PrivatelyAdded(mid, path, node) else mid
    ensures Trace(Then(h, after), past, foreign, staging) && after.ours == map[]
    ensures WithoutBelow(after.theirs, staging) == WithoutBelow(mid.theirs, staging)
    ensures forall p :: staging <= p && p in h.now.theirs && p != path ==>
            p in after.theirs && after.theirs[p] == h.now.theirs[p]
  {
    assert mid.ours == map[];
    assert SameOutside(after.theirs, mid.theirs, staging);
    IsCall(h.now, foreign, Calls(h), staging, mid, after);
  }

  /** One staged file; its name must be new. */
  method StageOne(w: World, path: Path, kind: Kind, ghost past: History) returns (ok: bool)
    requires StagingOnly(w, past) && w.staging <= path
    modifies w
    ensures StagingOnly(w, past)
    ensures ok ==> path in w.state.theirs && path !in old(w.state.theirs)
                   && w.state.theirs[path] == Make(kind, w.state.theirs[path].inode)
    ensures forall p :: w.staging <= p && p in old(w.state.theirs) ==>
              p in w.state.theirs && w.state.theirs[p] == old(w.state.theirs)[p]
    ensures w.failed >= old(w.failed) && (ok ==> w.failed == old(w.failed))
    ensures w.Quiet() && Free(old(w.state.theirs), path) && w.failed == old(w.failed) ==> ok
    ensures w.Quiet() && ok ==> w.state.theirs == old(w.state.theirs)[path := w.state.theirs[path]]
  {
    ghost var before := w.history;
    ghost var mid;
    assert TreeOf(w.state) == w.state.theirs;
    ok, mid := w.CreatePrivate(path, kind);
    StagingStep(before, past, w.foreign, w.staging, mid, w.state, path, Make(kind, mid.next), ok);
  }

  /** Reading or syncing: other processes may act, the staging stays. */
  method Look(w: World, ghost past: History) returns (ok: bool)
    requires StagingOnly(w, past)
    modifies w
    ensures StagingOnly(w, past)
    ensures forall p :: w.staging <= p && p in old(w.state.theirs) ==>
              p in w.state.theirs && w.state.theirs[p] == old(w.state.theirs)[p]
    ensures w.failed == old(w.failed) + if ok then 0 else 1
    ensures w.Quiet() ==> w.state == old(w.state)
  {
    ghost var before := w.history;
    var fails := w.Enter();
    StagingStep(before, past, w.foreign, w.staging, w.state, w.state, w.staging, Link(0), false);
    assert before.now.theirs == old(w.state.theirs);
    assert forall p :: w.staging <= p && p in before.now.theirs ==>
      p in w.state.theirs && w.state.theirs[p] == before.now.theirs[p];
    ok := !fails;
  }

  /** Of the first files of the plan, those to be created are staged. */
  ghost predicate StagedUpTo(tree: Tree, plan: seq<FilePlan>, i: nat, staged: map<Path, Path>, staging: Path)
    requires i <= |plan|
  {
    forall j :: 0 <= j < i && plan[j].status == Create ==>
      && plan[j].path in staged && staging <= staged[plan[j].path] && staged[plan[j].path] in tree
      && tree[staged[plan[j].path]].File?
      && tree[staged[plan[j].path]].contents == plan[j].contents && tree[staged[plan[j].path]].mode == plan[j].mode
  }

  lemma StagedStays(before: Tree, after: Tree, plan: seq<FilePlan>, i: nat, staged: map<Path, Path>, staging: Path)
    requires i <= |plan| && StagedUpTo(before, plan, i, staged, staging)
    requires forall p :: staging <= p && p in before ==> p in after && after[p] == before[p]
    ensures StagedUpTo(after, plan, i, staged, staging)
  {
  }

  function StagedOneMore(tree: Tree, plan: seq<FilePlan>, i: nat, staged: map<Path, Path>, path: Path, staging: Path)
    : (more: map<Path, Path>)
    requires i < |plan| && StagedUpTo(tree, plan, i, staged, staging) && DistinctPaths(plan)
    requires staging <= path && path in tree && tree[path].File?
    requires tree[path].contents == plan[i].contents && tree[path].mode == plan[i].mode
    ensures StagedUpTo(tree, plan, i + 1, more, staging)
  {
    staged[plan[i].path := path]
  }

  /** One file of the plan, written into the staging directory if it is to be created. */
  method StageFile(w: World, plan: seq<FilePlan>, index: nat, staged: map<Path, Path>, ghost past: History,
                   ghost smooth: bool)
      returns (ok: bool, more: map<Path, Path>)
    requires smooth ==> w.Quiet() && NamesLeft(w.state.theirs, w.staging, index)
    requires index < |plan| && plan[index].status == Create && StagingOnly(w, past) && DistinctPaths(plan)
    requires StagedUpTo(w.state.theirs, plan, index, staged, w.staging)
    modifies w
    ensures StagingOnly(w, past)
    ensures ok ==> StagedUpTo(w.state.theirs, plan, index + 1, more, w.staging)
    ensures w.failed >= old(w.failed) && (ok ==> w.failed == old(w.failed))
    ensures smooth && w.failed == old(w.failed) ==> ok
    ensures smooth && ok ==> NamesLeft(w.state.theirs, w.staging, index + 1)
  {
    more := staged;
    var file := plan[index];
    var path := StagedPath(w.staging, index);
    if smooth { NameIsFree(w.state.theirs, w.staging, index); }
    ghost var before := w.state.theirs;
    ok := StageOne(w, path, NewFile(file.contents, file.mode), past);         // open
    StagedStays(before, w.state.theirs, plan, index, staged, w.staging);
    if ok {
      if smooth { NameTaken(before, w.staging, index, w.state.theirs[path]); }
      more := StagedOneMore(w.state.theirs, plan, index, staged, path, w.staging);
      before := w.state.theirs;
      ok := Look(w, past);                                                    // write, chmod, sync, close
      StagedStays(before, w.state.theirs, plan, index + 1, more, w.staging);
    }
  }

  lemma StagedSkip(tree: Tree, plan: seq<FilePlan>, i: nat, staged: map<Path, Path>, staging: Path)
    requires i < |plan| && plan[i].status != Create && StagedUpTo(tree, plan, i, staged, staging)
    ensures StagedUpTo(tree, plan, i + 1, staged, staging)
  {
  }

  /** Writes the files to be created into the staging directory; false after any failure. */
  method FillStaging(w: World, plan: seq<FilePlan>, ghost past: History, ghost smooth: bool)
      returns (ok: bool, staged: map<Path, Path>)
    requires StagingOnly(w, past) && DistinctPaths(plan)
    requires smooth ==> w.Quiet() && Free(w.state.theirs, w.staging)
    modifies w
    ensures StagingOnly(w, past)
    ensures ok ==> StagedUpTo(w.state.theirs, plan, |plan|, staged, w.staging)
    ensures w.failed >= old(w.failed) && (ok ==> w.failed == old(w.failed))
    ensures smooth && w.failed == old(w.failed) ==> ok
  {
    staged := map[];
    ghost var empty := w.state;
    assert TreeOf(empty) == empty.theirs;
    ok := StageOne(w, w.staging, NewDir, past);
    if smooth && ok { AllNamesLeft(empty.theirs, w.staging, w.state.theirs[w.staging]); }
    var index := 0;
    while ok && index < |plan|
      invariant 0 <= index <= |plan| && StagingOnly(w, past)
      invariant ok ==> StagedUpTo(w.state.theirs, plan, index, staged, w.staging)
      invariant w.failed >= old(w.failed) && (ok ==> w.failed == old(w.failed))
      invariant smooth && w.failed == old(w.failed) ==> ok
      invariant smooth && ok ==> NamesLeft(w.state.theirs, w.staging, index)
      decreases |plan| - index
    {
      if plan[index].status == Create {
        ok, staged := StageFile(w, plan, index, staged, past, smooth);
      } else {
        StagedSkip(w.state.theirs, plan, index, staged, w.staging);
      }
      index := index + 1;
    }
    if ok {
      ghost var before := w.state.theirs;
      ok := Look(w, past);                                                    // sync
      StagedStays(before, w.state.theirs, plan, |plan|, staged, w.staging);
    }
  }

  /** So many of the first calls fail. */
  ghost predicate Counted(faults: nat -> bool, calls: nat, failed: nat) {
    forall u {:trigger Opened(u)} :: Opened(u) ==> failed == FaultsBefore(faults, calls)
  }

  lemma CountedIff(faults: nat -> bool, first: nat, already: nat, calls: nat, failed: nat)
    requires first <= calls && Counted(faults, first, already) && Counted(faults, calls, failed)
    ensures failed == already <==> NoFault(faults, first, calls)
  {
    assert Opened(0);
    NoFaultIff(faults, first, calls);
  }

  /** The deferred removal of the staging directory: theirs outside it stay as they are. */
  method DropStaging(w: World, ghost past: History)
    requires w.Ok() && Trace(w.history, past, w.foreign, w.staging) && w.staging != []
    modifies w
    ensures w.Ok() && Trace(w.history, past, w.foreign, w.staging) && w.madeAt == old(w.madeAt)
            && w.calls == old(w.calls) + 1
    ensures Swept(old(w.state), w.state, w.staging)
    ensures w.Quiet() ==> TreeOf(w.state) == WithoutBelow(old(TreeOf(w.state)), w.staging)
    ensures w.Quiet() ==> w.state.theirs == WithoutBelow(old(w.state.theirs), w.staging)
  {
    ghost var mid := w.RemoveStaging();
    SweptStep(old(w.history), past, w.foreign, w.staging, mid);
  }

  /** From `s` to `t` other processes acted and then everything below the staging directory went. */
  ghost predicate Swept(s: State, t: State, staging: Path) {
    && s.next <= t.next
    && (forall p :: p in TreeOf(t) ==> !(staging <= p))
    && (forall p :: p in t.ours ==> p in s.ours && t.ours[p] == s.ours[p])
    && (forall p :: p in s.ours && p !in t.ours && !(staging <= p) ==> p in t.theirs)
    && (forall p :: p in t.theirs ==> (p in s.theirs && t.theirs[p] == s.theirs[p]) || t.theirs[p].inode >= s.next)
    && (forall p :: p in s.theirs && !(staging <= p) ==> p in t.theirs)
  }

  lemma SweptStep(h: History, past: History, foreign: nat -> seq<ForeignOp>, staging: Path, mid: State)
    requires Trace(h, past, foreign, staging) && Valid(h.now)
    requires Acted(foreign, Calls(h), staging, h.now, mid) && Interfered(h.now, mid, staging)
    ensures Trace(Then(h, WithoutSubtree(mid, staging)), past, foreign, staging)
    ensures Swept(h.now, WithoutSubtree(mid, staging), staging)
  {
    var t := WithoutSubtree(mid, staging);
    assert SameOutside(t.theirs, mid.theirs, staging);
    IsCall(h.now, foreign, Calls(h), staging, mid, t);
  }

  lemma StagingRemoved(t: Tree, staging: Path)
    ensures WithoutBelow(WithoutBelow(t, staging), staging) == WithoutBelow(t, staging)
  {
  }

  /** A staging directory with every file to be created, or none at all. */
  method StageFiles(w: World, plan: seq<FilePlan>, ghost past: History, ghost smooth: bool)
      returns (ok: bool, staged: map<Path, Path>, ghost last: nat, ghost failed: nat)
    requires smooth ==> w.Quiet() && Free(w.state.theirs, w.staging)
    requires StagingOnly(w, past) && w.history == past && DistinctPaths(plan) && w.staging != []
    modifies w
    ensures StagingOnly(w, past)
    ensures ok ==> StagedUpTo(w.state.theirs, plan, |plan|, staged, w.staging)
    ensures !ok ==> forall p :: p in TreeOf(w.state) ==> !(w.staging <= p)
    ensures !ok && w.Quiet() ==> w.state.theirs == past.now.theirs
    ensures ok ==> w.failed == old(w.failed)
    ensures w.calls >= old(w.calls)
    ensures !ok ==> w.calls > old(w.calls) && Counted(w.faults, last, failed) && w.calls == last + 1
    ensures smooth && !ok ==> failed > old(w.failed)
  {
    staged := map[];
    ok := Look(w, past);                                                       // ancestors of the parent
    if ok { ok, staged := FillStaging(w, plan, past, smooth); }
    TraceGrows(w.history, past, w.foreign, w.staging);
    last, failed := w.calls, w.failed;
    assert Counted(w.faults, last, failed);
    if !ok {
      StagingRemoved(w.state.theirs, w.staging);
      DropStaging(w, past);
      assert w.state.ours == map[];
    }
  }

  // ------------------------------------------------------------------- applying

  datatype Answer = Applied(files: seq<FilePlan>) | Invalid | ConflictFound | StagingFailed | CommitFailed

  /** What growing means is the same with and without a staging directory nothing is planned in. */
  lemma GrownWithoutStaging(before: Tree, after: Tree, plan: seq<FilePlan>, staging: Path)
    requires Grown(before, after, plan) && Outside(plan, staging)
    ensures Grown(WithoutBelow(before, staging), WithoutBelow(after, staging), plan)
  {
    forall p | p in Planned(plan) || AbovePlanned(plan, p) ensures !(staging <= p) { PlannedIsOutside(plan, staging, p); }
  }

  lemma PlannedIsOutside(plan: seq<FilePlan>, staging: Path, p: Path)
    requires Outside(plan, staging) && (p in Planned(plan) || AbovePlanned(plan, p))
    ensures !(staging <= p)
  {
    var q :| q in Planned(plan) && p <= q;
    var f :| f in plan && f.path == q;
    var i :| 0 <= i < |plan| && plan[i] == f;
    assert !(staging <= plan[i].path);
  }

  lemma RefreshedKeepsPaths(t: Tree, root: Path, plan: seq<FilePlan>, current: seq<FilePlan>, staging: Path)
    requires Refreshed(t, root, plan, current) && DistinctPaths(plan) && Outside(plan, staging)
    ensures DistinctPaths(current) && Outside(current, staging)
    ensures forall f :: f in current ==> f.path != []
  {
  }

  lemma AllStaged(tree: Tree, plan: seq<FilePlan>, staged: map<Path, Path>, staging: Path)
    requires forall f :: f in plan && f.status == Create ==> f.path != []
    requires StagedUpTo(tree, plan, |plan|, staged, staging)
    ensures StagedAs(tree, plan, staged, staging)
  {
    forall f | f in plan && f.status == Create
      ensures f.path in staged && staging <= staged[f.path] && staged[f.path] in tree
      ensures tree[staged[f.path]].File? && tree[staged[f.path]].contents == f.contents
              && tree[staged[f.path]].mode == f.mode
    {
      var i :| 0 <= i < |plan| && plan[i] == f;
    }
  }

  /**
   Nothing beyond the destinations themselves stands in the way: the directories that are to hold the root
   and the staging directory exist, and no missing file is planned at or below another.
   */
  ghost predicate Unobstructed(t: Tree, root: Path, plan: seq<FilePlan>, staging: Path) {
    && root != [] && Parent(root) in t && t[Parent(root)].Dir?
    && Free(t, staging)
    && forall i, j :: 0 <= i < |plan| && 0 <= j < |plan| && i != j && plan[i].path !in t && plan[j].path !in t ==>
         !(plan[i].path <= plan[j].path)
  }

  lemma CanBeCommitted(t: Tree, root: Path, plan: seq<FilePlan>, current: seq<FilePlan>, staging: Path)
    requires Refreshed(t, root, plan, current) && Unobstructed(t, root, plan, staging)
    ensures Committable(t, root, current)
  {
    forall f | f in current && f.status == Create
      ensures f.path != [] && root <= Parent(f.path) && f.path !in t && AncestorsAreDirectories(t, f.path)
    {
      var i :| 0 <= i < |current| && current[i] == f;
      assert ValidDestination(t, root, plan[i].path);
    }
  }

  /** Staging the files does not make a plan that can be committed one that cannot. */
  lemma StillCommittable(t: Tree, full: Tree, root: Path, plan: seq<FilePlan>, staging: Path)
    requires Committable(t, root, plan) && Outside(plan, staging) && WithoutBelow(full, staging) == t
    ensures Committable(full, root, plan)
  {
    forall f | f in plan && f.status == Create
      ensures f.path != [] && root <= Parent(f.path) && f.path !in full && AncestorsAreDirectories(full, f.path)
    {
      var i :| 0 <= i < |plan| && plan[i] == f;
      assert !(staging <= plan[i].path);
      forall k | 0 <= k < |f.path| && f.path[..k] in full ensures full[f.path[..k]].Dir? {
        assert f.path[..k] <= f.path;
        assert f.path[..k] in t;
      }
    }
  }

  method FirstConflict(current: seq<FilePlan>) returns (found: bool)
    ensures found <==> HasConflict(current)
  {
    for i := 0 to |current|
      invariant forall j :: 0 <= j < i ==> current[j].status != Conflict
    {
      if current[i].status == Conflict {
        assert current[i] in current;
        return true;
      }
    }
    return false;
  }

  /** Each planned file is there as planned, or another process has since moved a new node over it. */
  ghost predicate InPlace(s: State, plan: seq<FilePlan>, start: State) {
    && start.next <= s.next
    && forall f :: f in plan && f.status == Create ==>
         if f.path in s.ours then s.ours[f.path].File? && s.ours[f.path].contents == f.contents
             && s.ours[f.path].mode == f.mode
         else f.path in s.theirs && s.theirs[f.path].inode >= start.next
  }

  lemma InstalledIsInPlace(s: State, plan: seq<FilePlan>, staged: map<Path, Path>, from: State, start: State, staging: Path)
    requires Installed(s, plan, staged, from) && StagedAs(from.theirs, plan, staged, staging) && start.next <= from.next
    ensures InPlace(s, plan, start)
  {
  }

  lemma InPlaceWhenSwept(s: State, t: State, plan: seq<FilePlan>, start: State, staging: Path)
    requires Valid(s) && InPlace(s, plan, start) && Swept(s, t, staging) && Outside(plan, staging)
    ensures InPlace(t, plan, start)
  {
    forall f | f in plan && f.status == Create ensures !(staging <= f.path) {
      var i :| 0 <= i < |plan| && plan[i] == f;
      assert !(staging <= plan[i].path);
    }
  }

  /**
   Whoever else acts, no node of anybody else is overwritten or removed, and no staging
   directory stays. An invalid destination or a conflict leaves everything alone; after a
   success every missing file is in place, and after a failure no file of ours is left. Alone,
   a success adds exactly what was missing, and applying the same plan again finds every file
   unchanged; a failure restores the tree unless a directory was left unrecorded.
   */
  method Apply(w: World, root: Path, plan: seq<FilePlan>) returns (answer: Answer, ghost leaked: Option<Path>)
    requires root != [] && w.Ok() && w.state.ours == map[] && w.madeAt == {}
    requires DistinctPaths(plan) && Outside(plan, w.staging) && w.staging != [] && w.staging !in TreeOf(w.state)
    modifies w
    ensures w.Ok() && Trace(w.history, old(w.history), w.foreign, w.staging)
    ensures Untouched(old(w.state), w.state, w.staging)
    ensures SameOutside(w.state.theirs, Overlay(w.history, old(w.history), w.foreign, w.staging), w.staging)
    ensures forall p :: p in TreeOf(w.state) ==> !(w.staging <= p)
    ensures answer.Invalid? || answer.ConflictFound? ==> w.state == old(w.state) && w.calls == old(w.calls)
    ensures answer.Invalid? <==> exists i :: 0 <= i < |plan| && !ValidDestination(old(TreeOf(w.state)), root, plan[i].path)
    ensures answer.ConflictFound? <==> !answer.Invalid? && exists f :: f in plan && Occupied(old(TreeOf(w.state)), f)
    ensures answer.Applied? ==> ToldApart(old(TreeOf(w.state)), plan, answer.files)
    ensures answer.Applied? ==> InPlace(w.state, answer.files, old(w.state))
    ensures !answer.Applied? ==> forall p :: p in w.state.ours ==> w.state.ours[p].Dir?
    ensures answer.Applied? && w.Quiet() ==>
              && Grown(old(TreeOf(w.state)), TreeOf(w.state), answer.files)
              && (forall f :: f in plan ==> Holds(TreeOf(w.state), f))
              && forall again :: Refreshed(TreeOf(w.state), root, plan, again) ==> AllUnchanged(again)
    ensures answer.StagingFailed? && w.Quiet() ==> TreeOf(w.state) == old(TreeOf(w.state))
    ensures answer.Applied? ==> w.calls > 0 && NoFault(w.faults, old(w.calls), w.calls - 1)
    ensures w.Quiet() && Unobstructed(old(TreeOf(w.state)), root, plan, w.staging) && !answer.Invalid?
            && !answer.ConflictFound? ==>
              w.calls > 0 && (answer.Applied? <==> NoFault(w.faults, old(w.calls), w.calls - 1))
    ensures answer.CommitFailed? && w.Quiet() && !LeakFault(w.madeAt, w.faults) ==> TreeOf(w.state) == old(TreeOf(w.state))
  {
    leaked := None;
    ghost var start, past := w.state, w.history;
    var t := TreeOf(w.state);
    assert t == w.state.theirs;
    NothingBelowStaging(t, w.staging);
    TraceKeepsTheirs(past, past, w.foreign, w.staging);
    var refreshed := Refresh(t, root, plan);
    if refreshed.None? { return Invalid, None; }
    var current := refreshed.value;
    StatusesTell(t, root, plan, current);
    var conflict := FirstConflict(current);
    if conflict { return ConflictFound, None; }
    RefreshedKeepsPaths(t, root, plan, current, w.staging);
    ghost var smooth := w.Quiet() && Unobstructed(t, root, plan, w.staging);
    if smooth { CanBeCommitted(t, root, plan, current, w.staging); }
    answer, leaked := StageAndCommit(w, root, current, past, smooth);
    if answer.Applied? && w.Quiet() { RerunFindsNothingToDo(t, TreeOf(w.state), root, plan, current); }
    TraceKeepsTheirs(w.history, past, w.foreign, w.staging);
    TheirsAreOverlaid(w.history, past, w.foreign, w.staging);
  }

  /** The transaction on staged files, told from the state before the staging. */
  method RunTransaction(w: World, root: Path, plan: seq<FilePlan>, staged: map<Path, Path>, ghost past: History,
                        ghost smooth: bool)
      returns (ok: bool, ghost leaked: Option<Path>)
    requires smooth ==> w.Quiet() && Committable(w.state.theirs, root, plan)
    requires root != [] && StagingOnly(w, past) && StagedAs(w.state.theirs, plan, staged, w.staging)
    modifies w
    ensures w.Ok() && Trace(w.history, past, w.foreign, w.staging)
    ensures ok ==> InPlace(w.state, plan, past.now)
    ensures !ok ==> forall p :: p in w.state.ours ==> w.state.ours[p].Dir?
    ensures w.Quiet() && ok ==> Grown(old(w.state.theirs), TreeOf(w.state), plan)
    ensures w.Quiet() && !ok && !LeakFault(w.madeAt, w.faults) ==> TreeOf(w.state) == old(w.state.theirs)
    ensures w.calls >= old(w.calls) && (ok ==> w.failed == old(w.failed))
    ensures smooth && w.failed == old(w.failed) ==> ok
  {
    ghost var start, between := w.state, w.history;
    assert TreeOf(start) == start.theirs;
    TraceKeepsTheirs(w.history, past, w.foreign, w.staging);
    ok, leaked := CommitFiles(w, root, plan, staged);
    TraceGrows(w.history, between, w.foreign, w.staging);
    NoFaultIff(w.faults, old(w.calls), w.calls);
    TraceJoins(w.history, between, past, w.foreign, w.staging);
    if ok { InstalledIsInPlace(w.state, plan, staged, start, past.now, w.staging); }
  }

  /** The same, and the deferred removal of the staging directory after it. */
  method CommitStaged(w: World, root: Path, plan: seq<FilePlan>, staged: map<Path, Path>, ghost past: History,
                      ghost smooth: bool)
      returns (ok: bool, ghost leaked: Option<Path>, ghost last: nat, ghost failed: nat)
    requires smooth ==> w.Quiet() && Committable(w.state.theirs, root, plan)
    requires root != [] && w.staging != [] && StagingOnly(w, past) && Outside(plan, w.staging)
    requires StagedAs(w.state.theirs, plan, staged, w.staging)
    modifies w
    ensures w.Ok() && Trace(w.history, past, w.foreign, w.staging)
    ensures forall p :: p in TreeOf(w.state) ==> !(w.staging <= p)
    ensures ok ==> InPlace(w.state, plan, past.now)
    ensures !ok ==> forall p :: p in w.state.ours ==> w.state.ours[p].Dir?
    ensures w.Quiet() && ok ==> Grown(past.now.theirs, TreeOf(w.state), plan)
    ensures w.Quiet() && !ok && !LeakFault(w.madeAt, w.faults) ==> TreeOf(w.state) == past.now.theirs
    ensures w.calls > old(w.calls) && Counted(w.faults, last, failed) && w.calls == last + 1
    ensures (ok ==> failed == old(w.failed)) && (smooth && failed == old(w.failed) ==> ok)
  {
    ghost var full := w.state.theirs;
    ok, leaked := RunTransaction(w, root, plan, staged, past, smooth);
    ghost var committed := w.state;
    last, failed := w.calls, w.failed;
    assert Counted(w.faults, last, failed);
    DropStaging(w, past);
    if ok {
      InPlaceWhenSwept(committed, w.state, plan, past.now, w.staging);
      if w.Quiet() { GrownWithoutStaging(full, TreeOf(committed), plan, w.staging); }
    }
  }

  /** Stages what is to be created and commits it. */
  method StageAndCommit(w: World, root: Path, plan: seq<FilePlan>, ghost past: History, ghost smooth: bool)
      returns (answer: Answer, ghost leaked: Option<Path>)
    requires root != [] && StagingOnly(w, past) && DistinctPaths(plan) && w.staging != [] && Outside(plan, w.staging)
    requires (forall f :: f in plan && f.status == Create ==> f.path != [])
    requires w.history == past
    requires smooth ==> w.Quiet() && Free(w.state.theirs, w.staging) && Committable(w.state.theirs, root, plan)
    modifies w
    ensures w.Ok() && Trace(w.history, past, w.foreign, w.staging)
    ensures forall p :: p in TreeOf(w.state) ==> !(w.staging <= p)
    ensures answer == Applied(plan) || answer.StagingFailed? || answer.CommitFailed?
    ensures answer.Applied? ==> InPlace(w.state, plan, past.now)
    ensures !answer.Applied? ==> forall p :: p in w.state.ours ==> w.state.ours[p].Dir?
    ensures w.Quiet() && answer.Applied? ==> Grown(past.now.theirs, TreeOf(w.state), plan)
    ensures w.Quiet() && answer.StagingFailed? ==> TreeOf(w.state) == past.now.theirs
    ensures w.Quiet() && answer.CommitFailed? && !LeakFault(w.madeAt, w.faults) ==> TreeOf(w.state) == past.now.theirs
    ensures w.calls > old(w.calls) && (answer.Applied? ==> NoFault(w.faults, old(w.calls), w.calls - 1))
    ensures smooth && NoFault(w.faults, old(w.calls), w.calls - 1) ==> answer.Applied?
  {
    leaked := None;
    var ok, staged;
    ghost var last, failed;
    ghost var first, already := w.calls, w.failed;
    assert Counted(w.faults, first, already);
    ok, staged, last, failed := StageFiles(w, plan, past, smooth);
    if !ok {
      CountedIff(w.faults, first, already, last, failed);
      return StagingFailed, None;
    }
    if smooth { StillCommittable(past.now.theirs, w.state.theirs, root, plan, w.staging); }
    AllStaged(w.state.theirs, plan, staged, w.staging);
    ok, leaked, last, failed := CommitStaged(w, root, plan, staged, past, smooth);
    CountedIff(w.faults, first, already, last, failed);
    answer := if ok then Applied(plan) else CommitFailed;
  }

  lemma NothingBelowStaging(t: Tree, staging: Path)
    requires Rooted(t) && staging !in t && staging != []
    ensures WithoutBelow(t, staging) == t
  {
    forall p | p in t ensures !(staging <= p) {
      if staging <= p && staging != p { AncestorsPresent(t, p, staging); }
    }
  }

  predicate AllUnchanged(plan: seq<FilePlan>) {
    forall i :: 0 <= i < |plan| ==> plan[i].status == Unchanged
  }

  /** After a successful application every planned file is there with its contents. */
  lemma RerunFindsNothingToDo(before: Tree, after: Tree, root: Path, plan: seq<FilePlan>, current: seq<FilePlan>)
    requires Refreshed(before, root, plan, current) && !HasConflict(current) && Grown(before, after, current)
    ensures forall f :: f in plan ==> Holds(after, f)
    ensures forall again :: Refreshed(after, root, plan, again) ==> AllUnchanged(again)
  {
    forall f | f in plan ensures Holds(after, f) {
      var i :| 0 <= i < |plan| && plan[i] == f;
      assert current[i] in current && current[i].path == f.path && current[i].contents == f.contents;
    }
    forall again: seq<FilePlan> | Refreshed(after, root, plan, again) ensures AllUnchanged(again) {
      forall i | 0 <= i < |plan| ensures again[i].status == Unchanged {
        assert current[i] in current && current[i].path == plan[i].path && current[i].contents == plan[i].contents;
      }
    }
  }
}
