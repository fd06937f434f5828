/**
 A file system as a map from absolute paths to nodes with inode identity. The
 nodes are split into `ours`, what the running transaction created, and `theirs`,
 everything else: what was there before and what other processes create or put in
 place of a file at any moment.

 Inode numbers are not reused while a transaction runs.
 */
module FileTree {
  import opened Prelude

  type Path = seq<string>

  datatype Node =
    | Dir(inode: nat)
    | File(inode: nat, contents: seq<byte>, mode: nat)
    | Link(inode: nat)

  type Tree = map<Path, Node>

  datatype State = State(theirs: Tree, ours: Tree, next: nat)

  function TreeOf(s: State): Tree { s.theirs + s.ours }

  function Parent(p: Path): Path
    requires p != []
  {
    p[..|p| - 1]
  }

  predicate BelowDirectory(t: Tree, p: Path) {
    p != [] ==> Parent(p) in t && t[Parent(p)].Dir?
  }

  /** Every node hangs below a directory, up to the root. */
  ghost predicate Rooted(t: Tree) {
    && [] in t && t[[]].Dir?
    && forall p {:trigger BelowDirectory(t, p)} :: p in t ==> BelowDirectory(t, p)
  }

  ghost predicate Valid(s: State) {
    && s.theirs.Keys !! s.ours.Keys
    && Rooted(TreeOf(s))
    && (forall p :: p in s.theirs ==> s.theirs[p].inode < s.next)
    && (forall p :: p in s.ours ==> s.ours[p].inode < s.next)
  }

  lemma {:induction false} AncestorsPresent(t: Tree, p: Path, q: Path)
    requires Rooted(t) && p in t && q < p
    ensures q in t && t[q].Dir?
    decreases |p|
  {
    assert BelowDirectory(t, p);
    if q != Parent(p) { AncestorsPresent(t, Parent(p), q); }
  }

  predicate HasChild(t: Tree, p: Path) {
    exists c :: c in t && c != [] && Parent(c) == p
  }

  // --------------------------------------------------------- what one call changes

  /** A node of ours appears under a free name. */
  function Added(s: State, p: Path, node: Node, next: nat): State {
    State(s.theirs, s.ours[p := node], next)
  }

  predicate Free(t: Tree, p: Path) {
    p != [] && p !in t && Parent(p) in t && t[Parent(p)].Dir?
  }

  lemma AddedIsValid(s: State, p: Path, node: Node, next: nat)
    requires Valid(s) && Free(TreeOf(s), p) && s.next <= next && node.inode < next
    ensures Valid(Added(s, p, node, next)) && TreeOf(Added(s, p, node, next)) == TreeOf(s)[p := node]
  {
    var t := Added(s, p, node, next);
    assert TreeOf(t) == TreeOf(s)[p := node];
    forall q | q in TreeOf(t) ensures BelowDirectory(TreeOf(t), q) {
      if q != p { assert BelowDirectory(TreeOf(s), q); }
    }
  }

  function Removed(s: State, p: Path): State {
    State(s.theirs - {p}, s.ours - {p}, s.next)
  }

  lemma RemovedIsValid(s: State, p: Path)
    requires Valid(s) && p != [] && !HasChild(TreeOf(s), p)
    ensures Valid(Removed(s, p)) && TreeOf(Removed(s, p)) == TreeOf(s) - {p}
  {
    var t := Removed(s, p);
    assert TreeOf(t) == TreeOf(s) - {p};
    forall q | q in TreeOf(t) ensures BelowDirectory(TreeOf(t), q) {
      assert BelowDirectory(TreeOf(s), q);
      assert q != [] ==> Parent(q) != p;
    }
  }

  /** A node of the staging appears; it counts with what was there before the transaction. */
  function PrivatelyAdded(s: State, p: Path, node: Node): State {
    State(s.theirs[p := node], s.ours, s.next + 1)
  }

  lemma PrivatelyAddedIsValid(s: State, p: Path, node: Node)
    requires Valid(s) && Free(TreeOf(s), p) && node.inode == s.next
    ensures Valid(PrivatelyAdded(s, p, node)) && TreeOf(PrivatelyAdded(s, p, node)) == TreeOf(s)[p := node]
  {
    var t := PrivatelyAdded(s, p, node);
    assert TreeOf(t) == TreeOf(s)[p := node];
    forall q | q in TreeOf(t) ensures BelowDirectory(TreeOf(t), q) {
      if q != p { assert BelowDirectory(TreeOf(s), q); }
    }
  }

  function WithoutBelow(t: Tree, top: Path): Tree {
    map p | p in t && !(top <= p) :: t[p]
  }

  function WithoutSubtree(s: State, top: Path): State {
    State(WithoutBelow(s.theirs, top), WithoutBelow(s.ours, top), s.next)
  }

  lemma WithoutSubtreeIsValid(s: State, top: Path)
    requires Valid(s) && top != []
    ensures Valid(WithoutSubtree(s, top)) && TreeOf(WithoutSubtree(s, top)) == WithoutBelow(TreeOf(s), top)
  {
    var t := WithoutSubtree(s, top);
    assert TreeOf(t) == WithoutBelow(TreeOf(s), top);
    forall q | q in TreeOf(t) ensures BelowDirectory(TreeOf(t), q) {
      assert BelowDirectory(TreeOf(s), q) && !(top <= q);
      if q != [] { BelowParent(top, q); }
    }
  }

  lemma BelowParent(top: Path, q: Path)
    requires q != []
    ensures top <= Parent(q) ==> top <= q
  {
  }

  // ------------------------------------------------------ what other processes do

  /** Another process creates a node, or moves one over a file or symbolic link. */
  datatype ForeignOp = Put(path: Path, kind: Kind)
  datatype Kind = NewDir | NewFile(contents: seq<byte>, mode: nat) | NewLink

  function Make(kind: Kind, inode: nat): Node {
    match kind
    case NewDir => Dir(inode)
    case NewFile(contents, mode) => File(inode, contents, mode)
    case NewLink => Link(inode)
  }

  /** The operation can happen: below a directory, not over a directory, not in the private staging directory. */
  predicate CanPut(s: State, op: ForeignOp, staging: Path) {
    var t := TreeOf(s);
    && op.path != [] && !(staging <= op.path)
    && Parent(op.path) in t && t[Parent(op.path)].Dir?
    && (op.path in t ==> !t[op.path].Dir?)
  }

  function Foreign(s: State, op: ForeignOp, staging: Path): State {
    if CanPut(s, op, staging) then
      State(s.theirs[op.path := Make(op.kind, s.next)], s.ours - {op.path}, s.next + 1)
    else s
  }

  function ForeignAll(s: State, ops: seq<ForeignOp>, staging: Path): State
    decreases |ops|
  {
    if ops == [] then s else ForeignAll(Foreign(s, ops[0], staging), ops[1..], staging)
  }

  /** The nodes those operations put there, the last one for each path. */
  function Puts(s: State, ops: seq<ForeignOp>, staging: Path): Tree
    decreases |ops|
  {
    if ops == [] then map[]
    else
      var first := if CanPut(s, ops[0], staging) then map[ops[0].path := Make(ops[0].kind, s.next)] else map[];
      first + Puts(Foreign(s, ops[0], staging), ops[1..], staging)
  }

  lemma PutOverlays(s: State, op: ForeignOp, staging: Path)
    ensures Foreign(s, op, staging).theirs
            == s.theirs + if CanPut(s, op, staging) then map[op.path := Make(op.kind, s.next)] else map[]
  {
  }

  lemma OverlaidTwice(a: Tree, b: Tree, c: Tree)
    ensures (a + b) + c == a + (b + c)
  {
  }

  lemma {:induction false} PutsAreTheirs(s: State, ops: seq<ForeignOp>, staging: Path)
    ensures ForeignAll(s, ops, staging).theirs == s.theirs + Puts(s, ops, staging)
    decreases |ops|
  {
    if ops != [] {
      var first := Foreign(s, ops[0], staging);
      PutsAreTheirs(first, ops[1..], staging);
      var put := if CanPut(s, ops[0], staging) then map[ops[0].path := Make(ops[0].kind, s.next)] else map[];
      OverlaidTwice(s.theirs, put, Puts(first, ops[1..], staging));
      assert first.theirs == s.theirs + put by { PutOverlays(s, ops[0], staging); }
    }
  }

  /** Before the call with this number other processes turned `s` into `t`. */
  ghost predicate Acted(foreign: nat -> seq<ForeignOp>, call: nat, staging: Path, s: State, t: State) {
    t == ForeignAll(s, foreign(call), staging)
  }

  /** From `s` to `t` only other processes acted. */
  ghost predicate Interfered(s: State, t: State, staging: Path) {
    && Valid(t) && s.next <= t.next
    && (forall p :: p in s.theirs ==> p in t.theirs)
    && (forall p :: p in s.theirs && s.theirs[p].Dir? ==> t.theirs[p] == s.theirs[p])
    && (forall p :: p in t.theirs ==> (p in s.theirs && t.theirs[p] == s.theirs[p]) || t.theirs[p].inode >= s.next)
    && (forall p :: p in t.ours ==> p in s.ours && t.ours[p] == s.ours[p])
    && (forall p :: p in s.ours && p !in t.ours ==> p in t.theirs && !s.ours[p].Dir?)
    && (forall p :: staging <= p && p in t.theirs ==> p in s.theirs)
    && (forall p :: staging <= p && p in s.theirs ==> t.theirs[p] == s.theirs[p])
    && (forall p :: staging <= p && p in s.ours ==> p in t.ours)
  }

  lemma PutIsValid(s: State, op: ForeignOp, staging: Path)
    requires Valid(s) && CanPut(s, op, staging)
    ensures var t := Foreign(s, op, staging);
            Valid(t) && TreeOf(t) == TreeOf(s)[op.path := Make(op.kind, s.next)]
  {
    var t := Foreign(s, op, staging);
    assert TreeOf(t) == TreeOf(s)[op.path := Make(op.kind, s.next)];
    forall q | q in TreeOf(t) ensures BelowDirectory(TreeOf(t), q) {
      if q != op.path { assert BelowDirectory(TreeOf(s), q); }
    }
  }

  lemma ForeignInterferes(s: State, op: ForeignOp, staging: Path)
    requires Valid(s)
    ensures Interfered(s, Foreign(s, op, staging), staging)
  {
    if CanPut(s, op, staging) { PutIsValid(s, op, staging); }
  }

  lemma {:induction false} ForeignAllInterferes(s: State, ops: seq<ForeignOp>, staging: Path)
    requires Valid(s)
    ensures Interfered(s, ForeignAll(s, ops, staging), staging)
    decreases |ops|
  {
    if ops != [] {
      ForeignInterferes(s, ops[0], staging);
      ForeignAllInterferes(Foreign(s, ops[0], staging), ops[1..], staging);
    }
  }

  // ----------------------------------------------------------------- the file system

  /** The states a run of calls went through, the last one outermost. */
  datatype History = Begun(now: State) | Then(past: History, now: State)

  function Calls(h: History): nat {
    match h
    case Begun(_) => 0
    case Then(past, _) => Calls(past) + 1
  }

  /** From one state to the other a directory of ours appeared. */
  ghost predicate NewDirectory(s: State, t: State) {
    exists p :: p in t.ours && t.ours[p].Dir? && p !in s.ours
  }

  /** The numbers of the calls that made a directory. */
  ghost function MadeIn(h: History): set<nat> {
    match h
    case Begun(_) => {}
    case Then(past, now) => MadeIn(past) + if NewDirectory(past.now, now) then {Calls(past)} else {}
  }

  lemma NoneMade(s: State, mid: State, t: State, staging: Path)
    requires Interfered(s, mid, staging) && forall p :: p in t.ours && t.ours[p].Dir? ==> p in mid.ours
    ensures !NewDirectory(s, t)
  {
  }

  lemma OneMade(s: State, mid: State, p: Path, staging: Path)
    requires Interfered(s, mid, staging) && Free(TreeOf(mid), p)
    ensures NewDirectory(s, Added(mid, p, Dir(mid.next), mid.next + 1))
  {
    var t := Added(mid, p, Dir(mid.next), mid.next + 1);
    assert p !in s.ours;
    assert p in t.ours && t.ours[p].Dir?;
  }

  /** The call with this number fails. */
  predicate Fails(faults: nat -> bool, call: nat) {
    faults(call)
  }

  /** How many of the first calls fail. */
  function FaultsBefore(faults: nat -> bool, calls: nat): nat {
    if calls == 0 then 0 else FaultsBefore(faults, calls - 1) + if Fails(faults, calls - 1) then 1 else 0
  }

  /** No call with a number from `from` up to `upTo` fails. */
  ghost predicate NoFault(faults: nat -> bool, from: nat, upTo: nat) {
    forall n :: from <= n < upTo ==> !Fails(faults, n)
  }

  lemma {:induction false} NoFaultIff(faults: nat -> bool, from: nat, upTo: nat)
    requires from <= upTo
    ensures FaultsBefore(faults, from) <= FaultsBefore(faults, upTo)
    ensures FaultsBefore(faults, from) == FaultsBefore(faults, upTo) <==> NoFault(faults, from, upTo)
    decreases upTo
  {
    if from < upTo { NoFaultIff(faults, from, upTo - 1); }
  }

  /**
   The file system the transaction runs on. Before each system call other processes
   may act, and the call itself may fail: `foreign` and `faults` say so for every call
   number, and are arbitrary.
   */
  class World {
    const foreign: nat -> seq<ForeignOp>
    const faults: nat -> bool
    const staging: Path
    var state: State
    var calls: nat
    ghost var history: History           // the state every call ended in
    ghost var madeAt: set<nat>           // the numbers of the Mkdirat calls that made a directory
    ghost var firstMade: Option<nat>     // the first of them
    ghost var failed: nat                // how many calls so far were due to fail

    ghost predicate Ok()
      reads this
    {
      Valid(state) && history.now == state && Calls(history) == calls && madeAt == MadeIn(history)
      && failed == FaultsBefore(faults, calls) && (firstMade.Some? ==> firstMade.value in madeAt)
    }

    ghost predicate Quiet()
    {
      forall n :: foreign(n) == []
    }

    constructor (tree: Tree, nextInode: nat, staging: Path, foreign: nat -> seq<ForeignOp>, faults: nat -> bool)
      requires Valid(State(tree, map[], nextInode))
      ensures Ok() && state == State(tree, map[], nextInode) && this.staging == staging
      ensures this.foreign == foreign && this.faults == faults && madeAt == {} && firstMade.None? && calls == 0
    {
      this.staging, this.foreign, this.faults := staging, foreign, faults;
      state, calls := State(tree, map[], nextInode), 0;
      madeAt, firstMade, failed, history := {}, None, 0, Begun(State(tree, map[], nextInode));
    }

    /** What Lstat sees at a path. */
    function Lookup(path: Path): Option<Node>
      reads this
    {
      if path in TreeOf(state) then Some(TreeOf(state)[path]) else None
    }

    /** What other processes do before the call with this number makes of a state. */
    ghost predicate Entered(before: State, call: nat, mid: State)
    {
      && Acted(foreign, call, staging, before, mid)
      && Interfered(before, mid, staging)
      && (Quiet() ==> mid == before)
    }

    /** The beginning of every call: other processes act. */
    method Begin() returns (fails: bool)
      requires Ok()
      modifies this`state
      ensures Entered(old(state), calls, state) && fails == Fails(faults, calls)
    {
      ForeignAllInterferes(state, foreign(calls), staging);
      state := ForeignAll(state, foreign(calls), staging);
      fails := Fails(faults, calls);
    }

    /** The end of every call: it is counted and its outcome is kept in the history. */
    method End(ghost made: bool)
      requires Valid(state) && Calls(history) == calls && madeAt == MadeIn(history) && failed == FaultsBefore(faults, calls)
      requires (firstMade.Some? ==> firstMade.value in madeAt)
      requires made <==> NewDirectory(history.now, state)
      modifies this`calls, this`history, this`madeAt, this`firstMade, this`failed
      ensures Ok() && calls == old(calls) + 1 && history == Then(old(history), state)
      ensures madeAt == if made then old(madeAt) + {old(calls)} else old(madeAt)
      ensures firstMade == if made && old(firstMade).None? then Some(old(calls)) else old(firstMade)
      ensures failed == old(failed) + if Fails(faults, old(calls)) then 1 else 0
    {
      failed := failed + if Fails(faults, calls) then 1 else 0;
      if made {
        madeAt := madeAt + {calls};
        if firstMade.None? { firstMade := Some(calls); }
      }
      history := Then(history, state);
      calls := calls + 1;
    }

    /** A call that only reads. */
    method Enter() returns (fails: bool)
      requires Ok()
      modifies this
      ensures Ok() && calls == old(calls) + 1 && history == Then(old(history), state) && madeAt == old(madeAt)
              && firstMade == old(firstMade)
      ensures failed == old(failed) + if Fails(faults, old(calls)) then 1 else 0
      ensures Entered(old(state), old(calls), state) && fails == Fails(faults, old(calls))
    {
      fails := Begin();
      NoneMade(old(state), state, state, staging);
      End(false);
    }

    /** Mkdirat; false when it fails or the name is taken. `mid` is the state the call acted on. */
    method Mkdir(path: Path) returns (ok: bool, ghost mid: State)
      requires Ok()
      modifies this
      ensures Ok() && calls == old(calls) + 1 && history == Then(old(history), state)
      ensures failed == old(failed) + if Fails(faults, old(calls)) then 1 else 0
      ensures Entered(old(state), old(calls), mid)
      ensures ok <==> !Fails(faults, old(calls)) && Free(TreeOf(mid), path)
      ensures state == if ok then Added(mid, path, Dir(mid.next), mid.next + 1) else mid
      ensures madeAt == (if ok then old(madeAt) + {old(calls)} else old(madeAt))
      ensures firstMade == if ok && old(firstMade).None? then Some(old(calls)) else old(firstMade)
    {
      var fails := Begin();
      mid := state;
      ok := !fails && Free(TreeOf(state), path);
      if ok {
        AddedIsValid(state, path, Dir(state.next), state.next + 1);
        OneMade(old(state), mid, path, staging);
        state := Added(state, path, Dir(state.next), state.next + 1);
      } else {
        NoneMade(old(state), mid, mid, staging);
      }
      End(ok);
    }

    /** Linkat: the new name is another name of the same file; false when it fails or the name is taken. */
    method LinkTo(source: Path, path: Path) returns (ok: bool, ghost mid: State)
      requires Ok()
      modifies this
      ensures Ok() && calls == old(calls) + 1 && history == Then(old(history), state) && madeAt == old(madeAt)
              && firstMade == old(firstMade)
      ensures failed == old(failed) + if Fails(faults, old(calls)) then 1 else 0
      ensures Entered(old(state), old(calls), mid)
      ensures ok <==>
              !Fails(faults, old(calls)) && Free(TreeOf(mid), path) && source in TreeOf(mid) && TreeOf(mid)[source].File?
      ensures state == if ok then Added(mid, path, TreeOf(mid)[source], mid.next) else mid
    {
      var fails := Begin();
      mid := state;
      ok := !fails && Free(TreeOf(state), path) && source in TreeOf(state) && TreeOf(state)[source].File?;
      if ok {
        var node := TreeOf(state)[source];
        AddedIsValid(state, path, node, state.next);
        state := Added(state, path, node, state.next);
      }
      NoneMade(old(state), mid, state, staging);
      End(false);
    }

    /** Compare-and-remove, one step: unlink a file, or remove an empty directory, if it still is the node with this
        inode. */
    method RemoveIfSame(path: Path, inode: nat) returns (ghost mid: State)
      requires Ok() && path != []
      modifies this
      ensures Ok() && calls == old(calls) + 1 && history == Then(old(history), state) && madeAt == old(madeAt)
              && firstMade == old(firstMade)
      ensures failed == old(failed) + if Fails(faults, old(calls)) then 1 else 0
      ensures Entered(old(state), old(calls), mid)
      ensures var t := TreeOf(mid);
              state == if path in t && t[path].inode == inode && !HasChild(t, path) then Removed(mid, path) else mid
    {
      var _ := Begin();
      mid := state;
      var t := TreeOf(state);
      if path in t && t[path].inode == inode && !HasChild(t, path) {
        RemovedIsValid(state, path);
        state := Removed(state, path);
      }
      NoneMade(old(state), mid, state, staging);
      End(false);
    }

    /** A call that creates a node under a private name: nobody else acts there. */
    method CreatePrivate(path: Path, kind: Kind) returns (ok: bool, ghost mid: State)
      requires Ok() && staging <= path
      modifies this
      ensures Ok() && calls == old(calls) + 1 && history == Then(old(history), state) && madeAt == old(madeAt)
              && firstMade == old(firstMade)
      ensures failed == old(failed) + if Fails(faults, old(calls)) then 1 else 0
      ensures Entered(old(state), old(calls), mid)
      ensures ok <==> !Fails(faults, old(calls)) && Free(TreeOf(mid), path)
      ensures state == if ok then PrivatelyAdded(mid, path, Make(kind, mid.next)) else mid
    {
      var fails := Begin();
      mid := state;
      ok := !fails && Free(TreeOf(state), path);
      if ok {
        PrivatelyAddedIsValid(state, path, Make(kind, state.next));
        state := PrivatelyAdded(state, path, Make(kind, state.next));
      }
      NoneMade(old(state), mid, state, staging);
      End(false);
    }

    /** Removes the staging directory with everything in it. */
    method RemoveStaging() returns (ghost mid: State)
      requires Ok() && staging != []
      modifies this
      ensures Ok() && calls == old(calls) + 1 && history == Then(old(history), state) && madeAt == old(madeAt)
              && firstMade == old(firstMade)
      ensures failed == old(failed) + if Fails(faults, old(calls)) then 1 else 0
      ensures Entered(old(state), old(calls), mid)
      ensures state == WithoutSubtree(mid, staging) && TreeOf(state) == WithoutBelow(TreeOf(mid), staging)
    {
      var _ := Begin();
      mid := state;
      WithoutSubtreeIsValid(state, staging);
      state := WithoutSubtree(state, staging);
      NoneMade(old(state), mid, state, staging);
      End(false);
    }
  }
}
