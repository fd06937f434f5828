/**
 What a run of calls does to nodes that are not ours. A trace ties every state to the one
 before it: other processes put nodes there as `foreign` says, and that is, outside the
 staging directory, all that happens to theirs.
 */
module FileTrace {
  import opened FileTree

  /** The two trees agree on everything outside the staging directory. */
  ghost predicate SameOutside(a: Tree, b: Tree, staging: Path) {
    forall p :: !(staging <= p) ==> (p in a <==> p in b) && (p in a ==> a[p] == b[p])
  }

  /** The call with this number, the operations of other processes before it included. */
  ghost predicate Call(s: State, foreign: nat -> seq<ForeignOp>, call: nat, staging: Path, t: State) {
    && s.theirs.Keys !! s.ours.Keys && s.next <= t.next
    && SameOutside(t.theirs, s.theirs + Puts(s, foreign(call), staging), staging)
  }

  lemma IsCall(s: State, foreign: nat -> seq<ForeignOp>, call: nat, staging: Path, mid: State, t: State)
    requires Valid(s) && Acted(foreign, call, staging, s, mid) && mid.next <= t.next
    requires SameOutside(t.theirs, mid.theirs, staging)
    ensures Call(s, foreign, call, staging, t)
  {
    ForeignAllInterferes(s, foreign(call), staging);
    PutsAreTheirs(s, foreign(call), staging);
  }

  /** The history goes on from `past`, every state following from the one before by a call. */
  ghost predicate Trace(h: History, past: History, foreign: nat -> seq<ForeignOp>, staging: Path) {
    h == past || (h.Then? && Trace(h.past, past, foreign, staging)
        && Call(h.past.now, foreign, Calls(h.past), staging, h.now))
  }

  lemma {:induction false} TraceGrows(h: History, past: History, foreign: nat -> seq<ForeignOp>, staging: Path)
    requires Trace(h, past, foreign, staging)
    ensures Calls(past) <= Calls(h)
  {
    if h != past { TraceGrows(h.past, past, foreign, staging); }
  }

  /** Two traces in a row are one. */
  lemma {:induction false} TraceJoins(h: History, mid: History, past: History, foreign: nat -> seq<ForeignOp>, staging: Path)
    requires Trace(h, mid, foreign, staging) && Trace(mid, past, foreign, staging)
    ensures Trace(h, past, foreign, staging)
  {
    if h != mid { TraceJoins(h.past, mid, past, foreign, staging); }
  }

  // ------------------------------------------------------------ what stays of theirs

  /**
   Nothing was taken away: each node is still there, or another process has since moved a
   node of a new inode over it, which cannot happen to a directory.
   */
  ghost predicate Untouched(start: State, now: State, staging: Path) {
    forall p :: p in start.theirs && !(staging <= p) ==>
      && p in now.theirs
      && (now.theirs[p] == start.theirs[p] || (now.theirs[p].inode >= start.next && !start.theirs[p].Dir?))
  }

  /** Other processes put down new nodes only, never over a directory. */
  lemma {:induction false} PutsAreNew(s: State, ops: seq<ForeignOp>, staging: Path)
    requires s.theirs.Keys !! s.ours.Keys
    ensures forall p :: p in Puts(s, ops, staging) ==>
              Puts(s, ops, staging)[p].inode >= s.next && !(p in s.theirs && s.theirs[p].Dir?)
    decreases |ops|
  {
    if ops != [] { PutsAreNew(Foreign(s, ops[0], staging), ops[1..], staging); }
  }

  lemma CallKeepsTheirs(s: State, foreign: nat -> seq<ForeignOp>, call: nat, staging: Path, t: State)
    requires Call(s, foreign, call, staging, t)
    ensures s.next <= t.next && Untouched(s, t, staging)
  {
    PutsAreNew(s, foreign(call), staging);
  }

  lemma UntouchedJoins(s: State, t: State, u: State, staging: Path)
    requires Untouched(s, t, staging) && Untouched(t, u, staging) && s.next <= t.next
    ensures Untouched(s, u, staging)
  {
  }

  /** Over a whole trace no node of anybody else is overwritten or removed by us. */
  lemma {:induction false} TraceKeepsTheirs(h: History, past: History, foreign: nat -> seq<ForeignOp>, staging: Path)
    requires Trace(h, past, foreign, staging)
    ensures past.now.next <= h.now.next && Untouched(past.now, h.now, staging)
  {
    if h != past {
      TraceKeepsTheirs(h.past, past, foreign, staging);
      CallKeepsTheirs(h.past.now, foreign, Calls(h.past), staging, h.now);
      UntouchedJoins(past.now, h.past.now, h.now, staging);
    }
  }

  // -------------------------------------------------------------------- the overlay

  /** The nodes of theirs in the past, overlaid with what other processes put there before each call since. */
  ghost function Overlay(h: History, past: History, foreign: nat -> seq<ForeignOp>, staging: Path): Tree {
    if h == past || h.Begun? then past.now.theirs
    else Overlay(h.past, past, foreign, staging) + Puts(h.past.now, foreign(Calls(h.past)), staging)
  }

  lemma CallOverlays(s: State, foreign: nat -> seq<ForeignOp>, call: nat, staging: Path, t: State, overlay: Tree)
    requires Call(s, foreign, call, staging, t) && SameOutside(s.theirs, overlay, staging)
    ensures SameOutside(t.theirs, overlay + Puts(s, foreign(call), staging), staging)
  {
  }

  /** What is not ours is, outside the staging directory, exactly that overlay: nothing lost, nothing added. */
  lemma {:induction false} TheirsAreOverlaid(h: History, past: History, foreign: nat -> seq<ForeignOp>, staging: Path)
    requires Trace(h, past, foreign, staging)
    ensures SameOutside(h.now.theirs, Overlay(h, past, foreign, staging), staging)
  {
    if h != past {
      TheirsAreOverlaid(h.past, past, foreign, staging);
      CallOverlays(h.past.now, foreign, Calls(h.past), staging, h.now, Overlay(h.past, past, foreign, staging));
    }
  }
}
