/**
 The registry told from the list of its changes: what is filed under an identifier is its
 last accepted registration, unless the token of that one was unregistered since.
 */
module RegistryHistory {
  import opened Prelude
  import opened DebugActionRegistry

  predicate Accepted(c: Change) { c.Register? && ValidIdentifier(c.identifier) }

  /** The token the next accepted registration gets: as many as were accepted before. */
  function Tokens(changes: seq<Change>): nat {
    if changes == [] then 0
    else Tokens(changes[..|changes| - 1]) + if Accepted(changes[|changes| - 1]) then 1 else 0
  }

  /** Change k files the identifier, and nothing since has replaced or removed it. */
  ghost predicate FiledBy(changes: seq<Change>, id: string, k: nat) {
    && k < |changes| && Accepted(changes[k]) && changes[k].identifier == id
    && forall j :: k < j < |changes| ==>
         && !(changes[j].Register? && changes[j].identifier == id)
         && changes[j] != Unregister(Tokens(changes[..k]))
  }

  ghost predicate IsFiled(changes: seq<Change>, id: string) {
    exists k :: FiledBy(changes, id, k)
  }

  lemma {:induction false} LastChange(s: State, changes: seq<Change>, c: Change)
    ensures After(s, changes + [c]) == Apply(After(s, changes), c)
    decreases |changes|
  {
    if changes == [] {
      assert changes + [c] == [c] && [c][1..] == [];
    } else {
      assert (changes + [c])[1..] == changes[1..] + [c];
      LastChange(Apply(s, changes[0]), changes[1..], c);
    }
  }

  /** What is filed is what that change says, under its token and the generation it made. */
  ghost predicate FiledAs(changes: seq<Change>, k: nat, e: Entry)
    requires k < |changes| && Accepted(changes[k])
  {
    e == Entry(Tokens(changes[..k]), changes[k].role, changes[k].description, After(INITIAL, changes[..k]).generation + 1)
  }

  lemma FiledEarlier(init: seq<Change>, c: Change, id: string, k: nat)
    requires k < |init|
    ensures FiledBy(init + [c], id, k) <==>
              FiledBy(init, id, k) && !(c.Register? && c.identifier == id) && c != Unregister(Tokens(init[..k]))
  {
    var changes := init + [c];
    assert changes[..k] == init[..k] && changes[|init|] == c;
    assert forall j :: 0 <= j < |init| ==> changes[j] == init[j];
  }

  lemma FiledNow(init: seq<Change>, c: Change, id: string)
    ensures FiledBy(init + [c], id, |init|) <==> Accepted(c) && c.identifier == id
  {
    assert (init + [c])[|init|] == c;
  }

  /** The last registration of an identifier is the only one that can be filed. */
  lemma FiledOnce(changes: seq<Change>, id: string, k: nat, j: nat)
    requires FiledBy(changes, id, k) && FiledBy(changes, id, j)
    ensures k == j
  {
  }

  ghost predicate Told(changes: seq<Change>, s: State) {
    && |s.history| == Tokens(changes)
    && (forall id :: id in s.entries <==> IsFiled(changes, id))
    && (forall id, k :: FiledBy(changes, id, k) ==> id in s.entries && FiledAs(changes, k, s.entries[id]))
  }

  lemma TokensOfMore(init: seq<Change>, c: Change)
    ensures Tokens(init + [c]) == Tokens(init) + if Accepted(c) then 1 else 0
  {
    assert (init + [c])[..|init|] == init;
  }

  lemma FiledAsLater(init: seq<Change>, c: Change, k: nat, e: Entry)
    requires k < |init| && Accepted(init[k])
    ensures FiledAs(init + [c], k, e) <==> FiledAs(init, k, e)
  {
    assert (init + [c])[..k] == init[..k] && (init + [c])[k] == init[k];
  }

  lemma NewlyFiled(init: seq<Change>, c: Change, id: string)
    requires |After(INITIAL, init).history| == Tokens(init) && After(INITIAL, init).generation + 1 < TWO_64
    requires Accepted(c) && c.identifier == id
    ensures IsFiled(init + [c], id) && id in Apply(After(INITIAL, init), c).entries
    ensures forall k :: FiledBy(init + [c], id, k) ==> FiledAs(init + [c], k, Apply(After(INITIAL, init), c).entries[id])
  {
    var changes := init + [c];
    FiledNow(init, c, id);
    assert changes[..|init|] == init && changes[|init|] == c;
    forall k | FiledBy(changes, id, k) ensures k == |init| { FiledOnce(changes, id, k, |init|); }
    assert FiledBy(changes, id, |init|);
  }

  /** One identifier before and after one more change. */
  lemma ChangeTold(init: seq<Change>, c: Change, id: string)
    requires Told(init, After(INITIAL, init)) && Inv(After(INITIAL, init))
    requires After(INITIAL, init).generation + 1 < TWO_64
    ensures id in Apply(After(INITIAL, init), c).entries <==> IsFiled(init + [c], id)
    ensures forall k :: FiledBy(init + [c], id, k) ==>
              id in Apply(After(INITIAL, init), c).entries
              && FiledAs(init + [c], k, Apply(After(INITIAL, init), c).entries[id])
  {
    if Accepted(c) && c.identifier == id { NewlyFiled(init, c, id); } else { OlderFiled(init, c, id); }
  }

  lemma StillFiled(init: seq<Change>, c: Change, id: string, k: nat)
    requires Told(init, After(INITIAL, init)) && !(Accepted(c) && c.identifier == id) && FiledBy(init + [c], id, k)
    ensures id in Apply(After(INITIAL, init), c).entries
    ensures FiledAs(init + [c], k, Apply(After(INITIAL, init), c).entries[id])
  {
    FiledNow(init, c, id);
    FiledEarlier(init, c, id, k);
    var s := After(INITIAL, init);
    assert id in s.entries && FiledAs(init, k, s.entries[id]);
    FiledAsLater(init, c, k, s.entries[id]);
  }

  lemma FiledBefore(init: seq<Change>, c: Change, id: string)
    requires Told(init, After(INITIAL, init)) && Inv(After(INITIAL, init)) && !(Accepted(c) && c.identifier == id)
    requires id in Apply(After(INITIAL, init), c).entries
    ensures IsFiled(init + [c], id)
  {
    var s := After(INITIAL, init);
    assert id in s.entries;
    var k: nat :| FiledBy(init, id, k);
    assert FiledAs(init, k, s.entries[id]);
    FiledEarlier(init, c, id, k);
    assert FiledBy(init + [c], id, k);
  }

  lemma OlderFiled(init: seq<Change>, c: Change, id: string)
    requires Told(init, After(INITIAL, init)) && Inv(After(INITIAL, init))
    requires !(Accepted(c) && c.identifier == id)
    ensures id in Apply(After(INITIAL, init), c).entries <==> IsFiled(init + [c], id)
    ensures forall k :: FiledBy(init + [c], id, k) ==>
              id in Apply(After(INITIAL, init), c).entries
              && FiledAs(init + [c], k, Apply(After(INITIAL, init), c).entries[id])
  {
    forall k | FiledBy(init + [c], id, k)
      ensures id in Apply(After(INITIAL, init), c).entries
              && FiledAs(init + [c], k, Apply(After(INITIAL, init), c).entries[id])
    {
      StillFiled(init, c, id, k);
    }
    if id in Apply(After(INITIAL, init), c).entries { FiledBefore(init, c, id); }
  }

  /** In every sequence of changes the registry files exactly the last registrations that still stand. */
  lemma {:induction false} ChangesAreTold(changes: seq<Change>)
    requires |changes| < TWO_64
    ensures Inv(After(INITIAL, changes)) && After(INITIAL, changes).generation <= |changes|
    ensures Told(changes, After(INITIAL, changes))
  {
    if changes != [] {
      var init, c := changes[..|changes| - 1], changes[|changes| - 1];
      assert changes == init + [c];
      ChangesAreTold(init);
      LastChange(INITIAL, init, c);
      ApplyKeepsInv(After(INITIAL, init), c);
      TokensOfMore(init, c);
      forall id ensures id in After(INITIAL, changes).entries <==> IsFiled(changes, id) { ChangeTold(init, c, id); }
      forall id, k | FiledBy(changes, id, k)
        ensures id in After(INITIAL, changes).entries && FiledAs(changes, k, After(INITIAL, changes).entries[id])
      {
        ChangeTold(init, c, id);
      }
    }
  }
}
