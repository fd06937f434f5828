/**
 The registry of debug actions: the latest registration of each identifier, and a
 generation counter that every change bumps.

 A token is the position of its registration in `history`, the list of all that were
 accepted; so tokens are never reused. Whether an action is enabled, and whether
 performing it succeeds, are the environment's answers.
 */
module DebugActionRegistry {
  import opened Prelude
  import opened TextOrder

  datatype Role = Navigation | Mutation | Destructive

  datatype Entry = Entry(token: nat, role: Role, description: string, generation: nat)

  datatype Registration = Registration(identifier: string, role: Role, generation: nat)

  datatype State = State(entries: map<string, Entry>, generation: nat, history: seq<Registration>)

  const INITIAL := State(map[], 0, [])

  // --------------------------------------------------------------- identifiers

  predicate AlphaNumeric(c: char) { 'A' <= c <= 'Z' || 'a' <= c <= 'z' || '0' <= c <= '9' }

  predicate Separator(c: char) { c == '.' || c == '_' || c == '-' }

  /** Two or more alphanumeric words with single separators between them. */
  predicate ValidIdentifier(s: string) {
    && s != "" && AlphaNumeric(s[0]) && AlphaNumeric(s[|s| - 1])
    && (forall i :: 0 <= i < |s| ==> AlphaNumeric(s[i]) || Separator(s[i]))
    && (forall i :: 0 <= i < |s| - 1 ==> AlphaNumeric(s[i]) || AlphaNumeric(s[i + 1]))
    && exists i :: 0 <= i < |s| && Separator(s[i])
  }

  /** The regular expression, one character at a time: `inWord` after an alphanumeric, `seen` after a separator. */
  predicate Matches(s: string, seen: bool, inWord: bool) {
    if s == "" then seen && inWord
    else if AlphaNumeric(s[0]) then Matches(s[1..], seen, true)
    else Separator(s[0]) && inWord && Matches(s[1..], true, false)
  }

  /** What is left of an identifier from here on. */
  ghost predicate Completes(s: string, seen: bool, inWord: bool) {
    if s == "" then seen && inWord
    else
      && AlphaNumeric(s[|s| - 1]) && (Separator(s[0]) ==> inWord)
      && (forall i :: 0 <= i < |s| ==> AlphaNumeric(s[i]) || Separator(s[i]))
      && (forall i :: 0 <= i < |s| - 1 ==> AlphaNumeric(s[i]) || AlphaNumeric(s[i + 1]))
      && (seen || exists i :: 0 <= i < |s| && Separator(s[i]))
  }

  lemma CompletesStep(s: string, seen: bool, inWord: bool)
    requires s != ""
    ensures AlphaNumeric(s[0]) ==> (Completes(s, seen, inWord) <==> Completes(s[1..], seen, true))
    ensures Separator(s[0]) ==> (Completes(s, seen, inWord) <==> inWord && Completes(s[1..], true, false))
  {
    var rest := s[1..];
    assert forall i :: 0 <= i < |rest| ==> rest[i] == s[i + 1];
    assert forall i :: 1 <= i < |s| ==> s[i] == rest[i - 1];
    if rest != "" {
      assert (forall i :: 0 <= i < |s| - 1 ==> AlphaNumeric(s[i]) || AlphaNumeric(s[i + 1]))
        <==> (AlphaNumeric(s[0]) || AlphaNumeric(rest[0]))
             && (forall i :: 0 <= i < |rest| - 1 ==> AlphaNumeric(rest[i]) || AlphaNumeric(rest[i + 1]));
    }
  }

  lemma {:induction false} MatchesIff(s: string, seen: bool, inWord: bool)
    ensures Matches(s, seen, inWord) <==> Completes(s, seen, inWord)
  {
    if s != "" {
      CompletesStep(s, seen, inWord);
      MatchesIff(s[1..], seen, true);
      MatchesIff(s[1..], true, false);
    }
  }

  /** Exactly the texts the regular expression accepts. */
  lemma IdentifiersMatch(s: string)
    ensures ValidIdentifier(s) <==> Matches(s, false, false)
  {
    MatchesIff(s, false, false);
  }

  // --------------------------------------------------------------------- changes

  datatype Change = Register(identifier: string, role: Role, description: string) | Unregister(token: nat)

  function Apply(s: State, c: Change): State {
    match c
    case Register(identifier, role, description) =>
      if !ValidIdentifier(identifier) then s
      else
        var g := Following(s.generation);
        State(s.entries[identifier := Entry(|s.history|, role, description, g)], g,
              s.history + [Registration(identifier, role, g)])
    case Unregister(token) =>
      if token < |s.history| && Holds(s, s.history[token].identifier, token)
      then s.(entries := s.entries - {s.history[token].identifier}, generation := Following(s.generation))
      else s
  }

  predicate Holds(s: State, identifier: string, token: nat) {
    identifier in s.entries && s.entries[identifier].token == token
  }

  function After(s: State, changes: seq<Change>): State
    decreases |changes|
  {
    if changes == [] then s else After(Apply(s, changes[0]), changes[1..])
  }

  /** Every entry is an accepted registration, and later registrations have larger generations. */
  ghost predicate Inv(s: State) {
    && (forall id :: id in s.entries ==>
          && ValidIdentifier(id) && 1 <= s.entries[id].generation && s.entries[id].token < |s.history|
          && s.history[s.entries[id].token] == Registration(id, s.entries[id].role, s.entries[id].generation))
    && (forall i :: 0 <= i < |s.history| ==> s.history[i].generation <= s.generation)
    && (forall i, j :: 0 <= i < j < |s.history| ==> s.history[i].generation < s.history[j].generation)
  }

  lemma ApplyKeepsInv(s: State, c: Change)
    requires Inv(s) && s.generation + 1 < TWO_64
    ensures Inv(Apply(s, c)) && s.history <= Apply(s, c).history
    ensures s.generation <= Apply(s, c).generation <= s.generation + 1
  {
  }

  lemma {:induction false} AfterKeepsInv(s: State, changes: seq<Change>)
    requires Inv(s) && s.generation + |changes| < TWO_64
    ensures Inv(After(s, changes)) && s.history <= After(s, changes).history
    ensures s.generation <= After(s, changes).generation <= s.generation + |changes|
    decreases |changes|
  {
    if changes != [] {
      ApplyKeepsInv(s, changes[0]);
      AfterKeepsInv(Apply(s, changes[0]), changes[1..]);
    }
  }

  /** While the counter does not wrap, a generation names one registration: equal generations, same entry. */
  lemma GenerationNamesRegistration(s: State, changes: seq<Change>, id: string, other: string)
    requires Inv(s) && s.generation + |changes| < TWO_64
    requires id in s.entries && other in After(s, changes).entries
    requires s.entries[id].generation == After(s, changes).entries[other].generation
    ensures id == other && s.entries[id].token == After(s, changes).entries[other].token
    ensures s.entries[id].role == After(s, changes).entries[other].role
  {
    AfterKeepsInv(s, changes);
    var t := After(s, changes);
    var i, j := s.entries[id].token, t.entries[other].token;
    assert t.history[i] == s.history[i];
    GenerationsDiffer(t, i, j);
  }

  lemma AppliedEntryKeptOrNew(s: State, c: Change, id: string)
    requires Inv(s) && s.generation + 1 < TWO_64 && id in Apply(s, c).entries
    ensures var e := Apply(s, c).entries[id];
            || (id in s.entries && e == s.entries[id])
            || (e.token == |s.history| && e.generation == s.generation + 1)
    ensures |s.history| <= |Apply(s, c).history|
  {
  }

  /** What is filed under an identifier was filed before, or is a registration made since. */
  lemma {:induction false} EntryKeptOrNew(s: State, changes: seq<Change>, id: string)
    requires Inv(s) && s.generation + |changes| < TWO_64 && id in After(s, changes).entries
    ensures var e := After(s, changes).entries[id];
            || (id in s.entries && e == s.entries[id])
            || (e.token >= |s.history| && s.generation < e.generation <= s.generation + |changes|)
    decreases |changes|
  {
    if changes != [] {
      var next := Apply(s, changes[0]);
      ApplyKeepsInv(s, changes[0]);
      EntryKeptOrNew(next, changes[1..], id);
      if id in next.entries { AppliedEntryKeptOrNew(s, changes[0], id); }
    }
  }

  /** The same identifier registered over and over: each time the next generation and a new token. */
  lemma {:induction false} RegisteredAgain(s: State, id: string, role: Role, n: nat)
    requires Inv(s) && ValidIdentifier(id) && 0 < n && s.generation + n < TWO_64
    ensures var t := After(s, seq(n, _ => Register(id, role, "")));
            id in t.entries && t.entries[id] == Entry(|s.history| + n - 1, role, "", s.generation + n)
    decreases n
  {
    var changes := seq(n, _ => Register(id, role, ""));
    var next := Apply(s, changes[0]);
    ApplyKeepsInv(s, changes[0]);
    if n == 1 {
      assert changes[1..] == [];
      assert After(s, changes) == next;
    } else {
      assert changes[1..] == seq(n - 1, _ => Register(id, role, ""));
      RegisteredAgain(next, id, role, n - 1);
    }
  }

  lemma GenerationsDiffer(s: State, i: nat, j: nat)
    requires Inv(s) && i < |s.history| && j < |s.history| && s.history[i].generation == s.history[j].generation
    ensures i == j
  {
  }

  /** Unregistering the token of an entry removes that entry, whatever it is filed under. */
  lemma RemovesItsEntry(s: State, id: string)
    requires Inv(s) && id in s.entries
    ensures Apply(s, Unregister(s.entries[id].token))
            == s.(entries := s.entries - {id}, generation := Following(s.generation))
  {
  }

  lemma UnheldTokenChangesNothing(s: State, token: nat)
    requires forall id :: id in s.entries ==> s.entries[id].token != token
    ensures Apply(s, Unregister(token)) == s
  {
  }

  // ------------------------------------------------------------------- snapshots

  datatype Descriptor = Descriptor(identifier: string, role: Role, description: string, enabled: bool, generation: nat)

  datatype Snapshot = Snapshot(generation: nat, actions: seq<Descriptor>)

  function Describe(entries: map<string, Entry>, id: string, enabled: string -> bool): Descriptor
    requires id in entries
  {
    Descriptor(id, entries[id].role, entries[id].description, enabled(id), entries[id].generation)
  }

  ghost predicate Ascending(actions: seq<Descriptor>) {
    forall i, j :: 0 <= i < j < |actions| ==> Less(actions[i].identifier, actions[j].identifier)
  }

  predicate Listed(d: Descriptor, entries: map<string, Entry>, ids: set<string>, enabled: string -> bool) {
    d.identifier in ids && d.identifier in entries && d == Describe(entries, d.identifier, enabled)
  }

  /** Strictly ascending, and exactly the given identifiers as registered. */
  ghost predicate Lists(actions: seq<Descriptor>, entries: map<string, Entry>, ids: set<string>, enabled: string -> bool) {
    && Ascending(actions)
    && (forall i :: 0 <= i < |actions| ==> Listed(actions[i], entries, ids, enabled))
    && (forall id :: id in ids ==> exists i :: 0 <= i < |actions| && actions[i].identifier == id)
  }

  // ---------------------------------------------------------- the registry itself

  datatype ActivateResult = Activated(generation: nat) | ActionNotFound | ActionDisabled | ActionFailed

  class Registry {
    var entries: map<string, Entry>
    var generation: nat
    var minted: nat                        // the tokens given out so far
    ghost var history: seq<Registration>

    ghost function View(): State
      reads this
    {
      State(entries, generation, history)
    }

    ghost predicate Valid()
      reads this
    {
      Inv(View()) && minted == |history|
    }

    constructor ()
      ensures Valid() && View() == INITIAL
    {
      entries, generation, minted, history := map[], 0, 0, [];
    }

    /** The token, or none when the identifier is rejected. */
    method RegisterAction(identifier: string, role: Role, description: string) returns (token: Option<nat>)
      requires Valid() && generation + 1 < TWO_64
      modifies this
      ensures Valid() && View() == Apply(old(View()), Register(identifier, role, description))
      ensures token.Some? <==> ValidIdentifier(identifier)
      ensures token.Some? ==> Holds(View(), identifier, token.value)
    {
      ApplyKeepsInv(View(), Register(identifier, role, description));
      if !ValidIdentifier(identifier) { return None; }
      generation := Following(generation);
      token := Some(minted);
      minted := minted + 1;
      entries := entries[identifier := Entry(token.value, role, description, generation)];
      history := history + [Registration(identifier, role, generation)];
    }

    /** The identifier of the entry with this token, whatever it is. */
    method FindToken(token: nat) returns (found: Option<string>)
      ensures found.Some? ==> Holds(View(), found.value, token)
      ensures found.None? ==> forall id :: id in entries ==> entries[id].token != token
    {
      var left := entries.Keys;
      while left != {}
        invariant left <= entries.Keys
        invariant forall id :: id in entries && id !in left ==> entries[id].token != token
      {
        var id :| id in left;
        if entries[id].token == token { return Some(id); }
        left := left - {id};
      }
      return None;
    }

    /** Looks for the entry with this token and removes it. */
    method UnregisterAction(token: nat)
      requires Valid() && generation + 1 < TWO_64
      modifies this
      ensures Valid() && View() == Apply(old(View()), Unregister(token))
    {
      ApplyKeepsInv(View(), Unregister(token));
      var found := FindToken(token);
      if found.None? {
        UnheldTokenChangesNothing(View(), token);
        return;
      }
      RemovesItsEntry(View(), found.value);
      entries := entries - {found.value};
      generation := Following(generation);
    }

    method TakeSnapshot(enabled: string -> bool) returns (snapshot: Snapshot)
      requires Valid()
      ensures snapshot.generation == generation
      ensures Lists(snapshot.actions, entries, entries.Keys, enabled)
    {
      var actions: seq<Descriptor> := [];
      var left := entries.Keys;
      ghost var done := {};
      while left != {}
        invariant done !! left && done + left == entries.Keys
        invariant Lists(actions, entries, done, enabled)
      {
        var id :| id in left;
        actions := InsertDescriptor(actions, Describe(entries, id, enabled), entries, done, enabled);
        left := left - {id};
        done := done + {id};
      }
      assert done == entries.Keys;
      snapshot := Snapshot(generation, actions);
    }

    /** The entry found at the call is the one performed, whatever changes while it runs. */
    method Activate(identifier: string, enabled: bool, performed: bool) returns (r: ActivateResult, ghost ran: Option<Entry>)
      ensures ran.Some? <==> identifier in entries && enabled
      ensures ran.Some? ==> ran.value == entries[identifier]
      ensures r == if identifier !in entries then ActionNotFound
                   else if !enabled then ActionDisabled
                   else if !performed then ActionFailed
                   else Activated(entries[identifier].generation)
    {
      ran := None;
      if identifier !in entries { return ActionNotFound, None; }
      var entry := entries[identifier];
      if !enabled { return ActionDisabled, None; }
      ran := Some(entry);
      if !performed { return ActionFailed, ran; }
      return Activated(entry.generation), ran;
    }
  }

  method InsertDescriptor(actions: seq<Descriptor>, d: Descriptor, ghost entries: map<string, Entry>, ghost ids: set<string>,
                          ghost enabled: string -> bool)
    returns (r: seq<Descriptor>)
    requires Lists(actions, entries, ids, enabled) && d.identifier !in ids
    requires d.identifier in entries && d == Describe(entries, d.identifier, enabled)
    ensures Lists(r, entries, ids + {d.identifier}, enabled)
  {
    var i := 0;
    while i < |actions| && Less(actions[i].identifier, d.identifier)
      invariant 0 <= i <= |actions|
      invariant forall j :: 0 <= j < i ==> Less(actions[j].identifier, d.identifier)
    {
      i := i + 1;
    }
    r := actions[..i] + [d] + actions[i..];
    InsertedLists(actions, d, i, entries, ids, enabled);
  }

  lemma InsertedLists(actions: seq<Descriptor>, d: Descriptor, i: nat, entries: map<string, Entry>, ids: set<string>,
                      enabled: string -> bool)
    requires Lists(actions, entries, ids, enabled) && d.identifier !in ids && i <= |actions|
    requires Listed(d, entries, {d.identifier}, enabled)
    requires forall j :: 0 <= j < i ==> Less(actions[j].identifier, d.identifier)
    requires i < |actions| ==> !Less(actions[i].identifier, d.identifier)
    ensures Lists(actions[..i] + [d] + actions[i..], entries, ids + {d.identifier}, enabled)
  {
    var r := actions[..i] + [d] + actions[i..];
    InsertedAscending(actions, d, i);
    forall k | 0 <= k < |r| ensures Listed(r[k], entries, ids + {d.identifier}, enabled) {
      if k < i { assert r[k] == actions[k]; } else if k > i { assert r[k] == actions[k - 1]; }
    }
    forall id | id in ids + {d.identifier} ensures exists k :: 0 <= k < |r| && r[k].identifier == id {
      if id == d.identifier { assert r[i] == d; }
      else {
        var j :| 0 <= j < |actions| && actions[j].identifier == id;
        assert r[if j < i then j else j + 1] == actions[j];
      }
    }
  }

  lemma InsertedAscending(actions: seq<Descriptor>, d: Descriptor, i: nat)
    requires Ascending(actions) && i <= |actions|
    requires forall j :: 0 <= j < |actions| ==> actions[j].identifier != d.identifier
    requires forall j :: 0 <= j < i ==> Less(actions[j].identifier, d.identifier)
    requires i < |actions| ==> !Less(actions[i].identifier, d.identifier)
    ensures Ascending(actions[..i] + [d] + actions[i..])
  {
    forall j | i <= j < |actions| ensures Less(d.identifier, actions[j].identifier) {
      LessIsTotal(d.identifier, actions[i].identifier);
      LessIsTransitive(d.identifier, actions[i].identifier, actions[j].identifier);
    }
  }
}
