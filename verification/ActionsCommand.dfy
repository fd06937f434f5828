/**
 `actions activate`: list, validate, activate, and check that the action which ran is
 the one that was listed. The app's registry may change between the two requests.
 */
module ActionsCommand {
  import opened Prelude
  import opened DebugActionRegistry
  import opened ProtocolActions

  /** What stands between the command and the registry, and what happens meanwhile. */
  datatype Circumstances = Circumstances(
    listFails: bool,              // the first request does not come back
    activateFails: bool,          // the second does not, though the app may have acted
    enabledAtList: string -> bool,
    enabledAtActivate: bool,
    performed: bool,
    double: nat -> nat)

  datatype Outcome = DryRun(action: Action) | Done(data: ActivateData) | Failed(failure: Failure)

  /** Meanwhile the app goes on registering and unregistering. */
  method Meanwhile(registry: Registry, changes: seq<Change>)
    requires registry.Valid() && registry.generation + |changes| < TWO_64
    modifies registry
    ensures registry.Valid() && registry.View() == After(old(registry.View()), changes)
  {
    for i := 0 to |changes|
      invariant registry.Valid() && registry.generation + (|changes| - i) < TWO_64
      invariant After(registry.View(), changes[i..]) == After(old(registry.View()), changes)
    {
      assert changes[i..][1..] == changes[i + 1..];
      ApplyKeepsInv(registry.View(), changes[i]);
      match changes[i] {
        case Register(identifier, role, description) =>
          var _ := registry.RegisterAction(identifier, role, description);
        case Unregister(token) => registry.UnregisterAction(token);
      }
    }
    assert changes[|changes|..] == [];
  }

  function FailureOf(r: ActivateResult): Failure
    requires !r.Activated?
  {
    match r case ActionNotFound => NotFound case ActionDisabled => Disabled case ActionFailed => Transport
  }

  /** How long the registry and a double agree on which registration a listed action is. */
  ghost predicate Unmistakable(double: nat -> nat, s: State, id: string, changes: nat)
    requires id in s.entries
  {
    forall h :: s.generation < h <= s.generation + changes ==> double(h) != double(s.entries[id].generation)
  }

  /** Everything on the way works, and the action is enabled. */
  predicate Smooth(c: Circumstances, identifier: string) {
    !c.listFails && !c.activateFails && c.enabledAtList(identifier) && c.enabledAtActivate && c.performed
  }

  /** An action runs exactly when it was listed as enabled, the run is no dry run, and it is still there and enabled. */
  predicate Runs(c: Circumstances, before: State, after: State, identifier: string, dryRun: bool)
    ensures Runs(c, before, after, identifier, dryRun) ==> identifier in after.entries
  {
    && !c.listFails && identifier in before.entries && c.enabledAtList(identifier)
    && !dryRun && identifier in after.entries && c.enabledAtActivate
  }

  /**
   A reported success means that the registration which ran has the listed generation, as
   far as a double tells, and names the role that was listed; when no generation handed out
   since could be mistaken for it, that is the very registration that was listed. A dry run
   runs nothing, a mismatch is all that can hide a run of another registration, and when
   everything works an unmistaken action is reported.
   */
  method ActivateAction(registry: Registry, identifier: string, dryRun: bool, changes: seq<Change>, c: Circumstances)
    returns (outcome: Outcome, ghost ran: Option<Entry>)
    requires registry.Valid() && registry.generation + |changes| < TWO_64 && Rounds(c.double)
    modifies registry
    ensures registry.View() == old(registry.View()) || registry.View() == After(old(registry.View()), changes)
    ensures outcome.Done? ==>
              && ran.Some? && identifier in old(registry.entries)
              && var listed := old(registry.entries)[identifier];
                 && outcome.data == ActivateData(identifier, RoleName(listed.role), c.double(listed.generation))
                 && c.double(ran.value.generation) == c.double(listed.generation)
                 && (Unmistakable(c.double, old(registry.View()), identifier, |changes|) ==> ran.value == listed)
    ensures ran == if Runs(c, old(registry.View()), After(old(registry.View()), changes), identifier, dryRun)
                   then Some(After(old(registry.View()), changes).entries[identifier]) else None
    ensures dryRun ==> !outcome.Done?
    ensures c.listFails ==> outcome == Failed(Transport)
    ensures !c.listFails && identifier !in old(registry.entries) ==> outcome == Failed(NotFound)
    ensures !c.listFails && identifier in old(registry.entries) && !c.enabledAtList(identifier) ==>
            outcome == Failed(Disabled)
    ensures outcome.DryRun? ==>
              && identifier in old(registry.entries) && c.enabledAtList(identifier)
              && outcome.action == Decoded(OnWire(Describe(old(registry.entries), identifier, c.enabledAtList), c.double))
    ensures ran.Some? && !outcome.Done? ==> c.activateFails || !c.performed || outcome == Failed(ProtocolMismatch)
    ensures var before, after := old(registry.View()), After(old(registry.View()), changes);
            && !dryRun && Smooth(c, identifier) && identifier in before.entries && identifier in after.entries
            && c.double(after.entries[identifier].generation) == c.double(before.entries[identifier].generation)
            ==> outcome.Done? && ran == Some(after.entries[identifier])
  {
    ran := None;
    ghost var before := registry.View();
    var validated := ListAndValidate(registry, identifier, c);
    if validated.Err? { return Failed(validated.failure), None; }
    var action := validated.value;
    if dryRun { return DryRun(action), None; }

    Meanwhile(registry, changes);
    var answer: Result<ActivateData>;
    answer, ran := RequestActivation(registry, identifier, c);
    if answer.Err? { return Failed(answer.failure), ran; }
    var data := answer.value;
    if data.generation != action.generation { return Failed(ProtocolMismatch), ran; }
    EntryKeptOrNew(before, changes, identifier);
    data := data.(role := action.role);
    return Done(data), ran;
  }

  /** The client is offered exactly the enabled entries, and told of every entry. */
  lemma OfferedIff(s: State, snapshot: Snapshot, c: Circumstances, identifier: string)
    requires Lists(snapshot.actions, s.entries, s.entries.Keys, c.enabledAtList)
    ensures var items := SnapshotOnWire(snapshot, c.double).actions.value;
            && (Mentions(items, identifier) <==> identifier in s.entries)
            && (Offers(items, identifier) <==> identifier in s.entries && c.enabledAtList(identifier))
  {
    var items := SnapshotOnWire(snapshot, c.double).actions.value;
    forall i | 0 <= i < |items| ensures items[i] == OnWire(snapshot.actions[i], c.double)
                                        && Listed(snapshot.actions[i], s.entries, s.entries.Keys, c.enabledAtList) {}
    if identifier in s.entries {
      var i :| 0 <= i < |snapshot.actions| && snapshot.actions[i].identifier == identifier;
      assert items[i] == OnWire(snapshot.actions[i], c.double);
    }
  }

  /** The first request: list the actions and validate the one that is asked for. */
  method ListAndValidate(registry: Registry, identifier: string, c: Circumstances) returns (validated: Result<Action>)
    requires registry.Valid() && Rounds(c.double)
    ensures validated
            == if c.listFails then Err(Transport)
               else if identifier !in registry.entries then Err(NotFound)
               else if !c.enabledAtList(identifier) then Err(Disabled)
               else Ok(Decoded(OnWire(Describe(registry.entries, identifier, c.enabledAtList), c.double)))
  {
    ghost var s := registry.View();
    var snapshot := registry.TakeSnapshot(c.enabledAtList);
    var listReply := if c.listFails then Err(Transport) else Ok(SnapshotOnWire(snapshot, c.double));
    SnapshotsAreCanonical(s, snapshot, c.enabledAtList, c.double);
    OfferedIff(s, snapshot, c, identifier);
    validated := Validate(listReply, identifier);
    if validated.Ok? { ListedAction(s, snapshot, c, identifier, validated.value); }
  }

  /** The second request: the app activates the action, if it can, and the client checks the answer. */
  method RequestActivation(registry: Registry, identifier: string, c: Circumstances)
    returns (answer: Result<ActivateData>, ghost ran: Option<Entry>)
    ensures ran == if identifier in registry.entries && c.enabledAtActivate then Some(registry.entries[identifier]) else None
    ensures answer
            == if c.activateFails then Err(Transport)
               else if identifier !in registry.entries then Err(NotFound)
               else if !c.enabledAtActivate then Err(Disabled)
               else if !c.performed then Err(Transport)
               else Ok(ActivateData(identifier, "", c.double(registry.entries[identifier].generation)))
  {
    var activated: ActivateResult;
    activated, ran := registry.Activate(identifier, c.enabledAtActivate, c.performed);
    var reply: Result<WireActivate> :=
      if c.activateFails then Err(Transport)
      else if activated.Activated? then Ok(WireActivate(Some(identifier), Some(c.double(activated.generation)), Some(true)))
      else Err(FailureOf(activated));
    answer := CheckActivation(reply, identifier);
  }

  /** What was validated is what the registry holds under the identifier. */
  lemma ListedAction(s: State, snapshot: Snapshot, c: Circumstances, identifier: string, action: Action)
    requires Lists(snapshot.actions, s.entries, s.entries.Keys, c.enabledAtList) && action.identifier == identifier
    requires exists i ::
               0 <= i < |snapshot.actions| && action == Decoded(SnapshotOnWire(snapshot, c.double).actions.value[i])
    ensures identifier in s.entries
    ensures action == Decoded(OnWire(Describe(s.entries, identifier, c.enabledAtList), c.double))
  {
    var i :| 0 <= i < |snapshot.actions| && action == Decoded(SnapshotOnWire(snapshot, c.double).actions.value[i]);
    assert Listed(snapshot.actions[i], s.entries, s.entries.Keys, c.enabledAtList);
  }

  /** The rounded generation of what is filed after these changes tells whether it is the listed registration. */
  ghost predicate ToldApart(double: nat -> nat, s: State, id: string, changes: seq<Change>)
    requires id in s.entries
  {
    var t := After(s, changes);
    id in t.entries && double(t.entries[id].generation) == double(s.entries[id].generation)
    ==> t.entries[id].token == s.entries[id].token
  }

  /**
   With at most n changes between the two requests, the check of the generation tells the
   listed registration from every other if and only if no generation those changes can
   reach is rounded like the listed one.
   */
  lemma ToldApartIff(double: nat -> nat, s: State, id: string, n: nat)
    requires Inv(s) && id in s.entries && s.generation + n < TWO_64
    ensures (forall changes: seq<Change> :: |changes| <= n ==> ToldApart(double, s, id, changes))
            <==> Unmistakable(double, s, id, n)
  {
    if Unmistakable(double, s, id, n) {
      forall changes: seq<Change> | |changes| <= n ensures ToldApart(double, s, id, changes) {
        if id in After(s, changes).entries { EntryKeptOrNew(s, changes, id); }
      }
    } else {
      var h :| s.generation < h <= s.generation + n && double(h) == double(s.entries[id].generation);
      var changes := seq(h - s.generation, _ => Register(id, Destructive, ""));
      RegisteredAgain(s, id, Destructive, h - s.generation);
      assert |changes| <= n && !ToldApart(double, s, id, changes);
    }
  }

  /**
   A run that ends in such a mistake: 2^53 registrations, and one more, as destructive,
   between the two requests. With doubles that round 2^53 + 1 down, the destructive action
   runs and is reported as the navigation that was listed.
   */
  method RoundedGenerationsCollide(double: nat -> nat) returns (outcome: Outcome, ghost ran: Option<Entry>)
    requires Rounds(double) && double(EXACT_DOUBLES + 1) == double(EXACT_DOUBLES)
    ensures outcome == Done(ActivateData("a.b", RoleName(Navigation), EXACT_DOUBLES))
    ensures ran.Some? && ran.value.role == Destructive
  {
    var id := "a.b";
    assert id[1] == '.' && Separator(id[1]);
    var registry := new Registry();
    var i := 0;
    while i < EXACT_DOUBLES
      invariant 0 <= i <= EXACT_DOUBLES && registry.Valid() && registry.generation == i
      invariant i > 0 ==> id in registry.entries && registry.entries[id].generation == i
                          && registry.entries[id].role == Navigation
    {
      var _ := registry.RegisterAction(id, Navigation, "");
      i := i + 1;
    }
    ghost var before := registry.View();
    var changes := [Register(id, Destructive, "")];
    assert After(before, changes) == Apply(before, changes[0]) by {
      assert changes[1..] == [] && After(Apply(before, changes[0]), []) == Apply(before, changes[0]);
    }
    outcome, ran := ActivateAction(registry, id, false, changes, Circumstances(false, false, _ => true, true, true, double));
  }
}
