/**
 The client's side of the action endpoints: what it accepts as a list of actions and
 as the answer to an activation. Fields missing from a JSON object are None.
 */
module ProtocolActions {
  import opened Prelude
  import opened TextOrder
  import opened DebugActionRegistry

  datatype WireAction = WireAction(identifier: Option<string>, role: Option<string>, description: Option<string>,
                                   enabled: Option<bool>, generation: Option<nat>)
  datatype WireActions = WireActions(actions: Option<seq<WireAction>>, generation: Option<nat>)
  datatype WireActivate = WireActivate(identifier: Option<string>, generation: Option<nat>, activated: Option<bool>)

  datatype Action = Action(identifier: string, role: string, description: string, enabled: bool, generation: nat)
  datatype ActionsData = ActionsData(actions: seq<Action>, generation: nat)
  datatype ActivateData = ActivateData(identifier: string, role: string, generation: nat)

  /** `Transport` stands for every error the request itself can end with. */
  datatype Failure = Transport | ProtocolMismatch | Disabled | NotFound

  datatype Result<T> = Ok(value: T) | Err(failure: Failure)

  predicate ValidRole(role: string) { role == "navigation" || role == "mutation" || role == "destructive" }

  predicate Complete(item: WireAction) {
    item.identifier.Some? && item.role.Some? && item.description.Some? && item.enabled.Some? && item.generation.Some?
  }

  /** One listed action of a list whose registry is at a generation. */
  predicate CanonicalAction(item: WireAction, generation: nat) {
    && Complete(item) && ValidIdentifier(item.identifier.value) && ValidRole(item.role.value)
    && 1 <= item.generation.value <= generation
  }

  /** Complete, well-formed, and strictly ascending by identifier. */
  ghost predicate Canonical(wire: WireActions) {
    && wire.actions.Some? && wire.generation.Some?
    && (forall i :: 0 <= i < |wire.actions.value| ==> CanonicalAction(wire.actions.value[i], wire.generation.value))
    && (forall i, j :: 0 <= i < j < |wire.actions.value| ==>
          Less(wire.actions.value[i].identifier.value, wire.actions.value[j].identifier.value))
  }

  function Decoded(item: WireAction): Action
    requires Complete(item)
  {
    Action(item.identifier.value, item.role.value, item.description.value, item.enabled.value, item.generation.value)
  }

  /** Accepts exactly the canonical lists, and returns what they say. */
  method List(reply: Result<WireActions>) returns (r: Result<ActionsData>)
    ensures reply.Err? ==> r == Err(reply.failure)
    ensures reply.Ok? ==> (r.Ok? <==> Canonical(reply.value)) && (r.Err? ==> r.failure == ProtocolMismatch)
    ensures r.Ok? ==> reply.Ok? && r.value.generation == reply.value.generation.value
                      && |r.value.actions| == |reply.value.actions.value|
                      && forall i :: 0 <= i < |r.value.actions| ==>
                          r.value.actions[i] == Decoded(reply.value.actions.value[i])
  {
    if reply.Err? { return Err(reply.failure); }
    var wire := reply.value;
    if wire.actions.None? || wire.generation.None? { return Err(ProtocolMismatch); }
    var items, generation := wire.actions.value, wire.generation.value;
    if |items| > 0 && generation == 0 {
      assert !CanonicalAction(items[0], generation);
      return Err(ProtocolMismatch);
    }
    var out: seq<Action> := [];
    var previousIdentifier := "";
    var index := 0;
    while index < |items|
      invariant 0 <= index <= |items| && |out| == index
      invariant forall i :: 0 <= i < index ==> CanonicalAction(items[i], generation) && out[i] == Decoded(items[i])
      invariant forall i, j :: 0 <= i < j < index ==> Less(items[i].identifier.value, items[j].identifier.value)
      invariant index > 0 ==> previousIdentifier == items[index - 1].identifier.value
    {
      var item := items[index];
      if !Complete(item) {
        assert !CanonicalAction(items[index], generation);
        return Err(ProtocolMismatch);
      }
      var identifier := item.identifier.value;
      if !ValidIdentifier(identifier) || (index > 0 && !Less(previousIdentifier, identifier)) ||
         !ValidRole(item.role.value) || item.generation.value == 0 || item.generation.value > generation
      {
        if index > 0 { assert Canonical(wire) ==> Less(items[index - 1].identifier.value, items[index].identifier.value); }
        assert Canonical(wire) ==> CanonicalAction(items[index], generation);
        return Err(ProtocolMismatch);
      }
      forall i | 0 <= i < index ensures Less(items[i].identifier.value, identifier) {
        LessIsTransitive(items[i].identifier.value, previousIdentifier, identifier);
      }
      out := out + [Decoded(item)];
      previousIdentifier := identifier;
      index := index + 1;
    }
    r := Ok(ActionsData(out, generation));
  }

  predicate Offers(items: seq<WireAction>, identifier: string) {
    exists i :: 0 <= i < |items| && items[i].identifier == Some(identifier) && items[i].enabled == Some(true)
  }

  predicate Mentions(items: seq<WireAction>, identifier: string) {
    exists i :: 0 <= i < |items| && items[i].identifier == Some(identifier)
  }

  /** The listed action of this identifier, if it is enabled. */
  method Validate(reply: Result<WireActions>, identifier: string) returns (r: Result<Action>)
    ensures reply.Err? ==> r == Err(reply.failure)
    ensures reply.Ok? ==> (r == Err(ProtocolMismatch) <==> !Canonical(reply.value))
    ensures r.Ok? <==> reply.Ok? && Canonical(reply.value) && Offers(reply.value.actions.value, identifier)
    ensures r.Ok? ==> r.value.identifier == identifier && r.value.enabled
    ensures r.Ok? ==> exists i :: 0 <= i < |reply.value.actions.value| && r.value == Decoded(reply.value.actions.value[i])
    ensures reply.Ok? && Canonical(reply.value) && !Offers(reply.value.actions.value, identifier) ==>
              r == Err(if Mentions(reply.value.actions.value, identifier) then Disabled else NotFound)
  {
    var listed := List(reply);
    if listed.Err? { return Err(listed.failure); }
    var actions := listed.value.actions;
    ghost var items := reply.value.actions.value;
    var i := 0;
    while i < |actions|
      invariant 0 <= i <= |actions|
      invariant forall j :: 0 <= j < i ==> items[j].identifier != Some(identifier)
    {
      if actions[i].identifier == identifier {
        forall j | 0 <= j < |items| && j != i ensures items[j].identifier != Some(identifier) {
          LessIsTotal(items[i].identifier.value, items[j].identifier.value);
          assert i < j ==> Less(items[i].identifier.value, items[j].identifier.value);
          assert j < i ==> Less(items[j].identifier.value, items[i].identifier.value);
        }
        if !actions[i].enabled { return Err(Disabled); }
        return Ok(actions[i]);
      }
      i := i + 1;
    }
    return Err(NotFound);
  }

  /** The answer to an activation: complete, activated, and about the identifier asked for. */
  method CheckActivation(reply: Result<WireActivate>, identifier: string) returns (r: Result<ActivateData>)
    ensures reply.Err? ==> r == Err(reply.failure)
    ensures reply.Ok? ==> (r.Ok? <==> reply.value.identifier == Some(identifier) && reply.value.activated == Some(true)
                                      && reply.value.generation.Some?)
    ensures r.Ok? ==> r.value == ActivateData(identifier, "", reply.value.generation.value)
  {
    if reply.Err? { return Err(reply.failure); }
    var wire := reply.value;
    if wire.identifier.None? || wire.generation.None? || wire.activated.None? || !wire.activated.value
       || wire.identifier.value != identifier
    {
      return Err(ProtocolMismatch);
    }
    r := Ok(ActivateData(wire.identifier.value, "", wire.generation.value));
  }

  // ------------------------------------------------------ what the registry sends

  const EXACT_DOUBLES := 0x20_0000_0000_0000

  /** JSON numbers are doubles: whole numbers up to 2^53 are exact, larger ones may be rounded. */
  ghost predicate ExactBelow(double: nat -> nat) { forall n: nat :: n <= EXACT_DOUBLES ==> double(n) == n }

  /** Rounding to a double: exact as far as that goes, and never out of order. */
  ghost predicate Rounds(double: nat -> nat) {
    ExactBelow(double) && forall m: nat, n: nat :: m <= n ==> double(m) <= double(n)
  }

  function RoleName(role: Role): string {
    match role case Navigation => "navigation" case Mutation => "mutation" case Destructive => "destructive"
  }

  function OnWire(d: Descriptor, double: nat -> nat): WireAction {
    WireAction(Some(d.identifier), Some(RoleName(d.role)), Some(d.description), Some(d.enabled), Some(double(d.generation)))
  }

  function SnapshotOnWire(s: Snapshot, double: nat -> nat): (wire: WireActions)
    ensures wire.actions.Some? && |wire.actions.value| == |s.actions|
  {
    WireActions(Some(seq(|s.actions|, i requires 0 <= i < |s.actions| => OnWire(s.actions[i], double))),
                Some(double(s.generation)))
  }

  /** Every snapshot a reachable registry takes passes the client's checks. */
  lemma SnapshotsAreCanonical(s: State, snapshot: Snapshot, enabled: string -> bool, double: nat -> nat)
    requires Inv(s) && Rounds(double)
    requires snapshot.generation == s.generation && Lists(snapshot.actions, s.entries, s.entries.Keys, enabled)
    ensures Canonical(SnapshotOnWire(snapshot, double))
  {
    var wire := SnapshotOnWire(snapshot, double);
    forall i | 0 <= i < |snapshot.actions| ensures CanonicalAction(wire.actions.value[i], wire.generation.value) {
      var d := snapshot.actions[i];
      assert Listed(d, s.entries, s.entries.Keys, enabled);
      assert s.history[s.entries[d.identifier].token].generation <= s.generation;
      assert double(1) == 1 && double(1) <= double(d.generation) <= double(s.generation);
    }
  }
}
