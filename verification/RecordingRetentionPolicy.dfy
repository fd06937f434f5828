/**
 Which recording files are deleted: every identifier that has a partial or failed
 file, every one that is half an hour old, and the oldest of the rest beyond three.
 */
module RecordingRetentionPolicy {
  import opened Prelude
  import opened RecordingStateMachine
  import opened TextOrder

  const MAXIMUM_AGE := 1_800_000
  const MAXIMUM_COUNT := 3

  datatype Entry = Entry(identifier: Id, phase: Phase, createdAt: int)

  // ------------------------------------------------------------------- the order

  /** What the order looks at. */
  datatype Key = Key(at: int, id: Id)

  function KeyOf(e: Entry): Key { Key(e.createdAt, e.identifier) }

  predicate Before(k: Key, l: Key) { k.at < l.at || (k.at == l.at && Less(k.id, l.id)) }

  predicate Precedes(e: Entry, f: Entry) { Before(KeyOf(e), KeyOf(f)) }

  lemma BeforeIsTransitive(k: Key, l: Key, m: Key)
    ensures Before(k, l) && Before(l, m) ==> Before(k, m)
    ensures !Before(l, k) && !Before(m, l) ==> !Before(m, k)
  {
    LessIsTransitive(k.id, l.id, m.id);
    LessIsTransitive(m.id, k.id, l.id);
    LessIsTotal(k.id, l.id);
    LessIsTotal(l.id, m.id);
    LessIsTotal(k.id, m.id);
    LessIsTransitive(m.id, l.id, k.id);
    LessIsTransitive(l.id, m.id, k.id);
  }

  lemma BeforeIsTotal(k: Key, l: Key)
    ensures k == l || Before(k, l) || Before(l, k)
    ensures !(Before(k, l) && Before(l, k)) && (k == l ==> !Before(k, l))
  {
    LessIsTotal(k.id, l.id);
  }

  // ------------------------------------------------------------------- sorting

  ghost predicate Sorted(keys: seq<Key>) {
    forall i, j :: 0 <= i < j < |keys| ==> !Before(keys[j], keys[i])
  }

  function Keys(entries: seq<Entry>): (keys: seq<Key>)
    ensures |keys| == |entries| && forall i :: 0 <= i < |entries| ==> keys[i] == KeyOf(entries[i])
  {
    seq(|entries|, i requires 0 <= i < |entries| => KeyOf(entries[i]))
  }

  /** An arrangement of the entries that `sorted(by:)` may return; entries with equal keys come in any order. */
  ghost predicate SortedFrom(ordered: seq<Entry>, entries: seq<Entry>) {
    Sorted(Keys(ordered)) && multiset(ordered) == multiset(entries)
  }

  function Insert(e: Entry, ordered: seq<Entry>): seq<Entry> {
    if ordered == [] || !Precedes(ordered[0], e) then [e] + ordered
    else [ordered[0]] + Insert(e, ordered[1..])
  }

  lemma InsertedAfter(e: Entry, ordered: seq<Entry>, more: seq<Entry>)
    requires Sorted(Keys(ordered)) && ordered != [] && Precedes(ordered[0], e)
             && multiset(more) == multiset([e] + ordered[1..])
    ensures forall j :: 0 <= j < |more| ==> !Before(KeyOf(more[j]), KeyOf(ordered[0]))
  {
    var first, rest := ordered[0], ordered[1..];
    BeforeIsTotal(KeyOf(first), KeyOf(e));
    forall j | 0 <= j < |more| ensures !Before(KeyOf(more[j]), KeyOf(first)) {
      assert more[j] in multiset(more);
      if more[j] != e {
        var i :| 0 <= i < |rest| && rest[i] == more[j];
        assert !Before(Keys(ordered)[i + 1], Keys(ordered)[0]);
      }
    }
  }

  lemma NoneBefore(e: Entry, ordered: seq<Entry>)
    requires Sorted(Keys(ordered)) && ordered != [] && !Precedes(ordered[0], e)
    ensures forall j :: 0 <= j < |ordered| ==> !Before(KeyOf(ordered[j]), KeyOf(e))
  {
    forall j | 0 <= j < |ordered| ensures !Before(KeyOf(ordered[j]), KeyOf(e)) {
      if j > 0 { assert !Before(Keys(ordered)[j], Keys(ordered)[0]); }
      BeforeIsTransitive(KeyOf(e), KeyOf(ordered[0]), KeyOf(ordered[j]));
    }
  }

  lemma SortedCons(first: Entry, rest: seq<Entry>)
    requires Sorted(Keys(rest)) && forall j :: 0 <= j < |rest| ==> !Before(KeyOf(rest[j]), KeyOf(first))
    ensures Sorted(Keys([first] + rest))
  {
  }

  lemma {:induction false} InsertSorts(e: Entry, ordered: seq<Entry>)
    requires Sorted(Keys(ordered))
    ensures SortedFrom(Insert(e, ordered), [e] + ordered)
  {
    if ordered == [] {
    } else if Precedes(ordered[0], e) {
      var first, rest := ordered[0], ordered[1..];
      assert ordered == [first] + rest;
      SortedTail(ordered);
      InsertSorts(e, rest);
      InsertedAfter(e, ordered, Insert(e, rest));
      SortedCons(first, Insert(e, rest));
    } else {
      NoneBefore(e, ordered);
      SortedCons(e, ordered);
    }
  }

  lemma SortedTail(ordered: seq<Entry>)
    requires ordered != [] && Sorted(Keys(ordered))
    ensures Sorted(Keys(ordered[1..]))
  {
    assert forall i :: 0 <= i < |ordered[1..]| ==> Keys(ordered[1..])[i] == Keys(ordered)[i + 1];
  }

  /** One such arrangement; which one does not matter, as PlanIsUnique shows. */
  function SortedByPrecedes(entries: seq<Entry>): (ordered: seq<Entry>)
    ensures SortedFrom(ordered, entries)
  {
    if entries == [] then []
    else
      var rest := SortedByPrecedes(entries[1..]);
      InsertSorts(entries[0], rest);
      assert entries == [entries[0]] + entries[1..];
      Insert(entries[0], rest)
  }

  // ------------------------------------------------------------------ the selection

  datatype Part = Unfinished | Expired | Usable

  predicate In(e: Entry, part: Part, now: int) {
    match part
    case Unfinished => e.phase != Ready
    case Expired => e.phase == Ready && now - e.createdAt >= MAXIMUM_AGE
    case Usable => e.phase == Ready
  }

  /** The keys of one part of the entries, in their order. */
  function Select(entries: seq<Entry>, part: Part, now: int): seq<Key> {
    if entries == [] then []
    else (if In(entries[0], part, now) then [KeyOf(entries[0])] else []) + Select(entries[1..], part, now)
  }

  function IdSet(keys: seq<Key>): set<Id> { set k | k in keys :: k.id }

  /** The first key of every identifier not excluded. */
  function Firsts(keys: seq<Key>, excluded: set<Id>): seq<Key> {
    if keys == [] then []
    else if keys[0].id in excluded then Firsts(keys[1..], excluded)
    else [keys[0]] + Firsts(keys[1..], excluded + {keys[0].id})
  }

  function Mandatory(now: int, ordered: seq<Entry>): seq<Key> {
    Select(ordered, Unfinished, now) + Select(ordered, Expired, now)
  }

  /** The candidates for being kept, oldest first. */
  function Candidates(now: int, ordered: seq<Entry>): seq<Key> {
    Firsts(Select(ordered, Usable, now), IdSet(Mandatory(now, ordered)))
  }

  function Overflow(candidates: seq<Key>): seq<Key> {
    candidates[..if |candidates| > MAXIMUM_COUNT then |candidates| - MAXIMUM_COUNT else 0]
  }

  function Plan(now: int, ordered: seq<Entry>): seq<Key> {
    Firsts(Mandatory(now, ordered) + Overflow(Candidates(now, ordered)), {})
  }

  function Ids(keys: seq<Key>): (ids: seq<Id>)
    ensures |ids| == |keys| && forall i :: 0 <= i < |keys| ==> ids[i] == keys[i].id
  {
    seq(|keys|, i requires 0 <= i < |keys| => keys[i].id)
  }

  /** The filters whose closures insert into a set: each keeps the first of every identifier not yet seen. */
  method KeepFirsts(keys: seq<Key>, excluded: set<Id>) returns (kept: seq<Key>)
    ensures kept == Firsts(keys, excluded)
  {
    var seen := excluded;
    kept := [];
    var i := 0;
    while i < |keys|
      invariant 0 <= i <= |keys|
      invariant Firsts(keys, excluded) == kept + Firsts(keys[i..], seen)
    {
      assert keys[i..][1..] == keys[i + 1..];
      if keys[i].id !in seen {
        kept := kept + [keys[i]];
        seen := seen + {keys[i].id};
      }
      i := i + 1;
    }
  }

  // -------------------------------------------------------- what the parts contain

  lemma {:induction false} SelectMembers(entries: seq<Entry>, part: Part, now: int, k: Key)
    ensures k in Select(entries, part, now) <==> exists e :: e in entries && In(e, part, now) && KeyOf(e) == k
  {
    if entries != [] {
      var first, rest := entries[0], entries[1..];
      SelectMembers(rest, part, now, k);
      assert forall e :: e in entries <==> e == first || e in rest;
      if In(first, part, now) && KeyOf(first) == k { assert k in [KeyOf(first)]; }
    }
  }

  lemma {:induction false} SelectSorted(entries: seq<Entry>, part: Part, now: int)
    requires Sorted(Keys(entries))
    ensures Sorted(Select(entries, part, now))
  {
    if entries != [] {
      var rest := entries[1..];
      SortedTail(entries);
      SelectSorted(rest, part, now);
      var more := Select(rest, part, now);
      forall i | 0 <= i < |more| ensures !Before(more[i], KeyOf(entries[0])) {
        SelectMembers(rest, part, now, more[i]);
        var e :| e in rest && KeyOf(e) == more[i];
        var j :| 0 <= j < |rest| && rest[j] == e;
        assert !Before(Keys(entries)[j + 1], Keys(entries)[0]);
      }
    }
  }

  lemma IdSetCons(k: Key, keys: seq<Key>)
    ensures IdSet([k] + keys) == {k.id} + IdSet(keys)
  {
    assert k in [k] + keys;
    assert forall l :: l in [k] + keys <==> l == k || l in keys;
  }

  /** Firsts keeps exactly one key of each identifier that is not excluded. */
  lemma {:induction false} FirstsMembers(keys: seq<Key>, excluded: set<Id>)
    ensures forall k :: k in Firsts(keys, excluded) ==> k in keys && k.id !in excluded
    ensures IdSet(Firsts(keys, excluded)) == IdSet(keys) - excluded
    ensures forall i, j :: 0 <= i < j < |Firsts(keys, excluded)| ==>
            Firsts(keys, excluded)[i].id != Firsts(keys, excluded)[j].id
  {
    if keys != [] {
      var first, rest := keys[0], keys[1..];
      assert keys == [first] + rest;
      IdSetCons(first, rest);
      if first.id in excluded {
        FirstsMembers(rest, excluded);
      } else {
        var more := Firsts(rest, excluded + {first.id});
        FirstsMembers(rest, excluded + {first.id});
        IdSetCons(first, more);
        assert forall i :: 0 <= i < |more| ==> more[i] in more && more[i].id != first.id;
      }
    }
  }

  /** In a sorted list the kept key is the earliest of its identifier, and the kept keys are strictly ordered. */
  lemma {:induction false} FirstsEarliest(keys: seq<Key>, excluded: set<Id>)
    requires Sorted(keys)
    ensures forall k, l :: k in Firsts(keys, excluded) && l in keys && k.id == l.id ==> !Before(l, k)
    ensures forall i, j :: 0 <= i < j < |Firsts(keys, excluded)| ==>
            Before(Firsts(keys, excluded)[i], Firsts(keys, excluded)[j])
  {
    FirstsMembers(keys, excluded);
    if keys != [] {
      var first, rest := keys[0], keys[1..];
      assert keys == [first] + rest;
      BeforeIsTotal(first, first);
      if first.id in excluded {
        FirstsEarliest(rest, excluded);
      } else {
        var more := Firsts(rest, excluded + {first.id});
        FirstsMembers(rest, excluded + {first.id});
        FirstsEarliest(rest, excluded + {first.id});
        forall j | 0 <= j < |more| ensures Before(first, more[j]) {
          assert more[j] in more && more[j] in rest;
          var i :| 0 <= i < |rest| && rest[i] == more[j];
          assert !Before(keys[i + 1], keys[0]);
          BeforeIsTotal(first, more[j]);
        }
      }
    }
  }

  // ----------------------------------------------------- the policy, without order

  ghost predicate HasUnfinished(entries: seq<Entry>, id: Id) {
    exists e :: e in entries && e.identifier == id && e.phase != Ready
  }

  ghost predicate HasExpired(now: int, entries: seq<Entry>, id: Id) {
    exists e :: e in entries && e.identifier == id && e.phase == Ready && now - e.createdAt >= MAXIMUM_AGE
  }

  ghost predicate IsFresh(now: int, entries: seq<Entry>, id: Id) {
    && (exists e :: e in entries && e.identifier == id)
    && !HasUnfinished(entries, id) && !HasExpired(now, entries, id)
  }

  /** The earliest entry of i comes before every entry of j. */
  ghost predicate Older(entries: seq<Entry>, i: Id, j: Id) {
    exists e :: e in entries && e.identifier == i && forall f :: f in entries && f.identifier == j ==> Precedes(e, f)
  }

  ghost predicate YoungerFresh(now: int, entries: seq<Entry>, id: Id, a: Id, b: Id, c: Id) {
    && IsFresh(now, entries, a) && IsFresh(now, entries, b) && IsFresh(now, entries, c)
    && a != b && b != c && a != c && Older(entries, id, a) && Older(entries, id, b) && Older(entries, id, c)
  }

  /** Fresh, but older than three other fresh identifiers. */
  ghost predicate Overflows(now: int, entries: seq<Entry>, id: Id) {
    && IsFresh(now, entries, id)
    && exists a, b, c :: YoungerFresh(now, entries, id, a, b, c)
  }

  ghost predicate Deletes(now: int, entries: seq<Entry>, id: Id) {
    HasUnfinished(entries, id) || HasExpired(now, entries, id) || Overflows(now, entries, id)
  }

  lemma MandatoryIds(now: int, ordered: seq<Entry>, id: Id)
    ensures id in IdSet(Mandatory(now, ordered)) <==> HasUnfinished(ordered, id) || HasExpired(now, ordered, id)
  {
    var unfinished, expired := Select(ordered, Unfinished, now), Select(ordered, Expired, now);
    if id in IdSet(Mandatory(now, ordered)) {
      var k :| k in Mandatory(now, ordered) && k.id == id;
      SelectMembers(ordered, Unfinished, now, k);
      SelectMembers(ordered, Expired, now, k);
    }
    if HasUnfinished(ordered, id) {
      var e :| e in ordered && e.identifier == id && e.phase != Ready;
      SelectMembers(ordered, Unfinished, now, KeyOf(e));
      assert KeyOf(e) in unfinished;
    }
    if HasExpired(now, ordered, id) {
      var e :| e in ordered && e.identifier == id && e.phase == Ready && now - e.createdAt >= MAXIMUM_AGE;
      SelectMembers(ordered, Expired, now, KeyOf(e));
      assert KeyOf(e) in expired;
    }
  }

  lemma UsableIds(now: int, ordered: seq<Entry>, id: Id)
    ensures id in IdSet(Select(ordered, Usable, now)) <==> exists e :: e in ordered && e.identifier == id && e.phase == Ready
  {
    var ready := Select(ordered, Usable, now);
    if id in IdSet(ready) {
      var k :| k in ready && k.id == id;
      SelectMembers(ordered, Usable, now, k);
    }
    if e :| e in ordered && e.identifier == id && e.phase == Ready {
      SelectMembers(ordered, Usable, now, KeyOf(e));
      assert KeyOf(e) in ready;
    }
  }

  /** The candidates are the fresh identifiers. */
  lemma CandidatesAreFresh(now: int, ordered: seq<Entry>, id: Id)
    ensures IsFresh(now, ordered, id) <==> id in IdSet(Candidates(now, ordered))
  {
    FirstsMembers(Select(ordered, Usable, now), IdSet(Mandatory(now, ordered)));
    MandatoryIds(now, ordered, id);
    UsableIds(now, ordered, id);
  }

  lemma CandidateOrder(now: int, ordered: seq<Entry>, i: nat, j: nat)
    requires Sorted(Keys(ordered)) && i < |Candidates(now, ordered)| && j < |Candidates(now, ordered)|
    ensures Older(ordered, Candidates(now, ordered)[i].id, Candidates(now, ordered)[j].id) <==> i < j
  {
    var c := Candidates(now, ordered);
    var ready := Select(ordered, Usable, now);
    SelectSorted(ordered, Usable, now);
    FirstsMembers(ready, IdSet(Mandatory(now, ordered)));
    FirstsEarliest(ready, IdSet(Mandatory(now, ordered)));
    var e := CandidateEntry(now, ordered, i);
    var f := CandidateEntry(now, ordered, j);
    if i < j {
      forall g | g in ordered && g.identifier == c[j].id ensures Precedes(e, g) {
        CandidateIsEarliest(now, ordered, j, g);
        BeforeIsTransitive(KeyOf(g), KeyOf(e), c[j]);
        BeforeIsTotal(KeyOf(g), c[j]);
        BeforeIsTransitive(KeyOf(e), c[j], KeyOf(g));
      }
    } else if Older(ordered, c[i].id, c[j].id) {
      var g :| g in ordered && g.identifier == c[i].id && forall h :: h in ordered && h.identifier == c[j].id ==>
          Precedes(g, h);
      assert Precedes(g, f);
      CandidateIsEarliest(now, ordered, i, g);
      BeforeIsTotal(c[i], c[j]);
      BeforeIsTotal(KeyOf(g), c[j]);
      BeforeIsTransitive(KeyOf(g), c[j], c[i]);
    }
  }

  /** The entry behind a candidate. */
  lemma CandidateEntry(now: int, ordered: seq<Entry>, i: nat) returns (e: Entry)
    requires i < |Candidates(now, ordered)|
    ensures e in ordered && KeyOf(e) == Candidates(now, ordered)[i]
  {
    var ready := Select(ordered, Usable, now);
    FirstsMembers(ready, IdSet(Mandatory(now, ordered)));
    var k := Candidates(now, ordered)[i];
    assert k in Candidates(now, ordered);
    SelectMembers(ordered, Usable, now, k);
    e :| e in ordered && KeyOf(e) == k;
  }

  lemma CandidateIsEarliest(now: int, ordered: seq<Entry>, i: nat, g: Entry)
    requires Sorted(Keys(ordered)) && i < |Candidates(now, ordered)|
    requires g in ordered && g.identifier == Candidates(now, ordered)[i].id
    ensures !Before(KeyOf(g), Candidates(now, ordered)[i])
  {
    var c := Candidates(now, ordered);
    var ready := Select(ordered, Usable, now);
    SelectSorted(ordered, Usable, now);
    FirstsEarliest(ready, IdSet(Mandatory(now, ordered)));
    assert c[i] in c && c[i].id in IdSet(c);
    CandidatesAreFresh(now, ordered, c[i].id);
    SelectMembers(ordered, Usable, now, KeyOf(g));
  }

  lemma CandidateIsFresh(now: int, ordered: seq<Entry>, i: nat)
    requires i < |Candidates(now, ordered)|
    ensures IsFresh(now, ordered, Candidates(now, ordered)[i].id)
  {
    var c := Candidates(now, ordered);
    assert c[i] in c && c[i].id in IdSet(c);
    CandidatesAreFresh(now, ordered, c[i].id);
  }

  lemma CandidatesDiffer(now: int, ordered: seq<Entry>, i: nat, j: nat)
    requires i < |Candidates(now, ordered)| && j < |Candidates(now, ordered)| && i != j
    ensures Candidates(now, ordered)[i].id != Candidates(now, ordered)[j].id
  {
    FirstsMembers(Select(ordered, Usable, now), IdSet(Mandatory(now, ordered)));
  }

  lemma EarlyOverflows(now: int, ordered: seq<Entry>, i: nat)
    requires Sorted(Keys(ordered)) && i + MAXIMUM_COUNT < |Candidates(now, ordered)|
    ensures Overflows(now, ordered, Candidates(now, ordered)[i].id)
  {
    var c := Candidates(now, ordered);
    CandidateIsFresh(now, ordered, i);
    CandidateIsFresh(now, ordered, i + 1);
    CandidateIsFresh(now, ordered, i + 2);
    CandidateIsFresh(now, ordered, i + 3);
    CandidatesDiffer(now, ordered, i + 1, i + 2);
    CandidatesDiffer(now, ordered, i + 2, i + 3);
    CandidatesDiffer(now, ordered, i + 1, i + 3);
    CandidateOrder(now, ordered, i, i + 1);
    CandidateOrder(now, ordered, i, i + 2);
    CandidateOrder(now, ordered, i, i + 3);
    assert YoungerFresh(now, ordered, c[i].id, c[i + 1].id, c[i + 2].id, c[i + 3].id);
  }

  lemma OlderStandsBefore(now: int, ordered: seq<Entry>, id: Id, younger: Id, i: nat) returns (j: nat)
    requires Sorted(Keys(ordered)) && i < |Candidates(now, ordered)| && Candidates(now, ordered)[i].id == id
    requires IsFresh(now, ordered, younger) && Older(ordered, id, younger)
    ensures i < j < |Candidates(now, ordered)| && Candidates(now, ordered)[j].id == younger
  {
    j := Position(now, ordered, younger);
    CandidateOrder(now, ordered, i, j);
  }

  lemma OverflowsIsEarly(now: int, ordered: seq<Entry>, id: Id) returns (i: nat)
    requires Sorted(Keys(ordered)) && Overflows(now, ordered, id)
    ensures i + MAXIMUM_COUNT < |Candidates(now, ordered)| && Candidates(now, ordered)[i].id == id
  {
    i := Position(now, ordered, id);
    var a, b, c :| YoungerFresh(now, ordered, id, a, b, c);
    ThreeStandAfter(now, ordered, id, a, b, c, i);
  }

  lemma ThreeStandAfter(now: int, ordered: seq<Entry>, id: Id, a: Id, b: Id, c: Id, i: nat)
    requires Sorted(Keys(ordered)) && i < |Candidates(now, ordered)| && Candidates(now, ordered)[i].id == id
    requires YoungerFresh(now, ordered, id, a, b, c)
    ensures i + MAXIMUM_COUNT < |Candidates(now, ordered)|
  {
    var j := OlderStandsBefore(now, ordered, id, a, i);
    var k := OlderStandsBefore(now, ordered, id, b, i);
    var l := OlderStandsBefore(now, ordered, id, c, i);
    assert j != k && k != l && j != l;
  }

  lemma InOverflow(c: seq<Key>, i: nat)
    requires i + MAXIMUM_COUNT < |c|
    ensures c[i].id in IdSet(Overflow(c))
  {
    assert c[i] == Overflow(c)[i] && c[i] in Overflow(c);
  }

  /** The overflow of the candidates is the fresh identifiers older than three others. */
  lemma OverflowIds(now: int, ordered: seq<Entry>, id: Id)
    requires Sorted(Keys(ordered))
    ensures id in IdSet(Overflow(Candidates(now, ordered))) <==> Overflows(now, ordered, id)
  {
    var c := Candidates(now, ordered);
    if id in IdSet(Overflow(c)) {
      var k :| k in Overflow(c) && k.id == id;
      var i :| 0 <= i < |c| - MAXIMUM_COUNT && c[i] == k;
      EarlyOverflows(now, ordered, i);
    }
    if Overflows(now, ordered, id) {
      var i := OverflowsIsEarly(now, ordered, id);
      InOverflow(c, i);
    }
  }

  /** Where a fresh identifier stands among the candidates. */
  lemma Position(now: int, ordered: seq<Entry>, id: Id) returns (i: nat)
    requires IsFresh(now, ordered, id)
    ensures i < |Candidates(now, ordered)| && Candidates(now, ordered)[i].id == id
  {
    CandidatesAreFresh(now, ordered, id);
    var k :| k in Candidates(now, ordered) && k.id == id;
    i :| 0 <= i < |Candidates(now, ordered)| && Candidates(now, ordered)[i] == k;
  }

  lemma IdSetConcat(a: seq<Key>, b: seq<Key>)
    ensures IdSet(a + b) == IdSet(a) + IdSet(b)
  {
    assert forall k :: k in a + b <==> k in a || k in b;
  }

  /** The plan names exactly the identifiers the policy deletes, each once. */
  lemma PlanDeletes(now: int, ordered: seq<Entry>, id: Id)
    requires Sorted(Keys(ordered))
    ensures id in IdSet(Plan(now, ordered)) <==> Deletes(now, ordered, id)
    ensures forall i, j :: 0 <= i < j < |Plan(now, ordered)| ==> Plan(now, ordered)[i].id != Plan(now, ordered)[j].id
  {
    var mandatory, overflow := Mandatory(now, ordered), Overflow(Candidates(now, ordered));
    FirstsMembers(mandatory + overflow, {});
    IdSetConcat(mandatory, overflow);
    MandatoryIds(now, ordered, id);
    OverflowIds(now, ordered, id);
  }

  // ---------------------------------------------- independence of the arrangement

  lemma SameOlder(s: seq<Entry>, t: seq<Entry>, i: Id, j: Id)
    requires forall e :: e in s <==> e in t
    ensures Older(s, i, j) <==> Older(t, i, j)
  {
  }

  lemma SameFresh(now: int, s: seq<Entry>, t: seq<Entry>, id: Id)
    requires forall e :: e in s <==> e in t
    ensures IsFresh(now, s, id) <==> IsFresh(now, t, id)
    ensures HasUnfinished(s, id) <==> HasUnfinished(t, id)
    ensures HasExpired(now, s, id) <==> HasExpired(now, t, id)
  {
  }

  lemma OverflowsInBoth(now: int, s: seq<Entry>, t: seq<Entry>, id: Id)
    requires (forall e :: e in s <==> e in t) && Overflows(now, s, id)
    ensures Overflows(now, t, id)
  {
    var a, b, c :| YoungerFresh(now, s, id, a, b, c);
    SameFresh(now, s, t, id);
    SameFresh(now, s, t, a);
    SameFresh(now, s, t, b);
    SameFresh(now, s, t, c);
    SameOlder(s, t, id, a);
    SameOlder(s, t, id, b);
    SameOlder(s, t, id, c);
    assert YoungerFresh(now, t, id, a, b, c);
  }

  lemma SameDeletes(now: int, s: seq<Entry>, t: seq<Entry>, id: Id)
    requires forall e :: e in s <==> e in t
    ensures Deletes(now, s, id) <==> Deletes(now, t, id)
  {
    SameFresh(now, s, t, id);
    if Overflows(now, s, id) { OverflowsInBoth(now, s, t, id); }
    if Overflows(now, t, id) { OverflowsInBoth(now, t, s, id); }
  }

  lemma SameMembers(s: seq<Entry>, t: seq<Entry>)
    requires multiset(s) == multiset(t)
    ensures forall e :: e in s <==> e in t
  {
    assert forall e :: e in s <==> e in multiset(s);
    assert forall e :: e in t <==> e in multiset(t);
  }

  lemma {:induction false} SelectConcat(s: seq<Entry>, t: seq<Entry>, part: Part, now: int)
    ensures Select(s + t, part, now) == Select(s, part, now) + Select(t, part, now)
  {
    if s == [] { assert s + t == t; }
    else {
      assert (s + t)[1..] == s[1..] + t;
      SelectConcat(s[1..], t, part, now);
      var head := if In(s[0], part, now) then [KeyOf(s[0])] else [];
      assert Select(s + t, part, now) == head + (Select(s[1..], part, now) + Select(t, part, now));
      assert Select(s, part, now) == head + Select(s[1..], part, now);
    }
  }

  lemma CancelOne<T>(a: multiset<T>, b: multiset<T>, x: T)
    requires multiset{x} + a == multiset{x} + b
    ensures a == b
  {
    assert a == (multiset{x} + a) - multiset{x};
    assert b == (multiset{x} + b) - multiset{x};
  }

  lemma RemoveOne<T>(s: seq<T>, t: seq<T>, i: nat)
    requires multiset(s) == multiset(t) && s != [] && i < |t| && t[i] == s[0]
    ensures multiset(s[1..]) == multiset(t[..i] + t[i + 1..])
  {
    assert s == [s[0]] + s[1..];
    var l, r := t[..i], t[i + 1..];
    assert t == l + [t[i]] + r;
    assert multiset(s) == multiset{s[0]} + multiset(s[1..]);
    assert multiset(l + [t[i]] + r) == multiset(l) + multiset{t[i]} + multiset(r);
    assert multiset(l + r) == multiset(l) + multiset(r);
    CancelOne(multiset(s[1..]), multiset(l + r), s[0]);
  }

  lemma SelectAround(left: seq<Entry>, x: Entry, right: seq<Entry>, part: Part, now: int)
    ensures multiset(Select(left + [x] + right, part, now))
         == multiset(Select([x], part, now)) + multiset(Select(left + right, part, now))
  {
    SelectConcat(left + [x], right, part, now);
    SelectConcat(left, [x], part, now);
    SelectConcat(left, right, part, now);
    var l, m, r := Select(left, part, now), Select([x], part, now), Select(right, part, now);
    assert Select(left + [x] + right, part, now) == l + m + r && Select(left + right, part, now) == l + r;
    assert multiset(l + m + r) == multiset(l) + multiset(m) + multiset(r);
  }

  lemma {:induction false} SelectMultiset(s: seq<Entry>, t: seq<Entry>, part: Part, now: int)
    requires multiset(s) == multiset(t)
    ensures multiset(Select(s, part, now)) == multiset(Select(t, part, now))
    decreases |s|
  {
    if s == [] {
      assert |t| == |multiset(t)| == 0;
    } else {
      assert s[0] in multiset(t);
      var i :| 0 <= i < |t| && t[i] == s[0];
      RemoveOne(s, t, i);
      SelectMultiset(s[1..], t[..i] + t[i + 1..], part, now);
      SelectAround(t[..i], t[i], t[i + 1..], part, now);
      SelectAround([], s[0], s[1..], part, now);
      SplitAt(t, i);
      SplitAt(s, 0);
    }
  }

  lemma SplitAt<T>(s: seq<T>, i: nat)
    requires i < |s|
    ensures s[..i] + [s[i]] + s[i + 1..] == s
    ensures i == 0 ==> [] + [s[0]] + s[1..] == s && [] + s[1..] == s[1..] == s[..0] + s[1..]
  {
  }

  lemma SortedHead(a: seq<Key>, k: Key)
    requires Sorted(a) && k in a
    ensures !Before(k, a[0])
  {
    BeforeIsTotal(k, k);
  }

  lemma SameHead(a: seq<Key>, b: seq<Key>)
    requires Sorted(a) && Sorted(b) && multiset(a) == multiset(b) && a != [] && b != []
    ensures a[0] == b[0]
  {
    assert a[0] in multiset(b) && b[0] in multiset(a);
    SortedHead(a, b[0]);
    SortedHead(b, a[0]);
    BeforeIsTotal(a[0], b[0]);
  }

  lemma SortedRest(a: seq<Key>)
    requires Sorted(a) && a != []
    ensures Sorted(a[1..])
  {
  }

  lemma {:induction false} SortedUnique(a: seq<Key>, b: seq<Key>)
    requires Sorted(a) && Sorted(b) && multiset(a) == multiset(b)
    ensures a == b
    decreases |a|
  {
    assert |a| == |multiset(a)| == |b|;
    if a != [] {
      SameHead(a, b);
      RemoveOne(a, b, 0);
      SplitAt(a, 0);
      SplitAt(b, 0);
      SortedRest(a);
      SortedRest(b);
      SortedUnique(a[1..], b[1..]);
    }
  }

  /** The plan depends only on the multiset of entries: any order the sort may leave gives the same list. */
  lemma PlanIsUnique(now: int, s: seq<Entry>, t: seq<Entry>)
    requires Sorted(Keys(s)) && Sorted(Keys(t)) && multiset(s) == multiset(t)
    ensures Plan(now, s) == Plan(now, t)
  {
    SelectIsUnique(now, s, t, Unfinished);
    SelectIsUnique(now, s, t, Expired);
    SelectIsUnique(now, s, t, Usable);
  }

  lemma SelectIsUnique(now: int, s: seq<Entry>, t: seq<Entry>, part: Part)
    requires Sorted(Keys(s)) && Sorted(Keys(t)) && multiset(s) == multiset(t)
    ensures Select(s, part, now) == Select(t, part, now)
  {
    SelectSorted(s, part, now);
    SelectSorted(t, part, now);
    SelectMultiset(s, t, part, now);
    SortedUnique(Select(s, part, now), Select(t, part, now));
  }

  // -------------------------------------------------------------------- the policy

  method PlanKeys(now: int, sorted: seq<Entry>) returns (deleted: seq<Key>)
    ensures deleted == Plan(now, sorted)
  {
    var unfinished := Select(sorted, Unfinished, now);
    var expired := Select(sorted, Expired, now);
    var ready := Select(sorted, Usable, now);
    var candidates := KeepFirsts(ready, IdSet(unfinished + expired));
    var overLimit := candidates[..if |candidates| > MAXIMUM_COUNT then |candidates| - MAXIMUM_COUNT else 0];
    deleted := KeepFirsts(unfinished + expired + overLimit, {});
  }

  lemma AllPlansAgree(now: int, entries: seq<Entry>, sorted: seq<Entry>)
    requires SortedFrom(sorted, entries)
    ensures forall ordered :: SortedFrom(ordered, entries) ==> Plan(now, ordered) == Plan(now, sorted)
  {
    forall ordered | SortedFrom(ordered, entries) ensures Plan(now, ordered) == Plan(now, sorted) {
      PlanIsUnique(now, ordered, sorted);
    }
  }

  /** The identifiers to delete: exactly those of the policy, each once, whatever order the entries come in. */
  method IdentifiersToDelete(now: int, entries: seq<Entry>) returns (ids: seq<Id>)
    ensures forall id :: id in ids <==> Deletes(now, entries, id)
    ensures forall i, j :: 0 <= i < j < |ids| ==> ids[i] != ids[j]
    ensures forall ordered :: SortedFrom(ordered, entries) ==> ids == Ids(Plan(now, ordered))
  {
    var sorted := SortedByPrecedes(entries);
    var deleted := PlanKeys(now, sorted);
    ids := Ids(deleted);
    PlanDeletesAll(now, entries, sorted);
    AllPlansAgree(now, entries, sorted);
  }

  lemma PlanDeletesAll(now: int, entries: seq<Entry>, ordered: seq<Entry>)
    requires SortedFrom(ordered, entries)
    ensures forall id :: id in Ids(Plan(now, ordered)) <==> Deletes(now, entries, id)
    ensures forall i, j :: 0 <= i < j < |Ids(Plan(now, ordered))| ==>
            Ids(Plan(now, ordered))[i] != Ids(Plan(now, ordered))[j]
  {
    var plan := Plan(now, ordered);
    SameMembers(ordered, entries);
    PlanDeletes(now, ordered, "");
    forall id ensures id in Ids(plan) <==> Deletes(now, entries, id) {
      PlanDeletes(now, ordered, id);
      SameDeletes(now, ordered, entries, id);
      if id in Ids(plan) {
        var i :| 0 <= i < |plan| && Ids(plan)[i] == id;
        assert plan[i] in plan;
      }
      if id in IdSet(plan) {
        var k :| k in plan && k.id == id;
        var i :| 0 <= i < |plan| && plan[i] == k;
        assert Ids(plan)[i] == id;
      }
    }
  }

  ghost predicate Survives(now: int, entries: seq<Entry>, id: Id) {
    (exists e :: e in entries && e.identifier == id) && !Deletes(now, entries, id)
  }

  /** Whatever survives is a ready entry younger than the maximum age. */
  lemma SurvivorsAreFresh(now: int, entries: seq<Entry>, e: Entry)
    requires e in entries && Survives(now, entries, e.identifier)
    ensures e.phase == Ready && now - e.createdAt < MAXIMUM_AGE
  {
  }

  /** At most three identifiers survive. */
  lemma AtMostThreeSurvive(now: int, entries: seq<Entry>, a: Id, b: Id, c: Id, d: Id)
    requires a != b && a != c && a != d && b != c && b != d && c != d
    ensures !(Survives(now, entries, a) && Survives(now, entries, b) && Survives(now, entries, c)
            && Survives(now, entries, d))
  {
    if Survives(now, entries, a) && Survives(now, entries, b) && Survives(now, entries, c) && Survives(now, entries, d) {
      var ordered := SortedByPrecedes(entries);
      var i := SurvivorPosition(now, entries, ordered, a);
      var j := SurvivorPosition(now, entries, ordered, b);
      var k := SurvivorPosition(now, entries, ordered, c);
      var l := SurvivorPosition(now, entries, ordered, d);
      FourSpread(Candidates(now, ordered), i, j, k, l);
    }
  }

  lemma FourSpread(c: seq<Key>, i: nat, j: nat, k: nat, l: nat)
    requires i < |c| && j < |c| && k < |c| && l < |c|
    requires c[i].id != c[j].id && c[i].id != c[k].id && c[i].id != c[l].id
    requires c[j].id != c[k].id && c[j].id != c[l].id && c[k].id != c[l].id
    ensures i + MAXIMUM_COUNT < |c| || j + MAXIMUM_COUNT < |c| || k + MAXIMUM_COUNT < |c| || l + MAXIMUM_COUNT < |c|
  {
    assert i != j && i != k && i != l && j != k && j != l && k != l;
  }

  /** A survivor is among the last three candidates. */
  lemma SurvivorPosition(now: int, entries: seq<Entry>, ordered: seq<Entry>, id: Id) returns (i: nat)
    requires SortedFrom(ordered, entries) && Survives(now, entries, id)
    ensures i < |Candidates(now, ordered)| <= i + MAXIMUM_COUNT && Candidates(now, ordered)[i].id == id
  {
    SameMembers(ordered, entries);
    SameDeletes(now, ordered, entries, id);
    SameFresh(now, ordered, entries, id);
    i := Position(now, ordered, id);
    if i + MAXIMUM_COUNT < |Candidates(now, ordered)| { EarlyOverflows(now, ordered, i); }
  }

  /** Whatever is dropped for overflow is older than every survivor. */
  lemma DroppedAreOlder(now: int, entries: seq<Entry>, dropped: Id, kept: Id)
    requires Overflows(now, entries, dropped) && Survives(now, entries, kept)
    ensures Older(entries, dropped, kept)
  {
    var ordered := SortedByPrecedes(entries);
    SameMembers(ordered, entries);
    var j := SurvivorPosition(now, entries, ordered, kept);
    OverflowsInBoth(now, entries, ordered, dropped);
    var i := OverflowsIsEarly(now, ordered, dropped);
    CandidateOrder(now, ordered, i, j);
    SameOlder(ordered, entries, dropped, kept);
  }

  ghost predicate LeftBy(now: int, entries: seq<Entry>, survivors: seq<Entry>) {
    forall e :: e in survivors <==> e in entries && !Deletes(now, entries, e.identifier)
  }

  /** Running the policy again on what it left deletes nothing. */
  lemma RerunDeletesNothing(now: int, entries: seq<Entry>, survivors: seq<Entry>, id: Id)
    requires LeftBy(now, entries, survivors)
    ensures !Deletes(now, survivors, id)
  {
    NothingMandatory(now, entries, survivors, id);
    if Overflows(now, survivors, id) {
      var a, b, c :| YoungerFresh(now, survivors, id, a, b, c);
      FourSurvive(now, entries, survivors, id, a, b, c);
      AtMostThreeSurvive(now, entries, id, a, b, c);
    }
  }

  lemma NothingMandatory(now: int, entries: seq<Entry>, survivors: seq<Entry>, id: Id)
    requires LeftBy(now, entries, survivors)
    ensures !HasUnfinished(survivors, id) && !HasExpired(now, survivors, id)
  {
    forall e | e in survivors && e.identifier == id ensures e.phase == Ready && now - e.createdAt < MAXIMUM_AGE {
      SurvivorsAreFresh(now, entries, e);
    }
  }

  lemma FourSurvive(now: int, entries: seq<Entry>, survivors: seq<Entry>, id: Id, a: Id, b: Id, c: Id)
    requires LeftBy(now, entries, survivors)
    requires IsFresh(now, survivors, id) && YoungerFresh(now, survivors, id, a, b, c)
    ensures id != a && id != b && id != c && a != b && b != c && a != c
    ensures Survives(now, entries, id) && Survives(now, entries, a) && Survives(now, entries, b) && Survives(now, entries, c)
  {
    NotOlderThanItself(survivors, id);
    SurvivorsSurvive(now, entries, survivors, id);
    SurvivorsSurvive(now, entries, survivors, a);
    SurvivorsSurvive(now, entries, survivors, b);
    SurvivorsSurvive(now, entries, survivors, c);
  }

  lemma SurvivorsSurvive(now: int, entries: seq<Entry>, survivors: seq<Entry>, id: Id)
    requires LeftBy(now, entries, survivors) && IsFresh(now, survivors, id)
    ensures Survives(now, entries, id)
  {
    var e :| e in survivors && e.identifier == id;
    assert e in entries;
  }

  lemma NotOlderThanItself(entries: seq<Entry>, id: Id)
    ensures !Older(entries, id, id)
  {
    if Older(entries, id, id) {
      var e :| e in entries && e.identifier == id && forall f :: f in entries && f.identifier == id ==> Precedes(e, f);
      BeforeIsTotal(KeyOf(e), KeyOf(e));
    }
  }

  /** What is deleted at one time is deleted at any later time. */
  lemma DeletionIsMonotone(now: int, later: int, entries: seq<Entry>, id: Id)
    requires now <= later && Deletes(now, entries, id)
    ensures Deletes(later, entries, id)
  {
    if HasUnfinished(entries, id) {
    } else if HasExpired(now, entries, id) {
      var e :| e in entries && e.identifier == id && e.phase == Ready && now - e.createdAt >= MAXIMUM_AGE;
      assert later - e.createdAt >= MAXIMUM_AGE;
    } else if !HasExpired(later, entries, id) {
      var a, b, c :| YoungerFresh(now, entries, id, a, b, c);
      StillFresh(now, later, entries, id, a);
      StillFresh(now, later, entries, id, b);
      StillFresh(now, later, entries, id, c);
      assert YoungerFresh(later, entries, id, a, b, c);
    }
  }

  /** What is younger than an identifier does not expire before it. */
  lemma OlderExpiresFirst(now: int, entries: seq<Entry>, id: Id, a: Id)
    requires Older(entries, id, a) && HasExpired(now, entries, a) && !HasUnfinished(entries, id)
    ensures HasExpired(now, entries, id)
  {
    var f :| f in entries && f.identifier == a && f.phase == Ready && now - f.createdAt >= MAXIMUM_AGE;
    var e :| e in entries && e.identifier == id && forall f :: f in entries && f.identifier == a ==> Precedes(e, f);
    assert Precedes(e, f) && now - e.createdAt >= MAXIMUM_AGE;
  }

  lemma StillFresh(now: int, later: int, entries: seq<Entry>, id: Id, a: Id)
    requires IsFresh(now, entries, a) && Older(entries, id, a)
    requires !HasUnfinished(entries, id) && !HasExpired(later, entries, id)
    ensures IsFresh(later, entries, a)
  {
    if HasExpired(later, entries, a) { OlderExpiresFirst(later, entries, id, a); }
  }
}
