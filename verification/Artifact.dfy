/**
 Writing a downloaded artifact: into a temporary file, bounded and cancellable, checked,
 then linked to its destination without replacing anything.

 The disk is a map from paths to contents; each call on it may fail, as an arbitrary
 predicate of its number decides. No other process touches the two paths meanwhile.
 The digest and the validator are parameters.
 */
module Artifact {
  import opened Prelude

  datatype Error =
    | ConfigInvalid | IOFailure | RequestTimeout | ArtifactTooLarge | ChecksumMismatch | RecordingNotAvailable
    | Stable(code: string)        // a contract error the reader itself ended with

  datatype Info = Info(path: string, byteCount: nat, mime: string, sha256: string)

  datatype Result<T> = Ok(value: T) | Err(error: Error)

  /** What successive reads of a body give; the end of the list is the end of the body. */
  datatype Read = Data(bytes: seq<byte>) | Broken(error: Option<string>)

  datatype Options = Options(destination: string, mime: string, expectedSHA256: string, maxBytes: int,
                             sha256: seq<byte> -> string, validator: Option<seq<byte> -> bool>)

  /** The call with this number fails. */
  predicate Fails(fails: nat -> bool, call: nat) { fails(call) }

  class Disk {
    var files: map<string, seq<byte>>
    var calls: nat
    const fails: nat -> bool

    constructor (files: map<string, seq<byte>>, fails: nat -> bool)
      ensures this.files == files && this.calls == 0 && this.fails == fails
    {
      this.files, this.calls, this.fails := files, 0, fails;
    }

    /** A call that changes no file. */
    method Call() returns (ok: bool)
      modifies this`calls
      ensures calls == old(calls) + 1 && ok == !Fails(fails, old(calls))
    {
      ok := !Fails(fails, calls);
      calls := calls + 1;
    }

    method Create(path: string) returns (ok: bool)
      requires path !in files
      modifies this
      ensures calls == old(calls) + 1 && (ok <==> !Fails(fails, old(calls)))
      ensures files == if ok then old(files)[path := []] else old(files)
    {
      ok := Call();
      if ok { files := files[path := []]; }
    }

    method Append(path: string, bytes: seq<byte>) returns (ok: bool)
      requires path in files
      modifies this
      ensures calls == old(calls) + 1 && (ok <==> !Fails(fails, old(calls)))
      ensures files == if ok then old(files)[path := old(files)[path] + bytes] else old(files)
    {
      ok := Call();
      if ok { files := files[path := files[path] + bytes]; }
    }

    /** A hard link; it never replaces an existing file. */
    method Link(source: string, destination: string) returns (ok: bool)
      requires source in files
      modifies this
      ensures calls == old(calls) + 1 && (ok <==> !Fails(fails, old(calls)) && destination !in old(files))
      ensures files == if ok then old(files)[destination := old(files)[source]] else old(files)
    {
      ok := Call();
      if destination in files { return false; }
      if ok { files := files[destination := files[source]]; }
    }

    method Remove(path: string) returns (ok: bool)
      modifies this
      ensures calls == old(calls) + 1 && (ok <==> !Fails(fails, old(calls)))
      ensures files == if ok then old(files) - {path} else old(files)
    {
      ok := Call();
      if ok { files := files - {path}; }
    }
  }

  // --------------------------------------------------------------------- copying

  predicate AllData(body: seq<Read>) { forall i :: 0 <= i < |body| ==> body[i].Data? }

  /** Everything a body delivers. */
  function Delivered(body: seq<Read>): seq<byte> {
    if body == [] then []
    else Delivered(body[..|body| - 1]) + if body[|body| - 1].Data? then body[|body| - 1].bytes else []
  }

  lemma {:induction false} DeliveredGrows(body: seq<Read>, i: nat)
    requires i <= |body|
    ensures Delivered(body[..i]) <= Delivered(body)
    decreases |body|
  {
    if i == |body| { assert body[..i] == body; }
    else {
      assert body[..|body| - 1][..i] == body[..i];
      DeliveredGrows(body[..|body| - 1], i);
    }
  }

  /** None of this many calls from this number on fails, and nobody cancels. */
  ghost predicate Undisturbed(fails: nat -> bool, from: nat, many: nat, cancelled: nat -> bool) {
    (forall k :: from <= k < from + many ==> !Fails(fails, k)) && (forall k :: !cancelled(k))
  }

  /** No call ever fails. */
  ghost predicate Faultless(fails: nat -> bool) { forall k :: !Fails(fails, k) }

  function BrokenWith(error: Option<string>): Error {
    if error.Some? then Stable(error.value) else IOFailure
  }

  /** How many reads come before the first that breaks. */
  function Intact(body: seq<Read>): (n: nat)
    ensures n <= |body| && forall i :: 0 <= i < n ==> body[i].Data?
    ensures n < |body| ==> body[n].Broken?
  {
    if body == [] || body[0].Broken? then 0 else 1 + Intact(body[1..])
  }

  /** What is delivered before a read breaks. */
  function DeliveredIntact(body: seq<Read>): seq<byte> { Delivered(body[..Intact(body)]) }

  /** The error a copy ends with when nothing else goes wrong: that of a broken read, unless the bound comes first. */
  function CopyError(body: seq<Read>, maxBytes: nat): Option<Error> {
    if |DeliveredIntact(body)| > maxBytes || Intact(body) == |body| then None else Some(BrokenWith(body[Intact(body)].error))
  }

  lemma IntactGrows(body: seq<Read>, i: nat)
    requires i <= Intact(body)
    ensures |Delivered(body[..i])| <= |DeliveredIntact(body)|
  {
    DeliveredGrows(body[..Intact(body)], i);
    assert body[..Intact(body)][..i] == body[..i];
  }

  /**
   Copies at most maxBytes + 1 bytes into the temporary file. Before each read the
   context is asked; a copy without an error and within the bound got everything.
   */
  method Copy(disk: Disk, temp: string, body: seq<Read>, cancelled: nat -> bool, maxBytes: nat)
    returns (error: Option<Error>, written: nat)
    requires temp in disk.files && disk.files[temp] == []
    modifies disk
    ensures temp in disk.files && disk.files == old(disk.files)[temp := disk.files[temp]]
    ensures error.None? ==> written == |disk.files[temp]| <= maxBytes + 1
    ensures error.None? && written <= maxBytes ==> AllData(body) && disk.files[temp] == Delivered(body)
    ensures error.None? && written <= maxBytes ==> disk.calls == old(disk.calls) + |body|
    ensures Undisturbed(disk.fails, old(disk.calls), |body|, cancelled) ==> error == CopyError(body, maxBytes)
    ensures error.None? ==> (written > maxBytes <==> |DeliveredIntact(body)| > maxBytes)
    ensures error == Some(RequestTimeout) ==> exists k :: cancelled(k)
    ensures cancelled(0) ==> error == Some(RequestTimeout)
  {
    written := 0;
    var remaining: nat := maxBytes + 1;
    var i := 0;
    while true
      invariant 0 <= i <= |body| && temp in disk.files && disk.files == old(disk.files)[temp := disk.files[temp]]
      invariant written == |disk.files[temp]| && written + remaining == maxBytes + 1
      invariant remaining > 0 ==> disk.files[temp] == Delivered(body[..i])
      invariant |disk.files[temp]| <= |Delivered(body[..i])| && disk.calls == old(disk.calls) + i
      invariant i <= Intact(body) && (cancelled(0) ==> i == 0)
      decreases |body| - i
    {
      if cancelled(i) { return Some(RequestTimeout), written; }
      IntactGrows(body, i);
      if remaining == 0 { return None, written; }
      if i == |body| {
        assert body[..i] == body;
        return None, written;
      }
      if body[i].Broken? { return Some(BrokenWith(body[i].error)), written; }
      var bytes := body[i].bytes;
      var part := if |bytes| <= remaining then bytes else bytes[..remaining];
      var ok := disk.Append(temp, part);
      if !ok { return Some(IOFailure), written; }
      assert body[..i + 1][..i] == body[..i];
      written := written + |part|;
      remaining := remaining - |part|;
      i := i + 1;
    }
  }

  // --------------------------------------------------------------------- writing

  /** What the checks before the commit establish about a temporary file. */
  predicate Checked(content: seq<byte>, options: Options) {
    && |content| <= options.maxBytes
    && options.sha256(content) == options.expectedSHA256
    && (options.validator.Some? ==> options.validator.value(content))
  }

  /** What a body is refused for when nothing else goes wrong, the bound first and the validator last. */
  function ContentError(body: seq<Read>, options: Options): Option<Error>
    requires options.maxBytes >= 0
  {
    if |DeliveredIntact(body)| > options.maxBytes then Some(ArtifactTooLarge)
    else if Intact(body) < |body| then Some(BrokenWith(body[Intact(body)].error))
    else if options.sha256(Delivered(body)) != options.expectedSHA256 then Some(ChecksumMismatch)
    else if options.validator.Some? && !options.validator.value(Delivered(body)) then Some(RecordingNotAvailable)
    else None
  }

  lemma WholeBody(body: seq<Read>)
    ensures AllData(body) <==> Intact(body) == |body|
    ensures AllData(body) ==> DeliveredIntact(body) == Delivered(body)
  {
    if Intact(body) == |body| { assert body[..|body|] == body; }
  }

  /** Nothing is refused exactly when the body came through and passes the checks. */
  lemma ContentErrorIff(body: seq<Read>, options: Options)
    requires options.maxBytes >= 0
    ensures ContentError(body, options).None? <==> AllData(body) && Checked(Delivered(body), options)
  {
    WholeBody(body);
  }

  /** The digest first, then the validator; `readable` says whether that could open the file. */
  method Check(content: seq<byte>, options: Options, readable: bool) returns (error: Option<Error>)
    requires |content| <= options.maxBytes
    ensures error.None? ==> Checked(content, options)
    ensures readable ==> error == if options.sha256(content) != options.expectedSHA256 then Some(ChecksumMismatch)
                                  else if Checked(content, options) then None else Some(RecordingNotAvailable)
    ensures error != Some(RequestTimeout)
    ensures error == Some(ChecksumMismatch) <==> options.sha256(content) != options.expectedSHA256
  {
    if options.sha256(content) != options.expectedSHA256 { return Some(ChecksumMismatch); }
    if options.validator.Some? && !(readable && options.validator.value(content)) { return Some(RecordingNotAvailable); }
    return None;
  }

  /** Fills the temporary file and checks it: an error, or its verified content. */
  method Fill(disk: Disk, temp: string, body: seq<Read>, cancelled: nat -> bool, options: Options)
    returns (error: Option<Error>)
    requires temp in disk.files && disk.files[temp] == [] && 0 <= options.maxBytes
    modifies disk
    ensures temp in disk.files && disk.files == old(disk.files)[temp := disk.files[temp]]
    ensures error.None? ==> AllData(body) && disk.files[temp] == Delivered(body) && Checked(Delivered(body), options)
    ensures error.None? ==> disk.calls == old(disk.calls) + |body| + 4
    ensures Undisturbed(disk.fails, old(disk.calls), |body| + 4, cancelled) ==> error == ContentError(body, options)
    ensures error == Some(RequestTimeout) ==> exists k :: cancelled(k)
    ensures cancelled(0) && !Fails(disk.fails, old(disk.calls)) ==> error == Some(RequestTimeout)
  {
    WholeBody(body);
    var ok := disk.Call();                                   // chmod
    if !ok { return Some(IOFailure); }
    var written;
    error, written := Copy(disk, temp, body, cancelled, options.maxBytes);
    if error.Some? { return; }
    if written > options.maxBytes { return Some(ArtifactTooLarge); }
    ok := disk.Call();                                       // sync
    if !ok { return Some(IOFailure); }
    ok := disk.Call();                                       // close
    if !ok { return Some(IOFailure); }
    var readable := disk.Call();                             // the validator's open and stat
    error := Check(disk.files[temp], options, readable);
  }

  /** Links the checked file to its destination and then drops its temporary name. */
  method Commit(disk: Disk, temp: string, destination: string) returns (linked: bool, removeTemp: bool)
    requires temp in disk.files && temp != destination
    modifies disk
    ensures linked ==> destination !in old(disk.files)
    ensures !Fails(disk.fails, old(disk.calls)) && !Fails(disk.fails, old(disk.calls) + 1)
            && destination !in old(disk.files) ==>
              linked
    ensures linked ==> disk.calls == old(disk.calls) + 3 && removeTemp == Fails(disk.fails, old(disk.calls) + 2)
    ensures disk.files - {temp}
            == old(disk.files) - {temp} + if linked then map[destination := old(disk.files)[temp]] else map[]
    ensures !removeTemp ==> temp !in disk.files
  {
    var ok := disk.Call();                                   // lstat
    if !ok { return false, true; }
    linked := disk.Link(temp, destination);
    if !linked { return false, true; }
    var removed := disk.Remove(temp);
    removeTemp := !removed;
  }

  /** The deferred cleanup. */
  method CleanUp(disk: Disk, temp: string, removeTemp: bool)
    requires !removeTemp ==> temp !in disk.files
    modifies disk
    ensures disk.files - {temp} == old(disk.files) - {temp}
    ensures Faultless(disk.fails) ==> temp !in disk.files
    ensures disk.calls == old(disk.calls) + if removeTemp then 2 else 1
  {
    var ok := disk.Call();                                   // close again
    if removeTemp { ok := disk.Remove(temp); }
  }

  /** The calls of a write that gets through, when the temporary name is dropped at the first attempt. */
  function WriteCalls(body: seq<Read>): nat { |body| + 10 }

  /** The part of the write that owns a temporary file. */
  method WriteThrough(disk: Disk, temp: string, body: seq<Read>, cancelled: nat -> bool, options: Options)
    returns (linked: bool, error: Option<Error>)
    requires temp in disk.files && disk.files[temp] == [] && temp != options.destination && 0 <= options.maxBytes
    modifies disk
    ensures linked <==> error.None?
    ensures disk.files - {temp}
            == old(disk.files) - {temp} + if linked then map[options.destination := Delivered(body)] else map[]
    ensures linked ==> options.destination !in old(disk.files) && AllData(body) && Checked(Delivered(body), options)
    ensures Faultless(disk.fails) ==> temp !in disk.files
    ensures linked ==>
              disk.calls == old(disk.calls) + WriteCalls(body) - 2
                            + if Fails(disk.fails, old(disk.calls) + |body| + 6) then 1 else 0
    ensures Undisturbed(disk.fails, old(disk.calls), |body| + 6, cancelled) ==>
              error == if ContentError(body, options).Some? then ContentError(body, options)
                       else if options.destination in old(disk.files) then Some(IOFailure) else None
    ensures error == Some(RequestTimeout) ==> exists k :: cancelled(k)
    ensures cancelled(0) && !Fails(disk.fails, old(disk.calls)) ==> error == Some(RequestTimeout)
  {
    error := Fill(disk, temp, body, cancelled, options);
    linked := false;
    var removeTemp := true;
    if error.None? {
      linked, removeTemp := Commit(disk, temp, options.destination);
      if !linked { error := Some(IOFailure); }
    }
    CleanUp(disk, temp, removeTemp);
  }

  /** The body passes the checks and the destination is free. */
  ghost predicate Due(files: map<string, seq<byte>>, body: seq<Read>, options: Options) {
    options.destination != "" && options.destination !in files && AllData(body) && Checked(Delivered(body), options)
  }

  /** What a write is refused for when no call fails and nobody cancels. */
  function Refusal(files: map<string, seq<byte>>, body: seq<Read>, options: Options): Option<Error> {
    if options.destination == "" || options.maxBytes < 0 then Some(ConfigInvalid)
    else if ContentError(body, options).Some? then ContentError(body, options)
    else if options.destination in files then Some(IOFailure)
    else None
  }

  lemma DueIffNotRefused(files: map<string, seq<byte>>, body: seq<Read>, options: Options)
    ensures Due(files, body, options) <==> Refusal(files, body, options).None?
  {
    if options.maxBytes >= 0 { ContentErrorIff(body, options); }
  }

  /**
   Writes an artifact. An error leaves every file as it was, but for a temporary file
   that could not be removed; success adds the destination, which was free, and nothing else.
   While no call up to the link fails it succeeds exactly when the body passes the checks and
   the destination is free, and otherwise names the first thing that is wrong.
   */
  method WriteArtifact(disk: Disk, temp: string, body: seq<Read>, cancelled: nat -> bool, options: Options)
    returns (r: Result<Info>)
    requires temp !in disk.files && temp != options.destination
    modifies disk
    ensures r.Err? ==> disk.files - {temp} == old(disk.files)
    ensures r.Ok? ==>
              && disk.files - {temp} == old(disk.files)[options.destination := Delivered(body)]
              && Due(old(disk.files), body, options)
              && r.value == Info(options.destination, |Delivered(body)|, options.mime, options.expectedSHA256)
    ensures Faultless(disk.fails) ==> temp !in disk.files
    ensures r.Ok? ==>
              disk.calls == old(disk.calls) + WriteCalls(body)
                            + if Fails(disk.fails, old(disk.calls) + |body| + 8) then 1 else 0
    ensures Undisturbed(disk.fails, old(disk.calls), |body| + 8, cancelled) ==>
              match Refusal(old(disk.files), body, options) case None => r.Ok? case Some(error) => r == Err(error)
    ensures r == Err(RequestTimeout) ==> exists k :: cancelled(k)
    ensures (&& cancelled(0) && options.destination != "" && options.maxBytes >= 0
             && forall k :: old(disk.calls) <= k < old(disk.calls) + 3 ==> !Fails(disk.fails, k))
            ==> r == Err(RequestTimeout)
  {
    assert disk.files - {temp} == disk.files;
    if options.destination == "" || options.maxBytes < 0 { return Err(ConfigInvalid); }
    var ok := disk.Call();                                   // absolute path, directories
    if !ok { return Err(IOFailure); }
    ok := disk.Create(temp);
    if !ok { return Err(IOFailure); }
    assert disk.files - {temp} == old(disk.files);
    var linked, error := WriteThrough(disk, temp, body, cancelled, options);
    if !linked { return Err(error.value); }
    r := Ok(Info(options.destination, |Delivered(body)|, options.mime, options.expectedSHA256));
  }
}
