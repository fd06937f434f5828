/**
 `recording stop`: stop, download, verify, commit, and only then delete on the device.

 The device's answers are parameters; what is sent to it is logged. Every file call may
 fail, and the context may be cancelled at any read.
 */
module RecordingStopCommand {
  import opened Prelude
  import opened Artifact
  import SHA256
  import MP4

  const MAXIMUM_BYTES := 500 * 1024 * 1024

  datatype Stopped = Stopped(recordingID: Id, byteCount: int, sha256: string, durationMS: int)

  datatype Download = Download(contentLength: int, sha256: string, body: seq<Read>, closes: bool)

  datatype Request = StopRequest | OpenRequest(id: Id) | DeleteRequest(id: Id)

  /** What the device answers: None for a request that fails. */
  datatype Device = Device(stop: Option<Stopped>, open: Id -> Option<Download>, delete: bool)

  datatype Outcome = Saved(info: Info, recordingID: Id, durationMS: int, deviceFileDeleted: bool) | Failed(error: Error)

  /** The two checks of a download: its digest as text, and its structure. */
  datatype Checks = Checks(sha256: seq<byte> -> string, validator: seq<byte> -> bool)

  function WriteOptions(destination: string, sha256: string, checks: Checks): Options {
    Options(destination, "video/mp4", sha256, MAXIMUM_BYTES, checks.sha256, Some(checks.validator))
  }

  /** A file of the reported digest, no longer than the bound, that passes validation. */
  predicate HoldsRecording(files: map<string, seq<byte>>, destination: string, sha256: string, checks: Checks) {
    destination in files && Checked(files[destination], WriteOptions(destination, sha256, checks))
  }

  function HexDigest(content: seq<byte>): string { SHA256.Hex(SHA256.Hash(content)) }

  /** The checks the command uses. */
  const CHECKS := Checks(HexDigest, MP4.Plays)

  /** With them, the file is playable boxes and its SHA-256 is the digest whose text was reported. */
  lemma HeldRecordingIsGenuine(files: map<string, seq<byte>>, destination: string, recorded: seq<byte>)
    requires HoldsRecording(files, destination, HexDigest(recorded), CHECKS)
    ensures |files[destination]| <= MAXIMUM_BYTES && MP4.Acceptable(files[destination])
    ensures SHA256.Hash(files[destination]) == SHA256.Hash(recorded)
  {
    var content := files[destination];
    assert CHECKS.sha256(content) == HexDigest(content) && CHECKS.validator(content) == MP4.Plays(content);
    MP4.AcceptableIffPlays(content);
    SHA256.HexIsInjective(SHA256.Hash(content), SHA256.Hash(recorded));
  }

  /** The device answers both requests and the answers agree. */
  predicate Answers(device: Device) {
    && device.stop.Some? && device.open(device.stop.value.recordingID).Some?
    && var download := device.open(device.stop.value.recordingID).value;
    download.contentLength == device.stop.value.byteCount && download.sha256 == device.stop.value.sha256
  }

  function DownloadOf(device: Device): Download
    requires Answers(device)
  {
    device.open(device.stop.value.recordingID).value
  }

  /** The download was written to its destination, which was free, and passed the checks. */
  ghost predicate Committable(device: Device, files: map<string, seq<byte>>, destination: string, checks: Checks) {
    && Answers(device)
    && Due(files, DownloadOf(device).body, WriteOptions(destination, device.stop.value.sha256, checks))
  }

  function BodyLength(device: Device): nat {
    if Answers(device) then |DownloadOf(device).body| else 0
  }

  /** What the command is refused for when no file call fails and nobody cancels. */
  function Refused(device: Device, files: map<string, seq<byte>>, destination: string, checks: Checks): Option<Error> {
    if device.stop.None? || device.open(device.stop.value.recordingID).None? then Some(IOFailure)
    else if !Answers(device) then Some(ChecksumMismatch)
    else
      var refusal := Refusal(files, DownloadOf(device).body, WriteOptions(destination, device.stop.value.sha256, checks));
      if refusal.Some? then refusal else if !DownloadOf(device).closes then Some(IOFailure) else None
  }

  /**
   The device is asked to delete only while the destination holds the verified recording.
   A failure sends no such request. When the body's close fails after the commit, `removal` is
   the number of the call that then removes the committed file; a failure leaves the files as
   they were if and only if there was no such call or it did not fail.
   */
  method StopRecording(disk: Disk, destination: string, temp: string, device: Device, cancelled: nat -> bool, checks: Checks)
    returns (outcome: Outcome, sent: seq<Request>, ghost atDelete: Option<map<string, seq<byte>>>,
            ghost removal: Option<nat>)
    requires temp !in disk.files && temp != destination
    modifies disk
    ensures atDelete.Some? <==> exists id :: DeleteRequest(id) in sent
    ensures atDelete.Some? ==>
              && device.stop.Some? && outcome.Saved? && atDelete.value == disk.files
              && HoldsRecording(atDelete.value, destination, device.stop.value.sha256, checks)
              && DeleteRequest(device.stop.value.recordingID) in sent
    ensures outcome.Saved? ==>
              && atDelete.Some? && destination !in old(disk.files)
              && disk.files - {temp} == old(disk.files)[destination := disk.files[destination]]
              && outcome.info.byteCount == |disk.files[destination]| && outcome.info.sha256 == device.stop.value.sha256
              && outcome.deviceFileDeleted == device.delete
    ensures outcome.Saved? ==>
              && outcome.recordingID == device.stop.value.recordingID && outcome.durationMS == device.stop.value.durationMS
              && outcome.info.path == destination && outcome.info.mime == "video/mp4"
    ensures sent == if device.stop.None? then [StopRequest]
                    else [StopRequest, OpenRequest(device.stop.value.recordingID)]
                         + if outcome.Saved? then [DeleteRequest(device.stop.value.recordingID)] else []
    ensures outcome.Failed? ==> atDelete.None?
    ensures outcome == Failed(RequestTimeout) ==> exists k :: cancelled(k)
    ensures Undisturbed(disk.fails, old(disk.calls), BodyLength(device) + 8, cancelled) ==>
              match Refused(device, old(disk.files), destination, checks)
              case None => outcome.Saved?
              case Some(error) => outcome == Failed(error)
    ensures outcome.Failed? ==>
              (disk.files - {temp} == old(disk.files) <==> !(removal.Some? && Fails(disk.fails, removal.value)))
    ensures removal.Some? ==>
              && outcome == Failed(IOFailure) && Committable(device, old(disk.files), destination, checks)
              && !DownloadOf(device).closes
              && removal.value == old(disk.calls) + RemovalCall(disk.fails, old(disk.calls), DownloadOf(device).body)
    ensures removal.Some? && Fails(disk.fails, removal.value) ==>
              && disk.files - {temp} == old(disk.files)[destination := Delivered(DownloadOf(device).body)]
              && HoldsRecording(disk.files, destination, device.stop.value.sha256, checks)
    ensures Committable(device, old(disk.files), destination, checks)
            && Undisturbed(disk.fails, old(disk.calls), |DownloadOf(device).body| + 8, cancelled)
            ==> if DownloadOf(device).closes then outcome.Saved? else removal.Some?
    ensures Faultless(disk.fails) && outcome.Failed? ==> disk.files == old(disk.files)
  {
    atDelete, removal := None, None;
    assert disk.files - {temp} == disk.files;
    sent := [StopRequest];
    if device.stop.None? { return Failed(IOFailure), sent, None, None; }
    var stopped := device.stop.value;
    sent := sent + [OpenRequest(stopped.recordingID)];
    var found := device.open(stopped.recordingID);
    if found.None? { return Failed(IOFailure), sent, None, None; }
    var download := found.value;
    if download.contentLength != stopped.byteCount || download.sha256 != stopped.sha256 {
      return Failed(ChecksumMismatch), sent, None, None;
    }
    var options := WriteOptions(destination, stopped.sha256, checks);
    DueIffNotRefused(disk.files, download.body, options);
    var written := WriteArtifact(disk, temp, download.body, cancelled, options);
    if written.Err? { return Failed(written.error), sent, None, None; }
    ghost var content := Delivered(download.body);
    assert (disk.files - {temp})[destination] == content == disk.files[destination];
    if !download.closes {
      removal := Some(disk.calls);
      ghost var committed := disk.files;
      var removed := disk.Remove(destination);
      if removed { WithoutDestination(old(disk.files), committed, destination, temp, content); }
      assert forall id :: DeleteRequest(id) !in sent;
      return Failed(IOFailure), sent, None, removal;
    }
    atDelete := Some(disk.files);
    sent := sent + [DeleteRequest(stopped.recordingID)];
    assert sent[2] == DeleteRequest(stopped.recordingID);
    return Saved(written.value, stopped.recordingID, stopped.durationMS, device.delete), sent, atDelete, None;
  }

  /** How many calls the write takes before the removal of what it committed. */
  function RemovalCall(fails: nat -> bool, first: nat, body: seq<Read>): nat {
    WriteCalls(body) + if Fails(fails, first + |body| + 8) then 1 else 0
  }

  lemma WithoutDestination(before: map<string, seq<byte>>, committed: map<string, seq<byte>>, destination: string,
                           temp: string, content: seq<byte>)
    requires destination !in before && temp !in before && committed - {temp} == before[destination := content]
    ensures committed - {destination} - {temp} == before
  {
    assert committed - {destination} - {temp} == (committed - {temp}) - {destination};
  }

  // ------------------------------------------------------------------ a file left behind

  /** A brand box and an empty movie box make the least recording the command's check accepts. */
  lemma TwoBoxesPlay(brand: MP4.Box, movie: MP4.Box) returns (content: seq<byte>)
    requires brand.form.Short? && brand.kind == MP4.FTYP && brand.payload == [0x69, 0x73, 0x6f, 0x6d, 0, 0, 0, 0]
    requires movie.form.Short? && movie.kind == MP4.MOOV && movie.payload == []
    ensures CHECKS.validator(content) && content == MP4.Write([brand, movie])
  {
    var boxes := [brand, movie];
    content := MP4.Write(boxes);
    assert MP4.BrandAt(brand.payload, 0) by { assert brand.payload[0..4] == [0x69, 0x73, 0x6f, 0x6d]; }
    assert MP4.Playable(boxes) by { assert boxes[1].kind == MP4.MOOV; }
    MP4.ParseWritten(boxes);
  }

  lemma LeastRecording() returns (content: seq<byte>)
    ensures CHECKS.validator(content)
  {
    content := TwoBoxesPlay(MP4.Box(MP4.Short, MP4.FTYP, [0x69, 0x73, 0x6f, 0x6d, 0, 0, 0, 0]),
        MP4.Box(MP4.Short, MP4.MOOV, []));
  }

  /** A device that stopped this recording and sends it in one piece, on a body whose close fails. */
  function DeviceWith(content: seq<byte>, sha256: string): Device {
    Device(Some(Stopped("id", |content|, sha256, 1_000)),
        _ => Some(Download(|content|, sha256, [Data(content)], false)), true)
  }

  /**
   A run that fails and does not leave the files as they were, for any recording the checks
   accept: it is written, the body's close fails, and so does the twelfth call, which was to
   remove the file again.
   */
  method CommittedFileIsLeft(content: seq<byte>, checks: Checks) returns (disk: Disk, outcome: Outcome)
    requires checks.validator(content) && |content| <= MAXIMUM_BYTES
    ensures outcome == Failed(IOFailure) && (forall k :: Fails(disk.fails, k) <==> k == 11)
    ensures disk.files - {"temp"} == map["out.mp4" := content]
  {
    disk := new Disk(map[], k => k == 11);
    var device := DeviceWith(content, checks.sha256(content));
    OneRead(content);
    assert Answers(device) && DownloadOf(device).body == [Data(content)] && !DownloadOf(device).closes;
    assert Checked(content, WriteOptions("out.mp4", checks.sha256(content), checks));
    var sent;
    ghost var atDelete, removal;
    outcome, sent, atDelete, removal := StopRecording(disk, "out.mp4", "temp", device, _ => false, checks);
    assert removal == Some(11);
  }

  lemma OneRead(content: seq<byte>)
    ensures Delivered([Data(content)]) == content && AllData([Data(content)])
  {
    assert [Data(content)][..0] == [] && Delivered([]) == [];
  }
}
