# AppPilot: proofs about its core protocols

AppPilot lets a command line on a Mac drive a Debug build of an iOS app: a small HTTP
server inside the app answers requests, records the screen, and runs registered
actions; the command line downloads and verifies what was recorded and scaffolds the
app-side package. This project models the parts of it whose correctness depends on
order, concurrency or exact formats, and proves what they promise. Run
`dafny verify dfyconfig.toml` here.

## How the models are built

* A source file that changes state is a class with the source's fields. Each method is
  one operation, or one stretch between two suspension points of an actor; it keeps the
  class's invariant and is proved equal to a step function on the values of those
  fields. Theorems about whole runs are lemmas about the step functions.
* What a step means is told without the step function: by the list of events that
  happened (what the server answered, what the store read back, which parts arrived), by
  a grammar, by bits, or by what a run that nothing disturbs ends in.
* An actor's callers, timers, callbacks and operations are unbounded in number and are
  resumed in any order. Answers of the environment (ReplayKit, files, the network, the
  clock, a library) are parameters of the steps.
* The scaffold transaction and the artifact writer run on file systems in which every
  call may fail, as arbitrary predicates of the call's number decide.

| files | subject |
|---|---|
| `RecordingStateMachine`, `RecordingSampleIntake`, `TimeoutRaceGate`, `RecordingController*`, `RecordingRetentionPolicy` | recording on the device |
| `SHA256`, `SHA256Facts`, `BigEndian`, `MP4`, `Artifact`, `RecordingStopCommand` | the consumer end: digest, structure, safe write, delete last |
| `FileTree`, `FileTrace`, `ScaffoldLog`, `ScaffoldTransaction`, `ScaffoldApply` | the scaffold transaction |
| `HTTPText`, `HTTPRequestParser`, `HTTPChunking`, `HTTPRoundTrip`, `HTTPGrammar` | the incremental HTTP/1.1 request parser (RFC 9112) |
| `RuntimeLifecycle`, `RuntimeHistory`, `BootstrapLifecycle`, `BootstrapHistory`, `BootstrapTermination`, `NetworkDebugServer`, `NetworkDelivery` | start and stop under concurrency |
| `DebugActionRegistry`, `RegistryHistory`, `ProtocolActions`, `ActionsCommand`, `TextOrder` | registration generations and the client's list-then-activate check |

## What stands behind the statements

* Nothing is assumed of the clock. Two promises of the recording controller depend on
  it, and their exact conditions are below; everything else holds whatever it reads.
* Recording identifiers are fresh, and 64-bit instants are far from overflow.
* Wire text is a sequence of bytes; header text is ASCII; whether a head is valid UTF-8
  is an arbitrary predicate of it.
* Inode numbers are not reused during a transaction. Other processes create nodes and
  move nodes over files and links, at any moment; they do not delete, do not move
  anything over a directory, and stay out of the private staging directory. The
  removals of a rollback succeed.
* An action identifier must match its expression from the first to the last character.
* JSON numbers are doubles: exact up to 2^53 and never out of order. The registry's 64-bit
  generation does not wrap during an activation.

## Where a promise has a condition

* Alone, a scaffold transaction in whose way nothing stands succeeds if and only if none of
  its calls fails (`CommitFiles`, `Apply`).
* Alone, a failed scaffold transaction restores the tree if and only if no call failed between
  a successful Mkdirat and the recording of that directory (`LeakFault`);
  `UnrecordedDirectoryStays` is a run in which one did.
* The controller's fields agree with its phase throughout a run if and only if every
  reading on which that depends is not older than the machine's last event
  (`FieldsAgreeIff`); `BackwardClockWedges` is a run in which one is. While one records, its
  automatic stop and the wakeup of a reported failure are always pending if and only if no
  last pending one of them runs with such a reading (`NoFailureIsLostIff`); in
  `BackwardClockLosesAFailure` one does. A clock that never goes back meets both conditions
  (`MonotoneClockSuffices`).
* A wire that carries more than one request is answered by its first request if a chunk
  ends exactly there and rejected otherwise (`TrailingBytesAnswer`; `OneByteTooMany` is
  one, cut in two ways); every other wire is answered the same in all chunkings.
* The check of the generation in `actions activate` tells the listed registration from
  every other if and only if no generation handed out between the two requests rounds to
  the same double (`ToldApartIff`); in `RoundedGenerationsCollide`, after 2^53
  registrations, one does, and the wrong role is reported.
* A failed `recording stop` leaves its destination as it was if and only if the removal
  of the committed file after a failed close was not made or did not fail
  (`StopRecording`); in `CommittedFileIsLeft` it fails.

## Model

| member | source | states |
|---|---|---|
| RecordingStateMachine.StateMachine.ApplyEvent | swift/ap-ios-debug-kit/Sources/APIOSDebugCore/RecordingStateMachine.swift:93-164 | the mutating apply is the transition function: accepted events change exactly what it says, rejected ones nothing |
| RecordingStateMachine.RunWellFormed | swift/ap-ios-debug-kit/Sources/APIOSDebugCore/RecordingStateMachine.swift:83-219 | over every event sequence the timestamps present are those the phase implies and start ≤ capture ≤ stop ≤ last |
| RecordingStateMachine.Conservation | swift/ap-ios-debug-kit/Sources/APIOSDebugCore/RecordingStateMachine.swift:93-164 | accepted starts = finishes + failures + 1 while active; finishes = deletions + 1 while ready; failures = resets + 1 while failed |
| RecordingStateMachine.RankRises | swift/ap-ios-debug-kit/Sources/APIOSDebugCore/RecordingStateMachine.swift:93-164 | every accepted event raises the phase or returns from an end phase to idle |
| RecordingStateMachine.ReturnsToIdle | swift/ap-ios-debug-kit/Sources/APIOSDebugCore/RecordingStateMachine.swift:93-164 | any run of accepted events is back in idle within as many events as the phase has left, at most five |
| RecordingStateMachine.AcceptedIff | swift/ap-ios-debug-kit/Sources/APIOSDebugCore/RecordingStateMachine.swift:93-164 | after every event sequence the next event is accepted if and only if it can follow the accepted ones since the machine was last idle |
| RecordingStateMachine.RunIsItsSession | swift/ap-ios-debug-kit/Sources/APIOSDebugCore/RecordingStateMachine.swift:83-219 | over every event sequence the machine is exactly what the accepted events since it was last idle say: each instant and field is that of one event |
| RecordingSampleIntake.RunIsOrdered | swift/ap-ios-debug-kit/Sources/APIOSDebugKit/RecordingController.swift:385-440 | for any interleaving: appended samples are a prefix of the accepted ones, equal to them after a clean drain; nothing is accepted after the intake closed; the first failure stays |
| RecordingSampleIntake.DrainTerminates | swift/ap-ios-debug-kit/Sources/APIOSDebugKit/RecordingController.swift:395-428 | a closed intake whose writer keeps accepting is drained completely |
| RecordingSampleIntake.RunTakes | swift/ap-ios-debug-kit/Sources/APIOSDebugKit/RecordingController.swift:385-423 | in every run the accepted samples are exactly those offered before the first closing, and the failure kept is the first one reported |
| RecordingSampleIntake.WorkerEndsBecause | swift/ap-ios-debug-kit/Sources/APIOSDebugKit/RecordingController.swift:395-421 | the worker threw only on a refused append and returned only after the intake was closed |
| RecordingSampleIntake.SampleIntake.FinishAcceptingAndDrain | swift/ap-ios-debug-kit/Sources/APIOSDebugKit/RecordingController.swift:424-428 | the drain returns normally exactly when the worker never threw and no capture failure was reported before it or while the worker is awaited, and then everything accepted was appended |
| RecordingSampleIntake.SampleIntake.EnqueueSample | swift/ap-ios-debug-kit/Sources/APIOSDebugKit/RecordingController.swift:403-408 | a sample is buffered at the end if and only if the intake still accepts |
| TimeoutRaceGate.ResumedExactlyOnce | swift/ap-ios-debug-kit/Sources/APIOSDebugKit/RecordingController.swift:442-477 | in every order of install and resolve the continuation is resumed exactly once, with the first result |
| TimeoutRaceGate.LoserIsCancelled | swift/ap-ios-debug-kit/Sources/APIOSDebugKit/RecordingController.swift:452-476 | once both handles are handed over and the race is decided, the losing one is cancelled, in either order |
| TimeoutRaceGate.WinnerIsCancelledIff | swift/ap-ios-debug-kit/Sources/APIOSDebugKit/RecordingController.swift:452-476 | the winning task is cancelled if and only if the race was decided before its handle was handed over |
| TimeoutRaceGate.RaceGate.ResolveWith | swift/ap-ios-debug-kit/Sources/APIOSDebugKit/RecordingController.swift:464-476 | the locked resolve is the gate's transition, and says whether this call won |
| RecordingControllerSafety.SlotIsTheGate | swift/ap-ios-debug-kit/Sources/APIOSDebugKit/RecordingController.swift:263-283 | the one-place slot the controller model waits on behaves as the race gate does |
| RecordingControllerActor.Controller.Start | swift/ap-ios-debug-kit/Sources/APIOSDebugKit/RecordingController.swift:106-140 | a caller's start up to its race, with every early throw, is one turn and keeps the invariant |
| RecordingControllerActor.Controller.StartCapture | swift/ap-ios-debug-kit/Sources/APIOSDebugKit/RecordingController.swift:308-320 | when source.start is called, no other start and no stop of a late start is outstanding |
| RecordingControllerActor.Controller.ResumeStart | swift/ap-ios-debug-kit/Sources/APIOSDebugKit/RecordingController.swift:141-158 | publication, failure seen at publication, timer and catch block are one turn and keep the invariant |
| RecordingControllerActor.Controller.StartCaptureReturned | swift/ap-ios-debug-kit/Sources/APIOSDebugKit/RecordingController.swift:308-339 | a returned capture start is settled, discarded when late, or aborted when a failure was seen; the invariant is kept |
| RecordingControllerActor.Controller.Stop | swift/ap-ios-debug-kit/Sources/APIOSDebugKit/RecordingController.swift:160-175 | stop up to its race, called by anybody or by a start, and what it leaves when the machine refuses |
| RecordingControllerActor.Controller.ResumeStop | swift/ap-ios-debug-kit/Sources/APIOSDebugKit/RecordingController.swift:176-198 | finalization of the file, writerFinished, and the catch block are one turn; a recording that is ready then holds every accepted sample, and StopAnswersTheMetadata says what its metadata is |
| RecordingControllerActor.Controller.StopIfCurrentRecording | swift/ap-ios-debug-kit/Sources/APIOSDebugKit/RecordingController.swift:304-307 | timers and failure callbacks stop only the recording they belong to |
| RecordingControllerActor.Controller.DeleteRecording | swift/ap-ios-debug-kit/Sources/APIOSDebugKit/RecordingController.swift:216-224 | deleting the ready recording returns to idle and clears the fields; the invariant is kept |
| RecordingControllerActor.Controller.Perform | swift/ap-ios-debug-kit/Sources/APIOSDebugKit/RecordingController.swift:106-356 | whichever enabled turn the executor runs, the fields of the actor take exactly that turn and keep the invariant, so what is proved of runs holds of the class |
| RecordingControllerInvariant.StepKeepsInv | swift/ap-ios-debug-kit/Sources/APIOSDebugKit/RecordingController.swift:106-356 | every turn of every caller, callback, timer and operation keeps the invariant, whatever the clock reads |
| RecordingControllerInvariant.RunKeepsInv | swift/ap-ios-debug-kit/Sources/APIOSDebugKit/RecordingController.swift:106-356 | at every suspension point of every run, whatever the clock reads, the fields agree with the machine's phase or are cleared under a phase that a stale reading left behind |
| RecordingControllerSafety.StartsNeverOverlap | swift/ap-ios-debug-kit/Sources/APIOSDebugKit/RecordingController.swift:113-140 | in every run: whenever a capture start may be issued, no other start, and no stop of a late start, is outstanding |
| RecordingControllerSafety.LateStartIsStoppedFirst | swift/ap-ios-debug-kit/Sources/APIOSDebugKit/RecordingController.swift:325-333 | in every run: a start that succeeded after its attempt was over has had its stop return before any other start is issued |
| RecordingControllerSafety.NoFailureIsLostIff | swift/ap-ios-debug-kit/Sources/APIOSDebugKit/RecordingController.swift:147-156 | in any run a recording always has its automatic stop pending, and with a reported failure also a wakeup, if and only if no last pending one runs with a reading older than the machine's last event |
| RecordingControllerSafety.WakeupStopsTheRecordingIff | swift/ap-ios-debug-kit/Sources/APIOSDebugKit/RecordingController.swift:160-175 | the wakeup or timer of a current recording begins its stop if and only if its reading is current |
| RecordingControllerSafety.FailureBarsReady | swift/ap-ios-debug-kit/Sources/APIOSDebugKit/RecordingController.swift:410-428 | in every run a failure reported before the drain's check keeps that attempt from ever being the ready recording |
| RecordingControllerSafety.ReadyHoldsEverySample | swift/ap-ios-debug-kit/Sources/APIOSDebugKit/RecordingController.swift:169-191 | a ready recording's writer holds every accepted sample, and its id is the active one |
| RecordingControllerSafety.SamplesInOrder | swift/ap-ios-debug-kit/Sources/APIOSDebugKit/RecordingController.swift:395-408 | in every run each attempt's appended samples are a prefix of its accepted ones |
| RecordingControllerSafety.StopFromStartFails | swift/ap-ios-debug-kit/Sources/APIOSDebugKit/RecordingController.swift:142-146 | the stop a failing start begins never succeeds, so that start never goes on to arm its timer |
| RecordingControllerSafety.StaleCallbackStopsNothing | swift/ap-ios-debug-kit/Sources/APIOSDebugKit/RecordingController.swift:304-307 | a timer or callback of another attempt changes no field and no other attempt |
| RecordingControllerSafety.StopGuardFailsIff | swift/ap-ios-debug-kit/Sources/APIOSDebugKit/RecordingController.swift:166-168 | while the machine records, the guard on missing fields passes if and only if the fields agree with the phase |
| RecordingControllerSafety.FieldsAgreeIff | swift/ap-ios-debug-kit/Sources/APIOSDebugKit/RecordingController.swift:106-198 | in any run the fields agree with the phase in every state if and only if every reading on which that depends is current |
| RecordingControllerSafety.MonotoneClockSuffices | swift/ap-ios-debug-kit/Sources/APIOSDebugKit/RecordingController.swift:106-198 | under a clock that never goes back all those readings are current: the fields always agree and no failure is lost |
| RecordingControllerSafety.BackwardClockWedges | swift/ap-ios-debug-kit/Sources/APIOSDebugKit/RecordingController.swift:192-197 | a run with a backward clock that ends in phase recording with cleared fields |
| RecordingControllerSafety.BackwardClockLosesAFailure | swift/ap-ios-debug-kit/Sources/APIOSDebugKit/RecordingController.swift:304-307 | a run with a backward clock in which a reported failure stops nothing and no wakeup is left |
| RecordingControllerOutcome.StopAnswersTheMetadata | swift/ap-ios-debug-kit/Sources/APIOSDebugKit/RecordingController.swift:176-198 | in every run the last turn of a stop ends in ready if and only if its race was won and the store read back 1 to 500 MiB; the recording then has that byte count and digest, was created when the stop was requested, and lasts from capture start to then, as the status says |
| RecordingControllerOutcome.ReadyRanItsCourse | swift/ap-ios-debug-kit/Sources/APIOSDebugKit/RecordingController.swift:106-198 | a ready recording was started, published at the instant its duration counts from, asked to stop when it was created, stopped, drained, finished and stored with the bytes and digest it names |
| RecordingControllerOutcome.FailureCodes | swift/ap-ios-debug-kit/Sources/APIOSDebugKit/RecordingController.swift:358-377 | a failed start or stop carries the code of the deadline that won its race, and the other code when none did |
| RecordingControllerOutcome.DeadlinesPassed | swift/ap-ios-debug-kit/Sources/APIOSDebugKit/RecordingController.swift:263-302 | a race is lost to a deadline only if that deadline passed |
| RecordingControllerOutcome.DeletedIsIdle | swift/ap-ios-debug-kit/Sources/APIOSDebugKit/RecordingController.swift:216-224 | in every run, deleting leads to an idle machine with cleared fields if the ready recording was removed or is the one found, and changes nothing otherwise |
| RecordingControllerOutcome.CleanedIsIdle | swift/ap-ios-debug-kit/Sources/APIOSDebugKit/RecordingController.swift:226-256 | a cleanup does so if it removed the ready recording, and changes nothing otherwise |
| RecordingControllerOutcome.OnlyTheCurrentAccepts | swift/ap-ios-debug-kit/Sources/APIOSDebugKit/RecordingController.swift:385-408 | no attempt but the active one takes samples |
| RecordingControllerOutcome.FailureBarsPublication | swift/ap-ios-debug-kit/Sources/APIOSDebugKit/RecordingController.swift:315-338 | an attempt that failed before its capture start returned never comes to record, whatever else happens |
| RecordingControllerOutcome.UndisturbedRecordingIsReady | swift/ap-ios-debug-kit/Sources/APIOSDebugKit/RecordingController.swift:106-198 | from any idle state, with any samples: a recording that nothing disturbs becomes ready with exactly those samples and their metadata |
| RecordingControllerOutcome.StartIsTakenUpIff | swift/ap-ios-debug-kit/Sources/APIOSDebugKit/RecordingController.swift:106-140 | a start begins an attempt if and only if its duration is in bounds, no earlier start is unsettled, the machine is idle or failed, and the store and capture are available; then it is the current one, and otherwise no attempt changes |
| RecordingRetentionPolicy.IdentifiersToDelete | swift/ap-ios-debug-kit/Sources/APIOSDebugCore/RecordingRetentionPolicy.swift:14-35 | the result is exactly the deleted identifiers of the order-free policy, each once, and the same list for every order a sort may leave |
| RecordingRetentionPolicy.KeepFirsts | swift/ap-ios-debug-kit/Sources/APIOSDebugCore/RecordingRetentionPolicy.swift:23-34 | the closures that insert into a set keep the first key of every identifier not yet seen |
| RecordingRetentionPolicy.PlanDeletes | swift/ap-ios-debug-kit/Sources/APIOSDebugCore/RecordingRetentionPolicy.swift:18-34 | an identifier is deleted if and only if it has an unfinished or expired entry or is fresh and older than three fresh ones |
| RecordingRetentionPolicy.PlanIsUnique | swift/ap-ios-debug-kit/Sources/APIOSDebugCore/RecordingRetentionPolicy.swift:18-40 | the result depends only on the multiset of entries |
| RecordingRetentionPolicy.SurvivorsAreFresh | swift/ap-ios-debug-kit/Sources/APIOSDebugCore/RecordingRetentionPolicy.swift:19-22 | what survives is ready and younger than thirty minutes |
| RecordingRetentionPolicy.AtMostThreeSurvive | swift/ap-ios-debug-kit/Sources/APIOSDebugCore/RecordingRetentionPolicy.swift:24-29 | at most three identifiers survive |
| RecordingRetentionPolicy.DroppedAreOlder | swift/ap-ios-debug-kit/Sources/APIOSDebugCore/RecordingRetentionPolicy.swift:28-29 | whatever is dropped for overflow is older than every survivor |
| RecordingRetentionPolicy.RerunDeletesNothing | swift/ap-ios-debug-kit/Sources/APIOSDebugCore/RecordingRetentionPolicy.swift:14-35 | the policy applied to what it left deletes nothing |
| RecordingRetentionPolicy.DeletionIsMonotone | swift/ap-ios-debug-kit/Sources/APIOSDebugCore/RecordingRetentionPolicy.swift:21-44 | as time passes the deleted set only grows |
| SHA256.Digest | swift/ap-ios-debug-kit/Sources/APIOSDebugCore/SHA256.swift:8-49 | the loops compute the recursive SHA-256 (FIPS 180-4) of every message under 2^61 bytes |
| SHA256.Padded | swift/ap-ios-debug-kit/Sources/APIOSDebugCore/SHA256.swift:19-23 | the appending loop produces the padding of section 5.1.1 |
| SHA256.ExpandSchedule | swift/ap-ios-debug-kit/Sources/APIOSDebugCore/SHA256.swift:32-36 | the schedule array holds W_16 to W_63 of section 6.2.2 |
| SHA256.RunRounds | swift/ap-ios-debug-kit/Sources/APIOSDebugCore/SHA256.swift:37-46 | the 64 turns over the working list are the 64 rounds |
| SHA256.BigEndianWord | swift/ap-ios-debug-kit/Sources/APIOSDebugCore/SHA256.swift:28-31 | folding with shifts and ors gives the big-endian value of four bytes |
| SHA256.PaddingIsMinimal | swift/ap-ios-debug-kit/Sources/APIOSDebugCore/SHA256.swift:21-22 | the padded length is the least block-aligned one with room for marker and length |
| SHA256.PaddingIsInjective | swift/ap-ios-debug-kit/Sources/APIOSDebugCore/SHA256.swift:19-23 | different messages are padded differently |
| SHA256.BitOfBitwise | swift/ap-ios-debug-kit/Sources/APIOSDebugCore/SHA256.swift:25-43 | each bit of an and, or, xor is that operation on the operands' bits |
| SHA256Facts.RotateBits | swift/ap-ios-debug-kit/Sources/APIOSDebugCore/SHA256.swift:25 | bit i of a rotated word is bit i + count modulo 32 of the word |
| SHA256Facts.ChChooses | swift/ap-ios-debug-kit/Sources/APIOSDebugCore/SHA256.swift:40 | each bit of the choice is the second word's where the first has a one, else the third's |
| SHA256Facts.MajIsMajority | swift/ap-ios-debug-kit/Sources/APIOSDebugCore/SHA256.swift:43 | each bit of the majority is set if and only if at least two of the three are |
| SHA256Facts.BigSigma0Bits | swift/ap-ios-debug-kit/Sources/APIOSDebugCore/SHA256.swift:42 | each bit is the parity of the three bits 2, 13 and 22 places on |
| SHA256Facts.BigSigma1Bits | swift/ap-ios-debug-kit/Sources/APIOSDebugCore/SHA256.swift:39 | each bit is the parity of the three bits 6, 11 and 25 places on |
| SHA256Facts.SmallSigma0Bits | swift/ap-ios-debug-kit/Sources/APIOSDebugCore/SHA256.swift:33 | each bit is the parity of those 7 and 18 places round and the one 3 places up, if there is one |
| SHA256Facts.SmallSigma1Bits | swift/ap-ios-debug-kit/Sources/APIOSDebugCore/SHA256.swift:34 | each bit is the parity of those 17 and 19 places round and the one 10 places up, if there is one |
| SHA256Facts.BitsDetermine | swift/ap-ios-debug-kit/Sources/APIOSDebugCore/SHA256.swift:25-43 | words with the same 32 bits are the same, so those statements fix the functions |
| SHA256Facts.RowsAreThePrimes | swift/ap-ios-debug-kit/Sources/APIOSDebugCore/SHA256.swift:9-18 | in its range each of the eight rows of the table below holds exactly the primes, up to 311 |
| SHA256Facts.ConstantsAreCubeRoots | swift/ap-ios-debug-kit/Sources/APIOSDebugCore/SHA256.swift:9-18 | the k-th constant is the first 32 bits of the fraction of the cube root of the k-th prime (FIPS 180-4 section 4.2.2) |
| SHA256Facts.InitialHashIsSquareRoots | swift/ap-ios-debug-kit/Sources/APIOSDebugCore/SHA256.swift:24 | the initial words are the first 32 bits of the fractions of the square roots of the first eight primes (section 5.3.3) |
| SHA256.HexDigest | swift/ap-ios-debug-kit/Sources/APIOSDebugCore/SHA256.swift:4-6 | the text is the digest in hexadecimal, always 64 lower-case digits |
| SHA256.HexIsInjective | swift/ap-ios-debug-kit/Sources/APIOSDebugCore/SHA256.swift:4-6 | different digests have different texts |
| MP4.Validate | cli/internal/artifact/mp4.go:26-68 | a regular file is accepted if and only if some well-formed, playable list of boxes is written as it; every read is in bounds and no 64-bit value wraps |
| MP4.ReadBox | cli/internal/artifact/mp4.go:70-96 | the header reader is the specification's reader of one box in all three size forms, with the same failures |
| MP4.ReadBrands | cli/internal/artifact/mp4.go:98-116 | the brand loop accepts whole brand lists and finds a compatible major or listed brand, not the minor version |
| MP4.ParseWritten | cli/internal/artifact/mp4.go:45-63 | writing boxes (ISO/IEC 14496-12 sections 4.2 and 4.3) and reading them back is the identity |
| MP4.WriteParsed | cli/internal/artifact/mp4.go:70-96 | what is read as boxes is well-formed and writes to the same file |
| MP4.AcceptableIffPlays | cli/internal/artifact/mp4.go:45-67 | so acceptability is decided by the walk |
| Artifact.Copy | cli/internal/artifact/artifact.go:66-81 | a copy without error and within the bound got the whole body; cancellation is asked before each read |
| Artifact.WriteArtifact | cli/internal/artifact/artifact.go:38-108 | an error leaves every other file as it was; success adds exactly the free destination with a complete, bounded, checked body, after a known number of calls; it succeeds whenever the checks pass, the destination is free and no call up to the link fails; undisturbed, the error is that of the first thing that is wrong; a timeout is answered only under cancellation, and always when that comes before the first read |
| Artifact.Commit | cli/internal/artifact/artifact.go:98-106 | the link never replaces a file; the temporary name is dropped or stays flagged for cleanup |
| RecordingStopCommand.StopRecording | cli/internal/cli/recording.go:84-122 | exactly the requests of the steps reached are sent, DELETE only while the destination holds the verified recording; success reports what the server and the file say; undisturbed, it fails only for, and with the error of, the first thing that is wrong; a failure sends no DELETE and leaves the files as they were if and only if the removal after a failed close was not made or did not fail |
| RecordingStopCommand.CommittedFileIsLeft | cli/internal/cli/recording.go:108-111 | a run in which that removal fails and the written file stays, for any recording the checks accept |
| RecordingStopCommand.HeldRecordingIsGenuine | cli/internal/cli/recording.go:101-113 | that file is playable boxes within the bound with the SHA-256 of what was recorded |
| ScaffoldTransaction.CommitFiles | cli/internal/scaffold/scaffold.go:413-475 | whatever fails and whoever acts, the nodes of others are the first tree overlaid with what other processes put there before each call, none overwritten or removed; success means no call failed and installs the plan, failure leaves no file; alone, a plan nothing stands in the way of succeeds if and only if no call fails, success adds exactly the plan, and failure restores the tree if and only if no call failed right after a Mkdirat |
| ScaffoldTransaction.CommitLoop | cli/internal/scaffold/scaffold.go:428-474 | the loop keeps both logs truthful and theirs untouched at every call, in any interference; it ends well only if no call failed, and then always when nothing stands in the way |
| ScaffoldTransaction.FreshPlanIsCommitted | cli/internal/scaffold/scaffold.go:413-475 | the same transaction as UnrecordedDirectoryStays, without the fault, succeeds |
| ScaffoldTransaction.EnsureDirectories | cli/internal/scaffold/scaffold.go:512-555 | on success the directory exists; missing ancestors are made and logged top-down; an unlogged one exists exactly after a failed open or stat |
| ScaffoldTransaction.UndoFiles | cli/internal/scaffold/scaffold.go:421-423 | the reverse loop removes every logged file that still is the logged node |
| ScaffoldTransaction.UndoDirs | cli/internal/scaffold/scaffold.go:424-426 | and every logged directory but those with something foreign or unlogged below |
| ScaffoldTransaction.InstalledExactly | cli/internal/scaffold/scaffold.go:428-474 | after success the tree is the old one plus the planned files, bytes and modes, and their missing ancestors |
| ScaffoldTransaction.RestoredIff | cli/internal/scaffold/scaffold.go:417-427 | after failure the tree is the old one if and only if no directory was left unrecorded |
| ScaffoldTransaction.HeldMustStay | cli/internal/scaffold/scaffold.go:635-640 | a directory with a foreign node below it cannot be removed |
| ScaffoldTransaction.UnrecordedDirectoryStays | cli/internal/scaffold/scaffold.go:530-552 | a failing run of the transaction on a tree without the root: the fifth call fails, and the root the fourth made survives the rollback |
| FileTrace.TraceKeepsTheirs | cli/internal/scaffold/scaffold.go:413-475 | over any run of calls every node of others is still there, or a file or link over which another process moved a newer node; no directory of theirs changes |
| FileTrace.TheirsAreOverlaid | cli/internal/scaffold/scaffold.go:413-475 | over any run of calls their nodes outside the staging directory are exactly the first ones overlaid with what was put there before each call |
| ScaffoldLog.FileUndone | cli/internal/scaffold/scaffold.go:421-423 | one compare-and-remove step of the file log keeps the undo invariant |
| ScaffoldLog.DirUndone | cli/internal/scaffold/scaffold.go:424-426 | one compare-and-remove step of the directory log keeps the undo invariant |
| ScaffoldLog.CommitUnderInterference | cli/internal/scaffold/scaffold.go:428-469 | other processes' operations keep the logs truthful |
| FileTree.World.RemoveIfSame | cli/internal/scaffold/scaffold.go:635-640 | compare-and-remove, as one step |
| ScaffoldApply.Apply | cli/internal/scaffold/scaffold.go:123-153 | whoever acts, the nodes of others are only overlaid with what other processes put there, and no staging stays; an invalid destination or a conflict changes nothing; a conflict is answered if and only if all destinations are valid and one holds something other than the planned bytes; success puts every missing file in place, failure leaves no file; Applied means that no call before the removal of the staging directory failed, and alone, on a tree with nothing in the way, is answered if and only if that is so; alone, success adds exactly what was missing, every destination then holds its planned bytes and the same plan finds every file unchanged, and failure restores the tree unless a directory was left unrecorded |
| ScaffoldApply.StageFiles | cli/internal/scaffold/scaffold.go:338-378 | the staging directory ends up with every file to be created, bytes and modes; after a failure, alone, the tree is as it was |
| ScaffoldApply.StageFile | cli/internal/scaffold/scaffold.go:356-365 | a staged file never replaces another and keeps those staged before |
| ScaffoldApply.GrownWithoutStaging | cli/internal/scaffold/scaffold.go:148-151 | removing the staging directory after the transaction changes nothing of what it installed |
| ScaffoldApply.Refresh | cli/internal/scaffold/scaffold.go:124-136 | every status is what the destination now holds, and any invalid destination ends the refresh |
| ScaffoldApply.CheckAncestors | cli/internal/scaffold/scaffold.go:298-336 | the walk from the root succeeds exactly when every existing ancestor is a directory |
| ScaffoldApply.RerunFindsNothingToDo | cli/internal/scaffold/scaffold.go:248-280 | after a successful application every destination holds its planned bytes and a refresh reports only unchanged files |
| HTTPRequestParser.Parser.Append | swift/ap-ios-debug-kit/Sources/APIOSDebugCore/HTTPRequestParser.swift:43-63 | after any chunk the answer is that of parsing everything received at once, which AcceptedIff and the lemmas after it describe |
| HTTPRequestParser.Parser.ParseHeadIfComplete | swift/ap-ios-debug-kit/Sources/APIOSDebugCore/HTTPRequestParser.swift:65-119 | the mutating head parser with its header loop is the head stage of the one-shot parser, whose every acceptance and refusal HTTPGrammar states |
| HTTPRequestParser.StageStable | swift/ap-ios-debug-kit/Sources/APIOSDebugCore/HTTPRequestParser.swift:65-119 | a parsed or rejected head stays so whatever follows |
| HTTPRequestParser.PrefixOutcome | swift/ap-ios-debug-kit/Sources/APIOSDebugCore/HTTPRequestParser.swift:43-63 | what any prefix of a wire answers, from what the wire answers |
| HTTPGrammar.AcceptedIff | swift/ap-ios-debug-kit/Sources/APIOSDebugCore/HTTPRequestParser.swift:43-142 | a wire is answered with a request if and only if it is, by a grammar written without the parser, one of four verbs, a path and HTTP/1.1, field lines, the empty line and exactly the declared body, within both limits, with no Transfer-Encoding, at most one Content-Length, one on POST and no body without POST; the request is the one it spells |
| HTTPGrammar.HeaderTooLargeIff | swift/ap-ios-debug-kit/Sources/APIOSDebugCore/HTTPRequestParser.swift:66-70 | the head is refused as too large if and only if more than the limit has arrived and the limit's bytes hold no empty line |
| HTTPGrammar.BadRequestLine | swift/ap-ios-debug-kit/Sources/APIOSDebugCore/HTTPRequestParser.swift:72-81 | a head that is not UTF-8, or whose first line is not three words ending in HTTP/1.1, is malformed |
| HTTPGrammar.BadFieldLine | swift/ap-ios-debug-kit/Sources/APIOSDebugCore/HTTPRequestParser.swift:91-108 | a head with a line that is no field by the grammar is malformed |
| HTTPGrammar.RefusedByTheFirstBrokenRule | swift/ap-ios-debug-kit/Sources/APIOSDebugCore/HTTPRequestParser.swift:78-119 | every other head gets the error of the first rule it breaks: version, verb, path, repeated length, transfer encoding, missing or unreadable length, size, body without POST |
| HTTPGrammar.FieldIff | swift/ap-ios-debug-kit/Sources/APIOSDebugCore/HTTPRequestParser.swift:91-109 | a line is read as a field if and only if it is a name, one colon and a value between blanks, the name in lower case |
| HTTPGrammar.PathIff | swift/ap-ios-debug-kit/Sources/APIOSDebugCore/HTTPRequestParser.swift:133-138 | a path is valid if and only if it is a slash and non-empty segments with no question mark or hash between slashes |
| HTTPGrammar.TransferEncodingIsRefused | swift/ap-ios-debug-kit/Sources/APIOSDebugCore/HTTPRequestParser.swift:112-114 | any printed request that also names Transfer-Encoding is refused for it |
| HTTPGrammar.RepeatedLengthIsRefused | swift/ap-ios-debug-kit/Sources/APIOSDebugCore/HTTPRequestParser.swift:103-106 | any printed request with two Content-Length fields, equal or not, is malformed |
| HTTPGrammar.MissingLengthIsRefused | swift/ap-ios-debug-kit/Sources/APIOSDebugCore/HTTPRequestParser.swift:121-125 | a POST without Content-Length is malformed |
| HTTPGrammar.OverlongBodyIsRefused | swift/ap-ios-debug-kit/Sources/APIOSDebugCore/HTTPRequestParser.swift:115-116 | a declared length over the limit is refused before any body arrives |
| HTTPGrammar.BodyWithoutPostIsRefused | swift/ap-ios-debug-kit/Sources/APIOSDebugCore/HTTPRequestParser.swift:117 | a declared body under another verb is malformed |
| HTTPChunking.Receive | swift/ap-ios-debug-kit/Sources/APIOSDebugKit/NetworkDebugServer.swift:188-205 | appending chunks until one answers gives the first answer of the split |
| HTTPChunking.ChunkingDoesNotMatter | swift/ap-ios-debug-kit/Sources/APIOSDebugCore/HTTPRequestParser.swift:43-119 | for every split into non-empty chunks: a request comes with the last chunk only, nil stays nil, and an error other than trailing bytes is the first answer |
| HTTPChunking.TrailingBytesAnswer | swift/ap-ios-debug-kit/Sources/APIOSDebugCore/HTTPRequestParser.swift:52-55 | the remaining wires: the first request if a chunk ends exactly there, else the trailing bytes error |
| HTTPChunking.AcceptedArePrefixFree | swift/ap-ios-debug-kit/Sources/APIOSDebugCore/HTTPRequestParser.swift:43-63 | no accepted request is a proper prefix of another |
| HTTPRoundTrip.PrintThenParse | swift/ap-ios-debug-kit/Sources/APIOSDebugCore/HTTPRequestParser.swift:65-142 | printing then parsing is the identity for a valid path, distinct lower-case colon-free names, trimmed values free of colon, CR and LF, no Transfer-Encoding, sizes within the limits, and a body only on POST with its length declared |
| HTTPRoundTrip.HeadersAre | swift/ap-ios-debug-kit/Sources/APIOSDebugCore/HTTPRequestParser.swift:87-110 | the parsed dictionary holds exactly the printed fields |
| HTTPRoundTrip.SendThenParse | swift/ap-ios-debug-kit/Sources/APIOSDebugCore/HTTPRequestParser.swift:65-142 | any body posted with its length in decimal after the other fields is parsed back, under exactly the headers sent |
| HTTPRoundTrip.BytesAfterARequest | swift/ap-ios-debug-kit/Sources/APIOSDebugCore/HTTPRequestParser.swift:52-55 | bytes after any printed request: a chunk that ends with the request gets it answered, one chunk gets the trailing bytes error |
| HTTPRoundTrip.OneByteTooMany | swift/ap-ios-debug-kit/Sources/APIOSDebugCore/HTTPRequestParser.swift:52-55 | one such wire, a status request and one byte, with both answers |
| RuntimeLifecycle.RunKeepsInv | swift/ap-ios-debug-kit/Sources/APIOSDebugKit/APIOSDebugRuntime.swift:171-263 | for any callers in any order: every generation but the current one is over, and somebody waits on each transition |
| RuntimeLifecycle.AtMostOneServer | swift/ap-ios-debug-kit/Sources/APIOSDebugKit/APIOSDebugRuntime.swift:171-263 | at most one server is live, none while stopped, and none is stopped twice |
| RuntimeLifecycle.StoppedExactlyOnce | swift/ap-ios-debug-kit/Sources/APIOSDebugKit/APIOSDebugRuntime.swift:197-235 | every server ever made is stopped exactly once before the lifecycle leaves its generation |
| RuntimeLifecycle.StopReturnsWithServerDown | swift/ap-ios-debug-kit/Sources/APIOSDebugKit/APIOSDebugRuntime.swift:193-220 | a stop caller resumes only when that generation's server is down |
| RuntimeLifecycle.StaleWaiterChangesNothing | swift/ap-ios-debug-kit/Sources/APIOSDebugKit/APIOSDebugRuntime.swift:237-255 | a waiter of an older generation changes nothing, and one that loops does exactly what a new start call would, while generations do not wrap |
| RuntimeLifecycle.StepsMakeProgress | swift/ap-ios-debug-kit/Sources/APIOSDebugKit/APIOSDebugRuntime.swift:171-191 | without new calls every step leaves less work, the retry loop included |
| RuntimeLifecycle.RunsEnd | swift/ap-ios-debug-kit/Sources/APIOSDebugKit/APIOSDebugRuntime.swift:171-255 | a run without new calls takes at most as many steps as there is work when it begins |
| RuntimeLifecycle.EveryCallerIsAnswered | swift/ap-ios-debug-kit/Sources/APIOSDebugKit/APIOSDebugRuntime.swift:171-255 | in every reachable state: nothing but a new call can happen if and only if nobody waits and the lifecycle is stopped or running |
| RuntimeLifecycle.WaitingIsNeverStuck | swift/ap-ios-debug-kit/Sources/APIOSDebugKit/APIOSDebugRuntime.swift:171-255 | while somebody waits some step is possible; at rest nobody waits and the lifecycle is stopped or running |
| RuntimeLifecycle.Runtime.Start | swift/ap-ios-debug-kit/Sources/APIOSDebugKit/APIOSDebugRuntime.swift:171-191 | one pass of start's loop up to its suspension; the invariant is kept while the counter fits |
| RuntimeLifecycle.Runtime.Stop | swift/ap-ios-debug-kit/Sources/APIOSDebugKit/APIOSDebugRuntime.swift:193-220 | stop up to its suspension; the invariant is kept |
| RuntimeLifecycle.Runtime.StarterReturns | swift/ap-ios-debug-kit/Sources/APIOSDebugKit/APIOSDebugRuntime.swift:237-249 | finishStart: only the current generation moves on, the error is thrown on, the invariant is kept; StarterLearnsTheAnswer says which, by what the server answered |
| RuntimeLifecycle.Runtime.StopperReturns | swift/ap-ios-debug-kit/Sources/APIOSDebugKit/APIOSDebugRuntime.swift:208-220 | a stop caller whose task is over marks its generation stopped and finds its server down |
| RuntimeLifecycle.Runtime.LooperRetries | swift/ap-ios-debug-kit/Sources/APIOSDebugKit/APIOSDebugRuntime.swift:186-189 | a start caller that awaited a stop finishes it if it is current and goes round its loop |
| RuntimeHistory.RunIsTold | swift/ap-ios-debug-kit/Sources/APIOSDebugKit/APIOSDebugRuntime.swift:171-263 | in every run from the beginning each generation's tasks are where the answers they were given say |
| RuntimeHistory.StartEndsAsAnswered | swift/ap-ios-debug-kit/Sources/APIOSDebugKit/APIOSDebugRuntime.swift:222-235 | a start task is over with a server if and only if the server came up, and failed if and only if preparation refused or the server refused and was rolled back |
| RuntimeHistory.RunningMeansStarted | swift/ap-ios-debug-kit/Sources/APIOSDebugKit/APIOSDebugRuntime.swift:237-249 | the lifecycle runs only on a server that came up and was not stopped |
| RuntimeHistory.StarterLearnsTheAnswer | swift/ap-ios-debug-kit/Sources/APIOSDebugKit/APIOSDebugRuntime.swift:237-249 | a resumed starter returns if and only if the server came up and throws if and only if something refused; while its generation is starting the lifecycle becomes running or stopped accordingly |
| RuntimeHistory.StopperFindsAllDown | swift/ap-ios-debug-kit/Sources/APIOSDebugKit/APIOSDebugRuntime.swift:193-220 | whoever is resumed from a stop finds a server that came up stopped, and a recording that was seen running stopped too |
| RuntimeHistory.CallsAreCounted | swift/ap-ios-debug-kit/Sources/APIOSDebugKit/APIOSDebugRuntime.swift:171-220 | in every run every call of start and stop was answered once or still waits |
| RuntimeHistory.UndisturbedRun | swift/ap-ios-debug-kit/Sources/APIOSDebugKit/APIOSDebugRuntime.swift:171-263 | from any stopped state a start whose server comes up leads to running, and a stop after it to stopped |
| BootstrapLifecycle.RunKeepsInv | swift/ap-ios-debug-kit/Templates/APIOSDebugBootstrap.swift:45-127 | for any callers in any order: all operations but the current one are over |
| BootstrapLifecycle.AtMostOneRuntime | swift/ap-ios-debug-kit/Templates/APIOSDebugBootstrap.swift:45-127 | at most one runtime is live, and none while stopped |
| BootstrapLifecycle.StoppedExactlyOnce | swift/ap-ios-debug-kit/Templates/APIOSDebugBootstrap.swift:72-127 | a runtime that came up is stopped exactly once before the lifecycle leaves it |
| BootstrapLifecycle.StopReturnsWithRuntimeDown | swift/ap-ios-debug-kit/Templates/APIOSDebugBootstrap.swift:122-127 | whoever resumes from a stop operation finds its runtime down |
| BootstrapLifecycle.StopDuringStartIsHonoured | swift/ap-ios-debug-kit/Templates/APIOSDebugBootstrap.swift:77-110 | a runtime whose start was asked to stop is never left running |
| BootstrapLifecycle.StaleSettleChangesNothing | swift/ap-ios-debug-kit/Templates/APIOSDebugBootstrap.swift:98-127 | settling an operation the lifecycle has left changes nothing but where its caller waits, or is, for a caller that loops, exactly a new call |
| BootstrapLifecycle.WaitingIsNeverStuck | swift/ap-ios-debug-kit/Templates/APIOSDebugBootstrap.swift:45-127 | while somebody waits some step is possible |
| BootstrapTermination.StepsMakeProgress | swift/ap-ios-debug-kit/Templates/APIOSDebugBootstrap.swift:45-127 | without new calls every step leaves less work, though callers loop through several operations |
| BootstrapTermination.RunsEndFromAnywhere | swift/ap-ios-debug-kit/Templates/APIOSDebugBootstrap.swift:45-127 | from every reachable state a run without new calls is no longer than the work left |
| BootstrapTermination.EveryCallerIsAnswered | swift/ap-ios-debug-kit/Templates/APIOSDebugBootstrap.swift:45-127 | in every reachable state: nothing but a new call can happen if and only if nobody waits and the lifecycle is stopped or running |
| BootstrapLifecycle.Bootstrap.SettleStart | swift/ap-ios-debug-kit/Templates/APIOSDebugBootstrap.swift:98-120 | settleStart by identity, with the requested stop and the await of a running stop; the invariant is kept |
| BootstrapLifecycle.Bootstrap.Stop | swift/ap-ios-debug-kit/Templates/APIOSDebugBootstrap.swift:72-96 | one pass of stop's loop; the invariant is kept |
| BootstrapHistory.RunIsTold | swift/ap-ios-debug-kit/Templates/APIOSDebugBootstrap.swift:45-127 | in every run each operation is where the end of its task says, and nothing is asked to stop without a stop call |
| BootstrapHistory.StartEndsAsItsTask | swift/ap-ios-debug-kit/Templates/APIOSDebugBootstrap.swift:45-70 | a start is up if and only if its task ended well, broken if and only if it threw, and running means up |
| BootstrapHistory.NothingIsStoppedUnasked | swift/ap-ios-debug-kit/Templates/APIOSDebugBootstrap.swift:72-96 | without a stop call no runtime is ever stopped or being stopped |
| BootstrapHistory.SettledStartDecides | swift/ap-ios-debug-kit/Templates/APIOSDebugBootstrap.swift:98-120 | the first to settle the current start makes it stopped if it threw, stopping if a stop was requested, running otherwise |
| BootstrapHistory.CallsReturnAtOnceIff | swift/ap-ios-debug-kit/Templates/APIOSDebugBootstrap.swift:45-96 | a start call returns at once if and only if running, a stop call if and only if stopped |
| BootstrapHistory.StartWaiterLeavesIff | swift/ap-ios-debug-kit/Templates/APIOSDebugBootstrap.swift:98-120 | a caller settling a start leaves if and only if the start threw or what the caller asked for has come about |
| BootstrapHistory.StopWaiterLeavesIff | swift/ap-ios-debug-kit/Templates/APIOSDebugBootstrap.swift:122-127 | a caller settling a stop leaves, one that loops if and only if what it asked for has come about |
| BootstrapHistory.UndisturbedStart | swift/ap-ios-debug-kit/Templates/APIOSDebugBootstrap.swift:45-70 | from any stopped state a start whose runtime comes up leads to running |
| BootstrapHistory.UndisturbedStop | swift/ap-ios-debug-kit/Templates/APIOSDebugBootstrap.swift:72-96 | from any running state a stop leads to stopped |
| NetworkDebugServer.RunKeepsInv | swift/ap-ios-debug-kit/Sources/APIOSDebugKit/NetworkDebugServer.swift:77-224 | in every run continuations, tables, generation and handlers stay consistent |
| NetworkDebugServer.ContinuationsAreAnswered | swift/ap-ios-debug-kit/Sources/APIOSDebugKit/NetworkDebugServer.swift:77-152 | each start continuation is resumed at most once, none is pending in ready or stopped, the listener starts at most once |
| NetworkDebugServer.TablesHoldTheOpenConnections | swift/ap-ios-debug-kit/Sources/APIOSDebugKit/NetworkDebugServer.swift:154-224 | both tables have the same keys: exactly the connections not cancelled, all of the served generation |
| NetworkDebugServer.StoppedIsAbsorbing | swift/ap-ios-debug-kit/Sources/APIOSDebugKit/NetworkDebugServer.swift:154-166 | stopped is final: tables empty, later starts throw, every connection cancelled |
| NetworkDebugServer.OldGenerationChangesNothing | swift/ap-ios-debug-kit/Sources/APIOSDebugKit/NetworkDebugServer.swift:128-172 | callbacks of an old generation change nothing, a connection they bring is cancelled |
| NetworkDebugServer.AnswersTheWholeText | swift/ap-ios-debug-kit/Sources/APIOSDebugKit/NetworkDebugServer.swift:180-214 | a handler that answers answers the request, or the error, that parsing all its connection delivered at once gives; OpenConnectionIff says when it does |
| NetworkDebugServer.AnswersOnlyWhileServing | swift/ap-ios-debug-kit/Sources/APIOSDebugKit/NetworkDebugServer.swift:196-209 | a response, of the router or about a parse error, is begun only while its generation is served |
| NetworkDebugServer.ResumedOnce | swift/ap-ios-debug-kit/Sources/APIOSDebugKit/NetworkDebugServer.swift:146-152 | resuming the list answers each listed caller once and nobody else |
| NetworkDebugServer.Server.Stop | swift/ap-ios-debug-kit/Sources/APIOSDebugKit/NetworkDebugServer.swift:154-166 | the transition to stopped, with its cancelling and resuming loops |
| NetworkDebugServer.Server.ListenerChanged | swift/ap-ios-debug-kit/Sources/APIOSDebugKit/NetworkDebugServer.swift:128-144 | listener states act only for the current generation and phase |
| NetworkDebugServer.Server.Handle | swift/ap-ios-debug-kit/Sources/APIOSDebugKit/NetworkDebugServer.swift:180-214 | one stretch of a connection's handler; what a connection comes to over its parts is OpenConnectionIff and EveryRequestIsAnswered |
| NetworkDelivery.OpenConnectionIff | swift/ap-ios-debug-kit/Sources/APIOSDebugKit/NetworkDebugServer.swift:180-214 | in every run an open connection is receiving if and only if its parts have no answer yet, hands a request to the router if and only if they were just answered with it, sends the response if and only if that was one stretch ago, and sends a failure if and only if they were answered with that error |
| NetworkDelivery.ConnectionsMeetTheirFate | swift/ap-ios-debug-kit/Sources/APIOSDebugKit/NetworkDebugServer.swift:168-218 | in every run of a server not stopped each connection is where its parts say, or was refused on arrival, or ended after its answer or when the peer gave up |
| NetworkDelivery.EveryRequestIsAnswered | swift/ap-ios-debug-kit/Sources/APIOSDebugKit/NetworkDebugServer.swift:168-214 | while a generation is served, a new connection that delivers any request of the grammar in any non-empty parts is sending the response to exactly that request after them |
| NetworkDelivery.LifecycleIff | swift/ap-ios-debug-kit/Sources/APIOSDebugKit/NetworkDebugServer.swift:77-166 | in every run the server is stopped if and only if stop was called, or its listener failed or was cancelled after the start; it is ready if and only if none of that happened and the listener became ready |
| NetworkDelivery.CallersAreTold | swift/ap-ios-debug-kit/Sources/APIOSDebugKit/NetworkDebugServer.swift:77-152 | in every run a start caller returned only after the listener became ready, and threw only after that or after a failure, a cancellation or a stop |
| NetworkDelivery.SuspendedCallersAreAnswered | swift/ap-ios-debug-kit/Sources/APIOSDebugKit/NetworkDebugServer.swift:128-166 | a ready listener lets every suspended caller return; a failed one, or a stop, makes every one throw |
| NetworkDelivery.UndisturbedStart | swift/ap-ios-debug-kit/Sources/APIOSDebugKit/NetworkDebugServer.swift:77-144 | a first start whose listener becomes ready returns to its caller and serves, with one listener started |
| DebugActionRegistry.AfterKeepsInv | swift/ap-ios-debug-kit/Sources/APIOSDebugKit/DebugActionRegistry.swift:55-94 | over any registrations and removals every entry is an accepted registration and later ones have larger generations |
| DebugActionRegistry.GenerationNamesRegistration | swift/ap-ios-debug-kit/Sources/APIOSDebugKit/DebugActionRegistry.swift:75-94 | equal generations now and later mean the very same registration |
| DebugActionRegistry.EntryKeptOrNew | swift/ap-ios-debug-kit/Sources/APIOSDebugKit/DebugActionRegistry.swift:55-94 | after any changes an identifier still names the entry it named, or a registration made since with a larger generation |
| DebugActionRegistry.IdentifiersMatch | swift/ap-ios-debug-kit/Sources/APIOSDebugKit/DebugActionRegistry.swift:62-68 | the identifier check accepts exactly what the regular expression does, read as an automaton |
| RegistryHistory.ChangesAreTold | swift/ap-ios-debug-kit/Sources/APIOSDebugKit/DebugActionRegistry.swift:55-94 | after any changes exactly the identifiers whose last accepted registration was not removed by its token are filed, each as that registration with the number of changes up to it as generation |
| DebugActionRegistry.Registry.UnregisterAction | swift/ap-ios-debug-kit/Sources/APIOSDebugKit/DebugActionRegistry.swift:88-94 | the search by token removes that registration's entry, if it is still the latest |
| DebugActionRegistry.Registry.TakeSnapshot | swift/ap-ios-debug-kit/Sources/APIOSDebugKit/DebugActionRegistry.swift:96-107 | a snapshot lists exactly the registered entries, strictly ascending |
| DebugActionRegistry.Registry.Activate | swift/ap-ios-debug-kit/Sources/APIOSDebugKit/DebugActionRegistry.swift:109-135 | the entry found at the call is the one that runs and whose generation is returned |
| ProtocolActions.List | cli/internal/protocol/actions.go:97-128 | accepts exactly the canonical lists and returns what they say |
| ProtocolActions.Validate | cli/internal/protocol/actions.go:145-160 | succeeds exactly when a canonical list offers the identifier enabled; answers disabled exactly when it is listed disabled, not found exactly when it is not listed |
| ProtocolActions.CheckActivation | cli/internal/protocol/actions.go:130-143 | accepts exactly complete answers about the identifier asked for |
| ProtocolActions.SnapshotsAreCanonical | cli/internal/protocol/actions.go:103-120 | every snapshot of a reachable registry passes the client's checks |
| ActionsCommand.ActivateAction | cli/internal/cli/actions.go:48-68 | for any changes between list and activate a reported success means a registration ran whose generation is the listed one as far as a double tells, and the very one listed if no generation handed out since could be mistaken for it; a dry run runs nothing; when everything works an unmistaken action is reported; each failure of the list, the server or the check has its own outcome |
| ActionsCommand.OfferedIff | cli/internal/cli/actions.go:48-60 | the listed snapshot offers the identifier enabled if and only if it is registered and enabled then |
| ActionsCommand.ToldApartIff | cli/internal/cli/actions.go:64-67 | for at most n changes, the check of the generation tells the listed registration from every other if and only if none of the next n generations rounds to the listed one's double |
| ActionsCommand.RoundedGenerationsCollide | cli/internal/cli/actions.go:48-68 | a run from the empty registry, 2^53 registrations and one more, whose reported success names a role that did not run |

## Left out

- ReplayKit, AVFoundation, UIKit, the Network framework and Go's HTTP client are environment steps or parameters.
- Route handlers, error-to-status tables, command-line flags, configuration precedence, device discovery and formatting are settled by reading one branch.
- The file store behind the recording controller: its outcomes are parameters of the steps; only the choice of what to delete is modelled.
- Listing the store and parsing metadata files in `cleanup`; the set it deletes is a parameter of the controller and the subject of RecordingRetentionPolicy.
- A capture source that is off whenever the phase is failed is not claimed: the permission deadline can win just after a start has settled, and a stop may still be in flight after its own deadline.
- Unicode: grapheme clusters, case folding and trimming beyond ASCII, and UTF-8 decoding.
- Regular expression engines: the platform's `$` also matches before a final line break, which a full match does not.
- Durability: syncs appear only as calls that may fail.
- Symbolic link aliases of the Darwin root directories and the opening of paths component by component; an existing ancestor is a directory or not.
- RecordingRetentionPolicy.SortedByPrecedes: an insertion sort stands for the library's sort; PlanIsUnique shows that the choice does not matter.
- SHA256.HashAll: the step function is a parameter whose meaning is a precondition, to keep the compression function out of the loop's proof; HashBlocks instantiates it.
- SHA256.Digest: no published digest is evaluated; the functions, the constants and the padding are pinned instead.
- RuntimeLifecycle.StaleWaiterChangesNothing: runs of fewer than 2^64 steps; beyond that the counter repeats generations.
- NetworkDebugServer.Server.Handle: the router and the sending of bytes are environment; which response is sent is not modelled.
- ScaffoldApply.Apply: the refresh looks at one state of the tree; a plan names each destination once; removing the staging directory succeeds and is one call.
- ScaffoldApply.StageFile: writing, setting the mode, syncing and closing a staged file are one call that may fail.
- ScaffoldTransaction.CommitFiles: a compare-and-remove is one step, so a node swapped in between its two calls is not covered; syncs are calls that may fail.
- MP4.Validate: reads of an opened regular file do not fail and its size does not change meanwhile.
- Artifact.WriteArtifact: a write that fails appends nothing, and no other process touches the temporary name or the destination meanwhile.
- RecordingStopCommand.StopRecording: how the destination path is chosen and how results are printed.
- ActionsCommand.ActivateAction: transport failures and refusals of the server are one failure value each.
