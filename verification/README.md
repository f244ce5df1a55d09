# Tapflow's Android agent, modelled and proved in Dafny

Tapflow drives Android emulators from an agent process. This project models the parts of it that are hard to get
right - protocols whose calls overlap at every `await`, a record that must survive a kill between any two writes,
and byte, sample and text formats that arrive in pieces - and proves what they promise, over every run and every
input. `dafny verify dfyconfig.toml` checks all of it.

| files | what they model |
|---|---|
| `Lifecycle*.dfy`, `DeviceState.dfy` | Boots, shutdowns, relay losses and stream restarts of one session, ordered only by `bootSeq` |
| `Lean*.dfy` | Lean mode's write-ahead record of the packages it disables |
| `Sps*.dfy` | The H.264 sequence parameter set reader |
| `Clipboard*.dfy` | Reading a device's clipboard by parking a sentinel and pressing a key |
| `Reconcile*.dfy` | The coalescing screen reconcile |
| `Gesture*.dfy` | Which backend a gesture belongs to |
| `Resampler.dfy`, `PidFrames.dfy` | The audio helper's resampler and command stream |
| `ShellQuote.dfy` | Launch arguments through adb and the device's shell |
| `AnnexB.dfy` | The encoder's NAL and pixel conversions |
| `Entities.dfy`, `UiTree.dfy` | The UI dump: entity decoding and frames |
| `NetworkControl.dfy`, `NetworkHook.dfy` | The viewer's network control |
| `Crc.dfy`, `PngChunk.dfy` | PNG chunks and their CRC-32 |
| `Turns.dfy` | Quarter turns between frame, screen, panel and picture |

## How it is modelled

Code that awaits becomes a transition system: a state, the events that can resume a call or arrive from outside, and
one atomic step for everything between two awaits. What the environment decides - whether an adb call rejects, which
deadline has passed, when the device applies a scheduled write - is part of the event, so a theorem over all event
sequences covers every interleaving. Code that updates fields or loops over a buffer becomes a class or a method, with
a contract that ties it to the function the theorems are about. Floats are reals.

Conditions the promises rest on, taken from the code:

- A device's rotation queue runs in order, a display-size read never rejects, and a handle whose own `start` rejected
  is not live (AndroidAgent.ts:332-335, 1628-1631, 2792-2799).
- When an off-mode Lean reconcile deletes the record, none of the packages it names was enabled since the emulator
  started. An earlier off-mode reconcile or a cut-off rebuild in the same emulator run breaks this, and then the record
  can go too early.
- A device's serial is known when its session is torn down: `scrcpySession.stop` is only called with one
  (AndroidAgent.ts:865-867).
- An emulator's package writes may be lost at a kill; its marker is written atomically and synced.

Where the code does not keep what it is meant to, the project states exactly when it does and gives a run or an input:

- **Port.** A boot that lost stores its port before it checks its number (AndroidAgent.ts:2218-2223). The owner's port is
  lost exactly when that happens between its own pick and its client: `LifecyclePorts`.
- **Lean.** An enable the emulator's storage has not caught up with counts as confirmed. Deleting the record can strand a
  package exactly when a recorded package was enabled since the emulator started: `LeanStrands`, with two runs.
- **Emulation prevention.** The loop tests the bytes it kept, so it also drops a 3 that belongs to the payload; and a
  31-bit code prefix overflows: `SpsRoundTrip`.
- **Clipboard.** A parked read counts as over when a read-back fails or a deadline passes. It can leave its sentinel
  behind exactly when it has not read its sentinel and then something else: `ClipboardSchedules`. A sentinel left behind
  can always become the next read's original: `ClipboardLeftovers`; `ClipboardSentinels` has a run.
- **Reconcile.** The committed skin is not the newest frame's exactly while no pass of the stream has ended, or when the
  last to end is the boot's, or began before that frame, with another skin: `ReconcileNewest`. The boot's direct pass, a
  pass queued by a caller of a replaced stream, and passes that outlive a clear can each be that pass:
  `ReconcileFailures`.
- **Pid frames.** Up to three bytes of a count already too large are kept, waiting for the fourth: `PidFrames`.
- **Entities.** An ampersand written as a number is decoded again with what follows it: `Entities`.

## Model

| member | source | states |
|---|---|---|
| LifecycleHandles.RunKeeps | packages/android-agent/src/AndroidAgent.ts:1587-1881 | Every run of boots, restarts, shutdowns, stream deaths and session drops keeps the invariant on who owns which handle: every live handle is in its field or in the record of a start still running, and the fields hold only the current number's handles |
| LifecycleHandles.NextKeeps | packages/android-agent/src/AndroidAgent.ts:2132-2295 | One step between awaits, whichever call it resumes and whichever branch it takes, keeps that invariant |
| LifecycleHandles.LiveHandlesAreTheFields | packages/android-agent/src/AndroidAgent.ts:862-914 | With no start in flight, the live handles are exactly those the session's fields point at |
| LifecycleHandles.LoserLeavesNothing | packages/android-agent/src/AndroidAgent.ts:1683-1700 | A call that lost its number and has returned left no handle running |
| LifecycleHandles.LoserSparesTheCurrent | packages/android-agent/src/AndroidAgent.ts:1671-1700 | No step of a call that lost stops, replaces or clears a handle that belongs to the current number |
| LifecycleHandles.PumpingIsUp | packages/android-agent/src/AndroidAgent.ts:1937-1962 | A stream whose pump ends is up: no current call is still starting one, and no rotation step is queued behind it |
| LifecycleAnswers.RunKeeps | packages/android-agent/src/AndroidAgent.ts:2023-2052 | Every run keeps the bookkeeping of answers, retirements and waiting reasons |
| LifecycleAnswers.EveryBootIsAnsweredOnce | packages/android-agent/src/AndroidAgent.ts:2132-2295 | A boot is never answered twice nor before it returns, and exactly once when it returned, carried a request id and its session is still registered |
| LifecycleAnswers.AbandonReasonIsItsOwn | packages/android-agent/src/AndroidAgent.ts:2023-2052 | The reason an abandoned boot is given is the event that retired its own number, never the default |
| LifecycleAnswers.ReasonsNeverOutliveTheirBoot | packages/android-agent/src/AndroidAgent.ts:2289-2294 | A reason waits for exactly the running boots that lost; its keys lie within the boots in flight, so none is left when no boot runs |
| LifecycleAnswers.ReadyIsCurrent | packages/android-agent/src/AndroidAgent.ts:2266-2270 | A ready goes out only while its boot is the last lifecycle event: never between a shutdown or a relay loss and the next boot |
| LifecycleAnswers.ReadiesIncrease | packages/android-agent/src/AndroidAgent.ts:2266-2270 | The numbers of the readies sent strictly increase |
| LifecycleStory.LogIsTheStory | packages/android-agent/src/AndroidAgent.ts:2132-2295 | Over every run the answers, retirements and dead streams logged are those told from the events alone: which resumed what, what it awaited, and whether its number was still current |
| LifecycleStory.AnswersSayWhatHappened | packages/android-agent/src/AndroidAgent.ts:2132-2295 | Over every run a boot is answered ready exactly when it returned from its last await while its number was current, failed exactly when an await of it threw while it was, and abandoned for a reason exactly when it came back after that reason had retired it, to a registered session and with a correlator |
| LifecycleStory.BootsEndOnce | packages/android-agent/src/AndroidAgent.ts:2289-2294 | A boot is over exactly when one of its resumes was its last: it returned, threw, or lost its number at an await that checks it |
| LifecycleStory.UndisturbedBootsEndReady | packages/android-agent/src/AndroidAgent.ts:2266-2270 | A boot that is over, was never retired and none of whose awaits threw has exactly one answer, ready |
| LifecycleStory.EveryEndIsAnswered | packages/android-agent/src/AndroidAgent.ts:2035-2052 | With a registered session and a correlator, a boot that is over has exactly the answer its end calls for, the abandoned one for what retired it |
| LifecycleStreams.StartLeavesItsStream | packages/android-agent/src/AndroidAgent.ts:1587-1881 | A start that succeeds, on either backend, leaves its own handles in the session's fields, all live, and none of the other backend's |
| LifecycleStreams.RestartingIsARestart | packages/android-agent/src/AndroidAgent.ts:1937-1981 | The session says a restart is under way exactly while one of its current stream is, and there is then exactly one |
| LifecycleStreams.DeadStreamsAreRestarted | packages/android-agent/src/AndroidAgent.ts:1937-1981 | A stream that dies is torn down whole and restarted exactly where its emulator is there and the session still has an open socket; with the emulator gone nothing is touched |
| LifecycleStreams.OpenedSocketsAreHeld | packages/android-agent/src/AndroidAgent.ts:2240-2270 | From opening its socket until something retires it, a boot's session holds that boot's own socket, live |
| LifecycleProgress.CurrentCallsCanSucceed | packages/android-agent/src/AndroidAgent.ts:1587-1881 | From every reachable session a boot or restart with the current number can go on to its end, the boots ahead of it in the rotation queue first; a boot is then answered exactly ready, and a call that had no stream has its own up, on the backend asked for as far as that is still open |
| LifecycleProgress.CurrentBootsMayFail | packages/android-agent/src/AndroidAgent.ts:2271-2288 | From every reachable session each await of the current boot but those whose errors are swallowed or lead to scrcpy may reject, and the boot is then over and answered exactly failed |
| LifecycleProgress.StreamsEndExactly | packages/android-agent/src/AndroidAgent.ts:1937-1962 | A stream can end exactly where the session has it, the call that brought it up is past that, and no restart of it is under way |
| LifecyclePorts.PortIsTheOwnersExactly | packages/android-agent/src/AndroidAgent.ts:2218-2223 | From the owner's own pick until its client is built, over every run: the session's port is the one the owner launched with if and only if no boot that lost has come back from a pick in between |
| LifecyclePorts.StalePortIsReached | packages/android-agent/src/AndroidAgent.ts:2218-2223 | A run in which that happens: the winner's emulator is about to be reached on the loser's port |
| DeviceStates.DeviceState.constructor | packages/android-agent/src/AndroidAgent.ts:733-785 | A session starts with nothing live and nothing in flight |
| DeviceStates.DeviceState.BumpBootSeq | packages/android-agent/src/AndroidAgent.ts:2023-2026 | Retiring a number leaves its reason only for a boot still running, and changes nothing else |
| DeviceStates.DeviceState.CleanupDeviceState | packages/android-agent/src/AndroidAgent.ts:862-883 | Every field's handle is stopped and the field nulled, and a pending restart is forgotten |
| DeviceStates.DeviceState.ReleaseStream | packages/android-agent/src/AndroidAgent.ts:1683-1700 | What one start created is stopped; a field is nulled only while it is still that start's |
| DeviceStates.DeviceState.AbandonBoot | packages/android-agent/src/AndroidAgent.ts:2035-2052 | A lost boot takes its reason and is answered only where there is a session and a correlator |
| DeviceStates.DeviceState.HandleDeviceBoot | packages/android-agent/src/AndroidAgent.ts:2132-2160 | A boot retires the last number, tears the session down and is in flight under its own number |
| DeviceStates.DeviceState.RestartVideoStream | packages/android-agent/src/AndroidAgent.ts:1937-1964 | A dead stream is torn down, reported where its emulator is gone, and waits to restart only on an open socket |
| LeanSafety.EveryMomentIsSafeExactly | packages/android-agent/src/LeanPackages.ts:65-110 | Wherever it is cut off, a reconcile leaves every package tapflow disabled and has not durably enabled recorded as enabled, if and only if it does not delete a record some package of which is still owed |
| LeanSafety.OwedIsReenabled | packages/android-agent/src/LeanPackages.ts:94-104 | A record that is still owed is deleted only after one of its packages was enabled in the same emulator run |
| LeanSafety.EveryMomentIsSafe | packages/android-agent/src/LeanPackages.ts:65-110 | Every moment of a reconcile is safe, unless it deletes a record one of whose packages was enabled since the emulator started |
| LeanSafety.RebuildIsSafe | packages/android-agent/src/LeanPackages.ts:127-147 | Replacing an unreadable marker and re-enabling what it covered is safe at every write |
| LeanSafety.LeanOnIsSafe | packages/android-agent/src/LeanPackages.ts:73-88 | Completing the record, writing it and only then disabling is safe at every write |
| LeanSafety.LeanOffIsSafe | packages/android-agent/src/LeanPackages.ts:91-110 | The writes of an off-mode reconcile are safe at every moment unless, with nothing to enable and all seen enabled, they delete a record that is still owed: both directions |
| LeanRuns.EveryRunIsSafe | packages/android-agent/src/LeanPackages.ts:65-154 | Over every run of boots, reconciles cut off anywhere, late-flushed package writes, kills and corrupted markers in which no record is deleted after an enable in the same emulator run, nothing tapflow disabled is missing from the record |
| LeanRuns.NoMarkerNothingOwed | packages/android-agent/src/LeanPackages.ts:98-104 | Over every such run, once the marker is gone no package is owed back |
| LeanStrands.DeletionStrandsExactlyTheReenabled | packages/android-agent/src/LeanPackages.ts:94-104 | For whatever the agent did before a deletion: some timing of the emulator's storage lets a kill bring a recorded package back disabled, with no record left, if and only if a recorded package was enabled since the emulator started |
| LeanStrands.TurnedOffDeletesTooSoon | packages/android-agent/src/LeanPackages.ts:91-110 | A first such run: after one off-mode reconcile, a second in the same emulator run |
| LeanStrands.RebuiltDeletesTooSoon | packages/android-agent/src/LeanPackages.ts:127-147 | A second such run: after a lean-mode reconcile cut off in the middle of a rebuild, one off-mode reconcile in the same emulator run |
| LeanStrands.EnablesInTheSameRunStrand | packages/android-agent/src/LeanPackages.ts:94-104 | In both, some timing of the storage strands the package |
| LeanRestore.BootsLeftDecreases | packages/android-agent/src/LeanPackages.ts:91-110 | Every undisturbed off-mode boot brings the device nearer to having no marker |
| LeanRestore.TwoBootsRestore | packages/android-agent/src/LeanPackages.ts:91-147 | Two undisturbed off-mode boots leave every owed package enabled and the marker gone, from a readable or an unreadable marker |
| LeanRecords.RecordsNameEachOnce | packages/android-agent/src/LeanPackages.ts:73-88 | Over every run, corrupted markers included, the record names each package at most once |
| LeanRecords.DisabledBeforeIsLeftAlone | packages/android-agent/src/LeanPackages.ts:73-109 | Over every run in which the marker stays readable, a package disabled before Lean mode came is never changed, running or stored |
| LeanRecords.RecordedDisabledIsLeftAlone | packages/android-agent/src/LeanPackages.ts:73-109 | From any moment at which the record says disabled, and for as long as there is a readable record, the package stays as it is, running and stored, over every run |
| LeanEffects.LeanOnDisablesAll | packages/android-agent/src/LeanPackages.ts:73-88 | An undisturbed launched lean-mode reconcile of any usable device records every listed package it has as it was before Lean mode, disables each that was enabled, and changes no other |
| LeanEffects.LostDisablesAreRepeated | packages/android-agent/src/LeanPackages.ts:73-88 | After any number of launched lean-mode boots, whichever disables the kills between them lose: the same again, by what was recorded at the first |
| LeanEffects.LeanRests | packages/android-agent/src/LeanPackages.ts:73-88 | Once the disables are kept, the next lean-mode boot writes nothing |
| LeanEffects.LeanOffRestoresAll | packages/android-agent/src/LeanPackages.ts:91-110 | An undisturbed off-mode reconcile of any usable device enables every package owed back, changes no other, and deletes the record exactly when nothing was left to enable and every owed package is there |
| LeanEffects.WritesNothing | packages/android-agent/src/LeanPackages.ts:65-72 | Nothing is written on a device whose answer lacks android, in lean mode on one tapflow did not launch, and otherwise on one without a record |
| LeanDevices.LeanDevice.WriteVerified | packages/android-agent/src/LeanPackages.ts:150-154 | A marker write counts only when it reads back; otherwise it landed or did not, and nothing else changed |
| LeanDevices.LeanDevice.Rebuild | packages/android-agent/src/LeanPackages.ts:127-147 | The writes of a rebuild are the first of its plan, and all of it when it completes |
| LeanDevices.LeanDevice.LeanOn | packages/android-agent/src/LeanPackages.ts:73-88 | The writes of a lean-mode reconcile are the first of its plan, and all of it when it completes |
| LeanDevices.LeanDevice.LeanOff | packages/android-agent/src/LeanPackages.ts:91-110 | The writes of an off-mode reconcile are the first of its plan, and all of it when it completes |
| LeanDevices.LeanDevice.ReconcileLean | packages/android-agent/src/LeanPackages.ts:65-110 | Whatever cuts it off, the writes that took effect are the first of the plan the safety results are about |
| SpsRoundTrip.UnescapeUndoesEscape | packages/android-agent/src/AndroidAgent.ts:189-196 | The loop that tests what it has kept undoes emulation prevention exactly on payloads without 00 00 03 |
| SpsRoundTrip.ExactUpTo31Bits | packages/android-agent/src/AndroidAgent.ts:208-212 | An unsigned code is read exactly if and only if it is at most 2^31 - 2 |
| SpsRoundTrip.ReadsUE | packages/android-agent/src/AndroidAgent.ts:208-212 | Every code written is read back, is 2^32 too small from 2^31 - 1 on, or is refused above 2^32 - 2 |
| SpsRoundTrip.SizeIsCroppedSize | packages/android-agent/src/AndroidAgent.ts:220-251 | The size computed from the fields is the cropped size of section 7.4.2.1.1, for every chroma format and field coding |
| SpsRoundTrip.ReadsSps | packages/android-agent/src/AndroidAgent.ts:215-251 | Every parameter set without scaling matrices, written by the standard's syntax, reads back as its cropped size with what follows it untouched |
| SpsTruncation.ParsesEverySps | packages/android-agent/src/AndroidAgent.ts:181-253 | Escaped and framed, every parameter set parses to its cropped size; cut after any number of payload bytes, to that size when the set is all there and to null before |
| SpsTruncation.MoreBytesKeepTheAnswer | packages/android-agent/src/AndroidAgent.ts:181-253 | For any bytes at all, more of them never change an answer |
| SpsTruncation.AnswersOnlyParameterSets | packages/android-agent/src/AndroidAgent.ts:181-188 | Only a NAL unit of type 7 behind a start code of three or four bytes is answered at all |
| SpsTruncation.EverySpsHasAPayload | packages/android-agent/src/AndroidAgent.ts:181-253 | Every parameter set has a byte-aligned payload ending in its stop bit |
| SpsReader.BitReader.ReadBits | packages/android-agent/src/AndroidAgent.ts:199-207 | The bit loop returns the next n bits as a number, or gives up exactly when fewer are left |
| SpsReader.BitReader.ReadCode | packages/android-agent/src/AndroidAgent.ts:208-212 | The zero-counting loop reads the code the specification reads, or gives up with it |
| SpsReader.BitReader.ReadParameterSet | packages/android-agent/src/AndroidAgent.ts:215-251 | The cursor reads the whole set as specified, field by field |
| SpsReader.CollectRbsp | packages/android-agent/src/AndroidAgent.ts:189-196 | The collecting loop removes exactly the bytes the specification removes |
| SpsReader.ParseSpsFromNal | packages/android-agent/src/AndroidAgent.ts:181-253 | The parser as it runs is the parser the round trip is about; every byte it reads exists |
| ClipboardSentinels.EveryRunKeeps | packages/android-agent/src/AndroidAgent.ts:1518-1534 | Every run of the queue, with apps writing and the device applying sets in any order, keeps all of the below |
| ClipboardSentinels.EachIsAnsweredOnce | packages/android-agent/src/AndroidAgent.ts:3440-3556 | Every operation that ended has exactly one answer, one not begun has none |
| ClipboardAnswers.ReadsAreAnswered | packages/android-agent/src/AndroidAgent.ts:3463-3512 | Over every run a read with a press copies a text exactly when it took an original, parked, saw its sentinel in time, pressed, and then first read that text in time, no sentinel and not too large; that read is its last and it puts nothing back. Otherwise it fails, on a failed await, a passed deadline or a text too large |
| ClipboardAnswers.PeeksAreAnswered | packages/android-agent/src/AndroidAgent.ts:3456-3462 | A read without a press is answered the clipboard as it was at its one read, and fails exactly when that failed or the text is too large |
| ClipboardAnswers.WritesAreAnswered | packages/android-agent/src/AndroidAgent.ts:3530-3556 | A write is answered done exactly when the device took its own text and, to paste it, the text was then read on the clipboard in time and the key went well; otherwise it fails |
| ClipboardAnswers.ErrorsSayWhetherParked | packages/android-agent/src/AndroidAgent.ts:3419-3426 | An error says a sentinel may be on the device exactly where it answers a read that had taken its original |
| ClipboardAnswers.FailedReadsPutBack | packages/android-agent/src/AndroidAgent.ts:3513-3517 | A parked read answered without a text sets what it took, another read's sentinel counting as nothing, and goes on to see it back; one answered by its text sets nothing |
| ClipboardAnswers.PuttingBackEnds | packages/android-agent/src/AndroidAgent.ts:3518-3527 | Putting the original back ends exactly when it is read, a read fails or the deadline passes |
| ClipboardAnswers.OperationsRunInOrder | packages/android-agent/src/AndroidAgent.ts:1518-1534 | Operations run one at a time in the order they were submitted, each under its own number |
| ClipboardFlags.UnconfirmedExactly | packages/android-agent/src/AndroidAgent.ts:3513-3527 | A read that ends puts up the flag the safety result rests on exactly where it took an original and did not hear its own sentinel and then something else; nothing but a read touches it |
| ClipboardFlags.InOrderIsInOrder | packages/android-agent/src/AndroidAgent.ts:1518-1534 | The device counts as making its sets in order exactly where each one it made was the next |
| ClipboardFlags.TheLastWriteStands | packages/android-agent/src/AndroidAgent.ts:3475-3500 | The clipboard holds what was last written to it, by an app or by a set applied, and is marked as that writer's |
| ClipboardSentinels.CopiedTextIsFresh | packages/android-agent/src/AndroidAgent.ts:3475-3500 | Copied text is no sentinel, and was on the device after this read's sentinel had been |
| ClipboardSentinels.CopiedTextIsTheApps | packages/android-agent/src/AndroidAgent.ts:3475-3500 | When the device makes its sets in the order it took them, copied text was written by an app |
| ClipboardSentinels.NoSentinelOutlivesItsRead | packages/android-agent/src/AndroidAgent.ts:3513-3527 | While every parked read ends having read its own sentinel and then something else, no read takes a sentinel for the original or returns one, and an unparked device holds none |
| ClipboardSchedules.AReadMayLeaveItsSentinelExactly | packages/android-agent/src/AndroidAgent.ts:3463-3529 | From what a read heard alone: some schedule in which it hears just that leaves its sentinel on the device or still to be set, if and only if it took an original and did not read its own sentinel and then something else |
| ClipboardReads.GoneAtTheEnd | packages/android-agent/src/AndroidAgent.ts:3475-3527 | A read that never took an original, or read its sentinel and then something else, ends with its sentinel neither on the device nor still to be set |
| ClipboardSchedules.ShadowRun | packages/android-agent/src/AndroidAgent.ts:3463-3529 | Any read that has not heard its sentinel gone can be repeated, hearing the same, against a device that still has the sentinel |
| ClipboardLeftovers.ASentinelIsTakenExactly | packages/android-agent/src/AndroidAgent.ts:3468-3473 | Between operations, some run has the next read with a press take a sentinel for the original if and only if the device holds one or has one still to set |
| ClipboardSentinels.TheOriginalComesBack | packages/android-agent/src/AndroidAgent.ts:3513-3527 | A read that copied nothing puts back what it took: once the device has made its sets in order, the clipboard is that text or an app's newer one |
| ClipboardSentinels.FailedReadBackLosesTheOriginal | packages/android-agent/src/AndroidAgent.ts:3518-3524 | A failed read-back counts as a restore: the next read takes the sentinel for the original and would put back nothing |
| ReconcileSafety.AnswersAreFresh | packages/android-agent/src/AndroidAgent.ts:1346-1364 | The pass that answers a caller began no earlier than the call, across any number of streams; one not begun waits behind a pass in flight |
| ReconcileSafety.EndBeginsTheWaiting | packages/android-agent/src/AndroidAgent.ts:1356-1362 | A pass that ends begins the pass behind it, whatever happened to the map entries meanwhile |
| ReconcileProgress.EveryCallIsAnswered | packages/android-agent/src/AndroidAgent.ts:1346-1395 | From wherever a run stands, whichever passes move on in whichever order and however the display moves: at most three steps a pass and none is in flight, and then every pass is done and every call answered |
| ReconcileOrder.OnePassAtATime | packages/android-agent/src/AndroidAgent.ts:1346-1395 | In a stream that began with no pass left over, at most one queued pass is in flight |
| ReconcileOrder.OnePassPerBurst | packages/android-agent/src/AndroidAgent.ts:1346-1364 | However many calls come while a pass runs, one further pass is made and answers them all |
| ReconcileNewest.SkinIsTheNewestExactly | packages/android-agent/src/AndroidAgent.ts:1346-1459 | Over every run, clears and the passes they leave behind included: the committed skin is the newest frame's if and only if the stream's last pass to end was the queue's and begun since that frame, or had begun with its skin all the same |
| ReconcileNewest.RunCommits | packages/android-agent/src/AndroidAgent.ts:1366-1459 | Every run keeps that the committed skin is the one the stream's last pass to end began with, and that the queue's passes begun since the newest frame began with its skin |
| ReconcileSkin.DrainedSkinIsTheNewest | packages/android-agent/src/AndroidAgent.ts:1366-1395 | Seen from the calls: in a stream that began with no pass left over, has drained, and owns the pass its newest frame was given, the committed skin is that frame's unless the boot's pass ended last with another: both directions |
| ReconcileFailures.BootCommitsAnOlderSkin | packages/android-agent/src/AndroidAgent.ts:1846-1849 | A run in which the boot's own pass, outside the queue, ends last with an older skin |
| ReconcileFailures.JoiningAReplacedStreamsPassLosesTheFrame | packages/android-agent/src/AndroidAgent.ts:1353-1362 | A run in which a frame joins a pass queued by a caller of a replaced stream, so the stream's last own pass began before it |
| ReconcileFailures.LeftoverPassesRunTwoAtOnce | packages/android-agent/src/AndroidAgent.ts:903-905 | A run in which passes outliving a clear let two passes of the next stream run at once, the one begun before the newest frame ending last |
| ReconcileQueue.DeviceReconciles.ReconcileSerial | packages/android-agent/src/AndroidAgent.ts:1346-1364 | A call begins a pass, joins the waiting one or becomes it, and changes nothing else |
| ReconcileQueue.DeviceReconciles.EndPass | packages/android-agent/src/AndroidAgent.ts:1383-1391 | Ending a pass drops the entries only under its own token and starts the pass behind it; the token always names the running pass |
| ReconcileQueue.DeviceReconciles.ClearGrpcState | packages/android-agent/src/AndroidAgent.ts:896-914 | A clear drops the three entries and the committed skin and leaves the passes in flight |
| Resampler.ChunksAreOneShot | packages/audiotap-helper/src/audiotap-helper.swift:157-184 | However the input is cut into callbacks, the concatenated output is one-shot resampling of the whole |
| Resampler.EmitsEveryStep | packages/audiotap-helper/src/audiotap-helper.swift:172-180 | One shot emits a pair for exactly the multiples k * step before the last frame: each sample within 1 of 32767 times the point there on the line through its two frames, limited to [-1, 1], and no larger in size; full scale from 1 up and -1 down |
| Resampler.SamplesLieBetween | packages/audiotap-helper/src/audiotap-helper.swift:174-189 | Every sample is a 16-bit number, and where the two frames around it lie between a and b, one between the 16-bit numbers of a and b |
| Resampler.AfterHasSeen | packages/audiotap-helper/src/audiotap-helper.swift:181-183 | The carried phase and frame are those of the input so far |
| Resampler.FramesAreTheBuffer | packages/audiotap-helper/src/audiotap-helper.swift:166-171 | A stereo buffer's frames, laid out again, are the buffer; a mono buffer's are its samples, twice |
| Resampler.Stream.Resample | packages/audiotap-helper/src/audiotap-helper.swift:162-184 | The loop ends, indexes only from -1 to the last frame and within the interleaved buffer, and emits and carries what the specification does |
| PidFrames.DecodesWhatWasPut | packages/audiotap-helper/src/audiotap-helper.swift:311-357 | Frames put on the stream are read back in order, whatever follows them |
| PidFrames.StreamIsFramesAndRest | packages/audiotap-helper/src/audiotap-helper.swift:342-350 | Any stream is exactly its decoded frames and what is left of it |
| PidFrames.RestIsPartOfAFrame | packages/audiotap-helper/src/audiotap-helper.swift:342-346 | What is left is a strict prefix of a frame if and only if the count it begins can still be at most 1024 |
| PidFrames.ReadsAreOneDecode | packages/audiotap-helper/src/audiotap-helper.swift:338-357 | However the stream is cut into reads, the id lists applied are those of the whole stream, and reading stops exactly at a count above 1024 |
| PidFrames.ListsArrive | packages/audiotap-helper/src/audiotap-helper.swift:338-357 | Every list the agent sends is applied, with a partial frame still on its way |
| PidFrames.RefusesLargeCounts | packages/audiotap-helper/src/audiotap-helper.swift:338-346 | A stream is refused exactly where the next count, as its four bytes spell it, is above 1024 |
| PidFrames.Reader.Read | packages/audiotap-helper/src/audiotap-helper.swift:341-356 | The reading loop over its growing and shrinking buffer does one read of the specification |
| ShellQuote.ReadsQuoted | packages/android-agent/src/launchExtras.ts:8-10 | A quoted string adds exactly itself to the shell's word, wherever it stands and whatever it holds |
| ShellQuote.ShellReadsWhatWasMeant | packages/android-agent/src/launchExtras.ts:12-29 | For all keys and values the shell reads the flag, key and value of each argument, in order, and nothing is expanded or run |
| ShellQuote.ListsArriveExactly | packages/android-agent/src/launchExtras.ts:20-21 | A string list survives joining and splitting if and only if no item splits and none but the last ends in a backslash |
| ShellQuote.AcceptedListsSplit | packages/protocol/src/launch/index.ts:49-63 | Every list the shared check accepts survives, and so do its items in any other list, in any order and number |
| ShellQuote.RefusedListsBreak | packages/protocol/src/launch/index.ts:49-63 | Of lists without commas, the check refuses exactly those whose items do not survive in every order |
| ShellQuote.ArgumentsArriveExactly | packages/android-agent/src/launchExtras.ts:12-29 | Through quoting, joining, the shell and the intent parser, arguments always reach the app, and with their keys, types and values exactly when every list among them survives |
| ShellQuote.ArgumentsArrive | packages/android-agent/src/launchExtras.ts:12-29 | Arguments the shared check accepts reach the app with their keys, types and values |
| Gesture.ObjectsAreNamedOnce | packages/android-agent/src/AndroidAgent.ts:2723-2728 | In every session a run reaches each channel and helper has its own identity, which is what the results below compare |
| Gesture.EndAfterStart | packages/android-agent/src/AndroidAgent.ts:2740-2766 | An end is dispatched as the gesture's own exactly when the backend that took its start serves now; otherwise a pointer left down on a channel is let go exactly once, where a channel serves |
| Gesture.TouchEndsWhereItIs | packages/android-agent/src/AndroidAgent.ts:2993-3043 | A touch's own end lands where it was last moved: an up there on its channel, one injection from its start to there on its helper |
| Gesture.MoveAfterStart | packages/android-agent/src/AndroidAgent.ts:3008-3023 | A move reaches the backend that took the start while it serves, and no other |
| Gesture.EndAfterClose | packages/android-agent/src/AndroidAgent.ts:2740-2766 | An end after an end, a cancel, a clean-up, or a start that left no gesture of its kind, sends nothing anywhere |
| Gesture.CancelCompletesNothing | packages/android-agent/src/AndroidAgent.ts:3045-3056 | A cancel sends at most one cancel on a channel, injects nothing, and makes a helper forget |
| Gesture.UndisturbedGesture | packages/android-agent/src/AndroidAgent.ts:2712-3043 | A start, any moves and an end on any session: pressed, moved and let go point by point on the gRPC channel, else the scrcpy channel, where the size is known; else one injection by the helper; else nothing, and the answer that says so |
| Gesture.DroppedGetsNothing | packages/android-agent/src/AndroidAgent.ts:2723-2766 | Over every run a channel or helper that is dropped, replaced or cleaned up gets nothing from then on, whatever gesture it took |
| Gesture.StandsAsSaid | packages/android-agent/src/AndroidAgent.ts:2723-2728 | A channel is taken as ready, and the video size as known, as the last event about it said |
| GestureSession.DeviceGestures.BeginGesture | packages/android-agent/src/AndroidAgent.ts:2712-2719 | The backend is chosen once, when the gesture opens |
| GestureSession.DeviceGestures.EndGesture | packages/android-agent/src/AndroidAgent.ts:2740-2766 | The record is released before anything is sent; another kind's end closes nothing |
| GestureSession.DeviceGestures.OnStart | packages/android-agent/src/AndroidAgent.ts:2993-3006 | The start handler does the modelled step and nothing else |
| GestureSession.DeviceGestures.OnMove | packages/android-agent/src/AndroidAgent.ts:3008-3023 | The move handler does the modelled step and nothing else |
| GestureSession.DeviceGestures.OnEnd | packages/android-agent/src/AndroidAgent.ts:3025-3043 | The end handler does the modelled step and answers what was dispatched |
| GestureSession.DeviceGestures.OnCancel | packages/android-agent/src/AndroidAgent.ts:3045-3056 | The cancel handler does the modelled step and nothing else |
| GestureSession.TouchHelper.TouchEnd | packages/android-agent/src/AndroidTouchHelper.ts:82-93 | The helper's end takes the gathered touch before anything awaits, once |
| AnnexB.EveryUnitIsStartCoded | packages/android-agent/src/emulator-encoder.swift:92-110 | For any list of non-empty NAL units the length-prefixed form comes out as each behind a start code, in order |
| AnnexB.ScansWhatWasCoded | packages/android-agent/src/emulator-encoder.swift:92-110 | A scanner by the standard's byte stream format reads those units back, each whole and in order, where they came out of emulation prevention |
| AnnexB.LongestWellFormedFront | packages/android-agent/src/emulator-encoder.swift:101-110 | On any buffer the units converted are the longest well-formed front |
| AnnexB.ToStartCodes | packages/android-agent/src/emulator-encoder.swift:100-110 | The callback's loop converts exactly those units |
| AnnexB.FillPixels | packages/android-agent/src/emulator-encoder.swift:156-196 | Every kept pixel is copied with red and blue swapped, row by row, whatever the row padding |
| AnnexB.KeptPixelsAreInFrame | packages/android-agent/src/emulator-encoder.swift:161-193 | Every byte read for the 16-aligned crop lies within w * h * 4 |
| Entities.DecodeUndoesEscaping | packages/android-agent/src/uiTree.ts:26-35 | However each character is written, the seven passes give the text back, as long as no number stands for an ampersand |
| Entities.UndoesExactlyTheNamed | packages/android-agent/src/uiTree.ts:26-35 | Decoding undoes a writer on every text if and only if the writer gives the ampersand its name |
| Entities.XmlTextComesBack | packages/android-agent/src/uiTree.ts:26-35 | Any text escaped as XML 1.0 escapes it, its other characters as they are or numbered in either base, comes back |
| Entities.TooLargeANumberThrows | packages/android-agent/src/uiTree.ts:27-28 | A hexadecimal number past the last code point, the first reference of the text, throws whatever follows |
| Entities.PassResolves | packages/android-agent/src/uiTree.ts:27-34 | One pass replaces the references of its kind and leaves everything else |
| UiTree.RoundsWithin | packages/android-agent/src/uiTree.ts:48-55 | A near edge rounded and a far edge rounded down from it stay within the display and within a rounding step |
| UiTree.EveryFrameIsFaithful | packages/android-agent/src/uiTree.ts:88-128 | For all dumps that give a display: it is the root's or the farthest any node reaches; a node is emitted exactly when some of it is on the display and it is worth an element, in order; and every frame lies in the unit square, its edges the node's or the display's to within a rounding step |
| UiTree.NoTreeWithoutADisplay | packages/android-agent/src/uiTree.ts:74-95 | A dump with nodes gives no tree exactly when none of them reaches right of the origin, or none below it |
| UiTree.ParseNodes | packages/android-agent/src/uiTree.ts:74-128 | The loops over the nodes compute exactly that |
| NetworkControl.BusyIsOutstanding | packages/dashboard/hooks/useNetworkControl.ts:314-359 | The control is busy exactly while a request is outstanding |
| NetworkControl.PositionWasReported | packages/dashboard/hooks/useNetworkControl.ts:226-305 | Online is shown exactly where the last report accepted since the last change of session or readiness has offline false, and offline exactly where it has it true |
| NetworkControl.LastReportIsShown | packages/dashboard/hooks/useNetworkControl.ts:254-305 | What the last accepted report since such a change says is what is shown: where the device is or that nobody knows, whether it can be steered, and why not |
| NetworkControl.AcceptedExactly | packages/dashboard/hooks/useNetworkControl.ts:226-271 | A report is taken exactly where the device is supported and ready, as last said, and the report answers no request the device went with in this session |
| NetworkControl.OnlineIsAskedOfTheReportedOffline | packages/dashboard/hooks/useNetworkControl.ts:331-337 | A press asks the device back online exactly where the last accepted report since the last change of session or readiness says it is offline, and otherwise to go offline; busy or unsupported, it does nothing |
| NetworkControl.AbandonedAnswersChangeNothing | packages/dashboard/hooks/useNetworkControl.ts:177-224 | An answer to a request abandoned by a readiness drop changes nothing in that session, however late |
| NetworkControl.AbandonedExactly | packages/dashboard/hooks/useNetworkControl.ts:177-224 | The requests whose answers are refused are exactly those outstanding when the device went, in this session |
| NetworkControl.OutstandingUntilClosed | packages/dashboard/hooks/useNetworkControl.ts:177-359 | Whatever else arrives, other viewers' answers and errors and further presses included, a request stays outstanding until its own answer, error or deadline, a readiness drop or a new session: both directions, over every run |
| NetworkControl.WaitingEnds | packages/dashboard/hooks/useNetworkControl.ts:108-120 | Waiting is shown only where something ends the wait; while waiting, and while the device is not ready, it is shown as steerable, with no reason not to be |
| NetworkControl.WaitingExactly | packages/dashboard/hooks/useNetworkControl.ts:108-322 | Waiting is shown exactly from a mount, a new session or the device's return until a report is accepted, the deadline passes or the device goes |
| NetworkControl.OnlyEndsAndLossesAreSaid | packages/dashboard/hooks/useNetworkControl.ts:226-359 | A request that ends without its answer is told of once, in its own words; a loss of enforcement where it is not shown already; nothing else says anything |
| NetworkHook.Hook.OnMessage | packages/dashboard/hooks/useNetworkControl.ts:228-303 | The state handler does the modelled step |
| NetworkHook.Hook.ReadinessChanged | packages/dashboard/hooks/useNetworkControl.ts:177-224 | The readiness effect does the modelled step |
| NetworkHook.Hook.SessionChanged | packages/dashboard/hooks/useNetworkControl.ts:129-155 | The reset while rendering and the effects after it make one modelled step |
| NetworkHook.Hook.TogglePressed | packages/dashboard/hooks/useNetworkControl.ts:331-337 | A press makes one request, unless unsupported or busy |
| NetworkHook.Hook.OnErrorMessage | packages/dashboard/hooks/useNetworkControl.ts:229-240 | An error ends only this viewer's own request, says so, and moves nothing |
| NetworkHook.Hook.ReportTimedOut | packages/dashboard/hooks/useNetworkControl.ts:314-322 | The report deadline ends only a wait |
| NetworkHook.Hook.RequestTimedOut | packages/dashboard/hooks/useNetworkControl.ts:350-359 | A request that timed out is given up, and only that one |
| Crc.TableIsDivision | playground/mock-agent.ts:34-46 | Taking a byte through the table is dividing by its eight bits in turn |
| Crc.FillTable | playground/mock-agent.ts:34-42 | The table filled in place holds eight division steps of each index |
| Crc.Crc32Of | playground/mock-agent.ts:44-48 | The table loop computes the bit-by-bit CRC-32 of every message, with every index in the table |
| PngChunk.ChunkRoundTrip | playground/mock-agent.ts:50-57 | A chunk is read back by the standard's layout, and what follows it is left |
| PngChunk.OneByteOfDamageIsRefused | playground/mock-agent.ts:50-57 | A chunk with one byte of its type or data changed, to any value, is refused |
| PngChunk.IendIsTheStandards | playground/mock-agent.ts:34-57 | The chunk every PNG file ends with comes out byte for byte, which pins the polynomial, the byte order and the complement |
| Bytes.ReadsBigEndian | packages/audiotap-helper/src/audiotap-helper.swift:315-317 | The four bytes read are the base-256 digits of the number, the first the most significant |
| Turns.TurnsCompose | packages/dashboard/lib/coordinate-transform.ts:74-81 | Turning twice is turning by the sum: quarter turns act as the integers modulo four |
| Turns.TurnsClockwise | packages/dashboard/lib/coordinate-transform.ts:74-81 | A quarter turn takes each corner of the picture clockwise to the next |
| Turns.TurnsStayStraight | packages/dashboard/lib/coordinate-transform.ts:74-81 | Every turn takes straight lines to straight lines, divided alike, so the corners say where every point goes |
| Turns.TurnsAreRigid | packages/dashboard/lib/coordinate-transform.ts:74-81 | A turn of a picture with its size keeps every distance, across and down trading places at a quarter |
| Turns.RotationCancels | packages/android-agent/src/AndroidAgent.ts:927-941 | Through the frame map and the device map a touch is turned by the skin alone, for every rotation and none |
| Turns.AndroidUndoesItsTurn | packages/dashboard/lib/coordinate-transform.ts:54-65 | The Android pointer map undoes the quarter the canvas was turned by, and refuses exactly what is off it |
| Turns.IosUndoesItsTurn | packages/dashboard/lib/coordinate-transform.ts:16-33 | The iOS pointer map undoes the turn the device was drawn with, and refuses exactly what is off its screen |
| Turns.OverlayReachesThePicture | packages/dashboard/lib/coordinate-transform.ts:192-197 | The overlay's space and its remaining turn add up to the whole turn, of points and of sizes |
| Turns.SurfaceLandsOnTheShell | packages/dashboard/lib/coordinate-transform.ts:174-180 | The surface turned about its centre lands exactly on the shell |
| Turns.PlacedFits | packages/dashboard/lib/coordinate-transform.ts:149-155 | A turned frame is centred in the canvas, inside it, as large as fits, and not stretched |

## Left out

- adb, gRPC, WebSocket, child processes and files: nondeterministic outcomes of the events that await them.
- Real time: deadlines and polls are "expired" outcomes; the resampler's and the tree's floats are reals, so rounding of
  the last bit is not modelled, and neither is a NaN.
- Release of gRPC port reservations: a boot superseded at AndroidAgent.ts:2223 returns before the `finally` that frees
  its port; the set of reservations is not modelled.
- Host mute, audio pumping after the audio handle is published, and the keyframe-aware sender.
- A reconnect gives the agent new session objects; one session here is one such object, until it is dropped.
- The JSON text of the Lean marker: a marker that is not parseable is `Unreadable`, and two texts are equal exactly when
  their markers are.
- LeanRuns.EveryRunIsSafe: leaves out the runs that delete a record after an enable in the same emulator run, because
  there it is false; `LeanStrands.DeletionStrandsExactlyTheReenabled` says so for each of them.
- DeviceStates.DeviceState.CleanupDeviceState: always stops a scrcpy session, where the source does not call its `stop`
  when adb no longer knows the serial.
- The clipboard protocol is a transition system on values: its one map, of parked sentinels, is a number of one device,
  and nothing is said about two devices sharing it. A viewer's own text is taken not to begin with the sentinel prefix,
  and sizes count characters, not UTF-8 bytes.
- The settling loop of the reconcile (which samples agree) and the sizes it commits; only its skin is followed.
- `encodeAdbInputText`, and what Android's `Intent.parseCommandArgs` does beyond splitting at unescaped commas (it also
  drops trailing empty items): that code is not in this repository.
- SPS scaling matrices, on which the parser gives up, and the VUI after the cropping rectangle, which it never reads.
- The parameter sets a keyframe is prefixed with, VideoToolbox and the encoder session.
- Extraction of nodes and attributes from the dump's text by regular expressions, roles, labels and the other element
  fields.
- The network control's toasts, copy and effect registration; two presses batched into one React commit.
- `recordingSize`, `iosTurn`, `composeTurn` and the viewer's visibility gates: one-branch claims.
- Posture, network memory, storage reclaim, device grouping, the relay, the CLI and the dashboard's rendering.
