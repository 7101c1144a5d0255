# OpenCtrl: verified models of the supervisor's stateful cores

OpenCtrl supervises child processes: it launches one child per stored instance,
restarts and replaces children on request, counts the bytes they transfer,
forwards their output and their state to event-stream clients, and keeps its
instances in a state file. This project models the parts of `internal/master`
where goroutines, in-place buffers and saturating counters meet, and proves what
they guarantee over all inputs, all runs and all interleavings. Check it with
`dafny verify dfyconfig.toml`.

## What is modelled

**Log fragmenter** (`Utf8.dfy`, `Fragmenter.dfy`, `FragmenterLaws.dfy`,
`ProcessLog.dfy`). A child's
output arrives in arbitrary chunks and is cut at newlines, or at 16 KiB without
splitting a rune. `Fragmenter` defines a machine that takes one byte at a time;
`ProcessLog.Writer` is the source's bulk loop over its append-and-truncate
buffer, proved equal to that machine. `Utf8` states section 4 of RFC 3629 and, beside
it, Go's `RuneStart` and `FullRune`. Fragments carry a tag for why they were sent
(newline, full buffer, end of process) that the receiver does not see.

**Event stream** (`EventQueue.dfy`, `EventStream.dfy`, `ClientState.dfy`,
`ClientLaws.dfy`, `Publishers.dfy`).
`EventQueue.Subscriber` is the bounded, coalescing queue with its map of latest
states, its log FIFO and its one-slot wake channel. Which of several equally old
states goes first is left open, because the source ranges over a map.
`EventStream` interleaves any number of publishers with the handler's
select-and-drain loop; a failed write and the deferred close after it are two
steps, and a stream counts as open while its queue is open and its handler has not
begun to return. `ClientState` is the reducer that `docs/master.md` gives to
clients. Times are integers.

An event's time is taken before it is enqueued, so events need not be enqueued in
the order of their times, and a client that received everything can end with an
older snapshot. `ClientLaws` says exactly when: two states of an instance coalesce
in the order they were enqueued, and logs are first in, first out, so only the last
log and the last state of an instance can be reversed, and they are if some log up
to that log is no older than the state that follows it, or if the state is newer
than all logs after it up to that log (`Reversible`). `Publishers` adds how the
program's publishers take times, snapshots and the instance's mutex: only the first
of the two cases remains, and it does occur.

**Byte counters** (`ByteCounter.dfy`, `ByteLedger.dfy`, `LifecycleTraffic.dfy`).
uint64 arithmetic with explicit wrap-around, as one counter and as the object with
four of them, beside a ledger of unbounded numbers that is kept without looking at
the counter. The documentation promises that `reset` preserves counter bases for
future snapshots; the code keeps that promise exactly when the total has not cut
off bytes of the running process (`ResetForgetsIff`), and
`SaturatedResetResurfaces` gives the input where it does not. `LifecycleTraffic`
carries the ledger's laws over to every run of the lifecycle.

**Instance lifecycle** (`Instance.dfy`, `Lifecycle.dfy`, `LifecycleProof.dfy`,
`LifecycleLaws.dfy`, `LifecycleEffects.dfy`, `LifecycleHistory.dfy`,
`Supervised.dfy`, `Supervisor.dfy`, `SupervisorProgress.dfy`). `Instance` has the
fields that the instance's mutex guards and what each critical section does to
them, both as functions and as an object that assigns fields. `Lifecycle` turns
each critical section into one atomic step. `lifecycleMu` is a single holder with
a program counter; a start takes the mutex in one step and releases it in another,
so that other goroutines may run between its test of `periodicDone` and its
launch, but only those that do not need the mutex. Each launched process has a
monitor, a telemetry goroutine and log writers. Process exits, exit codes,
timeouts, launch outcomes and telemetry values are free choices. Processes are
numbered in launch order; a command and the two channels made for it go by that
number. `LifecycleLaws` has what can never happen, `LifecycleEffects` what each
operation achieves and that it can always end, and `LifecycleHistory` what is
shown of a history that each step keeps without regard to what the program made of
it. A process reports byte counts from zero that never fall. `Supervised.Child` is
one instance with its processes as an object; its methods take exactly the steps
of `Lifecycle`, so whatever is done to it is a run of the lifecycle. `Supervisor`
puts any number of instances beside shutdown, whose range over the map must visit
every key that stays in it.

**State file** (`StateFile.dfy`, `StateFileLaws.dfy`, `StateStore.dfy`). Saves
hold one lock, collect instances one by one while they go on changing, and end in
one rename. An instance is a version number and whether it is still to be loaded,
in the map, or removed. `Range` may hand over whatever was in the map at some
point since it began. A run starts from the files of an earlier one. `loadState`
launches some instances while others are still to be loaded, and the monitor of
one that ends at once saves the state, so the file can lose instances that were
not removed. `KeptIffNotExposed` says exactly which ones and when.
`StateStore.Store` has the loops of `loadState` and `saveStateToPath`, tied to the
same steps.

`Runs.dfy` has the inductions over runs, `Sequences.dfy` and `Wrappers.dfy`
small facts and types.

## Model

| member | source | states |
| --- | --- | --- |
| Utf8.FullRuneMeaning | internal/master/output.go:36-40 | The test that decides whether a full buffer is sent whole answers "not full" exactly for what more bytes could still complete to one code point of RFC 3629. |
| Utf8.CutAtRuneStart | internal/master/output.go:36-39 | Valid UTF-8 may be cut before any byte that starts a rune: both parts are valid. This is why scanning back to a rune start is enough. |
| Utf8.FullTailIsChar | internal/master/output.go:36-46 | In valid text, a tail with one rune start that passes the full-rune test is exactly one code point. |
| Fragmenter.LastStart | internal/master/output.go:36-39 | The backward scan ends at the last rune start, or at 0. |
| Fragmenter.CutPoint | internal/master/output.go:36-47 | A full buffer keeps back at most three bytes. |
| Fragmenter.FeedConcat | internal/master/output.go:20-51 | Chunking does not matter: feeding a and then b is feeding a + b. |
| Fragmenter.FeedTurn | internal/master/output.go:24-48 | One turn of the bulk loop, which takes up to the next newline or the room left, is the same number of single-byte steps. |
| Fragmenter.TranscriptConserves | internal/master/output.go:20-65 | After the flush, the fragments with their newlines put back spell exactly the input, for arbitrary bytes. |
| Fragmenter.TranscriptBounds | internal/master/output.go:10-57 | No fragment holds a newline or exceeds 16384 bytes, a line is split only after at least 16381 bytes, and a final fragment is not empty. |
| Fragmenter.LinesArriveWholeIff | internal/master/output.go:24-48 | No line is ever split if and only if every stretch without a newline is shorter than 16384 bytes. |
| FragmenterLaws.EveryCutIsForced | internal/master/output.go:20-65 | Each fragment is a stretch of the output that ends at a newline, or at the end of the output, or, if the next 16384 bytes hold no newline, after all of them, unless their end could still be completed to one code point, and then right before that. |
| Fragmenter.TranscriptValid | internal/master/output.go:20-65 | Every fragment is valid UTF-8 if and only if the whole output is, however runes fall across writes and limits. |
| ProcessLog.IndexByte | internal/master/output.go:27 | The first position of a byte, or -1 if it does not occur. |
| ProcessLog.Writer.constructor | internal/master/instance.go:131-132 | A new writer holds nothing and has sent nothing. |
| ProcessLog.Writer.Emit | internal/master/output.go:53-57 | Sends the pending bytes without a final newline and empties the buffer. |
| ProcessLog.Writer.SplitFull | internal/master/output.go:35-47 | The in-place scan, cut and re-append of a full buffer sends up to the cut point and keeps the rest. |
| ProcessLog.Writer.Write | internal/master/output.go:20-51 | The bulk loop leaves the buffer and the messages of the one-byte machine, keeps room in the buffer, and reports all bytes as written. |
| ProcessLog.Writer.Flush | internal/master/output.go:59-65 | Sends what is left, if anything. |
| ProcessLog.WriteInTwo | internal/master/output.go:20-65 | Two writes and the monitor's flush send the messages of the concatenated output. |
| EventQueue.Subscriber.constructor | internal/master/event.go:33-37 | A new subscriber is empty, open, and has no token. |
| EventQueue.Subscriber.Close | internal/master/event.go:163-165 | Closes the done channel and nothing else; closing twice is harmless. |
| EventQueue.Subscriber.Enqueue | internal/master/event.go:104-133 | Appends a log or replaces its instance's state, leaves a token, closes the queue on overflow, and ignores events once closed. |
| EventQueue.Subscriber.Next | internal/master/event.go:135-161 | Removes and returns the oldest log if it is older than all states, else a state that is oldest, else nothing; a closed queue gives nothing. |
| EventQueue.Drain | internal/master/event.go:65-73 | Left alone, the drain loop ends, writes only pending events and, unless a write fails or a shutdown event is written, all of them. |
| EventStream.QueueIsBounded | internal/master/event.go:112-127 | In every run there are at most 10 logs and 1024 states in a queue. |
| EventStream.OpenUntilFull | internal/master/event.go:104-133 | An event enqueued to an open stream is pending afterwards and the stream stays open, except for a log after exactly 10 pending logs or a state of another instance beside exactly 1024 pending states. |
| EventStream.PublishingNeverBlocks | internal/master/event.go:89-109 | Whatever the handler does, an event can be published, and a closed subscriber takes nothing. |
| EventStream.HandlerCanLeave | internal/master/event.go:34-37 | A handler that waits can always leave, and its subscriber is then closed. |
| EventStream.ClosedWritesNothing | internal/master/event.go:135-142 | Once a subscriber is closed, nothing more is written to its client. |
| EventStream.WriteDecides | internal/master/event.go:65-73 | A handler leaves after a failed write, which sends nothing, and after a shutdown event, and otherwise goes on draining. |
| EventStream.NoLostWakeup | internal/master/event.go:58-75 | In every interleaving, an open subscriber whose handler waits with something pending has a token in its wake channel. |
| EventStream.LogsAreFifo | internal/master/event.go:58-155 | While the stream is open, written logs followed by queued logs are all enqueued logs in order; at all times the written logs are a prefix of them. |
| EventStream.WrittenInTimeOrder | internal/master/event.go:143-159 | If events are enqueued in (strict) time order they are written in (strict) time order. |
| EventStream.OnlySupersededStatesDrop | internal/master/event.go:104-161 | In every run and for any times, each event enqueued to an open stream is written, or pending, or a state for whose instance a later-enqueued state is written or pending. |
| EventStream.WrittenIsSubsequence | internal/master/event.go:135-161 | With strictly increasing times, what was written is a subsequence of what was enqueued. |
| EventStream.WrittenEventsAreCaughtUp | internal/master/event.go:135-161 | With strictly increasing times, once an event is written, each event enqueued before it is written too, or superseded by a state that is written or newer than it. |
| EventStream.ShutdownComesLast | docs/master.md:836-837 | With strictly increasing times, a shutdown event that is written is the last event written, and comes after every log enqueued before it and after the state enqueued last of each instance. |
| EventStream.LogWaitsItsTurn | internal/master/event.go:150-155 | With strictly increasing times, however many events arrive meanwhile, a queued log waits for at most the older events pending when it was enqueued, so never for more than 1034. |
| ClientState.LastEventDecides | docs/master.md:622-638 | The last event about an instance decides whether the client has it and with which snapshot. |
| ClientLaws.SleepingHandlerLeftClientCurrent | internal/master/event.go:58-75 | From any initial map, a client of an open stream whose handler sleeps without a token holds exactly the instances that the whole uncoalesced history gives, unless for one of them the last log and the last state leave different things and next can reverse them. |
| ClientLaws.CurrentIffNotMisled | internal/master/event.go:135-161 | For every history without shutdown events that cannot overflow a queue, the client is current in every run that leaves its handler asleep, if and only if there is no such instance. |
| ClientLaws.MisledRun | internal/master/event.go:150 | For each such instance there is a run in which everything was enqueued, nothing is pending, and the client ends with what the earlier of the two left. |
| ClientLaws.InTurnIsNotMisled | internal/master/event.go:135-161 | There is none if each state is newer than all logs enqueued before it and each log no older than the states of its own instance enqueued before it. |
| Publishers.OnlyLastStatesAreReversed | internal/master/runtime.go:134-140 | In what the publishers can enqueue, only a state that was enqueued after the last log of its instance can be reversed with it, since a log is timed and enqueued under one hold of the mutex. |
| Publishers.OutOfOrderTimesMislead | internal/master/event.go:78-87 | A history the publishers can enqueue, and a run of it that ends with the older snapshot: a log, and an update timed before it and snapshotted and enqueued after it. |
| ByteCounter.ApplyCounter | internal/master/runtime.go:179-192 | The total becomes base plus the bytes beyond the offset, cut off at the largest uint64; a value below the offset counts in full and clears the offset. |
| ByteCounter.Traffic.constructor | internal/master/state.go:113-123 | A loaded instance has its saved totals and zero bases and offsets. |
| ByteCounter.Traffic.ApplySnapshot | internal/master/runtime.go:162-177 | Each of the four counters takes its own value. |
| ByteCounter.Traffic.Reset | internal/master/rest.go:198-207 | Each counter is cleared, with what it showed added to its offset. |
| ByteCounter.Traffic.Rebase | internal/master/instance.go:96-100 | Each total becomes the base for a new process and each offset zero. |
| ByteLedger.OperationsStaySound | internal/master/rest.go:198-207 | base <= total and reset + (total - base) <= 2^64-1 are kept by every operation, for arbitrary reported values, and hold after loading. |
| ByteLedger.NoWrap | internal/master/rest.go:200-203 | Under that condition the subtraction and addition of the reset action do not wrap around. |
| ByteLedger.RepeatedSnapshot | internal/master/runtime.go:179-192 | Applying the same snapshot twice is applying it once, for every counter and value. |
| ByteLedger.ShownTotal | internal/master/runtime.go:162-192 | Over every run of starts, exits, snapshots and resets the shown total is the ledger's, cut off at 2^64-1: the bytes due since the last reset, and of earlier bytes exactly those of the running process that a total above 2^64-1 had no room for when it was reset. |
| ByteLedger.ExactTotal | internal/master/runtime.go:162-192 | If no reset met more than 2^64-1 bytes, the shown total is the smaller of 2^64-1 and the bytes due since the last reset across all processes. |
| ByteLedger.SnapshotsClearTheOffset | internal/master/runtime.go:181-186 | A running process's next snapshot is never below the reset offset, so the branch that discards the offset is not taken. |
| ByteLedger.EachProcessCountsOnce | internal/master/instance.go:96-100 | Without resets the bytes due are the saved total and, once for each process, the last value it reported. |
| ByteLedger.ResetForgetsIff | internal/master/rest.go:198-207 | In every run and at any time while a process runs, the first snapshot after a reset shows only bytes newer than it if and only if the total showed all that the process had reported beyond the offset; equivalently, nothing is hidden, and the process has no part in the total or nothing of it was cut off. |
| ByteLedger.SaturatedResetResurfaces | internal/master/rest.go:198-207 | From a full counter, a reset followed by a snapshot with no new bytes shows everything the process had reported before. |
| Instance.Record.constructor | internal/master/rest.go:63-73 | A created instance is stopped and has no process, failure or live figures; its counters show what was saved, and zero if it is new. |
| Instance.Record.ResetStoppedLocked | internal/master/util.go:59-70 | Stopped, without process, channels, failure or live figures. |
| Instance.Record.LaunchLocked | internal/master/instance.go:96-163 | The counters are rebased whatever follows; what a launch that finds no executable, cannot start it, or succeeds leaves behind. |
| Instance.Record.StartTestsLocked | internal/master/instance.go:75-94 | A start is refused while shutting down, when deleted or when not stopped, and rejected for an unsupported or mismatched URL. |
| Instance.Record.StopFirstLocked | internal/master/instance.go:233-247 | A stop finds the instance stopped, or without a process and resets it, or with a process and the channel to wait for. |
| Instance.Record.SettleLocked | internal/master/instance.go:177-203 | The monitor changes the instance only for its own process and only if neither a stop nor a delete has begun: stopped after success, failed otherwise. |
| Instance.Record.ReplaceLocked | internal/master/rest.go:296-302 | The new URL and type, and stopped; nothing else. |
| Instance.Record.PatchLocked | internal/master/rest.go:198-211 | The counters are cleared on a reset and the restart policy set if given. |
| Instance.Record.ApplyHelloLocked | internal/master/runtime.go:154-160 | The identity is set only for the current, unstopped process. |
| Instance.Record.ApplySnapshotLocked | internal/master/runtime.go:162-173 | The live figures and all four counters take the snapshot, only for the current, unstopped process. |
| LifecycleProof.DoKeepsInv | internal/master/instance.go:74-310 | Every step of every operation and goroutine keeps the lifecycle invariant. |
| LifecycleProof.SettleActsAlone | internal/master/instance.go:177-199 | When a monitor does change the instance, no stop is past its first section and no start is past its tests. |
| LifecycleLaws.StatusIsCoherent | internal/master/instance.go:82-163 | At every release of the mutex: running if and only if there is a command, which was launched with the current URL, whose scheme is the type; a runtime failure stands if and only if the status is error and the URL can be started; an instance that is not running has zero live figures. |
| LifecycleLaws.NoStrayProcess | internal/master/instance.go:232-296 | Every launched process that is not the instance's command has exited or been sent Kill. |
| LifecycleLaws.StopAlwaysHasAChannel | internal/master/instance.go:285-288 | The branch that kills without an exit notification is never reached. |
| LifecycleLaws.StopWins | internal/master/instance.go:293-310 | From the return of a stop to the start half of the same operation the instance is stopped, with no command and no failure, whatever the monitor did. |
| LifecycleLaws.StartHalfIsRefusedOnly | internal/master/rest.go:294-305 | The start half of a restart or a replacement is refused if and only if the master shuts down or the instance is deleted; that of a replacement is never rejected and only shutdown refuses it. |
| LifecycleLaws.DeletionIsPermanent | internal/master/rest.go:328-341 | Once removed, an instance is never stored again, no field of it changes, byte counters included, no process is launched for it, and it stays stopped. |
| LifecycleLaws.StoredUnlessDeleted | internal/master/rest.go:320-341 | While no operation holds lifecycleMu an instance is in the map if and only if it is not deleted. |
| LifecycleLaws.RetirementIsFinal | internal/master/instance.go:174-199 | A process that stopped being the command never is again, gets no further identity, and has no further log published. |
| LifecycleLaws.OneIdentityPerProcess | internal/master/runtime.go:25-39 | No process is ever given two different telemetry identities, though the test and the assignment are separate critical sections. |
| LifecycleLaws.LogsPrecedeRetirement | internal/master/runtime.go:134-140 | No log of a process is published after a state event whose snapshot shows that process as gone, although snapshots are published some time after they are taken. |
| LifecycleLaws.HourlyRestartFindsNoProcess | internal/master/instance.go:211-222 | However old the scan, the hourly restart reaches stop only with a restart wanted and a failure standing, and only through the branch without a process. |
| LifecycleLaws.HourlyRestartNeverSignals | internal/master/periodic.go:24-40 | No signal, wait or kill of a stop is ever on behalf of the hourly restart. |
| LifecycleEffects.EveryOperationEnds | internal/master/instance.go:232-310 | An operation that takes lifecycleMu can always come to its end or to a launch by its own steps, even if its process never ends. |
| LifecycleEffects.StopTakesEffect | internal/master/instance.go:224-301 | However goroutines interleave, a stop ends with the instance stopped, without command or failure, every process it ever had ended or sent Kill, and nothing else of it changed. |
| LifecycleEffects.EndedProcessIsNotKilled | internal/master/instance.go:268-275 | A stop whose process has ended can see it, and then kills nothing. |
| LifecycleEffects.RestartLaunchesIff | internal/master/instance.go:303-310 | However goroutines interleave and whatever its stop has to wait for, a restart gets to a launch if and only if the master is not shutting down, the instance is not deleted and its URL can be started; otherwise it ends stopped, or in error for such a URL. |
| LifecycleEffects.StartLaunchesIff | internal/master/instance.go:66-94 | An undisturbed start gets to a launch if and only if, besides, the instance is stopped; otherwise it changes nothing but the status for a URL that cannot be started. |
| LifecycleEffects.LaunchTakesEffect | internal/master/instance.go:96-163 | A successful launch adds exactly one process, which is the command and runs the instance's URL; a failed one adds none and leaves an error with a standing failure. |
| LifecycleEffects.PutReplacesAndLaunches | internal/master/rest.go:278-305 | However goroutines interleave, a PUT of another URL on an instance in the map ends with that URL and type, and gets to a launch if and only if the master is not shutting down. |
| LifecycleEffects.RefusedDoesNothing | internal/master/rest.go:272-292 | A PUT of the current URL, and a PUT or DELETE on an instance that is not in the map, leave fields, processes and map as they were. |
| LifecycleEffects.DeleteRemoves | internal/master/rest.go:328-341 | However goroutines interleave, a DELETE on an instance in the map ends with it removed, marked and stopped, and all its processes ended or sent Kill. |
| LifecycleEffects.PatchTakesEffect | internal/master/rest.go:180-227 | A PATCH on an instance in the map sets the restart policy it names and clears the four totals if it is to reset them, and changes nothing else; on others it does nothing. |
| LifecycleEffects.EndTakesEffect | internal/master/instance.go:177-199 | A process that ended without being told to leaves the instance stopped after success and failed otherwise, with everything else of it unchanged; any other process leaves it as it is. |
| LifecycleEffects.ExitIsKept | internal/master/instance.go:174-189 | A process may end at any time, well or not, and its monitor learns which. |
| LifecycleEffects.MonitorCanFinish | internal/master/instance.go:174-204 | Once a process has ended, its monitor gets through the flush, its section and the closing of the exited channel, each as soon as the mutex is free. |
| LifecycleEffects.NobodyIsKeptOut | internal/master/runtime.go:98-177 | While no start holds the mutex, telemetry, log writers and senders of state events can take their steps, whatever operation is in progress. |
| LifecycleEffects.HelloTakesEffect | internal/master/runtime.go:25-39 | Telemetry accepts a registry name unless the instance has another one, and then names the instance by it if the process still serves. |
| LifecycleEffects.HourlyRestartLaunchesIff | internal/master/instance.go:211-222 | Undisturbed, the hourly restart gets to a launch if and only if a failure stands, a restart is wanted, the instance is in the map and the master is not shutting down; without such a failure it does nothing. |
| LifecycleEffects.RelaunchedIffFailed | internal/master/instance.go:184-197 | A process that ends by itself is launched again by the hourly restart if and only if it failed. |
| LifecycleEffects.FailedLaunchIsRetriedIff | internal/master/instance.go:107-152 | A launch that failed is tried again by the hourly restart if and only if a restart is wanted. |
| LifecycleHistory.LinesArePublished | internal/master/runtime.go:134-140 | The logs published are, in order, exactly the lines written while the writing process was the command of an instance that was not deleted, whether or not it was already being stopped. |
| LifecycleHistory.SnapshotsArePublished | internal/master/event.go:78-87 | Each snapshot taken for a state event is published once or still waits. |
| LifecycleHistory.LiveFiguresAreLastReported | internal/master/runtime.go:116-177 | The active sessions shown are those of the last snapshot that a serving process sent since its launch, and none after its telemetry or the process ended. |
| LifecycleTraffic.LedgerRun | internal/master/runtime.go:162-173 | In every interleaving of operations, processes and telemetry, what reaches a counter is an allowed ledger history whose last state has that counter; late snapshots of other processes are no part of it. |
| LifecycleTraffic.TotalsAreExact | internal/master/runtime.go:162-192 | So each shown total of an instance is what its ledger says, and exactly the bytes due if no reset met more than 2^64-1. |
| LifecycleTraffic.TotalsCountEachProcessOnce | internal/master/instance.go:96-100 | Without resets it is the total the instance was made with and, once for each process ever launched, the last value that was applied, cut off at 2^64-1. |
| Supervised.Child.Act | internal/master/instance.go:74-310 | Every step of the lifecycle is what the object does when it assigns its fields; a stop closes the stopped channel of its process once. |
| Supervised.Drive | internal/master/instance.go:74-310 | Any list of attempted steps, each taken if possible when its turn comes, leaves the object in the last state of a lifecycle run. |
| Supervisor.ShutdownLeavesNoChild | internal/master/master.go:203-220 | Once shutdown's wait returns, every process ever launched for any instance has exited or been sent Kill, and no later step launches one, in every interleaving with requests, monitors and new instances. |
| SupervisorProgress.ShutdownCanFinish | internal/master/master.go:198-220 | Every run of the master can go on to the return of shutdown's wait, with no new instance, all that there were, and no process that has to end by itself; every process has then ended or was sent Kill. |
| SupervisorProgress.InstancesAreFree | internal/master/master.go:203-220 | Neither shutdown nor other instances keep an instance from any step of its lifecycle. |
| SupervisorProgress.CreateTakesEffect | internal/master/rest.go:58-82 | A POST can always add an instance, which is in the map, stopped, to be restarted after failures, with zero totals and no process, and leaves the others as they were. |
| Supervisor.StepKeepsInv | internal/master/master.go:203-220 | Once periodicDone is closed, every instance has no process, or its stop is awaited, or the range is still to visit it. |
| Supervisor.InstanceRun | internal/master/master.go:198-222 | The history of each instance in a run of the master is a run of the lifecycle, so the lifecycle laws hold of it. |
| StateFileLaws.ChangesCount | internal/master/state.go:19-36 | A loaded, added or changed instance is in the map with a new version, a removed one is not, and a scheduled save owes all versions of that time. |
| StateFileLaws.NobodyIsKeptOut | internal/master/state.go:19-29 | After the loading, a save that was asked for, a backup or a request waits for nothing but the save in progress. |
| StateFileLaws.SavesNeverGoBackward | internal/master/state.go:27-85 | Over any concurrent saves, failures and changes, the version of an instance in a file never falls, and an instance that is not exposed leaves the file only if it was removed. The file is the state file or one written since the start. |
| StateFileLaws.KeptIffNotExposed | internal/master/state.go:113-133 | An instance that is in such a file and not removed stays there, at no earlier version, in all that can follow, if and only if it is not exposed. It is exposed in the state file if it is still to be loaded while another instance whose process the loading launches is in the map or still to be loaded; or if a save that began before it was loaded has not collected it. |
| StateFileLaws.UnlaunchedIsHarmless | internal/master/state.go:125-132 | An instance beside which the loading launches no other process is never lost from the state file. |
| StateFileLaws.LoadingCanDrop | internal/master/state.go:113-133 | From a file with two instances, the first of which the loading launches, there is a run in which a save leaves the file without the second, which was not removed. |
| StateFileLaws.RemovedStaysOut | internal/master/state.go:27-85 | A file that reflects a removal never shows the instance again. |
| StateFileLaws.ScheduledChangesAreSaved | internal/master/state.go:12-25 | With no save pending or in progress and the last one to begin not failed, the state file holds every change for which a save was scheduled. |
| StateStore.Store.LoadAll | internal/master/state.go:113-133 | The loop resets everything that was read, puts it into the map and launches those that are to be started, one after the other, step by step of the concurrent model. |
| StateStore.Store.SaveStateToPath | internal/master/state.go:27-85 | Undisturbed, a successful save makes the file exactly the instances in the map (or removes it when there are none), a failed one changes no file, and either is a sequence of steps of the concurrent model. |

## Left out

- HTTP routing, JSON, CORS, the API-key check, `handleInfo` and `handleTCPPing`: plumbing around the locked state changes modelled here.
- The API-key instance: it is never launched; its regeneration only replaces a string.
- Real processes, signals, timers and contexts: exits, timeouts and launch results are free choices; a returned `Wait` means that the process exited. A cancelled context kills its process too, but only where the source also kills it or after it exited, so `cancelFunc` has no field here.
- Telemetry discovery, connection, framing and peer checks, and `clampSignedInt32`: a hello carries the registry name that passed the test, and live figures are natural numbers already clamped.
- The role check of a telemetry hello: it can only reject more.
- Gob encoding and file-system details: encoding is the identity and rename is atomic; a stat or directory error counts as a failed save.
- Alias, tags, peer metadata and mode: they are assigned and copied only.
- Range over the subscribers map in `publishEvent` and `shutdownSSEConnections`: one subscriber is followed, and every event may reach it.
- Order of `initial` events against live ones, and freshness across concurrent publishers: the code does not make snapshot and enqueue atomic.
- Starvation of state events: each replacement moves a state back in time order, so no bound like that of logs holds for them.
- ClientLaws.CurrentIffNotMisled: exact for histories of at most 10 logs and 1024 instances, which cannot overflow a queue however slow the client is; beyond that, the condition is proved sufficient only.
- Sharing of one instance object by several goroutines is expressed by the interleaving of atomic steps, taken by Supervised.Child one at a time. The hourly scan itself is not modelled: an attempt may begin at any time on any instance.
- Supervisor: the deadline after which shutdown stops waiting is not modelled; the claims are that the wait can return, and what holds once it has; that a scheduler takes the steps to it is assumed. Instance IDs are assumed not to be reused.
- StateStore.Store.SaveStateToPath: describes one save while nothing changes; concurrent saves are the steps of StateFile.
- StateFileLaws.SavesNeverGoBackward: says nothing about a backup that an earlier run left, until it is written again; it may be newer than the state file that was loaded.
- A state file that cannot be read: its instances count as removed.
- Which instances loadState launches (`restart`, a supported type, not the API key, a process that starts) is a set given to a run of StateFile; that such a process may end at any time is a free choice.
