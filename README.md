# rFactor 2 tyre telemetry bridge — Dafny model

This project models the core of TelemetryApp, a bridge that reads rFactor 2's
shared-memory telemetry and forwards tyre temperatures of the player's car.

- **Double-buffered reader** (`SharedMemory`, from `TelemetryApp/MappedDoubleBuffer.cs`).
  `MappedDoubleBuffer<T>` is a class. Its fields are the three handles and the
  retained `fullSizeBuffer` array. It has `Connect`, `Disconnect` and the two
  reads. Each read takes the mutex and reads buffer 1's header. It then reads
  bytes from buffer 1 when the header's `mCurrentRead == 1`, otherwise from
  buffer 2. It releases the mutex and decodes. The partial read reads only the
  hinted number of bytes. It copies them over the front of `fullSizeBuffer`
  and decodes the merged image.
  - Each method is proved against a pure function of a value snapshot
    (`FullRead`, `PartialRead`).
  - A ghost event log (`Acquire`, `ReadHeader`, `ReadPayload`, `Release`,
    `Copy`, `Decode`, `Dispose`) records the order of the steps. This lets the
    model state the lock bracketing.
- **Record shapes** (`Rf2Data`). These are the fields of the rF2 records that
  the loop reads.
- **Outbound message** (`TelemetryMessage`, from `TelemetryApp/Telemetry.cs`).
  These are pure per-wheel projections.
- **Polling loop** (`Application`, from `TelemetryApp/ApplicationManager.cs`).
  - `ApplicationManager` holds Run's locals that persist across iterations as
    fields. `Tick` is one iteration. `Run` drives ticks over a finite supply of
    memory snapshots.
  - `MapIdToPositionInArray` is the id map loop, proved against `IdMap`.
  - `ScanScoringVehicles` is the `foreach` scan, proved against `Scan`.

Environment inputs:
- The contents of the mapped files, and how the 5000 ms mutex wait ends
  (acquired, timed out or threw), are parameters of each read (`Memory`).
- The names the simulation has created are a parameter of `Connect`.
- The binary layouts are a `Layout<T>` value: the record size, the two header
  sizes, and the header and record decoders standing for
  `Marshal.SizeOf`/`Marshal.PtrToStructure`.

Temperatures are carried as uninterpreted 64-bit patterns (`Double`). The
model only copies them.

Behaviours of the code a reader may not expect:
- When no scoring entry is flagged as the player, the tick does not go idle.
  The selection from an earlier tick is looked up again, or the default record
  (mID 0) on the first tick. It can still produce a message
  (`DefaultSelectionIsLookedUp`, `StaleSelectionExample`).
- The cancellation token passed to `Run` is never read. The loop ends only
  when a read raises (or when an exception escapes it).
- A lock timeout is not reported. The caller's record stays as it was and the
  tick carries on.

## Model

| member | source | states |
|---|---|---|
| `SharedMemory.ReadBytes` | TelemetryApp/MappedDoubleBuffer.cs:94-95 | a read from offset 0 gives the first `count` bytes of the view, or the whole view when it is shorter |
| `SharedMemory.Merge` | TelemetryApp/MappedDoubleBuffer.cs:182 | after the copy, the first `|read|` bytes are the bytes read and the rest are the retained bytes; the length is unchanged |
| `SharedMemory.MergeAll` | TelemetryApp/MappedDoubleBuffer.cs:22-26 | a series of partial copies keeps the retained buffer at its length |
| `SharedMemory.ReadsAreLockBracketed` | TelemetryApp/MappedDoubleBuffer.cs:75-190 | on every path of both reads, either the mutex is never taken, or it is acquired, only the mapped files are read, it is released exactly once, and copy and decode come only after the release |
| `SharedMemory.TimeoutChangesNothing` | TelemetryApp/MappedDoubleBuffer.cs:75 | when the mutex wait times out, neither read logs a step, changes the retained buffer, yields a record or raises |
| `SharedMemory.FullReadDecodesCurrentBuffer` | TelemetryApp/MappedDoubleBuffer.cs:80-118 | the full read decodes the first record-size bytes (header included) of buffer 1 exactly when buffer 1's header has mCurrentRead == 1, else of buffer 2; the retained buffer is untouched |
| `SharedMemory.PartialReadMergesChosenPrefix` | TelemetryApp/MappedDoubleBuffer.cs:139-187 | the partial read takes the chosen buffer's own hint: a negative count raises; a read longer than the retained buffer raises on copy; otherwise the read bytes overwrite the front of the retained image, the rest is kept, and the merged image is decoded |
| `SharedMemory.PartialWholeRecordMatchesFull` | TelemetryApp/MappedDoubleBuffer.cs:151-173 | with hint 0 (or the full record size) in the chosen buffer, the partial read decodes the same record as the full read of the same memory, and the retained image becomes that record's bytes |
| `SharedMemory.RetainedByteIsLatestWrite` | TelemetryApp/MappedDoubleBuffer.cs:182-187 | after any series of partial reads, each retained byte is the one delivered by the latest read covering it, else its value before the series |
| `SharedMemory.MappedDoubleBuffer.constructor` | TelemetryApp/MappedDoubleBuffer.cs:32-38 | stores the layout and the three names; no handle is open and there is no retained buffer |
| `SharedMemory.MappedDoubleBuffer.Connect` | TelemetryApp/MappedDoubleBuffer.cs:40-48 | opens mutex, file 1 and file 2 in that order; a missing name raises ResourceNotFound and leaves the handles opened before it; on success it allocates a fresh zero-filled buffer of exactly the record size |
| `SharedMemory.MappedDoubleBuffer.Disconnect` | TelemetryApp/MappedDoubleBuffer.cs:50-65 | disposes only the handles that are open (file 1, file 2, mutex), then clears all handles and the retained buffer; when nothing is open it disposes nothing, so a repeated call does nothing more |
| `SharedMemory.MappedDoubleBuffer.ReadFullSection` | TelemetryApp/MappedDoubleBuffer.cs:78-109 | the try block of the full read logs and returns exactly what `FullSection` prescribes |
| `SharedMemory.MappedDoubleBuffer.GetMappedData` | TelemetryApp/MappedDoubleBuffer.cs:67-122 | implements `FullRead`: log, ref result and exception as that function says; it changes only the log, so never the retained buffer |
| `SharedMemory.MappedDoubleBuffer.ReadPartialSection` | TelemetryApp/MappedDoubleBuffer.cs:137-176 | the try block of the partial read logs and returns exactly what `PartialSection` prescribes, reading buffer 2's own header when buffer 1 is not current |
| `SharedMemory.MappedDoubleBuffer.GetMappedDataPartial` | TelemetryApp/MappedDoubleBuffer.cs:124-191 | implements `PartialRead`: the retained buffer's new contents, the log, the ref result and the exception are those of that function; handles are unchanged |
| `TelemetryMessage.TelemetryOf` | TelemetryApp/Telemetry.cs:15-19 | the message has exactly one rubber and one carcass entry per wheel |
| `TelemetryMessage.MessageCarriesWheelTemperatures` | TelemetryApp/Telemetry.cs:15-57 | wheel i of the message carries wheel i's inner-layer temperatures as Left, Right, Middle = indices 0, 1, 2 (all 0 when the array is null) and Value = its carcass temperature, in wheel order |
| `Application.IdMap` | TelemetryApp/ApplicationManager.cs:86-96 | every key maps to an index in range whose entry carries that id |
| `Application.IdMapFirstOccurrence` | TelemetryApp/ApplicationManager.cs:91-92 | id maps to i exactly when i is the smallest index carrying that id (both directions) |
| `Application.IdMapKeys` | TelemetryApp/ApplicationManager.cs:89-93 | every id carried at a visited index is a key |
| `Application.CountedVehicles` | TelemetryApp/ApplicationManager.cs:89 | the loop visits indices 0 .. mNumVehicles-1, none when the count is not positive |
| `Application.MapIdToPositionInArray` | TelemetryApp/ApplicationManager.cs:86-96 | raises exactly when mNumVehicles exceeds the array; otherwise returns `IdMap` of the visited entries, in which each first occurrence maps to its index |
| `Application.IdMapExample` | TelemetryApp/ApplicationManager.cs:91-92 | ids [5, 5, 7] give {5 → 0, 7 → 2} |
| `Application.FirstEligible` | TelemetryApp/ApplicationManager.cs:57-66 | the result is an entry whose control is AI, Player or Remote and no earlier entry has such a control; none exactly when no entry has one |
| `Application.FirstFlagged` | TelemetryApp/ApplicationManager.cs:59-63 | the result is an eligible entry with mIsPlayer == 1 and no earlier entry is both; none exactly when no entry is |
| `Application.ScanKeepsOrPicksFlagged` | TelemetryApp/ApplicationManager.cs:62-63 | the scan's result is the selection carried in or an eligible entry of the array with mIsPlayer == 1 |
| `Application.ScanWithoutCarriedPlayer` | TelemetryApp/ApplicationManager.cs:55-69 | with no player carried in, the scan picks the first eligible flagged entry, or keeps the carried record when there is none |
| `Application.ScanWithCarriedPlayer` | TelemetryApp/ApplicationManager.cs:68 | with a player carried in, the scan stops at the first eligible entry: takes it if flagged, else keeps the carried record; ineligible entries never stop it |
| `Application.ScanExample` | TelemetryApp/ApplicationManager.cs:55-69 | (1, Player, not player), (2, Remote, player) selects vehicle 2 |
| `Application.StaleSelectionExample` | TelemetryApp/ApplicationManager.cs:34 | a carried player behind an eligible non-player entry is not refreshed |
| `Application.Sent` | TelemetryApp/ApplicationManager.cs:76-80 | a tick sends at most one message |
| `Application.CorrelateSendsIffMapped` | TelemetryApp/ApplicationManager.cs:51-80 | a message is sent exactly when the gate is open, the count fits the array and the selected id occurs among the counted telemetry entries; it is built from the first such entry, whose id is the selection's |
| `Application.GateClosedSendsNothing` | TelemetryApp/ApplicationManager.cs:51 | with a zero count or a phase other than GreenFlag, nothing is mapped, scanned or sent |
| `Application.DefaultSelectionIsLookedUp` | TelemetryApp/ApplicationManager.cs:34 | on a first tick with no flagged entry, the default selection's id 0 is looked up and a telemetry entry with id 0 is sent |
| `Application.ApplicationManager.constructor` | TelemetryApp/ApplicationManager.cs:20-25 | stores both buffers; the fields that hold Run's records start as default structs and nothing has been sent |
| `Application.ApplicationManager.Tick` | TelemetryApp/ApplicationManager.cs:38-82 | the new readers, records, selection, messages and outcome are exactly `TickStep`'s from the old state (whose meaning `TickOutcomes` states); the logs show scoring read before telemetry, telemetry left unread after a scoring failure, and both buffers' disposals after either failure |
| `Application.TickOutcomes` | TelemetryApp/ApplicationManager.cs:38-82 | an iteration returns exactly when one of the reads raises, with both readers disconnected and selection and messages untouched; it crashes exactly when the reads succeed and the count overruns the telemetry array; otherwise the readers keep their handles and the messages grow by `Correlate`'s at most one |
| `Application.Started` | TelemetryApp/ApplicationManager.cs:31-35 | the loop begins from new default records, so the first selection carried in is the default one (mID 0, not the player); readers and messages are as before |
| `Application.RunStopsOnlyAtFailure` | TelemetryApp/ApplicationManager.cs:36-49 | the loop runs at most the supplied ticks; it runs all of them unless an iteration returns or crashes; when it stops, every earlier iteration continued and the last is an ordinary iteration from the state they left |
| `Application.RunReturnedDisconnects` | TelemetryApp/ApplicationManager.cs:42-49 | a loop that returns leaves both readers disconnected |
| `Application.RunSendsAtMostOnePerTick` | TelemetryApp/ApplicationManager.cs:36-82 | the loop only appends messages, at most one per iteration it runs |
| `Application.ApplicationManager.CorrelateAndSend` | TelemetryApp/ApplicationManager.cs:51-80 | performs `Correlate` on the current records: updates playerScoring and playerTelemetry and appends its at most one message |
| `Application.ApplicationManager.ScanScoringVehicles` | TelemetryApp/ApplicationManager.cs:55-69 | the foreach over all of mVehicles leaves playerScoring equal to `Scan` from the carried value |
| `Application.ApplicationManager.Run` | TelemetryApp/ApplicationManager.cs:27-83 | after resetting its records to defaults, the final readers, records, selection, messages, iteration count and outcome are exactly `RunFrom`'s from `Started` of the old state, so `RunStopsOnlyAtFailure`, `RunReturnedDisconnects` and `RunSendsAtMostOnePerTick` hold of it |

## Left out

- Connection manager: the sleep-and-retry connect loop and the SignalR hub
  connection (building, starting, disposing) are left out. `Tick` and `Run`
  require both buffers connected. The manager's `Disconnect` is modelled as
  disconnecting the scoring buffer and then the telemetry buffer.
- Web host, dependency injection wiring and the broadcast hub: bootstrap and
  transport, left out.
- `Task.Delay(200)` and `SendAsync`: the delay is left out. A send appends the
  message to `sent`.
- The `Test` wrapper around the message is not modelled. The message is the
  `Telemetry` value itself.
- Cross-process behaviour of the OS mutex and the mapped files is left out. An
  `AbandonedMutexException` acquires the mutex before raising; the model treats
  a throwing wait as not acquired. View streams are not modelled.
- rF2 struct layouts and enum constants are not part of this model. The header
  and record decoders are parameters. Control modes other than AI, Player and
  Remote are one case, and so are game phases other than GreenFlag.
- `SharedMemory.PartialWholeRecordMatchesFull` assumes that buffer 1's two
  header views agree on mCurrentRead. The model cannot derive this from the
  layouts, which it does not have.
- `Application.ApplicationManager.Run`: the source loop is unbounded. The model
  runs it over a finite sequence of memory snapshots.
- `Application.ApplicationManager.Run`: the cancellation token is never read
  by the source, so it is not a parameter.
- An exception escaping the mapping loop is modelled as the outcome `Crashed`.
  The faulted task and any hub-level consequences are left out.
- Temperatures are IEEE doubles. They are carried as bit patterns, and no
  floating-point behaviour is modelled.
