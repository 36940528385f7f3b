# Flower Power history download, modelled in Dafny

This project models the core of `flower-power-history.py`, a tool that downloads the measurement history of a Parrot Flower Power plant sensor over Bluetooth LE. It covers two pieces:

- **The history file** (`HistoryFile` and the byte helpers).
  - The device sends the history as numbered fragments. Each fragment is stored under its little-endian sequence number.
  - Fragments 1 to count−1 are reassembled into one byte stream. Each adds at most 18 payload bytes, and the stream never grows past the declared length.
  - The stream is decoded into a 16-byte big-endian header, of which only `last_entry_time` is kept, and then into 12-byte big-endian record frames.
  - Each record gets an absolute index and a host timestamp computed in integer arithmetic.
- **The download protocol** (`DownloadStateMachine` and its transition handlers).
  - A 25-entry first-match table maps a (state, event) pair to a target state and a handler.
  - `handle_event` sets the state to the target *before* running the handler.
  - A handler updates the session, issues a device request, or re-enters the machine with a status event derived from a status byte.

Modules:

- `Wrappers`: `Option` and `Result`.
- `Bytes`: the byte helpers and `write_u32`'s four-byte encoding.
- `Calibration`: the temperature clamp and the soil moisture polynomial, in exact reals.
- `History`: the session, fragment storage, reassembly, header and record decoding, and `store`.
- `HistoryLemmas`:
  - a closed form for reassembly;
  - the failure on a missing fragment;
  - the exact record set;
  - timestamp arithmetic;
  - the reassembly loop as a method.
- `Protocol`: states, events, requests, handlers, the table, `_get_transition`, `handle_event` and the `handle_*` entry points.
- `ProtocolLemmas`:
  - an independent per-state statement of the table (`Lookup`);
  - what each transition does;
  - the status-byte dispatch;
  - the completion dispatch.

Modelling choices:

- **Integers and bytes.** Integers are unbounded. Bytes are `int`s in [0, 256).
- **Failures.**
  - `handle_event` returns an `Outcome`: the machine, the device requests issued in order, and the exception that ended the handling, if any.
  - A failing handler keeps the changes made before it raised, as Python does. In particular, the state is already the target state.
  - The exceptions modelled are:
    - the `ValueError` on an unknown (state, event) pair;
    - the `IndexError` on a status notification without a byte;
    - the `OverflowError` of `to_bytes(4, 'little')`;
    - the `KeyError` on a missing fragment;
    - the `struct.error` on a short header;
    - the math domain error of `convert_sunlight` on a zero light code.
- **Device requests.** The device is replaced by the list of requests a handler issues: `Read`, `WriteByte`, `WriteU32`, `EnableNotifications` and `Stop` on a named characteristic.
- **Re-entrance.** The status checks call `handle_event` from inside a handler. This is modelled as mutual recursion between `HandleEvent` and `RunHandler`. Termination is proved by ranking derived status events below device events. A table lemma shows that only device events lead to the re-entering handlers.
- **Inputs.** The host clock (`time.time()`) is a parameter `now`. A completion without data (`data=None`) is passed as the empty byte string, and no handler reached by such a completion reads it.

Quirks of the code that the model reproduces:

- **Waiting-led-off leads back to standby.** The entry at lines 570-573 sends `LED_OK` in waiting-led-off to `standby`, and its handler `DoQuit` calls `device.stop()` (`LedOffQuits`).
- **An unknown status byte during the transfer stalls the download.** `CheckTxStatusDuringTransfer` only prints for a byte other than 0, 1 or 2 (lines 246-247). The machine stays in checking-tx-status-during-transfer. No entry in lines 554-568 has that state with `received-tx-status`, so the next status notification raises the lookup error (`UnknownTransferStatusStalls`, `StalledCheckRejectsStatus`).
- **A zero light code ends record decoding.** `convert_sunlight` raises on light code 0 (lines 84-85). That stops `_convert_records` at the first such frame, and the records decoded before it are kept (`DecodeRecordsOutcome`). In a stream of all-zero frames, no record is decoded (`ZeroFramesFailOnSunlight`).
- **One idle event.** `EVENT_TX_STATUS_IDLE` is assigned at lines 432 and 436, and the second value, `"event-tx-status-idle"`, wins. Both status checks raise that one event.
- **The last fragment is never read.** `_assemble` iterates over `range(1, count)` (line 116), so the count-th fragment is never read (`AssembleReadsOnlyRange`).
- **The header contributes one field.** `_convert_header` unpacks the whole 16-byte header but keeps only `last_entry_time` (lines 132-140). The entry indices, the session id and the period read from the device are never overwritten (`History.Store`, `StoreReassembles`).

## Model

| member | source | states |
|---|---|---|
| Bytes.LittleEndian | flower-power-history.py:47-48 | decoding n bytes little-endian gives a value below 256^n |
| Bytes.BufferIndex | flower-power-history.py:50-51 | the sequence number is byte 0 plus 256 times byte 1 (only byte 0, or 0, for shorter fragments) and is below 65536 |
| Bytes.FragmentLength | flower-power-history.py:53-54 | the declared length is the little-endian u32 of bytes 2-5, below 2^32, and 0 for a fragment of at most two bytes |
| Bytes.Payload | flower-power-history.py:56-57 | the payload is every byte from index 2 on, in order |
| Bytes.FirstPayloadCarriesLength | flower-power-history.py:53-57 | the first four payload bytes of a first fragment decode to its declared length, so they end up in the reassembled stream |
| Bytes.EncodeU32Le | flower-power-history.py:721-722 | `to_bytes(4, 'little')` succeeds exactly for values in [0, 2^32), giving four bytes that decode back to the value |
| Bytes.EncodeDecodeU32Le | flower-power-history.py:721-722 | encoding the decode of any four bytes gives those bytes back |
| Calibration.ClampTemperature | flower-power-history.py:64-68 | the result lies in [-10, 55], equals the input inside that range and the nearer bound outside it |
| Calibration.Temperature | flower-power-history.py:59-68 | the calibrated temperature lies in [-10, 55] and equals the cubic fit whenever the fit lies in that range |
| History.Append | flower-power-history.py:107-108 | the fragment is stored under its index, replacing an earlier one with that index; every other fragment and every other field is unchanged |
| History.AppendChunk | flower-power-history.py:118-122 | one loop step keeps the data as a prefix, never grows it past the declared length, and appends the chunk cut to the room left |
| History.ConvertHeader | flower-power-history.py:132-140 | succeeds exactly when at least 16 bytes are present, with the big-endian u32 at bytes 4-7; otherwise fails with the stream size |
| History.DecodeRecord | flower-power-history.py:148-173 | fails on light code 0 with the record's index, and only there among the failures modelled; otherwise gives the absolute index, the timestamp of that index, and the raw big-endian codes at offsets 0, 6, 8 and 2 |
| HistoryLemmas.AssembleClosedForm | flower-power-history.py:115-122 | with every fragment present, reassembly appends the concatenated 18-byte chunks of fragments i..count-1 cut at the declared length |
| HistoryLemmas.AssembleMissing | flower-power-history.py:115-117 | reassembly fails exactly when a sequence number in [i, count) is missing, and names the first missing one |
| HistoryLemmas.AssembleBounded | flower-power-history.py:115-122 | reassembled data never exceeds the declared length |
| HistoryLemmas.AssembleReadsOnlyRange | flower-power-history.py:116-117 | only fragments i..count-1 affect reassembly; the count-th fragment never does |
| HistoryLemmas.Reassemble | flower-power-history.py:115-122 | the loop computes the functional reassembly, fails exactly on a missing fragment in 1..count-1, stays within the length, and has the closed form |
| HistoryLemmas.FullFrameIff | flower-power-history.py:142-150 | frame j is a full 12 bytes exactly when j is below max(0, (size-16) div 12) |
| HistoryLemmas.DecodeRecordsOutcome | flower-power-history.py:142-151 | the record loop yields one record per full frame up to the first frame with light code 0, and fails there with its absolute index |
| HistoryLemmas.DecodedRecordAt | flower-power-history.py:142-151 | the k-th record decoded from entry i is the decode of frame i+k with index first_entry_index+i+k |
| HistoryLemmas.TimestampSpacing | flower-power-history.py:175-180 | consecutive indices are stamped exactly one measurement period apart |
| HistoryLemmas.LastEntryTimestamp | flower-power-history.py:128-130 | the last entry is stamped with the startup time plus the header's last entry time |
| HistoryLemmas.StoreReassembles | flower-power-history.py:110-140 | storing a fresh file reassembles the chunks cut at the length; a stream under 16 bytes fails with no records and the old header time; otherwise the header time is the header's; no other session field changes |
| History.Store | flower-power-history.py:110-140 | store writes only the data, the header's last entry time and the records; every other session field, the indices, period and session id included, keeps its value |
| HistoryLemmas.StoreRecordCount | flower-power-history.py:142-151 | after a good header, store succeeds exactly when no full frame below number_entries has light code 0; then it keeps min(number_entries, full frames) records, else it names the first such frame |
| HistoryLemmas.StoreRecordIndices | flower-power-history.py:142-180 | stored records are numbered first_entry_index, +1, ... and stamped with the timestamp of their index |
| HistoryLemmas.ZeroFramesFailOnSunlight | flower-power-history.py:132-158 | with two entries expected and two all-zero frames after a header whose last entry time is 100, the header decodes to 100 and the record loop yields no record, failing on the first frame's light code (index 10) |
| Protocol.FirstMatchFrom | flower-power-history.py:586-592 | the scan from position i returns a matching entry of the table, and returns none exactly when no entry from i on matches |
| Protocol.FirstMatch | flower-power-history.py:586-592 | `_get_transition` returns a matching entry of the table, and returns none exactly when no entry matches |
| Protocol.ReenteringEntriesAreRaw | flower-power-history.py:446-578 | every table entry whose handler re-enters the machine is triggered by a device event, never by a derived status event |
| Protocol.InitStatusEvent | flower-power-history.py:226-232 | the start-up check raises the idle event exactly for status TX_IDLE (0), and the not-idle event for every other byte |
| Protocol.TransferStatusEvent | flower-power-history.py:234-247 | during the transfer, statuses 0, 1 and 2 raise a derived event other than not-idle, and any other status raises nothing |
| ProtocolLemmas.TableEntriesAgree | flower-power-history.py:446-578 | every one of the 25 entries is what the independent per-state description gives for its key |
| ProtocolLemmas.Position | flower-power-history.py:446-578 | every key the per-state description knows has a matching entry in the table, at the position the table's layout names |
| ProtocolLemmas.PositionsAgree | flower-power-history.py:446-578 | every one of the 25 entries sits at the position its own key names |
| ProtocolLemmas.FindIsLookup | flower-power-history.py:586-592 | `_get_transition` over the table is exactly the per-state description |
| ProtocolLemmas.NoEntryShadowed | flower-power-history.py:586-592 | looking up an entry's own state and event finds that entry, so no entry is shadowed by an earlier one |
| ProtocolLemmas.KeysDetermineEntries | flower-power-history.py:446-578 | two positions of the table with the same state and event are the same position: no key is listed twice |
| ProtocolLemmas.UnmatchedEventFails | flower-power-history.py:594-598 | an event with no transition raises the lookup error and leaves the machine unchanged |
| ProtocolLemmas.MatchedEventRunsHandler | flower-power-history.py:594-600 | a matched event runs the entry's handler on the machine already moved to the target state |
| ProtocolLemmas.HelpAcceptsNothing | flower-power-history.py:417 | the unused help state has no transition: every event raises there and changes nothing |
| ProtocolLemmas.PlainHandlerKeepsState | flower-power-history.py:204-378 | a handler that does not re-enter the machine never changes the state |
| ProtocolLemmas.MatchedEventReachesTarget | flower-power-history.py:594-600 | with a non-re-entering handler, the state after the event is the entry's target, even when the handler raises |
| ProtocolLemmas.DeviceOnlyHandlerRuns | flower-power-history.py:214-378 | each handler that only talks to the device leaves machine and session unchanged and issues exactly its listed request |
| ProtocolLemmas.DecodingHandlerRuns | flower-power-history.py:262-305 | each Initialize handler sets its one session field to the little-endian decode of the data (the clock handler also keeps the host time) and issues nothing |
| ProtocolLemmas.DeviceOnlyTransition | flower-power-history.py:594-600 | a transition whose handler only talks to the device moves to the target state and issues exactly that handler's requests |
| ProtocolLemmas.StartTurnsLedOn | flower-power-history.py:448-451 | a fresh machine handles start by moving to waiting-led-on and writing 1 to the light |
| ProtocolLemmas.InitStatusEmpty | flower-power-history.py:458-461 | a start-up status notification without a byte raises, leaving the machine in checking-tx-status-during-init |
| ProtocolLemmas.InitStatusIdle | flower-power-history.py:473-476 | an idle status at start-up leads to initializing-time and a clock read |
| ProtocolLemmas.InitStatusBusy | flower-power-history.py:463-466 | any other status byte at start-up leads to cancelling-transfer and writes RX_CANCEL (4) |
| ProtocolLemmas.CancelThenReadClock | flower-power-history.py:468-471 | after the cancel is written, the clock is read in initializing-time |
| ProtocolLemmas.TransferStatusAwaitingAck | flower-power-history.py:554-557 | status 2 during the transfer leads to setting-rx-status-to-ack and writes RX_ACK (2) |
| ProtocolLemmas.TransferStatusTransferring | flower-power-history.py:559-562 | status 1 during the transfer leads back to receiving-buffers with no request |
| ProtocolLemmas.TransferStatusIdle | flower-power-history.py:564-568 | status 0 during the transfer stores the file and moves to waiting-led-off; the light-off write follows only a store that did not raise |
| ProtocolLemmas.TransferStatusEmpty | flower-power-history.py:549-552 | a transfer status notification without a byte raises, leaving the machine in the checking state |
| ProtocolLemmas.UnknownTransferStatusStalls | flower-power-history.py:246-247 | any other status byte during the transfer leaves the machine in checking-tx-status-during-transfer with no request |
| ProtocolLemmas.StalledCheckRejectsStatus | flower-power-history.py:554-568 | in that checking state a further status notification has no transition and raises |
| ProtocolLemmas.LedOffQuits | flower-power-history.py:570-573 | once the light is off the machine returns to standby and asks to stop; there is no finished state |
| ProtocolLemmas.ReceiveTime | flower-power-history.py:478-482 | the clock value sets host and device time and asks for the session id |
| ProtocolLemmas.ReceiveSessionId | flower-power-history.py:484-488 | the session id is decoded and the measurement period asked for |
| ProtocolLemmas.ReceiveMeasurementPeriod | flower-power-history.py:490-494 | the period is decoded and the session start index asked for |
| ProtocolLemmas.ReceiveSessionStartIndex | flower-power-history.py:496-500 | the start index is decoded and the last entry index asked for |
| ProtocolLemmas.ReceiveLastEntryIndex | flower-power-history.py:502-506 | the last entry index is decoded and the number of entries asked for |
| ProtocolLemmas.ReceiveNumberEntries | flower-power-history.py:508-512 | the number of entries is decoded and buffer notifications subscribed |
| ProtocolLemmas.WriteTransferStart | flower-power-history.py:519-522 | with status notifications on, the machine records the first entry index and writes it as four little-endian bytes, or raises on overflow |
| ProtocolLemmas.FirstBuffer | flower-power-history.py:332-339 | through the entry at lines 539-542, the first buffer moves to receiving-buffers with count 1, bytes 0, the declared length and the buffer stored under its number; every other session field keeps its value |
| ProtocolLemmas.NextBuffer | flower-power-history.py:341-350 | through the entry at lines 544-547, each later buffer stays in receiving-buffers, adds 1 to the count and 18 to the bytes and stores the buffer, replacing a duplicate; every other session field, the length included, keeps its value |
| ProtocolLemmas.StatusBeforeFirstBufferIgnored | flower-power-history.py:534-537 | a status notification before the first buffer changes nothing |
| ProtocolLemmas.CompletionRaisesIff | flower-power-history.py:603-640 | a completion raises an event exactly when the event's originating completion kind and characteristic are its own |
| ProtocolLemmas.CompletionEventsAreRaw | flower-power-history.py:603-640 | completions never raise start or a derived status event, and raise nothing exactly on characteristics that no event originates from |

## Left out

- The sunlight power law (`convert_sunlight`) has a non-integer exponent and is not modelled. Only its domain error on light code 0 is modelled.
- The soil moisture and temperature polynomials are evaluated in exact reals. IEEE double rounding is not modelled.
- `time.time()` is the parameter `now`. The `datetime` date string of each record is not modelled.
- The JSON file write (`_store`) and every progress `print` are I/O and are not modelled. So is the `count % 64` progress branch.
- The `gatt` device is not part of this model. This covers characteristic discovery by UUID, `FlowerPowerManager`, connection callbacks and the command line. The device is reduced to the list of requests issued, and `device.stop()` to the `Stop` request.
- The device's failure callbacks for a read, write or subscription live outside the state machine and are not modelled. A request is recorded as issued, and its completion is a separate input.
- The `AttributeError` on a handler run before `set_device` is not modelled.
- `handle_*` callbacks arriving concurrently from the gatt event loop are not modelled. Every event is handled to completion before the next.
- `_convert_header` (`struct.unpack(">HHIHHHH")`, lines 134-135), `_convert_record` (`struct.unpack(">HHHHHH")`, line 151) and `convert_sunlight` (`math.pow`) go through Python's `struct` and `math`. The model states their byte layout and error cases, not the libraries.
- StateName and EventName give the source's strings, and the table is keyed by the enumerations. That the 21 state names and 18 event names are pairwise distinct is not proved, because proving that over string literals is too costly for the verifier here.
- History.DecodeRecord: does not model the failure of `datetime.fromtimestamp` (line 161) on a timestamp outside the platform's range. That range is platform-dependent. The timestamp is built from unbounded session fields, so `DecodeRecord` succeeds on some frames where Python raises ValueError, OverflowError or OSError.
- Calibration.SoilMoisture: transcribes the two-stage polynomial of `convert_soil_moisture` (lines 71-82) without a contract. The source promises no range, monotonicity or other property of that fit, and `Record.SoilMoisture` only applies it.
