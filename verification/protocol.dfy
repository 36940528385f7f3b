/**
 * The download protocol (class DownloadStateMachine and its transition
 * handlers): a first-match table of (from state, event, to state, handler)
 * entries. Handling an event sets the state to the entry's target and then
 * runs its handler, which updates the session, issues device requests, or
 * re-enters the machine with a status event derived from a status byte.
 */
module Protocol {
  import opened Wrappers
  import opened Bytes
  import History

  // ------------------------------------------------------------- constants

  /** Transfer status bytes reported by the device (TX_*). */
  const TxIdle: byte := 0
  const TxTransferring: byte := 1
  const TxAwaitingAck: byte := 2

  /** Control bytes written to the device's receive status (RX_*). */
  const RxStandby: byte := 0
  const RxReceiving: byte := 1
  const RxAck: byte := 2
  const RxNack: byte := 3
  const RxCancel: byte := 4
  const RxError: byte := 5

  /** Values written to the indicator light. */
  const LedOff: byte := 0
  const LedOn: byte := 1

  // ------------------------------------------------------- states and events

  datatype State =
    | Standby
    | InitializingTime
    | InitializingSessionId
    | InitializingMeasurementPeriod
    | InitializingSessionStartIndex
    | InitializingLastEntryIndex
    | InitializingNumberOfEntries
    | InitializingTxBuffer
    | InitializingTxStatus
    | InitializingTransferIndex
    | SettingRxStatusToReceiving
    | SettingRxStatusToAck
    | ReceivingFirstBuffer
    | ReceivingBuffers
    | ReadingTxStatus
    | CheckingTxStatusDuringInit
    | CancellingTransfer
    | CheckingTxStatusDuringTransfer
    | WaitingLedOn
    | WaitingLedOff
    | Help

  /** The events. The idle status event is declared twice in the state machine
      class; the second declaration wins, so both status checks raise the one
      event named "event-tx-status-idle". */
  datatype Event =
    | Start
    | ReceivedTime
    | ReceivedSessionId
    | ReceivedMeasurementPeriod
    | ReceivedSessionStartIndex
    | ReceivedLastEntryIndex
    | ReceivedNumberEntries
    | TxBufferNotificationsReady
    | TxStatusNotificationsReady
    | TransferStartIndexReady
    | RxStatusReady
    | TxBufferData
    | ReceivedTxStatus
    | TxStatusIdle
    | TxStatusNotIdle
    | TxStatusWaitingAck
    | TxStatusTransferring
    | LedWrittenOk

  /** The string each state is compared by in the download tool. */
  function StateName(s: State): string
  {
    match s
    case Standby => "standby"
    case InitializingTime => "initializing-time"
    case InitializingSessionId => "initializing-session-id"
    case InitializingMeasurementPeriod => "initializing-measurement-period"
    case InitializingSessionStartIndex => "initializing-session-start-index"
    case InitializingLastEntryIndex => "initializing-last-entry-index"
    case InitializingNumberOfEntries => "initializing-number-entries"
    case InitializingTxBuffer => "initializing-tx-buffer"
    case InitializingTxStatus => "initializing-tx-status"
    case InitializingTransferIndex => "initializing-transfer-index"
    case SettingRxStatusToReceiving => "setting-rx-status-to-receiving"
    case SettingRxStatusToAck => "setting-rx-status-to-ack"
    case ReceivingFirstBuffer => "expecting-first-buffer"
    case ReceivingBuffers => "receiving-buffers"
    case ReadingTxStatus => "reading-tx-status"
    case CheckingTxStatusDuringInit => "checking-tx-status-during-init"
    case CancellingTransfer => "cancelling-transfer"
    case CheckingTxStatusDuringTransfer => "checking-tx-status-during-transfer"
    case WaitingLedOn => "waiting-led-on"
    case WaitingLedOff => "waiting-led-off"
    case Help => "help"
  }

  /** The string each event is compared by in the download tool. */
  function EventName(e: Event): string
  {
    match e
    case Start => "start"
    case ReceivedTime => "received-time"
    case ReceivedSessionId => "received-session-id"
    case ReceivedMeasurementPeriod => "received-measurement-period"
    case ReceivedSessionStartIndex => "received-session-start-index"
    case ReceivedLastEntryIndex => "received-last-entry-index"
    case ReceivedNumberEntries => "received-number-entries"
    case TxBufferNotificationsReady => "tx-buffer-notifications-ready"
    case TxStatusNotificationsReady => "tx-status-notifications-ready"
    case TransferStartIndexReady => "transfer-start-index-ready"
    case RxStatusReady => "rx-status-ready"
    case TxBufferData => "tx-buffer-data"
    case ReceivedTxStatus => "received-tx-status"
    case TxStatusIdle => "event-tx-status-idle"
    case TxStatusNotIdle => "received-tx-status-not-idle"
    case TxStatusWaitingAck => "event-tx-status-waiting-ack"
    case TxStatusTransferring => "event-tx-status-transferring"
    case LedWrittenOk => "led-written-ok"
  }

  /** The events a status check raises itself, rather than the device. */
  predicate Derived(e: Event)
  {
    e.TxStatusIdle? || e.TxStatusNotIdle? || e.TxStatusWaitingAck? || e.TxStatusTransferring?
  }

  // --------------------------------------------------------- device requests

  /** The device characteristics the protocol reads, writes or subscribes to. */
  datatype Characteristic =
    | Led
    | Clock
    | SessionId
    | MeasurementPeriod
    | SessionStartIndex
    | LastEntryIndex
    | NumberEntries
    | TransferStartIndex
    | TxBuffer
    | TxStatus
    | RxStatus

  /** A request issued to the device; its completion comes back later as a
      Completion. `WriteU32` carries the four little-endian bytes written. */
  datatype Request =
    | Read(characteristic: Characteristic)
    | WriteByte(characteristic: Characteristic, value: byte)
    | WriteU32(characteristic: Characteristic, wire: seq<byte>)
    | EnableNotifications(characteristic: Characteristic)
    | Stop

  // ---------------------------------------------------------------- handlers

  /** One handler class per constructor; DoBoth runs two in order. */
  datatype Handler =
    | DoBoth(first: Handler, second: Handler)
    | TurnLedOn
    | TurnLedOff
    | RequestTxStatus
    | CheckTxStatusDuringInit
    | CheckTxStatusDuringTransfer
    | CancelTransfer
    | SendTxStatusAck
    | RequestTime
    | InitializeTime
    | RequestSessionId
    | InitializeSessionId
    | RequestMeasurementPeriod
    | InitializeMeasurementPeriod
    | RequestSessionStartIndex
    | InitializeSessionStartIndex
    | RequestLastEntryIndex
    | InitializeLastEntryIndex
    | RequestNumberOfEntries
    | InitializeNumberOfEntries
    | RegisterForTxBufferNotifications
    | RegisterForTxStatusNotifications
    | WriteTransferStartIndex
    | StartReceiving
    | PrepareForFirstBuffer
    | HandleFirstBuffer
    | HandleBuffer
    | DoNothing
    | StoreHistoryFile
    | DoQuit

  /** The handlers that call back into the state machine. */
  predicate Reenters(h: Handler)
  {
    match h
    case DoBoth(a, b) => Reenters(a) || Reenters(b)
    case CheckTxStatusDuringInit => true
    case CheckTxStatusDuringTransfer => true
    case _ => false
  }

  // ------------------------------------------------------------------- table

  datatype Transition = Transition(from: State, event: Event, to: State, handler: Handler)
  {
    predicate Matches(state: State, e: Event)
    {
      from == state && event == e
    }

    /** Only a raw device event may trigger a handler that re-enters the machine. */
    predicate WellRanked()
    {
      Reenters(handler) ==> !Derived(event)
    }
  }

  /** The transition table, in the order `DownloadStateMachine.__init__` registers it. */
  function Table(): seq<Transition>
  {
    [ Transition(Standby, Start, WaitingLedOn, TurnLedOn),
      Transition(WaitingLedOn, LedWrittenOk, ReadingTxStatus, RequestTxStatus),
      Transition(ReadingTxStatus, ReceivedTxStatus, CheckingTxStatusDuringInit, CheckTxStatusDuringInit),
      Transition(CheckingTxStatusDuringInit, TxStatusNotIdle, CancellingTransfer, CancelTransfer),
      Transition(CancellingTransfer, RxStatusReady, InitializingTime, RequestTime),
      Transition(CheckingTxStatusDuringInit, TxStatusIdle, InitializingTime, RequestTime),
      Transition(InitializingTime, ReceivedTime, InitializingSessionId,
                 DoBoth(InitializeTime, RequestSessionId)),
      Transition(InitializingSessionId, ReceivedSessionId, InitializingMeasurementPeriod,
                 DoBoth(InitializeSessionId, RequestMeasurementPeriod)),
      Transition(InitializingMeasurementPeriod, ReceivedMeasurementPeriod, InitializingSessionStartIndex,
                 DoBoth(InitializeMeasurementPeriod, RequestSessionStartIndex)),
      Transition(InitializingSessionStartIndex, ReceivedSessionStartIndex, InitializingLastEntryIndex,
                 DoBoth(InitializeSessionStartIndex, RequestLastEntryIndex)),
      Transition(InitializingLastEntryIndex, ReceivedLastEntryIndex, InitializingNumberOfEntries,
                 DoBoth(InitializeLastEntryIndex, RequestNumberOfEntries)),
      Transition(InitializingNumberOfEntries, ReceivedNumberEntries, InitializingTxBuffer,
                 DoBoth(InitializeNumberOfEntries, RegisterForTxBufferNotifications)),
      Transition(InitializingTxBuffer, TxBufferNotificationsReady, InitializingTxStatus,
                 RegisterForTxStatusNotifications),
      Transition(InitializingTxStatus, TxStatusNotificationsReady, InitializingTransferIndex,
                 WriteTransferStartIndex),
      Transition(InitializingTransferIndex, TransferStartIndexReady, SettingRxStatusToReceiving,
                 StartReceiving),
      Transition(SettingRxStatusToReceiving, RxStatusReady, ReceivingFirstBuffer, PrepareForFirstBuffer),
      Transition(ReceivingFirstBuffer, ReceivedTxStatus, ReceivingFirstBuffer, DoNothing),
      Transition(ReceivingFirstBuffer, TxBufferData, ReceivingBuffers, HandleFirstBuffer),
      Transition(ReceivingBuffers, TxBufferData, ReceivingBuffers, HandleBuffer),
      Transition(ReceivingBuffers, ReceivedTxStatus, CheckingTxStatusDuringTransfer,
                 CheckTxStatusDuringTransfer),
      Transition(CheckingTxStatusDuringTransfer, TxStatusWaitingAck, SettingRxStatusToAck, SendTxStatusAck),
      Transition(CheckingTxStatusDuringTransfer, TxStatusTransferring, ReceivingBuffers, DoNothing),
      Transition(CheckingTxStatusDuringTransfer, TxStatusIdle, WaitingLedOff,
                 DoBoth(StoreHistoryFile, TurnLedOff)),
      Transition(WaitingLedOff, LedWrittenOk, Standby, DoQuit),
      Transition(SettingRxStatusToAck, RxStatusReady, ReceivingBuffers, DoNothing) ]
  }

  /** `_get_transition`: the first entry of the table for (state, event).
      What it finds is stated by FirstMatch below. */
  function FindTransition(table: seq<Transition>, state: State, event: Event): Option<Transition>
  {
    FindFrom(table, 0, state, event)
  }

  /** The scan of `_get_transition` from position i of the table on. */
  function FindFrom(table: seq<Transition>, i: nat, state: State, event: Event): Option<Transition>
    decreases |table| - i
  {
    if i >= |table| then None
    else if table[i].Matches(state, event) then Some(table[i])
    else FindFrom(table, i + 1, state, event)
  }

  /** The scan from position i finds a matching entry, and finds none exactly
      when no entry from i on matches. */
  lemma {:induction false} FirstMatchFrom(table: seq<Transition>, i: nat, state: State, event: Event)
    ensures var r := FindFrom(table, i, state, event);
      && (r.Some? ==> r.value in table && r.value.Matches(state, event))
      && (r.None? <==> forall k :: i <= k < |table| ==> !table[k].Matches(state, event))
    decreases |table| - i
  {
    if i < |table| && !table[i].Matches(state, event) {
      FirstMatchFrom(table, i + 1, state, event);
    }
  }

  /** When every entry from i on is well ranked, so is the one the scan finds. */
  lemma {:induction false} RankedMatchFrom(table: seq<Transition>, i: nat, state: State, event: Event)
    requires forall k :: i <= k < |table| ==> table[k].WellRanked()
    ensures FindFrom(table, i, state, event).Some? ==> FindFrom(table, i, state, event).value.WellRanked()
    decreases |table| - i
  {
    if i < |table| && !table[i].Matches(state, event) {
      RankedMatchFrom(table, i + 1, state, event);
    }
  }

  /** The lookup finds a matching entry of the table, and finds none exactly
      when no entry matches. */
  lemma FirstMatch(table: seq<Transition>, state: State, event: Event)
    ensures var r := FindTransition(table, state, event);
      && (r.Some? ==> r.value in table && r.value.Matches(state, event))
      && (r.None? <==> forall i :: 0 <= i < |table| ==> !table[i].Matches(state, event))
      && (r.Some? && (forall i :: 0 <= i < |table| ==> table[i].WellRanked()) ==> r.value.WellRanked())
  {
    FirstMatchFrom(table, 0, state, event);
    if forall i :: 0 <= i < |table| ==> table[i].WellRanked() {
      RankedMatchFrom(table, 0, state, event);
    }
  }

  /** Only raw device events trigger a handler that re-enters the machine;
      this bounds the re-entrance to one level. */
  lemma ReenteringEntriesAreRaw()
    ensures forall i :: 0 <= i < |Table()| ==> Table()[i].WellRanked()
  {
  }

  // ---------------------------------------------------------------- machine

  /** The state machine: its current state and the history file it fills. */
  datatype Machine = Machine(state: State, session: History.Session)

  /** A freshly constructed DownloadStateMachine. */
  function InitialMachine(): Machine
  {
    Machine(Standby, History.Initial())
  }

  /** The exceptions handling an event can raise: no transition for the state
      and event (ValueError), a status notification without a byte
      (IndexError), a transfer start index that does not fit in four bytes
      (OverflowError), and the decoder's failures. */
  datatype Failure =
    | NoTransition(state: State, event: Event)
    | EmptyStatus
    | U32Overflow(value: int)
    | Decode(cause: History.Failure)

  /** What handling an event leaves behind: the machine, the device requests
      issued in order, and the exception that ended the handling, if any.
      Changes made before an exception are kept, as in Python. */
  datatype Outcome = Outcome(machine: Machine, requests: seq<Request>, failure: Option<Failure>)

  function Emit(m: Machine, request: Request): Outcome
  {
    Outcome(m, [request], None)
  }

  function Quiet(m: Machine): Outcome
  {
    Outcome(m, [], None)
  }

  /** The event the status read at start-up raises: idle or not idle. */
  function InitStatusEvent(status: byte): (e: Event)
    ensures Derived(e)
    ensures e == TxStatusIdle <==> status == TxIdle
    ensures status != TxIdle ==> e == TxStatusNotIdle
  {
    if status == TxIdle then TxStatusIdle else TxStatusNotIdle
  }

  /** The event a status read during the transfer raises; an unknown status
      raises none. */
  function TransferStatusEvent(status: byte): (e: Option<Event>)
    ensures e.Some? ==> Derived(e.value) && e.value != TxStatusNotIdle
    ensures e.None? <==> status != TxIdle && status != TxTransferring && status != TxAwaitingAck
  {
    if status == TxAwaitingAck then Some(TxStatusWaitingAck)
    else if status == TxTransferring then Some(TxStatusTransferring)
    else if status == TxIdle then Some(TxStatusIdle)
    else None
  }

  function Rank(e: Event): nat
  {
    if Derived(e) then 0 else 1
  }

  /** `handle_event`: look the transition up, set the state to its target,
      then run its handler. `data` is the notification or read value (empty
      for write and subscription completions) and `now` the host clock. */
  function HandleEvent(m: Machine, event: Event, data: seq<byte>, now: int): Outcome
    decreases Rank(event), 1
  {
    match FindTransition(Table(), m.state, event)
    case None => Outcome(m, [], Some(NoTransition(m.state, event)))
    case Some(t) =>
      ReenteringEntriesAreRaw();
      FirstMatch(Table(), m.state, event);
      RunHandler(t.handler, m.(state := t.to), data, now, Rank(event))
  }

  /** Runs one handler on a machine whose state is already the target state. */
  function RunHandler(h: Handler, m: Machine, data: seq<byte>, now: int, rank: nat): Outcome
    requires Reenters(h) ==> rank == 1
    decreases rank, 0, h
  {
    var s := m.session;
    match h
    case DoBoth(first, second) =>
      var o1 := RunHandler(first, m, data, now, rank);
      if o1.failure.Some? then o1
      else
        var o2 := RunHandler(second, o1.machine, data, now, rank);
        Outcome(o2.machine, o1.requests + o2.requests, o2.failure)
    case TurnLedOn => Emit(m, WriteByte(Led, LedOn))
    case TurnLedOff => Emit(m, WriteByte(Led, LedOff))
    case RequestTxStatus => Emit(m, Read(TxStatus))
    case CheckTxStatusDuringInit =>
      if |data| == 0 then Outcome(m, [], Some(EmptyStatus))
      else HandleEvent(m, InitStatusEvent(data[0]), [], now)
    case CheckTxStatusDuringTransfer =>
      if |data| == 0 then Outcome(m, [], Some(EmptyStatus))
      else
        var event := TransferStatusEvent(data[0]);
        if event.None? then Quiet(m) else HandleEvent(m, event.value, [], now)
    case CancelTransfer => Emit(m, WriteByte(RxStatus, RxCancel))
    case SendTxStatusAck => Emit(m, WriteByte(RxStatus, RxAck))
    case RequestTime => Emit(m, Read(Clock))
    case InitializeTime =>
      Quiet(m.(session := s.(currentTime := now, deviceTime := LittleEndian(data))))
    case RequestSessionId => Emit(m, Read(SessionId))
    case InitializeSessionId => Quiet(m.(session := s.(sessionId := LittleEndian(data))))
    case RequestMeasurementPeriod => Emit(m, Read(MeasurementPeriod))
    case InitializeMeasurementPeriod =>
      Quiet(m.(session := s.(measurementPeriod := LittleEndian(data))))
    case RequestSessionStartIndex => Emit(m, Read(SessionStartIndex))
    case InitializeSessionStartIndex =>
      Quiet(m.(session := s.(sessionStartIndex := LittleEndian(data))))
    case RequestLastEntryIndex => Emit(m, Read(LastEntryIndex))
    case InitializeLastEntryIndex => Quiet(m.(session := s.(lastEntryIndex := LittleEndian(data))))
    case RequestNumberOfEntries => Emit(m, Read(NumberEntries))
    case InitializeNumberOfEntries => Quiet(m.(session := s.(numberEntries := LittleEndian(data))))
    case RegisterForTxBufferNotifications => Emit(m, EnableNotifications(TxBuffer))
    case RegisterForTxStatusNotifications => Emit(m, EnableNotifications(TxStatus))
    case WriteTransferStartIndex =>
      var first := s.lastEntryIndex - s.numberEntries + 1;
      var m' := m.(session := s.(firstEntryIndex := first));
      var wire := EncodeU32Le(first);
      if wire.None? then Outcome(m', [], Some(U32Overflow(first)))
      else Emit(m', WriteU32(TransferStartIndex, wire.value))
    case StartReceiving => Emit(m, WriteByte(RxStatus, RxReceiving))
    case PrepareForFirstBuffer => Quiet(m)
    case HandleFirstBuffer =>
      var s' := s.(count := 1, bytesDownloaded := 0, length := FragmentLength(data));
      Quiet(m.(session := History.Append(s', BufferIndex(data), data)))
    case HandleBuffer =>
      var s' := s.(count := s.count + 1, bytesDownloaded := s.bytesDownloaded + History.ChunkSize);
      Quiet(m.(session := History.Append(s', BufferIndex(data), data)))
    case DoNothing => Quiet(m)
    case StoreHistoryFile =>
      var (stored, failure) := History.Store(s);
      var m' := m.(session := stored);
      if failure.Some? then Outcome(m', [], Some(Decode(failure.value))) else Quiet(m')
    case DoQuit => Emit(m, Stop)
  }

  // ------------------------------------------------------ device completions

  /** A completion reported by the device for an earlier request. */
  datatype Completion =
    | NotificationsEnabled(characteristic: Characteristic)
    | WriteSucceeded(characteristic: Characteristic)
    | ValueUpdated(characteristic: Characteristic, value: seq<byte>)

  /** The event a completion raises; completions on other characteristics
      raise none and are ignored. */
  function EventOf(c: Completion): Option<Event>
  {
    match c
    case NotificationsEnabled(ch) =>
      if ch == TxBuffer then Some(TxBufferNotificationsReady)
      else if ch == TxStatus then Some(TxStatusNotificationsReady)
      else None
    case WriteSucceeded(ch) =>
      if ch == RxStatus then Some(RxStatusReady)
      else if ch == TransferStartIndex then Some(TransferStartIndexReady)
      else if ch == Led then Some(LedWrittenOk)
      else None
    case ValueUpdated(ch, _) =>
      if ch == TxStatus then Some(ReceivedTxStatus)
      else if ch == TxBuffer then Some(TxBufferData)
      else if ch == Clock then Some(ReceivedTime)
      else if ch == SessionId then Some(ReceivedSessionId)
      else if ch == MeasurementPeriod then Some(ReceivedMeasurementPeriod)
      else if ch == SessionStartIndex then Some(ReceivedSessionStartIndex)
      else if ch == LastEntryIndex then Some(ReceivedLastEntryIndex)
      else if ch == NumberEntries then Some(ReceivedNumberEntries)
      else None
  }

  /** The data handed to the handler: the value of a read or notification,
      nothing for the other completions. */
  function DataOf(c: Completion): seq<byte>
  {
    if c.ValueUpdated? then c.value else []
  }

  /** The `handle_*` entry points: translate the completion, then handle the event. */
  function HandleCompletion(m: Machine, c: Completion, now: int): Outcome
  {
    match EventOf(c)
    case None => Quiet(m)
    case Some(e) => HandleEvent(m, e, DataOf(c), now)
  }
}
