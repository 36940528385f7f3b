/**
 * What the download protocol guarantees: the table read as a partial
 * function of (state, event), the state reached and the requests issued for
 * each step of a download, the dispatch on status bytes, and the mapping from
 * device completions to events.
 */
module ProtocolLemmas {
  import opened Wrappers
  import opened Bytes
  import History
  import opened Protocol

  // ------------------------------------------------------- the table as a map

  /** The transitions written out state by state: an independent statement of
      which events each state accepts, where they lead and what runs. */
  function Lookup(state: State, event: Event): (r: Option<Transition>)
    ensures r.Some? ==> r.value.Matches(state, event) && r.value.WellRanked()
  {
    match state
    case Standby =>
      if event == Start then Some(Transition(state, event, WaitingLedOn, TurnLedOn)) else None
    case WaitingLedOn =>
      if event == LedWrittenOk then Some(Transition(state, event, ReadingTxStatus, RequestTxStatus)) else None
    case ReadingTxStatus =>
      if event == ReceivedTxStatus then Some(Transition(state, event, CheckingTxStatusDuringInit, CheckTxStatusDuringInit)) else None
    case CheckingTxStatusDuringInit =>
      if event == TxStatusNotIdle then Some(Transition(state, event, CancellingTransfer, CancelTransfer))
      else if event == TxStatusIdle then Some(Transition(state, event, InitializingTime, RequestTime))
      else None
    case CancellingTransfer =>
      if event == RxStatusReady then Some(Transition(state, event, InitializingTime, RequestTime)) else None
    case InitializingTime =>
      if event == ReceivedTime then Some(Transition(state, event, InitializingSessionId, DoBoth(InitializeTime, RequestSessionId)))
      else None
    case InitializingSessionId =>
      if event == ReceivedSessionId
      then Some(Transition(state, event, InitializingMeasurementPeriod, DoBoth(InitializeSessionId, RequestMeasurementPeriod)))
      else None
    case InitializingMeasurementPeriod =>
      if event == ReceivedMeasurementPeriod
      then Some(Transition(state, event, InitializingSessionStartIndex, DoBoth(InitializeMeasurementPeriod, RequestSessionStartIndex)))
      else None
    case InitializingSessionStartIndex =>
      if event == ReceivedSessionStartIndex
      then Some(Transition(state, event, InitializingLastEntryIndex, DoBoth(InitializeSessionStartIndex, RequestLastEntryIndex)))
      else None
    case InitializingLastEntryIndex =>
      if event == ReceivedLastEntryIndex
      then Some(Transition(state, event, InitializingNumberOfEntries, DoBoth(InitializeLastEntryIndex, RequestNumberOfEntries)))
      else None
    case InitializingNumberOfEntries =>
      if event == ReceivedNumberEntries
      then Some(Transition(state, event, InitializingTxBuffer, DoBoth(InitializeNumberOfEntries, RegisterForTxBufferNotifications)))
      else None
    case InitializingTxBuffer =>
      if event == TxBufferNotificationsReady then Some(Transition(state, event, InitializingTxStatus, RegisterForTxStatusNotifications))
      else None
    case InitializingTxStatus =>
      if event == TxStatusNotificationsReady then Some(Transition(state, event, InitializingTransferIndex, WriteTransferStartIndex))
      else None
    case InitializingTransferIndex =>
      if event == TransferStartIndexReady then Some(Transition(state, event, SettingRxStatusToReceiving, StartReceiving)) else None
    case SettingRxStatusToReceiving =>
      if event == RxStatusReady then Some(Transition(state, event, ReceivingFirstBuffer, PrepareForFirstBuffer)) else None
    case ReceivingFirstBuffer =>
      if event == ReceivedTxStatus then Some(Transition(state, event, ReceivingFirstBuffer, DoNothing))
      else if event == TxBufferData then Some(Transition(state, event, ReceivingBuffers, HandleFirstBuffer))
      else None
    case ReceivingBuffers =>
      if event == TxBufferData then Some(Transition(state, event, ReceivingBuffers, HandleBuffer))
      else if event == ReceivedTxStatus then Some(Transition(state, event, CheckingTxStatusDuringTransfer, CheckTxStatusDuringTransfer))
      else None
    case CheckingTxStatusDuringTransfer =>
      if event == TxStatusWaitingAck then Some(Transition(state, event, SettingRxStatusToAck, SendTxStatusAck))
      else if event == TxStatusTransferring then Some(Transition(state, event, ReceivingBuffers, DoNothing))
      else if event == TxStatusIdle then Some(Transition(state, event, WaitingLedOff, DoBoth(StoreHistoryFile, TurnLedOff)))
      else None
    case WaitingLedOff =>
      if event == LedWrittenOk then Some(Transition(state, event, Standby, DoQuit)) else None
    case SettingRxStatusToAck =>
      if event == RxStatusReady then Some(Transition(state, event, ReceivingBuffers, DoNothing)) else None
    case Help => None
  }

  /** Every table entry is what Lookup gives for its key. */
  lemma TableEntriesAgree()
    ensures forall i :: 0 <= i < |Table()| ==> Lookup(Table()[i].from, Table()[i].event) == Some(Table()[i])
  {
  }

  /** The position in the table of the entry for a key Lookup knows, read off
      the table's layout (0 for keys it does not know): every key Lookup knows
      has an entry in the table. */
  function Position(state: State, event: Event): (i: nat)
    ensures Lookup(state, event).Some? ==> i < |Table()| && Table()[i].Matches(state, event)
  {
    match state
      case Standby => 0
      case WaitingLedOn => 1
      case ReadingTxStatus => 2
      case CheckingTxStatusDuringInit => if event == TxStatusNotIdle then 3 else 5
      case CancellingTransfer => 4
      case InitializingTime => 6
      case InitializingSessionId => 7
      case InitializingMeasurementPeriod => 8
      case InitializingSessionStartIndex => 9
      case InitializingLastEntryIndex => 10
      case InitializingNumberOfEntries => 11
      case InitializingTxBuffer => 12
      case InitializingTxStatus => 13
      case InitializingTransferIndex => 14
      case SettingRxStatusToReceiving => 15
      case ReceivingFirstBuffer => if event == ReceivedTxStatus then 16 else 17
      case ReceivingBuffers => if event == TxBufferData then 18 else 19
      case CheckingTxStatusDuringTransfer =>
        if event == TxStatusWaitingAck then 20 else if event == TxStatusTransferring then 21 else 22
      case WaitingLedOff => 23
      case SettingRxStatusToAck => 24
      case Help => 0
  }

  /** Every table entry sits at the position its key names. */
  lemma PositionsAgree()
    ensures forall i :: 0 <= i < |Table()| ==> Position(Table()[i].from, Table()[i].event) == i
  {
  }

  /** The position of the entry the scan from i returns. */
  lemma {:induction false} FoundFrom(table: seq<Transition>, i: nat, state: State, event: Event) returns (k: nat)
    requires FindFrom(table, i, state, event).Some?
    ensures i <= k < |table| && table[k] == FindFrom(table, i, state, event).value
    decreases |table| - i
  {
    if table[i].Matches(state, event) {
      k := i;
    } else {
      k := FoundFrom(table, i + 1, state, event);
    }
  }

  /** `_get_transition` computes exactly Lookup: the first matching entry is
      the one Lookup names, and there is none when Lookup has none. */
  lemma FindIsLookup(state: State, event: Event)
    ensures FindTransition(Table(), state, event) == Lookup(state, event)
  {
    FirstMatch(Table(), state, event);
    if FindTransition(Table(), state, event).Some? {
      var k := FoundFrom(Table(), 0, state, event);
      assert Lookup(Table()[k].from, Table()[k].event) == Some(Table()[k]) by {
        TableEntriesAgree();
      }
    } else {
      var k := Position(state, event);
    }
  }

  /** No entry is shadowed by an earlier one with the same key: looking up an
      entry's own state and event finds that entry. */
  lemma NoEntryShadowed(i: nat)
    requires i < |Table()|
    ensures FindTransition(Table(), Table()[i].from, Table()[i].event) == Some(Table()[i])
  {
    TableEntriesAgree();
    FindIsLookup(Table()[i].from, Table()[i].event);
  }

  /** No two positions of the table share a (from-state, event) key, so the
      table is a partial function of its key. */
  lemma KeysDetermineEntries(i: nat, j: nat)
    requires i < |Table()| && j < |Table()|
    requires Table()[i].from == Table()[j].from && Table()[i].event == Table()[j].event
    ensures i == j
  {
    PositionsAgree();
  }

  // ------------------------------------------------------- handling an event

  /** An event the current state has no transition for raises the lookup
      error and changes nothing. */
  lemma UnmatchedEventFails(m: Machine, event: Event, data: seq<byte>, now: int)
    requires Lookup(m.state, event).None?
    ensures HandleEvent(m, event, data, now) == Outcome(m, [], Some(NoTransition(m.state, event)))
  {
    FindIsLookup(m.state, event);
  }

  /** A matched event runs the handler of the transition Lookup names, on the
      machine already moved to that transition's target state. */
  lemma MatchedEventRunsHandler(m: Machine, event: Event, data: seq<byte>, now: int, to: State, h: Handler)
    requires Lookup(m.state, event) == Some(Transition(m.state, event, to, h))
    ensures FindTransition(Table(), m.state, event) == Some(Transition(m.state, event, to, h))
    ensures HandleEvent(m, event, data, now) == RunHandler(h, m.(state := to), data, now, Rank(event))
  {
    FindIsLookup(m.state, event);
  }

  /** The help state has no way out: every event fails there. */
  lemma HelpAcceptsNothing(s: History.Session, event: Event, data: seq<byte>, now: int)
    ensures HandleEvent(Machine(Help, s), event, data, now).failure == Some(NoTransition(Help, event))
    ensures HandleEvent(Machine(Help, s), event, data, now).machine == Machine(Help, s)
  {
    UnmatchedEventFails(Machine(Help, s), event, data, now);
  }

  /** A handler that does not re-enter the machine never changes the state. */
  lemma {:induction false} PlainHandlerKeepsState(h: Handler, m: Machine, data: seq<byte>, now: int, rank: nat)
    requires !Reenters(h)
    ensures RunHandler(h, m, data, now, rank).machine.state == m.state
  {
    match h
    case DoBoth(first, second) =>
      PlainHandlerKeepsState(first, m, data, now, rank);
      var o1 := RunHandler(first, m, data, now, rank);
      if o1.failure.None? {
        PlainHandlerKeepsState(second, o1.machine, data, now, rank);
      }
    case _ =>
  }

  /** The state is set to the target before the handler runs, so with a
      handler that does not re-enter, the machine ends in the target state
      even when the handler raises. */
  lemma MatchedEventReachesTarget(m: Machine, event: Event, data: seq<byte>, now: int)
    requires Lookup(m.state, event).Some?
    requires !Reenters(Lookup(m.state, event).value.handler)
    ensures HandleEvent(m, event, data, now).machine.state == Lookup(m.state, event).value.to
  {
    FindIsLookup(m.state, event);
    var t := Lookup(m.state, event).value;
    PlainHandlerKeepsState(t.handler, m.(state := t.to), data, now, Rank(event));
  }

  // -------------------------------------------------------- handler effects

  /** The requests each handler that only talks to the device issues, read off
      the handler list; None for the handlers that decode, store, update the
      download counters or re-enter the machine. */
  function DeviceRequests(h: Handler): Option<seq<Request>>
  {
    match h
    case TurnLedOn => Some([WriteByte(Led, LedOn)])
    case TurnLedOff => Some([WriteByte(Led, LedOff)])
    case RequestTxStatus => Some([Read(TxStatus)])
    case CancelTransfer => Some([WriteByte(RxStatus, RxCancel)])
    case SendTxStatusAck => Some([WriteByte(RxStatus, RxAck)])
    case RequestTime => Some([Read(Clock)])
    case RequestSessionId => Some([Read(SessionId)])
    case RequestMeasurementPeriod => Some([Read(MeasurementPeriod)])
    case RequestSessionStartIndex => Some([Read(SessionStartIndex)])
    case RequestLastEntryIndex => Some([Read(LastEntryIndex)])
    case RequestNumberOfEntries => Some([Read(NumberEntries)])
    case RegisterForTxBufferNotifications => Some([EnableNotifications(TxBuffer)])
    case RegisterForTxStatusNotifications => Some([EnableNotifications(TxStatus)])
    case StartReceiving => Some([WriteByte(RxStatus, RxReceiving)])
    case PrepareForFirstBuffer => Some([])
    case DoNothing => Some([])
    case DoQuit => Some([Stop])
    case _ => None
  }

  /** The session after each handler that decodes a read value: the value is
      the little-endian reading of the bytes, and the clock handler also keeps
      the host time. None for every other handler. */
  function Decoded(h: Handler, s: History.Session, data: seq<byte>, now: int): Option<History.Session>
  {
    var value := LittleEndian(data);
    match h
    case InitializeTime => Some(s.(currentTime := now, deviceTime := value))
    case InitializeSessionId => Some(s.(sessionId := value))
    case InitializeMeasurementPeriod => Some(s.(measurementPeriod := value))
    case InitializeSessionStartIndex => Some(s.(sessionStartIndex := value))
    case InitializeLastEntryIndex => Some(s.(lastEntryIndex := value))
    case InitializeNumberOfEntries => Some(s.(numberEntries := value))
    case _ => None
  }

  /** A handler that only talks to the device leaves the machine as it is,
      issues exactly its requests and never fails. */
  lemma DeviceOnlyHandlerRuns(h: Handler, m: Machine, data: seq<byte>, now: int, rank: nat)
    requires DeviceRequests(h).Some?
    ensures RunHandler(h, m, data, now, rank) == Outcome(m, DeviceRequests(h).value, None)
  {
  }

  /** A decoding handler changes only its session field, issues nothing and
      never fails. */
  lemma DecodingHandlerRuns(h: Handler, m: Machine, data: seq<byte>, now: int, rank: nat)
    requires Decoded(h, m.session, data, now).Some?
    ensures RunHandler(h, m, data, now, rank) == Quiet(m.(session := Decoded(h, m.session, data, now).value))
  {
  }

  /** A matched event whose handler only talks to the device moves the machine
      to the target state and issues exactly that handler's requests. */
  lemma DeviceOnlyTransition(m: Machine, event: Event, data: seq<byte>, now: int)
    requires Lookup(m.state, event).Some?
    requires DeviceRequests(Lookup(m.state, event).value.handler).Some?
    ensures HandleEvent(m, event, data, now)
         == Outcome(m.(state := Lookup(m.state, event).value.to),
                    DeviceRequests(Lookup(m.state, event).value.handler).value, None)
  {
    FindIsLookup(m.state, event);
    var t := Lookup(m.state, event).value;
    DeviceOnlyHandlerRuns(t.handler, m.(state := t.to), data, now, Rank(event));
  }

  // ------------------------------------------- single handlers, as used below

  lemma LedOnRuns(m: Machine, data: seq<byte>, now: int, rank: nat)
    ensures RunHandler(TurnLedOn, m, data, now, rank) == Emit(m, WriteByte(Led, LedOn))
  {
  }

  lemma ClockRequestRuns(m: Machine, data: seq<byte>, now: int, rank: nat)
    ensures RunHandler(RequestTime, m, data, now, rank) == Emit(m, Read(Clock))
  {
  }

  lemma CancelRuns(m: Machine, data: seq<byte>, now: int, rank: nat)
    ensures RunHandler(CancelTransfer, m, data, now, rank) == Emit(m, WriteByte(RxStatus, RxCancel))
  {
  }

  lemma AckRuns(m: Machine, data: seq<byte>, now: int, rank: nat)
    ensures RunHandler(SendTxStatusAck, m, data, now, rank) == Emit(m, WriteByte(RxStatus, RxAck))
  {
  }

  lemma NothingRuns(m: Machine, data: seq<byte>, now: int, rank: nat)
    ensures RunHandler(DoNothing, m, data, now, rank) == Quiet(m)
  {
  }

  lemma QuitRuns(m: Machine, data: seq<byte>, now: int, rank: nat)
    ensures RunHandler(DoQuit, m, data, now, rank) == Emit(m, Stop)
  {
  }

  lemma TimePairRuns(m: Machine, data: seq<byte>, now: int, rank: nat)
    ensures RunHandler(DoBoth(InitializeTime, RequestSessionId), m, data, now, rank)
         == Emit(m.(session := m.session.(currentTime := now, deviceTime := LittleEndian(data))), Read(SessionId))
  {
  }

  lemma SessionIdPairRuns(m: Machine, data: seq<byte>, now: int, rank: nat)
    ensures RunHandler(DoBoth(InitializeSessionId, RequestMeasurementPeriod), m, data, now, rank)
         == Emit(m.(session := m.session.(sessionId := LittleEndian(data))), Read(MeasurementPeriod))
  {
  }

  lemma PeriodPairRuns(m: Machine, data: seq<byte>, now: int, rank: nat)
    ensures RunHandler(DoBoth(InitializeMeasurementPeriod, RequestSessionStartIndex), m, data, now, rank)
         == Emit(m.(session := m.session.(measurementPeriod := LittleEndian(data))), Read(SessionStartIndex))
  {
  }

  lemma StartIndexPairRuns(m: Machine, data: seq<byte>, now: int, rank: nat)
    ensures RunHandler(DoBoth(InitializeSessionStartIndex, RequestLastEntryIndex), m, data, now, rank)
         == Emit(m.(session := m.session.(sessionStartIndex := LittleEndian(data))), Read(LastEntryIndex))
  {
  }

  lemma LastIndexPairRuns(m: Machine, data: seq<byte>, now: int, rank: nat)
    ensures RunHandler(DoBoth(InitializeLastEntryIndex, RequestNumberOfEntries), m, data, now, rank)
         == Emit(m.(session := m.session.(lastEntryIndex := LittleEndian(data))), Read(NumberEntries))
  {
  }

  lemma EntryCountPairRuns(m: Machine, data: seq<byte>, now: int, rank: nat)
    ensures RunHandler(DoBoth(InitializeNumberOfEntries, RegisterForTxBufferNotifications), m, data, now, rank)
         == Emit(m.(session := m.session.(numberEntries := LittleEndian(data))), EnableNotifications(TxBuffer))
  {
  }

  // ---------------------------------------------------- status byte dispatch

  /** The start-up status check re-enters with the idle or not-idle event. */
  lemma InitCheckReenters(m: Machine, data: seq<byte>, now: int, event: Event)
    requires |data| > 0 && InitStatusEvent(data[0]) == event
    ensures RunHandler(CheckTxStatusDuringInit, m, data, now, 1) == HandleEvent(m, event, [], now)
  {
  }

  /** The status checks raise on a notification without a byte. */
  lemma CheckWithoutStatusFails(m: Machine, now: int)
    ensures RunHandler(CheckTxStatusDuringInit, m, [], now, 1) == Outcome(m, [], Some(EmptyStatus))
    ensures RunHandler(CheckTxStatusDuringTransfer, m, [], now, 1) == Outcome(m, [], Some(EmptyStatus))
  {
  }

  /** The transfer status check re-enters with the event its status byte names. */
  lemma TransferCheckReenters(m: Machine, data: seq<byte>, now: int, event: Event)
    requires |data| > 0 && TransferStatusEvent(data[0]) == Some(event)
    ensures RunHandler(CheckTxStatusDuringTransfer, m, data, now, 1) == HandleEvent(m, event, [], now)
  {
  }

  /** The transfer status check on an unknown byte does nothing. */
  lemma TransferCheckIgnores(m: Machine, data: seq<byte>, now: int)
    requires |data| > 0 && TransferStatusEvent(data[0]).None?
    ensures RunHandler(CheckTxStatusDuringTransfer, m, data, now, 1) == Quiet(m)
  {
  }

  /** Storing the file, then turning the light off unless the store raised. */
  lemma StoreThenLedOffRuns(s: History.Session, now: int, rank: nat)
    ensures var (stored, failure) := History.Store(s);
      RunHandler(DoBoth(StoreHistoryFile, TurnLedOff), Machine(WaitingLedOff, s), [], now, rank)
      == if failure.None? then Outcome(Machine(WaitingLedOff, stored), [WriteByte(Led, LedOff)], None)
         else Outcome(Machine(WaitingLedOff, stored), [], Some(Decode(failure.value)))
  {
  }

  /** A fresh machine starts by turning the light on. */
  lemma StartTurnsLedOn(now: int)
    ensures HandleEvent(InitialMachine(), Start, [], now)
         == Outcome(Machine(WaitingLedOn, History.Initial()), [WriteByte(Led, LedOn)], None)
  {
    MatchedEventRunsHandler(InitialMachine(), Start, [], now, WaitingLedOn, TurnLedOn);
    LedOnRuns(Machine(WaitingLedOn, History.Initial()), [], now, 1);
  }

  /** The status read at start-up, without a byte: the check raises and leaves
      the machine in the checking state. */
  lemma InitStatusEmpty(s: History.Session, now: int)
    ensures HandleEvent(Machine(ReadingTxStatus, s), ReceivedTxStatus, [], now)
         == Outcome(Machine(CheckingTxStatusDuringInit, s), [], Some(EmptyStatus))
  {
    MatchedEventRunsHandler(Machine(ReadingTxStatus, s), ReceivedTxStatus, [], now,
                            CheckingTxStatusDuringInit, CheckTxStatusDuringInit);
    CheckWithoutStatusFails(Machine(CheckingTxStatusDuringInit, s), now);
  }

  /** The status read at start-up, idle: straight on to reading the clock. */
  lemma InitStatusIdle(s: History.Session, data: seq<byte>, now: int)
    requires |data| > 0 && data[0] == TxIdle
    ensures HandleEvent(Machine(ReadingTxStatus, s), ReceivedTxStatus, data, now)
         == Outcome(Machine(InitializingTime, s), [Read(Clock)], None)
  {
    var checking := Machine(CheckingTxStatusDuringInit, s);
    MatchedEventRunsHandler(Machine(ReadingTxStatus, s), ReceivedTxStatus, data, now,
                            CheckingTxStatusDuringInit, CheckTxStatusDuringInit);
    InitCheckReenters(checking, data, now, TxStatusIdle);
    MatchedEventRunsHandler(checking, TxStatusIdle, [], now, InitializingTime, RequestTime);
    ClockRequestRuns(Machine(InitializingTime, s), [], now, 0);
  }

  /** The status read at start-up, any other byte: the pending transfer is
      cancelled first. */
  lemma InitStatusBusy(s: History.Session, data: seq<byte>, now: int)
    requires |data| > 0 && data[0] != TxIdle
    ensures HandleEvent(Machine(ReadingTxStatus, s), ReceivedTxStatus, data, now)
         == Outcome(Machine(CancellingTransfer, s), [WriteByte(RxStatus, RxCancel)], None)
  {
    var checking := Machine(CheckingTxStatusDuringInit, s);
    MatchedEventRunsHandler(Machine(ReadingTxStatus, s), ReceivedTxStatus, data, now,
                            CheckingTxStatusDuringInit, CheckTxStatusDuringInit);
    InitCheckReenters(checking, data, now, TxStatusNotIdle);
    MatchedEventRunsHandler(checking, TxStatusNotIdle, [], now, CancellingTransfer, CancelTransfer);
    CancelRuns(Machine(CancellingTransfer, s), [], now, 0);
  }

  /** A cancelled transfer continues with the clock once the device confirms. */
  lemma CancelThenReadClock(s: History.Session, now: int)
    ensures HandleEvent(Machine(CancellingTransfer, s), RxStatusReady, [], now)
         == Outcome(Machine(InitializingTime, s), [Read(Clock)], None)
  {
    MatchedEventRunsHandler(Machine(CancellingTransfer, s), RxStatusReady, [], now, InitializingTime, RequestTime);
    ClockRequestRuns(Machine(InitializingTime, s), [], now, 1);
  }

  /** The status read during the transfer, when it is awaiting acknowledgement:
      the acknowledgement is sent. */
  lemma TransferStatusAwaitingAck(s: History.Session, data: seq<byte>, now: int)
    requires |data| > 0 && data[0] == TxAwaitingAck
    ensures HandleEvent(Machine(ReceivingBuffers, s), ReceivedTxStatus, data, now)
         == Outcome(Machine(SettingRxStatusToAck, s), [WriteByte(RxStatus, RxAck)], None)
  {
    var checking := Machine(CheckingTxStatusDuringTransfer, s);
    MatchedEventRunsHandler(Machine(ReceivingBuffers, s), ReceivedTxStatus, data, now,
                            CheckingTxStatusDuringTransfer, CheckTxStatusDuringTransfer);
    TransferCheckReenters(checking, data, now, TxStatusWaitingAck);
    MatchedEventRunsHandler(checking, TxStatusWaitingAck, [], now, SettingRxStatusToAck, SendTxStatusAck);
    AckRuns(Machine(SettingRxStatusToAck, s), [], now, 0);
  }

  /** The status read during the transfer, when still transferring: the
      machine goes back to receiving buffers and asks nothing. */
  lemma TransferStatusTransferring(s: History.Session, data: seq<byte>, now: int)
    requires |data| > 0 && data[0] == TxTransferring
    ensures HandleEvent(Machine(ReceivingBuffers, s), ReceivedTxStatus, data, now)
         == Outcome(Machine(ReceivingBuffers, s), [], None)
  {
    var checking := Machine(CheckingTxStatusDuringTransfer, s);
    MatchedEventRunsHandler(Machine(ReceivingBuffers, s), ReceivedTxStatus, data, now,
                            CheckingTxStatusDuringTransfer, CheckTxStatusDuringTransfer);
    TransferCheckReenters(checking, data, now, TxStatusTransferring);
    MatchedEventRunsHandler(checking, TxStatusTransferring, [], now, ReceivingBuffers, DoNothing);
    NothingRuns(Machine(ReceivingBuffers, s), [], now, 0);
  }

  /** The status read during the transfer, when idle: the file is stored and
      the light turned off; if the store raises, its failure is reported with
      the file as far as it got, and the light stays on. */
  lemma TransferStatusIdle(s: History.Session, data: seq<byte>, now: int)
    requires |data| > 0 && data[0] == TxIdle
    ensures var (stored, failure) := History.Store(s);
      HandleEvent(Machine(ReceivingBuffers, s), ReceivedTxStatus, data, now)
      == if failure.None? then Outcome(Machine(WaitingLedOff, stored), [WriteByte(Led, LedOff)], None)
         else Outcome(Machine(WaitingLedOff, stored), [], Some(Decode(failure.value)))
  {
    var checking := Machine(CheckingTxStatusDuringTransfer, s);
    MatchedEventRunsHandler(Machine(ReceivingBuffers, s), ReceivedTxStatus, data, now,
                            CheckingTxStatusDuringTransfer, CheckTxStatusDuringTransfer);
    TransferCheckReenters(checking, data, now, TxStatusIdle);
    MatchedEventRunsHandler(checking, TxStatusIdle, [], now, WaitingLedOff, DoBoth(StoreHistoryFile, TurnLedOff));
    StoreThenLedOffRuns(s, now, 0);
  }

  /** A status notification without a byte raises, leaving the machine in the
      checking state. */
  lemma TransferStatusEmpty(s: History.Session, now: int)
    ensures HandleEvent(Machine(ReceivingBuffers, s), ReceivedTxStatus, [], now)
         == Outcome(Machine(CheckingTxStatusDuringTransfer, s), [], Some(EmptyStatus))
  {
    MatchedEventRunsHandler(Machine(ReceivingBuffers, s), ReceivedTxStatus, [], now,
                            CheckingTxStatusDuringTransfer, CheckTxStatusDuringTransfer);
    CheckWithoutStatusFails(Machine(CheckingTxStatusDuringTransfer, s), now);
  }

  /** Any other status byte during the transfer raises no event: the machine
      stays in the checking state. */
  lemma UnknownTransferStatusStalls(s: History.Session, data: seq<byte>, now: int)
    requires |data| > 0 && data[0] != TxIdle && data[0] != TxTransferring && data[0] != TxAwaitingAck
    ensures HandleEvent(Machine(ReceivingBuffers, s), ReceivedTxStatus, data, now)
         == Outcome(Machine(CheckingTxStatusDuringTransfer, s), [], None)
  {
    MatchedEventRunsHandler(Machine(ReceivingBuffers, s), ReceivedTxStatus, data, now,
                            CheckingTxStatusDuringTransfer, CheckTxStatusDuringTransfer);
    TransferCheckIgnores(Machine(CheckingTxStatusDuringTransfer, s), data, now);
  }

  /** In that checking state the next status notification has no transition,
      so the download is stuck there. */
  lemma StalledCheckRejectsStatus(s: History.Session, data: seq<byte>, now: int)
    ensures HandleEvent(Machine(CheckingTxStatusDuringTransfer, s), ReceivedTxStatus, data, now)
         == Outcome(Machine(CheckingTxStatusDuringTransfer, s), [],
                    Some(NoTransition(CheckingTxStatusDuringTransfer, ReceivedTxStatus)))
  {
    UnmatchedEventFails(Machine(CheckingTxStatusDuringTransfer, s), ReceivedTxStatus, data, now);
  }

  /** Once the light is off the machine is back in standby and asks to stop. */
  lemma LedOffQuits(s: History.Session, now: int)
    ensures HandleEvent(Machine(WaitingLedOff, s), LedWrittenOk, [], now)
         == Outcome(Machine(Standby, s), [Stop], None)
  {
    MatchedEventRunsHandler(Machine(WaitingLedOff, s), LedWrittenOk, [], now, Standby, DoQuit);
    QuitRuns(Machine(Standby, s), [], now, 1);
  }

  // ----------------------------------------------------- reading the header

  /** What the buffer handlers do to the session. */
  lemma BufferHandlersRun(s: History.Session, data: seq<byte>, now: int, rank: nat)
    ensures RunHandler(HandleFirstBuffer, Machine(ReceivingBuffers, s), data, now, rank)
         == Quiet(Machine(ReceivingBuffers,
                          History.Append(s.(count := 1, bytesDownloaded := 0, length := FragmentLength(data)),
                                         BufferIndex(data), data)))
    ensures RunHandler(HandleBuffer, Machine(ReceivingBuffers, s), data, now, rank)
         == Quiet(Machine(ReceivingBuffers,
                          History.Append(s.(count := s.count + 1, bytesDownloaded := s.bytesDownloaded + 18),
                                         BufferIndex(data), data)))
  {
  }

  /** What writing the transfer start index does: the first entry index is
      recorded, then written as four little-endian bytes if it fits. */
  lemma TransferIndexHandlerRuns(s: History.Session, now: int, rank: nat)
    ensures var first := s.lastEntryIndex - s.numberEntries + 1;
      var o := RunHandler(WriteTransferStartIndex, Machine(InitializingTransferIndex, s), [], now, rank);
      && o.machine == Machine(InitializingTransferIndex, s.(firstEntryIndex := first))
      && (0 <= first < 0x1_0000_0000 ==>
            o.failure.None? && |o.requests| == 1 && o.requests[0].WriteU32?
            && o.requests[0].characteristic == TransferStartIndex
            && |o.requests[0].wire| == 4 && LittleEndian(o.requests[0].wire) == first)
      && (!(0 <= first < 0x1_0000_0000) ==> o.requests == [] && o.failure == Some(U32Overflow(first)))
  {
  }

  /** Reading the device clock records the host time and the device time,
      decoded little-endian, and asks for the session id. */
  lemma ReceiveTime(s: History.Session, data: seq<byte>, now: int)
    ensures HandleEvent(Machine(InitializingTime, s), ReceivedTime, data, now)
         == Outcome(Machine(InitializingSessionId, s.(currentTime := now, deviceTime := LittleEndian(data))),
                    [Read(SessionId)], None)
  {
    MatchedEventRunsHandler(Machine(InitializingTime, s), ReceivedTime, data, now,
                            InitializingSessionId, DoBoth(InitializeTime, RequestSessionId));
    TimePairRuns(Machine(InitializingSessionId, s), data, now, 1);
  }

  /** The session id is decoded and the measurement period asked for. */
  lemma ReceiveSessionId(s: History.Session, data: seq<byte>, now: int)
    ensures HandleEvent(Machine(InitializingSessionId, s), ReceivedSessionId, data, now)
         == Outcome(Machine(InitializingMeasurementPeriod, s.(sessionId := LittleEndian(data))),
                    [Read(MeasurementPeriod)], None)
  {
    MatchedEventRunsHandler(Machine(InitializingSessionId, s), ReceivedSessionId, data, now,
                            InitializingMeasurementPeriod, DoBoth(InitializeSessionId, RequestMeasurementPeriod));
    SessionIdPairRuns(Machine(InitializingMeasurementPeriod, s), data, now, 1);
  }

  /** The measurement period is decoded and the session start index asked for. */
  lemma ReceiveMeasurementPeriod(s: History.Session, data: seq<byte>, now: int)
    ensures HandleEvent(Machine(InitializingMeasurementPeriod, s), ReceivedMeasurementPeriod, data, now)
         == Outcome(Machine(InitializingSessionStartIndex, s.(measurementPeriod := LittleEndian(data))),
                    [Read(SessionStartIndex)], None)
  {
    MatchedEventRunsHandler(Machine(InitializingMeasurementPeriod, s), ReceivedMeasurementPeriod, data, now,
                            InitializingSessionStartIndex,
                            DoBoth(InitializeMeasurementPeriod, RequestSessionStartIndex));
    PeriodPairRuns(Machine(InitializingSessionStartIndex, s), data, now, 1);
  }

  /** The session start index is decoded and the last entry index asked for. */
  lemma ReceiveSessionStartIndex(s: History.Session, data: seq<byte>, now: int)
    ensures HandleEvent(Machine(InitializingSessionStartIndex, s), ReceivedSessionStartIndex, data, now)
         == Outcome(Machine(InitializingLastEntryIndex, s.(sessionStartIndex := LittleEndian(data))),
                    [Read(LastEntryIndex)], None)
  {
    MatchedEventRunsHandler(Machine(InitializingSessionStartIndex, s), ReceivedSessionStartIndex, data, now,
                            InitializingLastEntryIndex, DoBoth(InitializeSessionStartIndex, RequestLastEntryIndex));
    StartIndexPairRuns(Machine(InitializingLastEntryIndex, s), data, now, 1);
  }

  /** The last entry index is decoded and the number of entries asked for. */
  lemma ReceiveLastEntryIndex(s: History.Session, data: seq<byte>, now: int)
    ensures HandleEvent(Machine(InitializingLastEntryIndex, s), ReceivedLastEntryIndex, data, now)
         == Outcome(Machine(InitializingNumberOfEntries, s.(lastEntryIndex := LittleEndian(data))),
                    [Read(NumberEntries)], None)
  {
    MatchedEventRunsHandler(Machine(InitializingLastEntryIndex, s), ReceivedLastEntryIndex, data, now,
                            InitializingNumberOfEntries, DoBoth(InitializeLastEntryIndex, RequestNumberOfEntries));
    LastIndexPairRuns(Machine(InitializingNumberOfEntries, s), data, now, 1);
  }

  /** The number of entries is decoded and the buffer notifications subscribed. */
  lemma ReceiveNumberEntries(s: History.Session, data: seq<byte>, now: int)
    ensures HandleEvent(Machine(InitializingNumberOfEntries, s), ReceivedNumberEntries, data, now)
         == Outcome(Machine(InitializingTxBuffer, s.(numberEntries := LittleEndian(data))),
                    [EnableNotifications(TxBuffer)], None)
  {
    MatchedEventRunsHandler(Machine(InitializingNumberOfEntries, s), ReceivedNumberEntries, data, now,
                            InitializingTxBuffer, DoBoth(InitializeNumberOfEntries, RegisterForTxBufferNotifications));
    EntryCountPairRuns(Machine(InitializingTxBuffer, s), data, now, 1);
  }

  /** Once the status notifications are on, the first entry index is derived
      from the last index and the count and written as four little-endian
      bytes; an index outside the unsigned 32-bit range raises instead, after
      the session has recorded it. */
  lemma WriteTransferStart(s: History.Session, now: int)
    ensures var o := HandleEvent(Machine(InitializingTxStatus, s), TxStatusNotificationsReady, [], now);
      var first := s.lastEntryIndex - s.numberEntries + 1;
      && o.machine == Machine(InitializingTransferIndex, s.(firstEntryIndex := first))
      && (0 <= first < 0x1_0000_0000 ==>
            o.failure.None? && |o.requests| == 1 && o.requests[0].WriteU32?
            && o.requests[0].characteristic == TransferStartIndex
            && |o.requests[0].wire| == 4 && LittleEndian(o.requests[0].wire) == first)
      && (!(0 <= first < 0x1_0000_0000) ==> o.requests == [] && o.failure == Some(U32Overflow(first)))
  {
    MatchedEventRunsHandler(Machine(InitializingTxStatus, s), TxStatusNotificationsReady, [], now,
                            InitializingTransferIndex, WriteTransferStartIndex);
    TransferIndexHandlerRuns(s, now, 1);
  }

  // ---------------------------------------------------------- the transfer

  /** The first buffer starts the count at one, takes the declared length from
      its bytes 2 to 5, and is kept under its sequence number. */
  lemma FirstBuffer(s: History.Session, data: seq<byte>, now: int)
    ensures var o := HandleEvent(Machine(ReceivingFirstBuffer, s), TxBufferData, data, now);
      && o.requests == [] && o.failure.None?
      && o.machine.state == ReceivingBuffers
      && o.machine.session.count == 1
      && o.machine.session.bytesDownloaded == 0
      && o.machine.session.length == FragmentLength(data)
      && o.machine.session.buffers == s.buffers[BufferIndex(data) := data]
      && o.machine.session.data == s.data && o.machine.session.records == s.records
      && o.machine.session == s.(count := 1, bytesDownloaded := 0, length := FragmentLength(data),
                                 buffers := s.buffers[BufferIndex(data) := data])
  {
    MatchedEventRunsHandler(Machine(ReceivingFirstBuffer, s), TxBufferData, data, now,
                            ReceivingBuffers, HandleFirstBuffer);
    BufferHandlersRun(s, data, now, 1);
  }

  /** Each further buffer adds one to the count and a chunk to the bytes
      downloaded, and is kept under its sequence number, replacing any earlier
      buffer with that number. */
  lemma NextBuffer(s: History.Session, data: seq<byte>, now: int)
    ensures var o := HandleEvent(Machine(ReceivingBuffers, s), TxBufferData, data, now);
      && o.requests == [] && o.failure.None?
      && o.machine.state == ReceivingBuffers
      && o.machine.session.count == s.count + 1
      && o.machine.session.bytesDownloaded == s.bytesDownloaded + 18
      && o.machine.session.length == s.length
      && o.machine.session.buffers == s.buffers[BufferIndex(data) := data]
      && o.machine.session == s.(count := s.count + 1, bytesDownloaded := s.bytesDownloaded + 18,
                                 buffers := s.buffers[BufferIndex(data) := data])
  {
    MatchedEventRunsHandler(Machine(ReceivingBuffers, s), TxBufferData, data, now,
                            ReceivingBuffers, HandleBuffer);
    BufferHandlersRun(s, data, now, 1);
  }

  /** A status notification before the first buffer is ignored. */
  lemma StatusBeforeFirstBufferIgnored(s: History.Session, data: seq<byte>, now: int)
    ensures HandleEvent(Machine(ReceivingFirstBuffer, s), ReceivedTxStatus, data, now)
         == Outcome(Machine(ReceivingFirstBuffer, s), [], None)
  {
    MatchedEventRunsHandler(Machine(ReceivingFirstBuffer, s), ReceivedTxStatus, data, now,
                            ReceivingFirstBuffer, DoNothing);
    NothingRuns(Machine(ReceivingFirstBuffer, s), data, now, 1);
  }

  // ------------------------------------------------------ device completions

  /** The three kinds of completion the device reports. */
  datatype CompletionKind = Subscribed | Written | Updated

  function KindOf(c: Completion): CompletionKind
  {
    match c
    case NotificationsEnabled(_) => Subscribed
    case WriteSucceeded(_) => Written
    case ValueUpdated(_, _) => Updated
  }

  /** For each event the device causes, the completion that raises it: an
      independent statement of the `handle_*` dispatch, read event by event. */
  function Origin(e: Event): Option<(CompletionKind, Characteristic)>
  {
    match e
    case TxBufferNotificationsReady => Some((Subscribed, TxBuffer))
    case TxStatusNotificationsReady => Some((Subscribed, TxStatus))
    case RxStatusReady => Some((Written, RxStatus))
    case TransferStartIndexReady => Some((Written, TransferStartIndex))
    case LedWrittenOk => Some((Written, Led))
    case ReceivedTxStatus => Some((Updated, TxStatus))
    case TxBufferData => Some((Updated, TxBuffer))
    case ReceivedTime => Some((Updated, Clock))
    case ReceivedSessionId => Some((Updated, SessionId))
    case ReceivedMeasurementPeriod => Some((Updated, MeasurementPeriod))
    case ReceivedSessionStartIndex => Some((Updated, SessionStartIndex))
    case ReceivedLastEntryIndex => Some((Updated, LastEntryIndex))
    case ReceivedNumberEntries => Some((Updated, NumberEntries))
    case _ => None
  }

  /** A completion raises an event exactly when that event originates from
      the completion's kind and characteristic. */
  lemma CompletionRaisesIff(c: Completion, e: Event)
    ensures EventOf(c) == Some(e) <==> Origin(e) == Some((KindOf(c), c.characteristic))
  {
  }

  /** Completions never raise the start event nor a status event the machine
      derives itself, and raise nothing on characteristics with no event. */
  lemma CompletionEventsAreRaw(c: Completion)
    ensures EventOf(c).Some? ==> !Derived(EventOf(c).value) && EventOf(c).value != Start
    ensures EventOf(c).None? <==> forall e :: Origin(e) != Some((KindOf(c), c.characteristic))
  {
    if EventOf(c).None? {
      forall e ensures Origin(e) != Some((KindOf(c), c.characteristic)) {
        CompletionRaisesIff(c, e);
      }
    } else {
      CompletionRaisesIff(c, EventOf(c).value);
    }
  }

  /** A completion that raises no event leaves the machine as it is; one that
      does is handled as its event, with the value read as data. */
  lemma CompletionHandling(m: Machine, c: Completion, now: int)
    ensures EventOf(c).None? ==> HandleCompletion(m, c, now) == Outcome(m, [], None)
    ensures EventOf(c).Some? ==>
      HandleCompletion(m, c, now) == HandleEvent(m, EventOf(c).value, if c.ValueUpdated? then c.value else [], now)
  {
  }
}
