/**
 * The history file of one download session (class HistoryFile): the
 * fragments received so far, their reassembly into one byte stream, and the
 * decoding of that stream into a header time and a list of records.
 */
module History {
  import opened Wrappers
  import opened Bytes
  import Calibration

  /** At most this many payload bytes of each fragment are kept. */
  const ChunkSize: nat := 18
  /** Size of the big-endian header at the start of the reassembled stream. */
  const HeaderSize: nat := 16
  /** Size of one big-endian record frame. */
  const FrameSize: nat := 12

  /** The four raw codes kept with every record ('raw-values'). */
  datatype RawValues = RawValues(
    airTemperature: nat,
    soilTemperature: nat,
    soilMoisture: nat,
    sunlight: nat)

  /** One decoded measurement: its absolute index, its host timestamp and its
      raw codes. The calibrated values are functions of the raw codes. */
  datatype Record = Record(index: int, timestamp: int, raw: RawValues)
  {
    function AirTemperature(): (r: real)
      ensures Calibration.MinTemperature <= r <= Calibration.MaxTemperature
    {
      Calibration.Temperature(raw.airTemperature)
    }

    function SoilTemperature(): (r: real)
      ensures Calibration.MinTemperature <= r <= Calibration.MaxTemperature
    {
      Calibration.Temperature(raw.soilTemperature)
    }

    function SoilMoisture(): real
    {
      Calibration.SoilMoisture(raw.soilMoisture)
    }
  }

  /** The exceptions the decoder can raise: a KeyError on a missing fragment,
      a struct.error on a short header, and the math domain error of the
      sunlight power law on a zero light code. */
  datatype Failure =
    | MissingFragment(sequence: nat)
    | ShortHeader(size: nat)
    | SunlightDomain(index: int)

  /** The mutable fields of a HistoryFile, as one immutable value. */
  datatype Session = Session(
    currentTime: int,
    deviceTime: nat,
    sessionId: nat,
    measurementPeriod: nat,
    sessionStartIndex: nat,
    firstEntryIndex: int,
    lastEntryIndex: nat,
    lastEntryTime: nat,
    numberEntries: nat,
    length: nat,
    count: nat,
    bytesDownloaded: nat,
    buffers: map<nat, seq<byte>>,
    data: seq<byte>,
    records: seq<Record>)

  /** A freshly constructed HistoryFile. */
  function Initial(): Session
  {
    Session(0, 0, 0, 0, 0, 0, 0, 0, 0, 0, 0, 0, map[], [], [])
  }

  /** Stores a fragment under its sequence number, replacing any earlier one. */
  function Append(s: Session, index: nat, fragment: seq<byte>): (r: Session)
    ensures index in r.buffers && r.buffers[index] == fragment
    ensures r.buffers.Keys == s.buffers.Keys + {index}
    ensures forall k :: k in s.buffers && k != index ==> r.buffers[k] == s.buffers[k]
    ensures r == s.(buffers := r.buffers)
  {
    s.(buffers := s.buffers[index := fragment])
  }

  /** The part of a fragment that reassembly can use: at most 18 payload bytes. */
  function Chunk(fragment: seq<byte>): (r: seq<byte>)
    ensures |r| == Min(ChunkSize, Max(0, |fragment| - 2))
    ensures forall k :: 0 <= k < |r| ==> r[k] == fragment[k + 2]
  {
    PyPrefix(Payload(fragment), ChunkSize)
  }

  /** One iteration of the reassembly loop: append 18 payload bytes, or only as
      many as still fit in the declared length. When the data already exceeds
      the length, the count is negative and Python's slice drops bytes from the
      end of the payload instead. */
  function AppendChunk(data: seq<byte>, fragment: seq<byte>, length: nat): (r: seq<byte>)
    ensures |data| <= |r| && r[..|data|] == data
    ensures |data| <= length ==> |r| <= length
    ensures |data| <= length ==> r == data + PyPrefix(Chunk(fragment), length - |data|)
  {
    var n: int := if |data| + ChunkSize > length then length - |data| else ChunkSize;
    var payload := Payload(fragment);
    assert |data| <= length ==> PyPrefix(payload, n) == PyPrefix(Chunk(fragment), length - |data|);
    data + PyPrefix(payload, n)
  }

  /** The reassembly loop from sequence number i up to (not including) count.
      The result is the data built so far and the first missing sequence
      number, if any. */
  function AssembleFrom(buffers: map<nat, seq<byte>>, length: nat, data: seq<byte>, i: nat, count: nat)
    : (r: (seq<byte>, Option<nat>))
    decreases count - i
  {
    if i >= count then (data, None)
    else if i !in buffers then (data, Some(i))
    else AssembleFrom(buffers, length, AppendChunk(data, buffers[i], length), i + 1, count)
  }

  /** Reassembly as `_assemble` does it: fragments 1 to count-1, appended to
      whatever data the session already holds. */
  function Assemble(s: Session): (seq<byte>, Option<nat>)
  {
    AssembleFrom(s.buffers, s.length, s.data, 1, s.count)
  }

  /** The header keeps only last_entry_time, the big-endian u32 at bytes 4-7;
      unpacking fewer than 16 bytes fails. */
  function ConvertHeader(data: seq<byte>): (r: Result<nat, Failure>)
    ensures r.Success? <==> |data| >= HeaderSize
    ensures r.Failure? ==> r.error == ShortHeader(|data|)
    ensures r.Success? ==> r.value == 16777216 * (data[4] as int) + 65536 * (data[5] as int)
                                      + 256 * (data[6] as int) + data[7] as int
  {
    var header := Slice(data, 0, HeaderSize);
    if |header| != HeaderSize then
      Failure(ShortHeader(|data|))
    else
      BigEndian4(header[4..8]);
      Success(BigEndian(header[4..8]))
  }

  /** The bytes of the i-th record frame; shorter than 12 bytes when the
      stream ends inside it. */
  function Frame(data: seq<byte>, i: nat): seq<byte>
  {
    if 28 + 12 * i <= |data| then data[16 + 12 * i..28 + 12 * i]
    else if 16 + 12 * i <= |data| then data[16 + 12 * i..]
    else []
  }

  /** The raw codes of a full frame: air temperature at offset 0, light at 2,
      soil temperature at 6 and soil moisture at 8; the conductivity at 4 and
      the battery level at 10 are unpacked and dropped. */
  function RawFields(frame: seq<byte>): RawValues
    requires |frame| == FrameSize
  {
    RawValues(
      airTemperature := U16(frame[0], frame[1]),
      soilTemperature := U16(frame[6], frame[7]),
      soilMoisture := U16(frame[8], frame[9]),
      sunlight := U16(frame[2], frame[3]))
  }

  /** The host clock minus the device clock, both read at initialization. */
  function StartupTime(s: Session): int
  {
    s.currentTime - s.deviceTime
  }

  /** The host time of the record with the given absolute index: records are
      one measurement period apart, counted back from the last entry. */
  function RecordTimestamp(s: Session, index: int): int
  {
    StartupTime(s) + (s.lastEntryTime - (s.lastEntryIndex - index) * s.measurementPeriod)
  }

  /** Decodes one full frame into a record with the given absolute index. */
  function DecodeRecord(s: Session, frame: seq<byte>, index: int): (r: Result<Record, Failure>)
    requires |frame| == FrameSize
    ensures r.Failure? <==> frame[2] == 0 && frame[3] == 0
    ensures r.Failure? ==> r.error == SunlightDomain(index)
    ensures r.Success? ==> r.value.index == index
    ensures r.Success? ==> r.value.raw == RawValues(
      airTemperature := U16(frame[0], frame[1]),
      soilTemperature := U16(frame[6], frame[7]),
      soilMoisture := U16(frame[8], frame[9]),
      sunlight := U16(frame[2], frame[3]))
    ensures r.Success? ==> r.value.timestamp == RecordTimestamp(s, index)
  {
    var raw := RawFields(frame);
    if raw.sunlight == 0 then
      Failure(SunlightDomain(index))
    else
      Success(Record(index, RecordTimestamp(s, index), raw))
  }

  /** The record loop from entry i on: short frames are skipped, and the first
      failing frame stops the loop with the records decoded before it. */
  function DecodeRecords(s: Session, i: nat): (r: (seq<Record>, Option<Failure>))
    decreases s.numberEntries - i
  {
    if i >= s.numberEntries then ([], None)
    else
      var frame := Frame(s.data, i);
      if |frame| != FrameSize then DecodeRecords(s, i + 1)
      else match DecodeRecord(s, frame, s.firstEntryIndex + i)
        case Failure(f) => ([], Some(f))
        case Success(record) =>
          var rest := DecodeRecords(s, i + 1);
          ([record] + rest.0, rest.1)
  }

  /** `store` without the file write: assemble, convert the header, convert the
      records. Each stage updates the session before the next can fail; only
      the data, the header's last entry time and the records are written, so
      the indices, period and session id read earlier are never overwritten. */
  function Store(s: Session): (r: (Session, Option<Failure>))
    ensures r.0 == s.(data := r.0.data, lastEntryTime := r.0.lastEntryTime, records := r.0.records)
  {
    var (data, missing) := Assemble(s);
    var assembled := s.(data := data);
    if missing.Some? then (assembled, Some(MissingFragment(missing.value)))
    else match ConvertHeader(data)
      case Failure(f) => (assembled, Some(f))
      case Success(lastEntryTime) =>
        var headed := assembled.(lastEntryTime := lastEntryTime);
        var (records, failure) := DecodeRecords(headed, 0);
        (headed.(records := headed.records + records), failure)
  }
}
