/**
 * What reassembly and decoding of a history file guarantee: a closed form
 * for the reassembled stream, the failure on a missing fragment, the exact
 * set of decoded records, and the timestamp arithmetic.
 */
module HistoryLemmas {
  import opened Wrappers
  import opened Bytes
  import opened History

  // ---------------------------------------------------------------- reassembly

  /** Every sequence number in [lo, hi) has a fragment. */
  ghost predicate HasFragments(buffers: map<nat, seq<byte>>, lo: nat, hi: nat)
  {
    forall i :: lo <= i < hi ==> i in buffers
  }

  /** The chunks of fragments lo .. hi-1, concatenated in sequence-number order. */
  function Chunks(buffers: map<nat, seq<byte>>, lo: nat, hi: nat): seq<byte>
    requires HasFragments(buffers, lo, hi)
    decreases hi - lo
  {
    if lo >= hi then [] else Chunk(buffers[lo]) + Chunks(buffers, lo + 1, hi)
  }

  lemma PrefixOfConcat(a: seq<byte>, b: seq<byte>, m: nat)
    ensures PyPrefix(a + b, m) == PyPrefix(a, m) + PyPrefix(b, m - |PyPrefix(a, m)|)
  {
  }

  /** Appending a cut of c and then a cut of rest to the remaining room is
      the same as appending one cut of c + rest. */
  lemma AppendTwice(data: seq<byte>, c: seq<byte>, rest: seq<byte>, length: nat)
    requires |data| <= length
    ensures var next := data + PyPrefix(c, length - |data|);
      next + PyPrefix(rest, length - |next|) == data + PyPrefix(c + rest, length - |data|)
  {
    var m := length - |data|;
    PrefixOfConcat(c, rest, m);
    assert data + PyPrefix(c, m) + PyPrefix(rest, m - |PyPrefix(c, m)|)
        == data + (PyPrefix(c, m) + PyPrefix(rest, m - |PyPrefix(c, m)|));
  }

  /** With every fragment present and the data not already past the declared
      length, reassembly appends the concatenated chunks cut at that length. */
  lemma {:induction false} AssembleClosedForm(buffers: map<nat, seq<byte>>, length: nat, data: seq<byte>, i: nat, count: nat)
    requires |data| <= length
    requires HasFragments(buffers, i, count)
    ensures AssembleFrom(buffers, length, data, i, count)
         == (data + PyPrefix(Chunks(buffers, i, count), length - |data|), None)
    decreases count - i
  {
    if i < count {
      var next := AppendChunk(data, buffers[i], length);
      AssembleClosedForm(buffers, length, next, i + 1, count);
      AppendTwice(data, Chunk(buffers[i]), Chunks(buffers, i + 1, count), length);
    } else {
      assert data + [] == data;
    }
  }

  /** Reassembly fails exactly when a sequence number in [i, count) is missing,
      and it names the first one. */
  lemma {:induction false} AssembleMissing(buffers: map<nat, seq<byte>>, length: nat, data: seq<byte>, i: nat, count: nat)
    ensures var r := AssembleFrom(buffers, length, data, i, count);
      && (r.1.None? <==> HasFragments(buffers, i, count))
      && (r.1.Some? ==> i <= r.1.value < count && r.1.value !in buffers
                        && HasFragments(buffers, i, r.1.value))
    decreases count - i
  {
    if i < count && i in buffers {
      AssembleMissing(buffers, length, AppendChunk(data, buffers[i], length), i + 1, count);
    }
  }

  /** The reassembled data never grows beyond the declared length. */
  lemma {:induction false} AssembleBounded(buffers: map<nat, seq<byte>>, length: nat, data: seq<byte>, i: nat, count: nat)
    requires |data| <= length
    ensures |AssembleFrom(buffers, length, data, i, count).0| <= length
    decreases count - i
  {
    if i < count && i in buffers {
      AssembleBounded(buffers, length, AppendChunk(data, buffers[i], length), i + 1, count);
    }
  }

  /** Only fragments i .. count-1 are read: in particular the count-th
      fragment, and any fragment stored under sequence number 0, never are. */
  lemma {:induction false} AssembleReadsOnlyRange(b1: map<nat, seq<byte>>, b2: map<nat, seq<byte>>, length: nat, data: seq<byte>, i: nat, count: nat)
    requires forall k :: i <= k < count ==> (k in b1 <==> k in b2)
    requires forall k :: i <= k < count && k in b1 ==> b1[k] == b2[k]
    ensures AssembleFrom(b1, length, data, i, count) == AssembleFrom(b2, length, data, i, count)
    decreases count - i
  {
    if i < count && i in b1 {
      AssembleReadsOnlyRange(b1, b2, length, AppendChunk(data, b1[i], length), i + 1, count);
    }
  }

  /** The reassembly loop of HistoryFile._assemble, statement for statement. */
  method Reassemble(s: Session) returns (data: seq<byte>, missing: Option<nat>)
    ensures (data, missing) == Assemble(s)
    ensures missing.None? <==> HasFragments(s.buffers, 1, s.count)
    ensures missing.Some? ==> 1 <= missing.value < s.count && missing.value !in s.buffers
    ensures |s.data| <= s.length ==> |data| <= s.length
    ensures missing.None? && |s.data| <= s.length ==>
      data == s.data + PyPrefix(Chunks(s.buffers, 1, s.count), s.length - |s.data|)
  {
    AssembleMissing(s.buffers, s.length, s.data, 1, s.count);
    if |s.data| <= s.length {
      AssembleBounded(s.buffers, s.length, s.data, 1, s.count);
      if HasFragments(s.buffers, 1, s.count) {
        AssembleClosedForm(s.buffers, s.length, s.data, 1, s.count);
      }
    }
    data := s.data;
    var i: nat := 1;
    while i < s.count
      invariant AssembleFrom(s.buffers, s.length, data, i, s.count) == Assemble(s)
      decreases s.count - i
    {
      if i !in s.buffers {
        return data, Some(i);
      }
      var payload := Payload(s.buffers[i]);
      var n: int := ChunkSize;
      if |data| + n > s.length {
        n := s.length - |data|;
      }
      data := data + PyPrefix(payload, n);
      i := i + 1;
    }
    missing := None;
  }

  // ------------------------------------------------------------------ records

  /** The number of full 12-byte frames after the header of a stream of n bytes. */
  function FrameCount(n: nat): (r: nat)
    ensures r == Max(0, (n - 16) / 12)
  {
    if n < 16 then 0 else (n - 16) / 12
  }

  /** The number of records a successful decode produces. */
  function RecordCount(s: Session): nat
  {
    if s.numberEntries <= FrameCount(|s.data|) then s.numberEntries else FrameCount(|s.data|)
  }

  lemma FullFrameIff(data: seq<byte>, j: nat)
    ensures |Frame(data, j)| == FrameSize <==> j < FrameCount(|data|)
  {
  }

  /** A full frame whose light code is zero: decoding it fails. */
  predicate DarkFrame(data: seq<byte>, j: nat)
  {
    var frame := Frame(data, j);
    |frame| == FrameSize && frame[2] == 0 && frame[3] == 0
  }

  /** Once a frame is short, every later frame is too, so nothing more is decoded. */
  lemma {:induction false} DecodeRecordsAfterShort(s: Session, i: nat)
    requires |Frame(s.data, i)| != FrameSize
    ensures DecodeRecords(s, i) == ([], None)
    decreases s.numberEntries - i
  {
    if i < s.numberEntries {
      assert |Frame(s.data, i + 1)| != FrameSize;
      DecodeRecordsAfterShort(s, i + 1);
    }
  }

  /** Past the last full frame (or past number_entries) nothing more is decoded. */
  lemma {:induction false} DecodeRecordsTail(s: Session, i: nat)
    requires i >= RecordCount(s)
    ensures DecodeRecords(s, i) == ([], None)
    decreases s.numberEntries - i
  {
    if i < s.numberEntries {
      FullFrameIff(s.data, i);
      DecodeRecordsTail(s, i + 1);
    }
  }

  /** The first entry j >= i whose full frame has a zero light code, or the
      record count when there is none. */
  function FirstDark(s: Session, i: nat): (j: nat)
    ensures i <= j && (i <= RecordCount(s) ==> j <= RecordCount(s))
    ensures forall j' :: i <= j' < j ==> !DarkFrame(s.data, j')
    ensures j < RecordCount(s) ==> DarkFrame(s.data, j)
    decreases RecordCount(s) - i
  {
    if i >= RecordCount(s) || DarkFrame(s.data, i) then i else FirstDark(s, i + 1)
  }

  /** The record loop from entry i yields one record per full frame up to the
      first frame with a zero light code, and fails there if there is one. */
  lemma {:induction false} DecodeRecordsOutcome(s: Session, i: nat)
    ensures var r := DecodeRecords(s, i);
      && (r.1.None? <==> FirstDark(s, i) >= RecordCount(s))
      && |r.0| == FirstDark(s, i) - i
      && (r.1.Some? ==> r.1.value == SunlightDomain(s.firstEntryIndex + FirstDark(s, i)))
    decreases s.numberEntries - i
  {
    if i >= RecordCount(s) {
      DecodeRecordsTail(s, i);
    } else {
      FullFrameIff(s.data, i);
      if !DarkFrame(s.data, i) {
        DecodeRecordsOutcome(s, i + 1);
      }
    }
  }

  /** A full frame that decodes puts its record in front of the rest. */
  lemma DecodeRecordsCons(s: Session, i: nat)
    requires i < s.numberEntries
    requires |Frame(s.data, i)| == FrameSize
    requires DecodeRecord(s, Frame(s.data, i), s.firstEntryIndex + i).Success?
    ensures DecodeRecords(s, i).0
         == [DecodeRecord(s, Frame(s.data, i), s.firstEntryIndex + i).value] + DecodeRecords(s, i + 1).0
  {
    FullFrameIff(s.data, i);
  }

  /** The k-th record decoded from entry i on is the decode of frame i + k, so
      its index is first_entry_index + i + k. */
  lemma {:induction false} DecodedRecordAt(s: Session, i: nat, k: nat)
    requires k < |DecodeRecords(s, i).0|
    ensures |Frame(s.data, i + k)| == FrameSize
    ensures DecodeRecord(s, Frame(s.data, i + k), s.firstEntryIndex + i + k)
         == Success(DecodeRecords(s, i).0[k])
    decreases s.numberEntries - i
  {
    if |Frame(s.data, i)| != FrameSize {
      DecodeRecordsAfterShort(s, i);
      assert false;
    }
    assert i < s.numberEntries;
    DecodeRecordsCons(s, i);
    if k > 0 {
      DecodedRecordAt(s, i + 1, k - 1);
      assert i + 1 + (k - 1) == i + k;
    }
  }

  // --------------------------------------------------------------- timestamps

  /** Consecutive records are exactly one measurement period apart. */
  lemma TimestampSpacing(s: Session, index: int)
    ensures RecordTimestamp(s, index + 1) == RecordTimestamp(s, index) + s.measurementPeriod
  {
  }

  /** The last entry is stamped with the startup time plus the header time. */
  lemma LastEntryTimestamp(s: Session)
    ensures RecordTimestamp(s, s.lastEntryIndex) == StartupTime(s) + s.lastEntryTime
  {
  }

  // -------------------------------------------------------------- whole store

  /** Storing a fresh history file whose fragments are all present reassembles
      the chunks cut at the declared length, and fails on a stream shorter
      than the header without decoding any record. The header contributes
      only its last entry time: every other field of the session is kept. */
  lemma StoreReassembles(s: Session)
    requires s.data == [] && s.records == []
    requires HasFragments(s.buffers, 1, s.count)
    ensures var (t, failure) := Store(s);
      && t.data == PyPrefix(Chunks(s.buffers, 1, s.count), s.length)
      && |t.data| <= s.length
      && (|t.data| < HeaderSize ==>
            failure == Some(ShortHeader(|t.data|)) && t.records == [] && t.lastEntryTime == s.lastEntryTime)
      && (|t.data| >= HeaderSize ==> ConvertHeader(t.data) == Success(t.lastEntryTime))
      && t == s.(data := t.data, lastEntryTime := t.lastEntryTime, records := t.records)
  {
    var chunks := Chunks(s.buffers, 1, s.count);
    AssembleMissing(s.buffers, s.length, s.data, 1, s.count);
    AssembleClosedForm(s.buffers, s.length, s.data, 1, s.count);
    AssembleBounded(s.buffers, s.length, s.data, 1, s.count);
    var (data, missing) := Assemble(s);
    assert [] + PyPrefix(chunks, s.length) == PyPrefix(chunks, s.length);
    assert Store(s).0.data == data;
  }

  /** After a successful header, storing decodes one record per full frame
      below number_entries, and fails exactly when one of those frames has a
      zero light code, naming the first. */
  lemma StoreRecordCount(s: Session)
    requires s.records == []
    requires HasFragments(s.buffers, 1, s.count)
    ensures var (t, failure) := Store(s);
      |t.data| >= HeaderSize ==>
        && (failure.None? <==> forall j :: 0 <= j < RecordCount(t) ==> !DarkFrame(t.data, j))
        && (failure.None? ==> |t.records| == RecordCount(t))
        && (failure.Some? ==> failure.value == SunlightDomain(s.firstEntryIndex + FirstDark(t, 0)))
  {
    AssembleMissing(s.buffers, s.length, s.data, 1, s.count);
    var (data, missing) := Assemble(s);
    var h := ConvertHeader(data);
    if h.Success? {
      var headed := s.(data := data, lastEntryTime := h.value);
      var (records, failure) := DecodeRecords(headed, 0);
      assert headed.records + records == records;
      var t := headed.(records := records);
      assert Store(s) == (t, failure);
      assert RecordCount(t) == RecordCount(headed);
      assert FirstDark(t, 0) == FirstDark(headed, 0);
      DecodeRecordsOutcome(headed, 0);
      if FirstDark(headed, 0) < RecordCount(headed) {
        assert DarkFrame(t.data, FirstDark(headed, 0));
      }
    }
  }

  /** The stored records are numbered first_entry_index, first_entry_index+1,
      ... and stamped with the timestamp of their index. */
  lemma StoreRecordIndices(s: Session)
    requires s.records == []
    requires HasFragments(s.buffers, 1, s.count)
    ensures var (t, failure) := Store(s);
      forall k :: 0 <= k < |t.records| ==>
        && t.records[k].index == s.firstEntryIndex + k
        && t.records[k].timestamp == RecordTimestamp(t, s.firstEntryIndex + k)
  {
    AssembleMissing(s.buffers, s.length, s.data, 1, s.count);
    var (data, missing) := Assemble(s);
    var h := ConvertHeader(data);
    if h.Success? {
      var headed := s.(data := data, lastEntryTime := h.value);
      var (records, failure) := DecodeRecords(headed, 0);
      assert headed.records + records == records;
      var t := headed.(records := records);
      assert Store(s) == (t, failure);
      forall k | 0 <= k < |records|
        ensures records[k].index == s.firstEntryIndex + k
        ensures records[k].timestamp == RecordTimestamp(t, s.firstEntryIndex + k)
      {
        DecodedRecordAt(headed, 0, k);
        assert 0 + k == k;
      }
    }
  }

  /** A header announcing two entries followed by two all-zero frames: the
      header time is 100 and the first frame already fails on its light code. */
  lemma ZeroFramesFailOnSunlight()
    ensures var data := [0, 0, 0, 2, 0, 0, 0, 100, 0, 10, 0, 11, 0, 1, 0, 60]
                        + seq(2 * FrameSize, _ => 0);
      var s := Initial().(data := data, numberEntries := 2, firstEntryIndex := 10,
                          lastEntryIndex := 11, measurementPeriod := 60);
      && ConvertHeader(data) == Success(100)
      && DecodeRecords(s, 0) == ([], Some(SunlightDomain(10)))
  {
    var data: seq<byte> := [0, 0, 0, 2, 0, 0, 0, 100, 0, 10, 0, 11, 0, 1, 0, 60]
                           + seq(2 * FrameSize, _ => 0);
    var s := Initial().(data := data, numberEntries := 2, firstEntryIndex := 10,
                        lastEntryIndex := 11, measurementPeriod := 60);
    assert Frame(data, 0) == data[16..28];
  }
}
