/**
 * Byte-level helpers of the history download: little- and big-endian decoding,
 * Python's clamping slice semantics, and the fragment header accessors
 * (sequence number, declared total length, payload).
 */
module Bytes {
  import opened Wrappers

  type byte = b: int | 0 <= b < 256

  function Min(a: int, b: int): int { if a <= b then a else b }

  function Max(a: int, b: int): int { if a <= b then b else a }

  /** 256 to the power n: the number of values n bytes can hold. */
  function Pow256(n: nat): (r: nat)
    ensures r > 0
  {
    if n == 0 then 1 else 256 * Pow256(n - 1)
  }

  /** Python's `s[i:j]` for non-negative bounds: both ends are clamped to the
      length of `s`, and an empty range gives the empty sequence. */
  function Slice<T>(s: seq<T>, i: nat, j: nat): (r: seq<T>)
    ensures |r| == Max(0, Min(j, |s|) - i)
    ensures forall k :: 0 <= k < |r| ==> r[k] == s[i + k]
  {
    if i < j && i < |s| then s[i..Min(j, |s|)] else []
  }

  /** Python's `s[:n]` for any integer n: a negative n counts from the end. */
  function PyPrefix<T>(s: seq<T>, n: int): (r: seq<T>)
    ensures |r| == (if n >= 0 then Min(n, |s|) else Max(0, |s| + n))
    ensures r == s[..|r|]
  {
    if n >= 0 then s[..Min(n, |s|)] else s[..Max(0, |s| + n)]
  }

  /** `int.from_bytes(s, byteorder='little')`, unsigned. */
  function LittleEndian(s: seq<byte>): (r: nat)
    ensures r < Pow256(|s|)
  {
    if |s| == 0 then 0 else s[0] + 256 * LittleEndian(s[1..])
  }

  /** An unsigned big-endian field, as `struct.unpack('>H')` / `'>I'` reads it. */
  function BigEndian(s: seq<byte>): (r: nat)
    ensures r < Pow256(|s|)
  {
    if |s| == 0 then 0 else 256 * BigEndian(s[..|s| - 1]) + s[|s| - 1]
  }

  /** A big-endian u16 from its high and low byte. */
  function U16(high: byte, low: byte): (r: nat)
    ensures r < 65536
    ensures r == BigEndian([high, low])
  {
    assert [high, low][..1] == [high];
    256 * high + low
  }

  lemma BigEndian2(s: seq<byte>)
    requires |s| == 2
    ensures BigEndian(s) == 256 * (s[0] as int) + s[1]
  {
    assert s[..1][..0] == [];
  }

  lemma BigEndian4(s: seq<byte>)
    requires |s| == 4
    ensures BigEndian(s) == 16777216 * (s[0] as int) + 65536 * (s[1] as int) + 256 * (s[2] as int) + s[3]
  {
    assert s[..3][..2] == s[..2];
    BigEndian2(s[..2]);
  }

  lemma LittleEndian2(s: seq<byte>)
    requires |s| == 2
    ensures LittleEndian(s) == s[0] as int + 256 * (s[1] as int)
  {
    assert s[1..][1..] == [];
  }

  lemma LittleEndian4(s: seq<byte>)
    requires |s| == 4
    ensures LittleEndian(s) == s[0] as int + 256 * (s[1] as int) + 65536 * (s[2] as int) + 16777216 * (s[3] as int)
  {
    assert s[1..][1..] == s[2..];
    LittleEndian2(s[2..]);
  }

  /** The fragment sequence number: the little-endian u16 in bytes 0-1
      (fewer bytes when the fragment is shorter, as Python slicing allows). */
  function BufferIndex(fragment: seq<byte>): (r: nat)
    ensures r < 65536
    ensures |fragment| >= 2 ==> r == fragment[0] as int + 256 * (fragment[1] as int)
    ensures |fragment| == 1 ==> r == fragment[0]
    ensures |fragment| == 0 ==> r == 0
  {
    var field := Slice(fragment, 0, 2);
    if |fragment| >= 2 then
      assert field == fragment[..2];
      LittleEndian2(field);
      LittleEndian(field)
    else if |fragment| == 1 then
      assert field == [fragment[0]];
      LittleEndian(field)
    else
      LittleEndian(field)
  }

  /** The declared total length carried by the first fragment: the little-endian
      u32 in bytes 2-5. */
  function FragmentLength(fragment: seq<byte>): (r: nat)
    ensures r < 0x1_0000_0000
    ensures |fragment| >= 6 ==>
      r == fragment[2] as int + 256 * (fragment[3] as int) + 65536 * (fragment[4] as int)
           + 16777216 * (fragment[5] as int)
    ensures |fragment| <= 2 ==> r == 0
  {
    var field := Slice(fragment, 2, 6);
    if |fragment| >= 6 then
      assert field == fragment[2..6];
      LittleEndian4(field);
      LittleEndian(field)
    else
      LittleEndian(field)
  }

  /** Everything after the two sequence-number bytes. */
  function Payload(fragment: seq<byte>): (r: seq<byte>)
    ensures |r| == Max(0, |fragment| - 2)
    ensures forall k :: 0 <= k < |r| ==> r[k] == fragment[k + 2]
  {
    Slice(fragment, 2, |fragment|)
  }

  /** The payload of a first fragment still begins with the four length bytes. */
  lemma FirstPayloadCarriesLength(fragment: seq<byte>)
    requires |fragment| >= 6
    ensures LittleEndian(Payload(fragment)[..4]) == FragmentLength(fragment)
  {
    LittleEndian4(Payload(fragment)[..4]);
  }

  /** `value.to_bytes(4, 'little')`, which raises OverflowError outside [0, 2^32). */
  function EncodeU32Le(value: int): (r: Option<seq<byte>>)
    ensures r.Some? <==> 0 <= value < 0x1_0000_0000
    ensures r.Some? ==> |r.value| == 4 && LittleEndian(r.value) == value
  {
    if 0 <= value < 0x1_0000_0000 then
      var q1 := value / 256;
      var q2 := q1 / 256;
      var q3 := q2 / 256;
      var wire: seq<byte> := [value % 256, q1 % 256, q2 % 256, q3];
      LittleEndian4(wire);
      Some(wire)
    else
      None
  }

  /** Decoding four little-endian bytes and encoding them again gives the same bytes. */
  lemma EncodeDecodeU32Le(wire: seq<byte>)
    requires |wire| == 4
    ensures EncodeU32Le(LittleEndian(wire)) == Some(wire)
  {
    LittleEndian4(wire);
    var v := LittleEndian(wire);
    var q1 := v / 256;
    var q2 := q1 / 256;
    assert v == wire[0] + 256 * (wire[1] + 256 * (wire[2] + 256 * (wire[3] as int)));
    assert v % 256 == wire[0] && q1 == wire[1] + 256 * (wire[2] + 256 * (wire[3] as int));
    assert q1 % 256 == wire[1] && q2 == wire[2] + 256 * (wire[3] as int);
    assert q2 % 256 == wire[2] && q2 / 256 == wire[3];
    var e := EncodeU32Le(v).value;
    assert e == [v % 256, q1 % 256, q2 % 256, q2 / 256];
    assert e == wire;
  }
}
