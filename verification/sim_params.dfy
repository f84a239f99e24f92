/**
  The `SimParams` record: seven `f32` rule parameters followed by a `u32`
  offset tag, laid out `#[repr(C)]` as eight consecutive four-byte words.
 */
module SimParamsLayout {
  import opened Words

  datatype SimParams = SimParams(
    deltaT: F32,
    rule1Distance: F32,
    rule2Distance: F32,
    rule3Distance: F32,
    rule1Scale: F32,
    rule2Scale: F32,
    rule3Scale: F32,
    offset: u32)

  /** Number of fields, all four bytes wide, so no padding is inserted. */
  const FieldCount: nat := 8

  /** `mem::size_of::<SimParams>()`. */
  const Size: nat := FieldCount * WordSize

  /** The default record: the f32 constants are given by their bit patterns. */
  const Defaults: SimParams := SimParams(
    deltaT := F32(0x3D23_D70A),          // 0.04
    rule1Distance := F32(0x3DCC_CCCD),   // 0.1
    rule2Distance := F32(0x3CCC_CCCD),   // 0.025
    rule3Distance := F32(0x3CCC_CCCD),   // 0.025
    rule1Scale := F32(0x3CA3_D70A),      // 0.02
    rule2Scale := F32(0x3D4C_CCCD),      // 0.05
    rule3Scale := F32(0x3BA3_D70A),      // 0.005
    offset := 0)

  /** The record's words in declaration order. */
  function Fields(p: SimParams): (r: seq<u32>)
    ensures |r| == FieldCount
    ensures r[FieldCount - 1] == p.offset
  {
    [p.deltaT.bits, p.rule1Distance.bits, p.rule2Distance.bits, p.rule3Distance.bits,
     p.rule1Scale.bits, p.rule2Scale.bits, p.rule3Scale.bits, p.offset]
  }

  /** `bytemuck::bytes_of`: the record's bytes as the GPU sees them. */
  function Encode(p: SimParams): (r: seq<byte>)
    ensures |r| == Size
  {
    EncodeWords(Fields(p))
  }

  /** How the shader reads a record from the first `Size` bytes of its binding. */
  function Decode(b: seq<byte>): (r: SimParams)
    requires |b| == Size
  {
    var w := DecodeWords(b);
    SimParams(F32(w[0]), F32(w[1]), F32(w[2]), F32(w[3]), F32(w[4]), F32(w[5]), F32(w[6]), w[7])
  }

  /** The shader reads back exactly the record the host wrote. */
  lemma RoundTrip(p: SimParams)
    ensures Decode(Encode(p)) == p
  {
    WordsRoundTrip(Fields(p));
  }

  /** Distinct records have distinct byte images. */
  lemma EncodeInjective(p: SimParams, q: SimParams)
    requires Encode(p) == Encode(q)
    ensures p == q
  {
    RoundTrip(p);
    RoundTrip(q);
  }

  /** The offset tag is the last word of the record's bytes. */
  lemma OffsetBytes(p: SimParams)
    ensures Encode(p)[Size - WordSize .. Size] == EncodeWord(p.offset)
  {
    assert Size - WordSize == WordSize * (FieldCount - 1);
  }
}
