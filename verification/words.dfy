/**
  Bytes, 32-bit words and opaque single-precision floats, as the host side of
  the boids example lays them out in GPU buffers. Words are stored
  little-endian, which is the byte order of `bytemuck::bytes_of` on the
  targets the example runs on and of host-shareable WGSL data.
 */
module Words {

  type byte = x: int | 0 <= x < 0x100
  type u32 = x: int | 0 <= x < 0x1_0000_0000

  /** A 32-bit float kept opaque: only its IEEE-754 bit pattern is modelled. */
  datatype F32 = F32(bits: u32)

  /** Number of bytes one `f32` or `u32` occupies. */
  const WordSize: nat := 4

  function EncodeWord(w: u32): (r: seq<byte>)
    ensures |r| == WordSize
  {
    [w % 0x100, (w / 0x100) % 0x100, (w / 0x1_0000) % 0x100, w / 0x100_0000]
  }

  function DecodeWord(b: seq<byte>): (r: u32)
    requires |b| == WordSize
  {
    (b[0] as int) + 0x100 * (b[1] as int) + 0x1_0000 * (b[2] as int) + 0x100_0000 * (b[3] as int)
  }

  /** Decoding the four bytes of a word gives the word back. */
  lemma WordRoundTrip(w: u32)
    ensures DecodeWord(EncodeWord(w)) == w
  {
    var q0 := w / 0x100;
    var q1 := q0 / 0x100;
    var q2 := q1 / 0x100;
    assert w == w % 0x100 + 0x100 * q0;
    assert q0 == q0 % 0x100 + 0x100 * q1;
    assert q1 == q1 % 0x100 + 0x100 * q2;
    assert q1 == w / 0x1_0000;
    assert q2 == w / 0x100_0000;
  }

  /** Two words with the same bytes are the same word. */
  lemma EncodeWordInjective(v: u32, w: u32)
    requires EncodeWord(v) == EncodeWord(w)
    ensures v == w
  {
    WordRoundTrip(v);
    WordRoundTrip(w);
  }

  /** Encodes a sequence of words back to back, four bytes each. */
  function EncodeWords(ws: seq<u32>): (r: seq<byte>)
    ensures |r| == WordSize * |ws|
    ensures forall k :: 0 <= k < |ws| ==> r[WordSize * k .. WordSize * k + WordSize] == EncodeWord(ws[k])
  {
    if ws == [] then []
    else
      var rest := EncodeWords(ws[1..]);
      var r := EncodeWord(ws[0]) + rest;
      assert forall k :: 1 <= k < |ws| ==>
        r[WordSize * k .. WordSize * k + WordSize] == rest[WordSize * (k - 1) .. WordSize * (k - 1) + WordSize];
      r
  }

  function DecodeWords(b: seq<byte>): (r: seq<u32>)
    requires |b| % WordSize == 0
    ensures WordSize * |r| == |b|
  {
    if b == [] then [] else [DecodeWord(b[..WordSize])] + DecodeWords(b[WordSize..])
  }

  /** Decoding the bytes of a word sequence gives the words back. */
  lemma {:induction false} WordsRoundTrip(ws: seq<u32>)
    ensures DecodeWords(EncodeWords(ws)) == ws
  {
    if ws != [] {
      var b := EncodeWords(ws);
      assert b[..WordSize] == EncodeWord(ws[0]);
      assert b[WordSize..] == EncodeWords(ws[1..]);
      WordRoundTrip(ws[0]);
      WordsRoundTrip(ws[1..]);
    }
  }

  /**
    The effect of a buffer write (`Queue::write_buffer`): `data` replaces the
    bytes starting at `at`, every other byte is kept.
   */
  function WriteBytes(buf: seq<byte>, at: nat, data: seq<byte>): (r: seq<byte>)
    requires at + |data| <= |buf|
    ensures |r| == |buf|
    ensures r[at .. at + |data|] == data
    ensures forall k :: 0 <= k < |buf| && !(at <= k < at + |data|) ==> r[k] == buf[k]
  {
    buf[..at] + data + buf[at + |data|..]
  }

  /** A buffer of `n` zero bytes, as a freshly created GPU buffer reads. */
  function Zeroes(n: nat): (r: seq<byte>)
    ensures |r| == n
    ensures forall k :: 0 <= k < n ==> r[k] == 0
  {
    seq(n, _ => 0)
  }
}
