/** Fixed-width and variable-length integers and their decoders (util/coding.cc), and CRC masking. */
module Coding {
  import opened Keys

  const WORD: nat := 0x1_0000_0000

  type Word = n: nat | n < WORD

  // Little-endian words.
  function EncodeFixed32(w: Word): (b: Bytes)
    ensures |b| == 4
  {
    var w1, w2, w3 := w / 256, w / 256 / 256, w / 256 / 256 / 256;
    [w % 256, w1 % 256, w2 % 256, w3]
  }

  function DecodeFixed32(b: Bytes): (w: Word)
    requires |b| >= 4
  {
    var b0: nat, b1: nat, b2: nat, b3: nat := b[0], b[1], b[2], b[3];
    b0 + 256 * (b1 + 256 * (b2 + 256 * b3))
  }

  lemma FixedRoundTrip(w: Word, rest: Bytes)
    ensures DecodeFixed32(EncodeFixed32(w) + rest) == w
  {
  }

  // ---- Arrays of little-endian words, cut to 32 bits.

  function Low(n: nat): (w: Word)
    ensures n < WORD ==> w == n
  {
    n % WORD
  }

  function Words(ws: seq<nat>): (b: Bytes)
    ensures |b| == 4 * |ws|
  {
    seq(4 * |ws|, i requires 0 <= i < 4 * |ws| => EncodeFixed32(Low(ws[i / 4]))[i % 4])
  }

  lemma WordsAppend(ws: seq<nat>, w: nat)
    ensures Words(ws + [w]) == Words(ws) + EncodeFixed32(Low(w))
  {
    hide EncodeFixed32, Low;
    var more, n := Words(ws + [w]), 4 * |ws|;
    forall i | 0 <= i < n + 4 ensures more[i] == (Words(ws) + EncodeFixed32(Low(w)))[i] {
      assert i >= n ==> i / 4 == |ws| && i % 4 == i - n;
    }
  }

  lemma WordsByte(ws: seq<nat>, j: nat, k: nat)
    requires j < |ws| && k < 4
    ensures Words(ws)[4 * j + k] == EncodeFixed32(Low(ws[j]))[k]
  {
    hide EncodeFixed32, Low;
    assert (4 * j + k) / 4 == j && (4 * j + k) % 4 == k;
  }

  lemma DecodeAt(b: Bytes, p: nat, w: Word)
    requires p + 4 <= |b| && forall k :: 0 <= k < 4 ==> b[p + k] == EncodeFixed32(w)[k]
    ensures DecodeFixed32(b[p..]) == w
  {
    hide EncodeFixed32, DecodeFixed32;
    FixedRoundTrip(w, b[p + 4..]);
    assert b[p..] == EncodeFixed32(w) + b[p + 4..];
  }

  /** A word of an array that stands between other bytes. */
  lemma WordWithin(before: Bytes, ws: seq<nat>, j: nat, after: Bytes, contents: Bytes)
    requires contents == before + Words(ws) + after && j < |ws|
    ensures DecodeFixed32(contents[|before| + 4 * j..]) == Low(ws[j])
  {
    hide EncodeFixed32, DecodeFixed32, Words, Low;
    var p := |before| + 4 * j;
    forall k | 0 <= k < 4 ensures contents[p + k] == EncodeFixed32(Low(ws[j]))[k] {
      WordsByte(ws, j, k);
      assert contents[p + k] == Words(ws)[4 * j + k];
    }
    DecodeAt(contents, p, Low(ws[j]));
  }

  /** EncodeVarint32 and EncodeVarint64: seven bits a byte, low bits first, high bit set on all but the last. */
  function EncodeVarint(v: nat): (b: Bytes)
    ensures |b| > 0
  {
    if v < 128 then [v] else [v % 128 + 128] + EncodeVarint(v / 128)
  }

  datatype Decoded = Bad | Good(value: nat, size: nat)

  /** Reading up to n bytes of seven bits; the last has its high bit clear. */
  function Sevens(b: Bytes, n: nat): (r: Decoded)
    ensures r.Good? ==> 0 < r.size <= |b|
  {
    if n == 0 || |b| == 0 then Bad
    else if b[0] < 128 then Good(b[0], 1)
    else
      match Sevens(b[1..], n - 1)
      case Bad => Bad
      case Good(v, size) => var low: nat := b[0] - 128; Good(low + 128 * v, size + 1)
  }

  /** GetVarint32Ptr: at most five bytes; bits above the word are lost. */
  function DecodeVarint32(b: Bytes): (r: Decoded)
    ensures r.Good? ==> 0 < r.size <= |b| && r.value < WORD
  {
    match Sevens(b, 5)
    case Bad => Bad
    case Good(v, size) => Good(v % WORD, size)
  }

  /** Whatever follows, a word's encoding decodes to it and consumes exactly its bytes. */
  lemma VarintRoundTrip(v: Word, rest: Bytes)
    ensures |EncodeVarint(v)| <= 5
    ensures DecodeVarint32(EncodeVarint(v) + rest) == Good(v, |EncodeVarint(v)|)
  {
    SevensRoundTrip(v, 5, rest);
  }

  function Limit(n: nat): nat {
    if n == 0 then 1 else 128 * Limit(n - 1)
  }

  lemma {:induction false} SevensRoundTrip(v: nat, n: nat, rest: Bytes)
    requires v < Limit(n)
    ensures n > 0 ==> |EncodeVarint(v)| <= n && Sevens(EncodeVarint(v) + rest, n) == Good(v, |EncodeVarint(v)|)
  {
    if n > 0 {
      var b := EncodeVarint(v) + rest;
      if v >= 128 {
        SevensRoundTrip(v / 128, n - 1, rest);
        assert b[1..] == EncodeVarint(v / 128) + rest;
      }
    }
  }

  /** A varint of up to n bytes ends at the first byte below 128, and decodes exactly if there is one. */
  lemma {:induction false} SevensEnd(b: Bytes, n: nat)
    ensures Sevens(b, n).Good? <==> exists i :: 0 <= i < n && i < |b| && b[i] < 128
    ensures var r := Sevens(b, n);
      r.Good? ==> r.size <= n && b[r.size - 1] < 128 && forall i :: 0 <= i < r.size - 1 ==> b[i] >= 128
  {
    if n > 0 && |b| > 0 && b[0] >= 128 {
      SevensEnd(b[1..], n - 1);
      if i :| 0 <= i < n && i < |b| && b[i] < 128 { assert b[1..][i - 1] == b[i]; }
      if i :| 0 <= i < n - 1 && i < |b[1..]| && b[1..][i] < 128 { assert b[i + 1] < 128; }
    }
  }

  /** GetVarint32 refuses what does not end within five bytes, and only that. */
  lemma VarintEnds(b: Bytes)
    ensures DecodeVarint32(b).Good? <==> exists i :: 0 <= i < 5 && i < |b| && b[i] < 128
  {
    SevensEnd(b, 5);
  }

  // ---- CRC-32C, as a fold of one-byte steps over an arbitrary step function.

  function Flip(w: Word): Word {
    WORD - 1 - w
  }

  function Fold(step: (Word, Byte) -> Word, l: Word, data: Bytes): Word
    decreases |data|
  {
    if |data| == 0 then l else Fold(step, step(l, data[0]), data[1..])
  }

  // crc32c::Extend and crc32c::Value.
  function Extend(step: (Word, Byte) -> Word, crc: Word, data: Bytes): Word {
    Flip(Fold(step, Flip(crc), data))
  }

  function Value(step: (Word, Byte) -> Word, data: Bytes): Word {
    Extend(step, 0, data)
  }

  lemma {:induction false} FoldConcat(step: (Word, Byte) -> Word, l: Word, a: Bytes, b: Bytes)
    ensures Fold(step, l, a + b) == Fold(step, Fold(step, l, a), b)
    decreases |a|
  {
    if |a| == 0 {
      assert a + b == b;
    } else {
      FoldConcat(step, step(l, a[0]), a[1..], b);
      assert (a + b)[1..] == a[1..] + b;
    }
  }

  /** Extending the CRC of A by B gives the CRC of their concatenation. */
  lemma ExtendConcat(step: (Word, Byte) -> Word, a: Bytes, b: Bytes)
    ensures Extend(step, Value(step, a), b) == Value(step, a + b)
  {
    FoldConcat(step, Flip(0), a, b);
  }

  const MASK_DELTA: Word := 0xa282_ead8

  // Rotate right by 15 bits and add a constant.
  function Mask(crc: Word): Word {
    (crc / 0x8000 + crc % 0x8000 * 0x2_0000 + MASK_DELTA) % WORD
  }

  function Unmask(masked: Word): Word {
    var rot := (masked + WORD - MASK_DELTA) % WORD;
    rot / 0x2_0000 + rot % 0x2_0000 * 0x8000
  }

  lemma MaskRoundTrip(crc: Word)
    ensures Unmask(Mask(crc)) == crc
  {
    var high, low := crc / 0x8000, crc % 0x8000;
    var rot := high + low * 0x2_0000;
    assert crc == high * 0x8000 + low && high < 0x2_0000;
    assert rot < WORD && (Mask(crc) + WORD - MASK_DELTA) % WORD == rot;
    assert rot / 0x2_0000 == low && rot % 0x2_0000 == high;
  }
}
