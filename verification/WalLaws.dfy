/** What the log reader accepts, of any file at all: only frames as the writer makes them, byte for byte. */
module WalLaws {
  import opened Keys
  import opened Coding
  import opened Wal

  // ---- The codings undone the other way.

  lemma MaskInverse(w: Word)
    ensures Mask(Unmask(w)) == w
  {
    var rot := (w + WORD - MASK_DELTA) % WORD;
    var low, high := rot / 0x2_0000, rot % 0x2_0000;
    assert low < 0x8000 && rot == low * 0x2_0000 + high;
    var crc := low + high * 0x8000;
    assert crc / 0x8000 == high && crc % 0x8000 == low;
  }

  lemma FixedInverse(b: Bytes)
    requires |b| >= 4
    ensures EncodeFixed32(DecodeFixed32(b)) == b[..4]
  {
    var b0: nat, b1: nat, b2: nat, b3: nat := b[0], b[1], b[2], b[3];
    var w := DecodeFixed32(b);
    assert w / 256 == b1 + 256 * (b2 + 256 * b3) && w / 256 / 256 == b2 + 256 * b3;
  }

  // ---- One physical record.

  /** The checksum field fits exactly when the bytes are the writer's. */
  lemma ChecksumFits(step: Step, block: Bytes, n: nat)
    requires HEADER + n <= |block| && n < BLOCK && block[4] == n % 256 && block[5] == n / 256
    ensures Unmask(DecodeFixed32(block)) == Coding.Value(step, block[6..HEADER + n]) <==>
      block[..HEADER + n] == Frame(step, block[6], block[HEADER..HEADER + n])
  {
    hide Mask, Unmask, EncodeFixed32, DecodeFixed32, Coding.Value, Extend;
    var t, payload := block[6], block[HEADER..HEADER + n];
    var crc := Coding.Value(step, block[6..HEADER + n]);
    assert block[6..HEADER + n] == [t] + payload;
    ExtendConcat(step, [t], payload);
    FixedInverse(block);
    MaskInverse(DecodeFixed32(block));
    var frame := Frame(step, t, payload);
    FrameParts(step, t, payload, frame);
    assert frame[..4] == EncodeFixed32(Mask(crc));
    assert block[..HEADER + n] == block[..4] + [block[4], block[5], t] + payload;
    if block[..HEADER + n] == frame {
      assert block[..4] == frame[..4];
      FixedRoundTrip(Mask(crc), block[4..]);
      assert block == block[..4] + block[4..];
      MaskRoundTrip(crc);
    }
  }

  /**
   Whatever the bytes: a length beyond the block ends the log in the last block and is one corruption before it, zeros
   are passed over, the writer's frame is a fragment, and anything else is one corruption.
   */
  lemma DecodeExact(step: Step, block: Bytes, p: nat, short: bool)
    requires HEADER <= |block| <= BLOCK
    ensures var low: nat, high: nat, t := block[4], block[5], block[6];
      var n := low + 256 * high;
      Decode(step, block, p, short) ==
        if HEADER + n > |block| then if short then Eof else Corrupt(1, p + |block|)
        else if t == 0 && n == 0 then Corrupt(0, p + |block|)
        else if block[..HEADER + n] == Frame(step, t, block[HEADER..HEADER + n])
          then Fragment(t, block[HEADER..HEADER + n], p + HEADER + n)
        else Corrupt(1, p + |block|)
  {
    hide Unmask, DecodeFixed32, Coding.Value, Frame;
    var low: nat, high: nat := block[4], block[5];
    var n := low + 256 * high;
    if HEADER + n <= |block| {
      assert n % 256 == low && n / 256 == high;
      ChecksumFits(step, block, n);
    }
  }

  /** A fragment of a log: its place and what it carries. */
  datatype Piece = Piece(start: nat, payload: Bytes)

  function End(piece: Piece): nat {
    piece.start + HEADER + |piece.payload|
  }

  predicate IsFrame(step: Step, file: Bytes, t: Byte, piece: Piece) {
    && |piece.payload| < BLOCK && End(piece) <= |file|
    && file[piece.start..End(piece)] == Frame(step, t, piece.payload)
  }

  /** A fragment found is a frame in the file, with less than a header's room passed over before it. */
  lemma {:induction false} FragmentIsFrame(step: Step, file: Bytes, p: nat)
    requires p <= |file| && NextPhys(step, file, p).Fragment?
    ensures var f := NextPhys(step, file, p);
      && p + HEADER + |f.payload| <= f.at
      && var piece := Piece(f.at - HEADER - |f.payload|, f.payload);
      && (piece.start == p || (piece.start < p + HEADER && piece.start % BLOCK == 0))
      && IsFrame(step, file, f.t, piece)
    decreases |file| - p
  {
    hide Decode, Frame;
    var avail := BlockEnd(file, p) - p;
    if avail >= HEADER {
      var block := file[p..p + avail];
      DecodeExact(step, block, p, Short(file, p));
      var low: nat, high: nat := block[4], block[5];
      var n := low + 256 * high;
      assert block[..HEADER + n] == file[p..p + HEADER + n];
    } else {
      NextBlock(file, p);
      FragmentIsFrame(step, file, p + avail);
    }
  }

  // Past a block's tail a whole block begins, unless the file ends.
  lemma NextBlock(file: Bytes, p: nat)
    requires p <= |file| && BlockEnd(file, p) - p < HEADER && !Short(file, p)
    ensures var q := BlockEnd(file, p);
      p < q && q % BLOCK == 0 && (BlockEnd(file, q) - q >= HEADER || Short(file, q))
  {
  }

  // ---- One logical record.

  function Joined(pieces: seq<Piece>): Bytes {
    if |pieces| == 0 then [] else Joined(pieces[..|pieces| - 1]) + pieces[|pieces| - 1].payload
  }

  /**
   Frames one after the other, with at most a block's unused tail between them: the first of type FIRST and the others
   MIDDLE, or, when the record is complete, one FULL, or a FIRST, MIDDLEs and a LAST.
   */
  predicate Frames(step: Step, file: Bytes, from: nat, pieces: seq<Piece>, complete: bool) {
    && |pieces| > 0 && from <= pieces[0].start
    && (forall i :: 0 < i < |pieces| ==> End(pieces[i - 1]) <= pieces[i].start < End(pieces[i - 1]) + HEADER)
    && (forall i :: 0 <= i < |pieces| ==>
      IsFrame(step, file, TypeOf(i == 0, complete && i == |pieces| - 1), pieces[i]))
  }

  predicate Begun(step: Step, file: Bytes, from: nat, p: nat, scratch: Bytes, pieces: seq<Piece>) {
    Frames(step, file, from, pieces, false) && Joined(pieces) == scratch && End(pieces[|pieces| - 1]) == p
  }

  predicate Made(step: Step, file: Bytes, from: nat, f: Found, pieces: seq<Piece>)
    requires f.Record?
  {
    Frames(step, file, from, pieces, true) && Joined(pieces) == f.data && End(pieces[|pieces| - 1]) == f.at
  }

  lemma MoreFrames(step: Step, file: Bytes, from: nat, pieces: seq<Piece>, piece: Piece, last: bool)
    requires Frames(step, file, from, pieces, false) && IsFrame(step, file, TypeOf(false, last), piece)
    requires End(pieces[|pieces| - 1]) <= piece.start < End(pieces[|pieces| - 1]) + HEADER
    ensures Frames(step, file, from, pieces + [piece], last)
    ensures Joined(pieces + [piece]) == Joined(pieces) + piece.payload
  {
    hide IsFrame, End;
    assert (pieces + [piece])[..|pieces|] == pieces;
  }

  lemma OneFrame(step: Step, file: Bytes, from: nat, piece: Piece, last: bool)
    requires from <= piece.start && IsFrame(step, file, TypeOf(true, last), piece)
    ensures Frames(step, file, from, [piece], last) && Joined([piece]) == piece.payload
  {
    hide IsFrame;
    assert [piece][..0] == [];
  }

  /** Any record the reader returns, from any file, is what one FULL frame or a FIRST, MIDDLEs and a LAST carry. */
  lemma {:induction false} RecordIsFrames(step: Step, file: Bytes, from: nat, p: nat, inFragment: bool, scratch: Bytes,
                                          open: seq<Piece>) returns (pieces: seq<Piece>)
    requires from <= p <= |file| && ReadFrom(step, file, p, inFragment, scratch).Record?
    requires inFragment ==> Begun(step, file, from, p, scratch, open)
    ensures Made(step, file, from, ReadFrom(step, file, p, inFragment, scratch), pieces)
    decreases |file| - p
  {
    hide NextPhys, Frames, IsFrame, Joined;
    match NextPhys(step, file, p)
    case Corrupt(_, at) => pieces := RecordIsFrames(step, file, from, at, false, [], []);
    case Fragment(t, payload, at) =>
      FragmentIsFrame(step, file, p);
      var piece := Piece(at - HEADER - |payload|, payload);
      if t == FULL {
        OneFrame(step, file, from, piece, true);
        pieces := [piece];
      } else if t == FIRST {
        OneFrame(step, file, from, piece, false);
        pieces := RecordIsFrames(step, file, from, at, true, payload, [piece]);
      } else if t == MIDDLE && inFragment {
        MoreFrames(step, file, from, open, piece, false);
        pieces := RecordIsFrames(step, file, from, at, true, scratch + payload, open + [piece]);
      } else if t == LAST && inFragment {
        MoreFrames(step, file, from, open, piece, true);
        pieces := open + [piece];
      } else if t == MIDDLE || t == LAST {
        pieces := RecordIsFrames(step, file, from, at, false, scratch, []);
      } else {
        pieces := RecordIsFrames(step, file, from, at, false, [], []);
      }
  }

  /** Nothing is lost in silence: not a bad frame, a piece without its beginning, or one without its end. */
  lemma LossReported(step: Step, file: Bytes, p: nat, inFragment: bool, scratch: Bytes)
    requires p <= |file|
    requires match NextPhys(step, file, p)
             case Eof => false
             case Corrupt(reports, _) => reports > 0 || inFragment
             case Fragment(t, _, _) =>
               || ((t == 1 || t == 2) && inFragment && |scratch| > 0) || ((t == 3 || t == 4) && !inFragment)
               || (t == 6 && inFragment) || t == 0 || t > 6
    ensures ReadFrom(step, file, p, inFragment, scratch).reports > 0
  {
    hide NextPhys;
  }

  /** So is every record of a whole log. */
  lemma {:induction false} EveryRecordIsFrames(step: Step, file: Bytes, p: nat, i: nat) returns (pieces: seq<Piece>)
    requires p <= |file| && i < |ReadAll(step, file, p).0|
    ensures Frames(step, file, p, pieces, true) && Joined(pieces) == ReadAll(step, file, p).0[i]
    decreases i
  {
    hide ReadFrom, Joined;
    var f := ReadFrom(step, file, p, false, []);
    if i == 0 {
      pieces := RecordIsFrames(step, file, p, p, false, [], []);
    } else {
      pieces := EveryRecordIsFrames(step, file, f.at, i - 1);
    }
  }

  // ---- The bytes themselves.

  /** The masked checksum and the length, low bytes first, then the type. */
  lemma FrameBytes(step: Step, t: Byte, payload: Bytes)
    requires |payload| < 32768
    ensures var crc := Coding.Value(step, [t] + payload);
      var masked := (crc / 0x8000 + crc % 0x8000 * 0x2_0000 + 0xa282_ead8) % 0x1_0000_0000;
      Frame(step, t, payload) ==
        [masked % 0x100, masked / 0x100 % 0x100, masked / 0x1_0000 % 0x100, masked / 0x100_0000]
        + [|payload| % 0x100, |payload| / 0x100, t] + payload
  {
    hide Coding.Value, Extend;
    ExtendConcat(step, [t], payload);
    var w := Mask(Coding.Value(step, [t] + payload));
    assert w / 256 / 256 == w / 0x1_0000 && w / 256 / 256 / 256 == w / 0x100_0000;
  }

  /** A record that fits in the first block is one frame of type 1; one of three blocks has types 2, 3 and 4. */
  lemma RecordTypes(step: Step, a: Bytes, b: Bytes, c: Bytes)
    requires |a| == 32761 && |b| == 32761 && 0 < |c| <= 32761
    ensures Emit(step, 0, c, true) == Frame(step, 1, c)
    ensures Emit(step, 0, a + (b + c), true) == Frame(step, 2, a) + (Frame(step, 3, b) + Frame(step, 4, c))
  {
    hide Frame, Emit;
    EmitLast(step, 0, c, true);
    EmitBlock(step, 0, a, b + c, true);
    EmitBlock(step, 32768, b, c, false);
    EmitLast(step, 65536, c, false);
  }

  lemma EmitBlock(step: Step, pos: nat, data: Bytes, rest: Bytes, begin: bool)
    requires pos % 32768 == 0 && |data| == 32761 && |rest| > 0
    ensures Emit(step, pos, data + rest, begin)
      == Frame(step, if begin then 2 else 3, data) + Emit(step, pos + 32768, rest, false)
  {
    hide Frame;
    assert Gap(pos) == 0 && Room(pos) == 32761;
    NextPlace(pos, 32761);
    var n := |data|;
    assert (data + rest)[..n] == data && (data + rest)[n..] == rest;
    assert Zeros(0) + Frame(step, TypeOf(begin, false), data) == Frame(step, TypeOf(begin, false), data);
  }

  lemma EmitLast(step: Step, pos: nat, data: Bytes, begin: bool)
    requires pos % 32768 == 0 && |data| <= 32761
    ensures Emit(step, pos, data, begin) == Frame(step, if begin then 1 else 4, data)
  {
    hide Frame;
    assert Gap(pos) == 0 && Room(pos) == 32761;
    assert Zeros(0) + Frame(step, TypeOf(begin, true), data) == Frame(step, TypeOf(begin, true), data);
  }
}
