/**
 The write-ahead log's framing (wal/log_writer.cc, wal/log_reader.cc): records cut into
 fragments that never cross a 32 KiB block, and a reader that puts them together again
 and takes a torn tail for the end of the log.
 */
module Wal {
  import opened Keys
  import opened Coding

  type Step = (Word, Byte) -> Word

  const BLOCK: nat := 32768
  const HEADER: nat := 7

  const FULL: Byte := 1
  const FIRST: Byte := 2
  const MIDDLE: Byte := 3
  const LAST: Byte := 4

  // ---- What the writer appends.

  function Zeros(n: nat): (z: Bytes)
    ensures |z| == n && forall i :: 0 <= i < n ==> z[i] == 0
  {
    seq(n, _ => 0)
  }

  /** EmitPhysicalRecord: checksum, length, type, payload. */
  function Frame(step: Step, t: Byte, payload: Bytes): (f: Bytes)
    requires |payload| < BLOCK
    ensures |f| == HEADER + |payload|
  {
    EncodeFixed32(Mask(Extend(step, Coding.Value(step, [t]), payload)))
    + [|payload| % 256, |payload| / 256, t] + payload
  }

  // Bytes of padding before the next fragment when the file has `pos` bytes.
  function Gap(pos: nat): (g: nat)
    ensures g < HEADER
  {
    var leftover := BLOCK - pos % BLOCK;
    if leftover < HEADER then leftover else 0
  }

  // Room for payload in the block where the next fragment goes.
  function Room(pos: nat): (r: nat)
    ensures r < BLOCK
    ensures (pos + Gap(pos)) % BLOCK + HEADER + r == BLOCK
  {
    BLOCK - HEADER - (pos + Gap(pos)) % BLOCK
  }

  function TypeOf(begin: bool, end: bool): Byte {
    if begin && end then FULL else if begin then FIRST else if end then LAST else MIDDLE
  }

  /** The bytes AddRecord appends to a file of length pos for what is left of a record. */
  function Emit(step: Step, pos: nat, data: Bytes, begin: bool): (r: Bytes)
    decreases |data|, Room(pos) == 0
    ensures |r| >= HEADER
  {
    var room := Room(pos);
    if |data| <= room then
      Zeros(Gap(pos)) + Frame(step, TypeOf(begin, true), data)
    else
      NextPlace(pos, room);
      Zeros(Gap(pos)) + Frame(step, TypeOf(begin, false), data[..room])
      + Emit(step, pos + Gap(pos) + HEADER + room, data[room..], false)
  }

  /** After a block is filled the next fragment has a whole block to itself. */
  lemma NextPlace(pos: nat, room: nat)
    requires room == Room(pos)
    ensures (pos + Gap(pos) + HEADER + room) % BLOCK == 0
    ensures Room(pos + Gap(pos) + HEADER + room) == BLOCK - HEADER
  {
  }

  lemma EmitSplit(step: Step, before: Bytes, data: Bytes, begin: bool)
    ensures var pos := |before|;
      var room := Room(pos);
      var padded := before + Zeros(Gap(pos));
      if |data| <= room then
        before + Emit(step, pos, data, begin) == padded + Frame(step, TypeOf(begin, true), data)
      else
        var next := padded + Frame(step, TypeOf(begin, false), data[..room]);
        before + Emit(step, pos, data, begin) == next + Emit(step, |next|, data[room..], false)
  {
    hide Frame, Gap, Room, Zeros;
    var room, gap := Room(|before|), Zeros(Gap(|before|));
    if |data| <= room {
      assert before + (gap + Frame(step, TypeOf(begin, true), data))
          == before + gap + Frame(step, TypeOf(begin, true), data);
    } else {
      var frame, next := Frame(step, TypeOf(begin, false), data[..room]), |before| + Gap(|before|) + HEADER + room;
      NextPlace(|before|, room);
      var rest := Emit(step, next, data[room..], false);
      assert before + (gap + frame + rest) == before + gap + frame + rest;
    }
  }

  /** The writer's own block offset leads to the padding the file length asks for. */
  lemma PadFits(blockOffset: nat, pos: nat)
    requires blockOffset <= BLOCK && blockOffset % BLOCK == pos % BLOCK
    ensures var leftover := BLOCK - blockOffset;
      Gap(pos) == (if 0 < leftover < HEADER then leftover else 0)
      && (pos + Gap(pos)) % BLOCK == (if leftover < HEADER then 0 else blockOffset)
  {
  }

  /** The bytes a list of records takes when it is appended to a file of length pos. */
  function LogFrom(step: Step, pos: nat, records: seq<Bytes>): Bytes
    decreases |records|
  {
    if |records| == 0 then []
    else
      var first := Emit(step, pos, records[0], true);
      first + LogFrom(step, pos + |first|, records[1..])
  }

  class Writer {
    const step: Step
    var dest: Bytes
    var blockOffset: nat

    // The block offset may stand at a block's very end where the file length says its start.
    ghost predicate Ok()
      reads this
    {
      blockOffset <= BLOCK && blockOffset % BLOCK == |dest| % BLOCK
    }

    constructor (step: Step)
      ensures Ok() && dest == [] && this.step == step
    {
      this.step, dest, blockOffset := step, [], 0;
    }

    // Resume on an existing file.
    constructor Resume(step: Step, dest: Bytes)
      ensures Ok() && this.dest == dest && this.step == step
    {
      this.step, this.dest, blockOffset := step, dest, |dest| % BLOCK;
    }

    method AddRecord(data: Bytes)
      requires Ok()
      modifies this
      ensures Ok() && dest == old(dest) + Emit(step, |old(dest)|, data, true)
    {
      hide Emit, Gap, Room, Frame;
      var left := data;
      var begin := true;
      while true
        invariant Ok()
        invariant dest + Emit(step, |dest|, left, begin) == old(dest) + Emit(step, |old(dest)|, data, true)
        decreases |left|, Room(|dest|) == 0
      {
        ghost var before := dest;
        Pad();
        var avail := BLOCK - blockOffset - HEADER;
        var length := if |left| < avail then |left| else avail;
        var end := |left| == length;
        EmitPhysicalRecord(TypeOf(begin, end), left[..length]);
        EmitSplit(step, before, left, begin);
        if end { assert left[..length] == left; return; }
        NextPlace(|before|, avail);
        left, begin := left[length..], false;
      }
    }

    /** When no header fits, fill the rest of the block and switch to a new one. */
    method Pad()
      requires Ok()
      modifies this
      ensures Ok() && dest == old(dest) + Zeros(Gap(|old(dest)|))
      ensures blockOffset + HEADER + Room(|old(dest)|) == BLOCK
    {
      var leftover := BLOCK - blockOffset;
      PadFits(blockOffset, |dest|);
      if leftover < HEADER {
        dest := dest + Zeros(leftover);
        blockOffset := 0;
      }
    }

    method EmitPhysicalRecord(t: Byte, payload: Bytes)
      requires Ok() && blockOffset + HEADER + |payload| <= BLOCK
      modifies this
      ensures Ok() && dest == old(dest) + Frame(step, t, payload)
      ensures blockOffset == old(blockOffset) + HEADER + |payload|
    {
      hide Mask, Extend, Coding.Value, EncodeFixed32;
      var crc := Mask(Extend(step, Coding.Value(step, [t]), payload));
      var header := EncodeFixed32(crc) + [|payload| % 256, |payload| / 256, t];
      dest := dest + header;
      dest := dest + payload;
      blockOffset := blockOffset + HEADER + |payload|;
      assert dest == old(dest) + (header + payload);
    }
  }

  // ---- What the reader finds, by absolute position in the file.

  /** One physical record: where it is decoded, `at` is the position after it. */
  datatype Phys = Eof | Corrupt(reports: nat, at: nat) | Fragment(t: Byte, payload: Bytes, at: nat)

  // The type byte shares its number space with the reader's own end-of-file and bad-record codes.
  const EOF_CODE: Byte := 5
  const BAD_CODE: Byte := 6

  function BlockEnd(file: Bytes, p: nat): (e: nat)
    requires p <= |file|
    ensures p <= e <= |file|
  {
    var e := p - p % BLOCK + BLOCK;
    if e <= |file| then e else |file|
  }

  // The block at p is the last, incomplete one.
  predicate Short(file: Bytes, p: nat) {
    p - p % BLOCK + BLOCK > |file|
  }

  /** Decoding a header and its payload at p, where `block` is what its block has from p on. */
  function Decode(step: Step, block: Bytes, p: nat, short: bool): Phys
    requires HEADER <= |block|
  {
    var low: nat, high: nat, t := block[4], block[5], block[6];
    var length := low + 256 * high;
    if HEADER + length > |block| then
      if short then Eof else Corrupt(1, p + |block|)
    else if t == 0 && length == 0 then Corrupt(0, p + |block|)
    else if Unmask(DecodeFixed32(block)) != Coding.Value(step, block[6..HEADER + length]) then
      Corrupt(1, p + |block|)
    else
      Fragment(t, block[HEADER..HEADER + length], p + HEADER + length)
  }

  function NextPhys(step: Step, file: Bytes, p: nat): (r: Phys)
    requires p <= |file|
    ensures !r.Eof? ==> p < r.at <= |file|
    decreases |file| - p
  {
    var avail := BlockEnd(file, p) - p;
    if avail >= HEADER then Decode(step, file[p..p + avail], p, Short(file, p))
    else if Short(file, p) then Eof
    else NextPhys(step, file, p + avail)
  }

  /** One logical record, or the end of the log, with the corruptions reported on the way. */
  datatype Found = End(reports: nat) | Record(data: Bytes, at: nat, reports: nat)

  function Plus(n: nat, f: Found): Found {
    f.(reports := f.reports + n)
  }

  function Lost(inFragment: bool, scratch: Bytes): nat {
    if inFragment && |scratch| > 0 then 1 else 0
  }

  function ReadFrom(step: Step, file: Bytes, p: nat, inFragment: bool, scratch: Bytes): (f: Found)
    requires p <= |file|
    ensures f.Record? ==> p < f.at <= |file|
    decreases |file| - p
  {
    match NextPhys(step, file, p)
    case Eof => End(0)
    case Corrupt(reports, at) =>
      Plus(reports + (if inFragment then 1 else 0), ReadFrom(step, file, at, false, []))
    case Fragment(t, payload, at) =>
      if t == FULL then Record(payload, at, Lost(inFragment, scratch))
      else if t == FIRST then Plus(Lost(inFragment, scratch), ReadFrom(step, file, at, true, payload))
      else if t == MIDDLE then
        if inFragment then ReadFrom(step, file, at, true, scratch + payload)
        else Plus(1, ReadFrom(step, file, at, false, scratch))
      else if t == LAST then
        if inFragment then Record(scratch + payload, at, 0)
        else Plus(1, ReadFrom(step, file, at, false, scratch))
      else if t == EOF_CODE then End(0)
      else if t == BAD_CODE then
        Plus(if inFragment then 1 else 0, ReadFrom(step, file, at, false, []))
      else Plus(1, ReadFrom(step, file, at, false, []))
  }

  /** The buffer holds what is left of the block read last: a whole one, or the short one at the end. */
  ghost predicate Buffered(file: Bytes, filePos: nat, buffer: Bytes, eof: bool) {
    && |buffer| <= filePos <= |file|
    && buffer == file[filePos - |buffer|..filePos]
    && |buffer| <= BLOCK
    && (if eof then filePos == |file| && |buffer| <= |file| % BLOCK else filePos % BLOCK == 0)
  }

  lemma LoadBuffered(step: Step, file: Bytes, filePos: nat, buffer: Bytes, n: nat)
    requires Buffered(file, filePos, buffer, false) && |buffer| < HEADER
    requires n == (if |file| - filePos < BLOCK then |file| - filePos else BLOCK)
    ensures Buffered(file, filePos + n, file[filePos..filePos + n], n < BLOCK)
    ensures NextPhys(step, file, filePos - |buffer|) == NextPhys(step, file, filePos)
  {
    hide NextPhys;
    SkipTail(step, file, filePos - |buffer|, filePos);
    assert (filePos + n) % BLOCK == n % BLOCK;
  }

  lemma DropBuffered(file: Bytes, filePos: nat, buffer: Bytes, eof: bool, n: nat)
    requires Buffered(file, filePos, buffer, eof) && n <= |buffer|
    ensures Buffered(file, filePos, buffer[n..], eof)
  {
  }

  class Reader {
    const step: Step
    const file: Bytes
    var filePos: nat
    var buffer: Bytes
    var eof: bool
    var reports: nat

    ghost predicate Ok()
      reads this`filePos, this`buffer, this`eof
    {
      Buffered(file, filePos, buffer, eof)
    }

    ghost function Pos(): (p: nat)
      reads this`filePos, this`buffer, this`eof
      requires Ok()
      ensures p <= |file|
    {
      filePos - |buffer|
    }

    constructor (step: Step, file: Bytes)
      ensures Ok() && Pos() == 0 && reports == 0 && this.step == step && this.file == file
    {
      this.step, this.file := step, file;
      filePos, buffer, eof, reports := 0, [], false, 0;
    }

    /** Loading the next block, or what there is of it. */
    method Load()
      requires Ok() && !eof && |buffer| < HEADER
      modifies this
      ensures Ok() && reports == old(reports)
      ensures NextPhys(step, file, Pos()) == NextPhys(step, file, old(Pos()))
      ensures filePos >= old(filePos) && (filePos == old(filePos) ==> eof)
    {
      hide NextPhys, Buffered, Ok, Pos;
      Unfold();
      var n := if |file| - filePos < BLOCK then |file| - filePos else BLOCK;
      LoadBuffered(step, file, filePos, buffer, n);
      buffer, filePos, eof := file[filePos..filePos + n], filePos + n, n < BLOCK;
      Unfold();
    }

    lemma Unfold()
      requires Ok() || Buffered(file, filePos, buffer, eof)
      ensures Ok() && Buffered(file, filePos, buffer, eof) && Pos() == filePos - |buffer| && filePos <= |file|
    {
    }

    method ReadPhysicalRecord() returns (r: Phys)
      requires Ok()
      modifies this
      ensures Ok() && r == NextPhys(step, file, old(Pos()))
      ensures !r.Eof? ==> Pos() == r.at
      ensures reports == old(reports) + (if r.Corrupt? then r.reports else 0)
    {
      hide Decode;
      while |buffer| < HEADER
        invariant Ok() && reports == old(reports)
        invariant NextPhys(step, file, Pos()) == NextPhys(step, file, old(Pos()))
        decreases |file| - filePos, !eof
      {
        if eof {
          AtBuffer(file, Pos(), filePos, eof);
          buffer := [];
          return Eof;
        }
        Load();
      }
      AtBuffer(file, Pos(), filePos, eof);
      r := DecodeHeader();
    }

    method ReadRecord() returns (r: Option<Bytes>)
      requires Ok()
      modifies this
      ensures Ok()
      ensures var f := ReadFrom(step, file, old(Pos()), false, []);
        && r == DataOf(f)
        && (f.Record? ==> Pos() == f.at)
        && reports == old(reports) + f.reports
    {
      hide NextPhys, Buffered;
      var inFragment, scratch := false, [];
      while true
        invariant Ok() && reports >= old(reports)
        invariant Plus(reports - old(reports), ReadFrom(step, file, Pos(), inFragment, scratch))
               == ReadFrom(step, file, old(Pos()), false, [])
        decreases |file| - Pos()
      {
        var phys := ReadPhysicalRecord();
        match phys
        case Eof => return None;
        case Corrupt(_, _) =>
          if inFragment { reports := reports + 1; }
          inFragment, scratch := false, [];
        case Fragment(t, payload, _) =>
          if t == FULL {
            if inFragment && |scratch| > 0 { reports := reports + 1; }
            return Some(payload);
          } else if t == FIRST {
            if inFragment && |scratch| > 0 { reports := reports + 1; }
            inFragment, scratch := true, payload;
          } else if t == MIDDLE {
            if inFragment { scratch := scratch + payload; } else { reports := reports + 1; }
          } else if t == LAST {
            if inFragment { return Some(scratch + payload); }
            reports := reports + 1;
          } else if t == EOF_CODE {
            return None;
          } else if t == BAD_CODE {
            if inFragment { reports := reports + 1; }
            inFragment, scratch := false, [];
          } else {
            reports := reports + 1;
            inFragment, scratch := false, [];
          }
      }
    }

    method DecodeHeader() returns (r: Phys)
      requires Ok() && |buffer| >= HEADER
      modifies this
      ensures Ok() && r == Decode(step, old(buffer), old(Pos()), old(eof))
      ensures !r.Eof? ==> Pos() == r.at
      ensures reports == old(reports) + (if r.Corrupt? then r.reports else 0)
    {
      DropBuffered(file, filePos, buffer, eof, |buffer|);
      assert buffer[|buffer|..] == [];
      hide Unmask, Coding.Value, DecodeFixed32, Buffered;
      var low: nat, high: nat, t := buffer[4], buffer[5], buffer[6];
      var length := low + 256 * high;
      if HEADER + length > |buffer| {
        buffer := [];
        if !eof {
          reports := reports + 1;
          return Corrupt(1, filePos);
        }
        return Eof;
      }
      if t == 0 && length == 0 {
        buffer := [];
        return Corrupt(0, filePos);
      }
      var expected, actual := Unmask(DecodeFixed32(buffer)), Coding.Value(step, buffer[6..HEADER + length]);
      if actual != expected {
        buffer := [];
        reports := reports + 1;
        return Corrupt(1, filePos);
      }
      var payload := buffer[HEADER..HEADER + length];
      DropBuffered(file, filePos, buffer, eof, HEADER + length);
      buffer := buffer[HEADER + length..];
      return Fragment(t, payload, filePos - |buffer|);
    }
  }

  /** Every AddRecord on a log, by its first writer or by one resumed at the file's length, gives the longer log. */
  lemma {:induction false} LogAppend(step: Step, pos: nat, records: seq<Bytes>, data: Bytes)
    ensures var log := LogFrom(step, pos, records);
      LogFrom(step, pos, records + [data]) == log + Emit(step, pos + |log|, data, true)
    decreases |records|
  {
    hide Emit;
    if |records| == 0 {
      assert (records + [data])[1..] == [];
    } else {
      LogAppend(step, pos + |Emit(step, pos, records[0], true)|, records[1..], data);
      assert (records + [data])[1..] == records[1..] + [data];
    }
  }

  /** A block's tail too short for a header is passed over. */
  lemma SkipTail(step: Step, file: Bytes, p: nat, q: nat)
    requires p <= q <= |file| && q - p < HEADER && q % BLOCK == 0
    ensures NextPhys(step, file, p) == NextPhys(step, file, q)
  {
    if p < q {
      assert p % BLOCK == BLOCK - (q - p);
    }
  }

  /** What a loaded buffer ending at filePos says about the block at p. */
  lemma AtBuffer(file: Bytes, p: nat, filePos: nat, eof: bool)
    requires 0 <= filePos - p <= BLOCK && filePos <= |file| && (p < filePos || eof)
    requires if eof then filePos == |file| && filePos - p <= |file| % BLOCK else filePos % BLOCK == 0
    ensures BlockEnd(file, p) == filePos && Short(file, p) == eof
  {
  }

  // ---- Reading back what was written.

  predicate StartsWith(s: Bytes, p: nat, prefix: Bytes) {
    p + |prefix| <= |s| && s[p..p + |prefix|] == prefix
  }

  /** A whole frame decodes to its type and payload, whatever follows it in the block. */
  lemma FrameDecodes(step: Step, t: Byte, payload: Bytes, block: Bytes, p: nat, short: bool)
    requires |payload| < BLOCK && t != 0
    requires StartsWith(block, 0, Frame(step, t, payload))
    ensures Decode(step, block, p, short) == Fragment(t, payload, p + HEADER + |payload|)
  {
    var frame := Frame(step, t, payload);
    var crc := Extend(step, Coding.Value(step, [t]), payload);
    FrameParts(step, t, payload, frame);
    FixedRoundTrip(Mask(crc), frame[4..]);
    MaskRoundTrip(crc);
    ExtendConcat(step, [t], payload);
    assert block[6..HEADER + |payload|] == frame[6..] == [t] + payload;
    assert block[HEADER..HEADER + |payload|] == frame[HEADER..] == payload;
    assert forall i :: 0 <= i < HEADER ==> block[i] == frame[i];
  }

  lemma FrameParts(step: Step, t: Byte, payload: Bytes, frame: Bytes)
    requires |payload| < BLOCK && frame == Frame(step, t, payload)
    ensures frame == EncodeFixed32(Mask(Extend(step, Coding.Value(step, [t]), payload))) + frame[4..]
    ensures frame[4] == |payload| % 256 && frame[5] == |payload| / 256 && frame[6] == t
    ensures frame[6..] == [t] + payload && frame[HEADER..] == payload
  {
  }

  /** A frame cut short by the end of the file reads as the end of the log. */
  lemma FrameCut(step: Step, t: Byte, payload: Bytes, block: Bytes, p: nat)
    requires |payload| < BLOCK && HEADER <= |block| < HEADER + |payload|
    requires block == Frame(step, t, payload)[..|block|]
    ensures Decode(step, block, p, true) == Eof
  {
  }

  /** A whole padded frame is the next physical record. */
  lemma PhysWhole(step: Step, file: Bytes, pos: nat, t: Byte, payload: Bytes)
    requires |payload| <= Room(pos) && t != 0
    requires StartsWith(file, pos, Zeros(Gap(pos)) + Frame(step, t, payload))
    ensures NextPhys(step, file, pos) == Fragment(t, payload, pos + Gap(pos) + HEADER + |payload|)
  {
    hide Decode, Frame;
    var start := pos + Gap(pos);
    SkipGap(step, file, pos);
    var end := BlockEnd(file, start);
    StartsAfter(file, pos, Zeros(Gap(pos)), Frame(step, t, payload));
    InBlock(file, start, HEADER + |payload|);
    assert file[start..end][..HEADER + |payload|] == file[start..start + HEADER + |payload|];
    FrameDecodes(step, t, payload, file[start..end], start, Short(file, start));
  }

  /** The file ends inside a padded frame, or right before it: the end of the log. */
  lemma PhysCut(step: Step, file: Bytes, pos: nat, t: Byte, payload: Bytes)
    requires |payload| <= Room(pos)
    requires pos <= |file| && file[pos..] < Zeros(Gap(pos)) + Frame(step, t, payload)
    ensures NextPhys(step, file, pos) == Eof
  {
    hide Decode, Frame;
    var start := pos + Gap(pos);
    if start <= |file| {
      SkipGap(step, file, pos);
      LastBlock(file, start, HEADER + |payload|);
      if |file| - start >= HEADER {
        CutSecond(file, pos, Zeros(Gap(pos)), Frame(step, t, payload));
        assert file[start..] == file[start..|file|];
        FrameCut(step, t, payload, file[start..|file|], start);
      }
    } else {
      LastBlock(file, pos, Gap(pos));
    }
  }

  lemma SkipGap(step: Step, file: Bytes, pos: nat)
    requires pos + Gap(pos) <= |file|
    ensures NextPhys(step, file, pos) == NextPhys(step, file, pos + Gap(pos))
  {
  }

  lemma StartsAfter(file: Bytes, pos: nat, a: Bytes, b: Bytes)
    requires StartsWith(file, pos, a + b)
    ensures StartsWith(file, pos + |a|, b)
  {
    assert b == (a + b)[|a|..] == file[pos..pos + |a + b|][|a|..];
  }

  lemma InBlock(file: Bytes, p: nat, n: nat)
    requires p + n <= |file| && p % BLOCK + n <= BLOCK
    ensures p + n <= BlockEnd(file, p)
  {
  }

  lemma LastBlock(file: Bytes, p: nat, n: nat)
    requires p <= |file| < p + n && p % BLOCK + n <= BLOCK
    ensures Short(file, p) && BlockEnd(file, p) == |file|
  {
  }

  /** A record wholly in the file is returned, with nothing reported, and the reader stands right after it. */
  lemma {:induction false} RecordWhole(step: Step, file: Bytes, pos: nat, data: Bytes, begin: bool, scratch: Bytes)
    requires StartsWith(file, pos, Emit(step, pos, data, begin))
    requires begin ==> scratch == []
    ensures ReadFrom(step, file, pos, !begin, scratch)
         == Record(scratch + data, pos + |Emit(step, pos, data, begin)|, 0)
    decreases |data|, Room(pos) == 0
  {
    hide Frame, NextPhys;
    var room := Room(pos);
    var gap := Zeros(Gap(pos));
    if |data| <= room {
      PhysWhole(step, file, pos, TypeOf(begin, true), data);
      assert begin ==> scratch + data == data;
    } else {
      NextPlace(pos, room);
      var frame := Frame(step, TypeOf(begin, false), data[..room]);
      var next := pos + |gap + frame|;
      var rest := Emit(step, next, data[room..], false);
      assert Emit(step, pos, data, begin) == (gap + frame) + rest;
      StartsWithFirst(file, pos, gap + frame, rest);
      StartsAfter(file, pos, gap + frame, rest);
      PhysWhole(step, file, pos, TypeOf(begin, false), data[..room]);
      RecordWhole(step, file, next, data[room..], false, scratch + data[..room]);
      assert begin ==> scratch + data[..room] == data[..room];
      assert scratch + data[..room] + data[room..] == scratch + data;
    }
  }

  lemma StartsWithFirst(file: Bytes, pos: nat, a: Bytes, b: Bytes)
    requires StartsWith(file, pos, a + b)
    ensures StartsWith(file, pos, a)
  {
    assert a == (a + b)[..|a|] == file[pos..pos + |a + b|][..|a|];
  }

  /** A record the file's end cuts, at whatever byte, reads as the end of the log, with nothing reported. */
  lemma {:induction false} RecordCut(step: Step, file: Bytes, pos: nat, data: Bytes, begin: bool, scratch: Bytes)
    requires pos <= |file| && file[pos..] < Emit(step, pos, data, begin)
    requires begin ==> scratch == []
    ensures ReadFrom(step, file, pos, !begin, scratch) == End(0)
    decreases |data|, Room(pos) == 0
  {
    hide Frame, NextPhys;
    var room := Room(pos);
    var gap := Zeros(Gap(pos));
    if |data| <= room {
      PhysCut(step, file, pos, TypeOf(begin, true), data);
    } else {
      NextPlace(pos, room);
      var frame := Frame(step, TypeOf(begin, false), data[..room]);
      var next := pos + |gap + frame|;
      var rest := Emit(step, next, data[room..], false);
      assert Emit(step, pos, data, begin) == (gap + frame) + rest;
      if |file| < next {
        CutFirst(file[pos..], gap + frame, rest);
        PhysCut(step, file, pos, TypeOf(begin, false), data[..room]);
      } else {
        CutSecond(file, pos, gap + frame, rest);
        PhysWhole(step, file, pos, TypeOf(begin, false), data[..room]);
        RecordCut(step, file, next, data[room..], false, scratch + data[..room]);
        assert begin ==> scratch + data[..room] == data[..room];
      }
    }
  }

  lemma CutFirst(s: Bytes, a: Bytes, b: Bytes)
    requires s < a + b && |s| < |a|
    ensures s < a
  {
  }

  lemma CutSecond(file: Bytes, pos: nat, a: Bytes, b: Bytes)
    requires pos + |a| <= |file| && file[pos..] < a + b
    ensures StartsWith(file, pos, a) && file[pos + |a|..] < b
  {
  }

  /** Reading to the end: the records found and the number of corruptions reported. */
  function ReadAll(step: Step, file: Bytes, p: nat): (seq<Bytes>, nat)
    requires p <= |file|
    decreases |file| - p
  {
    match ReadFrom(step, file, p, false, [])
    case End(reports) => ([], reports)
    case Record(data, at, reports) =>
      var rest := ReadAll(step, file, at);
      ([data] + rest.0, reports + rest.1)
  }

  /** The loop every user of the log runs. */
  method ReadLog(step: Step, file: Bytes) returns (records: seq<Bytes>, reports: nat)
    ensures (records, reports) == ReadAll(step, file, 0)
  {
    hide ReadFrom, Buffered;
    var reader := new Reader(step, file);
    records := [];
    var r := reader.ReadRecord();
    ReadsFirst(step, file);
    while r.Some?
      invariant reader.Ok() && fresh(reader) && reader.step == step && reader.file == file
      invariant Reads(step, file, records, reader.reports, r, if r.Some? then reader.Pos() else 0)
      decreases r.Some?, if r.Some? then |file| - reader.Pos() else 0
    {
      ReadsNext(step, file, records, reader.reports, r.value, reader.Pos());
      records := records + [r.value];
      r := reader.ReadRecord();
    }
    reports := reader.reports;
  }

  // What has been read so far, with the record in hand, and what is still to come make up the whole.
  predicate Reads(step: Step, file: Bytes, records: seq<Bytes>, reports: nat, r: Option<Bytes>, p: nat)
    requires p <= |file|
  {
    match r
    case None => (records, reports) == ReadAll(step, file, 0)
    case Some(data) =>
      var rest := ReadAll(step, file, p);
      (records + ([data] + rest.0), reports + rest.1) == ReadAll(step, file, 0)
  }

  function DataOf(f: Found): Option<Bytes> {
    if f.Record? then Some(f.data) else None
  }

  lemma ReadsFirst(step: Step, file: Bytes)
    ensures var f := ReadFrom(step, file, 0, false, []);
      Reads(step, file, [], f.reports, DataOf(f), if f.Record? then f.at else 0)
  {
    hide ReadFrom;
    assert [] + ReadAll(step, file, 0).0 == ReadAll(step, file, 0).0;
  }

  lemma ReadsNext(step: Step, file: Bytes, records: seq<Bytes>, reports: nat, data: Bytes, p: nat)
    requires p <= |file| && Reads(step, file, records, reports, Some(data), p)
    ensures var f := ReadFrom(step, file, p, false, []);
      Reads(step, file, records + [data], reports + f.reports, DataOf(f), if f.Record? then f.at else 0)
  {
    hide ReadFrom;
    var rest := ReadAll(step, file, p).0;
    assert (records + [data]) + [] == records + [data];
    assert records + ([data] + rest) == (records + [data]) + rest;
  }

  /**
   A log cut at any byte gives back exactly the records wholly inside the cut, in order, and no corruption:
   k is the number of records that end within the file.
   */
  lemma {:induction false} TornTail(step: Step, file: Bytes, pos: nat, records: seq<Bytes>, k: nat)
    requires pos <= |file| && file[pos..] <= LogFrom(step, pos, records)
    requires k <= |records| && pos + |LogFrom(step, pos, records[..k])| <= |file|
    requires k < |records| ==> |file| < pos + |LogFrom(step, pos, records[..k + 1])|
    ensures ReadAll(step, file, pos) == (records[..k], 0)
    decreases |records|
  {
    hide Emit, ReadFrom, StartsWith;
    if |records| == 0 {
      EndOfFile(step, file);
    } else {
      var first := Emit(step, pos, records[0], true);
      var rest := LogFrom(step, pos + |first|, records[1..]);
      if k == 0 {
        assert records[..1] == [records[0]];
        assert LogFrom(step, pos, records[..1]) == first;
        CutFirst(file[pos..], first, rest);
        RecordCut(step, file, pos, records[0], true, []);
      } else {
        HeadOfLog(step, pos, records, k);
        if k < |records| { HeadOfLog(step, pos, records, k + 1); }
        PrefixSplit(file, pos, first, rest);
        RecordWhole(step, file, pos, records[0], true, []);
        TornTail(step, file, pos + |first|, records[1..], k - 1);
        assert [] + records[0] == records[0];
        assert [records[0]] + records[1..][..k - 1] == records[..k];
      }
    }
  }

  /**
   Whatever comes after them in the file - a record that failed half way, and records after
   that - the records of a log are read first, and then what reading from their end gives.
   */
  lemma {:induction false} WholeThenAnything(step: Step, file: Bytes, pos: nat, records: seq<Bytes>)
    requires StartsWith(file, pos, LogFrom(step, pos, records))
    ensures var rest := ReadAll(step, file, pos + |LogFrom(step, pos, records)|);
      ReadAll(step, file, pos) == (records + rest.0, rest.1)
    decreases |records|
  {
    hide Emit, ReadFrom;
    if |records| > 0 {
      var first := Emit(step, pos, records[0], true);
      var after := LogFrom(step, pos + |first|, records[1..]);
      var log := LogFrom(step, pos, records);
      assert log == first + after;
      hide LogFrom;
      StartsBoth(file, pos, first, after);
      hide StartsWith;
      RecordWhole(step, file, pos, records[0], true, []);
      WholeThenAnything(step, file, pos + |first|, records[1..]);
      assert [] + records[0] == records[0];
      var rest := ReadAll(step, file, pos + |log|).0;
      assert [records[0]] + (records[1..] + rest) == records + rest;
    } else {
      var rest := ReadAll(step, file, pos);
      assert [] + rest.0 == rest.0 && rest == (rest.0, rest.1);
    }
  }

  lemma StartsBoth(file: Bytes, pos: nat, a: Bytes, b: Bytes)
    requires StartsWith(file, pos, a + b)
    ensures StartsWith(file, pos, a) && StartsWith(file, pos + |a|, b)
  {
    assert file[pos..pos + |a|] == (a + b)[..|a|];
    assert file[pos + |a|..pos + |a| + |b|] == (a + b)[|a|..];
  }

  lemma EndOfFile(step: Step, file: Bytes)
    ensures ReadFrom(step, file, |file|, false, []) == End(0)
  {
  }

  lemma HeadOfLog(step: Step, pos: nat, records: seq<Bytes>, k: nat)
    requires 0 < k <= |records|
    ensures var first := Emit(step, pos, records[0], true);
      |LogFrom(step, pos, records[..k])| == |first| + |LogFrom(step, pos + |first|, records[1..][..k - 1])|
  {
    hide Emit;
    assert records[..k][1..] == records[1..][..k - 1];
  }

  lemma PrefixSplit(file: Bytes, pos: nat, a: Bytes, b: Bytes)
    requires pos + |a| <= |file| && file[pos..] <= a + b
    ensures StartsWith(file, pos, a) && file[pos + |a|..] <= b
  {
  }

  /** Every cut has such a k. */
  lemma CutExists(step: Step, records: seq<Bytes>, n: nat) returns (k: nat)
    requires n <= |LogFrom(step, 0, records)|
    ensures k <= |records| && |LogFrom(step, 0, records[..k])| <= n
    ensures k < |records| ==> n < |LogFrom(step, 0, records[..k + 1])|
    ensures ReadAll(step, LogFrom(step, 0, records)[..n], 0) == (records[..k], 0)
  {
    hide Emit, ReadAll;
    k := |records|;
    assert records[..k] == records && records[..0] == [];
    while |LogFrom(step, 0, records[..k])| > n
      invariant k <= |records|
      invariant k < |records| ==> n < |LogFrom(step, 0, records[..k + 1])|
      decreases k
    {
      k := k - 1;
    }
    TornTail(step, LogFrom(step, 0, records)[..n], 0, records, k);
  }
}
