/** Write batches: the bytes that go into the log, and the loop that replays them (db/write_batch.cc). */
module Batch {
  import opened Keys
  import opened Coding

  datatype Update = Put(key: Bytes, value: Bytes) | Delete(key: Bytes)

  const LONG: nat := 0x1_0000_0000_0000_0000
  const BATCH_HEADER: nat := 12

  // ---- Encoding.

  function EncodeFixed64(n: nat): (b: Bytes)
    requires n < LONG
    ensures |b| == 8
  {
    EncodeFixed32(n % WORD) + EncodeFixed32(n / WORD)
  }

  function DecodeFixed64(b: Bytes): nat
    requires |b| >= 8
  {
    DecodeFixed32(b) + WORD * DecodeFixed32(b[4..])
  }

  lemma Fixed64RoundTrip(n: nat, rest: Bytes)
    requires n < LONG
    ensures DecodeFixed64(EncodeFixed64(n) + rest) == n
  {
  }

  function Prefixed(s: Bytes): Bytes {
    EncodeVarint(|s|) + s
  }

  datatype Slice = NoSlice | Slice(data: Bytes, size: nat)

  /** GetLengthPrefixedSlice: the slice, and how many bytes of the input it took. */
  function GetPrefixed(b: Bytes): (r: Slice)
    ensures r.Slice? ==> 0 < r.size <= |b|
  {
    match DecodeVarint32(b)
    case Bad => NoSlice
    case Good(length, size) =>
      if |b| - size >= length then Slice(b[size..size + length], size + length) else NoSlice
  }

  lemma PrefixedRoundTrip(s: Bytes, rest: Bytes)
    requires |s| < WORD
    ensures GetPrefixed(Prefixed(s) + rest) == Slice(s, |Prefixed(s)|)
    ensures (Prefixed(s) + rest)[|Prefixed(s)|..] == rest
  {
    hide EncodeVarint, DecodeVarint32;
    VarintRoundTrip(|s|, s + rest);
    assert Prefixed(s) + rest == EncodeVarint(|s|) + (s + rest);
    var b := Prefixed(s) + rest;
    assert b[|EncodeVarint(|s|)|..|EncodeVarint(|s|)| + |s|] == s;
  }

  predicate Fits(u: Update) {
    |u.key| < WORD && (u.Put? ==> |u.value| < WORD)
  }

  function Record(u: Update): (b: Bytes)
    ensures |b| > 0
  {
    match u
    case Put(key, value) => [1] + Prefixed(key) + Prefixed(value)
    case Delete(key) => [0] + Prefixed(key)
  }

  function Records(us: seq<Update>): Bytes {
    if |us| == 0 then [] else Records(us[..|us| - 1]) + Record(us[|us| - 1])
  }

  function Header(sequence: nat, count: nat): (b: Bytes)
    requires sequence < LONG
    ensures |b| == BATCH_HEADER
  {
    EncodeFixed64(sequence) + EncodeFixed32(count % WORD)
  }

  /** The bytes of a batch of updates that starts at a sequence number. */
  function Rep(sequence: nat, us: seq<Update>): (b: Bytes)
    requires sequence < LONG
    ensures |b| >= BATCH_HEADER
  {
    Header(sequence, |us|) + Records(us)
  }

  function SequenceOf(rep: Bytes): nat
    requires |rep| >= BATCH_HEADER
  {
    DecodeFixed64(rep)
  }

  function CountOf(rep: Bytes): nat
    requires |rep| >= BATCH_HEADER
  {
    DecodeFixed32(rep[8..])
  }

  lemma HeaderRoundTrip(sequence: nat, us: seq<Update>)
    requires sequence < LONG
    ensures SequenceOf(Rep(sequence, us)) == sequence && CountOf(Rep(sequence, us)) == |us| % WORD
    ensures Rep(sequence, us)[BATCH_HEADER..] == Records(us)
  {
    hide EncodeFixed64, DecodeFixed64, EncodeFixed32, DecodeFixed32;
    var first, count := EncodeFixed64(sequence), EncodeFixed32(|us| % WORD);
    Fixed64RoundTrip(sequence, count + Records(us));
    FixedRoundTrip(|us| % WORD, Records(us));
    assert Rep(sequence, us) == first + (count + Records(us));
    assert Rep(sequence, us)[8..] == count + Records(us);
  }

  lemma WordBytes(w: Word)
    ensures EncodeFixed32(w) == [w % 0x100, w / 0x100 % 0x100, w / 0x1_0000 % 0x100, w / 0x100_0000 % 0x100]
  {
    assert w / 256 / 256 == w / 0x1_0000 && w / 256 / 256 / 256 == w / 0x100_0000 < 256;
  }

  /** The eight bytes of the sequence number and the four of the count, low ones first. */
  lemma HeaderBytes(sequence: nat, count: Word)
    requires sequence < LONG
    ensures var low, high := sequence % 0x1_0000_0000, sequence / 0x1_0000_0000;
      Header(sequence, count) ==
        [low % 0x100, low / 0x100 % 0x100, low / 0x1_0000 % 0x100, low / 0x100_0000 % 0x100]
        + [high % 0x100, high / 0x100 % 0x100, high / 0x1_0000 % 0x100, high / 0x100_0000 % 0x100]
        + [count % 0x100, count / 0x100 % 0x100, count / 0x1_0000 % 0x100, count / 0x100_0000 % 0x100]
  {
    hide EncodeFixed32;
    WordBytes(sequence % WORD);
    WordBytes(sequence / WORD);
    WordBytes(count);
  }

  /** A put is tag 1, key and value, a deletion tag 0 and key; a length under 128 is one byte. */
  lemma UpdateBytes(key: Bytes, value: Bytes)
    requires |key| < 128 && |value| < 128
    ensures Records([Put(key, value)]) == [1, |key|] + key + [|value|] + value
    ensures Records([Delete(key)]) == [0, |key|] + key
    ensures Records([Put(key, value), Delete(key)]) == [1, |key|] + key + [|value|] + value + [0, |key|] + key
  {
    var put, del := Put(key, value), Delete(key);
    OneRecord(put);
    OneRecord(del);
    RecordsConcat([put], [del]);
    assert [put] + [del] == [put, del];
    hide Records;
    assert Record(put) == [1, |key|] + key + [|value|] + value;
    assert Record(del) == [0, |key|] + key;
  }

  lemma {:induction false} RecordsConcat(a: seq<Update>, b: seq<Update>)
    ensures Records(a + b) == Records(a) + Records(b)
  {
    hide Record;
    if |b| == 0 {
      assert a + b == a;
    } else {
      RecordsConcat(a, b[..|b| - 1]);
      assert (a + b)[..|a + b| - 1] == a + b[..|b| - 1];
    }
  }

  // ---- Decoding.

  datatype Parsed = Malformed | Parsed(update: Update, size: nat)

  function ParseOne(b: Bytes): (r: Parsed)
    requires |b| > 0
    ensures r.Parsed? ==> 0 < r.size <= |b|
  {
    var key := GetPrefixed(b[1..]);
    if b[0] == 1 then
      if key.NoSlice? then Malformed
      else
        var value := GetPrefixed(b[1 + key.size..]);
        if value.NoSlice? then Malformed else Parsed(Put(key.data, value.data), 1 + key.size + value.size)
    else if b[0] == 0 then
      if key.NoSlice? then Malformed else Parsed(Delete(key.data), 1 + key.size)
    else Malformed
  }

  lemma RecordRoundTrip(u: Update, rest: Bytes)
    requires Fits(u)
    ensures ParseOne(Record(u) + rest) == Parsed(u, |Record(u)|)
    ensures (Record(u) + rest)[|Record(u)|..] == rest
  {
    hide Prefixed, GetPrefixed;
    var b := Record(u) + rest;
    match u
    case Put(key, value) =>
      PrefixedRoundTrip(key, Prefixed(value) + rest);
      PrefixedRoundTrip(value, rest);
      assert b[1..] == Prefixed(key) + (Prefixed(value) + rest);
      assert b[1 + |Prefixed(key)|..] == Prefixed(value) + rest;
    case Delete(key) =>
      PrefixedRoundTrip(key, rest);
      assert b[1..] == Prefixed(key) + rest;
  }

  /** Replaying a batch: the updates handed on before it ends or turns out malformed. */
  function Replay(b: Bytes): (r: (bool, seq<Update>))
    decreases |b|
  {
    if |b| == 0 then (true, [])
    else
      match ParseOne(b)
      case Malformed => (false, [])
      case Parsed(u, size) =>
        var rest := Replay(b[size..]);
        (rest.0, [u] + rest.1)
  }

  /** What a batch encodes is what it replays. */
  lemma {:induction false} ReplayRoundTrip(us: seq<Update>)
    requires forall u :: u in us ==> Fits(u)
    ensures Replay(Records(us)) == (true, us)
  {
    hide Record, ParseOne;
    if |us| > 0 {
      RecordsConcat(us[..1], us[1..]);
      assert us == us[..1] + us[1..] && us[..1] == [us[0]];
      assert Records([us[0]]) == Record(us[0]);
      RecordRoundTrip(us[0], Records(us[1..]));
      ReplayRoundTrip(us[1..]);
    }
  }

  datatype Numbered = Numbered(sequence: nat, update: Update)

  /** Consecutive sequence numbers for a batch's updates. */
  function Number(first: nat, us: seq<Update>): (r: seq<Numbered>)
    ensures |r| == |us| && forall i :: 0 <= i < |us| ==> r[i] == Numbered(first + i, us[i])
  {
    seq(|us|, i requires 0 <= i < |us| => Numbered(first + i, us[i]))
  }

  ghost predicate Holds(rep: Bytes, sequence: nat, updates: seq<Update>) {
    && sequence < LONG && rep == Rep(sequence, updates)
    && forall u :: u in updates ==> Fits(u)
  }

  // The count patched in place.
  function Patched(rep: Bytes, count: nat): (r: Bytes)
    requires |rep| >= BATCH_HEADER
    ensures |r| == |rep|
  {
    rep[..8] + EncodeFixed32(count % WORD) + rep[12..]
  }

  lemma HoldsMore(rep: Bytes, sequence: nat, us: seq<Update>, more: seq<Update>, count: nat)
    requires Holds(rep, sequence, us) && count % WORD == |us + more| % WORD
    requires forall u :: u in more ==> Fits(u)
    ensures Holds(Patched(rep, count) + Records(more), sequence, us + more)
  {
    hide EncodeFixed64, EncodeFixed32, Records;
    RecordsConcat(us, more);
    var first := EncodeFixed64(sequence);
    assert rep[..8] == first && rep[12..] == Records(us);
    assert Patched(rep, count) + Records(more) == Header(sequence, |us + more|) + (Records(us) + Records(more));
  }

  lemma HoldsSequence(rep: Bytes, sequence: nat, us: seq<Update>, n: nat)
    requires Holds(rep, sequence, us) && n < LONG
    ensures |rep| >= BATCH_HEADER && Holds(EncodeFixed64(n) + rep[8..], n, us)
  {
    hide EncodeFixed64, EncodeFixed32, Records;
    assert rep[8..] == EncodeFixed32(|us| % WORD) + Records(us);
    assert EncodeFixed64(n) + rep[8..] == Header(n, |us|) + Records(us);
  }

  lemma HoldsHeader(rep: Bytes, sequence: nat, us: seq<Update>)
    requires Holds(rep, sequence, us)
    ensures |rep| >= BATCH_HEADER && SequenceOf(rep) == sequence && CountOf(rep) == |us| % WORD
    ensures rep[BATCH_HEADER..] == Records(us)
    ensures forall u :: u in us ==> Fits(u)
  {
    HeaderRoundTrip(sequence, us);
  }

  lemma OneRecord(u: Update)
    ensures Records([u]) == Record(u)
  {
  }

  class WriteBatch {
    var rep: Bytes
    ghost var sequence: nat
    ghost var updates: seq<Update>

    ghost predicate Ok()
      reads this
    {
      Holds(rep, sequence, updates)
    }

    constructor ()
      ensures Ok() && updates == [] && sequence == 0
    {
      rep := seq(BATCH_HEADER, _ => 0);
      sequence, updates := 0, [];
      new;
      assert rep == Rep(0, []);
    }

    method SetSequence(n: nat)
      requires Ok() && n < LONG
      modifies this
      ensures Ok() && sequence == n && updates == old(updates)
    {
      hide Holds, EncodeFixed64;
      HoldsSequence(rep, sequence, updates, n);
      rep := EncodeFixed64(n) + rep[8..];
      sequence := n;
    }

    method PutUpdate(key: Bytes, value: Bytes)
      requires Ok() && Fits(Put(key, value))
      modifies this
      ensures Ok() && updates == old(updates) + [Put(key, value)] && sequence == old(sequence)
    {
      hide Holds, Patched, CountOf, Prefixed, Records;
      ghost var u := Put(key, value);
      HoldsHeader(rep, sequence, updates);
      HoldsMore(rep, sequence, updates, [u], CountOf(rep) + 1);
      OneRecord(u);
      rep := Patched(rep, CountOf(rep) + 1);
      ghost var patched := rep;
      rep := rep + [1];
      rep := rep + Prefixed(key);
      rep := rep + Prefixed(value);
      assert rep == patched + ([1] + Prefixed(key) + Prefixed(value));
      updates := updates + [u];
    }

    method DeleteKey(key: Bytes)
      requires Ok() && Fits(Delete(key))
      modifies this
      ensures Ok() && updates == old(updates) + [Delete(key)] && sequence == old(sequence)
    {
      hide Holds, Patched, CountOf, Prefixed, Records;
      ghost var u := Delete(key);
      HoldsHeader(rep, sequence, updates);
      HoldsMore(rep, sequence, updates, [u], CountOf(rep) + 1);
      OneRecord(u);
      rep := Patched(rep, CountOf(rep) + 1);
      ghost var patched := rep;
      rep := rep + [0];
      rep := rep + Prefixed(key);
      assert rep == patched + ([0] + Prefixed(key));
      updates := updates + [u];
    }

    method Append(source: WriteBatch)
      requires Ok() && source.Ok() && source != this
      modifies this
      ensures Ok() && updates == old(updates) + source.updates && sequence == old(sequence)
    {
      hide Holds, Patched, CountOf, Records, Fits;
      HoldsHeader(rep, sequence, updates);
      HoldsHeader(source.rep, source.sequence, source.updates);
      CountsAdd(|updates|, |source.updates|);
      HoldsMore(rep, sequence, updates, source.updates, CountOf(rep) + CountOf(source.rep));
      rep := Patched(rep, CountOf(rep) + CountOf(source.rep));
      rep := rep + source.rep[BATCH_HEADER..];
      updates := updates + source.updates;
    }
  }

  lemma CountsAdd(n: nat, m: nat)
    ensures (n % WORD + m % WORD) % WORD == (n + m) % WORD
  {
  }

  /** Iterate: hands the updates on one by one, and says whether the batch was well formed and its count right. */
  method Iterate(rep: Bytes) returns (ok: bool, found: seq<Update>)
    ensures |rep| < BATCH_HEADER ==> !ok && found == []
    ensures |rep| >= BATCH_HEADER ==>
      var (whole, us) := Replay(rep[BATCH_HEADER..]);
      found == us && ok == (whole && |us| == CountOf(rep))
  {
    hide ParseOne, CountOf;
    found := [];
    if |rep| < BATCH_HEADER { return false, []; }
    var input := rep[BATCH_HEADER..];
    while |input| > 0
      invariant var (whole, us) := Replay(rep[BATCH_HEADER..]);
        var rest := Replay(input);
        whole == rest.0 && us == found + rest.1
      decreases |input|
    {
      var parsed := ParseOne(input);
      if parsed.Malformed? { return false, found; }
      found := found + [parsed.update];
      input := input[parsed.size..];
    }
    ok := |found| == CountOf(rep);
  }

  /** InsertInto: the memtable gets the updates under consecutive sequence numbers. */
  method InsertInto(rep: Bytes) returns (ok: bool, entries: seq<Numbered>)
    requires |rep| >= BATCH_HEADER
    ensures var (whole, us) := Replay(rep[BATCH_HEADER..]);
      entries == Number(SequenceOf(rep), us) && ok == (whole && |us| == CountOf(rep))
  {
    hide Replay, SequenceOf, CountOf;
    var found;
    ok, found := Iterate(rep);
    var sequence := SequenceOf(rep);
    entries := [];
    for i := 0 to |found|
      invariant entries == Number(SequenceOf(rep), found[..i]) && sequence == SequenceOf(rep) + i
    {
      entries := entries + [Numbered(sequence, found[i])];
      sequence := sequence + 1;
      assert found[..i + 1] == found[..i] + [found[i]];
    }
    assert found[..|found|] == found;
  }
}
