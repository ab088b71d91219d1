/** Bloom filters (util/bloom.cc), over an arbitrary 32-bit hash of keys. */
module Bloom {
  import opened Keys
  import opened Coding

  // ---- Bits of a byte string.

  predicate HasBit(x: nat, b: nat) {
    if b == 0 then x % 2 == 1 else HasBit(x / 2, b - 1)
  }

  // x | (1 << b)
  function WithBit(x: nat, b: nat): nat {
    if b == 0 then x / 2 * 2 + 1 else x % 2 + 2 * WithBit(x / 2, b - 1)
  }

  lemma {:induction false} WithBitBits(x: nat, b: nat, c: nat)
    ensures HasBit(WithBit(x, b), c) <==> b == c || HasBit(x, c)
  {
    if b > 0 && c > 0 { WithBitBits(x / 2, b - 1, c - 1); }
  }

  function Power(n: nat): (r: nat)
    ensures r > 0
  {
    if n == 0 then 1 else 2 * Power(n - 1)
  }

  lemma {:induction false} WithBitFits(x: nat, b: nat, n: nat)
    requires x < Power(n) && b < n
    ensures WithBit(x, b) < Power(n)
  {
    if b > 0 { WithBitFits(x / 2, b - 1, n - 1); }
  }

  predicate BitSet(field: Bytes, p: nat)
    requires p < 8 * |field|
  {
    HasBit(field[p / 8], p % 8)
  }

  /** field[p / 8] |= 1 << (p % 8) */
  function SetBit(field: Bytes, p: nat): (r: Bytes)
    requires p < 8 * |field|
    ensures |r| == |field|
  {
    WithBitFits(field[p / 8], p % 8, 8);
    field[p / 8 := WithBit(field[p / 8], p % 8)]
  }

  lemma SetBitSets(field: Bytes, p: nat, q: nat)
    requires p < 8 * |field| && q < 8 * |field|
    ensures BitSet(SetBit(field, p), q) <==> p == q || BitSet(field, q)
  {
    if p / 8 == q / 8 { WithBitBits(field[p / 8], p % 8, q % 8); }
  }

  // ---- The filter.

  // Circular shift.
  function Delta(h: Word): Word {
    h / 0x2_0000 + h % 0x2_0000 * 0x8000
  }

  // Double hashing: the hash after j rounds.
  function Probe(h: Word, delta: Word, j: nat): Word {
    if j == 0 then h else (Probe(h, delta, j - 1) + delta) % WORD
  }

  // The bit a hash selects among n bytes.
  function Slot(h: Word, n: nat): (p: nat)
    requires n > 0
    ensures p < 8 * n
  {
    h % (8 * n)
  }

  ghost predicate AllSet(field: Bytes, h: Word, delta: Word, k: nat)
    requires |field| > 0
  {
    forall j :: 0 <= j < k ==> BitSet(field, Slot(Probe(h, delta, j), |field|))
  }

  /** What KeyMayMatch answers: no for a filter too short to be one, yes for an encoding it does not know. */
  ghost predicate MayMatch(hash: Bytes -> Word, key: Bytes, filter: Bytes) {
    && |filter| >= 2
    && var field, k := filter[..|filter| - 1], filter[|filter| - 1];
    k > 30 || AllSet(field, hash(key), Delta(hash(key)), k)
  }

  // One more probe: its bit decides whether all so far are set, and whether all can be.
  lemma OneProbe(field: Bytes, h: Word, delta: Word, j: nat, k: nat)
    requires |field| > 0 && j < k
    ensures Probe(h, delta, j + 1) == (Probe(h, delta, j) + delta) % WORD
    ensures var bit := BitSet(field, Slot(Probe(h, delta, j), |field|));
      (AllSet(field, h, delta, j) && bit ==> AllSet(field, h, delta, j + 1)) && (!bit ==> !AllSet(field, h, delta, k))
  {
    hide BitSet, Slot;
  }

  lemma FirstProbe(field: Bytes, h: Word, delta: Word)
    requires |field| > 0
    ensures Probe(h, delta, 0) == h && AllSet(field, h, delta, 0)
  {
  }

  lemma BitOf(filter: Bytes, p: nat)
    requires |filter| > 0 && p < 8 * (|filter| - 1)
    ensures BitSet(filter[..|filter| - 1], p) <==> HasBit(filter[p / 8], p % 8)
  {
  }

  method KeyMayMatch(hash: Bytes -> Word, key: Bytes, filter: Bytes) returns (match_: bool)
    ensures match_ <==> MayMatch(hash, key, filter)
  {
    var len := |filter|;
    if len < 2 { return false; }
    hide Slot, Delta, BitSet, HasBit, AllSet, Probe;
    ghost var field := filter[..len - 1];
    var k := filter[len - 1];
    if k > 30 { return true; }
    var h := hash(key);
    var delta := Delta(h);
    FirstProbe(field, h, delta);
    for j := 0 to k
      invariant h == Probe(hash(key), delta, j) && AllSet(field, hash(key), delta, j)
    {
      var bitpos := Slot(h, len - 1);
      BitOf(filter, bitpos);
      OneProbe(field, hash(key), delta, j, k);
      if !HasBit(filter[bitpos / 8], bitpos % 8) { return false; }
      h := (h + delta) % WORD;
    }
    return true;
  }

  /** The number of rounds for a filter, 0.69 (near ln 2) times the bits per key, within 1 and 30. */
  function Rounds(bitsPerKey: nat): (k: Byte)
    ensures 1 <= k <= 30
  {
    var k := bitsPerKey * 69 / 100;
    if k < 1 then 1 else if k > 30 then 30 else k
  }

  // ---- What a filter holds.

  // One of the k rounds selects bit q among n bytes.
  ghost predicate Probed(h: Word, k: nat, n: nat, q: nat)
    requires n > 0
  {
    exists j :: 0 <= j < k && q == Slot(Probe(h, Delta(h), j), n)
  }

  ghost predicate Marked(hash: Bytes -> Word, keys: seq<Bytes>, k: nat, n: nat, q: nat)
    requires n > 0
  {
    exists m :: 0 <= m < |keys| && Probed(hash(keys[m]), k, n, q)
  }

  /** The bits set are the keys' bits and no others. */
  ghost predicate Holds(field: Bytes, hash: Bytes -> Word, keys: seq<Bytes>, k: nat)
    requires |field| > 0
  {
    forall q :: 0 <= q < 8 * |field| ==> (BitSet(field, q) <==> Marked(hash, keys, k, |field|, q))
  }

  lemma OneMoreKey(hash: Bytes -> Word, keys: seq<Bytes>, key: Bytes, k: nat, n: nat, q: nat)
    requires n > 0
    ensures Marked(hash, keys + [key], k, n, q) <==> Marked(hash, keys, k, n, q) || Probed(hash(key), k, n, q)
  {
    hide Probed;
    var more := keys + [key];
    if Marked(hash, keys, k, n, q) {
      var m :| 0 <= m < |keys| && Probed(hash(keys[m]), k, n, q);
      assert more[m] == keys[m];
    }
    assert more[|keys|] == key;
  }

  lemma OneMoreRound(h: Word, j: nat, n: nat, q: nat)
    requires n > 0
    ensures Probed(h, j + 1, n, q) <==> Probed(h, j, n, q) || q == Slot(Probe(h, Delta(h), j), n)
  {
    hide Slot, Delta, Probe;
  }

  lemma {:induction false} NoBits(b: nat)
    ensures !HasBit(0, b)
  {
    if b > 0 { NoBits(b - 1); }
  }

  /** The bytes of a filter's bit field: the bits asked for, at least 64, rounded up. */
  function FieldSize(n: nat, bitsPerKey: nat): nat {
    ((if n * bitsPerKey < 64 then 64 else n * bitsPerKey) + 7) / 8
  }

  /** Every bit the key would set was set for one of the keys. */
  ghost predicate Covered(hash: Bytes -> Word, keys: seq<Bytes>, bitsPerKey: nat, key: Bytes) {
    var n, k := FieldSize(|keys|, bitsPerKey), Rounds(bitsPerKey);
    n > 0 && forall j :: 0 <= j < k ==> Marked(hash, keys, k, n, Slot(Probe(hash(key), Delta(hash(key)), j), n))
  }

  lemma MatchIffCovered(hash: Bytes -> Word, keys: seq<Bytes>, bitsPerKey: nat, key: Bytes, field: Bytes, filter: Bytes)
    requires |field| == FieldSize(|keys|, bitsPerKey) > 0 && Holds(field, hash, keys, Rounds(bitsPerKey))
    requires filter == field + [Rounds(bitsPerKey)]
    ensures MayMatch(hash, key, filter) <==> Covered(hash, keys, bitsPerKey, key)
  {
    hide BitSet, Marked, Slot, Probe, Delta, Rounds, FieldSize;
    assert filter[..|filter| - 1] == field;
  }

  lemma KeyCovered(hash: Bytes -> Word, keys: seq<Bytes>, bitsPerKey: nat, key: Bytes)
    requires key in keys
    ensures Covered(hash, keys, bitsPerKey, key)
  {
    hide Slot, Probe, Delta, Rounds;
    var m :| 0 <= m < |keys| && keys[m] == key;
    var n, k, h := FieldSize(|keys|, bitsPerKey), Rounds(bitsPerKey), hash(key);
    forall j | 0 <= j < k ensures Marked(hash, keys, k, n, Slot(Probe(h, Delta(h), j), n)) {
      assert Probed(hash(keys[m]), k, n, Slot(Probe(h, Delta(h), j), n));
    }
  }

  /** Appends a filter of exactly the keys' bits, which matches every one of them and nothing with any other bit. */
  method CreateFilter(hash: Bytes -> Word, bitsPerKey: nat, keys: seq<Bytes>, dst: Bytes) returns (r: Bytes)
    ensures |r| == |dst| + FieldSize(|keys|, bitsPerKey) + 1 >= |dst| + 9 && dst == r[..|dst|]
    ensures r[|r| - 1] == Rounds(bitsPerKey) && Holds(r[|dst|..|r| - 1], hash, keys, Rounds(bitsPerKey))
    ensures forall key :: key in keys ==> MayMatch(hash, key, r[|dst|..])
    ensures forall key :: MayMatch(hash, key, r[|dst|..]) <==> Covered(hash, keys, bitsPerKey, key)
  {
    hide Holds, AllSet, Rounds, BitSet, Covered, MayMatch;
    var bits := |keys| * bitsPerKey;
    if bits < 64 { bits := 64; }
    var bytes := (bits + 7) / 8;
    bits := bytes * 8;
    var k := Rounds(bitsPerKey);
    var field: Bytes := seq(bytes, _ => 0);
    NothingHeld(field, hash, k);
    for i := 0 to |keys|
      invariant |field| == bytes && Holds(field, hash, keys[..i], k)
    {
      field := AddKey(hash, keys[i], k, field, keys[..i]);
      assert keys[..i + 1] == keys[..i] + [keys[i]];
    }
    assert keys[..|keys|] == keys;
    r := dst + (field + [k]);
    ghost var filter := r[|dst|..];
    assert filter == field + [k] && filter[..|filter| - 1] == field && r[|dst|..|r| - 1] == field;
    forall key ensures MayMatch(hash, key, filter) <==> Covered(hash, keys, bitsPerKey, key) {
      MatchIffCovered(hash, keys, bitsPerKey, key, field, filter);
    }
    forall key | key in keys ensures Covered(hash, keys, bitsPerKey, key) { KeyCovered(hash, keys, bitsPerKey, key); }
  }

  lemma NothingHeld(field: Bytes, hash: Bytes -> Word, k: nat)
    requires |field| > 0 && forall i :: 0 <= i < |field| ==> field[i] == 0
    ensures Holds(field, hash, [], k)
  {
    forall q | 0 <= q < 8 * |field| ensures !BitSet(field, q) { NoBits(q % 8); }
  }

  // What is set once a key's first j rounds are.
  ghost predicate Added(before: Bytes, field: Bytes, h: Word, j: nat) {
    && |field| == |before| > 0
    && forall q :: 0 <= q < 8 * |field| ==> (BitSet(field, q) <==> BitSet(before, q) || Probed(h, j, |field|, q))
  }

  lemma SetBitAdds(before: Bytes, field: Bytes, h: Word, j: nat)
    requires Added(before, field, h, j)
    ensures Added(before, SetBit(field, Slot(Probe(h, Delta(h), j), |field|)), h, j + 1)
  {
    hide BitSet, SetBit, Probed, Slot, Delta, Probe;
    var p := Slot(Probe(h, Delta(h), j), |field|);
    forall q | 0 <= q < 8 * |field|
      ensures BitSet(SetBit(field, p), q) <==> BitSet(before, q) || Probed(h, j + 1, |field|, q)
    {
      SetBitSets(field, p, q);
      OneMoreRound(h, j, |field|, q);
    }
  }

  lemma AddedHolds(hash: Bytes -> Word, keys: seq<Bytes>, key: Bytes, k: nat, before: Bytes, field: Bytes)
    requires Added(before, field, hash(key), k) && Holds(before, hash, keys, k)
    ensures Holds(field, hash, keys + [key], k)
  {
    hide BitSet, Probed, Marked;
    forall q | 0 <= q < 8 * |field| ensures BitSet(field, q) <==> Marked(hash, keys + [key], k, |field|, q) {
      OneMoreKey(hash, keys, key, k, |field|, q);
    }
  }

  /** Sets a key's bits and no others. */
  method AddKey(hash: Bytes -> Word, key: Bytes, k: nat, before: Bytes, ghost others: seq<Bytes>) returns (field: Bytes)
    requires |before| > 0 && Holds(before, hash, others, k)
    ensures |field| == |before| && Holds(field, hash, others + [key], k)
  {
    hide BitSet, SetBit, Delta, Slot, Holds, Probed;
    field := before;
    var h := hash(key);
    var delta := Delta(h);
    NoRound(before, h);
    for j := 0 to k
      invariant h == Probe(hash(key), delta, j) && Added(before, field, hash(key), j)
    {
      var bitpos := Slot(h, |field|);
      SetBitAdds(before, field, hash(key), j);
      field := SetBit(field, bitpos);
      h := (h + delta) % WORD;
    }
    AddedHolds(hash, others, key, k, before, field);
  }

  lemma NoRound(before: Bytes, h: Word)
    requires |before| > 0
    ensures Added(before, before, h, 0)
  {
  }
}
