/** What replaying a batch accepts, of any bytes at all. */
module BatchLaws {
  import opened Keys
  import opened Coding
  import opened Batch

  // ---- Varints and slices, by their own bytes.

  lemma {:induction false} SevensLocal(p: Bytes, rest: Bytes, n: nat)
    requires Sevens(p, n).Good?
    ensures Sevens(p + rest, n) == Sevens(p, n)
  {
    if p[0] >= 128 {
      SevensLocal(p[1..], rest, n - 1);
      assert (p + rest)[1..] == p[1..] + rest;
    }
  }

  lemma {:induction false} SevensPrefix(b: Bytes, n: nat)
    requires Sevens(b, n).Good?
    ensures var size := Sevens(b, n).size;
      size <= |b| && Sevens(b[..size], n) == Sevens(b, n)
  {
    var size := Sevens(b, n).size;
    if b[0] >= 128 {
      SevensPrefix(b[1..], n - 1);
      assert b[..size][1..] == b[1..][..size - 1];
    }
  }

  /** Some varint that gives the length, perhaps longer than need be, and the bytes. */
  ghost predicate PrefixedAs(b: Bytes, data: Bytes) {
    exists p :: DecodeVarint32(p) == Good(|data|, |p|) && b == p + data
  }

  lemma PrefixedReads(b: Bytes, data: Bytes, rest: Bytes)
    requires PrefixedAs(b, data)
    ensures GetPrefixed(b + rest) == Slice(data, |b|)
  {
    var p :| DecodeVarint32(p) == Good(|data|, |p|) && b == p + data;
    SevensLocal(p, data + rest, 5);
    assert b + rest == p + (data + rest);
    hide Sevens;
    assert (b + rest)[|p|..|p| + |data|] == data;
  }

  lemma ReadsPrefixed(b: Bytes)
    requires GetPrefixed(b).Slice?
    ensures var r := GetPrefixed(b);
      r.size <= |b| && PrefixedAs(b[..r.size], r.data)
  {
    var r := GetPrefixed(b);
    SevensPrefix(b, 5);
    hide Sevens;
    var size := DecodeVarint32(b).size;
    assert DecodeVarint32(b[..size]) == Good(|r.data|, |b[..size]|);
    assert b[..r.size] == b[..size] + r.data;
  }

  // ---- Records.

  /** Bytes of one update: tag 1 with key and value, or tag 0 with a key. */
  ghost predicate Encodes(b: Bytes, u: Update) {
    match u
    case Put(key, value) => exists k, v :: PrefixedAs(k, key) && PrefixedAs(v, value) && b == [1] + k + v
    case Delete(key) => exists k :: PrefixedAs(k, key) && b == [0] + k
  }

  lemma EncodedParses(b: Bytes, u: Update, rest: Bytes)
    requires Encodes(b, u)
    ensures ParseOne(b + rest) == Parsed(u, |b|)
  {
    hide PrefixedAs, GetPrefixed;
    match u
    case Put(key, value) =>
      var k, v :| PrefixedAs(k, key) && PrefixedAs(v, value) && b == [1] + k + v;
      PrefixedReads(k, key, v + rest);
      PrefixedReads(v, value, rest);
      assert (b + rest)[1..] == k + (v + rest) && (b + rest)[1 + |k|..] == v + rest;
    case Delete(key) =>
      var k :| PrefixedAs(k, key) && b == [0] + k;
      PrefixedReads(k, key, rest);
      assert (b + rest)[1..] == k + rest;
  }

  lemma ParsedEncodes(b: Bytes)
    requires |b| > 0 && ParseOne(b).Parsed?
    ensures var r := ParseOne(b);
      r.size <= |b| && Encodes(b[..r.size], r.update)
  {
    hide PrefixedAs, GetPrefixed;
    var r := ParseOne(b);
    ReadsPrefixed(b[1..]);
    var n := GetPrefixed(b[1..]).size;
    var k := b[1..][..n];
    assert k == b[1..1 + n];
    if b[0] == 1 {
      ReadsPrefixed(b[1 + n..]);
      var v := b[1 + n..][..r.size - 1 - n];
      assert b[..r.size] == [1] + k + v;
    } else {
      assert b[..r.size] == [0] + k;
    }
  }

  function Joined(pieces: seq<Bytes>): Bytes {
    if |pieces| == 0 then [] else pieces[0] + Joined(pieces[1..])
  }

  ghost predicate AllEncode(pieces: seq<Bytes>, us: seq<Update>) {
    |pieces| == |us| && forall i :: 0 <= i < |us| ==> Encodes(pieces[i], us[i])
  }

  /** Bytes are accepted only if they are, one after the other, the bytes of the updates they give. */
  lemma {:induction false} AcceptedEncodes(b: Bytes) returns (pieces: seq<Bytes>)
    requires Replay(b).0
    ensures AllEncode(pieces, Replay(b).1) && Joined(pieces) == b
    decreases |b|
  {
    hide Encodes, ParseOne;
    if |b| == 0 {
      pieces := [];
    } else {
      ParsedEncodes(b);
      var size := ParseOne(b).size;
      var rest := AcceptedEncodes(b[size..]);
      pieces := [b[..size]] + rest;
      assert pieces[1..] == rest && b == b[..size] + b[size..];
    }
  }

  /** And all such bytes are accepted. */
  lemma {:induction false} EncodedAccepted(pieces: seq<Bytes>, us: seq<Update>)
    requires AllEncode(pieces, us)
    ensures Replay(Joined(pieces)) == (true, us)
    decreases |us|
  {
    hide Encodes, ParseOne;
    if |us| > 0 {
      var rest := Joined(pieces[1..]);
      EncodedAccepted(pieces[1..], us[1..]);
      EncodedParses(pieces[0], us[0], rest);
      EncodedSome(pieces[0], us[0]);
      assert (pieces[0] + rest)[|pieces[0]|..] == rest;
      assert [us[0]] + us[1..] == us;
    }
  }

  lemma EncodedSome(b: Bytes, u: Update)
    requires Encodes(b, u)
    ensures |b| > 0
  {
  }
}
