/**
 Prefix-compressed blocks with restart points (table/block_builder.cc, table/block.cc): the
 builder, and the iterator that walks and searches a finished block both ways.
 */
module Block {
  import opened Keys
  import opened Coding

  datatype Pair = Pair(key: Bytes, value: Bytes)

  // ---- One entry.

  function Prefix(shared: nat, key: Bytes, value: Bytes): (b: Bytes)
    requires shared <= |key|
    ensures |b| >= 3
  {
    EncodeVarint(shared) + EncodeVarint(|key| - shared) + EncodeVarint(|value|)
  }

  function Encoded(shared: nat, key: Bytes, value: Bytes): (b: Bytes)
    requires shared <= |key|
    ensures |b| == |Prefix(shared, key, value)| + (|key| - shared) + |value|
  {
    Prefix(shared, key, value) + key[shared..] + value
  }

  datatype Header = Header(shared: nat, nonShared: nat, valueLength: nat, size: nat)

  function Varints(b: Bytes): (r: Option<Header>)
    ensures r.Some? ==> r.value.size <= |b|
  {
    match DecodeVarint32(b)
    case Bad => None
    case Good(shared, m) =>
      match DecodeVarint32(b[m..])
      case Bad => None
      case Good(nonShared, n) =>
        match DecodeVarint32(b[m + n..])
        case Bad => None
        case Good(valueLength, k) => Some(Header(shared, nonShared, valueLength, m + n + k))
  }

  /** DecodeEntry on what is left of the block, with its fast path and its 32-bit sums. */
  function DecodeEntry(b: Bytes): Option<Header> {
    if |b| < 3 then None
    else
      var h := if b[0] < 128 && b[1] < 128 && b[2] < 128 then Some(Header(b[0], b[1], b[2], 3)) else Varints(b);
      if h.None? || (|b| - h.value.size) % WORD < (h.value.nonShared + h.value.valueLength) % WORD then None else h
  }

  /** One-byte numbers need no varint loop: the shortcut decodes what the loop decodes. */
  lemma FastIsSlow(b: Bytes)
    requires |b| >= 3 && b[0] < 128 && b[1] < 128 && b[2] < 128
    ensures Varints(b) == Some(Header(b[0], b[1], b[2], 3))
  {
  }

  /** An entry decodes to its parts, whatever follows it. */
  lemma EntryRoundTrip(shared: nat, key: Bytes, value: Bytes, rest: Bytes)
    requires shared <= |key| < WORD && |value| < WORD
    requires |Encoded(shared, key, value) + rest| < WORD
    ensures DecodeEntry(Encoded(shared, key, value) + rest)
         == Some(Header(shared, |key| - shared, |value|, |Prefix(shared, key, value)|))
  {
    hide EncodeVarint, Varints;
    var s, n, v := EncodeVarint(shared), EncodeVarint(|key| - shared), EncodeVarint(|value|);
    var b := Encoded(shared, key, value) + rest;
    VarintsRoundTrip(shared, |key| - shared, |value|, key[shared..] + value + rest);
    Regroup(s, n, v, key[shared..], value, rest);
    if b[0] < 128 && b[1] < 128 && b[2] < 128 { FastIsSlow(b); }
  }

  lemma Regroup(s: Bytes, n: Bytes, v: Bytes, k: Bytes, value: Bytes, rest: Bytes)
    ensures s + n + v + k + value + rest == s + (n + (v + (k + value + rest)))
  {
  }

  lemma VarintsRoundTrip(shared: Word, nonShared: Word, valueLength: Word, rest: Bytes)
    ensures var s, n, v := EncodeVarint(shared), EncodeVarint(nonShared), EncodeVarint(valueLength);
      Varints(s + (n + (v + rest))) == Some(Header(shared, nonShared, valueLength, |s| + |n| + |v|))
  {
    hide *;
    var s, n, v := EncodeVarint(shared), EncodeVarint(nonShared), EncodeVarint(valueLength);
    var b := s + (n + (v + rest));
    OneVarint(shared, n + (v + rest), b);
    OneVarint(nonShared, v + rest, b[|s|..]);
    assert b[|s|..][|n|..] == b[|s| + |n|..];
    OneVarint(valueLength, rest, b[|s| + |n|..]);
    ThreeVarints(b, shared, |s|, nonShared, |n|, valueLength, |v|);
  }

  lemma ThreeVarints(b: Bytes, shared: nat, m: nat, nonShared: nat, n: nat, valueLength: nat, k: nat)
    requires m + n <= |b| && DecodeVarint32(b) == Good(shared, m) && DecodeVarint32(b[m..]) == Good(nonShared, n)
    requires DecodeVarint32(b[m + n..]) == Good(valueLength, k)
    ensures Varints(b) == Some(Header(shared, nonShared, valueLength, m + n + k))
  {
  }

  lemma OneVarint(v: Word, rest: Bytes, b: Bytes)
    requires b == EncodeVarint(v) + rest
    ensures DecodeVarint32(b) == Good(v, |EncodeVarint(v)|)
    ensures b[|EncodeVarint(v)|..] == rest
  {
    hide DecodeVarint32, EncodeVarint;
    VarintRoundTrip(v, rest);
  }

  // ---- A block's entries, laid out.

  /**
   The pairs in order, the offset of each (and of the end), how many key bytes each shares with the one before, and
   which of them stand at a restart point.
   */
  datatype Layout = Layout(pairs: seq<Pair>, offsets: seq<nat>, shares: seq<nat>, starts: seq<nat>)

  // Entry i holds its pair, less what its key shares with the key before.
  ghost predicate EntryIs(l: Layout, data: Bytes, i: nat)
    requires i < |l.pairs| == |l.shares| && |l.offsets| == |l.pairs| + 1
  {
    var shared, key := l.shares[i], l.pairs[i].key;
    && shared <= |key|
    && (shared > 0 ==> i > 0 && shared <= |l.pairs[i - 1].key| && l.pairs[i - 1].key[..shared] == key[..shared])
    && l.offsets[i] <= l.offsets[i + 1] <= |data|
    && data[l.offsets[i]..l.offsets[i + 1]] == Encoded(shared, key, l.pairs[i].value)
  }

  ghost predicate Entries(l: Layout, data: Bytes) {
    && |l.offsets| == |l.pairs| + 1 && |l.shares| == |l.pairs|
    && l.offsets[0] == 0 && l.offsets[|l.pairs|] == |data|
    && (forall i, j :: 0 <= i < j < |l.offsets| ==> l.offsets[i] < l.offsets[j])
    && (forall i :: 0 <= i < |l.pairs| ==> EntryIs(l, data, i))
  }

  ghost predicate Restarts(l: Layout) {
    && |l.starts| > 0 && l.starts[0] == 0
    && (forall i, j :: 0 <= i < j < |l.starts| ==> l.starts[i] < l.starts[j])
    && (forall j :: 0 < j < |l.starts| ==> l.starts[j] < |l.pairs|)
    && |l.shares| == |l.pairs|
    && (forall j :: 0 <= j < |l.starts| && l.starts[j] < |l.pairs| ==> l.shares[l.starts[j]] == 0)
  }

  ghost predicate RestartsAt(l: Layout, restarts: seq<nat>) {
    && |restarts| == |l.starts|
    && (forall j :: 0 <= j < |restarts| ==> l.starts[j] < |l.offsets| && restarts[j] == l.offsets[l.starts[j]])
  }

  predicate IsCommonPrefix(a: Bytes, b: Bytes, n: nat) {
    n <= |a| && n <= |b| && a[..n] == b[..n] && (n < |a| && n < |b| ==> a[n] != b[n])
  }

  // The layout with one more entry, at a new restart point or not.
  function Extended(l: Layout, pair: Pair, shared: nat, restart: bool, end: nat): Layout {
    Layout(l.pairs + [pair], l.offsets + [end], l.shares + [shared],
           if restart then l.starts + [|l.pairs|] else l.starts)
  }

  lemma ExtendEntries(l: Layout, data: Bytes, pair: Pair, shared: nat, restart: bool)
    requires Entries(l, data) && shared <= |pair.key|
    requires shared > 0 ==> |l.pairs| > 0
    requires shared > 0 ==>
      var last := l.pairs[|l.pairs| - 1].key; shared <= |last| && last[..shared] == pair.key[..shared]
    ensures var more := data + Encoded(shared, pair.key, pair.value);
      Entries(Extended(l, pair, shared, restart, |more|), more)
  {
    hide Prefix, Encoded;
    var entry := Encoded(shared, pair.key, pair.value);
    var more := data + entry;
    var e := Extended(l, pair, shared, restart, |more|);
    var n := |l.pairs|;
    forall i | 0 <= i < |e.pairs|
      ensures EntryIs(e, more, i)
    {
      if i < n {
        assert EntryIs(l, data, i);
        assert more[e.offsets[i]..e.offsets[i + 1]] == data[l.offsets[i]..l.offsets[i + 1]];
      } else {
        assert more[e.offsets[n]..e.offsets[n + 1]] == entry;
      }
    }
  }

  // A restart point every `interval` entries, and `counter` entries since the last.
  ghost predicate Spaced(l: Layout, interval: nat, counter: nat) {
    && interval >= 1 && |l.starts| > 0
    && (forall j :: 0 < j < |l.starts| ==> l.starts[j] == l.starts[j - 1] + interval)
    && counter == |l.pairs| - l.starts[|l.starts| - 1] <= interval
  }

  ghost predicate Built(interval: nat, buffer: Bytes, restarts: seq<nat>, counter: nat, lastKey: Bytes, l: Layout) {
    && Entries(l, buffer) && Restarts(l) && RestartsAt(l, restarts)
    && Spaced(l, interval, counter)
    && lastKey == (if |l.pairs| == 0 then [] else l.pairs[|l.pairs| - 1].key)
  }

  lemma ExtendedLast(l: Layout, pair: Pair, shared: nat, restart: bool, end: nat)
    ensures var e := Extended(l, pair, shared, restart, end);
      e.pairs == l.pairs + [pair] && |e.shares| > 0 && e.shares[|e.shares| - 1] == shared
  {
  }

  lemma ExtendRestarts(l: Layout, pair: Pair, shared: nat, restart: bool, end: nat)
    requires Restarts(l)
    requires restart ==> |l.pairs| > l.starts[|l.starts| - 1]
    requires restart || |l.pairs| == 0 ==> shared == 0
    ensures Restarts(Extended(l, pair, shared, restart, end))
  {
    var e := Extended(l, pair, shared, restart, end);
    forall j | 0 <= j < |e.starts| && e.starts[j] < |e.pairs|
      ensures e.shares[e.starts[j]] == 0
    {
      if j < |l.starts| && l.starts[j] < |l.pairs| { assert l.shares[l.starts[j]] == 0; }
    }
  }

  lemma ExtendRestartsAt(l: Layout, restarts: seq<nat>, pair: Pair, shared: nat, restart: bool, end: nat)
    requires RestartsAt(l, restarts) && |l.offsets| == |l.pairs| + 1
    ensures RestartsAt(Extended(l, pair, shared, restart, end),
                       if restart then restarts + [l.offsets[|l.pairs|]] else restarts)
  {
  }

  lemma ExtendSpaced(l: Layout, interval: nat, counter: nat, pair: Pair, shared: nat, restart: bool, end: nat)
    requires Spaced(l, interval, counter) && restart == (counter == interval)
    ensures Spaced(Extended(l, pair, shared, restart, end), interval, if restart then 1 else counter + 1)
  {
  }

  lemma BuiltAdd(interval: nat, buffer: Bytes, restarts: seq<nat>, counter: nat, lastKey: Bytes, l: Layout,
                 pair: Pair, shared: nat)
    requires Built(interval, buffer, restarts, counter, lastKey, l)
    requires if counter < interval then IsCommonPrefix(lastKey, pair.key, shared) else shared == 0
    ensures shared <= |pair.key| && shared <= |lastKey| && lastKey[..shared] == pair.key[..shared]
    ensures var restart, more := counter == interval, buffer + Encoded(shared, pair.key, pair.value);
      Built(interval, more, if restart then restarts + [|buffer|] else restarts,
            if restart then 1 else counter + 1, pair.key, Extended(l, pair, shared, restart, |more|))
  {
    hide Encoded, EntryIs, RestartsAt;
    var restart, more := counter == interval, buffer + Encoded(shared, pair.key, pair.value);
    ExtendEntries(l, buffer, pair, shared, restart);
    ExtendRestarts(l, pair, shared, restart, |more|);
    ExtendRestartsAt(l, restarts, pair, shared, restart, |more|);
    ExtendSpaced(l, interval, counter, pair, shared, restart, |more|);
  }

  class Builder {
    const interval: nat
    var buffer: Bytes
    var restarts: seq<nat>
    var counter: nat
    var lastKey: Bytes
    ghost var l: Layout

    ghost predicate Ok()
      reads this
    {
      Built(interval, buffer, restarts, counter, lastKey, l)
    }

    constructor (interval: nat)
      requires interval >= 1
      ensures Ok() && l.pairs == []
    {
      this.interval := interval;
      buffer, restarts, counter, lastKey := [], [0], 0, [];
      l := Layout([], [0], [], [0]);
    }

    method Add(key: Bytes, value: Bytes)
      requires Ok()
      modifies this
      ensures Ok() && l.pairs == old(l.pairs) + [Pair(key, value)]
      ensures |l.shares| > 0 && var shared := l.shares[|l.shares| - 1];
        if old(counter) < interval then IsCommonPrefix(old(lastKey), key, shared) else shared == 0
    {
      hide *;
      Unfold();
      var shared := 0;
      ghost var restart := counter == interval;
      ghost var pair := Pair(key, value);
      if counter < interval {
        shared := SharedBytes(lastKey, key);
      }
      BuiltAdd(interval, buffer, restarts, counter, lastKey, l, pair, shared);
      ExtendedLast(l, pair, shared, restart, |buffer + Encoded(shared, key, value)|);
      if !(counter < interval) {
        restarts := restarts + [|buffer|];
        counter := 0;
      }
      AppendEntry(key, value, shared);
      lastKey := lastKey[..shared] + key[shared..];
      assert lastKey == key;
      counter := counter + 1;
      l := Extended(l, pair, shared, restart, |buffer|);
      Unfold();
    }

    lemma Unfold()
      requires Ok() || Built(interval, buffer, restarts, counter, lastKey, l)
      ensures Ok() && Built(interval, buffer, restarts, counter, lastKey, l) && counter <= interval
    {
    }

    method SharedBytes(a: Bytes, b: Bytes) returns (shared: nat)
      ensures IsCommonPrefix(a, b, shared)
    {
      shared := 0;
      var minLength := if |a| < |b| then |a| else |b|;
      while shared < minLength && a[shared] == b[shared]
        invariant shared <= minLength && a[..shared] == b[..shared]
      {
        shared := shared + 1;
      }
    }

    method AppendEntry(key: Bytes, value: Bytes, shared: nat)
      requires shared <= |key|
      modifies this`buffer
      ensures buffer == old(buffer) + Encoded(shared, key, value)
    {
      hide EncodeVarint;
      buffer := buffer + EncodeVarint(shared);
      buffer := buffer + EncodeVarint(|key| - shared);
      buffer := buffer + EncodeVarint(|value|);
      buffer := buffer + key[shared..];
      buffer := buffer + value;
      Regroup(old(buffer), EncodeVarint(shared), EncodeVarint(|key| - shared), EncodeVarint(|value|), key[shared..],
        value);
      assert buffer == old(buffer) + Encoded(shared, key, value) by {
        var s, n, v := EncodeVarint(shared), EncodeVarint(|key| - shared), EncodeVarint(|value|);
        assert s + (n + (v + (key[shared..] + value))) == s + n + v + key[shared..] + value;
      }
    }

    /** The restart array and its length go after the entries. */
    method Finish() returns (contents: Bytes)
      requires Ok()
      modifies this
      ensures contents == old(buffer) + Words(old(restarts)) + EncodeFixed32(Low(|old(restarts)|))
      ensures |contents| < WORD ==> Finished(contents, |old(buffer)|, |old(restarts)|, old(l))
    {
      hide EncodeFixed32, Built;
      if |buffer| + 4 * |restarts| + 4 < WORD {
        FinishedBlock(interval, buffer, restarts, counter, lastKey, l);
      }
      for i := 0 to |restarts|
        invariant restarts == old(restarts) && l == old(l)
        invariant buffer == old(buffer) + Words(restarts[..i])
      {
        WordsAppend(restarts[..i], restarts[i]);
        assert restarts[..i + 1] == restarts[..i] + [restarts[i]];
        buffer := buffer + EncodeFixed32(Low(restarts[i]));
      }
      assert restarts[..|restarts|] == restarts;
      buffer := buffer + EncodeFixed32(Low(|restarts|));
      contents := buffer;
    }
  }

  function RestartPoint(contents: Bytes, limit: nat, j: nat): nat
    requires limit + 4 * j + 4 <= |contents|
  {
    DecodeFixed32(contents[limit + 4 * j..])
  }

  /** Contents that hold a layout: entries up to limit, then num restart points, then num itself. */
  ghost predicate Finished(contents: Bytes, limit: nat, num: nat, l: Layout) {
    && |contents| == limit + 4 * num + 4 < WORD
    && Entries(l, contents[..limit]) && Restarts(l) && num == |l.starts|
    && (forall j :: 0 <= j < num ==>
      l.starts[j] < |l.offsets| && RestartPoint(contents, limit, j) == l.offsets[l.starts[j]])
    && RestartPoint(contents, limit, num) == num
  }

  lemma FinishedBlock(interval: nat, buffer: Bytes, restarts: seq<nat>, counter: nat, lastKey: Bytes, l: Layout)
    requires Built(interval, buffer, restarts, counter, lastKey, l)
    requires |buffer| + 4 * |restarts| + 4 < WORD
    ensures var contents := buffer + Words(restarts) + EncodeFixed32(Low(|restarts|));
      Finished(contents, |buffer|, |restarts|, l)
  {
    hide *;
    var contents := buffer + Words(restarts) + EncodeFixed32(Low(|restarts|));
    assert contents[..|buffer|] == buffer;
    forall j | 0 <= j <= |restarts|
      ensures RestartPoint(contents, |buffer|, j) == Low(if j < |restarts| then restarts[j] else |restarts|)
    {
      RestartBytes(buffer, restarts, j);
    }
    AllFinished(interval, buffer, restarts, counter, lastKey, l, contents);
  }

  lemma AllFinished(interval: nat, buffer: Bytes, restarts: seq<nat>, counter: nat, lastKey: Bytes, l: Layout,
                    contents: Bytes)
    requires Built(interval, buffer, restarts, counter, lastKey, l)
    requires |contents| == |buffer| + 4 * |restarts| + 4 < WORD && contents[..|buffer|] == buffer
    requires forall j :: 0 <= j <= |restarts| ==>
      RestartPoint(contents, |buffer|, j) == Low(if j < |restarts| then restarts[j] else |restarts|)
    ensures Finished(contents, |buffer|, |restarts|, l)
  {
    hide RestartPoint, EntryIs;
    assert forall j :: 0 <= j < |restarts| ==> l.starts[j] < |l.offsets| && restarts[j] == l.offsets[l.starts[j]];
  }

  lemma RestartBytes(buffer: Bytes, restarts: seq<nat>, j: nat)
    requires j <= |restarts|
    ensures var contents := buffer + Words(restarts) + EncodeFixed32(Low(|restarts|));
      RestartPoint(contents, |buffer|, j) == Low(if j < |restarts| then restarts[j] else |restarts|)
  {
    hide EncodeFixed32, DecodeFixed32, Words, Low;
    var contents := buffer + Words(restarts) + EncodeFixed32(Low(|restarts|));
    var all := restarts + [|restarts|];
    WordsAppend(restarts, |restarts|);
    assert contents == buffer + Words(all) + [];
    WordWithin(buffer, all, j, [], contents);
  }

  datatype Opened = Corrupt | Empty | Ready(limit: nat, num: nat)

  /** Block's constructor and NewIterator. */
  function Open(contents: Bytes): Opened {
    if |contents| < 4 then Corrupt
    else
      var num := DecodeFixed32(contents[|contents| - 4..]);
      if num > (|contents| - 4) / 4 then Corrupt
      else if num == 0 then Empty
      else Ready(|contents| - (1 + num) * 4, num)
  }

  lemma OpenFinished(contents: Bytes, limit: nat, num: nat, l: Layout)
    requires Finished(contents, limit, num, l)
    ensures Open(contents) == Ready(limit, num)
  {
  }

  // ---- The iterator.

  /** A key is no longer than the bytes up to its entry's end. */
  lemma {:induction false} KeyFits(l: Layout, data: Bytes, i: nat)
    requires Entries(l, data) && i < |l.pairs|
    ensures |l.pairs[i].key| <= l.offsets[i + 1]
  {
    hide Prefix;
    assert EntryIs(l, data, i);
    if l.shares[i] > 0 { KeyFits(l, data, i - 1); }
  }

  /** Decoding at an entry's offset gives the lengths of its parts, and the parts stand where the lengths say. */
  lemma EntryDecodes(contents: Bytes, limit: nat, num: nat, l: Layout, i: nat)
    requires Finished(contents, limit, num, l) && i < |l.pairs|
    ensures l.offsets[i] < l.offsets[i + 1] <= limit <= |contents|
    ensures l.shares[i] <= |l.pairs[i].key|
    ensures var pair, shared := l.pairs[i], l.shares[i];
      var p := l.offsets[i] + |Prefix(shared, pair.key, pair.value)|;
      var q := p + |pair.key| - shared;
      && DecodeEntry(contents[l.offsets[i]..limit])
         == Some(Header(shared, |pair.key| - shared, |pair.value|, |Prefix(shared, pair.key, pair.value)|))
      && q + |pair.value| == l.offsets[i + 1]
      && contents[p..q] == pair.key[shared..]
      && contents[q..q + |pair.value|] == pair.value
  {
    hide Prefix, DecodeEntry, Restarts, RestartPoint;
    var data, pair, shared := contents[..limit], l.pairs[i], l.shares[i];
    KeyFits(l, data, i);
    assert EntryIs(l, data, i);
    var entry, rest := Encoded(shared, pair.key, pair.value), contents[l.offsets[i + 1]..limit];
    assert data[l.offsets[i]..l.offsets[i + 1]] == contents[l.offsets[i]..l.offsets[i + 1]];
    assert contents[l.offsets[i]..limit] == entry + rest;
    EntryRoundTrip(shared, pair.key, pair.value, rest);
    EntryParts(contents, l.offsets[i], Prefix(shared, pair.key, pair.value), pair.key[shared..], pair.value);
  }

  lemma EntryParts(contents: Bytes, o: nat, prefix: Bytes, k: Bytes, v: Bytes)
    requires o + |prefix| + |k| + |v| <= |contents|
    requires contents[o..o + |prefix| + |k| + |v|] == prefix + k + v
    ensures var p := o + |prefix|; contents[p..p + |k|] == k && contents[p + |k|..p + |k| + |v|] == v
  {
    var whole, p := prefix + k + v, o + |prefix|;
    var n := |whole|;
    forall i | 0 <= i < n ensures contents[o + i] == whole[i] {
      assert contents[o..o + n][i] == whole[i];
    }
    assert forall i :: 0 <= i < |k| ==> contents[p + i] == whole[|prefix| + i] == k[i];
    assert forall i :: 0 <= i < |v| ==> contents[p + |k| + i] == whole[|prefix| + |k| + i] == v[i];
  }

  // Ready to parse entry i: `next` is its offset and the key so far has the bytes it shares.
  ghost predicate Primed(l: Layout, i: nat, restartIndex: nat, key: Bytes, next: nat)
    requires |l.offsets| == |l.pairs| + 1 && |l.shares| == |l.pairs|
  {
    && i <= |l.pairs| && next == l.offsets[i]
    && restartIndex < |l.starts| && l.starts[restartIndex] <= i
    && (i < |l.pairs| ==>
      l.shares[i] <= |key| && l.shares[i] <= |l.pairs[i].key|
      && key[..l.shares[i]] == l.pairs[i].key[..l.shares[i]])
  }

  // Standing on entry i: the restart point is the last one before it, or the one it starts.
  ghost predicate Standing(l: Layout, i: nat, current: nat, restartIndex: nat, key: Bytes, next: nat)
    requires |l.offsets| == |l.pairs| + 1
  {
    && i < |l.pairs| && current == l.offsets[i] && next == l.offsets[i + 1] && key == l.pairs[i].key
    && restartIndex < |l.starts| && l.starts[restartIndex] <= i
    && (restartIndex + 1 < |l.starts| ==> i <= l.starts[restartIndex + 1])
  }

  lemma StandingPrimes(l: Layout, data: Bytes, i: nat, current: nat, restartIndex: nat, key: Bytes, next: nat)
    requires Entries(l, data) && Standing(l, i, current, restartIndex, key, next)
    ensures Primed(l, i + 1, restartIndex, key, next)
  {
    hide Encoded;
    if i + 1 < |l.pairs| { assert EntryIs(l, data, i + 1); }
  }

  lemma RestartPrimes(l: Layout, data: Bytes, j: nat)
    requires Entries(l, data) && Restarts(l) && j < |l.starts|
    ensures l.starts[j] <= |l.pairs| && Primed(l, l.starts[j], j, [], l.offsets[l.starts[j]])
  {
  }

  ghost predicate SortedBy(rank: Bytes -> real, pairs: seq<Pair>) {
    forall i, j :: 0 <= i < j < |pairs| ==> rank(pairs[i].key) < rank(pairs[j].key)
  }

  // pos is the index of the first key not below the target.
  ghost predicate IsLowerBound(rank: Bytes -> real, pairs: seq<Pair>, target: Bytes, pos: nat) {
    && pos <= |pairs|
    && (forall i :: 0 <= i < pos ==> rank(pairs[i].key) < rank(target))
    && (forall i :: pos <= i < |pairs| ==> rank(pairs[i].key) >= rank(target))
  }

  ghost predicate AllBelow(rank: Bytes -> real, pairs: seq<Pair>, target: Bytes, n: nat) {
    n <= |pairs| && forall i :: 0 <= i < n ==> rank(pairs[i].key) < rank(target)
  }

  // Key i is below the target, or there is nothing before n.
  lemma AllBelowUpTo(rank: Bytes -> real, pairs: seq<Pair>, target: Bytes, n: nat, i: nat)
    requires SortedBy(rank, pairs) && n <= |pairs|
    requires n == 0 || (i < |pairs| && n <= i + 1 && rank(pairs[i].key) < rank(target))
    ensures AllBelow(rank, pairs, target, n)
  {
  }

  lemma FirstNotBelow(rank: Bytes -> real, pairs: seq<Pair>, target: Bytes, i: nat)
    requires SortedBy(rank, pairs) && i < |pairs| && rank(pairs[i].key) >= rank(target)
    requires AllBelow(rank, pairs, target, i) || rank(pairs[i].key) == rank(target)
    ensures IsLowerBound(rank, pairs, target, i)
  {
  }

  function LowerBound(rank: Bytes -> real, pairs: seq<Pair>, target: Bytes): (n: nat)
    ensures n <= |pairs|
  {
    if |pairs| == 0 || rank(pairs[0].key) >= rank(target) then 0 else 1 + LowerBound(rank, pairs[1..], target)
  }

  lemma {:induction false} LowerBoundUnique(rank: Bytes -> real, pairs: seq<Pair>, target: Bytes, pos: nat)
    requires IsLowerBound(rank, pairs, target, pos)
    ensures pos == LowerBound(rank, pairs, target)
    decreases |pairs|
  {
    if pos > 0 { LowerBoundUnique(rank, pairs[1..], target, pos - 1); }
  }

  datatype Op = First | Last | SeekTo(target: Bytes) | Forward | Back

  /** The plain cursor over the list: an index, or the list's length when it is on nothing. */
  function Move(rank: Bytes -> real, pairs: seq<Pair>, pos: nat, op: Op): nat {
    match op
    case First => 0
    case Last => if |pairs| == 0 then 0 else |pairs| - 1
    case SeekTo(target) => LowerBound(rank, pairs, target)
    case Forward => if pos < |pairs| then pos + 1 else pos
    case Back => if pos < |pairs| then if pos == 0 then |pairs| else pos - 1 else pos
  }

  function Position(rank: Bytes -> real, pairs: seq<Pair>, ops: seq<Op>): nat {
    if |ops| == 0 then |pairs|
    else Move(rank, pairs, Position(rank, pairs, ops[..|ops| - 1]), ops[|ops| - 1])
  }

  class Iter {
    const rank: Bytes -> real
    const contents: Bytes
    const restarts: nat
    const numRestarts: nat
    ghost const l: Layout
    var current: nat
    var restartIndex: nat
    var key: Bytes
    var valuePos: nat
    var valueSize: nat
    ghost var pos: nat

    ghost predicate Whole() {
      Finished(contents, restarts, numRestarts, l)
    }

    ghost predicate Ok()
      reads this
    {
      && Whole()
      && (if pos < |l.pairs|
          then Standing(l, pos, current, restartIndex, key, valuePos + valueSize) && valueSize == |l.pairs[pos].value|
          else pos == |l.pairs| && current == restarts)
    }

    constructor (rank: Bytes -> real, contents: Bytes, restarts: nat, numRestarts: nat, ghost l: Layout)
      requires Finished(contents, restarts, numRestarts, l)
      ensures Ok() && pos == |l.pairs| && this.rank == rank && this.l == l
    {
      this.rank, this.contents, this.restarts, this.numRestarts, this.l := rank, contents, restarts, numRestarts, l;
      current, restartIndex, key, valuePos, valueSize := restarts, numRestarts, [], 0, 0;
      pos := |l.pairs|;
    }

    predicate Valid()
      reads this
    {
      current < restarts
    }

    lemma ValidIsPos()
      requires Ok()
      ensures Valid() <==> pos < |l.pairs|
    {
    }

    /** What Key and Value return. */
    method Current() returns (pair: Pair)
      requires Ok() && Valid()
      ensures pos < |l.pairs| && pair == l.pairs[pos]
    {
      hide Prefix, DecodeEntry, RestartPoint, EntryIs, Restarts;
      EntryDecodes(contents, restarts, numRestarts, l, pos);
      pair := Pair(key, contents[valuePos..valuePos + valueSize]);
    }

    method SeekToRestartPoint(index: nat)
      requires Whole() && index < numRestarts
      modifies this
      ensures restartIndex == index && current == old(current) && pos == old(pos)
      ensures Primed(l, l.starts[index], restartIndex, key, valuePos + valueSize)
    {
      hide RestartPoint, EntryIs;
      RestartPrimes(l, contents[..restarts], index);
      key := [];
      restartIndex := index;
      valuePos, valueSize := RestartPoint(contents, restarts, index), 0;
    }

    method Next()
      requires Ok() && Valid()
      modifies this
      ensures Ok() && old(pos) < |l.pairs| && pos == old(pos) + 1
    {
      hide EntryIs, Restarts;
      StandingPrimes(l, contents[..restarts], pos, current, restartIndex, key, valuePos + valueSize);
      var _ := ParseNextKey(pos + 1);
    }

    method SeekToFirst()
      requires Ok()
      modifies this
      ensures Ok() && pos == 0
    {
      hide EntryIs;
      SeekToRestartPoint(0);
      var _ := ParseNextKey(0);
    }

    /** Parses on from entry i until an entry that ends at `bound` or later. */
    method ParseUpTo(ghost i: nat, bound: nat, ghost last: nat)
      requires Whole() && Primed(l, i, restartIndex, key, valuePos + valueSize)
      requires if last < |l.pairs| then i <= last && bound == l.offsets[last + 1] else i == last == |l.pairs|
      modifies this
      ensures Ok() && pos == last
    {
      hide Finished, Primed, Standing, Entries;
      var found := ParseNextKey(i);
      Unfold();
      while found && valuePos + valueSize < bound
        invariant Ok() && i <= pos <= last && found == (pos < |l.pairs|) && (pos < last ==> last < |l.pairs|)
        decreases last - pos
      {
        Unfold();
        OffsetOrder(l, contents[..restarts], pos + 1, last + 1);
        StandingPrimes(l, contents[..restarts], pos, current, restartIndex, key, valuePos + valueSize);
        found := ParseNextKey(pos + 1);
      }
      Unfold();
      if found { OffsetOrder(l, contents[..restarts], pos + 1, last + 1); }
    }

    method SeekToLast()
      requires Ok()
      modifies this
      ensures Ok() && pos == (if |l.pairs| == 0 then 0 else |l.pairs| - 1)
    {
      hide EntryIs;
      SeekToRestartPoint(numRestarts - 1);
      ParseUpTo(l.starts[numRestarts - 1], restarts, if |l.pairs| == 0 then 0 else |l.pairs| - 1);
    }

    method Prev()
      requires Ok() && Valid()
      modifies this
      ensures Ok() && old(pos) < |l.pairs| && pos == (if old(pos) == 0 then |l.pairs| else old(pos) - 1)
    {
      hide EntryIs;
      var original := current;
      while RestartPoint(contents, restarts, restartIndex) >= original
        invariant restartIndex < numRestarts
        invariant current == original == l.offsets[old(pos)]
      {
        if restartIndex == 0 {
          current, restartIndex := restarts, numRestarts;
          pos := |l.pairs|;
          return;
        }
        restartIndex := restartIndex - 1;
      }
      SeekToRestartPoint(restartIndex);
      ParseUpTo(l.starts[restartIndex], original, old(pos) - 1);
    }

    /** Lands on the first key not below the target, from whatever position, by whatever shortcut. */
    method Seek(target: Bytes)
      requires Ok() && SortedBy(rank, l.pairs)
      modifies this
      ensures Ok() && IsLowerBound(rank, l.pairs, target, pos)
    {
      hide Finished, Standing, SortedBy, IsLowerBound, Primed;
      var left, right := 0, numRestarts - 1;
      var compare := 0;
      Unfold();
      if Valid() {
        if rank(key) < rank(target) {
          compare, left := -1, restartIndex;
        } else if rank(key) > rank(target) {
          compare, right := 1, restartIndex;
        } else {
          FirstNotBelow(rank, l.pairs, target, pos);
          return;
        }
      }
      AllBelowUpTo(rank, l.pairs, target, l.starts[left], pos);
      left := SearchRestarts(target, left, right);
      var skip := left == restartIndex && compare < 0;
      if !skip {
        SeekToRestartPoint(left);
        ScanFrom(target, l.starts[left]);
      } else {
        StandingPrimes(l, contents[..restarts], pos, current, restartIndex, key, valuePos + valueSize);
        AllBelowUpTo(rank, l.pairs, target, pos + 1, pos);
        ScanFrom(target, pos + 1);
      }
    }

    lemma Unfold()
      requires Ok()
      ensures restarts <= |contents| && Entries(l, contents[..restarts]) && 0 < numRestarts == |l.starts|
        && l.starts[0] == 0
      ensures pos <= |l.pairs| && (Valid() <==> pos < |l.pairs|) && |l.offsets| == |l.pairs| + 1 == |l.shares| + 1
      ensures Valid() ==> valuePos + valueSize == l.offsets[pos + 1]
      ensures Valid() ==> Standing(l, pos, current, restartIndex, key, valuePos + valueSize)
      ensures Valid() ==> key == l.pairs[pos].key && restartIndex < numRestarts && l.starts[restartIndex] <= pos
    {
    }

    /** Binary search over the restart points: every key before the result's is below the target. */
    method SearchRestarts(target: Bytes, from: nat, to: nat) returns (left: nat)
      requires Whole() && SortedBy(rank, l.pairs) && from <= to < numRestarts
      requires AllBelow(rank, l.pairs, target, l.starts[from])
      ensures from <= left <= to && AllBelow(rank, l.pairs, target, l.starts[left])
    {
      hide DecodeEntry, EntryIs, Prefix;
      left := from;
      var right := to;
      while left < right
        invariant from <= left <= right <= to && AllBelow(rank, l.pairs, target, l.starts[left])
      {
        var mid := (left + right + 1) / 2;
        var region := RestartPoint(contents, restarts, mid);
        EntryDecodes(contents, restarts, numRestarts, l, l.starts[mid]);
        // On a finished block the entry at a restart point decodes and shares nothing.
        var h := DecodeEntry(contents[region..restarts]).value;
        var midKey := contents[region + h.size..region + h.size + h.nonShared];
        assert midKey == l.pairs[l.starts[mid]].key;
        if rank(midKey) < rank(target) {
          AllBelowUpTo(rank, l.pairs, target, l.starts[mid], l.starts[mid]);
          left := mid;
        } else {
          right := mid - 1;
        }
      }
    }

    method ScanFrom(target: Bytes, ghost first: nat)
      requires Whole() && SortedBy(rank, l.pairs) && Primed(l, first, restartIndex, key, valuePos + valueSize)
      requires AllBelow(rank, l.pairs, target, first)
      modifies this
      ensures Ok() && IsLowerBound(rank, l.pairs, target, pos)
    {
      hide EntryIs, Restarts, Primed, SortedBy;
      ghost var i := first;
      while true
        invariant Primed(l, i, restartIndex, key, valuePos + valueSize) && i <= |l.pairs|
        invariant AllBelow(rank, l.pairs, target, i)
        decreases |l.pairs| - i
      {
        var found := ParseNextKey(i);
        if !found { return; }
        if rank(key) >= rank(target) {
          FirstNotBelow(rank, l.pairs, target, i);
          return;
        }
        StandingPrimes(l, contents[..restarts], pos, current, restartIndex, key, valuePos + valueSize);
        AllBelowUpTo(rank, l.pairs, target, i + 1, i);
        i := i + 1;
      }
    }

    /** One operation; Next and Prev are only issued on an entry. */
    method Apply(op: Op)
      requires Ok() && SortedBy(rank, l.pairs)
      modifies this
      ensures Ok() && pos == Move(rank, l.pairs, old(pos), op)
    {
      hide Whole, Standing, SortedBy;
      ValidIsPos();
      match op
      case First => SeekToFirst();
      case Last => SeekToLast();
      case SeekTo(target) =>
        Seek(target);
        LowerBoundUnique(rank, l.pairs, target, pos);
      case Forward => if Valid() { Next(); }
      case Back => if Valid() { Prev(); }
    }

    method ParseNextKey(ghost i: nat) returns (found: bool)
      requires Whole() && Primed(l, i, restartIndex, key, valuePos + valueSize)
      modifies this
      ensures Ok() && pos == i && found == (i < |l.pairs|)
    {
      hide Prefix, Encoded, DecodeEntry, RestartPoint, EntryIs;
      current := valuePos + valueSize;
      if current >= restarts {
        current, restartIndex := restarts, numRestarts;
        pos := |l.pairs|;
        return false;
      }
      EntryDecodes(contents, restarts, numRestarts, l, i);
      // On a finished block the entry decodes, so the source's corruption branch is never entered.
      var h := DecodeEntry(contents[current..restarts]).value;
      var p := current + h.size;
      ghost var shared := l.pairs[i].key[..h.shared];
      key := key[..h.shared] + contents[p..p + h.nonShared];
      assert key == shared + l.pairs[i].key[h.shared..] == l.pairs[i].key;
      valuePos, valueSize := p + h.nonShared, h.valueLength;
      SettleRestart(i);
      pos := i;
      found := true;
    }

    /** The last restart point before the entry the iterator is on, or the one it is at. */
    method SettleRestart(ghost i: nat)
      requires Whole() && i < |l.pairs| && current == l.offsets[i]
      requires restartIndex < numRestarts && l.starts[restartIndex] <= i
      modifies this`restartIndex
      ensures restartIndex < numRestarts && l.starts[restartIndex] <= i
      ensures restartIndex + 1 < numRestarts ==> i <= l.starts[restartIndex + 1]
    {
      hide RestartPoint, EntryIs;
      while restartIndex + 1 < numRestarts && RestartPoint(contents, restarts, restartIndex + 1) < current
        invariant restartIndex < numRestarts && l.starts[restartIndex] <= i
      {
        OffsetOrder(l, contents[..restarts], l.starts[restartIndex + 1], i);
        restartIndex := restartIndex + 1;
      }
      if restartIndex + 1 < numRestarts {
        OffsetOrder(l, contents[..restarts], l.starts[restartIndex + 1], i);
      }
    }
  }

  lemma OffsetOrder(l: Layout, data: Bytes, i: nat, j: nat)
    requires Entries(l, data) && i < |l.offsets| && j < |l.offsets|
    ensures l.offsets[i] < l.offsets[j] <==> i < j
  {
  }

  /** Building a block of the pairs. */
  method Build(pairs: seq<Pair>, interval: nat) returns (contents: Bytes, ghost l: Layout)
    requires interval >= 1
    ensures l.pairs == pairs
    ensures |contents| < WORD ==> Open(contents).Ready? && Finished(contents, Open(contents).limit, Open(contents).num,
      l)
  {
    hide Finished, Built, Open;
    var builder := new Builder(interval);
    for i := 0 to |pairs|
      invariant builder.Ok() && fresh(builder) && builder.l.pairs == pairs[..i]
    {
      builder.Add(pairs[i].key, pairs[i].value);
      assert pairs[..i + 1] == pairs[..i] + [pairs[i]];
    }
    l := builder.l;
    ghost var limit, num := |builder.buffer|, |builder.restarts|;
    contents := builder.Finish();
    if |contents| < WORD { OpenFinished(contents, limit, num, l); }
  }

  /**
   For every sorted list, restart interval and mix of operations: what the iterator shows on the finished block is what
   the plain cursor shows on the list. Offsets are 32 bits, so the block must be smaller than that.
   */
  method Session(rank: Bytes -> real, pairs: seq<Pair>, interval: nat, ops: seq<Op>)
    returns (size: nat, shown: seq<Option<Pair>>)
    requires interval >= 1 && SortedBy(rank, pairs)
    ensures size < WORD ==> |shown| == |ops|
    ensures size < WORD ==> forall i :: 0 <= i < |ops| ==>
      var pos := Position(rank, pairs, ops[..i + 1]);
      shown[i] == (if pos < |pairs| then Some(pairs[pos]) else None)
  {
    hide Finished, Open, SortedBy, Standing;
    var contents, l := Build(pairs, interval);
    size, shown := |contents|, [];
    if size < WORD {
      var block := Open(contents);
      var it := new Iter(rank, contents, block.limit, block.num, l);
      while |shown| < |ops|
        invariant it.Ok() && fresh(it) && it.rank == rank && it.l.pairs == pairs
        invariant |shown| <= |ops| && it.pos == Position(rank, pairs, ops[..|shown|])
        invariant forall i :: 0 <= i < |shown| ==>
          var pos := Position(rank, pairs, ops[..i + 1]);
          shown[i] == (if pos < |pairs| then Some(pairs[pos]) else None)
      {
        var op := ops[|shown|];
        assert ops[..|shown| + 1][..|shown|] == ops[..|shown|];
        it.Apply(op);
        it.ValidIsPos();
        if it.Valid() {
          var pair := it.Current();
          shown := shown + [Some(pair)];
        } else {
          shown := shown + [None];
        }
      }
    }
  }
}
