/** The filter block: one Bloom filter for every 2 KiB of data block offsets (table/filter_block.cc). */
module FilterBlock {
  import opened Keys
  import opened Coding
  import opened Bloom

  const BASE_LG: Byte := 11
  const BASE: nat := 2048

  // A key added while the data block at this offset was open.
  datatype Added = Added(offset: nat, key: Bytes)

  // ---- The builder's arrays.

  function EndOf(start: seq<nat>, size: nat, i: nat): nat
    requires i < |start|
  {
    if i + 1 < |start| then start[i + 1] else size
  }

  // The keys strung together, with the start of each.
  ghost predicate Strung(keys: Bytes, start: seq<nat>, pending: seq<Bytes>) {
    && |start| == |pending|
    && (forall i :: 0 <= i < |start| ==>
      start[i] <= EndOf(start, |keys|, i) <= |keys| && keys[start[i]..EndOf(start, |keys|, i)] == pending[i])
  }

  ghost predicate FilterAt(hash: Bytes -> Word, bitsPerKey: nat, result: Bytes, offsets: seq<nat>,
                           groups: seq<seq<Bytes>>, i: nat)
    requires i < |offsets| && i < |groups|
  {
    && offsets[i] <= EndOf(offsets, |result|, i) <= |result|
    && forall key :: MayMatch(hash, key, result[offsets[i]..EndOf(offsets, |result|, i)]) <==>
      GroupMatches(hash, bitsPerKey, groups[i], key)
  }

  /** The filter of a group of keys: one without keys matches nothing. */
  ghost predicate GroupMatches(hash: Bytes -> Word, bitsPerKey: nat, group: seq<Bytes>, key: Bytes) {
    group != [] && Covered(hash, group, bitsPerKey, key)
  }

  // Filter i is that of the keys of group i.
  ghost predicate Generated(hash: Bytes -> Word, bitsPerKey: nat, result: Bytes, offsets: seq<nat>,
                            groups: seq<seq<Bytes>>) {
    && |offsets| == |groups|
    && forall i :: 0 <= i < |offsets| ==> FilterAt(hash, bitsPerKey, result, offsets, groups, i)
  }

  /** The keys added while a block was open that begins in this 2 KiB. */
  function KeysAt(added: seq<Added>, index: nat): seq<Bytes> {
    if |added| == 0 then []
    else
      var last := added[|added| - 1];
      KeysAt(added[..|added| - 1], index) + if last.offset / BASE == index then [last.key] else []
  }

  // The groups so far have their blocks' keys, and the others wait.
  ghost predicate Placed(added: seq<Added>, groups: seq<seq<Bytes>>, pending: seq<Bytes>) {
    && (forall a :: a in added ==> a.offset / BASE <= |groups|)
    && (forall i :: 0 <= i < |groups| ==> groups[i] == KeysAt(added, i))
    && pending == KeysAt(added, |groups|)
  }

  lemma PlacedMore(added: seq<Added>, groups: seq<seq<Bytes>>, pending: seq<Bytes>, a: Added)
    requires Placed(added, groups, pending) && a.offset / BASE == |groups|
    ensures Placed(added + [a], groups, pending + [a.key])
  {
    assert (added + [a])[..|added|] == added;
  }

  lemma {:induction false} NoneBeyond(added: seq<Added>, index: nat)
    requires forall a :: a in added ==> a.offset / BASE < index
    ensures KeysAt(added, index) == []
  {
    if |added| > 0 { NoneBeyond(added[..|added| - 1], index); }
  }

  lemma {:induction false} KeyAmong(added: seq<Added>, a: Added)
    requires a in added
    ensures a.key in KeysAt(added, a.offset / BASE)
  {
    var n := |added| - 1;
    if added[n] != a { KeyAmong(added[..n], a); }
  }

  method TakeApart(keys: Bytes, start: seq<nat>, ghost pending: seq<Bytes>) returns (tmpKeys: seq<Bytes>)
    requires Strung(keys, start, pending)
    ensures tmpKeys == pending
  {
    tmpKeys := [];
    Whole(pending);
    assert |start| == |pending|;
    hide Strung, EndOf;
    for i := 0 to |start|
      invariant tmpKeys == pending[..i]
    {
      var key := Piece(keys, start, pending, i);
      Snoc(pending, i);
      tmpKeys := tmpKeys + [key];
    }
    Whole(pending);
  }

  lemma PrefixSlice<T>(s: seq<T>, n: nat, i: nat, j: nat)
    requires i <= j <= n <= |s|
    ensures s[..n][i..j] == s[i..j]
  {
  }

  lemma Snoc<T>(s: seq<T>, i: nat)
    requires i < |s|
    ensures s[..i + 1] == s[..i] + [s[i]]
  {
  }

  lemma Whole<T>(s: seq<T>)
    ensures s[..|s|] == s
  {
  }

  method Piece(keys: Bytes, start: seq<nat>, ghost pending: seq<Bytes>, i: nat) returns (key: Bytes)
    requires Strung(keys, start, pending) && i < |start|
    ensures |start| == |pending| && key == pending[i]
  {
    key := keys[start[i]..EndOf(start, |keys|, i)];
  }

  lemma StrungMore(keys: Bytes, start: seq<nat>, pending: seq<Bytes>, key: Bytes)
    requires Strung(keys, start, pending)
    ensures Strung(keys + key, start + [|keys|], pending + [key])
  {
  }

  /** A new filter goes to the end, and closes the one before. */
  lemma GeneratedMore(hash: Bytes -> Word, bitsPerKey: nat, result: Bytes, offsets: seq<nat>, groups: seq<seq<Bytes>>,
                      group: seq<Bytes>, more: Bytes)
    requires Generated(hash, bitsPerKey, result, offsets, groups)
    requires |more| >= |result| && more[..|result|] == result
    requires forall key :: MayMatch(hash, key, more[|result|..]) <==> GroupMatches(hash, bitsPerKey, group, key)
    ensures Generated(hash, bitsPerKey, more, offsets + [|result|], groups + [group])
  {
    hide MayMatch, GroupMatches;
    var os, gs := offsets + [|result|], groups + [group];
    forall i | 0 <= i < |os|
      ensures FilterAt(hash, bitsPerKey, more, os, gs, i)
    {
      if i < |offsets| {
        assert FilterAt(hash, bitsPerKey, result, offsets, groups, i);
        assert EndOf(os, |more|, i) == EndOf(offsets, |result|, i);
        PrefixSlice(more, |result|, offsets[i], EndOf(offsets, |result|, i));
      } else {
        assert more[|result|..|more|] == more[|result|..];
      }
    }
  }

  lemma PlacedNext(added: seq<Added>, groups: seq<seq<Bytes>>, pending: seq<Bytes>)
    requires Placed(added, groups, pending)
    ensures Placed(added, groups + [pending], [])
  {
    NoneBeyond(added, |groups| + 1);
  }

  lemma EmptyMatchesNothing(hash: Bytes -> Word, bitsPerKey: nat, filter: Bytes)
    requires filter == []
    ensures forall key :: MayMatch(hash, key, filter) <==> GroupMatches(hash, bitsPerKey, [], key)
  {
  }

  class Builder {
    const hash: Bytes -> Word
    const bitsPerKey: nat
    var keys: Bytes
    var start: seq<nat>
    var result: Bytes
    var filterOffsets: seq<nat>
    ghost var groups: seq<seq<Bytes>>
    ghost var pending: seq<Bytes>
    ghost var added: seq<Added>
    ghost var current: nat

    ghost predicate Ok()
      reads this
    {
      && Strung(keys, start, pending) && Generated(hash, bitsPerKey, result, filterOffsets, groups)
      && Placed(added, groups, pending)
    }

    constructor (hash: Bytes -> Word, bitsPerKey: nat)
      ensures Ok() && added == [] && filterOffsets == [] && this.hash == hash && this.bitsPerKey == bitsPerKey
    {
      this.hash, this.bitsPerKey := hash, bitsPerKey;
      keys, start, result, filterOffsets := [], [], [], [];
      groups, pending, added, current := [], [], [], 0;
    }

    method StartBlock(offset: nat)
      requires Ok() && offset / BASE >= |filterOffsets|
      modifies this
      ensures Ok() && added == old(added) && current == offset && |filterOffsets| == offset / BASE
    {
      hide Strung, Generated, Placed;
      var index := offset / BASE;
      while index > |filterOffsets|
        invariant Ok() && added == old(added) && |filterOffsets| <= index
      {
        GenerateFilter();
      }
      current := offset;
    }

    method AddKey(key: Bytes)
      requires Ok() && |filterOffsets| == current / BASE
      modifies this
      ensures Ok() && added == old(added) + [Added(current, key)] && current == old(current)
      ensures filterOffsets == old(filterOffsets)
    {
      StrungMore(keys, start, pending, key);
      Unfold();
      PlacedMore(added, groups, pending, Added(current, key));
      hide Strung, Generated, Placed;
      start := start + [|keys|];
      keys := keys + key;
      pending, added := pending + [key], added + [Added(current, key)];
    }

    method GenerateFilter()
      requires Ok()
      modifies this
      ensures Ok() && added == old(added) && current == old(current) && pending == []
      ensures |filterOffsets| == old(|filterOffsets|) + 1
    {
      hide Strung, Generated, Placed, MayMatch, Covered;
      var n := |start|;
      PlacedNext(added, groups, pending);
      Unfold();
      if n == 0 {
        EmptyMatchesNothing(hash, bitsPerKey, result[|result|..]);
        GeneratedMore(hash, bitsPerKey, result, filterOffsets, groups, [], result);
        filterOffsets, groups := filterOffsets + [|result|], groups + [pending];
        return;
      }
      var tmpKeys := TakeApart(keys, start, pending);
      var more := CreateFilter(hash, bitsPerKey, tmpKeys, result);
      GeneratedMore(hash, bitsPerKey, result, filterOffsets, groups, pending, more);
      filterOffsets := filterOffsets + [|result|];
      result := more;
      keys, start := [], [];
      groups, pending := groups + [pending], [];
    }

    lemma Unfold()
      requires Ok()
      ensures |start| == |pending| && |filterOffsets| == |groups| && Strung([], [], [])
    {
    }

    /**
     The filters, the array of their offsets, where that array begins, and the base.  At a block's offset a key matches
     exactly if the filter of the keys added there does; beyond the last filter every key does.
     */
    method Finish() returns (contents: Bytes)
      requires Ok()
      modifies this
      ensures added == old(added)
      ensures |contents| < WORD ==>
        forall a :: a in added ==> BlockMayMatch(hash, contents, a.offset, a.key)
      ensures |contents| < WORD ==>
        forall offset: nat, key :: BlockMayMatch(hash, contents, offset, key) <==>
          offset / 2048 >= |filterOffsets| || GroupMatches(hash, bitsPerKey, KeysAt(added, offset / 2048), key)
      ensures forall a :: a in added ==> a.offset / 2048 < |filterOffsets|
    {
      hide Strung, Generated, Placed, BlockMayMatch, EncodeFixed32, GroupMatches;
      Unfold();
      if |start| > 0 {
        GenerateFilter();
      }
      Unfold();
      AllPlaced(added, groups, pending);
      ghost var filters := result;
      AppendOffsets();
      contents := result;
      if |contents| < WORD {
        forall offset: nat, key
          ensures BlockMayMatch(hash, contents, offset, key) <==>
            offset / BASE >= |filterOffsets| || GroupMatches(hash, bitsPerKey, KeysAt(added, offset / BASE), key)
        {
          BlockExact(hash, bitsPerKey, filters, filterOffsets, groups, offset, key, contents);
          GroupIs(added, groups, pending, offset / BASE);
        }
        forall a | a in added ensures GroupMatches(hash, bitsPerKey, KeysAt(added, a.offset / BASE), a.key) {
          KeyMatches(hash, bitsPerKey, added, a);
        }
      }
    }

    // The offset array, its own offset and the base.
    method AppendOffsets()
      modifies this`result
      ensures result == old(result) + Words(filterOffsets + [|old(result)|]) + [BASE_LG]
    {
      hide EncodeFixed32;
      ghost var filters := result;
      var arrayOffset := |result|;
      for i := 0 to |filterOffsets|
        modifies this`result
        invariant result == filters + Words(filterOffsets[..i])
      {
        WordsAppend(filterOffsets[..i], filterOffsets[i]);
        assert filterOffsets[..i + 1] == filterOffsets[..i] + [filterOffsets[i]];
        result := result + EncodeFixed32(Low(filterOffsets[i]));
      }
      assert filterOffsets[..|filterOffsets|] == filterOffsets;
      WordsAppend(filterOffsets, arrayOffset);
      result := result + EncodeFixed32(Low(arrayOffset));
      result := result + [BASE_LG];
      assert result == filters + Words(filterOffsets + [arrayOffset]) + [BASE_LG];
    }
  }

  // ---- The reader.

  /** Where the offset array begins, when the contents have room for it. */
  function ArrayAt(contents: Bytes): Option<nat> {
    var n := |contents|;
    if n < 5 then None
    else
      var at := DecodeFixed32(contents[n - 5..]);
      if at > n - 5 then None else Some(at)
  }

  // offset >> lg
  function IndexOf(offset: nat, lg: nat): nat {
    if lg == 0 then offset else IndexOf(offset / 2, lg - 1)
  }

  /** FilterBlockReader: a key may match unless the filter of its block's offset says no. */
  ghost predicate BlockMayMatch(hash: Bytes -> Word, contents: Bytes, offset: nat, key: Bytes) {
    match ArrayAt(contents)
    case None => true
    case Some(at) =>
      var n := |contents|;
      var index, num := IndexOf(offset, contents[n - 1]), (n - 5 - at) / 4;
      index < num ==>
        var from, to := DecodeFixed32(contents[at + 4 * index..]), DecodeFixed32(contents[at + 4 * index + 4..]);
        from <= to <= at && MayMatch(hash, key, contents[from..to])
  }

  method KeyMayMatch(hash: Bytes -> Word, contents: Bytes, offset: nat, key: Bytes) returns (match_: bool)
    ensures match_ <==> BlockMayMatch(hash, contents, offset, key)
  {
    hide MayMatch, DecodeFixed32, IndexOf;
    var at := ArrayAt(contents);
    if at.None? { return true; }
    var n := |contents|;
    var index, num := IndexOf(offset, contents[n - 1]), (n - 5 - at.value) / 4;
    if index < num {
      var from := DecodeFixed32(contents[at.value + 4 * index..]);
      var to := DecodeFixed32(contents[at.value + 4 * index + 4..]);
      if from <= to && to <= at.value {
        match_ := Bloom.KeyMayMatch(hash, key, contents[from..to]);
        return;
      }
      return false;
    }
    return true;
  }

  lemma IndexIs(offset: nat)
    ensures IndexOf(offset, BASE_LG) == offset / BASE
  {
    var o := offset / 2 / 2 / 2 / 2;
    assert IndexOf(offset, 11) == IndexOf(offset / 2 / 2, 9) == IndexOf(o, 7);
    var p := o / 2 / 2 / 2 / 2;
    assert IndexOf(o, 7) == IndexOf(o / 2 / 2, 5) == IndexOf(p, 3);
    assert IndexOf(p, 3) == p / 2 / 2 / 2;
  }

  // The finished contents' words: the offsets and, after them, the end of the filters.
  lemma OffsetAt(filters: Bytes, offsets: seq<nat>, j: nat, contents: Bytes)
    requires contents == filters + Words(offsets + [|filters|]) + [BASE_LG] && |contents| < WORD && j <= |offsets|
    requires j < |offsets| ==> offsets[j] <= |filters|
    ensures DecodeFixed32(contents[|filters| + 4 * j..]) == (if j < |offsets| then offsets[j] else |filters|)
  {
    hide DecodeFixed32, Words, Low;
    var ws := offsets + [|filters|];
    WordWithin(filters, ws, j, [BASE_LG], contents);
    assert ws[j] == if j < |offsets| then offsets[j] else |filters|;
  }

  /** The reader finds the filter of the offset's group. */
  lemma BlockExact(hash: Bytes -> Word, bitsPerKey: nat, filters: Bytes, offsets: seq<nat>, groups: seq<seq<Bytes>>,
                   offset: nat, key: Bytes, contents: Bytes)
    requires Generated(hash, bitsPerKey, filters, offsets, groups)
    requires contents == filters + Words(offsets + [|filters|]) + [BASE_LG] && |contents| < WORD
    ensures |offsets| == |groups|
    ensures BlockMayMatch(hash, contents, offset, key) <==>
      offset / BASE < |groups| ==> GroupMatches(hash, bitsPerKey, groups[offset / BASE], key)
  {
    hide MayMatch, DecodeFixed32, Words, IndexOf, GroupMatches;
    var index, n := offset / BASE, |offsets|;
    IndexIs(offset);
    OffsetAt(filters, offsets, n, contents);
    TailIs(filters, offsets, contents);
    if index < n {
      assert FilterAt(hash, bitsPerKey, filters, offsets, groups, index);
      if index + 1 < n { assert FilterAt(hash, bitsPerKey, filters, offsets, groups, index + 1); }
      OffsetAt(filters, offsets, index, contents);
      OffsetAt(filters, offsets, index + 1, contents);
      var from, to := offsets[index], EndOf(offsets, |filters|, index);
      assert contents[from..to] == filters[from..to];
    }
  }

  lemma GroupIs(added: seq<Added>, groups: seq<seq<Bytes>>, pending: seq<Bytes>, index: nat)
    requires Placed(added, groups, pending)
    ensures index < |groups| ==> groups[index] == KeysAt(added, index)
  {
  }

  lemma AllPlaced(added: seq<Added>, groups: seq<seq<Bytes>>, pending: seq<Bytes>)
    requires Placed(added, groups, pending) && pending == []
    ensures forall a :: a in added ==> a.offset / BASE < |groups|
  {
    forall a | a in added ensures a.offset / BASE < |groups| { KeyAmong(added, a); }
  }

  lemma KeyMatches(hash: Bytes -> Word, bitsPerKey: nat, added: seq<Added>, a: Added)
    requires a in added
    ensures GroupMatches(hash, bitsPerKey, KeysAt(added, a.offset / BASE), a.key)
  {
    KeyAmong(added, a);
    KeyCovered(hash, KeysAt(added, a.offset / BASE), bitsPerKey, a.key);
  }

  lemma TailIs(filters: Bytes, offsets: seq<nat>, contents: Bytes)
    requires contents == filters + Words(offsets + [|filters|]) + [BASE_LG]
    ensures |contents| == |filters| + 4 * |offsets| + 5 && contents[|contents| - 1] == BASE_LG
    ensures contents[|contents| - 5..] == contents[|filters| + 4 * |offsets|..]
  {
    hide Words;
  }
}
