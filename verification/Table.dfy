/**
 Tables (table/table_builder.cc, table/table.cc): data blocks cut anywhere, an index whose separators may be shortened,
 a filter, and the lookup through them. What a block's bytes do is in the module Block; here a block is its entries.
 */
module Table {
  import opened Keys
  import opened Coding
  import opened Bytewise
  import FilterBlock

  // ---- Separators of the bytewise comparator (util/comparator.cc).

  /** Where two strings first differ decides. */
  lemma {:induction false} LessAt(a: Bytes, b: Bytes, i: nat)
    requires i <= |a| && i < |b| && a[..i] == b[..i] && (i == |a| || a[i] < b[i])
    ensures Less(a, b)
  {
    if i > 0 {
      assert a[0] == a[..i][0] && b[0] == b[..i][0];
      assert a[1..][..i - 1] == a[..i][1..] && b[1..][..i - 1] == b[..i][1..];
      LessAt(a[1..], b[1..], i - 1);
    }
  }

  // Nothing from start up to limit is shorter than what tells them apart.
  lemma {:induction false} NoShorterBetween(start: Bytes, limit: Bytes, d: nat, x: Bytes)
    requires d < |start| && d < |limit| && start[..d] == limit[..d]
    requires !Less(x, start) && Less(x, limit)
    ensures |x| > d
  {
    if d > 0 {
      assert start[0] == start[..d][0] && limit[0] == limit[..d][0];
      assert start[1..][..d - 1] == start[..d][1..] && limit[1..][..d - 1] == limit[..d][1..];
      NoShorterBetween(start[1..], limit[1..], d - 1, x[1..]);
    }
  }

  // Nothing at or above a string is shorter than its leading 0xff bytes.
  lemma {:induction false} NoShorterAbove(key: Bytes, i: nat, x: Bytes)
    requires i < |key| && (forall j :: 0 <= j < i ==> key[j] == 0xff) && !Less(x, key)
    ensures |x| > i
  {
    if i > 0 { NoShorterAbove(key[1..], i - 1, x[1..]); }
  }

  // The strings first differ at d, by more than one.
  predicate RoomAt(start: Bytes, limit: Bytes, d: nat) {
    d < |start| && d < |limit| && start[..d] == limit[..d] && start[d] as int + 1 < limit[d]
  }

  // Room is where the common prefix ends.
  lemma FirstDifference(start: Bytes, limit: Bytes, diff: nat, d: nat)
    requires diff <= |start| && diff <= |limit| && start[..diff] == limit[..diff] && RoomAt(start, limit, d)
    requires diff == |start| || diff == |limit| || start[diff] != limit[diff]
    ensures d == diff
  {
    forall j | 0 <= j < diff ensures start[j] == limit[j] { assert start[j] == start[..diff][j]; }
    forall j | 0 <= j < d ensures start[j] == limit[j] { assert start[j] == start[..d][j]; }
  }

  /** start, or if there is room where it first differs from limit, a shortest string from start up to limit. */
  method FindShortestSeparator(start: Bytes, limit: Bytes) returns (r: Bytes)
    ensures |r| <= |start|
    ensures r != start ==> Less(start, r) && Less(r, limit)
    ensures r != start <==> exists d :: RoomAt(start, limit, d)
    ensures r != start ==> forall x :: !Less(x, start) && Less(x, limit) ==> |r| <= |x|
  {
    r := start;
    var minLength := if |start| < |limit| then |start| else |limit|;
    var diff := 0;
    while diff < minLength && start[diff] == limit[diff]
      invariant diff <= minLength && start[..diff] == limit[..diff]
    {
      diff := diff + 1;
    }
    if diff < minLength {
      var byte := start[diff];
      if byte < 0xff && byte + 1 < limit[diff] {
        r := start[..diff] + [byte + 1];
        assert r[..diff] == start[..diff];
        LessAt(start, r, diff);
        LessAt(r, limit, diff);
        assert r[diff] != start[diff] && RoomAt(start, limit, diff);
        forall x | !Less(x, start) && Less(x, limit) ensures |r| <= |x| { NoShorterBetween(start, limit, diff, x); }
        return;
      }
    }
    forall d | RoomAt(start, limit, d) ensures d == diff { FirstDifference(start, limit, diff, d); }
  }

  /** A shortest string at least key; key itself only if all its bytes are 0xff. */
  method FindShortSuccessor(key: Bytes) returns (r: Bytes)
    ensures r != key ==> Less(key, r)
    ensures r == key <==> forall i :: 0 <= i < |key| ==> key[i] == 0xff
    ensures forall x :: !Less(x, key) ==> |r| <= |x|
  {
    r := key;
    for i := 0 to |key|
      invariant forall j :: 0 <= j < i ==> key[j] == 0xff
    {
      var byte := key[i];
      if byte != 0xff {
        r := key[..i] + [byte + 1];
        assert r[..i] == key[..i];
        LessAt(key, r, i);
        assert r[i] != key[i];
        forall x | !Less(x, key) ensures |r| <= |x| { NoShorterAbove(key, i, x); }
        return;
      }
    }
    if key != [] {
      forall x | !Less(x, key) ensures |r| <= |x| { NoShorterAbove(key, |key| - 1, x); }
    }
  }

  // ---- Internal keys over bytes (db/dbformat.cc).

  datatype IKey = IKey(user: Bytes, tag: nat)

  const MAX_TAG: nat := MAX_SEQUENCE * 256 + 1

  // InternalKeyComparator: user keys ascend, tags descend.
  predicate Precedes(a: IKey, b: IKey) {
    Less(a.user, b.user) || (a.user == b.user && a.tag > b.tag)
  }

  // The same order on ranks, where the solver knows it is one.
  predicate Ahead(a: IKey, b: IKey) {
    Rank(a.user) < Rank(b.user) || (Rank(a.user) == Rank(b.user) && a.tag > b.tag)
  }

  lemma PrecedesIsAhead(a: IKey, b: IKey)
    ensures Precedes(a, b) <==> Ahead(a, b)
    ensures !Ahead(a, b) && !Ahead(b, a) ==> a == b
    ensures a.user == b.user <==> Rank(a.user) == Rank(b.user)
  {
    RankEmbedsOrder(a.user, b.user);
    RankEmbedsOrder(b.user, a.user);
  }

  /** The index key for a block that ends at start when the next begins at limit: between them, and if it is not start
      itself then of a user key strictly between theirs. */
  method InternalSeparator(start: IKey, limit: IKey) returns (r: IKey)
    requires Ahead(start, limit)
    ensures !Ahead(r, start) && Ahead(r, limit)
    ensures r != start ==> Rank(start.user) < Rank(r.user) < Rank(limit.user)
    ensures r != start ==> |r.user| < |start.user| && r.tag == MAX_TAG
    ensures r != start <==> exists d: nat :: RoomAt(start.user, limit.user, d) && d + 1 < |start.user|
    ensures r != start ==> forall x :: !Less(x, start.user) && Less(x, limit.user) ==> |r.user| <= |x|
  {
    var tmp := FindShortestSeparator(start.user, limit.user);
    RankEmbedsOrder(start.user, tmp);
    RankEmbedsOrder(tmp, start.user);
    forall d: nat | RoomAt(start.user, limit.user, d) ensures |tmp| == d + 1 {
      SeparatorLength(start.user, limit.user, d, tmp);
    }
    RankEmbedsOrder(tmp, limit.user);
    if |tmp| < |start.user| && tmp != start.user {
      r := IKey(tmp, MAX_TAG);
    } else {
      r := start;
    }
  }

  /** A separator as short as can be is as long as the common prefix and one byte. */
  lemma SeparatorLength(start: Bytes, limit: Bytes, d: nat, r: Bytes)
    requires RoomAt(start, limit, d) && !Less(r, start) && Less(r, limit)
    requires forall x :: !Less(x, start) && Less(x, limit) ==> |r| <= |x|
    ensures |r| == d + 1
  {
    var x := start[..d] + [start[d] + 1];
    assert x[..d] == start[..d];
    LessAt(start, x, d);
    LessAt(x, limit, d);
    RankEmbedsOrder(start, x);
    RankEmbedsOrder(x, start);
    NoShorterBetween(start, limit, d, r);
  }

  /** A shorter key in between need not be found: "ac" lies between "abc" and "b". */
  lemma SeparatorNotShortest()
    ensures Less([97, 98, 99], [97, 99]) && Less([97, 99], [98])
    ensures forall d :: !RoomAt([97, 98, 99], [98], d)
  {
  }

  /** The key itself, unless a shorter key is greater: then such a key, with the largest tag. */
  method InternalSuccessor(key: IKey) returns (r: IKey)
    ensures !Ahead(r, key)
    ensures r != key ==> Rank(key.user) < Rank(r.user) && |r.user| < |key.user| && r.tag == MAX_TAG
    ensures r != key <==> exists x :: Less(key.user, x) && |x| < |key.user|
    ensures forall x :: !Less(x, key.user) ==> |r.user| <= |x|
  {
    var tmp := FindShortSuccessor(key.user);
    RankEmbedsOrder(key.user, tmp);
    forall x | Less(key.user, x) ensures !Less(x, key.user) {
      RankEmbedsOrder(key.user, x);
      RankEmbedsOrder(x, key.user);
    }
    if |tmp| < |key.user| && Less(key.user, tmp) {
      r := IKey(tmp, MAX_TAG);
    } else {
      r := key;
    }
  }

  // ---- The builder.

  datatype Pair = Pair(key: IKey, value: Bytes)

  // An index entry's value is the handle of a data block; its offset finds the block.
  datatype IndexEntry = IndexEntry(key: IKey, handle: nat)

  ghost predicate Ascending(all: seq<Pair>) {
    forall i, j :: 0 <= i < j < |all| ==> Ahead(all[i].key, all[j].key)
  }

  // The key parts the entries before c from those after: if it is shortened, no later entry has its user key.
  ghost predicate Separates(all: seq<Pair>, key: IKey, c: nat) {
    && 0 < c <= |all| && !Ahead(key, all[c - 1].key)
    && forall m :: c <= m < |all| ==>
      Ahead(key, all[m].key) && (key == all[c - 1].key || Rank(key.user) < Rank(all[m].key.user))
  }

  // Block i is at offsets[i] and holds entries cuts[i] up to cuts[i + 1].
  ghost predicate Cut(all: seq<Pair>, cuts: seq<nat>, offsets: seq<nat>, file: map<nat, seq<Pair>>) {
    && |cuts| == |offsets| + 1 && cuts[0] == 0
    && (forall i, j :: 0 <= i < j < |cuts| ==> cuts[i] < cuts[j])
    && (forall i :: 0 <= i < |cuts| ==> cuts[i] <= |all|)
    && (forall i :: 0 <= i < |offsets| ==> offsets[i] in file && file[offsets[i]] == all[cuts[i]..cuts[i + 1]])
  }

  ghost predicate Indexed(all: seq<Pair>, cuts: seq<nat>, offsets: seq<nat>, index: seq<IndexEntry>) {
    && |index| <= |offsets| && |cuts| == |offsets| + 1
    && forall i :: 0 <= i < |index| ==> index[i].handle == offsets[i] && Separates(all, index[i].key, cuts[i + 1])
  }

  // The filter was told of every entry while its block was open.
  ghost predicate Told(all: seq<Pair>, cuts: seq<nat>, offsets: seq<nat>, added: seq<FilterBlock.Added>) {
    && |cuts| == |offsets| + 1
    && forall i, m :: 0 <= i < |offsets| && cuts[i] <= m < cuts[i + 1] && m < |all| ==>
      FilterBlock.Added(offsets[i], all[m].key.user) in added
  }

  ghost predicate LaidOut(all: seq<Pair>, cuts: seq<nat>, offsets: seq<nat>, file: map<nat, seq<Pair>>,
                          index: seq<IndexEntry>, dataBlock: seq<Pair>, lastKey: IKey, offset: nat)
  {
    && Ascending(all) && Cut(all, cuts, offsets, file) && Indexed(all, cuts, offsets, index)
    && dataBlock == all[cuts[|offsets|]..]
    && (|all| > 0 ==> lastKey == all[|all| - 1].key)
    && (forall i :: 0 <= i < |offsets| ==> offsets[i] < offset)
  }

  // The last block written has no index entry yet, or every block has one and a new block is begun.
  ghost predicate Pending(all: seq<Pair>, cuts: seq<nat>, offsets: seq<nat>, index: seq<IndexEntry>, pending: bool,
                          handle: nat)
    requires |cuts| == |offsets| + 1
  {
    if pending then |index| + 1 == |offsets| && handle == offsets[|index|] && cuts[|offsets|] == |all|
    else |index| == |offsets| && (|offsets| > 0 ==> cuts[|offsets|] < |all|)
  }

  datatype TableFile = TableFile(file: map<nat, seq<Pair>>, index: seq<IndexEntry>, filter: Option<Bytes>)

  ghost predicate TableOk(t: TableFile, all: seq<Pair>, cuts: seq<nat>, offsets: seq<nat>) {
    && Ascending(all) && Cut(all, cuts, offsets, t.file) && Indexed(all, cuts, offsets, t.index)
    && |t.index| == |offsets| && cuts[|offsets|] == |all|
  }

  // The filter may match every entry's user key at its block's offset.
  ghost predicate FilterOk(hash: Bytes -> Word, contents: Bytes, all: seq<Pair>, cuts: seq<nat>, offsets: seq<nat>) {
    && |cuts| == |offsets| + 1
    && forall i, m :: 0 <= i < |offsets| && cuts[i] <= m < cuts[i + 1] && m < |all| ==>
      FilterBlock.BlockMayMatch(hash, contents, offsets[i], all[m].key.user)
  }

  class TableBuilder {
    const filter: FilterBlock.Builder?
    var offset: nat
    var dataBlock: seq<Pair>
    var index: seq<IndexEntry>
    var lastKey: IKey
    var pendingIndexEntry: bool
    var pendingHandle: nat
    var file: map<nat, seq<Pair>>
    ghost var all: seq<Pair>
    ghost var cuts: seq<nat>
    ghost var offsets: seq<nat>

    ghost predicate Laid()
      reads this
    {
      && LaidOut(all, cuts, offsets, file, index, dataBlock, lastKey, offset)
      && Pending(all, cuts, offsets, index, pendingIndexEntry, pendingHandle)
    }

    ghost predicate Ok()
      reads this, filter
    {
      && Laid()
      && (filter != null ==>
        && filter.Ok() && |filter.filterOffsets| == offset / FilterBlock.BASE && filter.current == offset
        && Told(all, cuts + [|all|], offsets + [offset], filter.added))
    }

    constructor (filter: FilterBlock.Builder?)
      requires filter != null ==> filter.Ok() && filter.filterOffsets == [] && filter.added == []
      modifies filter
      ensures Ok() && all == [] && this.filter == filter
    {
      this.filter := filter;
      offset, dataBlock, index, lastKey, pendingIndexEntry, pendingHandle := 0, [], [], IKey([], 0), false, 0;
      file, all, cuts, offsets := map[], [], [0], [];
      new;
      if filter != null { filter.StartBlock(0); }
    }

    /** Adds an entry; `full` says the block has reached its size, and `size` is what it takes in the file. */
    method Add(key: IKey, value: Bytes, full: bool, size: nat)
      requires Ok() && (|all| > 0 ==> Ahead(lastKey, key)) && size > 0
      modifies this, filter
      ensures Ok() && all == old(all) + [Pair(key, value)]
    {
      hide LaidOut, Pending, Told;
      AddEntry(key, value);
      if full { Flush(size); }
    }

    method AddEntry(key: IKey, value: Bytes)
      requires Ok() && (|all| > 0 ==> Ahead(lastKey, key))
      modifies this, filter
      ensures Ok() && all == old(all) + [Pair(key, value)]
    {
      hide LaidOut, Pending, Told, Ahead, FilterBlock.Strung, FilterBlock.Generated, FilterBlock.Placed;
      var pair := Pair(key, value);
      Cuts();
      var separator := lastKey;
      if pendingIndexEntry {
        separator := InternalSeparator(lastKey, key);
        AddLaid(all, cuts, offsets, file, index, dataBlock, lastKey, offset, pendingHandle, separator, pair);
        index := index + [IndexEntry(separator, pendingHandle)];
        pendingIndexEntry := false;
      } else {
        AddMore(all, cuts, offsets, file, index, dataBlock, lastKey, offset, pendingHandle, pair);
      }
      if filter != null {
        AddTold(all, cuts, offsets, offset, filter.added, pair);
        // The filter policy takes the user key out of the internal key.
        filter.AddKey(key.user);
      }
      lastKey := key;
      dataBlock := dataBlock + [pair];
      all := all + [pair];
    }

    lemma Cuts()
      requires Laid()
      ensures |cuts| == |offsets| + 1 && (forall i :: 0 <= i < |cuts| ==> cuts[i] <= |all|)
      ensures pendingIndexEntry ==> |all| > 0
      ensures |dataBlock| == 0 <==> cuts[|offsets|] == |all|
    {
    }

    method Flush(size: nat)
      requires Ok() && size > 0
      modifies this, filter
      ensures Ok() && all == old(all) && dataBlock == [] && (|all| > 0 ==> pendingIndexEntry)
    {
      hide LaidOut, Pending, Told, FilterBlock.Strung, FilterBlock.Generated, FilterBlock.Placed;
      Cuts();
      if |dataBlock| == 0 { Empty(); return; }
      FlushLaid(all, cuts, offsets, file, index, dataBlock, lastKey, offset, pendingIndexEntry, pendingHandle, size);
      if filter != null { FlushTold(all, cuts, offsets, offset, size, filter.added); }
      file := file[offset := dataBlock];
      dataBlock := [];
      pendingHandle, pendingIndexEntry := offset, true;
      cuts, offsets := cuts + [|all|], offsets + [offset];
      offset := offset + size;
      if filter != null { filter.StartBlock(offset); }
    }

    method Finish(size: nat) returns (t: TableFile)
      requires Ok() && size > 0
      modifies this, filter
      ensures all == old(all)
      ensures TableOk(t, all, cuts, offsets)
      ensures filter == null ==> t.filter.None?
      ensures filter != null ==> t.filter.Some? && (|t.filter.value| < WORD ==>
        FilterOk(filter.hash, t.filter.value, all, cuts, offsets))
    {
      hide LaidOut, Pending, Told, TableOk, FilterOk, FilterBlock.Strung, FilterBlock.Generated, FilterBlock.Placed,
        Less, Ahead;
      Flush(size);
      var filterBlock := FinishFilter();
      FinishLaid(all, cuts, offsets, file, index, dataBlock, lastKey, offset, pendingIndexEntry, pendingHandle);
      if pendingIndexEntry {
        var successor := InternalSuccessor(lastKey);
        FinishIndex(all, cuts, offsets, file, index, lastKey, pendingHandle, successor);
        index := index + [IndexEntry(successor, pendingHandle)];
        pendingIndexEntry := false;
      }
      t := TableFile(file, index, filterBlock);
    }

    method FinishFilter() returns (filterBlock: Option<Bytes>)
      requires Ok()
      modifies filter
      ensures filter == null ==> filterBlock.None?
      ensures filter != null ==> filterBlock.Some? && (|filterBlock.value| < WORD ==>
        FilterOk(filter.hash, filterBlock.value, all, cuts, offsets))
    {
      hide LaidOut, Pending, Told, FilterOk, FilterBlock.Strung, FilterBlock.Generated, FilterBlock.Placed,
        FilterBlock.BlockMayMatch, FilterBlock.GroupMatches, FilterBlock.KeysAt;
      filterBlock := None;
      if filter != null {
        var contents := filter.Finish();
        filterBlock := Some(contents);
        if |contents| < WORD {
          Cuts();
          ToldFilter(filter.hash, contents, all, cuts, offsets, offset, filter.added);
        }
      }
    }

    lemma Empty()
      requires Laid() && |dataBlock| == 0
      ensures dataBlock == [] && (|all| > 0 ==> pendingIndexEntry)
    {
    }
  }

  lemma AddLaid(all: seq<Pair>, cuts: seq<nat>, offsets: seq<nat>, file: map<nat, seq<Pair>>, index: seq<IndexEntry>,
                dataBlock: seq<Pair>, lastKey: IKey, offset: nat, handle: nat, separator: IKey, pair: Pair)
    requires LaidOut(all, cuts, offsets, file, index, dataBlock, lastKey, offset)
    requires Pending(all, cuts, offsets, index, true, handle)
    requires Ahead(lastKey, pair.key) && !Ahead(separator, lastKey) && Ahead(separator, pair.key)
    requires separator != lastKey ==> Rank(separator.user) < Rank(pair.key.user)
    ensures var more := index + [IndexEntry(separator, handle)];
      && LaidOut(all + [pair], cuts, offsets, file, more, dataBlock + [pair], pair.key, offset)
      && Pending(all + [pair], cuts, offsets, more, false, handle)
  {
    var more := index + [IndexEntry(separator, handle)];
    AddSorted(all, pair);
    AddCut(all, cuts, offsets, file, pair);
    AddIndexed(all, cuts, offsets, index, more, pair);
    assert (all + [pair])[cuts[|offsets|]..] == all[cuts[|offsets|]..] + [pair];
  }

  lemma AddMore(all: seq<Pair>, cuts: seq<nat>, offsets: seq<nat>, file: map<nat, seq<Pair>>, index: seq<IndexEntry>,
                dataBlock: seq<Pair>, lastKey: IKey, offset: nat, handle: nat, pair: Pair)
    requires LaidOut(all, cuts, offsets, file, index, dataBlock, lastKey, offset)
    requires Pending(all, cuts, offsets, index, false, handle) && (|all| > 0 ==> Ahead(lastKey, pair.key))
    ensures LaidOut(all + [pair], cuts, offsets, file, index, dataBlock + [pair], pair.key, offset)
    ensures Pending(all + [pair], cuts, offsets, index, false, handle)
  {
    AddSorted(all, pair);
    AddCut(all, cuts, offsets, file, pair);
    AddIndexed(all, cuts, offsets, index, index, pair);
    assert (all + [pair])[cuts[|offsets|]..] == all[cuts[|offsets|]..] + [pair];
  }

  lemma FlushLaid(all: seq<Pair>, cuts: seq<nat>, offsets: seq<nat>, file: map<nat, seq<Pair>>, index: seq<IndexEntry>,
                  dataBlock: seq<Pair>, lastKey: IKey, offset: nat, pending: bool, handle: nat, size: nat)
    requires LaidOut(all, cuts, offsets, file, index, dataBlock, lastKey, offset) && |dataBlock| > 0 && size > 0
    requires Pending(all, cuts, offsets, index, pending, handle)
    ensures LaidOut(all, cuts + [|all|], offsets + [offset], file[offset := dataBlock], index, [], lastKey,
      offset + size)
    ensures Pending(all, cuts + [|all|], offsets + [offset], index, true, offset)
  {
  }

  lemma FlushTold(all: seq<Pair>, cuts: seq<nat>, offsets: seq<nat>, offset: nat, size: nat,
                  added: seq<FilterBlock.Added>)
    requires Told(all, cuts + [|all|], offsets + [offset], added) && |cuts| == |offsets| + 1
    ensures Told(all, cuts + [|all|] + [|all|], offsets + [offset] + [offset + size], added)
  {
  }

  lemma ToldFilter(hash: Bytes -> Word, contents: Bytes, all: seq<Pair>, cuts: seq<nat>, offsets: seq<nat>,
                   offset: nat, added: seq<FilterBlock.Added>)
    requires Told(all, cuts + [|all|], offsets + [offset], added) && |cuts| == |offsets| + 1
    requires forall a :: a in added ==> FilterBlock.BlockMayMatch(hash, contents, a.offset, a.key)
    ensures FilterOk(hash, contents, all, cuts, offsets)
  {
    hide FilterBlock.BlockMayMatch;
    forall i, m | 0 <= i < |offsets| && cuts[i] <= m < cuts[i + 1] && m < |all|
      ensures FilterBlock.BlockMayMatch(hash, contents, offsets[i], all[m].key.user)
    {
      assert cuts[i] == (cuts + [|all|])[i] && cuts[i + 1] == (cuts + [|all|])[i + 1];
      assert offsets[i] == (offsets + [offset])[i];
      assert FilterBlock.Added(offsets[i], all[m].key.user) in added;
    }
  }

  // With nothing left to index the table is complete.
  lemma FinishLaid(all: seq<Pair>, cuts: seq<nat>, offsets: seq<nat>, file: map<nat, seq<Pair>>, index: seq<IndexEntry>,
                   dataBlock: seq<Pair>, lastKey: IKey, offset: nat, pending: bool, handle: nat)
    requires LaidOut(all, cuts, offsets, file, index, dataBlock, lastKey, offset) && dataBlock == []
    requires Pending(all, cuts, offsets, index, pending, handle)
    ensures Ascending(all) && Cut(all, cuts, offsets, file) && Indexed(all, cuts, offsets, index)
    ensures pending ==> |index| + 1 == |offsets| && handle == offsets[|index|] && cuts[|offsets|] == |all| > 0
    ensures pending ==> lastKey == all[|all| - 1].key
    ensures !pending ==> forall filter :: TableOk(TableFile(file, index, filter), all, cuts, offsets)
  {
  }

  lemma FinishIndex(all: seq<Pair>, cuts: seq<nat>, offsets: seq<nat>, file: map<nat, seq<Pair>>,
                    index: seq<IndexEntry>, lastKey: IKey, handle: nat, successor: IKey)
    requires Ascending(all) && Cut(all, cuts, offsets, file) && Indexed(all, cuts, offsets, index)
    requires |index| + 1 == |offsets| && handle == offsets[|index|] && cuts[|offsets|] == |all| > 0
    requires lastKey == all[|all| - 1].key && !Ahead(successor, lastKey)
    ensures forall filter :: TableOk(TableFile(file, index + [IndexEntry(successor, handle)], filter), all, cuts,
      offsets)
  {
  }

  lemma AddSorted(all: seq<Pair>, pair: Pair)
    requires Ascending(all) && (|all| > 0 ==> Ahead(all[|all| - 1].key, pair.key))
    ensures Ascending(all + [pair])
  {
  }

  lemma AddCut(all: seq<Pair>, cuts: seq<nat>, offsets: seq<nat>, file: map<nat, seq<Pair>>, pair: Pair)
    requires Cut(all, cuts, offsets, file)
    ensures Cut(all + [pair], cuts, offsets, file)
  {
  }

  // Every index key is below the new entry, and so is a new one.
  lemma AddIndexed(all: seq<Pair>, cuts: seq<nat>, offsets: seq<nat>, index: seq<IndexEntry>, more: seq<IndexEntry>,
                   pair: Pair)
    requires Ascending(all) && Indexed(all, cuts, offsets, index) && (|all| > 0 ==> Ahead(all[|all| - 1].key, pair.key))
    requires forall i :: 0 < i <= |index| ==> cuts[i] < |all|
    requires more == index || (|more| == |index| + 1 && more[..|index|] == index && |index| < |offsets|
      && more[|index|].handle == offsets[|index|] && cuts[|index| + 1] == |all| > 0
      && !Ahead(more[|index|].key, all[|all| - 1].key) && Ahead(more[|index|].key, pair.key)
      && (more[|index|].key != all[|all| - 1].key ==> Rank(more[|index|].key.user) < Rank(pair.key.user)))
    ensures Indexed(all + [pair], cuts, offsets, more)
  {
  }

  lemma AddTold(all: seq<Pair>, cuts: seq<nat>, offsets: seq<nat>, offset: nat, added: seq<FilterBlock.Added>,
    pair: Pair)
    requires Told(all, cuts + [|all|], offsets + [offset], added) && |cuts| == |offsets| + 1
    requires forall i :: 0 <= i < |cuts| ==> cuts[i] <= |all|
    ensures Told(all + [pair], cuts + [|all| + 1], offsets + [offset],
                 added + [FilterBlock.Added(offset, pair.key.user)])
  {
    var longer, cs, os := all + [pair], cuts + [|all| + 1], offsets + [offset];
    forall i, m | 0 <= i < |os| && cs[i] <= m < cs[i + 1] && m < |longer|
      ensures FilterBlock.Added(os[i], longer[m].key.user) in added + [FilterBlock.Added(offset, pair.key.user)]
    {
      if m < |all| {
        assert cs[i] == (cuts + [|all|])[i] && m < (cuts + [|all|])[i + 1] && longer[m] == all[m];
        assert FilterBlock.Added(os[i], all[m].key.user) in added;
      }
    }
  }

  // ---- The lookup.

  // Seek on a block: the first entry not ahead of the key.
  method SeekBlock(pairs: seq<Pair>, k: IKey) returns (j: nat)
    ensures j <= |pairs| && (forall m :: 0 <= m < j ==> Ahead(pairs[m].key, k))
    ensures j < |pairs| ==> !Ahead(pairs[j].key, k)
  {
    j := 0;
    while j < |pairs| && Ahead(pairs[j].key, k)
      invariant j <= |pairs| && forall m :: 0 <= m < j ==> Ahead(pairs[m].key, k)
    {
      j := j + 1;
    }
  }

  method SeekIndex(index: seq<IndexEntry>, k: IKey) returns (i: nat)
    ensures i <= |index| && (forall m :: 0 <= m < i ==> Ahead(index[m].key, k))
    ensures i < |index| ==> !Ahead(index[i].key, k)
  {
    i := 0;
    while i < |index| && Ahead(index[i].key, k)
      invariant i <= |index| && forall m :: 0 <= m < i ==> Ahead(index[m].key, k)
    {
      i := i + 1;
    }
  }

  // An entry the lookup asks for: the key's user, at its sequence or before.
  predicate Wanted(p: Pair, k: IKey) {
    p.key.user == k.user && p.key.tag <= k.tag
  }

  // Entries before a block whose predecessor's index key is ahead of k are ahead of it too.
  lemma NotBefore(t: TableFile, all: seq<Pair>, cuts: seq<nat>, offsets: seq<nat>, k: IKey, i: nat, m: nat)
    requires TableOk(t, all, cuts, offsets) && i <= |t.index| && m < cuts[i]
    requires forall j :: 0 <= j < i ==> Ahead(t.index[j].key, k)
    ensures m < |all| && Ahead(all[m].key, k)
  {
    var c := cuts[i];
    assert i > 0 && Ahead(t.index[i - 1].key, k) && Separates(all, t.index[i - 1].key, c);
    assert m < c - 1 ==> Ahead(all[m].key, all[c - 1].key);
  }

  /** If any entry is wanted, the block the index leads to has one of that user key not ahead of k. */
  lemma InBlock(t: TableFile, all: seq<Pair>, cuts: seq<nat>, offsets: seq<nat>, k: IKey, i: nat, m: nat)
    returns (n: nat)
    requires TableOk(t, all, cuts, offsets) && i <= |t.index| && m < |all| && Wanted(all[m], k)
    requires forall j :: 0 <= j < i ==> Ahead(t.index[j].key, k)
    requires i < |t.index| ==> !Ahead(t.index[i].key, k)
    ensures cuts[i] <= m && i < |t.index|
    ensures cuts[i] <= n < cuts[i + 1] && n <= m && all[n].key.user == k.user && !Ahead(all[n].key, k)
  {
    if m < cuts[i] { NotBefore(t, all, cuts, offsets, k, i, m); }
    var c := cuts[i + 1];
    n := m;
    if m >= c {
      assert Separates(all, t.index[i].key, c);
      n := c - 1;
      PrecedesIsAhead(all[n].key, k);
      assert Ahead(all[n].key, all[m].key);
    }
  }

  /** The first entry of the block not ahead of k is the newest wanted one. */
  lemma FirstInBlock(all: seq<Pair>, k: IKey, from: nat, to: nat, j: nat, n: nat, m: nat)
    requires Ascending(all) && from <= n < to <= |all| && n <= m < |all| && Wanted(all[m], k)
    requires all[n].key.user == k.user && !Ahead(all[n].key, k)
    requires from <= j <= to && (forall x :: from <= x < j ==> Ahead(all[x].key, k))
      && (j < to ==> !Ahead(all[j].key, k))
    ensures j < to && Wanted(all[j], k) && all[m].key.tag <= all[j].key.tag
  {
    assert j <= n;
    PrecedesIsAhead(all[j].key, k);
    assert j < n ==> Ahead(all[j].key, all[n].key);
    assert j < m ==> Ahead(all[j].key, all[m].key);
  }

  lemma Rejected(t: TableFile, hash: Bytes -> Word, k: IKey, all: seq<Pair>, cuts: seq<nat>, offsets: seq<nat>, i: nat)
    requires TableOk(t, all, cuts, offsets) && i < |t.index|
    requires forall j :: 0 <= j < i ==> Ahead(t.index[j].key, k)
    requires !Ahead(t.index[i].key, k)
    requires t.filter.Some? && FilterOk(hash, t.filter.value, all, cuts, offsets)
    requires !FilterBlock.BlockMayMatch(hash, t.filter.value, offsets[i], k.user)
    ensures forall p :: p in all ==> !Wanted(p, k)
  {
    hide FilterBlock.BlockMayMatch;
    forall m | 0 <= m < |all|
      ensures !Wanted(all[m], k)
    {
      if Wanted(all[m], k) { var n := InBlock(t, all, cuts, offsets, k, i, m); }
    }
  }

  lemma PastTheEnd(t: TableFile, k: IKey, all: seq<Pair>, cuts: seq<nat>, offsets: seq<nat>)
    requires TableOk(t, all, cuts, offsets)
    requires forall j :: 0 <= j < |t.index| ==> Ahead(t.index[j].key, k)
    ensures forall p :: p in all ==> !Wanted(p, k)
  {
    forall m | 0 <= m < |all|
      ensures !Wanted(all[m], k)
    {
      NotBefore(t, all, cuts, offsets, k, |t.index|, m);
    }
  }

  lemma Delivered(t: TableFile, k: IKey, all: seq<Pair>, cuts: seq<nat>, offsets: seq<nat>, i: nat, block: seq<Pair>,
                  j: nat)
    requires TableOk(t, all, cuts, offsets) && i < |t.index|
    requires forall j :: 0 <= j < i ==> Ahead(t.index[j].key, k)
    requires !Ahead(t.index[i].key, k) && block == all[cuts[i]..cuts[i + 1]]
    requires j <= |block| && (forall m :: 0 <= m < j ==> Ahead(block[m].key, k))
      && (j < |block| ==> !Ahead(block[j].key, k))
    ensures forall p :: p in all && Wanted(p, k) ==>
      j < |block| && Wanted(block[j], k) && p.key.tag <= block[j].key.tag
    ensures j < |block| ==> block[j] in all
  {
    forall x | cuts[i] <= x < cuts[i] + j
      ensures Ahead(all[x].key, k)
    {
      assert block[x - cuts[i]] == all[x];
    }
    forall m | 0 <= m < |all| && Wanted(all[m], k)
      ensures j < |block| && Wanted(block[j], k) && all[m].key.tag <= block[j].key.tag
    {
      var n := InBlock(t, all, cuts, offsets, k, i, m);
      FirstInBlock(all, k, cuts[i], cuts[i + 1], cuts[i] + j, n, m);
    }
  }

  /** The pair is entry m of the table, in block i. */
  predicate Within(p: Pair, all: seq<Pair>, cuts: seq<nat>, i: int, m: int) {
    0 <= i && i + 1 < |cuts| && cuts[i] <= m < cuts[i + 1] && m < |all| && all[m] == p
  }

  /**
   InternalGet: whenever the table has an entry of the user key at or before the sequence, the newest such entry is
   delivered, wherever blocks were cut, however separators were shortened, and whatever the filter says of other keys;
   and nothing of a block whose filter rejects the key is.
   */
  method InternalGet(t: TableFile, hash: Bytes -> Word, k: IKey, ghost all: seq<Pair>, ghost cuts: seq<nat>,
                     ghost offsets: seq<nat>)
    returns (r: Option<Pair>)
    requires TableOk(t, all, cuts, offsets)
    requires t.filter.Some? ==> FilterOk(hash, t.filter.value, all, cuts, offsets)
    ensures r.Some? ==> r.value in all && !Ahead(r.value.key, k)
    ensures r.Some? && t.filter.Some? ==> exists i, m ::
      && Within(r.value, all, cuts, i, m) && i < |offsets|
      && FilterBlock.BlockMayMatch(hash, t.filter.value, offsets[i], k.user)
    ensures forall p :: p in all && Wanted(p, k) ==> r.Some? && Wanted(r.value, k) && p.key.tag <= r.value.key.tag
  {
    hide FilterBlock.BlockMayMatch, Ahead, FilterOk, Ascending, Separates;
    var i := SeekIndex(t.index, k);
    if i < |t.index| {
      var handle := t.index[i].handle;
      var block := t.file[handle];
      if t.filter.Some? {
        var may := FilterBlock.KeyMayMatch(hash, t.filter.value, handle, k.user);
        if !may {
          Rejected(t, hash, k, all, cuts, offsets, i);
          return None;
        }
      }
      var j := SeekBlock(block, k);
      Delivered(t, k, all, cuts, offsets, i, block, j);
      if j < |block| {
        assert Within(block[j], all, cuts, i, cuts[i] + j);
        return Some(block[j]);
      }
    } else {
      PastTheEnd(t, k, all, cuts, offsets);
    }
    return None;
  }
}
