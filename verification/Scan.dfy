/**
 Iterators over a whole store (DBImpl::NewIterator): the layers behind a reader's view have
 one sorted union, and a DB iterator driven over it walks the map the write history gives at
 the reader's sequence.
 */
module Scan {
  import opened Keys
  import opened Cursor
  import opened Files
  import opened Lookup
  import opened Store
  import opened VisibleMap
  import DbIterator
  import Merger
  import StoreMachine
  import R = Reads

  // ---- The children of the merging iterator.

  ghost function Union(lists: seq<seq<Entry>>): set<Entry> {
    set list, e | list in lists && e in list :: e
  }

  // NewConcatenatingIterator: the files of a level one after the other.
  ghost function Flat(files: seq<File>): seq<Entry> {
    if |files| == 0 then [] else Flat(files[..|files| - 1]) + files[|files| - 1].entries
  }

  ghost function FileLists(files: seq<File>): (r: seq<seq<Entry>>)
    ensures |r| == |files| && forall i :: 0 <= i < |files| ==> r[i] == files[i].entries
  {
    seq(|files|, i requires 0 <= i < |files| => files[i].entries)
  }

  // AddIterators, below level 0; an empty level adds an empty child where the source adds none.
  ghost function DeepLists(version: seq<seq<File>>): (r: seq<seq<Entry>>)
    requires |version| == NUM_LEVELS
    ensures |r| == NUM_LEVELS - 1 && forall i :: 0 <= i < |r| ==> r[i] == Flat(version[i + 1])
  {
    seq(NUM_LEVELS - 1, i requires 0 <= i < NUM_LEVELS - 1 => Flat(version[i + 1]))
  }

  ghost function MemLists(st: State, v: View): seq<seq<Entry>>
    requires v.mem in st.tables && (v.imm.Some? ==> v.imm.value in st.tables)
  {
    if v.imm.Some? then [st.tables[v.mem], st.tables[v.imm.value]] else [st.tables[v.mem]]
  }

  /** NewInternalIterator: memtables, level-0 files, deeper levels. */
  ghost function Children(st: State, v: View): seq<seq<Entry>>
    requires v.mem in st.tables && (v.imm.Some? ==> v.imm.value in st.tables) && |v.version| == NUM_LEVELS
  {
    MemLists(st, v) + (FileLists(v.version[0]) + DeepLists(v.version))
  }

  // ---- They can be merged, and hold what the view holds.

  ghost predicate NoShared(A: set<Entry>, B: set<Entry>) {
    forall e, f :: e in A && f in B ==> e.key != f.key
  }

  lemma NewerNoShared(A: set<Entry>, B: set<Entry>)
    requires R.Newer(A, B) || R.Newer(B, A)
    ensures NoShared(A, B)
  {
  }

  lemma InUnion(lists: seq<seq<Entry>>, i: nat, x: nat)
    requires i < |lists| && x < |lists[i]|
    ensures lists[i][x] in Union(lists)
  {
    assert lists[i] in lists && lists[i][x] in lists[i];
  }

  lemma UnionConcat(a: seq<seq<Entry>>, b: seq<seq<Entry>>)
    ensures Union(a + b) == Union(a) + Union(b)
  {
  }

  lemma MergeableConcat(a: seq<seq<Entry>>, b: seq<seq<Entry>>)
    requires Merger.Mergeable(a) && Merger.Mergeable(b) && NoShared(Union(a), Union(b))
    ensures Merger.Mergeable(a + b)
  {
    var c: seq<seq<Entry>> := a + b;
    forall i, j, x, y | 0 <= i < j < |c| && 0 <= x < |c[i]| && 0 <= y < |c[j]| ensures c[i][x].key != c[j][y].key {
      if i < |a| && |a| <= j {
        assert c[i] == a[i] && c[j] == b[j - |a|];
        InUnion(a, i, x);
        InUnion(b, j - |a|, y);
      }
    }
  }

  lemma {:induction false} FlatLevel(files: seq<File>)
    requires LevelOk(files)
    ensures Sorted(Flat(files)) && Elems(Flat(files)) == FileEntries(files)
  {
    if |files| == 0 {
      assert FileEntries(files) == {};
    } else {
      var n := |files| - 1;
      var front, last := files[..n], files[n];
      FlatLevel(front);
      assert files == front + [last];
      forall e, x | e in Flat(front) && x in last.entries ensures Before(e.key, x.key) {
        assert e in Elems(Flat(front));
        LevelOrder(files, e, x);
      }
      ElemsConcat(Flat(front), last.entries);
      FilesConcat(front, last);
      SortedJoin(Flat(front), last.entries);
    }
  }

  lemma LevelOrder(files: seq<File>, e: Entry, x: Entry)
    requires LevelOk(files) && |files| > 0 && e in FileEntries(files[..|files| - 1]) && x in files[|files| - 1].entries
    ensures Before(e.key, x.key)
  {
    var n := |files| - 1;
    var f :| f in files[..n] && e in f.entries;
    var i :| 0 <= i < n && files[i] == f;
    var k :| 0 <= k < |f.entries| && f.entries[k] == e;
    var m :| 0 <= m < |files[n].entries| && files[n].entries[m] == x;
    EntryInRange(f, k);
    EntryInRange(files[n], m);
  }

  lemma FilesConcat(front: seq<File>, last: File)
    ensures FileEntries(front + [last]) == FileEntries(front) + Elems(last.entries)
  {
  }

  lemma SortedJoin(a: seq<Entry>, b: seq<Entry>)
    requires Sorted(a) && Sorted(b) && forall e, x :: e in a && x in b ==> Before(e.key, x.key)
    ensures Sorted(a + b)
  {
  }

  lemma MemListsOk(st: State, v: View)
    requires ViewOk(st, v)
    ensures Merger.Mergeable(MemLists(st, v)) && Union(MemLists(st, v)) == MemEntries(st, v.mem) + ImmEntries(st, v.imm)
  {
    var lists: seq<seq<Entry>> := MemLists(st, v);
    NewerNoShared(MemEntries(st, v.mem), Under(st, v));
    hide VersionOk, R.Newer, Faithful;
    forall i, j, x, y | 0 <= i < j < |lists| && 0 <= x < |lists[i]| && 0 <= y < |lists[j]|
      ensures lists[i][x].key != lists[j][y].key
    {
      assert lists[0][x] in MemEntries(st, v.mem) && lists[1][y] in Under(st, v);
    }
  }

  lemma Level0ListsOk(version: seq<seq<File>>)
    requires VersionOk(version)
    ensures Merger.Mergeable(FileLists(version[0])) && Union(FileLists(version[0])) == FileEntries(version[0])
  {
    var files: seq<File>, lists: seq<seq<Entry>> := version[0], FileLists(version[0]);
    forall i, j, x, y | 0 <= i < j < |lists| && 0 <= x < |lists[i]| && 0 <= y < |lists[j]|
      ensures lists[i][x].key != lists[j][y].key
    {
      var f, g := files[i], files[j];
      assert f in files && g in files && f != g;
      NewerNoShared(Elems(f.entries), Elems(g.entries));
      assert lists[i][x] in Elems(f.entries) && lists[j][y] in Elems(g.entries);
    }
    UnionOfFiles(files);
  }

  lemma UnionOfFiles(files: seq<File>)
    ensures Union(FileLists(files)) == FileEntries(files)
  {
    forall e | e in FileEntries(files) ensures e in Union(FileLists(files)) {
      var f :| f in files && e in f.entries;
      var i :| 0 <= i < |files| && files[i] == f;
      assert FileLists(files)[i] in FileLists(files);
    }
  }

  lemma DeepListsOk(version: seq<seq<File>>)
    requires VersionOk(version)
    ensures Merger.Mergeable(DeepLists(version))
    ensures forall e :: e in Union(DeepLists(version)) <==> exists l ::
      1 <= l < NUM_LEVELS && e in FileEntries(version[l])
  {
    var lists: seq<seq<Entry>> := DeepLists(version);
    forall i | 0 <= i < |lists| ensures Sorted(lists[i]) && Elems(lists[i]) == FileEntries(version[i + 1]) {
      FlatLevel(version[i + 1]);
    }
    forall i, j, x, y | 0 <= i < j < |lists| && 0 <= x < |lists[i]| && 0 <= y < |lists[j]|
      ensures lists[i][x].key != lists[j][y].key
    {
      assert R.Newer(FileEntries(version[i + 1]), FileEntries(version[j + 1]));
      NewerNoShared(Elems(lists[i]), Elems(lists[j]));
      assert lists[i][x] in Elems(lists[i]) && lists[j][y] in Elems(lists[j]);
    }
    hide VersionOk, FileEntries, DeepLists, Sorted;
    forall e ensures e in Union(lists) <==> exists l :: 1 <= l < NUM_LEVELS && e in FileEntries(version[l]) {
      if e in Union(lists) {
        var list :| list in lists && e in list;
        var i :| 0 <= i < |lists| && lists[i] == list;
        assert e in Elems(lists[i]);
        assert e in FileEntries(version[i + 1]);
      }
      if exists l :: 1 <= l < NUM_LEVELS && e in FileEntries(version[l]) {
        var l :| 1 <= l < NUM_LEVELS && e in FileEntries(version[l]);
        assert e in Elems(lists[l - 1]) && lists[l - 1] in lists;
      }
    }
  }

  lemma FileListsOk(version: seq<seq<File>>)
    requires VersionOk(version)
    ensures Merger.Mergeable(FileLists(version[0]) + DeepLists(version))
    ensures Union(FileLists(version[0]) + DeepLists(version)) == VersionEntries(version)
  {
    Level0ListsOk(version);
    DeepListsOk(version);
    var a, b := FileLists(version[0]), DeepLists(version);
    forall e, f | e in Union(a) && f in Union(b) ensures e.key != f.key {
      var l :| 1 <= l < NUM_LEVELS && f in FileEntries(version[l]);
      assert R.Newer(FileEntries(version[0]), FileEntries(version[l]));
      NewerNoShared(FileEntries(version[0]), FileEntries(version[l]));
    }
    hide Merger.Mergeable, Union, FileLists, DeepLists, VersionOk;
    MergeableConcat(a, b);
    UnionConcat(a, b);
    forall e ensures e in VersionEntries(version) <==> exists l :: 0 <= l < NUM_LEVELS && e in FileEntries(version[l]) {
      if e in VersionEntries(version) {
        var l: int, f: File :| 0 <= l < |version| && f in version[l] && e in f.entries;
        assert e in FileEntries(version[l]);
      }
    }
  }

  /** The children of an iterator over a view can be merged, and together are the view's layers. */
  lemma ChildrenMerge(st: State, v: View)
    requires ViewOk(st, v)
    ensures Merger.Mergeable(Children(st, v)) && Union(Children(st, v)) == Contents(st, v)
  {
    MemListsOk(st, v);
    FileListsOk(v.version);
    var a, b := MemLists(st, v), FileLists(v.version[0]) + DeepLists(v.version);
    NewerNoShared(MemEntries(st, v.mem), Under(st, v));
    NewerNoShared(ImmEntries(st, v.imm), VersionEntries(v.version));
    hide Merger.Mergeable, Union, MemLists, FileLists, DeepLists, VersionOk, R.Newer;
    assert NoShared(Union(a), Union(b));
    MergeableConcat(a, b);
    UnionConcat(a, b);
  }

  lemma MergedIsUnion(lists: seq<seq<Entry>>, merged: seq<Entry>, home: seq<Merger.Home>, place: seq<seq<nat>>)
    requires Merger.IsMerge(lists, merged, home, place)
    ensures Elems(merged) == Union(lists)
  {
    forall e | e in merged ensures e in Union(lists) {
      var x :| 0 <= x < |merged| && merged[x] == e;
      assert Merger.HomeOk(lists, merged, home, place, x);
      InUnion(lists, home[x].child, home[x].at);
    }
    forall e | e in Union(lists) ensures e in merged {
      var list :| list in lists && e in list;
      var i :| 0 <= i < |lists| && lists[i] == list;
      var a :| 0 <= a < |lists[i]| && lists[i][a] == e;
      assert Merger.PlaceOk(lists, merged, home, place, i, a);
    }
  }

  // ---- What the iterator shows.

  /** A sorted list without repeated sequence numbers shows what its set of entries shows. */
  lemma ListShows(list: seq<Entry>, s: Sequence, u: UserKey, value: Bytes)
    requires R.Stamped(Elems(list))
    ensures Shows(list, s, u, value) <==> R.Shows(Elems(list), u, s, value)
  {
    forall i | 0 <= i < |list| ensures Newest(list, s, u, i) <==> R.Newest(Elems(list), u, s, list[i]) {
      SameNewest(list, s, u, i);
    }
    if R.Shows(Elems(list), u, s, value) {
      var e :| R.Newest(Elems(list), u, s, e) && e.key.kind.Value? && e.value == value;
      var i :| 0 <= i < |list| && list[i] == e;
      assert Newest(list, s, u, i);
    }
  }

  lemma SameNewest(list: seq<Entry>, s: Sequence, u: UserKey, i: nat)
    requires R.Stamped(Elems(list)) && i < |list|
    ensures Newest(list, s, u, i) <==> R.Newest(Elems(list), u, s, list[i])
  {
    assert list[i] in Elems(list);
    forall j | 0 <= j < |list| ensures Tag(list[j].key) <= Tag(list[i].key) <==>
      list[j].key.sequence <= list[i].key.sequence {
      assert list[j] in Elems(list);
    }
    forall f | f in Elems(list) ensures exists j :: 0 <= j < |list| && list[j] == f { }
  }

  ghost predicate FirstIn(history: seq<Entry>, s: Sequence, r: Range, p: Spot) {
    match p
    case Off => forall u :: In(r, u) ==> HistoryGet(history, u, s).None?
    case On(k, v) =>
      In(r, k) && HistoryGet(history, k, s) == Some(v) && forall u :: In(r, u) && HistoryGet(history, u, s).Some? ==>
        k <= u
  }

  ghost predicate LastIn(history: seq<Entry>, s: Sequence, r: Range, p: Spot) {
    match p
    case Off => forall u :: In(r, u) ==> HistoryGet(history, u, s).None?
    case On(k, v) =>
      In(r, k) && HistoryGet(history, k, s) == Some(v) && forall u :: In(r, u) && HistoryGet(history, u, s).Some? ==>
        u <= k
  }

  /** One operation of a cursor over the history's map. */
  ghost predicate MovesOver(history: seq<Entry>, s: Sequence, op: Op, before: Spot, after: Spot) {
    match op
    case SeekToFirst => FirstIn(history, s, All, after)
    case SeekToLast => LastIn(history, s, All, after)
    case Seek(t) => FirstIn(history, s, From(t), after)
    case Next => before.On? && FirstIn(history, s, After(before.key), after)
    case Prev => before.On? && LastIn(history, s, Below(before.key), after)
  }

  /** The spots of a session over it; it ends early at a Next or Prev off the end. */
  ghost predicate Walks(history: seq<Entry>, s: Sequence, ops: seq<Op>, spots: seq<Spot>) {
    && |spots| <= |ops|
    && (forall i :: 0 <= i < |spots| ==> MovesOver(history, s, ops[i], if i == 0 then Off else spots[i - 1], spots[i]))
    && (|spots| < |ops| ==> (ops[|spots|].Next? || ops[|spots|].Prev?) && (|spots| == 0 || spots[|spots| - 1].Off?))
  }

  ghost predicate SameMap(list: seq<Entry>, history: seq<Entry>, s: Sequence) {
    forall u, v :: Shows(list, s, u, v) <==> HistoryGet(history, u, s) == Some(v)
  }

  lemma SamePresent(list: seq<Entry>, history: seq<Entry>, s: Sequence, u: UserKey)
    requires SameMap(list, history, s)
    ensures Present(list, s, u) <==> HistoryGet(history, u, s).Some?
  {
    hide HistoryGet, Shows;
    if HistoryGet(history, u, s).Some? { assert Shows(list, s, u, HistoryGet(history, u, s).value); }
  }

  lemma SameFirst(list: seq<Entry>, history: seq<Entry>, s: Sequence, r: Range, p: Spot)
    requires SameMap(list, history, s)
    ensures IsFirst(list, s, r, p) ==> FirstIn(history, s, r, p)
    ensures IsLast(list, s, r, p) ==> LastIn(history, s, r, p)
  {
    hide HistoryGet, Shows, Present;
    forall u ensures Present(list, s, u) <==> HistoryGet(history, u, s).Some? { SamePresent(list, history, s, u); }
  }

  lemma SameMove(list: seq<Entry>, history: seq<Entry>, s: Sequence, op: Op, before: Spot, after: Spot)
    requires SameMap(list, history, s) && Moves(list, s, op, before, after)
    ensures MovesOver(history, s, op, before, after)
  {
    hide SameMap, IsFirst, IsLast, FirstIn, LastIn;
    match op
    case SeekToFirst => SameFirst(list, history, s, All, after);
    case SeekToLast => SameFirst(list, history, s, All, after);
    case Seek(t) => SameFirst(list, history, s, From(t), after);
    case Next => SameFirst(list, history, s, After(before.key), after);
    case Prev => SameFirst(list, history, s, Below(before.key), after);
  }

  lemma {:induction false} RunMoves(list: seq<Entry>, s: Sequence, ops: seq<Op>, spots: seq<Spot>, i: nat)
    requires Run(list, s, Off, ops, spots) && i < |spots|
    ensures Moves(list, s, ops[i], if i == 0 then Off else spots[i - 1], spots[i])
    decreases |ops|
  {
    hide Moves;
    var n := |ops| - 1;
    if i < n { RunMoves(list, s, ops[..n], spots[..n], i); }
  }

  lemma WalkOfRun(list: seq<Entry>, history: seq<Entry>, s: Sequence, ops: seq<Op>, spots: seq<Spot>)
    requires SameMap(list, history, s) && DbIterator.Complete(list, s, ops, spots)
    ensures Walks(history, s, ops, spots)
  {
    hide SameMap, Run, Moves, MovesOver;
    forall i | 0 <= i < |spots| ensures MovesOver(history, s, ops[i], if i == 0 then Off else spots[i - 1], spots[i]) {
      RunMoves(list, s, ops[..|spots|], spots, i);
      SameMove(list, history, s, ops[i], if i == 0 then Off else spots[i - 1], spots[i]);
    }
  }

  lemma ViewMap(st: State, v: View, merged: seq<Entry>)
    requires StoreMachine.Inv(st) && v in st.readers && Elems(merged) == Contents(st, v)
    ensures SameMap(merged, st.history, v.sequence)
  {
    StoreMachine.KnownStamped(st);
    assert ViewOk(st, v) && Faithful(st, v) && Ascending(st.history);
    assert R.Stamped(Elems(merged)) by { assert Elems(merged) <= Known(st); }
    hide StoreMachine.Inv, ViewOk, Ascending, R.Stamped, HistoryGet, Shows, R.Shows, Contents;
    forall u, value ensures Shows(merged, v.sequence, u, value) <==>
      HistoryGet(st.history, u, v.sequence) == Some(value) {
      ListShows(merged, v.sequence, u, value);
      assert R.Agree(Contents(st, v), Elems(st.history), u, v.sequence);
      HistoryShows(st.history, u, v.sequence, value);
    }
  }

  /**
   A session of the DB iterator over the merging iterator over cursors on the layers of a
   reader's view walks the map the write history gives at the reader's sequence, in both
   directions and at any threshold.
   */
  method ScanThrough(ghost st: State, ghost v: View, sequence: Sequence, children: seq<InternalIterator>,
                     maxSequentialSkip: nat, ops: seq<Op>) returns (spots: seq<Spot>)
    requires StoreMachine.Inv(st) && v in st.readers && sequence == v.sequence && ViewOk(st, v)
    requires CursorsOn(children, Children(st, v))
    modifies children
    ensures Walks(st.history, sequence, ops, spots)
  {
    ChildrenMerge(st, v);
    ghost var merged, home, place := Merger.MergeExists(Children(st, v));
    MergedIsUnion(Children(st, v), merged, home, place);
    ViewMap(st, v, merged);
    hide *;
    spots := MergedSession(children, Children(st, v), merged, home, place, sequence, maxSequentialSkip, ops);
    WalkOfRun(merged, st.history, sequence, ops, spots);
  }

  ghost predicate CursorsOn(children: seq<InternalIterator>, lists: seq<seq<Entry>>)
    reads children
  {
    && |children| == |lists|
    && (forall i :: 0 <= i < |children| ==> children[i].Ok() && children[i].list == lists[i])
    && (forall i, j :: 0 <= i < j < |children| ==> children[i] != children[j])
  }

  method MergedSession(children: seq<InternalIterator>, ghost lists: seq<seq<Entry>>, ghost merged: seq<Entry>,
                       ghost home: seq<Merger.Home>, ghost place: seq<seq<nat>>, sequence: Sequence,
                       maxSequentialSkip: nat, ops: seq<Op>) returns (spots: seq<Spot>)
    requires CursorsOn(children, lists) && Merger.IsMerge(lists, merged, home, place)
    modifies children
    ensures DbIterator.Complete(merged, sequence, ops, spots)
  {
    hide Merger.IsMerge, DbIterator.Complete;
    var iter := new Merger.MergingIterator(children, lists, merged, home, place);
    hide Merger.MergingIterator.Ok;
    spots := DbIterator.Session(iter, sequence, maxSequentialSkip, ops);
  }
}
