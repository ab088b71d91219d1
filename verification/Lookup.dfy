/**
 Point lookup through the layers of the store: MemTable::Get, Version::Get with
 ForEachOverlapping, and DBImpl::Get.  Each stops at its first hit; the layering of the
 store makes that hit the newest readable version.
 */
module Lookup {
  import opened Keys
  import opened Cursor
  import opened Files
  import R = Reads

  ghost function FileEntries(files: seq<File>): set<Entry> {
    set f, e | f in files && e in f.entries :: e
  }

  ghost function VersionEntries(levels: seq<seq<File>>): set<Entry> {
    set l, f, e | 0 <= l < |levels| && f in levels[l] && e in f.entries :: e
  }

  /** Newer data lies in higher-numbered level-0 files and in shallower levels. */
  ghost predicate Layered(levels: seq<seq<File>>) {
    && |levels| > 0
    && (forall f, g :: f in levels[0] && g in levels[0] && f != g ==>
          f.number != g.number && (f.number > g.number ==> R.Newer(Elems(f.entries), Elems(g.entries))))
    && (forall l, m :: 0 <= l < m < |levels| ==> R.Newer(FileEntries(levels[l]), FileEntries(levels[m])))
  }

  /** The outcome of a lookup in S: its newest readable version of u, or that there is none. */
  ghost predicate Finds(S: set<Entry>, u: UserKey, s: Sequence, hit: Option<Entry>) {
    match hit
    case Some(e) => R.Newest(S, u, s, e)
    case None => forall e :: e in S ==> !(e.key.user == u && e.key.sequence <= s)
  }

  /** Seek (u, s) in a sorted run and accept the entry found if it is a version of u. */
  method RunGet(list: seq<Entry>, u: UserKey, s: Sequence) returns (hit: Option<Entry>)
    requires Sorted(list)
    ensures Finds(Elems(list), u, s, hit)
  {
    var it := new InternalIterator(list);
    it.Seek(SeekKey(u, s));
    if it.Valid() && list[it.pos].key.user == u {
      hit := Some(list[it.pos]);
      forall f | f in Elems(list) && f.key.user == u && f.key.sequence <= s
        ensures f.key.sequence <= list[it.pos].key.sequence
      {
        var j :| 0 <= j < |list| && f == list[j];
      }
    } else {
      hit := None;
      forall f | f in Elems(list) ensures !(f.key.user == u && f.key.sequence <= s) {
        var j :| 0 <= j < |list| && f == list[j];
        assert it.pos < j ==> Before(list[it.pos].key, list[j].key);
      }
    }
  }

  /** A hit in a newer layer settles the lookup; otherwise the older layer decides. */
  lemma FindsAcross(A: set<Entry>, B: set<Entry>, u: UserKey, s: Sequence, a: Option<Entry>, b: Option<Entry>)
    requires R.Newer(A, B) && Finds(A, u, s, a)
    requires a.None? ==> Finds(B, u, s, b)
    ensures Finds(A + B, u, s, if a.Some? then a else b)
  {
  }

  /** Insert a file into a list kept newest first. */
  method InsertNewestFirst(files: seq<File>, f: File) returns (r: seq<File>)
    requires forall i, j :: 0 <= i < j < |files| ==> files[i].number > files[j].number
    requires forall g :: g in files ==> g.number != f.number
    ensures forall i, j :: 0 <= i < j < |r| ==> r[i].number > r[j].number
    ensures forall g :: g in r <==> g == f || g in files
  {
    var i := 0;
    while i < |files| && files[i].number > f.number
      invariant 0 <= i <= |files| && forall j :: 0 <= j < i ==> files[j].number > f.number
    {
      i := i + 1;
    }
    r := files[..i] + [f] + files[i..];
    assert files == files[..i] + files[i..];
  }

  /** The level-0 files whose range covers u, newest first. */
  method OverlappingLevel0(files: seq<File>, u: UserKey) returns (tmp: seq<File>)
    requires forall i :: 0 <= i < |files| ==> FileOk(files[i])
    requires forall i, j :: 0 <= i < j < |files| ==> files[i].number != files[j].number
    ensures forall i, j :: 0 <= i < j < |tmp| ==> tmp[i].number > tmp[j].number
    ensures forall f :: f in tmp <==> f in files && FileOk(f) && Covers(f, u)
  {
    tmp := [];
    for i := 0 to |files|
      invariant forall a, b :: 0 <= a < b < |tmp| ==> tmp[a].number > tmp[b].number
      invariant forall f :: f in tmp <==> f in files[..i] && FileOk(f) && Covers(f, u)
    {
      assert files[..i + 1] == files[..i] + [files[i]];
      if Smallest(files[i]).user <= u && u <= Largest(files[i]).user {
        tmp := InsertNewestFirst(tmp, files[i]);
      }
    }
    assert files[..|files|] == files;
  }

  /** Search the covering level-0 files from newest to oldest. */
  method Level0Get(files: seq<File>, u: UserKey, s: Sequence) returns (hit: Option<Entry>)
    requires forall i :: 0 <= i < |files| ==> FileOk(files[i])
    requires forall i, j :: 0 <= i < j < |files| ==> files[i].number != files[j].number
    requires forall f, g :: f in files && g in files && f.number > g.number ==>
      R.Newer(Elems(f.entries), Elems(g.entries))
    ensures Finds(FileEntries(files), u, s, hit)
  {
    var tmp := OverlappingLevel0(files, u);
    hit := None;
    var i := 0;
    while i < |tmp| && hit.None?
      invariant 0 <= i <= |tmp|
      invariant Finds(FileEntries(tmp[..i]), u, s, hit)
    {
      var h := RunGet(tmp[i].entries, u, s);
      OneMoreFile(tmp, i);
      assert R.Newer(FileEntries(tmp[..i]), Elems(tmp[i].entries));
      FindsAcross(FileEntries(tmp[..i]), Elems(tmp[i].entries), u, s, hit, h);
      hit := h;
      i := i + 1;
    }
    Level0Rest(files, tmp, i, u, s, hit);
  }

  lemma OneMoreFile(files: seq<File>, i: nat)
    requires i < |files|
    ensures FileEntries(files[..i + 1]) == FileEntries(files[..i]) + Elems(files[i].entries)
  {
  }

  /** Files not searched are older than the hit, or do not cover u. */
  lemma Level0Rest(files: seq<File>, tmp: seq<File>, i: nat, u: UserKey, s: Sequence, hit: Option<Entry>)
    requires forall k :: 0 <= k < |files| ==> FileOk(files[k])
    requires forall f, g :: f in files && g in files && f.number > g.number ==>
      R.Newer(Elems(f.entries), Elems(g.entries))
    requires forall a, b :: 0 <= a < b < |tmp| ==> tmp[a].number > tmp[b].number
    requires forall f :: f in tmp <==> f in files && FileOk(f) && Covers(f, u)
    requires i <= |tmp| && Finds(FileEntries(tmp[..i]), u, s, hit) && (hit.None? ==> i == |tmp|)
    ensures Finds(FileEntries(files), u, s, hit)
  {
  }

  /** Search one deeper level: only the file FindFile picks can hold the version sought. */
  method LevelGet(files: seq<File>, u: UserKey, s: Sequence) returns (hit: Option<Entry>)
    requires LevelOk(files)
    ensures Finds(FileEntries(files), u, s, hit)
  {
    if |files| == 0 { return None; }
    var index := FindFile(files, SeekKey(u, s));
    hit := None;
    if index < |files| {
      if u < Smallest(files[index]).user {
        // All of the file is past any data for u.
      } else {
        hit := RunGet(files[index].entries, u, s);
      }
    }
    LevelRest(files, index, u, s, hit);
  }

  lemma LevelRest(files: seq<File>, index: nat, u: UserKey, s: Sequence, hit: Option<Entry>)
    requires LevelOk(files) && index <= |files|
    requires forall i :: 0 <= i < index ==> Before(Largest(files[i]), SeekKey(u, s))
    requires index < |files| ==> !Before(Largest(files[index]), SeekKey(u, s))
    requires index < |files| && Smallest(files[index]).user <= u ==> Finds(Elems(files[index].entries), u, s, hit)
    requires index == |files| || u < Smallest(files[index]).user ==> hit.None?
    ensures Finds(FileEntries(files), u, s, hit)
  {
    forall e | e in FileEntries(files) && e.key.user == u && e.key.sequence <= s
      ensures hit.Some? && e.key.sequence <= hit.value.key.sequence
    {
      var f :| f in files && e in f.entries;
      var j :| 0 <= j < |files| && files[j] == f;
      var k :| 0 <= k < |f.entries| && f.entries[k] == e;
      EntryInRange(f, k);
      FileOfEntry(files, index, j, k, u, s);
      if index == j {
        assert e in Elems(files[index].entries);
      } else {
        LastReadable(files[index], u, s);
        assert Elems(files[index].entries) != {};
      }
    }
    if hit.Some? { assert files[index] in files && hit.value in files[index].entries; }
  }

  /** A readable version of u lies in the file found, or in one after it that starts with u. */
  lemma FileOfEntry(files: seq<File>, index: nat, j: nat, k: nat, u: UserKey, s: Sequence)
    requires LevelOk(files) && index <= |files| && j < |files| && k < |files[j].entries|
    requires forall i :: 0 <= i < index ==> Before(Largest(files[i]), SeekKey(u, s))
    requires index < |files| ==> !Before(Largest(files[index]), SeekKey(u, s))
    requires files[j].entries[k].key.user == u && files[j].entries[k].key.sequence <= s
    ensures index <= j && index < |files|
    ensures index < j ==> Largest(files[index]).user == u && Largest(files[index]).sequence <= s
                          && files[j].entries[k].key.sequence <= Largest(files[index]).sequence
                          && Smallest(files[index]).user <= u
  {
  }

  lemma LastReadable(f: File, u: UserKey, s: Sequence)
    requires FileOk(f) && Largest(f).user == u && Largest(f).sequence <= s
    ensures f.entries[|f.entries| - 1] in Elems(f.entries)
  {
  }

  lemma LevelsSplit(levels: seq<seq<File>>, l: nat)
    requires l < |levels|
    ensures VersionEntries(levels[..l + 1]) == VersionEntries(levels[..l]) + FileEntries(levels[l])
  {
  }

  ghost predicate Level0Layered(files: seq<File>) {
    && (forall i, j :: 0 <= i < j < |files| ==> files[i] != files[j])
    && (forall f, g :: f in files && g in files && f != g ==>
          f.number != g.number && (f.number > g.number ==> R.Newer(Elems(f.entries), Elems(g.entries))))
  }

  /** The hit is what the first level with a readable version of u finds. */
  ghost predicate FirstHit(levels: seq<seq<File>>, u: UserKey, s: Sequence, hit: Option<Entry>) {
    exists l :: 0 <= l <= |levels| && FirstHitAt(levels, u, s, hit, l)
  }

  ghost predicate FirstHitAt(levels: seq<seq<File>>, u: UserKey, s: Sequence, hit: Option<Entry>, l: nat)
    requires l <= |levels|
  {
    && (forall m :: 0 <= m < l ==> Finds(FileEntries(levels[m]), u, s, None))
    && (if hit.None? then l == |levels| else l < |levels| && Finds(FileEntries(levels[l]), u, s, hit))
  }

  /**
   Version::Get: level 0 newest file first, then one file per deeper level, stopping at a hit,
   which is the newest readable version of the whole if the levels are layered.
   */
  method VersionGet(levels: seq<seq<File>>, u: UserKey, s: Sequence) returns (hit: Option<Entry>)
    requires LevelsOk(levels) && Level0Layered(levels[0])
    ensures FirstHit(levels, u, s, hit)
    ensures Layered(levels) ==> Finds(VersionEntries(levels), u, s, hit)
  {
    hit := Level0Get(levels[0], u, s);
    hide Finds, Layered, FileEntries;
    var l := 1;
    while l < NUM_LEVELS && hit.None?
      invariant 1 <= l <= NUM_LEVELS
      invariant forall m :: 0 <= m < l - 1 ==> Finds(FileEntries(levels[m]), u, s, None)
      invariant Finds(FileEntries(levels[l - 1]), u, s, hit)
    {
      hit := LevelGet(levels[l], u, s);
      l := l + 1;
    }
    ghost var at := if hit.None? then l else l - 1;
    assert FirstHitAt(levels, u, s, hit, at);
    if Layered(levels) { FirstIsNewest(levels, u, s, hit, at); }
  }

  lemma FirstIsNewest(levels: seq<seq<File>>, u: UserKey, s: Sequence, hit: Option<Entry>, l: nat)
    requires Layered(levels) && l <= |levels| && FirstHitAt(levels, u, s, hit, l)
    ensures Finds(VersionEntries(levels), u, s, hit)
  {
    hide Layered;
    NothingBefore(levels, u, s, l);
    if hit.Some? {
      LevelsSplit(levels, l);
      DeeperOlder(levels, l + 1, u, s, hit);
    } else {
      assert levels[..l] == levels;
    }
  }

  lemma {:induction false} NothingBefore(levels: seq<seq<File>>, u: UserKey, s: Sequence, l: nat)
    requires l <= |levels| && forall m :: 0 <= m < l ==> Finds(FileEntries(levels[m]), u, s, None)
    ensures Finds(VersionEntries(levels[..l]), u, s, None)
  {
    if l > 0 {
      NothingBefore(levels, u, s, l - 1);
      LevelsSplit(levels, l - 1);
    }
  }

  /** A level can find but one entry. */
  lemma FindsOne(S: set<Entry>, u: UserKey, s: Sequence, a: Option<Entry>, b: Option<Entry>)
    requires R.Stamped(S) && Finds(S, u, s, a) && Finds(S, u, s, b)
    ensures a == b
  {
  }

  /** Levels not searched hold only older versions than the hit. */
  lemma {:induction false} DeeperOlder(levels: seq<seq<File>>, l: nat, u: UserKey, s: Sequence, hit: Option<Entry>)
    requires Layered(levels) && l <= |levels|
    requires Finds(VersionEntries(levels[..l]), u, s, hit) && (hit.None? ==> l == |levels|)
    ensures Finds(VersionEntries(levels), u, s, hit)
    decreases |levels| - l
  {
  }

  /** Memtable, then immutable memtable, then the version (DBImpl::Get). */
  method Get(mem: seq<Entry>, imm: Option<seq<Entry>>, levels: seq<seq<File>>, u: UserKey, s: Sequence)
    returns (value: Option<Bytes>)
    requires Sorted(mem) && (imm.Some? ==> Sorted(imm.value))
    requires LevelsOk(levels) && Layered(levels)
    requires forall i, j :: 0 <= i < j < |levels[0]| ==> levels[0][i] != levels[0][j]
    requires var older := if imm.Some? then Elems(imm.value) else {};
             && R.Newer(Elems(mem), older + VersionEntries(levels)) && R.Newer(older, VersionEntries(levels))
             && R.Stamped(Elems(mem) + (older + VersionEntries(levels)))
    ensures var older := if imm.Some? then Elems(imm.value) else {};
            forall v :: value == Some(v) <==> R.Shows(Elems(mem) + (older + VersionEntries(levels)), u, s, v)
  {
    ghost var V := VersionEntries(levels);
    ghost var older := if imm.Some? then Elems(imm.value) else {};
    var hit := RunGet(mem, u, s);
    var h, h' := None, None;
    if hit.None? {
      if imm.Some? {
        h := RunGet(imm.value, u, s);
      }
      if h.None? {
        h' := VersionGet(levels, u, s);
      }
    }
    if hit.None? { FindsAcross(older, V, u, s, h, h'); }
    var found := if hit.Some? then hit else if h.Some? then h else h';
    FindsAcross(Elems(mem), older + V, u, s, hit, found);
    value := if found.Some? && found.value.key.kind.Value? then Some(found.value.value) else None;
    ShownByNewest(Elems(mem) + (older + V), u, s, found);
  }

  lemma ShownByNewest(S: set<Entry>, u: UserKey, s: Sequence, hit: Option<Entry>)
    requires R.Stamped(S) && Finds(S, u, s, hit)
    ensures forall v :: R.Shows(S, u, s, v) <==> hit.Some? && hit.value.key.kind.Value? && hit.value.value == v
  {
  }
}
