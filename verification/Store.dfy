/**
 The store as a step machine: writes, snapshots, memtable switches, flushes, compactions
 and readers, interleaved at the points where the source releases its mutex.  A reader
 pins the memtables and version current at its start (by reference: a pinned memtable
 still receives later writes) and may look up keys at any later time.

 The main theorem, EveryReadIsHistory, says that whatever a reader looks up, at a live
 snapshot or at the sequence current when it began, is what the full write history holds.
 */
module Store {
  import opened Keys
  import opened Files
  import opened Lookup
  import opened Dropping
  import Compactor
  import R = Reads

  // What a reader holds: two memtables by identity, a version, and its read sequence.
  datatype View = View(mem: nat, imm: Option<nat>, version: seq<seq<File>>, sequence: Sequence)

  datatype FlushJob = NoFlush | Flushing(bound: Sequence)

  datatype CompactJob =
    | NoCompaction
    | Compacting(level: nat, files0: set<File>, files1: set<File>, inputs: seq<Entry>,
                 bound: Sequence, base: seq<seq<File>>)

  datatype State = State(
    history: seq<Entry>,           // every committed write, oldest first
    last: Sequence,                // VersionSet::LastSequence
    batch: seq<Entry>,             // the write group in progress
    inserted: nat,                 // how much of it is in the memtable
    tables: map<nat, seq<Entry>>,  // memtable contents by identity
    mem: nat,
    imm: Option<nat>,
    version: seq<seq<File>>,
    snapshots: seq<Sequence>,      // SnapshotList, oldest first
    flush: FlushJob,
    compaction: CompactJob,
    nextFile: nat,
    readers: set<View>)

  // ---- Reference: the value the write history gives.

  /** The last write to u among those with sequence at most s decides. */
  function HistoryGet(history: seq<Entry>, u: UserKey, s: Sequence): Option<Bytes> {
    if |history| == 0 then None
    else
      var e := history[|history| - 1];
      if e.key.user == u && e.key.sequence <= s
      then if e.key.kind.Value? then Some(e.value) else None
      else HistoryGet(history[..|history| - 1], u, s)
  }

  ghost predicate Ascending(history: seq<Entry>) {
    forall i, j :: 0 <= i < j < |history| ==> history[i].key.sequence < history[j].key.sequence
  }

  lemma {:induction false} HistoryShows(history: seq<Entry>, u: UserKey, s: Sequence, v: Bytes)
    requires Ascending(history)
    ensures HistoryGet(history, u, s) == Some(v) <==> R.Shows(Elems(history), u, s, v)
  {
    if |history| > 0 {
      var n := |history| - 1;
      var e := history[n];
      HistoryShows(history[..n], u, s, v);
      forall f ensures f in Elems(history) <==> f in Elems(history[..n]) || f == e {
        assert history == history[..n] + [e];
      }
      if e.key.user == u && e.key.sequence <= s {
        forall f | f in Elems(history) ensures f == e || f.key.sequence < e.key.sequence {
        }
        assert R.Newest(Elems(history), u, s, e);
      } else {
        forall f ensures R.Newest(Elems(history), u, s, f) <==> R.Newest(Elems(history[..n]), u, s, f) {
        }
      }
    } else {
      assert Elems(history) == {};
    }
  }

  // ---- The layers behind a view.

  ghost function MemEntries(st: State, m: nat): set<Entry> {
    if m in st.tables then Elems(st.tables[m]) else {}
  }

  ghost function ImmEntries(st: State, m: Option<nat>): set<Entry> {
    if m.Some? then MemEntries(st, m.value) else {}
  }

  ghost function Under(st: State, v: View): set<Entry> {
    ImmEntries(st, v.imm) + VersionEntries(v.version)
  }

  ghost function Contents(st: State, v: View): set<Entry> {
    MemEntries(st, v.mem) + Under(st, v)
  }

  ghost function Current(st: State, s: Sequence): View {
    View(st.mem, st.imm, st.version, s)
  }

  ghost predicate Live(st: State, s: Sequence) {
    s == st.last || s in st.snapshots
  }

  /** Every write so far, committed or already in the memtable. */
  ghost function Known(st: State): set<Entry> {
    Elems(st.history) + Elems(st.batch)
  }

  ghost predicate NoRepeat(files: seq<File>) {
    forall i, j :: 0 <= i < j < |files| ==> files[i] != files[j]
  }

  ghost predicate VersionOk(version: seq<seq<File>>) {
    && LevelsOk(version) && Layered(version)
    && forall l :: 0 <= l < NUM_LEVELS ==> NoRepeat(version[l])
  }

  /** The layers are ordered newest first and hold only writes that were made. */
  ghost predicate ViewOk(st: State, v: View) {
    && v.mem in st.tables && Sorted(st.tables[v.mem])
    && (v.imm.Some? ==> v.imm.value in st.tables && Sorted(st.tables[v.imm.value]) && v.imm.value != st.mem)
    && VersionOk(v.version)
    && R.Newer(MemEntries(st, v.mem), Under(st, v))
    && R.Newer(ImmEntries(st, v.imm), VersionEntries(v.version))
    && Contents(st, v) <= Known(st)
    && (forall e :: e in Under(st, v) ==> e.key.sequence <= st.last)
    && (v.mem != st.mem ==> forall e :: e in MemEntries(st, v.mem) ==> e.key.sequence <= st.last)
  }

  /** Reads through the view at its sequence are reads of the history. */
  ghost predicate Faithful(st: State, v: View) {
    v.sequence <= st.last && forall u :: R.Agree(Contents(st, v), Elems(st.history), u, v.sequence)
  }

  ghost predicate WritesOk(st: State) {
    && Ascending(st.history)
    && (forall e :: e in st.history ==> e.key.sequence <= st.last)
    && st.inserted <= |st.batch|
    && st.last + |st.batch| <= MAX_SEQUENCE
    && (forall i :: 0 <= i < |st.batch| ==> st.batch[i].key.sequence == st.last + 1 + i)
    && st.mem in st.tables
    && (forall e :: e in MemEntries(st, st.mem) ==> e.key.sequence <= st.last || e in st.batch[..st.inserted])
    && (forall e :: e in st.batch[..st.inserted] ==> e in MemEntries(st, st.mem))
  }

  ghost predicate SnapshotsOk(st: State) {
    && (forall i, j :: 0 <= i < j < |st.snapshots| ==> st.snapshots[i] <= st.snapshots[j])
    && (forall s :: s in st.snapshots ==> s <= st.last)
  }

  /** A captured bound lies at or below every sequence anyone may still ask for. */
  ghost predicate BoundOk(st: State, bound: Sequence) {
    forall s :: Live(st, s) ==> bound <= s
  }

  // ---- Version edits.

  ghost function Set(files: seq<File>): set<File> {
    set f | f in files
  }

  ghost function TakenEntries(files: set<File>): set<Entry> {
    set f, e | f in files && e in f.entries :: e
  }

  /** The vector SaveTo builds for one level: exactly the wanted files, in order of smallest key. */
  ghost predicate Rebuilt(files: seq<File>, want: set<File>) {
    && Set(files) == want && NoRepeat(files)
    && (forall i :: 0 <= i < |files| ==> |files[i].entries| > 0)
    && (forall i, j :: 0 <= i < j < |files| ==> !Before(Smallest(files[j]), Smallest(files[i])))
  }

  /** Two files whose internal key ranges do not meet. */
  ghost predicate Apart(f: File, g: File)
    requires |f.entries| > 0 && |g.entries| > 0
  {
    Before(Largest(f), Smallest(g)) || Before(Largest(g), Smallest(f))
  }

  /** Two files whose user key ranges do not meet. */
  ghost predicate UserApart(f: File, g: File)
    requires |f.entries| > 0 && |g.entries| > 0
  {
    Largest(f).user < Smallest(g).user || Largest(g).user < Smallest(f).user
  }

  lemma LevelFromApart(files: seq<File>, want: set<File>)
    requires Rebuilt(files, want)
    requires forall f :: f in want ==> FileOk(f)
    requires forall f, g :: f in want && g in want && f != g ==> Apart(f, g)
    ensures LevelOk(files)
  {
    forall i | 0 <= i < |files| ensures FileOk(files[i]) { assert files[i] in Set(files); }
    forall i, j | 0 <= i < j < |files| ensures Before(Largest(files[i]), Smallest(files[j])) {
      assert files[i] in Set(files) && files[j] in Set(files);
      EntryInRange(files[i], 0);
      EntryInRange(files[j], 0);
    }
  }

  lemma LevelApart(files: seq<File>, f: File, g: File)
    requires LevelOk(files) && f in files && g in files && f != g
    ensures FileOk(f) && FileOk(g) && Apart(f, g)
  {
  }

  lemma UserApartEntries(f: File, g: File)
    requires FileOk(f) && FileOk(g) && UserApart(f, g)
    ensures Apart(f, g)
    ensures forall e, x :: e in f.entries && x in g.entries ==> e.key.user != x.key.user
  {
  }

  /** Replacing one level's files replaces its entries. */
  lemma EditEntries(version: seq<seq<File>>, version': seq<seq<File>>, l: nat)
    requires |version| == |version'| && l < |version|
    requires forall k :: 0 <= k < |version| && k != l ==> version'[k] == version[k]
    ensures forall e :: e in VersionEntries(version') <==>
              e in FileEntries(version'[l]) || exists k :: 0 <= k < |version| && k != l && e in FileEntries(version[k])
  {
  }

  // ---- Placing a flushed table.

  const MAX_MEM_COMPACT_LEVEL: nat := 2

  /** What PickLevelForMemTableOutput guarantees of the level it picks. */
  ghost predicate Placeable(version: seq<seq<File>>, level: nat, f: File)
    requires LevelsOk(version) && FileOk(f)
  {
    && level <= MAX_MEM_COMPACT_LEVEL
    && (level > 0 ==> forall l, g :: 0 <= l <= level && g in version[l] ==> FileOk(g) && UserApart(g, f))
  }

  ghost predicate Numbered(version: seq<seq<File>>, next: nat) {
    forall l, f :: 0 <= l < |version| && f in version[l] ==> f.number < next
  }

  /** Adding the new table at level l. */
  ghost predicate Added(version: seq<seq<File>>, version': seq<seq<File>>, level: nat, f: File)
    requires level < |version|
  {
    && |version'| == |version|
    && (forall k :: 0 <= k < |version| && k != level ==> version'[k] == version[k])
    && Rebuilt(version'[level], Set(version[level]) + {f})
  }

  lemma AddedLevelOk(version: seq<seq<File>>, version': seq<seq<File>>, level: nat, f: File)
    requires VersionOk(version) && FileOk(f) && Placeable(version, level, f) && Added(version, version', level, f)
    ensures LevelsOk(version') && forall l :: 0 <= l < NUM_LEVELS ==> NoRepeat(version'[l])
  {
    var want := Set(version[level]) + {f};
    forall g | g in want ensures FileOk(g) {
      if g != f { var i :| 0 <= i < |version[level]| && version[level][i] == g; }
    }
    if level > 0 {
      forall g, h | g in want && h in want && g != h ensures Apart(g, h) {
        if g == f { UserApartEntries(h, f); } else if h == f { UserApartEntries(g, f); }
        else { LevelApart(version[level], g, h); }
      }
      LevelFromApart(version'[level], want);
    } else {
      forall i | 0 <= i < |version'[0]| ensures FileOk(version'[0][i]) { assert version'[0][i] in Set(version'[0]); }
    }
  }

  lemma AddedEntries(version: seq<seq<File>>, version': seq<seq<File>>, level: nat, f: File)
    requires level < |version| && Added(version, version', level, f)
    ensures FileEntries(version'[level]) == FileEntries(version[level]) + Elems(f.entries)
    ensures VersionEntries(version') == VersionEntries(version) + Elems(f.entries)
  {
    forall e ensures e in FileEntries(version'[level]) <==> e in FileEntries(version[level]) + Elems(f.entries) {
      if e in FileEntries(version'[level]) {
        var g :| g in version'[level] && e in g.entries;
        assert g in Set(version'[level]);
      }
      if e in FileEntries(version[level]) {
        var g :| g in version[level] && e in g.entries;
        assert g in Set(version'[level]);
      }
      if e in f.entries { assert f in Set(version'[level]); }
    }
    EditEntries(version, version', level);
    EditEntries(version, version, level);
  }

  /** A table newer than every file keeps the layers ordered wherever it may be placed. */
  lemma AddedLayered(version: seq<seq<File>>, version': seq<seq<File>>, level: nat, f: File)
    requires VersionOk(version) && FileOk(f) && Placeable(version, level, f) && Added(version, version', level, f)
    requires R.Newer(Elems(f.entries), VersionEntries(version)) && Numbered(version, f.number)
    ensures Layered(version')
  {
    hide R.Newer, Placeable, LevelsOk;
    forall l, m | 0 <= l < m < |version'| ensures R.Newer(FileEntries(version'[l]), FileEntries(version'[m])) {
      AddedPair(version, version', level, f, l, m);
    }
    forall g, h | g in version'[0] && h in version'[0] && g != h
      ensures g.number != h.number && (g.number > h.number ==> R.Newer(Elems(g.entries), Elems(h.entries)))
    {
      if level == 0 {
        assert g in Set(version'[0]) && h in Set(version'[0]);
        AddedLevel0(version, f, g, h);
      }
    }
  }

  lemma AddedPair(version: seq<seq<File>>, version': seq<seq<File>>, level: nat, f: File, l: nat, m: nat)
    requires VersionOk(version) && FileOk(f) && Placeable(version, level, f) && Added(version, version', level, f)
    requires R.Newer(Elems(f.entries), VersionEntries(version)) && l < m < |version'|
    ensures R.Newer(FileEntries(version'[l]), FileEntries(version'[m]))
  {
    AddedEntries(version, version', level, f);
    assert R.Newer(FileEntries(version[l]), FileEntries(version[m]));
    if m == level {
      ShallowApart(version, level, f, l);
    } else if l == level {
      DeeperOf(version, m);
    }
  }

  lemma AddedLevel0(version: seq<seq<File>>, f: File, g: File, h: File)
    requires VersionOk(version) && R.Newer(Elems(f.entries), VersionEntries(version)) && Numbered(version, f.number)
    requires (g == f || g in version[0]) && (h == f || h in version[0]) && g != h
    ensures g.number != h.number && (g.number > h.number ==> R.Newer(Elems(g.entries), Elems(h.entries)))
  {
    if h != f { FileWithin(version, 0, h); }
  }

  lemma ShallowApart(version: seq<seq<File>>, level: nat, f: File, l: nat)
    requires LevelsOk(version) && FileOk(f) && Placeable(version, level, f) && l < level
    ensures forall e, x :: e in FileEntries(version[l]) && x in f.entries ==> e.key.user != x.key.user
  {
    forall e, x | e in FileEntries(version[l]) && x in f.entries ensures e.key.user != x.key.user {
      var g :| g in version[l] && e in g.entries;
      UserApartEntries(g, f);
    }
  }

  lemma DeeperOf(version: seq<seq<File>>, m: nat)
    requires m < |version|
    ensures FileEntries(version[m]) <= VersionEntries(version)
  {
    forall e | e in FileEntries(version[m]) ensures e in VersionEntries(version) {
      var g :| g in version[m] && e in g.entries;
    }
  }

  lemma FileWithin(version: seq<seq<File>>, l: nat, g: File)
    requires l < |version| && g in version[l]
    ensures Elems(g.entries) <= VersionEntries(version)
  {
  }

  // ---- Replacing compaction inputs by outputs.

  ghost function RestEntries(files: seq<File>, taken: set<File>): set<Entry> {
    set f, e | f in files && f !in taken && e in f.entries :: e
  }

  /** Everything in the version outside the compaction's inputs. */
  ghost function Others(version: seq<seq<File>>, level: nat, files0: set<File>, files1: set<File>): set<Entry> {
    set l, f, e | 0 <= l < |version| && f in version[l]
                  && !(l == level && f in files0) && !(l == level + 1 && f in files1) && e in f.entries :: e
  }

  ghost predicate Swapped(version: seq<seq<File>>, version': seq<seq<File>>, level: nat,
                          files0: set<File>, files1: set<File>, outs: seq<File>)
    requires level + 1 < |version|
  {
    && |version'| == |version|
    && (forall k :: 0 <= k < |version| && k != level && k != level + 1 ==> version'[k] == version[k])
    && Rebuilt(version'[level], Set(version[level]) - files0)
    && Rebuilt(version'[level + 1], Set(version[level + 1]) - files1 + Set(outs))
  }

  lemma SwappedLevelsOk(version: seq<seq<File>>, version': seq<seq<File>>, level: nat,
                        files0: set<File>, files1: set<File>, outs: seq<File>)
    requires VersionOk(version) && level + 1 < NUM_LEVELS && Swapped(version, version', level, files0, files1, outs)
    requires LevelOk(outs)
    requires forall o, g :: o in outs && g in version[level + 1] && g !in files1 ==>
      FileOk(o) && FileOk(g) && Apart(o, g)
    ensures LevelsOk(version') && forall l :: 0 <= l < NUM_LEVELS ==> NoRepeat(version'[l])
  {
    var want := Set(version[level + 1]) - files1 + Set(outs);
    forall f | f in want ensures FileOk(f) {
      if f in Set(outs) { var i :| 0 <= i < |outs| && outs[i] == f; }
      else { var i :| 0 <= i < |version[level + 1]| && version[level + 1][i] == f; }
    }
    forall f, g | f in want && g in want && f != g ensures Apart(f, g) {
      if f in outs && g in outs { LevelApart(outs, f, g); }
      else if f !in outs && g !in outs { LevelApart(version[level + 1], f, g); }
    }
    LevelFromApart(version'[level + 1], want);
    RestLevelOk(version, version', level, files0);
  }

  lemma RestLevelOk(version: seq<seq<File>>, version': seq<seq<File>>, level: nat, files0: set<File>)
    requires VersionOk(version) && level < NUM_LEVELS && |version'| == |version|
    requires Rebuilt(version'[level], Set(version[level]) - files0)
    ensures if level > 0 then LevelOk(version'[level])
            else forall i :: 0 <= i < |version'[0]| ==> FileOk(version'[0][i])
  {
    var want := Set(version[level]) - files0;
    forall f | f in want ensures FileOk(f) {
      var i :| 0 <= i < |version[level]| && version[level][i] == f;
    }
    if level > 0 {
      forall f, g | f in want && g in want && f != g ensures Apart(f, g) { LevelApart(version[level], f, g); }
      LevelFromApart(version'[level], want);
    } else {
      forall i | 0 <= i < |version'[0]| ensures FileOk(version'[0][i]) { assert version'[0][i] in Set(version'[0]); }
    }
  }

  lemma SwappedEntries(version: seq<seq<File>>, version': seq<seq<File>>, level: nat,
                       files0: set<File>, files1: set<File>, outs: seq<File>)
    requires level + 1 < |version| && Swapped(version, version', level, files0, files1, outs)
    ensures FileEntries(version'[level]) == RestEntries(version[level], files0)
    ensures FileEntries(version'[level + 1]) == RestEntries(version[level + 1], files1) + FileEntries(outs)
  {
    forall e ensures e in FileEntries(version'[level]) <==> e in RestEntries(version[level], files0) {
      if e in FileEntries(version'[level]) {
        var g :| g in version'[level] && e in g.entries;
        assert g in Set(version'[level]);
      }
      if e in RestEntries(version[level], files0) {
        var g :| g in version[level] && g !in files0 && e in g.entries;
        assert g in Set(version'[level]);
      }
    }
    var files := version'[level + 1];
    forall e ensures e in FileEntries(files) <==> e in RestEntries(version[level + 1], files1) + FileEntries(outs) {
      if e in FileEntries(files) {
        var g :| g in version'[level + 1] && e in g.entries;
        assert g in Set(version'[level + 1]);
      }
      if e in RestEntries(version[level + 1], files1) {
        var g :| g in version[level + 1] && g !in files1 && e in g.entries;
        assert g in Set(version'[level + 1]);
      }
      if e in FileEntries(outs) {
        var g :| g in outs && e in g.entries;
        assert g in Set(version'[level + 1]);
      }
    }
  }

  lemma SwappedWhole(version: seq<seq<File>>, version': seq<seq<File>>, level: nat,
                     files0: set<File>, files1: set<File>, outs: seq<File>)
    requires level + 1 < |version| && Swapped(version, version', level, files0, files1, outs)
    requires files0 <= Set(version[level]) && files1 <= Set(version[level + 1])
    ensures VersionEntries(version) == Others(version, level, files0, files1)
      + (TakenEntries(files0) + TakenEntries(files1))
    ensures VersionEntries(version') == Others(version, level, files0, files1) + FileEntries(outs)
  {
    SwappedEntries(version, version', level, files0, files1, outs);
    OldWhole(version, level, files0, files1);
    var O := Others(version, level, files0, files1);
    forall e ensures e in VersionEntries(version') <==> e in O + FileEntries(outs) {
      if e in VersionEntries(version') {
        var k: int, f: File :| 0 <= k < |version'| && f in version'[k] && e in f.entries;
        assert e in FileEntries(version'[k]);
      }
      if e in O {
        var k: int, f: File :| 0 <= k < |version| && f in version[k]
                  && !(k == level && f in files0) && !(k == level + 1 && f in files1) && e in f.entries;
        assert f in Set(version'[k]);
      }
      if e in FileEntries(outs) {
        var f :| f in version'[level + 1] && e in f.entries;
      }
    }
  }

  lemma OldWhole(version: seq<seq<File>>, level: nat, files0: set<File>, files1: set<File>)
    requires level + 1 < |version|
    requires files0 <= Set(version[level]) && files1 <= Set(version[level + 1])
    ensures VersionEntries(version) == Others(version, level, files0, files1)
      + (TakenEntries(files0) + TakenEntries(files1))
  {
    forall e ensures e in VersionEntries(version) <==>
                     e in Others(version, level, files0, files1) + (TakenEntries(files0) + TakenEntries(files1)) {
      if e in TakenEntries(files0) {
        var f :| f in files0 && e in f.entries;
        assert f in version[level];
      }
      if e in TakenEntries(files1) {
        var f :| f in files1 && e in f.entries;
        assert f in version[level + 1];
      }
    }
  }

  lemma TakenWithin(files: seq<File>, taken: set<File>)
    requires taken <= Set(files)
    ensures TakenEntries(taken) <= FileEntries(files) && RestEntries(files, taken) <= FileEntries(files)
  {
  }

  /** Each version in a new level came from that level or, in the output level, from the one above. */
  lemma SwappedPair(version: seq<seq<File>>, version': seq<seq<File>>, level: nat,
                    files0: set<File>, files1: set<File>, outs: seq<File>, l: nat, m: nat)
    requires VersionOk(version) && level + 1 < NUM_LEVELS && Swapped(version, version', level, files0, files1, outs)
    requires files0 <= Set(version[level]) && files1 <= Set(version[level + 1])
    requires FileEntries(outs) <= TakenEntries(files0) + TakenEntries(files1)
    requires R.Newer(RestEntries(version[level], files0), TakenEntries(files0))
    requires l < m < |version'|
    ensures R.Newer(FileEntries(version'[l]), FileEntries(version'[m]))
  {
    assert R.Newer(FileEntries(version[l]), FileEntries(version[m]));
    assert m > level ==> R.Newer(FileEntries(version[level]), FileEntries(version[m]));
    assert l < level ==> R.Newer(FileEntries(version[l]), FileEntries(version[level]));
    SwappedPart(version, version', level, files0, files1, outs, l);
    SwappedPart(version, version', level, files0, files1, outs, m);
    TakenWithin(version[level], files0);
    hide VersionOk, Swapped, FileEntries, RestEntries, TakenEntries, Set;
    forall e, f | e in FileEntries(version'[l]) && f in FileEntries(version'[m]) && e.key.user == f.key.user
      ensures f.key.sequence < e.key.sequence
    {
    }
  }

  // What a level holds after the swap: what it held, less the inputs, and below them what they held.
  lemma SwappedPart(version: seq<seq<File>>, version': seq<seq<File>>, level: nat,
                    files0: set<File>, files1: set<File>, outs: seq<File>, l: nat)
    requires level + 1 < |version| && Swapped(version, version', level, files0, files1, outs) && l < |version'|
    requires files1 <= Set(version[level + 1])
    requires FileEntries(outs) <= TakenEntries(files0) + TakenEntries(files1)
    ensures |version'| == |version|
    ensures forall e :: e in FileEntries(version'[l]) ==>
      (e in FileEntries(version[l]) && (l == level ==> e in RestEntries(version[level], files0)))
      || (l == level + 1 && e in TakenEntries(files0))
  {
    SwappedEntries(version, version', level, files0, files1, outs);
    TakenWithin(version[level + 1], files1);
  }

  /** Moving versions one level down keeps the order when none they outrank stays above them. */
  lemma SwappedLayered(version: seq<seq<File>>, version': seq<seq<File>>, level: nat,
                       files0: set<File>, files1: set<File>, outs: seq<File>)
    requires VersionOk(version) && level + 1 < NUM_LEVELS && Swapped(version, version', level, files0, files1, outs)
    requires files0 <= Set(version[level]) && files1 <= Set(version[level + 1])
    requires FileEntries(outs) <= TakenEntries(files0) + TakenEntries(files1)
    requires R.Newer(RestEntries(version[level], files0), TakenEntries(files0))
    ensures Layered(version')
  {
    forall l, m | 0 <= l < m < |version'| ensures R.Newer(FileEntries(version'[l]), FileEntries(version'[m])) {
      SwappedPair(version, version', level, files0, files1, outs, l, m);
    }
    forall g, h | g in version'[0] && h in version'[0] && g != h
      ensures g.number != h.number && (g.number > h.number ==> R.Newer(Elems(g.entries), Elems(h.entries)))
    {
      assert level == 0 ==> g in Set(version'[0]) && h in Set(version'[0]);
    }
  }

  /** No version older than an input of the same key is left behind in the two levels. */
  ghost predicate ClosedHere(version: seq<seq<File>>, c: CompactJob)
    requires c.Compacting? && c.level + 1 < |version|
  {
    && R.Newer(RestEntries(version[c.level], c.files0), TakenEntries(c.files0))
    && R.Newer(RestEntries(version[c.level + 1], c.files1), Elems(c.inputs))
  }

  /** A key whose deletion may be dropped has no version in a deeper level. */
  ghost predicate ClosedBelow(version: seq<seq<File>>, c: CompactJob)
    requires c.Compacting? && LevelsOk(c.base)
  {
    forall l, x, e :: c.level + 2 <= l < |version| && x in FileEntries(version[l]) && e in c.inputs ==>
      e.key.user in Compactor.BaseKeys(c.base, c.level) ==> x.key.user != e.key.user
  }

  /** The file lies wholly before or wholly after the list. */
  ghost predicate Beyond(list: seq<Entry>, g: File) {
    && FileOk(g)
    && ((forall e :: e in list ==> Before(Largest(g), e.key)) || (forall e :: e in list ==> Before(e.key, Smallest(g))))
  }

  /** The file shares no user key with any input's range, but may lie between two inputs. */
  ghost predicate Outside(c: CompactJob, g: File)
    requires c.Compacting?
  {
    FileOk(g) && forall h :: h in c.files0 || h in c.files1 ==> FileOk(h) && UserApart(h, g)
  }

  /** A file the job leaves in its output level was left when it was picked, or was flushed there since. */
  ghost predicate LeftApart(version: seq<seq<File>>, c: CompactJob)
    requires c.Compacting? && c.level + 1 < |version| && c.level + 1 < |c.base|
  {
    && (forall g :: g in c.base[c.level + 1] && g !in c.files1 ==> Beyond(c.inputs, g))
    && (forall g :: g in version[c.level + 1] && g !in c.files1 && g !in c.base[c.level + 1] ==> Outside(c, g))
  }

  ghost predicate JobOk(version: seq<seq<File>>, c: CompactJob) {
    c.Compacting? ==>
      && |version| == NUM_LEVELS && c.level + 1 < NUM_LEVELS && LevelsOk(c.base)
      && c.files0 <= Set(version[c.level]) && c.files1 <= Set(version[c.level + 1])
      && Sorted(c.inputs) && Elems(c.inputs) == TakenEntries(c.files0) + TakenEntries(c.files1)
      && ClosedHere(version, c) && ClosedBelow(version, c) && LeftApart(version, c)
  }

  lemma OthersNewer(version: seq<seq<File>>, c: CompactJob, x: Entry, e: Entry)
    requires VersionOk(version) && c.Compacting? && JobOk(version, c)
    requires x in Others(version, c.level, c.files0, c.files1) && e in c.inputs && x.key.user == e.key.user
    requires e.key.user in Compactor.BaseKeys(c.base, c.level)
    ensures e.key.sequence < x.key.sequence
  {
    var l: int, f: File :| 0 <= l < |version| && f in version[l]
              && !(l == c.level && f in c.files0) && !(l == c.level + 1 && f in c.files1) && x in f.entries;
    assert x in FileEntries(version[l]);
    TakenWithin(version[c.level], c.files0);
    TakenWithin(version[c.level + 1], c.files1);
    assert e in Elems(c.inputs);
    if l == c.level {
      assert x in RestEntries(version[l], c.files0);
      assert R.Newer(FileEntries(version[l]), FileEntries(version[c.level + 1]));
    } else if l == c.level + 1 {
      assert x in RestEntries(version[l], c.files1);
    } else if l < c.level {
      assert R.Newer(FileEntries(version[l]), FileEntries(version[c.level]));
      assert R.Newer(FileEntries(version[l]), FileEntries(version[c.level + 1]));
    }
  }

  // ---- Outputs cut from one sorted list.

  ghost function Cuts(outs: seq<File>): seq<seq<Entry>> {
    if |outs| == 0 then [] else Cuts(outs[..|outs| - 1]) + [outs[|outs| - 1].entries]
  }

  lemma {:induction false} CutsShape(outs: seq<File>)
    ensures |Cuts(outs)| == |outs| && forall i :: 0 <= i < |outs| ==> Cuts(outs)[i] == outs[i].entries
  {
    if |outs| > 0 { CutsShape(outs[..|outs| - 1]); }
  }

  lemma CutsSplit(outs: seq<File>, list: seq<Entry>) returns (head: seq<Entry>)
    requires |outs| > 0 && Compactor.Holds(Cuts(outs), [], list)
    ensures var n := |outs| - 1;
            |outs[n].entries| > 0 && list == head + outs[n].entries && Compactor.Holds(Cuts(outs[..n]), [], head)
  {
    var n := |outs| - 1;
    CutsShape(outs);
    CutsShape(outs[..n]);
    assert Cuts(outs)[..n] == Cuts(outs[..n]);
    head := Compactor.Concat(Cuts(outs[..n]));
  }

  lemma AppendFile(front: seq<File>, f: File)
    requires LevelOk(front) && FileOk(f)
    requires forall e, x :: e in FileEntries(front) && x in f.entries ==> Before(e.key, x.key)
    ensures LevelOk(front + [f])
  {
    forall i | 0 <= i < |front| ensures Before(Largest(front[i]), Smallest(f)) {
      var g := front[i];
      var e := g.entries[|g.entries| - 1];
      assert g in front && e in g.entries;
      assert e in FileEntries(front);
    }
  }

  /** However a sorted list is cut into non-empty pieces, the pieces are an ordered level. */
  lemma {:induction false} CutsLevelOk(outs: seq<File>, list: seq<Entry>)
    requires Sorted(list) && Compactor.Holds(Cuts(outs), [], list)
    ensures LevelOk(outs) && FileEntries(outs) == Elems(list)
  {
    if |outs| == 0 {
      assert FileEntries(outs) == {} && list == [];
    } else {
      var n := |outs| - 1;
      var head := CutsSplit(outs, list);
      SortedParts(head, outs[n].entries);
      CutsLevelOk(outs[..n], head);
      AppendFile(outs[..n], outs[n]);
      assert outs[..n] + [outs[n]] == outs;
      OneMoreFile(outs, n);
      assert outs[..n + 1] == outs;
      ElemsConcat(head, outs[n].entries);
    }
  }

  lemma SortedParts(a: seq<Entry>, b: seq<Entry>)
    requires Sorted(a + b)
    ensures Sorted(a) && Sorted(b)
    ensures forall e, f :: e in a && f in b ==> Before(e.key, f.key)
  {
    forall i, j | 0 <= i < j < |a| ensures Before(a[i].key, a[j].key) {
      assert (a + b)[i] == a[i] && (a + b)[j] == a[j];
    }
    forall i, j | 0 <= i < j < |b| ensures Before(b[i].key, b[j].key) {
      assert (a + b)[|a| + i] == b[i] && (a + b)[|a| + j] == b[j];
    }
    forall e, f | e in a && f in b ensures Before(e.key, f.key) {
      var i :| 0 <= i < |a| && a[i] == e;
      var j :| 0 <= j < |b| && b[j] == f;
      assert (a + b)[i] == e && (a + b)[|a| + j] == f;
    }
  }

  lemma ElemsConcat(a: seq<Entry>, b: seq<Entry>)
    ensures Elems(a + b) == Elems(a) + Elems(b)
  {
  }
}
