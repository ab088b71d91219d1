/** The steps of the store and the proof that no step disturbs any read. */
module StoreMachine {
  import opened Keys
  import opened Files
  import opened Lookup
  import opened Dropping
  import opened Store
  import opened Outputs
  import Compactor
  import VS = VersionSet
  import R = Reads

  datatype Action =
    | BeginWrite(batch: seq<Entry>)
    | InsertOne(list: seq<Entry>)
    | CommitWrite
    | TakeSnapshot
    | ReleaseSnapshot(index: nat)
    | Switch(id: nat)
    | StartFlush
    | InstallFlush(level: nat, number: nat, version: seq<seq<File>>)
    | StartCompaction(level: nat, in0: seq<File>, in1: seq<File>, inputs: seq<Entry>)
    | InstallCompaction(outs: seq<File>, next: nat, version: seq<seq<File>>)
    | MoveFile(level: nat, file: File, version: seq<seq<File>>)
    | StartRead(sequence: Sequence)
    | EndRead(view: View)

  /** The bound a flush or compaction captures: the oldest snapshot, else the last sequence. */
  function Bound(st: State): Sequence {
    if |st.snapshots| == 0 then st.last else st.snapshots[0]
  }

  ghost predicate BeginWriteStep(st: State, batch: seq<Entry>, st': State) {
    && st.batch == [] && st.last + |batch| <= MAX_SEQUENCE
    && (forall i :: 0 <= i < |batch| ==> batch[i].key.sequence == st.last + 1 + i)
    && st' == st.(batch := batch, inserted := 0)
  }

  ghost predicate InsertOneStep(st: State, list: seq<Entry>, st': State) {
    && st.inserted < |st.batch| && st.mem in st.tables
    && Sorted(list) && Elems(list) == Elems(st.tables[st.mem]) + {st.batch[st.inserted]}
    && st' == st.(tables := st.tables[st.mem := list], inserted := st.inserted + 1)
  }

  ghost predicate CommitWriteStep(st: State, st': State) {
    && st.inserted == |st.batch| && st.last + |st.batch| <= MAX_SEQUENCE
    && st' == st.(history := st.history + st.batch, last := st.last + |st.batch|, batch := [], inserted := 0)
  }

  ghost predicate SwitchStep(st: State, id: nat, st': State) {
    && st.batch == [] && st.imm.None? && id !in st.tables
    && st' == st.(imm := Some(st.mem), mem := id, tables := st.tables[id := []])
  }

  ghost predicate InstallFlushStep(st: State, level: nat, number: nat, version: seq<seq<File>>, st': State) {
    && st.flush.Flushing? && st.imm.Some? && st.imm.value in st.tables
    && LevelsOk(st.version) && |version| == NUM_LEVELS
    && var list := st.tables[st.imm.value];
    && var table := Pruned(list, st.flush.bound, |list|);
    && (if table == [] then version == st.version
        else
          && st.nextFile <= number && Sorted(table)
          && Placeable(st.version, level, File(number, table))
          && Added(st.version, version, level, File(number, table)))
    && st' == st.(imm := None, flush := NoFlush, version := version,
                  nextFile := if number < st.nextFile then st.nextFile else number + 1)
  }

  /** Inputs as SetupOtherInputs picks them, where neither level's cut splits the versions of a user key. */
  ghost predicate StartCompactionStep(st: State, level: nat, in0: seq<File>, in1: seq<File>, inputs: seq<Entry>,
                                      st': State) {
    && st.flush.NoFlush? && st.compaction.NoCompaction? && LevelsOk(st.version) && level + 1 < NUM_LEVELS
    && VS.Picked(st.version, level, in0, in1) && VS.CleanCuts(st.version, level, in0, in1)
    && Sorted(inputs) && Elems(inputs) == TakenEntries(Set(in0)) + TakenEntries(Set(in1))
    && st' == st.(compaction := Compacting(level, Set(in0), Set(in1), inputs, Bound(st), st.version))
  }

  /**
   Outputs are any cut of what the drop rule keeps that splits at the tables flushed into
   their level since the compaction began; their numbers may be older than those tables'.
   */
  ghost predicate InstallCompactionStep(st: State, outs: seq<File>, next: nat, version: seq<seq<File>>, st': State) {
    && st.flush.NoFlush? && st.compaction.Compacting? && |st.version| == NUM_LEVELS
    && var c := st.compaction;
    && c.level + 1 < NUM_LEVELS && LevelsOk(c.base) && c.bound < MAX_SEQUENCE
    && IsCut(outs, Kept(c))
    && st.nextFile <= next && (forall o :: o in outs ==> o.number < next)
    && Swapped(st.version, version, c.level, c.files0, c.files1, outs)
    && (forall g :: g in st.version[c.level + 1] && g !in c.files1 && g !in c.base[c.level + 1]
          ==> FileOk(g) && SplitAt(outs, g))
    && st' == st.(compaction := NoCompaction, version := version, nextFile := next)
  }

  /** A single input with no file to merge with moves down unread. */
  ghost predicate MoveFileStep(st: State, level: nat, f: File, version: seq<seq<File>>, st': State) {
    && st.flush.NoFlush? && st.compaction.NoCompaction? && LevelsOk(st.version) && level + 1 < NUM_LEVELS
    && VS.Picked(st.version, level, [f], []) && VS.CleanCuts(st.version, level, [f], [])
    && Swapped(st.version, version, level, {f}, {}, [f])
    && st' == st.(version := version)
  }

  ghost predicate Next(st: State, a: Action, st': State) {
    match a
    case BeginWrite(batch) => BeginWriteStep(st, batch, st')
    case InsertOne(list) => InsertOneStep(st, list, st')
    case CommitWrite => CommitWriteStep(st, st')
    case TakeSnapshot => st' == st.(snapshots := st.snapshots + [st.last])
    case ReleaseSnapshot(i) =>
      i < |st.snapshots| && st' == st.(snapshots := st.snapshots[..i] + st.snapshots[i + 1..])
    case Switch(id) => SwitchStep(st, id, st')
    case StartFlush => st.imm.Some? && st.flush.NoFlush? && st' == st.(flush := Flushing(Bound(st)))
    case InstallFlush(level, number, version) => InstallFlushStep(st, level, number, version, st')
    case StartCompaction(level, in0, in1, inputs) => StartCompactionStep(st, level, in0, in1, inputs, st')
    case InstallCompaction(outs, next, version) => InstallCompactionStep(st, outs, next, version, st')
    case MoveFile(level, f, version) => MoveFileStep(st, level, f, version, st')
    case StartRead(s) => Live(st, s) && st' == st.(readers := st.readers + {Current(st, s)})
    case EndRead(v) => st' == st.(readers := st.readers - {v})
  }

  // ---- The invariant.

  ghost predicate JobsOk(st: State) {
    && (st.flush.Flushing? ==> st.imm.Some? && BoundOk(st, st.flush.bound))
    && JobOk(st.version, st.compaction)
    && (st.compaction.Compacting? ==> BoundOk(st, st.compaction.bound))
    && Numbered(st.version, st.nextFile)
  }

  ghost predicate Inv(st: State) {
    WritesOk(st) && SnapshotsOk(st) && JobsOk(st) && ViewsOk(st)
  }

  /** The current layers serve every live sequence, and every reader's layers serve its own. */
  ghost predicate ViewsOk(st: State) {
    && ViewOk(st, Current(st, st.last))
    && (forall s :: Live(st, s) ==> Faithful(st, Current(st, s)))
    && (forall v :: v in st.readers ==> ViewOk(st, v) && Faithful(st, v))
  }

  lemma KnownStamped(st: State)
    requires WritesOk(st)
    ensures R.Stamped(Known(st))
  {
  }

  /** It is the least sequence anyone may ask for. */
  lemma BoundIsOk(st: State)
    requires SnapshotsOk(st)
    ensures BoundOk(st, Bound(st)) && Live(st, Bound(st))
  {
    forall s | Live(st, s) ensures Bound(st) <= s {
      assert |st.snapshots| > 0 ==> st.snapshots[0] in st.snapshots;
      if s in st.snapshots { var i :| 0 <= i < |st.snapshots| && st.snapshots[i] == s; }
    }
  }

  /** Later snapshots and writes only move sequences a reader may ask for upward. */
  lemma BoundKept(st: State, st': State, bound: Sequence)
    requires BoundOk(st, bound) && st.last <= st'.last
    requires forall s :: s in st'.snapshots ==> s in st.snapshots || st.last <= s
    ensures BoundOk(st', bound)
  {
    assert Live(st, st.last);
    forall s | Live(st', s) ensures bound <= s { assert s in st.snapshots ==> Live(st, s); }
  }

  /** The jobs' obligations survive any step that keeps them and the version. */
  lemma JobsKept(st: State, st': State)
    requires JobsOk(st) && st.last <= st'.last
    requires forall s :: s in st'.snapshots ==> s in st.snapshots || st.last <= s
    requires st'.version == st.version && st'.compaction == st.compaction && st'.nextFile == st.nextFile
    requires st'.flush == st.flush && (st.flush.Flushing? ==> st'.imm == st.imm)
    ensures JobsOk(st')
  {
    hide JobOk, Numbered, BoundOk;
    if st.flush.Flushing? { BoundKept(st, st', st.flush.bound); }
    if st.compaction.Compacting? { BoundKept(st, st', st.compaction.bound); }
  }

  /** A view whose memtables, and the history, are untouched reads as before. */
  lemma ViewKept(st: State, st': State, v: View)
    requires ViewOk(st, v) && Faithful(st, v)
    requires st'.history == st.history && st'.last == st.last && Known(st) <= Known(st')
    requires MemEntries(st', v.mem) == MemEntries(st, v.mem) && ImmEntries(st', v.imm) == ImmEntries(st, v.imm)
    requires v.mem in st'.tables && Sorted(st'.tables[v.mem])
    requires v.imm.Some? ==> v.imm.value in st'.tables && Sorted(st'.tables[v.imm.value]) && v.imm.value != st'.mem
    requires v.mem != st'.mem ==> forall e :: e in MemEntries(st, v.mem) ==> e.key.sequence <= st.last
    ensures ViewOk(st', v) && Faithful(st', v)
  {
  }

  // ---- Steps that leave the layers alone.

  /** When nothing behind the views changes, neither does any read. */
  lemma AllViewsKept(st: State, st': State)
    requires Inv(st) && st'.history == st.history && st'.last == st.last && Known(st) <= Known(st')
    requires st'.tables == st.tables && st'.mem == st.mem && st'.imm == st.imm && st'.version == st.version
    requires forall s :: Live(st', s) ==> Live(st, s)
    requires forall v :: v in st'.readers ==> v in st.readers || exists s :: Live(st, s) && v == Current(st, s)
    ensures ViewsOk(st')
  {
    hide ViewOk, Faithful;
    assert Live(st, st.last);
    CurrentKept(st, st', st.last);
    forall s | Live(st', s) ensures Faithful(st', Current(st', s)) { CurrentKept(st, st', s); }
    forall v | v in st'.readers ensures ViewOk(st', v) && Faithful(st', v) {
      if v in st.readers {
        PinnedKept(st, st', v);
      } else {
        var s :| Live(st, s) && v == Current(st, s);
        CurrentKept(st, st', s);
      }
    }
  }

  lemma PinnedKept(st: State, st': State, v: View)
    requires ViewOk(st, v) && Faithful(st, v)
    requires st'.history == st.history && st'.last == st.last && Known(st) <= Known(st')
    requires st'.tables == st.tables && st'.mem == st.mem
    ensures ViewOk(st', v) && Faithful(st', v)
  {
  }

  lemma CurrentKept(st: State, st': State, s: Sequence)
    requires ViewOk(st, Current(st, st.last)) && Faithful(st, Current(st, s))
    requires st'.history == st.history && st'.last == st.last && Known(st) <= Known(st')
    requires st'.tables == st.tables && st'.mem == st.mem && st'.imm == st.imm && st'.version == st.version
    ensures ViewOk(st', Current(st', s)) && Faithful(st', Current(st', s))
  {
    SameLayers(st, s, st.last);
    ViewKept(st, st', Current(st, s));
  }

  lemma SameLayers(st: State, s: Sequence, t: Sequence)
    ensures ViewOk(st, Current(st, s)) <==> ViewOk(st, Current(st, t))
    ensures Contents(st, Current(st, s)) == Contents(st, Current(st, t))
  {
  }

  lemma BeginWriteKeeps(st: State, batch: seq<Entry>, st': State)
    requires Inv(st) && BeginWriteStep(st, batch, st')
    ensures Inv(st')
  {
    AllViewsKept(st, st');
    JobsKept(st, st');
    hide ViewsOk, JobsOk;
  }

  /** Only the background jobs and the readers change. */
  lemma JobsChange(st: State, st': State)
    requires Inv(st) && JobsOk(st')
    requires st' == st.(flush := st'.flush, compaction := st'.compaction, readers := st'.readers)
    requires forall v :: v in st'.readers ==> v in st.readers || exists s :: Live(st, s) && v == Current(st, s)
    ensures Inv(st')
  {
    AllViewsKept(st, st');
    hide ViewsOk, JobsOk;
  }

  lemma SnapshotKeeps(st: State, st': State)
    requires Inv(st) && st' == st.(snapshots := st.snapshots + [st.last])
    ensures Inv(st')
  {
    assert forall i :: 0 <= i < |st.snapshots| ==> st.snapshots[i] in st.snapshots;
    assert SnapshotsOk(st');
    forall s | Live(st', s) ensures Live(st, s) { }
    AllViewsKept(st, st');
    JobsKept(st, st');
    hide ViewsOk, JobsOk;
  }

  lemma ReleaseKeeps(st: State, i: nat, st': State)
    requires Inv(st) && i < |st.snapshots|
    requires st' == st.(snapshots := st.snapshots[..i] + st.snapshots[i + 1..])
    ensures Inv(st')
  {
    forall s | s in st'.snapshots ensures s in st.snapshots { }
    assert SnapshotsOk(st');
    forall s | Live(st', s) ensures Live(st, s) { }
    AllViewsKept(st, st');
    JobsKept(st, st');
    hide ViewsOk, JobsOk;
  }

  lemma StartFlushKeeps(st: State, st': State)
    requires Inv(st) && st.imm.Some? && st' == st.(flush := Flushing(Bound(st)))
    ensures Inv(st')
  {
    BoundIsOk(st);
    BoundKept(st, st', Bound(st));
    if st.compaction.Compacting? { BoundKept(st, st', st.compaction.bound); }
    hide ViewsOk, JobOk, BoundOk;
    JobsChange(st, st');
  }

  lemma ReadersChange(st: State, st': State)
    requires Inv(st) && st' == st.(readers := st'.readers)
    requires forall v :: v in st'.readers ==> v in st.readers || exists s :: Live(st, s) && v == Current(st, s)
    ensures Inv(st')
  {
    JobsKept(st, st');
    hide *;
    JobsChange(st, st');
  }

  // The entries of one level bear distinct sequence numbers.
  lemma LevelStamped(st: State, l: nat)
    requires WritesOk(st) && ViewOk(st, Current(st, st.last)) && l < |st.version|
    ensures R.Stamped(FileEntries(st.version[l]))
  {
    KnownStamped(st);
    DeeperOf(st.version, l);
    hide R.Newer, VersionOk, Sorted, WritesOk;
    forall e | e in FileEntries(st.version[l]) ensures e in Known(st) {
      assert e in VersionEntries(st.version);
      assert e in Contents(st, Current(st, st.last));
    }
  }

  lemma StartCompactionJob(st: State, level: nat, in0: seq<File>, in1: seq<File>, inputs: seq<Entry>, st': State)
    requires Inv(st) && StartCompactionStep(st, level, in0, in1, inputs, st')
    ensures JobsOk(st') && st' == st.(compaction := st'.compaction)
  {
    BoundIsOk(st);
    BoundKept(st, st', Bound(st));
    hide BoundOk, Faithful, ViewOk, WritesOk, LevelsOk, JobOk, Sorted, Set, TakenEntries, VS.Picked, VS.CleanCuts;
    LevelStamped(st, level);
    LevelStamped(st, level + 1);
    PickedJobOk(st.version, level, in0, in1, st'.compaction);
  }

  lemma StartCompactionKeeps(st: State, level: nat, in0: seq<File>, in1: seq<File>, inputs: seq<Entry>, st': State)
    requires Inv(st) && StartCompactionStep(st, level, in0, in1, inputs, st')
    ensures Inv(st')
  {
    hide *;
    StartCompactionJob(st, level, in0, in1, inputs, st');
    JobsChange(st, st');
  }

  // ---- Writes.

  lemma SwitchKeeps(st: State, id: nat, st': State)
    requires Inv(st) && SwitchStep(st, id, st')
    ensures Inv(st')
  {
    SwitchViews(st, id, st');
    SwitchWrites(st, id, st');
    JobsKept(st, st');
    hide ViewsOk, JobsOk, WritesOk;
  }

  lemma SwitchWrites(st: State, id: nat, st': State)
    requires WritesOk(st) && SwitchStep(st, id, st')
    ensures WritesOk(st')
  {
  }

  /** The full memtable moves down one layer under an empty one. */
  lemma SwitchViews(st: State, id: nat, st': State)
    requires Inv(st) && SwitchStep(st, id, st')
    ensures ViewsOk(st')
  {
    assert MemEntries(st', id) == {} && ImmEntries(st, st.imm) == {};
    assert MemEntries(st', st.mem) == MemEntries(st, st.mem);
    var v, v' := Current(st, st.last), Current(st', st.last);
    assert Under(st', v') == Contents(st, v) && Contents(st', v') == Contents(st, v);
    forall s | Live(st', s) ensures Faithful(st', Current(st', s)) {
      assert Live(st, s);
      assert Contents(st', Current(st', s)) == Contents(st', v') && Contents(st, Current(st, s)) == Contents(st, v);
    }
    forall r | r in st'.readers ensures ViewOk(st', r) && Faithful(st', r) {
      ViewKept(st, st', r);
    }
  }

  lemma InsertOneKeeps(st: State, list: seq<Entry>, st': State)
    requires Inv(st) && InsertOneStep(st, list, st')
    ensures Inv(st')
  {
    InsertWrites(st, list, st');
    assert Live(st, st.last);
    InsertView(st, list, st', Current(st, st.last));
    forall s | Live(st', s) ensures Faithful(st', Current(st', s)) {
      assert Live(st, s);
      SameLayers(st, s, st.last);
      InsertView(st, list, st', Current(st, s));
    }
    forall r | r in st'.readers ensures ViewOk(st', r) && Faithful(st', r) { InsertView(st, list, st', r); }
    JobsKept(st, st');
    hide ViewOk, Faithful, JobsOk, WritesOk;
  }

  lemma InsertWrites(st: State, list: seq<Entry>, st': State)
    requires WritesOk(st) && InsertOneStep(st, list, st')
    ensures WritesOk(st')
  {
  }

  /** A write in progress is newer than anything any reader can ask for. */
  lemma InsertView(st: State, list: seq<Entry>, st': State, v: View)
    requires WritesOk(st) && ViewOk(st, v) && Faithful(st, v) && InsertOneStep(st, list, st')
    ensures ViewOk(st', v) && Faithful(st', v)
  {
    var e := st.batch[st.inserted];
    assert e in st.batch && e.key.sequence > st.last;
    assert Under(st', v) == Under(st, v);
    if v.mem == st.mem {
      assert MemEntries(st', v.mem) == MemEntries(st, v.mem) + {e};
      assert Contents(st', v) == Contents(st, v) + {e};
      forall u ensures R.Agree(Contents(st', v), Elems(st'.history), u, v.sequence) {
        R.FutureUnseen(Contents(st, v), Contents(st', v), u, v.sequence);
        R.AgreeThrough(Contents(st', v), Contents(st, v), Elems(st.history), u, v.sequence);
      }
    } else {
      assert Contents(st', v) == Contents(st, v);
    }
  }

  lemma CommitKeeps(st: State, st': State)
    requires Inv(st) && CommitWriteStep(st, st')
    ensures Inv(st')
  {
    CommitWrites(st, st');
    assert Live(st, st.last);
    CommitView(st, st', Current(st, st.last));
    CommitLatest(st, st');
    forall s | Live(st', s) ensures Faithful(st', Current(st', s)) {
      if s in st.snapshots {
        SameLayers(st, s, st.last);
        CommitView(st, st', Current(st, s));
      }
    }
    forall r | r in st'.readers ensures ViewOk(st', r) && Faithful(st', r) { CommitView(st, st', r); }
    SameLayers(st', st.last, st'.last);
    JobsKept(st, st');
    hide ViewOk, Faithful, JobsOk, WritesOk;
  }

  lemma CommitWrites(st: State, st': State)
    requires WritesOk(st) && CommitWriteStep(st, st')
    ensures WritesOk(st')
  {
  }

  /** A reader's sequence is below the whole batch. */
  lemma CommitView(st: State, st': State, v: View)
    requires WritesOk(st) && ViewOk(st, v) && Faithful(st, v) && CommitWriteStep(st, st')
    ensures ViewOk(st', v) && Faithful(st', v)
  {
    assert Contents(st', v) == Contents(st, v) && Under(st', v) == Under(st, v);
    ElemsConcat(st.history, st.batch);
    forall u ensures R.Agree(Contents(st', v), Elems(st'.history), u, v.sequence) {
      R.FutureUnseen(Elems(st.history), Elems(st'.history), u, v.sequence);
      R.AgreeThrough(Contents(st', v), Elems(st.history), Elems(st'.history), u, v.sequence);
    }
  }

  /** At the new last sequence the batch is visible in the memtable and in the history alike. */
  lemma CommitLatest(st: State, st': State)
    requires WritesOk(st) && ViewOk(st, Current(st, st.last)) && Faithful(st, Current(st, st.last))
    requires CommitWriteStep(st, st')
    ensures Faithful(st', Current(st', st'.last))
  {
    hide R.Agree, R.Stamped, R.Newer, Sorted, VersionOk;
    var C := Contents(st, Current(st, st.last));
    assert Contents(st', Current(st', st'.last)) == C;
    ElemsConcat(st.history, st.batch);
    assert st.batch[..st.inserted] == st.batch;
    forall u ensures R.Agree(C, Elems(st'.history), u, st'.last) {
      BatchAgrees(C, Elems(st.history), Elems(st.batch), u, st.last, st'.last);
    }
  }

  lemma BatchAgrees(C: set<Entry>, H: set<Entry>, B: set<Entry>, u: UserKey, s: Sequence, t: Sequence)
    requires s <= t && R.Agree(C, H, u, s) && B <= C && R.Stamped(C + H + B)
    requires forall e :: e in C ==> e.key.sequence <= s || e in B
    requires forall e :: e in H ==> e.key.sequence <= s
    requires forall e :: e in B ==> s < e.key.sequence <= t
    ensures R.Agree(C, H + B, u, t)
  {
    var found, b := R.NewestExists(B, u, t);
    if found {
      assert R.Newest(C, u, t, b) && R.Newest(H + B, u, t, b);
      forall e | R.Newest(C, u, t, e) ensures e == b { assert e in C + H + B && b in C + H + B; }
      forall e | R.Newest(H + B, u, t, e) ensures e == b { assert e in C + H + B && b in C + H + B; }
    } else {
      forall e ensures R.Newest(C, u, s, e) <==> R.Newest(C, u, t, e) { }
      forall e ensures R.Newest(H, u, s, e) <==> R.Newest(H + B, u, t, e) { }
      forall v ensures R.Shows(C, u, t, v) <==> R.Shows(H + B, u, t, v) {
        assert R.Shows(C, u, s, v) <==> R.Shows(H, u, s, v);
      }
    }
  }

  // ---- Installing a flush.

  lemma InstallFlushKeeps(st: State, level: nat, number: nat, version: seq<seq<File>>, st': State)
    requires Inv(st) && InstallFlushStep(st, level, number, version, st')
    ensures Inv(st')
  {
    hide *;
    FlushShape(st, level, number, version, st');
    FlushVersion(st, level, number, version, st');
    FlushCurrent(st, st');
    FlushReaders(st, st');
    FlushJobs(st, level, number, version, st');
    SameWrites(st, st');
    Assemble(st');
  }

  lemma FlushShape(st: State, level: nat, number: nat, version: seq<seq<File>>, st': State)
    requires InstallFlushStep(st, level, number, version, st')
    ensures st.flush.Flushing? && st.imm.Some? && st.imm.value in st.tables && st'.version == version
    ensures st' == st.(imm := None, flush := NoFlush, version := st'.version, nextFile := st'.nextFile)
  {
  }

  /** Neither the history nor the write path nor the snapshots change. */
  lemma SameWrites(st: State, st': State)
    requires Inv(st) && st'.history == st.history && st'.last == st.last && st'.batch == st.batch
    requires st'.inserted == st.inserted && st'.tables == st.tables && st'.mem == st.mem
      && st'.snapshots == st.snapshots
    ensures WritesOk(st') && SnapshotsOk(st')
  {
  }

  lemma Assemble(st: State)
    requires WritesOk(st) && SnapshotsOk(st) && JobsOk(st)
    requires ViewOk(st, Current(st, st.last))
    requires forall s :: Live(st, s) ==> Faithful(st, Current(st, s))
    requires forall v :: v in st.readers ==> ViewOk(st, v) && Faithful(st, v)
    ensures Inv(st)
  {
  }

  ghost function FlushTable(st: State): seq<Entry>
    requires st.flush.Flushing? && st.imm.Some? && st.imm.value in st.tables
  {
    Pruned(st.tables[st.imm.value], st.flush.bound, |st.tables[st.imm.value]|)
  }

  /** The flushed table is newer than every file. */
  lemma FlushNewer(st: State)
    requires Inv(st) && st.flush.Flushing?
    ensures st.imm.Some? && st.imm.value in st.tables
    ensures Elems(FlushTable(st)) <= ImmEntries(st, st.imm)
    ensures R.Newer(Elems(FlushTable(st)), VersionEntries(st.version))
  {
    var list := st.tables[st.imm.value];
    PrunedElems(list, st.flush.bound, |list|);
  }

  lemma FlushVersion(st: State, level: nat, number: nat, version: seq<seq<File>>, st': State)
    requires Inv(st) && InstallFlushStep(st, level, number, version, st')
    ensures VersionOk(version) && Numbered(version, st'.nextFile)
    ensures VersionEntries(version) == VersionEntries(st.version) + Elems(FlushTable(st))
  {
    FlushNewer(st);
    var table := FlushTable(st);
    if table != [] {
      var f := File(number, table);
      AddedLevelOk(st.version, version, level, f);
      NumberedMore(st.version, st.nextFile, number);
      AddedLayered(st.version, version, level, f);
      AddedEntries(st.version, version, level, f);
      AddedNumbered(st.version, version, level, f);
    } else {
      assert Elems(table) == {};
      NumberedMore(st.version, st.nextFile, st'.nextFile);
    }
  }

  lemma NumberedMore(version: seq<seq<File>>, a: nat, b: nat)
    requires Numbered(version, a) && a <= b
    ensures Numbered(version, b)
  {
  }

  lemma AddedNumbered(version: seq<seq<File>>, version': seq<seq<File>>, level: nat, f: File)
    requires level < |version| && Added(version, version', level, f) && Numbered(version, f.number)
    ensures Numbered(version', f.number + 1)
  {
    forall l, g | 0 <= l < |version'| && g in version'[l] ensures g.number < f.number + 1 {
      if l == level { assert g in Set(version'[level]); }
    }
  }

  /** Pruning the memtable on its way into the version is unseen by every live sequence. */
  lemma FlushCurrent(st: State, st': State)
    requires Inv(st) && st.flush.Flushing?
    requires st' == st.(imm := None, flush := NoFlush, version := st'.version, nextFile := st'.nextFile)
    requires VersionOk(st'.version)
    requires st.imm.Some? && st.imm.value in st.tables
    requires VersionEntries(st'.version) == VersionEntries(st.version) + Elems(FlushTable(st))
    ensures ViewOk(st', Current(st', st'.last))
    ensures forall s :: Live(st', s) ==> Faithful(st', Current(st', s))
  {
    FlushNewer(st);
    var v, v' := Current(st, st.last), Current(st', st'.last);
    assert Under(st', v') <= Under(st, v);
    assert MemEntries(st', v'.mem) == MemEntries(st, v.mem);
    forall s | Live(st', s) ensures Faithful(st', Current(st', s)) {
      assert Live(st, s);
      FlushFaithful(st, st', s);
    }
  }

  lemma FlushFaithful(st: State, st': State, s: Sequence)
    requires Inv(st) && st.flush.Flushing? && Live(st, s)
    requires st' == st.(imm := None, flush := NoFlush, version := st'.version, nextFile := st'.nextFile)
    requires st.imm.Some? && st.imm.value in st.tables
    requires VersionEntries(st'.version) == VersionEntries(st.version) + Elems(FlushTable(st))
    ensures Faithful(st', Current(st', s))
  {
    var list := st.tables[st.imm.value];
    var X := MemEntries(st, st.mem) + VersionEntries(st.version);
    SameLayers(st, s, st.last);
    KnownStamped(st);
    assert Contents(st, Current(st, s)) == X + Elems(list);
    assert Contents(st', Current(st', s)) == X + Elems(FlushTable(st));
    forall u ensures R.Agree(Contents(st', Current(st', s)), Elems(st'.history), u, s) {
      PruneSafe(X, list, st.flush.bound, u, s);
      R.AgreeThrough(X + Elems(FlushTable(st)), X + Elems(list), Elems(st.history), u, s);
    }
  }

  lemma FlushReaders(st: State, st': State)
    requires Inv(st)
    requires st' == st.(imm := None, flush := NoFlush, version := st'.version, nextFile := st'.nextFile)
    ensures forall r :: r in st'.readers ==> ViewOk(st', r) && Faithful(st', r)
  {
  }

  lemma NewerUnion(A: set<Entry>, B: set<Entry>, rest: set<Entry>, D: set<Entry>)
    requires R.Newer(A, D) && R.Newer(B, D) && rest <= A + B
    ensures R.Newer(rest, D)
  {
  }

  /** A flush in the middle of a compaction leaves its inputs closed: it adds only newer versions. */
  lemma FlushKeepsJob(version: seq<seq<File>>, version': seq<seq<File>>, level: nat, f: File, c: CompactJob)
    requires VersionOk(version) && FileOk(f) && Placeable(version, level, f) && Added(version, version', level, f)
    requires R.Newer(Elems(f.entries), VersionEntries(version)) && JobOk(version, c) && c.Compacting?
    ensures JobOk(version', c)
  {
    hide VersionOk, R.Newer, ClosedHere, ClosedBelow, LeftApart;
    FlushKeepsApart(version, version', level, f, c);
    FlushKeepsHere(version, version', level, f, c);
    FlushKeepsBelow(version, version', level, f, c);
    AddedRest(version, version', level, f, c.level, c.files0);
    AddedRest(version, version', level, f, c.level + 1, c.files1);
  }

  lemma FlushKeepsHere(version: seq<seq<File>>, version': seq<seq<File>>, level: nat, f: File, c: CompactJob)
    requires level < |version| && Added(version, version', level, f)
    requires R.Newer(Elems(f.entries), VersionEntries(version)) && JobOk(version, c) && c.Compacting?
    ensures ClosedHere(version', c)
  {
    InputsWithin(version, c);
    AddedRest(version, version', level, f, c.level, c.files0);
    AddedRest(version, version', level, f, c.level + 1, c.files1);
    var E := Elems(f.entries);
    NewerUnion(RestEntries(version[c.level], c.files0), E, RestEntries(version'[c.level], c.files0),
      TakenEntries(c.files0));
    NewerUnion(RestEntries(version[c.level + 1], c.files1), E, RestEntries(version'[c.level + 1], c.files1),
      Elems(c.inputs));
  }

  lemma FlushKeepsBelow(version: seq<seq<File>>, version': seq<seq<File>>, level: nat, f: File, c: CompactJob)
    requires VersionOk(version) && FileOk(f) && Placeable(version, level, f) && Added(version, version', level, f)
    requires JobOk(version, c) && c.Compacting?
    ensures ClosedBelow(version', c)
  {
    AddedEntries(version, version', level, f);
    forall l, x, e | c.level + 2 <= l < |version'| && x in FileEntries(version'[l]) && e in c.inputs
                     && e.key.user in Compactor.BaseKeys(c.base, c.level)
      ensures x.key.user != e.key.user
    {
      if l == level && x in f.entries { FlushApartFromInputs(version, level, f, c, x, e); }
    }
  }

  /** A flush into the output level shares no user key with any input. */
  lemma FlushKeepsApart(version: seq<seq<File>>, version': seq<seq<File>>, level: nat, f: File, c: CompactJob)
    requires VersionOk(version) && FileOk(f) && Placeable(version, level, f) && Added(version, version', level, f)
    requires JobOk(version, c) && c.Compacting?
    ensures LeftApart(version', c)
  {
    forall g | g in version'[c.level + 1] && g !in c.files1 && g !in c.base[c.level + 1] ensures Outside(c, g) {
      if level == c.level + 1 {
        assert g in Set(version'[level]);
        PlacedOutside(version, c, f);
      }
    }
  }

  lemma InputsWithin(version: seq<seq<File>>, c: CompactJob)
    requires c.Compacting? && JobOk(version, c)
    ensures Elems(c.inputs) <= VersionEntries(version) && TakenEntries(c.files0) <= VersionEntries(version)
  {
  }

  lemma AddedRest(version: seq<seq<File>>, version': seq<seq<File>>, level: nat, f: File, l: nat, taken: set<File>)
    requires level < |version| && l < |version| && Added(version, version', level, f) && taken <= Set(version[l])
    ensures taken <= Set(version'[l])
    ensures RestEntries(version'[l], taken) <= RestEntries(version[l], taken) + Elems(f.entries)
  {
    if l == level {
      forall e | e in RestEntries(version'[l], taken) ensures e in RestEntries(version[l], taken) + Elems(f.entries) {
        var g :| g in version'[l] && g !in taken && e in g.entries;
        assert g in Set(version'[l]);
      }
    }
  }

  lemma FlushApartFromInputs(version: seq<seq<File>>, level: nat, f: File, c: CompactJob, x: Entry, e: Entry)
    requires LevelsOk(version) && FileOk(f) && Placeable(version, level, f) && c.Compacting? && JobOk(version, c)
    requires c.level + 2 <= level && x in f.entries && e in c.inputs
    ensures x.key.user != e.key.user
  {
    assert e in Elems(c.inputs);
    var g :| (g in c.files0 || g in c.files1) && e in g.entries;
    UserApartEntries(g, f);
  }

  lemma FlushJobs(st: State, level: nat, number: nat, version: seq<seq<File>>, st': State)
    requires Inv(st) && InstallFlushStep(st, level, number, version, st')
    requires Numbered(version, st'.nextFile)
    ensures JobsOk(st')
  {
    FlushNewer(st);
    if st.compaction.Compacting? {
      BoundKept(st, st', st.compaction.bound);
      var table := FlushTable(st);
      if table != [] {
        FlushKeepsJob(st.version, version, level, File(number, table), st.compaction);
      }
    }
  }

  // ---- Installing a compaction.

  lemma InstallCompactionKeeps(st: State, outs: seq<File>, next: nat, version: seq<seq<File>>, st': State)
    requires Inv(st) && InstallCompactionStep(st, outs, next, version, st')
    ensures Inv(st')
  {
    hide *;
    CompactionShape(st, outs, next, version, st');
    CompactionVersion(st, outs, next, version, st');
    CompactionCurrent(st, st');
    CompactionReaders(st, st');
    SameWrites(st, st');
    IdleJobs(st');
    Assemble(st');
  }

  lemma CompactionShape(st: State, outs: seq<File>, next: nat, version: seq<seq<File>>, st': State)
    requires InstallCompactionStep(st, outs, next, version, st')
    ensures st.compaction.Compacting? && LevelsOk(st.compaction.base) && st'.version == version
    ensures st.flush.NoFlush? && st'.compaction.NoCompaction? && st'.flush.NoFlush?
    ensures st' == st.(compaction := NoCompaction, version := st'.version, nextFile := st'.nextFile)
  {
  }

  lemma IdleJobs(st: State)
    requires st.compaction.NoCompaction? && st.flush.NoFlush? && Numbered(st.version, st.nextFile)
    ensures JobsOk(st)
  {
  }

  lemma CompactionVersion(st: State, outs: seq<File>, next: nat, version: seq<seq<File>>, st': State)
    requires Inv(st) && InstallCompactionStep(st, outs, next, version, st')
    ensures VersionOk(version) && Numbered(version, st'.nextFile)
    ensures st.compaction.Compacting? && LevelsOk(st.compaction.base)
    ensures var c := st.compaction;
            VersionEntries(version) == Others(st.version, c.level, c.files0, c.files1) + Elems(Kept(c))
  {
    hide *;
    CompactionGuards(st, outs, next, version, st');
    var c := st.compaction;
    CutEntries(outs, Kept(c));
    SwappedLevelsOk(st.version, version, c.level, c.files0, c.files1, outs);
    JobNewer(st.version, c);
    SwappedLayered(st.version, version, c.level, c.files0, c.files1, outs);
    SwappedWhole(st.version, version, c.level, c.files0, c.files1, outs);
    SwappedNumbered(st.version, version, c.level, c.files0, c.files1, outs, st.nextFile, next);
    VersionParts(version);
  }

  lemma VersionParts(version: seq<seq<File>>)
    requires LevelsOk(version) && Layered(version) && forall l :: 0 <= l < NUM_LEVELS ==> NoRepeat(version[l])
    ensures VersionOk(version)
  {
  }

  // What the install step and the invariant say of the version, the job and its outputs.
  lemma CompactionGuards(st: State, outs: seq<File>, next: nat, version: seq<seq<File>>, st': State)
    requires Inv(st) && InstallCompactionStep(st, outs, next, version, st')
    ensures st.compaction.Compacting? && JobOk(st.version, st.compaction) && LevelsOk(st.compaction.base)
    ensures VersionOk(st.version) && |st.version| == NUM_LEVELS && Numbered(st.version, st.nextFile)
    ensures st'.nextFile == next >= st.nextFile && forall o :: o in outs ==> o.number < next
    ensures var c := st.compaction;
      && c.level + 1 < NUM_LEVELS && c.files0 <= Set(st.version[c.level]) && c.files1 <= Set(st.version[c.level + 1])
      && Sorted(Kept(c)) && Elems(Kept(c)) <= TakenEntries(c.files0) + TakenEntries(c.files1)
      && IsCut(outs, Kept(c))
      && Swapped(st.version, version, c.level, c.files0, c.files1, outs)
      && (forall o, g :: o in outs && g in st.version[c.level + 1] && g !in c.files1
            ==> FileOk(o) && FileOk(g) && Apart(o, g))
  {
    hide Faithful, Layered, R.Newer, ClosedHere, ClosedBelow, LeftApart, Sorted, Compacted, Swapped, FileOk, Apart,
      SplitAt, IsCut, Kept;
    KeptOk(st.compaction);
    CompactionApart(st.version, st.compaction, outs);
  }

  lemma CompactionApart(version: seq<seq<File>>, c: CompactJob, outs: seq<File>)
    requires c.Compacting? && JobOk(version, c) && IsCut(outs, Kept(c))
    requires forall g :: g in version[c.level + 1] && g !in c.files1 && g !in c.base[c.level + 1]
               ==> FileOk(g) && SplitAt(outs, g)
    ensures forall o, g :: o in outs && g in version[c.level + 1] && g !in c.files1
               ==> FileOk(o) && FileOk(g) && Apart(o, g)
  {
    hide Kept, IsCut, SplitAt, Apart, Sorted, ClosedHere, ClosedBelow, LeftApart, TakenEntries;
    forall o, g | o in outs && g in version[c.level + 1] && g !in c.files1
      ensures FileOk(o) && FileOk(g) && Apart(o, g) {
      LeftApartFrom(version, c, outs, o, g);
    }
  }

  lemma JobNewer(version: seq<seq<File>>, c: CompactJob)
    requires c.Compacting? && JobOk(version, c)
    ensures R.Newer(RestEntries(version[c.level], c.files0), TakenEntries(c.files0))
  {
  }

  lemma SwappedNumbered(version: seq<seq<File>>, version': seq<seq<File>>, level: nat,
                        files0: set<File>, files1: set<File>, outs: seq<File>, a: nat, b: nat)
    requires level + 1 < |version| && Swapped(version, version', level, files0, files1, outs)
    requires Numbered(version, a) && a <= b && forall o :: o in outs ==> o.number < b
    ensures Numbered(version', b)
  {
    forall l, g | 0 <= l < |version'| && g in version'[l] ensures g.number < b {
      assert l == level || l == level + 1 ==> g in Set(version'[l]);
    }
  }

  /** A version holding no more than before keeps the order of the layers above it. */
  lemma ShrinkView(st: State, st': State)
    requires ViewOk(st, Current(st, st.last)) && VersionOk(st'.version)
    requires st' == st.(compaction := NoCompaction, version := st'.version, nextFile := st'.nextFile)
    requires VersionEntries(st'.version) <= VersionEntries(st.version)
    ensures ViewOk(st', Current(st', st'.last))
  {
  }

  /** Dropping versions is unseen by every live sequence. */
  lemma CompactionCurrent(st: State, st': State)
    requires Inv(st) && st.compaction.Compacting? && LevelsOk(st.compaction.base)
    requires st' == st.(compaction := NoCompaction, version := st'.version, nextFile := st'.nextFile)
    requires VersionOk(st'.version)
    requires var c := st.compaction;
             VersionEntries(st'.version) == Others(st.version, c.level, c.files0, c.files1) + Elems(Kept(c))
    ensures ViewOk(st', Current(st', st'.last))
    ensures forall s :: Live(st', s) ==> Faithful(st', Current(st', s))
  {
    var c := st.compaction;
    KeptOk(c);
    OldWhole(st.version, c.level, c.files0, c.files1);
    assert VersionEntries(st'.version) <= VersionEntries(st.version);
    hide VersionOk, ViewOk, Faithful, JobOk, WritesOk, SnapshotsOk, VersionEntries, Others, TakenEntries;
    ShrinkView(st, st');
    forall s | Live(st', s) ensures Faithful(st', Current(st', s)) {
      assert Live(st, s);
      CompactionFaithful(st, st', s);
    }
  }

  /** Everything beside the compaction's inputs. */
  ghost function Beside(st: State): set<Entry>
    requires st.compaction.Compacting?
  {
    MemEntries(st, st.mem) + ImmEntries(st, st.imm)
    + Others(st.version, st.compaction.level, st.compaction.files0, st.compaction.files1)
  }

  lemma CompactionContents(st: State, st': State, s: Sequence)
    requires st.compaction.Compacting? && JobOk(st.version, st.compaction)
    requires st' == st.(compaction := NoCompaction, version := st'.version, nextFile := st'.nextFile)
    requires var c := st.compaction;
             VersionEntries(st'.version) == Others(st.version, c.level, c.files0, c.files1) + Elems(Kept(c))
    ensures Contents(st, Current(st, s)) == Beside(st) + Elems(st.compaction.inputs)
    ensures Contents(st', Current(st', s)) == Beside(st) + Elems(Kept(st.compaction))
  {
  }

  lemma CompactionFaithful(st: State, st': State, s: Sequence)
    requires Inv(st) && st.compaction.Compacting? && LevelsOk(st.compaction.base) && Live(st, s)
    requires st' == st.(compaction := NoCompaction, version := st'.version, nextFile := st'.nextFile)
    requires var c := st.compaction;
             VersionEntries(st'.version) == Others(st.version, c.level, c.files0, c.files1) + Elems(Kept(c))
    ensures Faithful(st', Current(st', s))
  {
    var c := st.compaction;
    var X := Beside(st);
    KnownStamped(st);
    CompactionContents(st, st', s);
    SameLayers(st, s, st.last);
    hide VersionEntries, Others, ClosedHere, ClosedBelow, LeftApart, Beside, MemEntries, ImmEntries, VersionOk,
      WritesOk, R.Agree, R.Newer;
    forall x, e | x in X && e in c.inputs && x.key.user == e.key.user
      && e.key.user in Compactor.BaseKeys(c.base, c.level)
      ensures e.key.sequence < x.key.sequence
    {
      BesideNewer(st, x, e);
    }
    assert R.Stamped(X + Elems(c.inputs));
    forall u ensures R.Agree(Contents(st', Current(st', s)), Elems(st'.history), u, s) {
      CompactSafe(X, c.inputs, c.bound, Compactor.BaseKeys(c.base, c.level), u, s);
      R.AgreeThrough(X + Elems(Kept(c)), X + Elems(c.inputs), Elems(st.history), u, s);
    }
  }

  /** Whatever lies beside the inputs is newer than an input of the same base-level key. */
  lemma BesideNewer(st: State, x: Entry, e: Entry)
    requires Inv(st) && st.compaction.Compacting? && LevelsOk(st.compaction.base)
    requires var c := st.compaction;
             && x in Beside(st) && e in c.inputs && x.key.user == e.key.user
               && e.key.user in Compactor.BaseKeys(c.base, c.level)
    ensures e.key.sequence < x.key.sequence
  {
    var c := st.compaction;
    InputsWithin(st.version, c);
    assert e in Elems(c.inputs);
    if x in Others(st.version, c.level, c.files0, c.files1) {
      OthersNewer(st.version, c, x, e);
    } else {
      assert e in Under(st, Current(st, st.last));
    }
  }

  lemma CompactionReaders(st: State, st': State)
    requires Inv(st)
    requires st' == st.(compaction := NoCompaction, version := st'.version, nextFile := st'.nextFile)
    ensures forall r :: r in st'.readers ==> ViewOk(st', r) && Faithful(st', r)
  {
  }

  // ---- Moving a file down a level unread.

  lemma MoveFileKeeps(st: State, level: nat, f: File, version: seq<seq<File>>, st': State)
    requires Inv(st) && MoveFileStep(st, level, f, version, st')
    ensures Inv(st')
  {
    MoveVersion(st, level, f, version, st');
    MoveCurrent(st, st');
    CompactionReaders(st, st');
    hide *;
    SameWrites(st, st');
    IdleJobs(st');
    Assemble(st');
  }

  lemma MoveVersion(st: State, level: nat, f: File, version: seq<seq<File>>, st': State)
    requires Inv(st) && MoveFileStep(st, level, f, version, st')
    ensures VersionOk(version) && Numbered(version, st'.nextFile)
      && VersionEntries(version) == VersionEntries(st.version)
  {
    hide *;
    MoveShape(st, level, f, version, st');
    MoveGuards(st, level, f, version, st');
    MovedEntries(f);
    SwappedLevelsOk(st.version, version, level, {f}, {}, [f]);
    SwappedLayered(st.version, version, level, {f}, {}, [f]);
    SwappedWhole(st.version, version, level, {f}, {}, [f]);
    FileWithinNumber(st.version, level, f, st.nextFile);
    SwappedNumbered(st.version, version, level, {f}, {}, [f], st.nextFile, st.nextFile);
    VersionParts(version);
  }

  // What the move step and the invariant say of the version.
  lemma MoveShape(st: State, level: nat, f: File, version: seq<seq<File>>, st': State)
    requires Inv(st) && MoveFileStep(st, level, f, version, st')
    ensures VersionOk(st.version) && |st.version| == NUM_LEVELS && level + 1 < NUM_LEVELS
    ensures Numbered(st.version, st.nextFile) && st'.nextFile == st.nextFile
    ensures Swapped(st.version, version, level, {f}, {}, [f])
  {
  }

  lemma MovedEntries(f: File)
    ensures FileEntries([f]) == TakenEntries({f}) && TakenEntries({}) == {}
    ensures FileOk(f) ==> LevelOk([f])
    ensures forall o :: o in [f] ==> o == f
  {
  }

  lemma MoveGuards(st: State, level: nat, f: File, version: seq<seq<File>>, st': State)
    requires Inv(st) && MoveFileStep(st, level, f, version, st')
    ensures f in st.version[level] && {f} <= Set(st.version[level]) && FileOk(f)
    ensures R.Newer(RestEntries(st.version[level], {f}), TakenEntries({f}))
    ensures forall g :: g in st.version[level + 1] ==> FileOk(g) && Apart(f, g)
  {
    LevelStamped(st, level);
    LevelStamped(st, level + 1);
    assert f in [f];
    assert Set([f]) == {f} && f in Set([f]) && [f][0] == f;
    var none: seq<File> := [];
    assert Set(none) == {};
    hide Faithful, Layered, R.Newer, R.Stamped, JobOk, VS.CleanCuts, ViewOk, WritesOk, RestEntries, TakenEntries;
    VS.PickedCloses(st.version, level, [f], none);
    forall g | g in st.version[level + 1] ensures FileOk(g) && Apart(f, g) {
      VS.OutputsApart(st.version, level, [f], none, f, g);
    }
  }

  lemma FileWithinNumber(version: seq<seq<File>>, l: nat, f: File, n: nat)
    requires l < |version| && f in version[l] && Numbered(version, n)
    ensures f.number < n
  {
  }

  lemma MoveCurrent(st: State, st': State)
    requires Inv(st) && st' == st.(version := st'.version)
    requires VersionOk(st'.version) && VersionEntries(st'.version) == VersionEntries(st.version)
    ensures ViewOk(st', Current(st', st'.last))
    ensures forall s :: Live(st', s) ==> Faithful(st', Current(st', s))
  {
    var v, v' := Current(st, st.last), Current(st', st'.last);
    assert Under(st', v') == Under(st, v) && MemEntries(st', v'.mem) == MemEntries(st, v.mem);
    forall s | Live(st', s) ensures Faithful(st', Current(st', s)) {
      assert Live(st, s);
      assert Contents(st', Current(st', s)) == Contents(st, Current(st, s));
    }
  }

  // ---- Every run.

  lemma StepKeeps(st: State, a: Action, st': State)
    requires Inv(st) && Next(st, a, st')
    ensures Inv(st')
  {
    hide Inv, BeginWriteStep, InsertOneStep, CommitWriteStep, SwitchStep, InstallFlushStep, StartCompactionStep,
      InstallCompactionStep, MoveFileStep;
    match a
    case BeginWrite(batch) => BeginWriteKeeps(st, batch, st');
    case InsertOne(list) => InsertOneKeeps(st, list, st');
    case CommitWrite => CommitKeeps(st, st');
    case TakeSnapshot => SnapshotKeeps(st, st');
    case ReleaseSnapshot(i) => ReleaseKeeps(st, i, st');
    case Switch(id) => SwitchKeeps(st, id, st');
    case StartFlush => StartFlushKeeps(st, st');
    case InstallFlush(level, number, version) => InstallFlushKeeps(st, level, number, version, st');
    case StartCompaction(level, in0, in1, inputs) => StartCompactionKeeps(st, level, in0, in1, inputs, st');
    case InstallCompaction(outs, next, version) => InstallCompactionKeeps(st, outs, next, version, st');
    case MoveFile(level, f, version) => MoveFileKeeps(st, level, f, version, st');
    case StartRead(s) => ReadersChange(st, st');
    case EndRead(v) => ReadersChange(st, st');
  }

  ghost predicate IsRun(states: seq<State>, actions: seq<Action>) {
    && |states| == |actions| + 1
    && forall i :: 0 <= i < |actions| ==> Next(states[i], actions[i], states[i + 1])
  }

  lemma {:induction false} RunKeeps(states: seq<State>, actions: seq<Action>, n: nat)
    requires IsRun(states, actions) && Inv(states[0]) && n < |states|
    ensures Inv(states[n])
  {
    hide Inv, Next;
    if n > 0 {
      RunKeeps(states, actions, n - 1);
      StepKeeps(states[n - 1], actions[n - 1], states[n]);
    }
  }

  /** In every reachable state every reader's layers answer as the write history does at its sequence. */
  lemma EveryReadIsHistory(states: seq<State>, actions: seq<Action>, n: nat, v: View, u: UserKey, value: Bytes)
    requires IsRun(states, actions) && Inv(states[0]) && n < |states|
    requires v in states[n].readers || exists s :: Live(states[n], s) && v == Current(states[n], s)
    ensures R.Shows(Contents(states[n], v), u, v.sequence, value)
            <==> HistoryGet(states[n].history, u, v.sequence) == Some(value)
  {
    RunKeeps(states, actions, n);
    var st := states[n];
    HistoryShows(st.history, u, v.sequence, value);
    assert Faithful(st, v);
    assert R.Agree(Contents(st, v), Elems(st.history), u, v.sequence);
  }

  /** A lookup by the store's own search code through a reader's layers returns the history's answer. */
  method ReadThrough(ghost st: State, v: View, mem: seq<Entry>, imm: Option<seq<Entry>>, u: UserKey)
    returns (value: Option<Bytes>)
    requires Inv(st) && v in st.readers
    requires v.mem in st.tables && mem == st.tables[v.mem]
    requires imm == if v.imm.Some? && v.imm.value in st.tables then Some(st.tables[v.imm.value]) else None
    ensures value == HistoryGet(st.history, u, v.sequence)
  {
    KnownStamped(st);
    assert ViewOk(st, v) && Faithful(st, v);
    assert ImmEntries(st, v.imm) == if imm.Some? then Elems(imm.value) else {};
    value := Get(mem, imm, v.version, u, v.sequence);
    ghost var C := Contents(st, v);
    forall w ensures value == Some(w) <==> HistoryGet(st.history, u, v.sequence) == Some(w) {
      HistoryShows(st.history, u, v.sequence, w);
      assert R.Agree(C, Elems(st.history), u, v.sequence);
    }
  }

  /** A newly created store satisfies the invariant. */
  lemma EmptyStoreOk()
    ensures var none: seq<File> := [];
            Inv(State([], 0, [], 0, map[0 := []], 0, None, seq(NUM_LEVELS, _ => none), [],
                      NoFlush, NoCompaction, 2, {}))
  {
  }

  // ---- What the guards of the steps ask of states and versions is there.

  /** The skip list can take any entry whose sequence number is new. */
  lemma InsertSorted(list: seq<Entry>, e: Entry) returns (r: seq<Entry>)
    requires Sorted(list) && forall x :: x in list ==> x.key.sequence != e.key.sequence
    ensures Sorted(r) && Elems(r) == Elems(list) + {e}
  {
    var p := LowerBound(list, e.key);
    r := list[..p] + [e] + list[p..];
    assert list == list[..p] + list[p..];
    forall i | p <= i < |list| ensures Before(e.key, list[i].key) { assert list[i] in list; }
    forall i, j | 0 <= i < j < |r| ensures Before(r[i].key, r[j].key) { }
  }

  /** Any set of files can be put in the order SaveTo gives them. */
  lemma {:induction false} RebuiltExists(want: set<File>) returns (files: seq<File>)
    requires forall f :: f in want ==> |f.entries| > 0
    ensures Rebuilt(files, want)
    decreases want
  {
    if want == {} {
      files := [];
    } else {
      var f :| f in want;
      var rest := RebuiltExists(want - {f});
      var p := 0;
      while p < |rest| && !Before(Smallest(f), Smallest(rest[p]))
        invariant p <= |rest| && forall i :: 0 <= i < p ==> !Before(Smallest(f), Smallest(rest[i]))
      {
        p := p + 1;
      }
      files := rest[..p] + [f] + rest[p..];
      FileInserted(rest, want - {f}, f, p);
      assert want - {f} + {f} == want;
    }
  }

  lemma FileInserted(rest: seq<File>, want: set<File>, f: File, p: nat)
    requires Rebuilt(rest, want) && f !in want && |f.entries| > 0 && p <= |rest|
    requires forall i :: 0 <= i < p ==> !Before(Smallest(f), Smallest(rest[i]))
    requires p < |rest| ==> Before(Smallest(f), Smallest(rest[p]))
    ensures Rebuilt(rest[..p] + [f] + rest[p..], want + {f})
  {
    var files := rest[..p] + [f] + rest[p..];
    assert rest == rest[..p] + rest[p..];
    forall g ensures g in Set(files) <==> g in want + {f} { assert g in rest <==> g in Set(rest); }
    forall i | 0 <= i < |rest| ensures rest[i] != f { assert rest[i] in Set(rest); }
    forall i, j | 0 <= i < j < |files| ensures files[i] != files[j] { }
    forall i | p <= i < |rest| ensures !Before(Smallest(rest[i]), Smallest(f)) {
      assert i == p || !Before(Smallest(rest[i]), Smallest(rest[p]));
    }
    forall i, j | 0 <= i < j < |files| ensures !Before(Smallest(files[j]), Smallest(files[i])) { }
  }

  /** The guards about the shape of versions, tables and files exclude no run. */
  lemma GuardsHold(st: State)
    requires Inv(st)
    ensures LevelsOk(st.version) && |st.version| == NUM_LEVELS && st.mem in st.tables
    ensures st.flush.Flushing? ==>
      st.imm.Some? && st.imm.value in st.tables && Sorted(FlushTable(st)) && Numbered(st.version, st.nextFile)
    ensures st.compaction.Compacting? ==>
      && st.compaction.level + 1 < NUM_LEVELS && LevelsOk(st.compaction.base)
      && forall g :: g in st.version[st.compaction.level + 1] ==> FileOk(g)
  {
    hide Faithful, Layered, R.Newer, ClosedHere, ClosedBelow, LeftApart;
    if st.flush.Flushing? {
      var list := st.tables[st.imm.value];
      PrunedSorted(list, st.flush.bound, |list|);
    }
  }

  /** A write can always insert its next entry, and a flush can always install, at level 0 if nowhere else. */
  lemma NeverStuck(st: State)
    requires Inv(st)
    ensures st.inserted < |st.batch| ==> exists list, st' :: InsertOneStep(st, list, st')
    ensures st.flush.Flushing? ==> exists version, st' :: InstallFlushStep(st, 0, st.nextFile, version, st')
  {
    GuardsHold(st);
    if st.inserted < |st.batch| { InsertEnabled(st); }
    if st.flush.Flushing? { FlushEnabled(st); }
    hide *;
  }

  lemma InsertEnabled(st: State)
    requires Inv(st) && st.inserted < |st.batch| && st.mem in st.tables
    ensures exists list, st' :: InsertOneStep(st, list, st')
  {
    hide Faithful, VersionOk, R.Newer, JobsOk, SnapshotsOk;
    var list, e := st.tables[st.mem], st.batch[st.inserted];
    forall x | x in list ensures x.key.sequence != e.key.sequence {
      assert x in MemEntries(st, st.mem);
    }
    assert Sorted(list) by { assert ViewOk(st, Current(st, st.last)); }
    var more := InsertSorted(list, e);
    assert InsertOneStep(st, more, st.(tables := st.tables[st.mem := more], inserted := st.inserted + 1));
  }

  lemma FlushEnabled(st: State)
    requires LevelsOk(st.version) && |st.version| == NUM_LEVELS && st.flush.Flushing? && st.imm.Some?
    requires st.imm.value in st.tables && Sorted(FlushTable(st))
    ensures exists version, st' :: InstallFlushStep(st, 0, st.nextFile, version, st')
  {
    var table, number := FlushTable(st), st.nextFile;
    var st' := st.(imm := None, flush := NoFlush, nextFile := number + 1);
    if table == [] {
      assert InstallFlushStep(st, 0, number, st.version, st');
    } else {
      var f := File(number, table);
      forall g | g in Set(st.version[0]) + {f} ensures |g.entries| > 0 { }
      var files := RebuiltExists(Set(st.version[0]) + {f});
      var version := st.version[0 := files];
      assert Added(st.version, version, 0, f);
      hide Rebuilt, Sorted, Pruned, LevelsOk;
      assert InstallFlushStep(st, 0, number, version, st'.(version := version));
    }
  }
}
