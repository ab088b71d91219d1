/** Laws of the store machine's runs stated from the actions: what was written, and who may read what. */
module StoreLaws {
  import opened Keys
  import opened Files
  import opened Lookup
  import opened Dropping
  import opened Store
  import opened StoreMachine
  import opened Outputs
  import Compactor
  import VS = VersionSet
  import R = Reads

  // ---- What one step does to the write path, the snapshots and the readers.

  function SnapshotsAfter(st: State, a: Action): seq<Sequence> {
    match a
    case TakeSnapshot => st.snapshots + [st.last]
    case ReleaseSnapshot(i) =>
      if i < |st.snapshots| then st.snapshots[..i] + st.snapshots[i + 1..] else st.snapshots
    case _ => st.snapshots
  }

  lemma StepSnapshots(st: State, a: Action, st': State)
    requires Next(st, a, st')
    ensures st'.snapshots == SnapshotsAfter(st, a)
  {
    hide LevelsOk, Sorted, Placeable, Added, Swapped, VS.Picked, VS.CleanCuts, IsCut, SplitAt, FileOk, Elems,
      TakenEntries;
  }

  lemma StepReaders(st: State, a: Action, st': State)
    requires Next(st, a, st')
    ensures match a
            case StartRead(s) => st'.readers == st.readers + {Current(st, s)}
            case EndRead(v) => st'.readers == st.readers - {v}
            case _ => st'.readers == st.readers
  {
    hide LevelsOk, Sorted, Placeable, Added, Swapped, VS.Picked, VS.CleanCuts, IsCut, SplitAt, FileOk, Elems,
      TakenEntries;
  }

  lemma StepWrites(st: State, a: Action, st': State)
    requires Next(st, a, st')
    ensures match a
            case BeginWrite(batch) =>
              st.batch == [] && st'.history == st.history && st'.batch == batch && st'.last == st.last
            case CommitWrite =>
              st'.history == st.history + st.batch && st'.batch == [] && st'.last == st.last + |st.batch|
            case _ => st'.history == st.history && st'.batch == st.batch && st'.last == st.last
  {
    hide LevelsOk, Sorted, Placeable, Added, Swapped, VS.Picked, VS.CleanCuts, IsCut, SplitAt, FileOk, Elems,
      TakenEntries;
  }

  // ---- The history is what was written.

  /** The batches begun and committed, in order, and the one begun last and not committed. */
  ghost function Written(actions: seq<Action>, n: nat): (seq<Entry>, seq<Entry>)
    requires n <= |actions|
  {
    if n == 0 then ([], [])
    else
      var (done, open) := Written(actions, n - 1);
      match actions[n - 1]
      case BeginWrite(batch) => (done, batch)
      case CommitWrite => (done + open, [])
      case _ => (done, open)
  }

  lemma {:induction false} HistoryIsWritten(states: seq<State>, actions: seq<Action>, n: nat)
    requires IsRun(states, actions) && states[0].batch == [] && n <= |actions|
    ensures states[n].history == states[0].history + Written(actions, n).0
    ensures states[n].batch == Written(actions, n).1
    ensures states[n].last == states[0].last + |Written(actions, n).0|
  {
    hide Next;
    if n > 0 {
      HistoryIsWritten(states, actions, n - 1);
      StepWrites(states[n - 1], actions[n - 1], states[n]);
    }
  }

  /** Later writes are newer than everything there was. */
  lemma {:induction false} HistoryGrows(states: seq<State>, actions: seq<Action>, i: nat, n: nat)
    requires IsRun(states, actions) && Inv(states[0]) && i <= n < |states|
    ensures states[i].last <= states[n].last && states[i].history <= states[n].history
    ensures forall k :: |states[i].history| <= k < |states[n].history| ==>
      states[i].last < states[n].history[k].key.sequence
    decreases n
  {
    hide Next, Inv;
    if i < n {
      HistoryGrows(states, actions, i, n - 1);
      RunKeeps(states, actions, n - 1);
      StepWrites(states[n - 1], actions[n - 1], states[n]);
      BatchNewer(states[n - 1]);
    }
  }

  lemma BatchNewer(st: State)
    requires Inv(st)
    ensures forall k :: 0 <= k < |st.batch| ==> st.last < st.batch[k].key.sequence
  {
    hide ViewsOk, JobsOk, SnapshotsOk;
  }

  lemma {:induction false} SameAnswer(history: seq<Entry>, more: seq<Entry>, u: UserKey, s: Sequence)
    requires history <= more && forall k :: |history| <= k < |more| ==> s < more[k].key.sequence
    ensures HistoryGet(more, u, s) == HistoryGet(history, u, s)
    decreases |more|
  {
    if |history| < |more| {
      SameAnswer(history, more[..|more| - 1], u, s);
    } else {
      assert more == history;
    }
  }

  // ---- Snapshots.

  function HeldAfter(held: multiset<Sequence>, st: State, a: Action): multiset<Sequence> {
    match a
    case TakeSnapshot => held + multiset{st.last}
    case ReleaseSnapshot(i) => if i < |st.snapshots| then held - multiset{st.snapshots[i]} else held
    case _ => held
  }

  /** The snapshots' sequences: those at the start, with the last sequence at each taking, less what was released. */
  ghost function Held(states: seq<State>, actions: seq<Action>, n: nat): multiset<Sequence>
    requires |states| == |actions| + 1 && n <= |actions|
  {
    if n == 0 then multiset(states[0].snapshots)
    else HeldAfter(Held(states, actions, n - 1), states[n - 1], actions[n - 1])
  }

  lemma StepHeld(st: State, a: Action)
    ensures multiset(SnapshotsAfter(st, a)) == HeldAfter(multiset(st.snapshots), st, a)
  {
    if a.ReleaseSnapshot? && a.index < |st.snapshots| {
      var s, i := st.snapshots, a.index;
      assert s == s[..i] + [s[i]] + s[i + 1..];
    }
  }

  lemma {:induction false} SnapshotsAreHeld(states: seq<State>, actions: seq<Action>, n: nat)
    requires IsRun(states, actions) && n <= |actions|
    ensures multiset(states[n].snapshots) == Held(states, actions, n)
  {
    hide Next, SnapshotsAfter, HeldAfter;
    if n > 0 {
      SnapshotsAreHeld(states, actions, n - 1);
      StepSnapshots(states[n - 1], actions[n - 1], states[n]);
      StepHeld(states[n - 1], actions[n - 1]);
    }
  }

  /** Where in the list the snapshot taken at step i is before step n, if it was not released. */
  ghost function Place(states: seq<State>, actions: seq<Action>, i: nat, n: nat): Option<nat>
    requires |states| == |actions| + 1 && i < n <= |actions|
    decreases n
  {
    if n == i + 1 then Some(|states[i].snapshots|)
    else
      var p := Place(states, actions, i, n - 1);
      match actions[n - 1]
      case ReleaseSnapshot(j) =>
        if p.None? || p.value == j then None else if j < p.value then Some(p.value - 1) else p
      case _ => p
  }

  lemma {:induction false} SnapshotStays(states: seq<State>, actions: seq<Action>, i: nat, n: nat)
    requires IsRun(states, actions) && i < n <= |actions| && actions[i] == TakeSnapshot
    ensures Place(states, actions, i, n).Some? ==>
      var p := Place(states, actions, i, n).value;
      p < |states[n].snapshots| && states[n].snapshots[p] == states[i].last
    decreases n
  {
    hide Next;
    assert Next(states[n - 1], actions[n - 1], states[n]);
    StepSnapshots(states[n - 1], actions[n - 1], states[n]);
    if n > i + 1 {
      SnapshotStays(states, actions, i, n - 1);
      ReleaseInside(states[n - 1], actions[n - 1], states[n]);
    }
  }

  lemma ReleaseInside(st: State, a: Action, st': State)
    requires Next(st, a, st')
    ensures a.ReleaseSnapshot? ==> a.index < |st.snapshots|
  {
  }

  lemma TakenLive(st: State, p: nat)
    requires p < |st.snapshots|
    ensures Live(st, st.snapshots[p]) && exists st' :: Next(st, StartRead(st.snapshots[p]), st')
  {
    hide ViewOk;
    var s := st.snapshots[p];
    assert Next(st, StartRead(s), st.(readers := st.readers + {Current(st, s)}));
  }

  /**
   A snapshot taken and not released protects its state: whatever was written, flushed,
   compacted or released meanwhile, a read may start at it, and gives every key the value it
   had when the snapshot was taken.
   */
  lemma SnapshotReads(states: seq<State>, actions: seq<Action>, i: nat, n: nat, u: UserKey, value: Bytes)
    requires IsRun(states, actions) && Inv(states[0]) && i < n <= |actions| && actions[i] == TakeSnapshot
    requires Place(states, actions, i, n).Some?
    ensures exists st' :: Next(states[n], StartRead(states[i].last), st')
    ensures R.Shows(Contents(states[n], Current(states[n], states[i].last)), u, states[i].last, value)
            <==> HistoryGet(states[i].history, u, states[i].last) == Some(value)
  {
    hide Next, Place, Inv, Contents, HistoryGet, Live;
    var st, s := states[n], states[i].last;
    SnapshotStays(states, actions, i, n);
    TakenLive(st, Place(states, actions, i, n).value);
    EveryReadIsHistory(states, actions, n, Current(st, s), u, value);
    HistoryGrows(states, actions, i, n);
    SameAnswer(states[i].history, st.history, u, s);
  }

  // ---- Readers.

  lemma {:induction false} ReaderStays(states: seq<State>, actions: seq<Action>, i: nat, s: Sequence, n: nat)
    requires IsRun(states, actions) && i < n <= |actions| && actions[i] == StartRead(s)
    requires forall k :: i < k < n ==> actions[k] != EndRead(Current(states[i], s))
    ensures Current(states[i], s) in states[n].readers
    decreases n
  {
    hide Next, Current;
    assert Next(states[n - 1], actions[n - 1], states[n]);
    StepReaders(states[n - 1], actions[n - 1], states[n]);
    if n > i + 1 { ReaderStays(states, actions, i, s, n - 1); }
  }

  /** A read gives, at any time until it ends, the value each key had at its sequence when it began. */
  lemma ReaderReads(states: seq<State>, actions: seq<Action>, i: nat, s: Sequence, n: nat, u: UserKey, value: Bytes)
    requires IsRun(states, actions) && Inv(states[0]) && i < n <= |actions| && actions[i] == StartRead(s)
    requires forall k :: i < k < n ==> actions[k] != EndRead(Current(states[i], s))
    ensures R.Shows(Contents(states[n], Current(states[i], s)), u, s, value)
            <==> HistoryGet(states[i].history, u, s) == Some(value)
  {
    var v := Current(states[i], s);
    ReaderStays(states, actions, i, s, n);
    StartedLive(states, actions, i, s);
    hide Next, Inv, Contents, HistoryGet;
    EveryReadIsHistory(states, actions, n, v, u, value);
    HistoryGrows(states, actions, i, n);
    SameAnswer(states[i].history, states[n].history, u, s);
  }

  lemma StartedLive(states: seq<State>, actions: seq<Action>, i: nat, s: Sequence)
    requires IsRun(states, actions) && Inv(states[0]) && i < |actions| && actions[i] == StartRead(s)
    ensures s <= states[i].last
  {
    RunKeeps(states, actions, i);
    assert Next(states[i], actions[i], states[i + 1]);
    hide ViewsOk, JobsOk, WritesOk;
  }

  // ---- Flushes and compactions.

  lemma StepJobs(st: State, a: Action, st': State)
    requires Next(st, a, st')
    ensures match a
            case StartFlush => st.flush.NoFlush? && st'.flush == Flushing(Bound(st))
            case InstallFlush(_, _, _) => st'.flush == NoFlush && st'.imm == None
            case _ => st'.flush == st.flush
    ensures match a
            case StartCompaction(level, in0, in1, inputs) =>
              && st.compaction.NoCompaction?
              && st'.compaction == Compacting(level, Set(in0), Set(in1), inputs, Bound(st), st.version)
            case InstallCompaction(_, _, _) => st'.compaction == NoCompaction
            case _ => st'.compaction == st.compaction
  {
    hide LevelsOk, Sorted, Placeable, Added, Swapped, VS.Picked, VS.CleanCuts, IsCut, SplitAt, FileOk, Elems,
      TakenEntries;
  }

  lemma {:induction false} FlushStays(states: seq<State>, actions: seq<Action>, i: nat, n: nat)
    requires IsRun(states, actions) && i < n <= |actions| && actions[i] == StartFlush
    requires forall k :: i < k < n ==> !actions[k].InstallFlush?
    ensures states[n].flush == Flushing(Bound(states[i]))
    decreases n
  {
    hide Next, Bound;
    assert Next(states[n - 1], actions[n - 1], states[n]);
    StepJobs(states[n - 1], actions[n - 1], states[n]);
    if n > i + 1 { FlushStays(states, actions, i, n - 1); }
  }

  lemma {:induction false} CompactionStays(states: seq<State>, actions: seq<Action>, i: nat, n: nat)
    requires IsRun(states, actions) && i < n <= |actions| && actions[i].StartCompaction?
    requires forall k :: i < k < n ==> !actions[k].InstallCompaction?
    ensures var a := actions[i];
      states[n].compaction
      == Compacting(a.level, Set(a.in0), Set(a.in1), a.inputs, Bound(states[i]), states[i].version)
    decreases n
  {
    hide Next, Bound, Set;
    assert Next(states[n - 1], actions[n - 1], states[n]);
    StepJobs(states[n - 1], actions[n - 1], states[n]);
    if n > i + 1 { CompactionStays(states, actions, i, n - 1); }
  }

  /** A newer version of the key is readable at the bound. */
  ghost predicate Outdated(entries: set<Entry>, e: Entry, bound: Sequence) {
    exists f :: f in entries && f.key.user == e.key.user && e.key.sequence < f.key.sequence <= bound
  }

  lemma HiddenIffOutdated(list: seq<Entry>, bound: Sequence, i: nat)
    requires Sorted(list) && i < |list| && R.Stamped(Elems(list))
    ensures Hidden(list, bound, i) <==> Outdated(Elems(list), list[i], bound)
  {
    if Hidden(list, bound, i) {
      assert list[i - 1] in Elems(list) && Before(list[i - 1].key, list[i].key);
    }
    if Outdated(Elems(list), list[i], bound) {
      var f :| f in Elems(list) && f.key.user == list[i].key.user && list[i].key.sequence < f.key.sequence <= bound;
      var k :| 0 <= k < |list| && list[k] == f;
      OlderHidden(list, bound, k, i);
    }
  }

  lemma PrunedIff(list: seq<Entry>, bound: Sequence, e: Entry)
    requires Sorted(list) && R.Stamped(Elems(list))
    ensures e in Elems(Pruned(list, bound, |list|)) <==> e in Elems(list) && !Outdated(Elems(list), e, bound)
  {
    hide Sorted, Outdated, Hidden;
    PrunedElems(list, bound, |list|);
    forall i | 0 <= i < |list| ensures Hidden(list, bound, i) <==> Outdated(Elems(list), list[i], bound) {
      HiddenIffOutdated(list, bound, i);
    }
  }

  /** What a memtable's list holds was written, each sequence once. */
  lemma FlushListOk(st: State)
    requires Inv(st) && st.flush.Flushing?
    ensures st.imm.Some? && st.imm.value in st.tables
    ensures Sorted(st.tables[st.imm.value]) && R.Stamped(Elems(st.tables[st.imm.value]))
  {
    KnownStamped(st);
    assert ViewOk(st, Current(st, st.last));
    assert Elems(st.tables[st.imm.value]) <= Known(st);
  }

  /**
   A flush moves to the version exactly the versions of the memtable that no newer one hides from the least sequence
   that could be asked for when it began.
   */
  lemma FlushMovesExactly(states: seq<State>, actions: seq<Action>, i: nat, n: nat, e: Entry)
    requires IsRun(states, actions) && Inv(states[0]) && i < n < |actions|
    requires actions[i] == StartFlush && actions[n].InstallFlush? && forall k :: i < k < n ==> !actions[k].InstallFlush?
    ensures var imm := ImmEntries(states[n], states[n].imm);
      && states[n + 1].imm == None
      && (e in VersionEntries(states[n + 1].version) <==>
          e in VersionEntries(states[n].version) || (e in imm && !Outdated(imm, e, Bound(states[i]))))
  {
    hide Inv, Outdated, Bound, VersionEntries, Elems, Pruned, Sorted, R.Stamped, LevelsOk, Placeable, Added,
      InstallFlushStep;
    var st, a, st' := states[n], actions[n], states[n + 1];
    RunKeeps(states, actions, n);
    FlushStays(states, actions, i, n);
    assert Next(st, a, st');
    StepJobs(st, a, st');
    FlushVersion(st, a.level, a.number, a.version, st');
    FlushInstalled(st, a.level, a.number, a.version, st');
    FlushListOk(st);
    PrunedIff(st.tables[st.imm.value], st.flush.bound, e);
  }

  lemma FlushInstalled(st: State, level: nat, number: nat, version: seq<seq<File>>, st': State)
    requires InstallFlushStep(st, level, number, version, st')
    ensures st'.version == version
  {
  }

  lemma KeptIff(c: CompactJob, e: Entry)
    requires c.Compacting? && LevelsOk(c.base) && Sorted(c.inputs) && R.Stamped(Elems(c.inputs))
    ensures e in Elems(Kept(c)) <==>
      && e in Elems(c.inputs) && !Outdated(Elems(c.inputs), e, c.bound)
      && !(e.key.kind.Deletion? && e.key.sequence <= c.bound && NoDeeperFile(c.base, c.level, e.key.user))
  {
    hide Sorted, Outdated, Hidden, NoDeeperFile, LevelsOk;
    var list, base := c.inputs, Compactor.BaseKeys(c.base, c.level);
    CompactedElems(list, c.bound, base, |list|);
    forall i | 0 <= i < |list| ensures Hidden(list, c.bound, i) <==> Outdated(Elems(list), list[i], c.bound) {
      HiddenIffOutdated(list, c.bound, i);
    }
  }

  lemma CompactionListOk(st: State)
    requires Inv(st) && st.compaction.Compacting? && LevelsOk(st.compaction.base)
    ensures var c := st.compaction;
      && Sorted(c.inputs) && R.Stamped(Elems(c.inputs))
      && Elems(c.inputs) == TakenEntries(c.files0) + TakenEntries(c.files1)
  {
    KnownStamped(st);
    assert ViewOk(st, Current(st, st.last));
    InputsWithin(st.version, st.compaction);
    assert Elems(st.compaction.inputs) <= Known(st);
  }

  /**
   A compaction puts in the place of its inputs exactly those of their versions that no newer one hides from the least
   sequence that could be asked for when it began, but for deletions readable there that cover nothing deeper.
   */
  lemma CompactionKeepsExactly(states: seq<State>, actions: seq<Action>, i: nat, n: nat, e: Entry)
    requires IsRun(states, actions) && Inv(states[0]) && i < n < |actions|
    requires actions[i].StartCompaction? && actions[n].InstallCompaction?
    requires forall k :: i < k < n ==> !actions[k].InstallCompaction?
    ensures var level, in0, in1 := actions[i].level, Set(actions[i].in0), Set(actions[i].in1);
      var inputs := TakenEntries(in0) + TakenEntries(in1);
      && LevelsOk(states[i].version)
      && (e in VersionEntries(states[n + 1].version) <==>
          || e in Others(states[n].version, level, in0, in1)
          || (&& e in inputs && !Outdated(inputs, e, Bound(states[i]))
              && !(e.key.kind.Deletion? && e.key.sequence <= Bound(states[i])
                   && NoDeeperFile(states[i].version, level, e.key.user))))
  {
    hide Inv, Outdated, Bound, VersionEntries, Elems, Sorted, R.Stamped, LevelsOk, Set, TakenEntries, Others,
      NoDeeperFile, Kept, InstallCompactionStep;
    var st, a, st' := states[n], actions[n], states[n + 1];
    RunKeeps(states, actions, n);
    CompactionStays(states, actions, i, n);
    assert Next(st, a, st');
    CompactionVersion(st, a.outs, a.next, a.version, st');
    CompactionShape(st, a.outs, a.next, a.version, st');
    CompactionListOk(st);
    KeptIff(st.compaction, e);
  }
}
