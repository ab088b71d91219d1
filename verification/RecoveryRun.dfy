/** The recovery machine at work: one run in which every kind of background job and deletion takes place. */
module RecoveryRun {
  import opened Keys
  import opened Recovery
  import D = Dropping

  // The process with no job, error or write under way.
  function Rest(logs: Disk, tables: Disk, manifest: Manifest, history: set<Entry>, next: nat,
                memLog: nat, mem: set<Entry>): State {
    State(logs, tables, manifest, history, Up, next, manifest.version, manifest.log, multiset{}, {}, memLog, mem, {},
      None,
          None, None, None, None, false, SLOWDOWN)
  }

  ghost predicate Step(s: State, a: Action, t: State) {
    Enabled(s, a) && Do(s, a) == t
  }

  // ---- The manifests and states passed through, e being the entry written.

  const M0: Manifest := Manifest(Version({}, {}), 0, 2)
  const M1: Manifest := Manifest(Version({5}, {5}), 4, 6)
  const M2: Manifest := Manifest(Version({6}, {}), 4, 7)

  // Log or table n alone, or m beside it, with these entries.
  function One(n: nat, entries: set<Entry>): Disk {
    map[n := entries]
  }

  function Two(n: nat, entries: set<Entry>, m: nat, others: set<Entry>): Disk {
    map[n := entries, m := others]
  }

  function Opened0(): State {
    Rest(One(3, {}), map[], M0, {}, 4, 3, {})
  }

  function Logged(e: Entry): State {
    Opened0().(logs := One(3, {e}), writing := {e}, history := {e})
  }

  function Wrote(e: Entry): State {
    Rest(One(3, {e}), map[], M0, {e}, 4, 3, {e})
  }

  function Switched(e: Entry): State {
    Rest(Two(3, {e}, 4, {}), map[], M0, {e}, 5, 4, {}).(imm := Some(Imm(3, {e})))
  }

  function Building(e: Entry): State {
    Switched(e).(building := Some(5), pending := {5}, next := 6)
  }

  function FlushEdit(durable: bool): Option<Install> {
    Some(Install(Edit({5}, {5}, {}), 4, 6, true, durable))
  }

  function Built(e: Entry): State {
    Switched(e).(next := 6, tables := One(5, {e}), install := FlushEdit(false))
  }

  function FlushWritten(e: Entry): State {
    Built(e).(manifest := M1, install := FlushEdit(true))
  }

  function Flushed(e: Entry): State {
    Rest(Two(3, {e}, 4, {}), One(5, {e}), M1, {e}, 6, 4, {})
  }

  function LogDeleted(e: Entry): State {
    Rest(One(4, {}), One(5, {e}), M1, {e}, 6, 4, {})
  }

  function Compacting(e: Entry): State {
    LogDeleted(e).(compaction := Some(Compaction(M1.version, {5}, {}, {})), held := multiset{M1.version})
  }

  function OutputOpen(e: Entry): State {
    Compacting(e).(compaction := Some(Compaction(M1.version, {5}, {6}, {})), pending := {6}, next := 7)
  }

  function OutputDone(e: Entry): State {
    OutputOpen(e).(compaction := Some(Compaction(M1.version, {5}, {6}, {6})), tables := Two(5, {e}, 6, {e}))
  }

  function CompactionEdit(durable: bool): Option<Install> {
    Some(Install(Edit({6}, {}, {5}), 4, 7, false, durable))
  }

  function CompactionWritten(e: Entry): State {
    OutputDone(e).(install := CompactionEdit(true), manifest := M2)
  }

  function CompactionDone(e: Entry): State {
    Rest(One(4, {}), Two(5, {e}, 6, {e}), M2, {e}, 7, 4, {})
  }

  function TableDeleted(e: Entry): State {
    Rest(One(4, {}), One(6, {e}), M2, {e}, 7, 4, {})
  }

  function Moving(e: Entry): State {
    TableDeleted(e).(install := Some(Install(Edit({6}, {}, {6}), 4, 7, false, false)))
  }

  function Collecting(s: State, logs: set<nat>, tables: set<nat>): State {
    s.(garbage := Some(Garbage(logs, tables)))
  }

  // ---- The steps.

  lemma Appends(e: Entry)
    ensures Step(Opened0(), Append({e}), Logged(e)) && Step(Logged(e), Insert, Wrote(e))
  {
    var none: set<Entry> := {};
    assert none + {e} == {e};
  }

  lemma Switches(e: Entry)
    ensures Step(Wrote(e), Switch, Switched(e)) && Step(Switched(e), StartFlush, Building(e))
  {
    assert One(3, {e})[4 := {}] == Two(3, {e}, 4, {});
  }

  lemma OneKept(e: Entry)
    ensures Sorted([e]) && Elems([e]) == {e} && D.Pruned([e], 0, 1) == [e] && D.Compacted([e], 0, iset{}, 1) == [e]
  {
    assert D.Pruned([e], 0, 0) == [] && D.Compacted([e], 0, iset{}, 0) == [];
  }

  lemma Flushes(e: Entry)
    ensures Step(Building(e), FinishFlush([e], 0, true), Built(e)) && Step(Built(e), WriteManifest, FlushWritten(e))
  {
    OneKept(e);
    var none: Disk := map[];
    assert none[5 := {e}] == One(5, {e});
    hide D.Pruned, D.Compacted, Elems;
  }

  lemma InstalledFlush(e: Entry)
    ensures Installed(FlushWritten(e)) == Flushed(e)
  {
  }

  lemma FlushGarbage(e: Entry)
    ensures Obsolete(Flushed(e)) == Garbage({3}, {})
  {
    assert HeldTables(Flushed(e).held) == {};
  }

  lemma InstallsFlush(e: Entry)
    ensures Step(FlushWritten(e), InstallVersion, Collecting(Flushed(e), {3}, {}))
  {
    InstalledFlush(e);
    FlushGarbage(e);
  }

  lemma DeletesLog(e: Entry)
    ensures Step(Collecting(Flushed(e), {3}, {}), Delete(true, 3), Collecting(LogDeleted(e), {}, {}))
    ensures Step(Collecting(LogDeleted(e), {}, {}), EndCollection, LogDeleted(e))
  {
    assert Two(3, {e}, 4, {}) - {3} == One(4, {});
    var gone: set<nat> := {3};
    assert gone - {3} == {};
  }

  lemma StartsCompaction(e: Entry)
    ensures Step(LogDeleted(e), StartCompaction({5}), Compacting(e)) && Step(Compacting(e), OpenOutput, OutputOpen(e))
  {
  }

  lemma CarriesOne(n: nat, entries: set<Entry>, m: nat, others: set<Entry>)
    requires n != m
    ensures Carried(One(n, entries), {n}) == entries && Carried(Two(n, entries, m, others), {n}) == entries
    ensures Carried(Two(n, entries, m, others), {m}) == others && Carried(Two(n, entries, m, others), {}) == {}
  {
    CarriedOne(One(n, entries), n);
    CarriedOne(Two(n, entries, m, others), n);
    CarriedOne(Two(n, entries, m, others), m);
    NoneCarried(Two(n, entries, m, others));
  }

  lemma WritesOutput(e: Entry)
    ensures Step(OutputOpen(e), FinishOutput(6, {e}), OutputDone(e))
  {
    CarriesOne(5, {e}, 6, {e});
    assert One(5, {e})[6 := {e}] == Two(5, {e}, 6, {e});
    var none: set<nat> := {};
    assert none + {6} == {6};
    hide Carried;
  }

  lemma FinishesCompaction(e: Entry)
    ensures Step(OutputDone(e), FinishCompaction([e], 0, iset{}), OutputDone(e).(install := CompactionEdit(false)))
    ensures Step(OutputDone(e).(install := CompactionEdit(false)), WriteManifest, CompactionWritten(e))
  {
    CarriesOne(5, {e}, 6, {e});
    OneKept(e);
    var inputs: set<nat> := {5};
    assert inputs - {5} == {};
    hide Carried, D.Pruned, D.Compacted, Elems, Sorted;
  }

  lemma InstalledCompaction(e: Entry)
    ensures Installed(CompactionWritten(e)) == CompactionDone(e)
  {
  }

  lemma CompactionGarbage(e: Entry)
    ensures Obsolete(CompactionDone(e)) == Garbage({}, {5})
  {
    assert HeldTables(CompactionDone(e).held) == {};
  }

  lemma InstallsCompaction(e: Entry)
    ensures Step(CompactionWritten(e), InstallVersion, Collecting(CompactionDone(e), {}, {5}))
  {
    InstalledCompaction(e);
    CompactionGarbage(e);
  }

  lemma DeletesTable(e: Entry)
    ensures Step(Collecting(CompactionDone(e), {}, {5}), Delete(false, 5), Collecting(TableDeleted(e), {}, {}))
    ensures Step(Collecting(TableDeleted(e), {}, {}), EndCollection, TableDeleted(e))
  {
    assert Two(5, {e}, 6, {e}) - {5} == One(6, {e});
    var gone: set<nat> := {5};
    assert gone - {5} == {};
  }

  lemma Fails(e: Entry)
    ensures Step(TableDeleted(e), StartMove(6), Moving(e)) && Step(Moving(e), Fail(true),
      TableDeleted(e).(error := true))
    ensures Step(TableDeleted(e).(error := true), Crash, TableDeleted(e).(error := true, phase := Down))
  {
    var tables: set<nat> := {6};
    assert tables - {6} + {6} == {6};
  }

  lemma Recovers(s: State) returns (r: State, t: State)
    requires Fresh(s)
    ensures Step(s, StartRecovery, r) && Step(r, RecoverLog(3), t) && Step(t, Open, Collecting(Opened0(), {}, {}))
  {
    r := s.(phase := Recovering({}, {}, {}, None, false, false), next := 3);
    t := r.(phase := Recovering({}, {}, {}, Some(3), false, false), next := 4, logs := One(3, {}));
    RecoveredLog(r, t);
    RecoveredOpens(t);
  }

  lemma RecoveredLog(r: State, t: State)
    requires r.phase == Recovering({}, {}, {}, None, false, false) && r.next == 3 && r.logs == map[] && r.manifest == M0
    requires t == r.(phase := Recovering({}, {}, {}, Some(3), false, false), next := 4, logs := One(3, {}))
    ensures Step(r, RecoverLog(3), t)
  {
    assert LogsFrom(r.logs, 0) == {};
  }

  lemma RecoveredOpens(t: State)
    requires t.phase == Recovering({}, {}, {}, Some(3), false, false) && t.next == 4 && t.logs == One(3, {})
    requires t.tables == map[] && t.history == {} && t.manifest == M0
    ensures Step(t, Open, Collecting(Opened0(), {}, {}))
  {
    assert HeldTables(Opened0().held) == {};
    assert Obsolete(Opened0()) == Garbage({}, {});
    assert Opened(t) == Opened0();
  }

  // ---- The whole run.

  lemma {:induction false} Chain(states: seq<State>, actions: seq<Action>)
    requires |states| == |actions| + 1
    requires forall i :: 0 <= i < |actions| ==> Step(states[i], actions[i], states[i + 1])
    ensures Run(states[0], actions, states[|actions|])
    decreases |actions|
  {
    hide Enabled, Do;
    if |actions| > 0 {
      assert Step(states[0], actions[0], states[1]);
      forall i | 0 <= i < |actions| - 1 ensures Step(states[1..][i], actions[1..][i], states[1..][i + 1]) {
        assert Step(states[i + 1], actions[i + 1], states[i + 2]);
      }
      Chain(states[1..], actions[1..]);
    }
  }

  function Work(e: Entry): seq<Action> {
    [StartRecovery, RecoverLog(3), Open, EndCollection, Append({e}), Insert, Switch, StartFlush,
      FinishFlush([e], 0, true),
     WriteManifest, InstallVersion, Delete(true, 3), EndCollection, StartCompaction({5}), OpenOutput,
       FinishOutput(6, {e}),
     FinishCompaction([e], 0, iset{}), WriteManifest, InstallVersion, Delete(false, 5), EndCollection, StartMove(6),
     Fail(true), Crash]
  }

  /**
   From a new database: a write is logged, flushed and its log deleted; the table is compacted and deleted; a move of
   the new table fails with its MANIFEST record written, and the process dies.
   */
  lemma WorkRuns(s: State, e: Entry)
    requires Fresh(s)
    ensures Run(s, Work(e), TableDeleted(e).(error := true, phase := Down))
  {
    hide Step, Run, Fresh, Enabled, Do, Opened0, Logged, Wrote, Switched, Building, Built, FlushWritten, Flushed,
      LogDeleted, Compacting, OutputOpen, OutputDone, CompactionWritten, CompactionDone, TableDeleted, Moving,
      Collecting;
    var r, t := Recovers(s);
    EndsFirst();
    Appends(e);
    Switches(e);
    Flushes(e);
    InstallsFlush(e);
    DeletesLog(e);
    StartsCompaction(e);
    WritesOutput(e);
    FinishesCompaction(e);
    InstallsCompaction(e);
    DeletesTable(e);
    Fails(e);
    Chain([s, r, t, Collecting(Opened0(), {}, {}), Opened0(), Logged(e), Wrote(e), Switched(e), Building(e), Built(e),
           FlushWritten(e), Collecting(Flushed(e), {3}, {}), Collecting(LogDeleted(e), {}, {}), LogDeleted(e),
             Compacting(e),
           OutputOpen(e), OutputDone(e), OutputDone(e).(install := CompactionEdit(false)), CompactionWritten(e),
           Collecting(CompactionDone(e), {}, {5}), Collecting(TableDeleted(e), {}, {}), TableDeleted(e), Moving(e),
           TableDeleted(e).(error := true), TableDeleted(e).(error := true, phase := Down)], Work(e));
  }

  lemma EndsFirst()
    ensures Step(Collecting(Opened0(), {}, {}), EndCollection, Opened0())
  {
  }
}
