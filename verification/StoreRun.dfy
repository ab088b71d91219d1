/** The store machine at work: one run that writes, flushes, compacts and reads. */
module StoreRun {
  import opened Keys
  import opened Files
  import opened Lookup
  import opened Dropping
  import opened Store
  import opened Outputs
  import opened StoreMachine
  import Compactor
  import VS = VersionSet
  import R = Reads

  function E(value: Bytes): Entry {
    Entry(InternalKey(1.0, 1, Value), value)
  }

  // Levels 0 and 1 with these files, the rest empty.
  function Levels(a: seq<File>, b: seq<File>): seq<seq<File>> {
    [a, b, [], [], [], [], []]
  }

  function F(value: Bytes): File {
    File(2, [E(value)])
  }

  function O(value: Bytes): File {
    File(3, [E(value)])
  }

  // The store after its one write, with these levels and nothing under way.
  function Quiet(value: Bytes, version: seq<seq<File>>, nextFile: nat): State {
    State([E(value)], 1, [], 0, map[0 := [E(value)], 1 := []], 1, None, version, [], NoFlush, NoCompaction, nextFile,
      {})
  }

  function Empty(): State {
    State([], 0, [], 0, map[0 := []], 0, None, Levels([], []), [], NoFlush, NoCompaction, 2, {})
  }

  function Began(value: Bytes): State {
    Empty().(batch := [E(value)])
  }

  function Inserted(value: Bytes): State {
    Empty().(batch := [E(value)], inserted := 1, tables := map[0 := [E(value)]])
  }

  function Committed(value: Bytes): State {
    Empty().(history := [E(value)], last := 1, tables := map[0 := [E(value)]])
  }

  function Switched(value: Bytes): State {
    Quiet(value, Levels([], []), 2).(imm := Some(0))
  }

  function Flushed(value: Bytes): State {
    Quiet(value, Levels([F(value)], []), 3)
  }

  function Job(value: Bytes): CompactJob {
    Compacting(0, {F(value)}, {}, [E(value)], 1, Levels([F(value)], []))
  }

  function Done(value: Bytes): State {
    Quiet(value, Levels([], [O(value)]), 4)
  }

  lemma Writes(value: Bytes)
    ensures Next(Empty(), BeginWrite([E(value)]), Began(value))
    ensures Next(Began(value), InsertOne([E(value)]), Inserted(value))
    ensures Next(Inserted(value), CommitWrite, Committed(value))
  {
    var tables: map<nat, seq<Entry>> := map[0 := []];
    assert tables[0 := [E(value)]] == map[0 := [E(value)]];
    assert Elems([E(value)]) == Elems([]) + {E(value)};
    assert Began(value).tables[0] == [];
    assert Began(value).batch[0] == E(value);
  }

  lemma Switches(value: Bytes)
    ensures Next(Committed(value), Switch(1), Switched(value))
    ensures Next(Switched(value), StartFlush, Switched(value).(flush := Flushing(1)))
  {
    var tables: map<nat, seq<Entry>> := map[0 := [E(value)]];
    assert tables[1 := []] == map[0 := [E(value)], 1 := []];
  }

  lemma LevelsAreOk(value: Bytes)
    ensures LevelsOk(Levels([], [])) && LevelsOk(Levels([F(value)], [])) && LevelsOk(Levels([], [O(value)]))
    ensures FileOk(F(value)) && FileOk(O(value))
  {
  }

  lemma OnePruned(value: Bytes)
    ensures Pruned([E(value)], 1, 1) == [E(value)]
  {
    assert Pruned([E(value)], 1, 0) == [];
  }

  lemma Flushes(value: Bytes)
    ensures Next(Switched(value).(flush := Flushing(1)), InstallFlush(0, 2, Levels([F(value)], [])), Flushed(value))
  {
    LevelsAreOk(value);
    OnePruned(value);
    var none: seq<File> := [];
    assert Set(none) == {} && Set([F(value)]) == {F(value)};
    assert Added(Levels([], []), Levels([F(value)], []), 0, F(value));
    assert Switched(value).tables[0] == [E(value)];
  }

  lemma OneTaken(value: Bytes)
    ensures var none: seq<File> := [];
            Set([F(value)]) == {F(value)} && Set(none) == {} && Elems([E(value)]) == TakenEntries({F(value)})
              + TakenEntries({})
  {
    assert E(value) in F(value).entries;
  }

  lemma PicksFile(value: Bytes)
    ensures var version := Levels([F(value)], []);
            LevelsOk(version) && VS.Picked(version, 0, [F(value)], []) && VS.CleanCuts(version, 0, [F(value)], [])
  {
    LevelsAreOk(value);
    PicksOne(Levels([F(value)], []), F(value));
    CutsOne(Levels([F(value)], []), F(value));
    hide VS.Picked, VS.CleanCuts;
  }

  lemma PicksOne(version: seq<seq<File>>, f: File)
    requires LevelsOk(version) && version[0] == [f] && version[1] == [] && FileOk(f)
    ensures VS.Picked(version, 0, [f], [])
  {
    SelectsFile(f, VS.Span(None, None));
    HullOfOne(f);
    assert VS.TakesOverlaps(version, 0, [f], []);
    hide VS.IsHull, VS.Selected, VS.TakesOverlaps, VS.Stable;
  }

  lemma CutsOne(version: seq<seq<File>>, f: File)
    requires LevelsOk(version) && version[0] == [f] && version[1] == []
    ensures VS.CleanCuts(version, 0, [f], [])
  {
  }

  lemma SelectsFile(f: File, all: VS.Span)
    requires FileOk(f) && all == VS.Span(None, None)
    ensures VS.AllOk([f]) && VS.Stable([f], all) && VS.Selected([f], all, 1) == [f]
  {
    assert VS.Selected([f], all, 0) == [];
  }

  lemma HullOfOne(f: File)
    requires FileOk(f)
    ensures VS.AllOk([f]) && VS.IsHull([f], Smallest(f).user, Largest(f).user)
  {
    assert [f][0] == f;
  }

  lemma Starts(value: Bytes)
    ensures Next(Flushed(value), StartCompaction(0, [F(value)], [], [E(value)]),
      Flushed(value).(compaction := Job(value)))
  {
    PicksFile(value);
    OneTaken(value);
    hide VS.Picked, VS.CleanCuts;
  }

  lemma JobKeeps(value: Bytes)
    ensures LevelsOk(Job(value).base) && Kept(Job(value)) == [E(value)] && IsCut([O(value)], Kept(Job(value)))
  {
    LevelsAreOk(value);
    var c := Job(value);
    AllKept(c.inputs, 1, Compactor.BaseKeys(c.base, 0), 1);
    assert c.inputs[..1] == c.inputs;
    var none: seq<seq<Entry>> := [];
    assert Compactor.Holds(none, [E(value)], [E(value)]);
    Compactor.CloseKeeps(none, [E(value)], [E(value)]);
    CutsShape([O(value)]);
    assert Cuts([O(value)]) == none + [[E(value)]];
  }

  lemma SwapsFiles(value: Bytes)
    ensures Swapped(Levels([F(value)], []), Levels([], [O(value)]), 0, {F(value)}, {}, [O(value)])
  {
    var none: seq<File> := [];
    assert Set(none) == {} && Set([F(value)]) == {F(value)} && Set([O(value)]) == {O(value)};
    assert Rebuilt([O(value)], {O(value)}) && Rebuilt(none, {});
  }

  lemma Compacts(value: Bytes)
    ensures Next(Flushed(value).(compaction := Job(value)),
                 InstallCompaction([O(value)], 4, Levels([], [O(value)])), Done(value))
  {
    hide Kept, IsCut, Swapped, LevelsOk, SplitAt, FileOk;
    JobKeeps(value);
    SwapsFiles(value);
  }

  lemma Reads(value: Bytes)
    ensures Next(Done(value), StartRead(1), Done(value).(readers := {Current(Done(value), 1)}))
  {
  }

  /** From a new store: a write is flushed to level 0 and compacted to level 1, and a reader starts. */
  lemma WorkRuns(value: Bytes)
    ensures var states := [Empty(), Began(value), Inserted(value), Committed(value), Switched(value),
              Switched(value).(flush := Flushing(1)), Flushed(value), Flushed(value).(compaction := Job(value)),
                Done(value),
              Done(value).(readers := {Current(Done(value), 1)})];
            var actions := [BeginWrite([E(value)]), InsertOne([E(value)]), CommitWrite, Switch(1), StartFlush,
              InstallFlush(0, 2, Levels([F(value)], [])), StartCompaction(0, [F(value)], [], [E(value)]),
              InstallCompaction([O(value)], 4, Levels([], [O(value)])), StartRead(1)];
            IsRun(states, actions) && Inv(states[0])
  {
    EmptyOk();
    hide Next, Inv, Empty, Began, Inserted, Committed, Switched, Flushed, Done, Job, Levels, E, F, O, Current;
    Writes(value);
    Switches(value);
    Flushes(value);
    Starts(value);
    Compacts(value);
    Reads(value);
  }

  lemma EmptyOk()
    ensures Inv(Empty())
  {
    var none: seq<File> := [];
    assert Levels([], []) == seq(NUM_LEVELS, _ => none);
    EmptyStoreOk();
  }
}
