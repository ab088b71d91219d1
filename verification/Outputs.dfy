/**
 Where a compaction's outputs may be installed.  Against the version its inputs were picked
 from they are apart from every file of their level.  A flush installed while it runs
 (CompactMemTable within DoCompactionWork) may land in that level between two inputs, and
 then it depends on where the outputs were cut.
 */
module Outputs {
  import opened Keys
  import opened Files
  import opened Lookup
  import opened Dropping
  import opened Store
  import opened VersionSet
  import Compactor
  import R = Reads

  /** What the drop rule keeps of the job's inputs. */
  ghost function Kept(c: CompactJob): seq<Entry>
    requires c.Compacting? && LevelsOk(c.base)
  {
    Compacted(c.inputs, c.bound, Compactor.BaseKeys(c.base, c.level), |c.inputs|)
  }

  /** The outputs are some cut of the list into non-empty files. */
  ghost predicate IsCut(outs: seq<File>, list: seq<Entry>) {
    Compactor.Holds(Cuts(outs), [], list)
  }

  ghost predicate AllBefore(list: seq<Entry>, g: File)
    requires |g.entries| > 0
  {
    forall e :: e in list ==> e.key.user < Smallest(g).user
  }

  ghost predicate AllAfter(list: seq<Entry>, g: File)
    requires |g.entries| > 0
  {
    forall e :: e in list ==> Largest(g).user < e.key.user
  }

  /** The list has entries on both sides of the file's range. */
  ghost predicate BothSides(list: seq<Entry>, g: File)
    requires |g.entries| > 0
  {
    exists a, b :: a in list && b in list && a.key.user < Smallest(g).user && Largest(g).user < b.key.user
  }

  /** Some cut between outputs, or an end of them, falls where the file's range is. */
  ghost predicate SplitAt(outs: seq<File>, g: File)
    requires |g.entries| > 0
  {
    exists i :: 0 <= i <= |outs| && SplitAtIndex(outs, g, i)
  }

  ghost predicate SplitAtIndex(outs: seq<File>, g: File, i: nat)
    requires |g.entries| > 0 && i <= |outs|
  {
    && (forall j :: 0 <= j < i ==> AllBefore(outs[j].entries, g))
    && (forall j :: i <= j < |outs| ==> AllAfter(outs[j].entries, g))
  }

  /** A sorted list clear of the file's range. */
  ghost predicate Clear(list: seq<Entry>, g: File)
    requires |g.entries| > 0
  {
    forall e :: e in list ==> e.key.user < Smallest(g).user || Largest(g).user < e.key.user
  }

  lemma OutsideClear(c: CompactJob, g: File)
    requires c.Compacting? && Outside(c, g) && Elems(c.inputs) == TakenEntries(c.files0) + TakenEntries(c.files1)
    ensures Clear(c.inputs, g)
  {
    forall e | e in c.inputs ensures e.key.user < Smallest(g).user || Largest(g).user < e.key.user {
      assert e in Elems(c.inputs);
      var h :| (h in c.files0 || h in c.files1) && e in h.entries;
      var k :| 0 <= k < |h.entries| && h.entries[k] == e;
      EntryInRange(h, k);
    }
  }

  lemma KeptOk(c: CompactJob)
    requires c.Compacting? && LevelsOk(c.base) && Sorted(c.inputs)
    ensures Sorted(Kept(c)) && Elems(Kept(c)) <= Elems(c.inputs)
  {
    CompactedSorted(c.inputs, c.bound, Compactor.BaseKeys(c.base, c.level), |c.inputs|);
    CompactedElems(c.inputs, c.bound, Compactor.BaseKeys(c.base, c.level), |c.inputs|);
  }

  // ---- One output.

  /** A file clear of the range is apart from it exactly when it is on one side. */
  lemma ApartIffOneSide(o: File, g: File)
    requires FileOk(o) && FileOk(g) && Clear(o.entries, g)
    ensures Apart(o, g) <==> AllBefore(o.entries, g) || AllAfter(o.entries, g)
  {
    var first, last := o.entries[0], o.entries[|o.entries| - 1];
    assert first in o.entries && last in o.entries;
    SortedUsers(g);
    if Apart(o, g) {
      forall e | e in o.entries
        ensures Before(Largest(o), Smallest(g)) ==> e.key.user < Smallest(g).user
        ensures Before(Largest(g), Smallest(o)) ==> Largest(g).user < e.key.user
      {
        var k :| 0 <= k < |o.entries| && o.entries[k] == e;
        EntryInRange(o, k);
      }
    }
  }

  lemma SortedUsers(g: File)
    requires FileOk(g)
    ensures Smallest(g).user <= Largest(g).user
  {
    EntryInRange(g, 0);
  }

  // ---- A cut.

  lemma CutEntries(outs: seq<File>, list: seq<Entry>)
    requires Sorted(list) && IsCut(outs, list)
    ensures LevelOk(outs) && FileEntries(outs) == Elems(list)
    ensures forall o, e :: o in outs && e in o.entries ==> e in list
  {
    CutsLevelOk(outs, list);
    forall o, e | o in outs && e in o.entries ensures e in list {
      assert e in FileEntries(outs);
      assert e in Elems(list);
    }
  }

  /** The outputs of a cut are apart from a file exactly when they split at it. */
  lemma ApartIffSplit(outs: seq<File>, list: seq<Entry>, g: File)
    requires Sorted(list) && IsCut(outs, list) && FileOk(g) && Clear(list, g)
    ensures (forall o :: o in outs ==> FileOk(o) && Apart(o, g)) <==> SplitAt(outs, g)
  {
    CutEntries(outs, list);
    hide IsCut, Sorted;
    forall o | o in outs ensures FileOk(o) && (Apart(o, g) <==> AllBefore(o.entries, g) || AllAfter(o.entries, g)) {
      FileOfLevel(outs, o);
      ApartIffOneSide(o, g);
    }
    if forall o :: o in outs ==> FileOk(o) && Apart(o, g) {
      SplitExists(outs, g);
    }
    if SplitAt(outs, g) {
      var i :| 0 <= i <= |outs| && SplitAtIndex(outs, g, i);
      forall o | o in outs ensures FileOk(o) && Apart(o, g) {
        var j :| 0 <= j < |outs| && outs[j] == o;
        assert AllBefore(outs[j].entries, g) || AllAfter(outs[j].entries, g);
      }
    }
  }

  lemma FileOfLevel(files: seq<File>, o: File)
    requires LevelOk(files) && o in files
    ensures FileOk(o)
  {
  }

  lemma {:induction false} SplitExists(outs: seq<File>, g: File)
    requires LevelOk(outs) && FileOk(g)
    requires forall o :: o in outs ==> AllBefore(o.entries, g) || AllAfter(o.entries, g)
    ensures SplitAt(outs, g)
  {
    if |outs| == 0 {
      assert SplitAtIndex(outs, g, 0);
    } else {
      var n := |outs| - 1;
      var front := outs[..n];
      assert LevelOk(front);
      forall o | o in front ensures AllBefore(o.entries, g) || AllAfter(o.entries, g) { assert o in outs; }
      assert outs[n] in outs;
      if AllBefore(outs[n].entries, g) {
        AllBeforeLast(outs, g);
      } else {
        SplitExists(front, g);
        var i :| 0 <= i <= |front| && SplitAtIndex(front, g, i);
        SplitMore(outs, g, i);
      }
    }
  }

  lemma SplitMore(outs: seq<File>, g: File, i: nat)
    requires |g.entries| > 0 && |outs| > 0 && i < |outs| && SplitAtIndex(outs[..|outs| - 1], g, i)
    requires AllAfter(outs[|outs| - 1].entries, g)
    ensures SplitAt(outs, g)
  {
    hide AllAfter, AllBefore;
    var front := outs[..|outs| - 1];
    forall j | 0 <= j < |outs| - 1 ensures outs[j] == front[j] { }
    assert SplitAtIndex(outs, g, i);
  }

  // When the last output is before the file, so are all.
  lemma AllBeforeLast(outs: seq<File>, g: File)
    requires LevelOk(outs) && FileOk(g) && |outs| > 0 && AllBefore(outs[|outs| - 1].entries, g)
    ensures SplitAt(outs, g)
  {
    var n := |outs| - 1;
    forall j | 0 <= j < n ensures AllBefore(outs[j].entries, g) { EarlierBefore(outs[j], outs[n], g); }
    hide AllBefore;
    assert SplitAtIndex(outs, g, |outs|);
  }

  lemma EarlierBefore(o: File, last: File, g: File)
    requires FileOk(o) && FileOk(last) && FileOk(g) && Before(Largest(o), Smallest(last)) && AllBefore(last.entries, g)
    ensures AllBefore(o.entries, g)
  {
    assert last.entries[0] in last.entries;
    forall e | e in o.entries ensures e.key.user < Smallest(g).user {
      var k :| 0 <= k < |o.entries| && o.entries[k] == e;
      EntryInRange(o, k);
    }
  }

  /** Every cut of a list splits at a file exactly when the list is not on both sides of it. */
  lemma EveryCutSplitsIff(list: seq<Entry>, g: File)
    requires Sorted(list) && FileOk(g) && Clear(list, g)
    ensures (forall outs :: IsCut(outs, list) ==> SplitAt(outs, g)) <==> !BothSides(list, g)
  {
    hide IsCut, SplitAt, Clear, Sorted;
    if BothSides(list, g) {
      WholeCut(list);
      WholeNotSplit(list, g);
    } else {
      hide BothSides;
      forall outs | IsCut(outs, list) ensures SplitAt(outs, g) { OneSidedCut(outs, list, g); }
    }
  }

  lemma WholeCut(list: seq<Entry>)
    requires list != []
    ensures IsCut([File(0, list)], list)
  {
    var none: seq<seq<Entry>> := [];
    assert Compactor.Holds(none, list, list);
    hide Compactor.Holds, Cuts;
    Compactor.CloseKeeps(none, list, list);
    CutsShape([File(0, list)]);
    assert Cuts([File(0, list)]) == none + [list];
  }

  lemma WholeNotSplit(list: seq<Entry>, g: File)
    requires FileOk(g) && BothSides(list, g)
    ensures !SplitAt([File(0, list)], g)
  {
    var whole := [File(0, list)];
    SortedUsers(g);
    assert !AllBefore(whole[0].entries, g) && !AllAfter(whole[0].entries, g);
    forall i | 0 <= i <= |whole| ensures !SplitAtIndex(whole, g, i) { }
  }

  lemma OneSidedCut(outs: seq<File>, list: seq<Entry>, g: File)
    requires Sorted(list) && IsCut(outs, list) && FileOk(g) && Clear(list, g) && !BothSides(list, g)
    ensures SplitAt(outs, g)
  {
    CutEntries(outs, list);
    if exists a :: a in list && a.key.user < Smallest(g).user {
      assert AllBefore(list, g);
      assert SplitAtIndex(outs, g, |outs|);
    } else {
      assert AllAfter(list, g);
      assert SplitAtIndex(outs, g, 0);
    }
  }

  // ---- A job and a table flushed into its output level.

  /**
   A table a flush may place in the job's output level: all ways of cutting the kept entries
   leave that level in order exactly when the kept entries do not lie on both sides of it.
   */
  lemma FlushedApartIff(version: seq<seq<File>>, c: CompactJob, g: File)
    requires LevelsOk(version) && c.Compacting? && JobOk(version, c)
    requires FileOk(g) && Placeable(version, c.level + 1, g)
    ensures Outside(c, g)
    ensures (forall outs :: IsCut(outs, Kept(c)) ==> forall o :: o in outs ==> FileOk(o) && Apart(o, g))
            <==> !BothSides(Kept(c), g)
  {
    PlacedOutside(version, c, g);
    KeptOk(c);
    OutsideClear(c, g);
    KeptClear(c, g);
    EveryCutSplitsIff(Kept(c), g);
    forall outs | IsCut(outs, Kept(c))
      ensures (forall o :: o in outs ==> FileOk(o) && Apart(o, g)) <==> SplitAt(outs, g)
    {
      ApartIffSplit(outs, Kept(c), g);
    }
  }

  lemma KeptClear(c: CompactJob, g: File)
    requires c.Compacting? && LevelsOk(c.base) && Elems(Kept(c)) <= Elems(c.inputs) && FileOk(g) && Clear(c.inputs, g)
    ensures Clear(Kept(c), g)
  {
    forall e | e in Kept(c) ensures e in c.inputs { assert e in Elems(Kept(c)); }
  }

  lemma PlacedOutside(version: seq<seq<File>>, c: CompactJob, g: File)
    requires LevelsOk(version) && c.Compacting? && JobOk(version, c)
    requires FileOk(g) && Placeable(version, c.level + 1, g)
    ensures Outside(c, g)
  {
    forall h | h in c.files0 || h in c.files1 ensures FileOk(h) && UserApart(h, g) {
      assert h in Set(version[c.level]) || h in Set(version[c.level + 1]);
    }
  }

  /**
   What can be checked before the outputs exist: the flushed table misses the user key span
   of all inputs exactly when they do not lie on both sides of it, and then no cut can go wrong.
   */
  lemma OutsideHullIff(c: CompactJob, files: seq<File>, low: UserKey, high: UserKey, g: File)
    requires c.Compacting? && LevelsOk(c.base) && Sorted(c.inputs) && Outside(c, g)
    requires Elems(c.inputs) == TakenEntries(c.files0) + TakenEntries(c.files1)
    requires Set(files) == c.files0 + c.files1 && AllOk(files) && IsHull(files, low, high)
    ensures Largest(g).user < low || high < Smallest(g).user <==> !BothSides(c.inputs, g)
    ensures BothSides(Kept(c), g) ==> BothSides(c.inputs, g)
  {
    KeptOk(c);
    SortedUsers(g);
    if BothSides(Kept(c), g) {
      var a, b :| a in Kept(c) && b in Kept(c) && a.key.user < Smallest(g).user && Largest(g).user < b.key.user;
      assert a in Elems(Kept(c)) && b in Elems(Kept(c));
    }
    if BothSides(c.inputs, g) {
      var a, b :| a in c.inputs && b in c.inputs && a.key.user < Smallest(g).user && Largest(g).user < b.key.user;
      InHull(c, files, low, high, a);
      InHull(c, files, low, high, b);
    } else {
      HullEnds(c, files, low, high, g);
    }
  }

  lemma InHull(c: CompactJob, files: seq<File>, low: UserKey, high: UserKey, e: Entry)
    requires c.Compacting? && Elems(c.inputs) == TakenEntries(c.files0) + TakenEntries(c.files1)
    requires Set(files) == c.files0 + c.files1 && AllOk(files) && IsHull(files, low, high) && e in c.inputs
    ensures low <= e.key.user <= high
  {
    assert e in Elems(c.inputs);
    var h :| (h in c.files0 || h in c.files1) && e in h.entries;
    assert h in Set(files);
    FirstInputRange(files, low, high, h, e);
  }

  lemma HullEnds(c: CompactJob, files: seq<File>, low: UserKey, high: UserKey, g: File)
    requires c.Compacting? && Outside(c, g) && !BothSides(c.inputs, g)
    requires Elems(c.inputs) == TakenEntries(c.files0) + TakenEntries(c.files1)
    requires Set(files) == c.files0 + c.files1 && AllOk(files) && IsHull(files, low, high)
    ensures Largest(g).user < low || high < Smallest(g).user
  {
    var i :| 0 <= i < |files| && Smallest(files[i]).user == low;
    var j :| 0 <= j < |files| && Largest(files[j]).user == high;
    var a, b := files[i].entries[0], files[j].entries[|files[j].entries| - 1];
    assert files[i] in Set(files) && files[j] in Set(files);
    assert a in files[i].entries && b in files[j].entries;
    assert a in TakenEntries(c.files0) + TakenEntries(c.files1) && b in TakenEntries(c.files0) + TakenEntries(c.files1);
    assert a in Elems(c.inputs) && b in Elems(c.inputs);
    OutsideClear(c, g);
    SortedUsers(g);
  }

  /** Outputs that split at every table flushed into their level are apart from all files left there. */
  lemma LeftApartFrom(version: seq<seq<File>>, c: CompactJob, outs: seq<File>, o: File, g: File)
    requires c.Compacting? && JobOk(version, c) && IsCut(outs, Kept(c)) && o in outs
    requires g in version[c.level + 1] && g !in c.files1
    requires g !in c.base[c.level + 1] ==> FileOk(g) && SplitAt(outs, g)
    ensures FileOk(o) && FileOk(g) && Apart(o, g)
  {
    KeptOk(c);
    CutEntries(outs, Kept(c));
    FileOfLevel(outs, o);
    if g in c.base[c.level + 1] {
      var a, b := o.entries[0], o.entries[|o.entries| - 1];
      assert a in o.entries && b in o.entries;
      assert a in Elems(Kept(c)) && b in Elems(Kept(c));
    } else {
      OutsideClear(c, g);
      KeptClear(c, g);
      ApartIffSplit(outs, Kept(c), g);
    }
  }

  // ---- A job as it starts.

  lemma FreshJobOk(version: seq<seq<File>>, c: CompactJob)
    requires c.Compacting? && LevelsOk(version) && c.level + 1 < NUM_LEVELS && c.base == version
    requires c.files0 <= Set(version[c.level]) && c.files1 <= Set(version[c.level + 1])
    requires Sorted(c.inputs) && Elems(c.inputs) == TakenEntries(c.files0) + TakenEntries(c.files1)
    requires R.Newer(RestEntries(version[c.level], c.files0), TakenEntries(c.files0))
    requires R.Newer(RestEntries(version[c.level + 1], c.files1), Elems(c.inputs))
    requires forall g :: g in version[c.level + 1] && g !in c.files1 ==> Beyond(c.inputs, g)
    ensures JobOk(version, c)
  {
  }

  lemma PickedWithin(version: seq<seq<File>>, level: nat, in0: seq<File>, in1: seq<File>)
    requires LevelsOk(version) && level + 1 < NUM_LEVELS && CleanCuts(version, level, in0, in1)
    ensures |version| == NUM_LEVELS && Set(in0) <= Set(version[level]) && Set(in1) <= Set(version[level + 1])
  {
  }

  lemma NotTaken(files: seq<File>, g: File)
    requires g !in Set(files)
    ensures g !in files
  {
  }

  lemma PickedJobOk(version: seq<seq<File>>, level: nat, in0: seq<File>, in1: seq<File>, c: CompactJob)
    requires LevelsOk(version) && level + 1 < NUM_LEVELS
    requires Picked(version, level, in0, in1) && CleanCuts(version, level, in0, in1)
    requires R.Stamped(FileEntries(version[level])) && R.Stamped(FileEntries(version[level + 1]))
    requires c.Compacting? && c.level == level && c.files0 == Set(in0) && c.files1 == Set(in1) && c.base == version
    requires Sorted(c.inputs) && Elems(c.inputs) == TakenEntries(Set(in0)) + TakenEntries(Set(in1))
    ensures JobOk(version, c)
  {
    hide *;
    PickedWithin(version, level, in0, in1);
    PickedCloses(version, level, in0, in1);
    forall g | g in version[level + 1] && g !in c.files1 ensures Beyond(c.inputs, g) {
      NotTaken(in1, g);
      PickedBeyond(version, level, in0, in1, c.inputs, g);
    }
    FreshJobOk(version, c);
  }

  lemma {:induction false} AllKept(list: seq<Entry>, bound: Sequence, base: iset<UserKey>, n: nat)
    requires n <= |list| && forall i :: 0 <= i < n ==> !Dropped(list, bound, base, i)
    ensures Compacted(list, bound, base, n) == list[..n]
  {
    if n > 0 { AllKept(list, bound, base, n - 1); }
  }

  lemma InstanceEntries(f: File, g: File)
    requires |f.entries| == 1 && |g.entries| == 1
    ensures var none: seq<File> := [];
            Set([f, g]) == {f, g} && Set(none) == {} && Elems(f.entries + g.entries) == TakenEntries({f, g})
              + TakenEntries({})
  {
    assert f in [f, g] && g in [f, g];
    assert f.entries[0] in f.entries && g.entries[0] in g.entries;
  }

  lemma InstancePicked(base: seq<seq<File>>, f: File, g: File)
    requires LevelsOk(base) && base[1] == [f, g] && base[2] == [] && FileOk(f) && FileOk(g)
    requires Largest(f).user < Smallest(g).user && Smallest(f).user == Largest(f).user
    ensures Picked(base, 1, [f, g], []) && CleanCuts(base, 1, [f, g], [])
  {
    var files := [f, g];
    SortedUsers(g);
    assert files[0] == f && files[1] == g;
    assert IsHull(files, Smallest(f).user, Largest(g).user);
    assert TakesOverlaps(base, 1, files, []);
    assert forall h :: h in Set(files) <==> h in files;
  }

  function At(u: UserKey, s: Sequence, value: Bytes): Entry {
    Entry(InternalKey(u, s, Value), value)
  }

  function TwoFiles(f: File, g: File): seq<seq<File>> {
    [[], [f, g], [], [], [], [], []]
  }

  function TwoFileJob(f: File, g: File): CompactJob {
    Compacting(1, {f, g}, {}, f.entries + g.entries, 2, TwoFiles(f, g))
  }

  lemma TwoFilesOk(f: File, g: File)
    requires FileOk(f) && FileOk(g) && Largest(f).user < Smallest(g).user
    ensures LevelsOk(TwoFiles(f, g))
  {
  }

  lemma TwoFileJobOk(f: File, g: File)
    requires |f.entries| == 1 && |g.entries| == 1 && f.entries[0].key.user < g.entries[0].key.user
    requires f.entries[0].key.kind.Value? && g.entries[0].key.kind.Value?
    requires f.entries[0].key.sequence != g.entries[0].key.sequence
    ensures var base := TwoFiles(f, g);
            && LevelsOk(base) && Picked(base, 1, [f, g], []) && CleanCuts(base, 1, [f, g], [])
            && JobOk(base, TwoFileJob(f, g)) && Kept(TwoFileJob(f, g)) == f.entries + g.entries
  {
    var base, list := TwoFiles(f, g), f.entries + g.entries;
    TwoFilesOk(f, g);
    InstancePicked(base, f, g);
    assert list == [f.entries[0], g.entries[0]];
    AllKept(list, 2, Compactor.BaseKeys(base, 1), 2);
    assert list[..2] == list;
    InstanceEntries(f, g);
    var none: seq<File> := [];
    assert R.Stamped(FileEntries([f, g])) && R.Stamped(FileEntries(none));
    hide JobOk, Picked, CleanCuts;
    PickedJobOk(base, 1, [f, g], none, TwoFileJob(f, g));
  }

  lemma PlacedInGap(f: File, g: File, h: File)
    requires FileOk(f) && FileOk(g) && FileOk(h) && LevelsOk(TwoFiles(f, g))
    requires Largest(f).user < Smallest(h).user && Largest(h).user < Smallest(g).user
    ensures Placeable(TwoFiles(f, g), 2, h)
  {
    var version := TwoFiles(f, g);
    assert version[0] == [] && version[2] == [] && version[1] == [f, g];
  }

  /**
   It does go wrong: a compaction of two files takes everything it should and drops nothing,
   a table flushed meanwhile may be placed between them in the output level, and the one
   output overlaps it there.
   */
  lemma FlushBetweenInputs(value: Bytes)
    ensures var f, g := File(1, [At(1.0, 1, value)]), File(2, [At(9.0, 2, value)]);
            var flushed, output := File(4, [At(5.0, 3, value)]), File(3, f.entries + g.entries);
            var base, c := TwoFiles(f, g), TwoFileJob(f, g);
            && LevelsOk(base) && Picked(base, 1, [f, g], []) && CleanCuts(base, 1, [f, g], []) && JobOk(base, c)
            && Kept(c) == output.entries && FileOk(flushed) && FileOk(output)
            && Placeable(base, 2, flushed) && BothSides(Kept(c), flushed) && !Apart(output, flushed)
  {
    var f, g := File(1, [At(1.0, 1, value)]), File(2, [At(9.0, 2, value)]);
    var flushed, output := File(4, [At(5.0, 3, value)]), File(3, f.entries + g.entries);
    assert f.entries[0] in output.entries && g.entries[0] in output.entries;
    assert BothSides(output.entries, flushed);
    hide TwoFiles, TwoFileJob, Picked, CleanCuts, JobOk, Kept, LevelsOk, BothSides, Placeable;
    TwoFileJobOk(f, g);
    PlacedInGap(f, g, flushed);
  }

  // ---- A cut that is not clean.

  function Gone(): Entry {
    Entry(InternalKey(1.0, 5, Deletion), [])
  }

  function Under5(value: Bytes): Entry {
    Entry(InternalKey(1.0, 3, Value), value)
  }

  function Levels12(a: seq<File>, b: seq<File>): seq<seq<File>> {
    [[], a, b, [], [], [], []]
  }

  lemma Levels12Ok(a: seq<File>, b: seq<File>)
    requires LevelOk(a) && LevelOk(b)
    ensures LevelsOk(Levels12(a, b)) && AllOk(a) && AllOk(b)
  {
  }

  // A file of one user key with nothing below it is picked alone.
  lemma PicksAlone(levels: seq<seq<File>>, f: File)
    requires LevelsOk(levels) && AllOk(levels[1]) && levels[2] == [] && f in levels[1] && FileOk(f)
    requires Smallest(f).user == Largest(f).user
    ensures Picked(levels, 1, [f], []) && Set([f]) <= Set(levels[1])
  {
    assert [f][0] == f;
    assert IsHull([f], Smallest(f).user, Largest(f).user);
    assert TakesOverlaps(levels, 1, [f], []);
  }

  lemma SplitsKey(files: seq<File>, f: File, g: File)
    requires LevelOk(files) && f in files && g in files && f != g && FileOk(f) && FileOk(g) && Split(f, g)
    ensures Set([f]) <= Set(files) && !CleanCut(files, Set([f]))
  {
    assert f in [f] && f in Set([f]) && g !in Set([f]);
  }

  lemma DropsDeletion(levels: seq<seq<File>>)
    requires LevelsOk(levels) && forall l :: 3 <= l < NUM_LEVELS ==> levels[l] == []
    ensures 1.0 in Compactor.BaseKeys(levels, 1) && Compacted([Gone()], 5, Compactor.BaseKeys(levels, 1), 1) == []
  {
    var base := Compactor.BaseKeys(levels, 1);
    assert Compacted([Gone()], 5, base, 0) == [] && Dropped([Gone()], 5, base, 0);
  }

  // The first file alone is picked, and a compaction of it keeps nothing.
  lemma PicksFirst(f: File, g: File, levels: seq<seq<File>>)
    requires LevelsOk(levels) && levels[1] == [f, g] && forall l :: 2 <= l < NUM_LEVELS ==> levels[l] == []
    requires f.entries == [Gone()] && FileOk(f) && FileOk(g) && f != g && Split(f, g)
    ensures Picked(levels, 1, [f], []) && Set([f]) <= Set(levels[1])
    ensures !CleanCut(levels[1], Set([f])) && 1.0 in Compactor.BaseKeys(levels, 1)
    ensures Compacted(f.entries, 5, Compactor.BaseKeys(levels, 1), 1) == []
  {
    assert AllOk(levels[1]) && LevelOk(levels[1]);
    hide Picked, CleanCut, LevelOk, Compacted, AllOk, LevelsOk, Set, Split, FileOk, Compactor.BaseKeys;
    assert f in [f, g] && g in [f, g];
    PicksAlone(levels, f);
    SplitsKey(levels[1], f, g);
    DropsDeletion(levels);
  }

  lemma SplitPair(f: File, g: File)
    requires exists value :: f == File(1, [Gone()]) && g == File(2, [Under5(value)])
    ensures LevelOk([f, g]) && FileOk(f) && FileOk(g) && Split(f, g) && f in [f, g] && g in [f, g] && f != g
    ensures Smallest(f).user == Largest(f).user && f.entries == [Gone()]
  {
  }

  lemma NoFilesOk()
    ensures LevelOk([])
  {
  }

  /** One level is read by its one entry. */
  lemma OneEntryFound(f: File, e: Entry, u: UserKey, s: Sequence)
    requires f.entries == [e] && e.key.user == u && e.key.sequence <= s
    ensures Finds(FileEntries([f]), u, s, Some(e)) && R.Stamped(FileEntries([f]))
  {
    assert f in [f] && e in f.entries;
  }

  lemma NoneFound(u: UserKey, s: Sequence)
    ensures Finds(FileEntries([]), u, s, None)
  {
  }

  // Two levels, each with one file of one entry for the key: the upper one answers.
  lemma UpperAnswers(top: File, below: seq<File>, e: Entry, u: UserKey, s: Sequence, hit: Option<Entry>)
    requires top.entries == [e] && e.key.user == u && e.key.sequence <= s
    requires FirstHit(Levels12([top], below), u, s, hit)
    ensures hit == Some(e)
  {
    var levels := Levels12([top], below);
    OneEntryFound(top, e, u, s);
    assert levels[0] == [] && levels[1] == [top];
    NoneFound(u, s);
    var l :| 0 <= l <= |levels| && FirstHitAt(levels, u, s, hit, l);
    if l == 1 {
      FindsOne(FileEntries([top]), u, s, hit, Some(e));
    }
  }

  lemma BothFound(f: File, g: File, d: Entry, x: Entry, u: UserKey, s: Sequence)
    requires f.entries == [d] && g.entries == [x] && d.key.user == u == x.key.user
      && x.key.sequence < d.key.sequence <= s
    ensures Finds(FileEntries([f, g]), u, s, Some(d)) && R.Stamped(FileEntries([f, g]))
  {
    assert f in [f, g] && d in f.entries && g in [f, g] && x in g.entries;
  }

  /**
   Two neighbouring files of level 1 hold a deletion of a key and, after it, its older value.
   The first alone is picked.  Compacting it, with no deeper file, drops the deletion; moving
   it down a level unread, which is what happens to a single file with nothing to merge, puts
   it below the value.  Before, the search finds the deletion; after either, the value.
   */
  lemma UncleanCutUncovers(value: Bytes)
    ensures var f, g := File(1, [Gone()]), File(2, [Under5(value)]);
            var levels := Levels12([f, g], []);
            && LevelsOk(levels) && Picked(levels, 1, [f], []) && Set([f]) <= Set(levels[1])
              && !CleanCut(levels[1], Set([f]))
            && 1.0 in Compactor.BaseKeys(levels, 1) && Compacted(f.entries, 5, Compactor.BaseKeys(levels, 1), 1) == []
            && Finds(FileEntries(levels[1]), 1.0, 5, Some(Gone()))
            && (forall hit :: FirstHit(Levels12([g], []), 1.0, 5, hit) ==> hit == Some(Under5(value)))
            && (forall hit :: FirstHit(Levels12([g], [f]), 1.0, 5, hit) ==> hit == Some(Under5(value)))
  {
    var f, g := File(1, [Gone()]), File(2, [Under5(value)]);
    BothFound(f, g, Gone(), Under5(value), 1.0, 5);
    SplitPair(f, g);
    NoFilesOk();
    AlwaysAnswers(g, [], Under5(value), 1.0, 5);
    AlwaysAnswers(g, [f], Under5(value), 1.0, 5);
    hide *;
    Levels12Ok([f, g], []);
    LevelsOf([f, g], []);
    PicksFirst(f, g, Levels12([f, g], []));
  }

  lemma AlwaysAnswers(top: File, below: seq<File>, e: Entry, u: UserKey, s: Sequence)
    requires top.entries == [e] && e.key.user == u && e.key.sequence <= s
    ensures forall hit :: FirstHit(Levels12([top], below), u, s, hit) ==> hit == Some(e)
  {
    hide Levels12, FirstHit;
    forall hit | FirstHit(Levels12([top], below), u, s, hit) ensures hit == Some(e) {
      UpperAnswers(top, below, e, u, s, hit);
    }
  }

  lemma LevelsOf(a: seq<File>, b: seq<File>)
    ensures |Levels12(a, b)| == NUM_LEVELS && Levels12(a, b)[1] == a && Levels12(a, b)[2] == b
    ensures forall l :: 3 <= l < NUM_LEVELS ==> Levels12(a, b)[l] == []
  {
  }
}
