/** Laws of recovery's runs stated from the actions: what was logged, who refers to which version, what is deleted. */
module RecoveryLaws {
  import opened Keys
  import opened Dropping
  import opened Recovery
  import R = Reads

  // ---- What was logged.

  /** Every batch appended to a log. */
  function Logged(actions: seq<Action>): set<Entry> {
    if |actions| == 0 then {}
    else (if actions[0].Append? then actions[0].batch else {}) + Logged(actions[1..])
  }

  lemma StepHistory(s: State, a: Action)
    requires Enabled(s, a)
    ensures Do(s, a).history == s.history + if a.Append? then a.batch else {}
  {
    if a.InstallVersion? {
      InstalledFrame(s);
      CollectedFrame(Installed(s));
      hide Installed, Collected;
    } else if a.Fail? {
      FailedFrame(s, a.written);
      hide Failed;
    } else if a.Open? {
      CollectedFrame(Opened(s));
      hide AllRead, Collected;
    } else {
      OtherHistory(s, a);
    }
  }

  lemma OtherHistory(s: State, a: Action)
    requires Enabled(s, a) && !a.InstallVersion? && !a.Fail? && !a.Open?
    ensures Do(s, a).history == s.history + if a.Append? then a.batch else {}
  {
    hide Sorted, Carried, LogsFrom, Older, Compacted, Pruned, NothingOlderBeside, R.Stamped, Elems, AllRead, Collected,
      Opened, Installed, Failed, WithTable, TableMade, Written;
  }

  // ---- What installing, collecting and failing leave alone.

  lemma InstalledFrame(s: State)
    requires s.install.Some?
    ensures var t := Installed(s);
      && t.history == s.history && t.error == s.error
      && (if t.compaction.Some? then t.compaction == s.compaction && t.held == s.held else Ends(s, t))
  {
    hide Edited;
  }

  lemma CollectedFrame(s: State)
    ensures var t := Collected(s);
      t.history == s.history && t.error == s.error && t.compaction == s.compaction && t.held == s.held
  {
    hide Obsolete;
  }

  lemma FailedFrame(s: State, written: bool)
    requires written ==> s.install.Some?
    ensures var t := Failed(s, written);
      && t.history == s.history && t.error
      && (if t.compaction.Some? then t.compaction == s.compaction && t.held == s.held else Ends(s, t))
  {
    hide Written;
  }

  /** A compaction that ends gives up its reference. */
  predicate Ends(s: State, t: State) {
    t.held == if s.compaction.Some? then s.held - multiset{s.compaction.value.base} else s.held
  }

  lemma {:induction false} HistoryIsLogged(s: State, actions: seq<Action>, t: State)
    requires Run(s, actions, t)
    ensures t.history == s.history + Logged(actions)
    decreases |actions|
  {
    hide Enabled, Do;
    if |actions| > 0 {
      StepHistory(s, actions[0]);
      HistoryIsLogged(Do(s, actions[0]), actions[1..], t);
    }
  }

  // ---- References to versions.

  ghost function Counted(s: State, a: Action, v: Version): int {
    match a
    case TakeRef => if s.current == v then 1 else 0
    case DropRef(w) => if w == v then -1 else 0
    case _ => 0
  }

  /** References taken to this version, while it was current, less those dropped. */
  ghost function Taken(s: State, actions: seq<Action>, v: Version): int
    decreases |actions|
  {
    if |actions| == 0 || !Enabled(s, actions[0]) then 0
    else Counted(s, actions[0], v) + Taken(Do(s, actions[0]), actions[1..], v)
  }

  /** References other than a running compaction's. */
  function Clients(s: State, v: Version): int {
    var count: int := s.held[v];
    if s.compaction.Some? && s.compaction.value.base == v then count - 1 else count
  }

  lemma BaseHeld(s: State)
    requires Inv(s) && s.phase.Up?
    ensures BaseOk(s)
  {
    hide HistoryOk, DiskOk, RecoverOk, MemOk, ReadOk, TablesOk, BuildOk, InstallOk, ManifestOk, GarbageOk, BoundOk;
  }

  ghost predicate BaseOk(s: State) {
    s.compaction.Some? ==> s.compaction.value.base in s.held
  }

  predicate Refers(a: Action) {
    a.TakeRef? || a.DropRef? || a.StartCompaction? || a.InstallVersion? || a.Fail?
  }

  lemma OtherFrame(s: State, a: Action)
    requires s.phase.Up? && Enabled(s, a) && a != Crash && !Refers(a)
    ensures var t := Do(s, a);
      && t.held == s.held && (t.error <==> s.error || a.WriterError?)
      && (t.compaction.Some? <==> s.compaction.Some?)
      && (s.compaction.Some? ==> t.compaction.value.base == s.compaction.value.base
                                 && t.compaction.value.inputs == s.compaction.value.inputs)
  {
    hide Sorted, Carried, LogsFrom, Older, Compacted, Pruned, NothingOlderBeside, R.Stamped, Elems, AllRead, Collected,
      Opened, Installed, Failed, WithTable, TableMade, Written;
  }

  /** What a step that installs, fails or is none of those concerned with references does to them. */
  lemma StepFrame(s: State, a: Action)
    requires s.phase.Up? && Enabled(s, a) && a != Crash && !a.TakeRef? && !a.DropRef? && !a.StartCompaction?
    ensures var t := Do(s, a);
      && (t.error <==> s.error || Failing(a))
      && (if t.compaction.Some? then
          && s.compaction.Some? && t.compaction.value.base == s.compaction.value.base
          && t.compaction.value.inputs == s.compaction.value.inputs && t.held == s.held
        else Ends(s, t))
  {
    if a.InstallVersion? {
      InstalledFrame(s);
      CollectedFrame(Installed(s));
      hide Installed, Collected;
    } else if a.Fail? {
      FailedFrame(s, a.written);
      hide Failed;
    } else {
      OtherFrame(s, a);
      hide Do, Enabled;
    }
  }

  lemma ReferenceStep(s: State, a: Action)
    requires Enabled(s, a) && (a.TakeRef? || a.DropRef? || a.StartCompaction?)
    ensures var t := Do(s, a);
      match a
      case DropRef(v) => v in s.held && t.held == s.held - multiset{v} && t.compaction == s.compaction
      case StartCompaction(inputs) =>
        && s.compaction.None? && t.held == s.held + multiset{s.current}
        && t.compaction == Some(Compaction(s.current, inputs, {}, {}))
      case _ => t.held == s.held + multiset{s.current} && t.compaction == s.compaction
  {
  }

  lemma StepClients(s: State, a: Action, v: Version)
    requires s.phase.Up? && Enabled(s, a) && a != Crash && BaseOk(s)
    ensures Clients(Do(s, a), v) == Clients(s, v) + Counted(s, a, v)
  {
    hide Do, Enabled;
    if a.TakeRef? || a.DropRef? || a.StartCompaction? {
      ReferenceStep(s, a);
    } else {
      StepFrame(s, a);
    }
  }

  lemma {:induction false} ClientsAreTaken(s: State, actions: seq<Action>, t: State, v: Version)
    requires Inv(s) && s.phase.Up? && Run(s, actions, t) && forall i :: 0 <= i < |actions| ==> actions[i] != Crash
    ensures Clients(t, v) == Clients(s, v) + Taken(s, actions, v)
    decreases |actions|
  {
    hide Enabled, Do, Inv, Clients;
    if |actions| > 0 {
      BaseHeld(s);
      StepClients(s, actions[0], v);
      StepKeeps(s, actions[0]);
      StepStays(s, actions[0]);
      ClientsAreTaken(Do(s, actions[0]), actions[1..], t, v);
    }
  }

  lemma OpenedBare(opening: State)
    requires Enabled(opening, Open)
    ensures var s := Do(opening, Open);
      && s.phase.Up? && s.held == multiset{} && s.compaction.None? && !s.error
      && s.current == opening.manifest.version && s.pending == {}
  {
    hide Obsolete, AllRead;
  }

  /**
   As long as more references to a version were taken than dropped since the last opening, its tables stay on disk and
   off the list of files to delete.
   */
  lemma ReferencedStays(s: State, before: seq<Action>, opening: State, after: seq<Action>, t: State, v: Version)
    requires Fresh(s) && Run(s, before, opening) && Enabled(opening, Open) && Run(Do(opening, Open), after, t)
    requires forall i :: 0 <= i < |after| ==> after[i] != Crash
    requires Taken(Do(opening, Open), after, v) > 0
    ensures v.tables <= t.tables.Keys
    ensures t.garbage.Some? ==> t.garbage.value.tables !! v.tables
  {
    OpenedBare(opening);
    hide Run, Enabled, Do, Inv, Fresh;
    FreshOk(s);
    RunKeeps(s, before, opening);
    OpenKeeps(opening);
    var up := Do(opening, Open);
    RunKeeps(up, after, t);
    ClientsAreTaken(up, after, t, v);
    BoundStays(up, after, t);
    HeldKept(t, v);
  }

  lemma HeldKept(t: State, v: Version)
    requires Inv(t) && t.phase.Up? && v in t.held
    ensures v.tables <= t.tables.Keys
    ensures t.garbage.Some? ==> t.garbage.value.tables !! v.tables
  {
    hide HistoryOk, DiskOk, RecoverOk, MemOk, ReadOk, CompactionOk, BuildOk, InstallOk, ManifestOk, BoundOk;
    assert v.tables <= HeldTables(t.held);
  }

  lemma CompactionStep(s: State, a: Action)
    requires s.phase.Up? && Enabled(s, a) && a != Crash && !a.StartCompaction?
    ensures var c := Do(s, a).compaction;
      c.Some? ==> s.compaction.Some? && c.value.base == s.compaction.value.base
                  && c.value.inputs == s.compaction.value.inputs
  {
    if !a.TakeRef? && !a.DropRef? {
      StepFrame(s, a);
      hide Do, Enabled;
    }
  }

  lemma {:induction false} CompactionStays(s: State, actions: seq<Action>, t: State)
    requires s.phase.Up? && Run(s, actions, t)
    requires forall i :: 0 <= i < |actions| ==> actions[i] != Crash && !actions[i].StartCompaction?
    ensures t.compaction.Some? ==>
      && s.compaction.Some? && t.compaction.value.base == s.compaction.value.base
      && t.compaction.value.inputs == s.compaction.value.inputs
    decreases |actions|
  {
    hide Enabled, Do;
    if |actions| > 0 {
      CompactionStep(s, actions[0]);
      StepStays(s, actions[0]);
      CompactionStays(Do(s, actions[0]), actions[1..], t);
    }
  }

  lemma CompactionStarts(s: State, inputs: set<nat>)
    requires Enabled(s, StartCompaction(inputs))
    ensures var up := Do(s, StartCompaction(inputs));
      up.phase.Up? && up.compaction == Some(Compaction(s.current, inputs, {}, {})) && inputs <= s.current.tables
  {
  }

  /** A compaction keeps the tables of the version it began from, its inputs among them, until it ends. */
  lemma CompactionPins(s: State, before: seq<Action>, starting: State, inputs: set<nat>, after: seq<Action>, t: State)
    requires Fresh(s) && Run(s, before, starting) && Enabled(starting, StartCompaction(inputs))
    requires Run(Do(starting, StartCompaction(inputs)), after, t) && t.compaction.Some?
    requires forall i :: 0 <= i < |after| ==> after[i] != Crash && !after[i].StartCompaction?
    ensures t.compaction.value.inputs == inputs <= starting.current.tables <= t.tables.Keys
    ensures t.garbage.Some? ==> t.garbage.value.tables !! starting.current.tables
  {
    var up := Do(starting, StartCompaction(inputs));
    CompactionStarts(starting, inputs);
    hide Run, Do, Inv, Fresh, Enabled;
    FreshOk(s);
    RunKeeps(s, before, starting);
    StepKeeps(starting, StartCompaction(inputs));
    RunKeeps(up, after, t);
    BoundStays(up, after, t);
    CompactionStays(up, after, t);
    BaseHeld(t);
    HeldKept(t, starting.current);
  }

  // ---- Errors.

  predicate Failing(a: Action) { a.Fail? || a.WriterError? }

  lemma StepError(s: State, a: Action)
    requires s.phase.Up? && Enabled(s, a) && a != Crash
    ensures Do(s, a).error <==> s.error || Failing(a)
  {
    if !a.TakeRef? && !a.DropRef? && !a.StartCompaction? {
      StepFrame(s, a);
      hide Do, Enabled;
    }
  }

  lemma {:induction false} ErrorIffFailed(s: State, actions: seq<Action>, t: State)
    requires s.phase.Up? && Run(s, actions, t) && forall i :: 0 <= i < |actions| ==> actions[i] != Crash
    ensures t.error <==> s.error || exists i :: 0 <= i < |actions| && Failing(actions[i])
    decreases |actions|
  {
    hide Enabled, Do, Failing;
    if |actions| > 0 {
      StepError(s, actions[0]);
      StepStays(s, actions[0]);
      ErrorIffFailed(Do(s, actions[0]), actions[1..], t);
      assert forall i :: 0 < i < |actions| ==> actions[i] == actions[1..][i - 1];
      if i :| 0 <= i < |actions| - 1 && Failing(actions[1..][i]) { assert Failing(actions[i + 1]); }
    }
  }

  // ---- Collection.

  /** What is neither pending nor in a version anyone refers to. */
  ghost predicate Unneeded(s: State, n: nat) {
    n !in s.pending && n !in s.current.tables && forall v :: v in s.held ==> n !in v.tables
  }

  /** A collection lists exactly the tables on disk nobody needs and the logs before LogNumber. */
  ghost predicate ListsAll(s: State) {
    && s.garbage.Some?
    && (forall n :: n in s.garbage.value.tables <==> n in s.tables && Unneeded(s, n))
    && (forall n :: n in s.garbage.value.logs <==> n in s.logs && n < s.logNumber)
  }

  lemma CollectedAll(s: State)
    requires !s.error
    ensures ListsAll(Collected(s))
  {
  }

  /**
   Opening, and unless there was an error since, installing the result of a flush or of a compaction, lists exactly
   the files that are no longer needed.
   */
  lemma CollectionComplete(s: State, a: Action)
    requires Inv(s) && Enabled(s, a)
    requires a.Open? || (a.InstallVersion? && !s.error && (s.install.value.flush || s.compaction.Some?))
    ensures ListsAll(Do(s, a))
  {
    hide Inv, ListsAll, Collected, AllRead;
    if a.Open? {
      assert !Opened(s).error;
      CollectedAll(Opened(s));
    } else {
      assert Installed(s).error == s.error;
      CollectedAll(Installed(s));
    }
  }

  // ---- Reopening.

  lemma {:induction false} NumberAbove(numbers: set<nat>, least: nat) returns (n: nat)
    ensures n >= least && forall k :: k in numbers ==> k < n
    decreases numbers
  {
    if numbers == {} {
      n := least;
    } else {
      var k :| k in numbers;
      n := NumberAbove(numbers - {k}, if k < least then least else k + 1);
      assert forall j :: j in numbers ==> j == k || j in numbers - {k};
    }
  }

  /** Reading every log at once, where the memtable has room for it all. */
  lemma ReadsAll(s: State) returns (t: State)
    requires s.phase.Down?
    ensures var all := LogsFrom(s.logs, s.manifest.log);
      && Enabled(s, StartRecovery) && Enabled(Do(s, StartRecovery), RecoverRead(all))
      && t == Do(Do(s, StartRecovery), RecoverRead(all))
      && t.phase == Recovering(all, all, {}, None, false, false) && AllRead(t)
      && t.logs == s.logs && t.history == s.history
  {
    hide LogsFrom, Collected, Opened, Installed, Failed;
    var all := LogsFrom(s.logs, s.manifest.log);
    var r := Do(s, StartRecovery);
    assert r.phase == Recovering({}, {}, {}, None, false, false);
    t := Do(r, RecoverRead(all));
    assert {} + all == all;
  }

  lemma RunMore(s: State, a: Action, rest: seq<Action>, t: State)
    requires Enabled(s, a) && Run(Do(s, a), rest, t)
    ensures Run(s, [a] + rest, t)
  {
    assert ([a] + rest)[1..] == rest;
  }

  lemma LogStep(s: State, n: nat)
    requires s.phase.Recovering? && s.phase.log.None? && AllRead(s) && s.phase.mem == {} && !s.phase.durable
    requires n >= s.next && forall k :: k in s.logs ==> k < n
    ensures Enabled(s, RecoverLog(n))
    ensures var t := Do(s, RecoverLog(n));
      t.phase.Recovering? && t.phase.log.Some? && !t.phase.durable && t.history == s.history
  {
    hide LogsFrom;
  }

  lemma ManifestStep(s: State)
    requires s.phase.Recovering? && s.phase.log.Some? && !s.phase.durable
    ensures Enabled(s, RecoverManifest)
    ensures var t := Do(s, RecoverManifest);
      t.phase.Recovering? && t.phase.log.Some? && t.phase.durable && t.history == s.history
  {
  }

  lemma OpenStep(s: State)
    requires s.phase.Recovering? && s.phase.log.Some? && s.phase.durable
    ensures Enabled(s, Open) && Do(s, Open).phase.Up? && Do(s, Open).history == s.history
  {
    hide Obsolete;
  }

  /** With everything read, a new log, the MANIFEST's record and the opening follow. */
  lemma FinishesRecovery(s: State) returns (actions: seq<Action>, t: State)
    requires s.phase.Recovering? && s.phase.log.None? && AllRead(s) && s.phase.mem == {} && !s.phase.durable
    ensures Run(s, actions, t) && t.phase.Up? && t.history == s.history
  {
    hide Do, Enabled, AllRead;
    var n := NumberAbove(s.logs.Keys, s.next);
    LogStep(s, n);
    var logged := Do(s, RecoverLog(n));
    ManifestStep(logged);
    var recorded := Do(logged, RecoverManifest);
    OpenStep(recorded);
    t := Do(recorded, Open);
    assert Run(t, [], t);
    hide Run;
    RunMore(recorded, Open, [], t);
    RunMore(logged, RecoverManifest, [Open] + [], t);
    actions := [RecoverManifest] + ([Open] + []);
    RunMore(s, RecoverLog(n), actions, t);
    actions := [RecoverLog(n)] + actions;
  }

  /** Whatever a crash at any moment leaves, the database can be opened again and reads as its history. */
  lemma Reopens(s: State) returns (actions: seq<Action>, t: State)
    requires Inv(s)
    ensures Run(s, [Crash] + actions, t) && t.phase.Up? && t.history == s.history
    ensures Same(Data(t.tables, t.current.tables, t.logs, t.logNumber), s.history)
  {
    hide Inv, Same, Data, Enabled, Do, AllRead, LogsFrom, Run;
    CrashStep(s);
    var down := Do(s, Crash);
    var read := ReadsAll(down);
    var all := LogsFrom(down.logs, down.manifest.log);
    var flushed := read;
    if all != {} { flushed := FlushesRead(read); }
    actions, t := FinishesRecovery(flushed);
    if all != {} {
      RunMore(read, RecoverTable, actions, t);
      actions := [RecoverTable] + actions;
    }
    RunMore(Do(down, StartRecovery), RecoverRead(all), actions, t);
    actions := [RecoverRead(all)] + actions;
    RunMore(down, StartRecovery, actions, t);
    actions := [StartRecovery] + actions;
    RunMore(s, Crash, actions, t);
    RunKeeps(s, [Crash] + actions, t);
    Reads(t);
  }

  /** A crash takes the process down and leaves the disk as it is. */
  lemma CrashStep(s: State)
    ensures Enabled(s, Crash)
    ensures var t := Do(s, Crash);
      && t.phase.Down? && t.logs == s.logs && t.tables == s.tables && t.manifest == s.manifest
      && t.history == s.history
  {
  }

  lemma FlushesRead(s: State) returns (t: State)
    requires s.phase.Recovering? && s.phase.log.None? && AllRead(s) && s.phase.mem != {} && !s.phase.durable
    ensures Enabled(s, RecoverTable) && t == Do(s, RecoverTable) && t.history == s.history
    ensures t.phase.Recovering? && t.phase.log.None? && AllRead(t) && t.phase.mem == {} && !t.phase.durable
  {
    t := Do(s, RecoverTable);
  }

  lemma Reads(t: State)
    requires Inv(t) && t.phase.Up?
    ensures Same(Data(t.tables, t.current.tables, t.logs, t.logNumber), t.history)
  {
    hide Same, Data;
  }
}
