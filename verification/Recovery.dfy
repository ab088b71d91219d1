/**
 Logs, tables and the MANIFEST across memtable switches, flushes, compactions, moves, garbage collection, background
 errors, crashes and reopening (db_impl.cc, version_set.cc).  A step is what runs between two points where the mutex
 is given up, or up to a point where the process may die.  A log, a memtable and a table are the sets of entries they
 hold; what a set shows of a key is its newest version (module Reads).
 */
module Recovery {
  import opened Keys
  import opened Dropping
  import R = Reads

  const SLOWDOWN: nat := 8

  type Disk = map<nat, set<Entry>>

  datatype Version = Version(tables: set<nat>, level0: set<nat>)

  datatype Edit = Edit(added: set<nat>, top: set<nat>, removed: set<nat>)

  function Edited(v: Version, e: Edit): Version {
    Version(v.tables - e.removed + e.added, v.level0 - e.removed + e.top)
  }

  // What the MANIFEST's records add up to.
  datatype Manifest = Manifest(version: Version, log: nat, next: nat)

  datatype Imm = Imm(log: nat, entries: set<Entry>)

  datatype Compaction = Compaction(base: Version, inputs: set<nat>, outputs: set<nat>, finished: set<nat>)

  // LogAndApply under way: its MANIFEST record is being written, or is in the file.
  datatype Install = Install(edit: Edit, log: nat, next: nat, flush: bool, durable: bool)

  datatype Garbage = Garbage(logs: set<nat>, tables: set<nat>)

  datatype Phase =
    | Down
    // What has been replayed, what of it is still in a memtable, and the tables made of the rest.
    | Recovering(read: set<Entry>, mem: set<Entry>, made: set<nat>, log: Option<nat>, reused: bool, durable: bool)
    | Up

  datatype State = State(
    // The disk, and every entry ever appended to a log.
    logs: Disk, tables: Disk, manifest: Manifest, history: set<Entry>,
    // The process.
    phase: Phase, next: nat, current: Version, logNumber: nat, held: multiset<Version>, pending: set<nat>,
    memLog: nat, mem: set<Entry>, writing: set<Entry>, imm: Option<Imm>,
    building: Option<nat>, compaction: Option<Compaction>, install: Option<Install>, garbage: Option<Garbage>,
    error: bool, bound: nat)

  // ---- What is looked up.

  /** What the tables of these numbers hold. */
  ghost function Carried(tables: Disk, numbers: set<nat>): set<Entry> {
    set n, e | n in numbers && n in tables && e in tables[n] :: e
  }

  /** What the logs from this number on hold. */
  ghost function LogsFrom(logs: Disk, from: nat): set<Entry> {
    set n, e | n in logs && n >= from && e in logs[n] :: e
  }

  predicate Top(logs: Disk, n: nat) {
    n in logs && forall k :: k in logs ==> k <= n
  }

  /** What a version and the logs it does not cover hold together. */
  ghost function Data(tables: Disk, numbers: set<nat>, logs: Disk, log: nat): set<Entry> {
    Carried(tables, numbers) + LogsFrom(logs, log)
  }

  /** Every key reads alike in the two sets. */
  ghost predicate Same(S: set<Entry>, T: set<Entry>) {
    forall u :: R.Agree(S, T, u, MAX_SEQUENCE)
  }

  function HeldTables(held: multiset<Version>): set<nat> {
    set v, t | v in held && t in v.tables :: t
  }

  /** The set RemoveObsoleteFiles computes: pending outputs and the tables of every referenced version. */
  function Live(s: State): set<nat> {
    s.pending + s.current.tables + HeldTables(s.held)
  }

  function Obsolete(s: State): Garbage {
    var logs := set n | n in s.logs && n < s.logNumber;
    Garbage(logs, s.tables.Keys - Live(s))
  }

  // After a background error nothing is collected.
  function Collected(s: State): State {
    if s.error then s else s.(garbage := Some(Obsolete(s)))
  }

  predicate Idle(s: State) {
    s.phase.Up? && s.building.None? && s.install.None? && s.garbage.None?
  }

  // ---- Steps.

  datatype Action =
    | Append(batch: set<Entry>)
    | Insert
    | Switch
    | TakeRef
    | DropRef(version: Version)
    | StartFlush
    | FinishFlush(list: seq<Entry>, bound: Sequence, level0: bool)
    | StartCompaction(inputs: set<nat>)
    | OpenOutput
    | FinishOutput(number: nat, entries: set<Entry>)
    | FinishCompaction(list: seq<Entry>, bound: Sequence, base: iset<UserKey>)
    | StartMove(number: nat)
    | WriteManifest
    | InstallVersion
    | Fail(written: bool)
    | WriterError
    | Delete(log: bool, number: nat)
    | EndCollection
    | Crash
    | StartRecovery
    | RecoverRead(entries: set<Entry>)
    | RecoverTable
    | RecoverLog(number: nat)
    | ReuseLog(number: nat, next: nat)
    | RecoverManifest
    | Open

  ghost predicate AllRead(s: State)
    requires s.phase.Recovering?
  {
    s.phase.read == LogsFrom(s.logs, s.manifest.log)
  }

  ghost predicate Older(A: set<Entry>, B: set<Entry>) {
    forall x, y :: x in A && y in B ==> x.key.sequence < y.key.sequence
  }

  /**
   The premise of a compaction, which StoreMachine.BesideNewer derives for the inputs the store picks: no other table
   of the version has an older version of a key whose deletion may be dropped.
   */
  ghost predicate NothingOlderBeside(others: set<Entry>, list: seq<Entry>, base: iset<UserKey>) {
    forall x, e :: x in others && e in list && x.key.user == e.key.user && e.key.user in base ==>
      e.key.sequence < x.key.sequence
  }

  ghost predicate Enabled(s: State, a: Action) {
    match a
    case Append(b) =>
      s.phase.Up? && s.writing == {} && s.memLog in s.logs && Older(s.history, b) && R.Stamped(b)
    case Insert => s.phase.Up? && s.writing != {}
    case Switch =>
      s.phase.Up? && !s.error && s.writing == {} && s.imm.None? && |s.current.level0| < SLOWDOWN
    case TakeRef => s.phase.Up?
    case DropRef(v) =>
      s.phase.Up? && v in s.held && (s.compaction.Some? && s.compaction.value.base == v ==> s.held[v] > 1)
    // After an error only a compaction that still runs tries to flush.
    case StartFlush => Idle(s) && s.imm.Some? && (s.error ==> s.compaction.Some?)
    case FinishFlush(list, bound, level0) =>
      s.phase.Up? && s.building.Some? && s.imm.Some? && Sorted(list) && Elems(list) == s.imm.value.entries
    case StartCompaction(inputs) =>
      Idle(s) && s.imm.None? && !s.error && s.compaction.None? && inputs <= s.current.tables
    case OpenOutput => Idle(s) && s.compaction.Some?
    case FinishOutput(n, entries) =>
      && Idle(s) && s.compaction.Some? && n in s.compaction.value.outputs - s.compaction.value.finished
      && entries <= Carried(s.tables, s.compaction.value.inputs)
    case FinishCompaction(list, bound, base) =>
      && Idle(s) && s.compaction.Some? && s.compaction.value.finished == s.compaction.value.outputs
      && Sorted(list) && bound < MAX_SEQUENCE
      && var c := s.compaction.value;
      && Elems(list) == Carried(s.tables, c.inputs)
      && Carried(s.tables, c.outputs) == Elems(Compacted(list, bound, base, |list|))
      && NothingOlderBeside(Carried(s.tables, s.current.tables - c.inputs), list, base)
    case StartMove(n) => Idle(s) && s.imm.None? && !s.error && s.compaction.None? && n in s.current.tables
    case WriteManifest => s.phase.Up? && s.install.Some? && !s.install.value.durable
    case InstallVersion => s.phase.Up? && s.install.Some? && s.install.value.durable
    case Fail(written) =>
      s.phase.Up? && s.garbage.None?
      && (s.building.Some? || s.compaction.Some? || s.install.Some?)
      && (written ==> s.install.Some? && !s.install.value.durable)
    case WriterError => s.phase.Up?
    case Delete(log, n) =>
      s.phase.Up? && s.garbage.Some? && n in (if log then s.garbage.value.logs else s.garbage.value.tables)
    case EndCollection => s.phase.Up? && s.garbage.Some?
    case Crash => true
    case StartRecovery => s.phase.Down?
    // The logs the MANIFEST does not cover are replayed from the oldest entry to the newest.
    case RecoverRead(entries) =>
      && s.phase.Recovering? && s.phase.log.None?
      && entries <= LogsFrom(s.logs, s.manifest.log) && Older(s.phase.read, entries)
    case RecoverTable => s.phase.Recovering? && s.phase.log.None? && s.phase.mem != {}
    case RecoverLog(n) =>
      && s.phase.Recovering? && s.phase.log.None? && AllRead(s) && s.phase.mem == {}
      && n >= s.next && forall k :: k in s.logs && k >= s.manifest.log ==> k < n
    // The last log is kept only if all of it is still in the memtable.
    case ReuseLog(n, next) =>
      && s.phase.Recovering? && s.phase.log.None? && AllRead(s)
      && Top(s.logs, n) && n >= s.manifest.log && s.phase.mem == s.logs[n] && next >= s.next && next > n
    case RecoverManifest => s.phase.Recovering? && s.phase.log.Some? && !s.phase.durable
    case Open => s.phase.Recovering? && s.phase.log.Some? && (s.phase.durable || s.phase.made == {})
  }

  ghost function Do(s: State, a: Action): State
    requires Enabled(s, a)
  {
    match a
    // The log record is in the file before the memtable has the batch.
    case Append(b) =>
      s.(logs := s.logs[s.memLog := s.logs[s.memLog] + b], writing := b, history := s.history + b)
    case Insert => s.(mem := s.mem + s.writing, writing := {})
    case Switch =>
      s.(logs := s.logs[s.next := {}], imm := Some(Imm(s.memLog, s.mem)), mem := {}, memLog := s.next,
         next := s.next + 1)
    case TakeRef => s.(held := s.held + multiset{s.current})
    case DropRef(v) => s.(held := s.held - multiset{v})
    case StartFlush => s.(building := Some(s.next), pending := s.pending + {s.next}, next := s.next + 1)
    // The table holds what pruning keeps of the memtable; there is none if that is nothing.
    case FinishFlush(list, bound, level0) =>
      var n, kept := s.building.value, Elems(Pruned(list, bound, |list|));
      var added := TableMade(n, kept);
      s.(building := None, pending := s.pending - {n}, tables := WithTable(s.tables, n, kept),
         install := Some(Install(Edit(added, if level0 then added else {}, {}), s.memLog, s.next, true, false)))
    case StartCompaction(inputs) =>
      s.(compaction := Some(Compaction(s.current, inputs, {}, {})), held := s.held + multiset{s.current})
    case OpenOutput =>
      var c := s.compaction.value;
      s.(compaction := Some(c.(outputs := c.outputs + {s.next})), pending := s.pending + {s.next}, next := s.next + 1)
    case FinishOutput(n, entries) =>
      var c := s.compaction.value;
      s.(compaction := Some(c.(finished := c.finished + {n})), tables := s.tables[n := entries])
    case FinishCompaction(list, bound, base) =>
      var c := s.compaction.value;
      s.(install := Some(Install(Edit(c.outputs, {}, c.inputs), s.logNumber, s.next, false, false)))
    // A trivial move: the table leaves its level for the next one.
    case StartMove(n) =>
      s.(install := Some(Install(Edit({n}, {}, {n}), s.logNumber, s.next, false, false)))
    case WriteManifest =>
      s.(manifest := Written(s.manifest, s.install.value), install := Some(s.install.value.(durable := true)))
    // Only a flush or a compaction is followed by a collection.
    case InstallVersion =>
      if s.install.value.flush || s.compaction.Some? then Collected(Installed(s)) else Installed(s)
    case Fail(written) => Failed(s, written)
    case WriterError => s.(error := true)
    case Delete(log, n) =>
      if log then
        s.(logs := s.logs - {n}, garbage := Some(s.garbage.value.(logs := s.garbage.value.logs - {n})))
      else
        s.(tables := s.tables - {n}, garbage := Some(s.garbage.value.(tables := s.garbage.value.tables - {n})))
    case EndCollection => s.(garbage := None)
    case Crash => s.(phase := Down)
    case StartRecovery => s.(phase := Recovering({}, {}, {}, None, false, false), next := s.manifest.next + 1)
    case RecoverRead(entries) => s.(phase := s.phase.(read := s.phase.read + entries, mem := s.phase.mem + entries))
    case RecoverTable =>
      s.(phase := s.phase.(made := s.phase.made + {s.next}, mem := {}), tables := s.tables[s.next := s.phase.mem],
         next := s.next + 1)
    case RecoverLog(n) => s.(phase := s.phase.(log := Some(n)), logs := s.logs[n := {}], next := n + 1)
    case ReuseLog(n, next) => s.(phase := s.phase.(log := Some(n), reused := true), next := next)
    case RecoverManifest =>
      var made := s.phase.made;
      s.(manifest := Manifest(Edited(s.manifest.version, Edit(made, made, {})), s.phase.log.value, s.next),
         phase := s.phase.(durable := true))
    case Open => Collected(Opened(s))
  }

  // BuildTable makes no file of nothing.
  ghost function WithTable(tables: Disk, n: nat, entries: set<Entry>): Disk {
    if entries == {} then tables else tables[n := entries]
  }

  ghost function TableMade(n: nat, entries: set<Entry>): set<nat> {
    if entries == {} then {} else {n}
  }

  function Written(m: Manifest, i: Install): Manifest {
    Manifest(Edited(m.version, i.edit), i.log, i.next)
  }

  // AppendVersion, then CleanupCompaction and ReleaseInputs after a compaction, or dropping the memtable after a flush.
  function Installed(s: State): State
    requires s.install.Some?
  {
    var i := s.install.value;
    var t := s.(current := Edited(s.current, i.edit), logNumber := i.log, install := None);
    if i.flush then t.(imm := None)
    else if s.compaction.Some? then Released(t)
    else t
  }

  function Released(s: State): State
    requires s.compaction.Some?
  {
    var c := s.compaction.value;
    s.(pending := s.pending - c.outputs, held := s.held - multiset{c.base}, compaction := None)
  }

  // A failed build or MANIFEST write, with the record perhaps written all the same.
  function Failed(s: State, written: bool): State
    requires written ==> s.install.Some?
  {
    var t := s.(manifest := if written then Written(s.manifest, s.install.value) else s.manifest, error := true);
    if s.building.Some? then t.(building := None, pending := t.pending - {s.building.value})
    else if s.install.Some? && s.install.value.flush then t.(install := None)
    else if s.compaction.Some? then Released(t.(install := None))
    else t.(install := None)
  }

  function Opened(s: State): State
    requires s.phase.Recovering? && s.phase.log.Some?
  {
    var n := s.phase.log.value;
    var v, count := s.manifest.version, |s.manifest.version.level0|;
    State(s.logs, s.tables, s.manifest, s.history,
          Up, s.next, v, s.manifest.log, multiset{}, {}, n, s.phase.mem, {}, None,
          None, None, None, None, false, if count < SLOWDOWN then SLOWDOWN else count)
  }

  // ---- The invariant.

  predicate Below(numbers: set<nat>, n: nat) {
    forall k :: k in numbers ==> k < n
  }

  /** Nothing on disk was made up, and later logs have later entries. */
  ghost predicate HistoryOk(history: set<Entry>, logs: Disk, tables: Disk) {
    && R.Stamped(history)
    && (forall n :: n in logs ==> logs[n] <= history)
    && (forall n :: n in tables ==> tables[n] <= history)
    && (forall a, b :: a in logs && b in logs && a < b ==> Older(logs[a], logs[b]))
  }

  /** What a crash at this moment leaves: the MANIFEST's tables with the logs it does not cover read as the history. */
  ghost predicate DiskOk(history: set<Entry>, logs: Disk, tables: Disk, m: Manifest) {
    && Same(Data(tables, m.version.tables, logs, m.log), history)
    && m.version.tables <= tables.Keys && Below(m.version.tables, m.next) && m.log < m.next
    && (forall n :: Top(logs, n) ==> Older(Carried(tables, m.version.tables), logs[n]))
  }

  /** What was replayed is in the tables made or in the memtable, which is the newer part. */
  ghost predicate RecoverOk(s: State) {
    s.phase.Recovering? ==>
      var p := s.phase;
      && p.made <= s.tables.Keys && Below(p.made, s.next) && s.manifest.next <= s.next
      && (!p.durable ==> p.made !! s.manifest.version.tables && p.read <= LogsFrom(s.logs, s.manifest.log))
      && p.read == Carried(s.tables, p.made) + p.mem && Older(Carried(s.tables, p.made), p.mem)
      && (if p.log.Some? then
          && Top(s.logs, p.log.value) && s.manifest.log <= p.log.value < s.next && s.logs[p.log.value] == p.mem
          && (if p.durable then s.manifest.log == p.log.value else AllRead(s))
        else
          && !p.reused && !p.durable && forall k :: k in s.logs && k < s.manifest.log ==> k < s.next)
  }

  ghost function ImmEntries(s: State): set<Entry> {
    if s.imm.Some? then s.imm.value.entries else {}
  }

  /** The logs kept are the memtables, and with the current version they read as the history. */
  ghost predicate MemOk(s: State) {
    && Top(s.logs, s.memLog) && s.memLog < s.next && s.logNumber <= s.memLog
    && s.logs[s.memLog] == s.mem + s.writing
    && LogsFrom(s.logs, s.logNumber) == s.mem + s.writing + ImmEntries(s)
    && (s.imm.Some? ==>
      && s.imm.value.log in s.logs && s.logNumber <= s.imm.value.log < s.memLog
      && s.logs[s.imm.value.log] == s.imm.value.entries)
  }

  ghost predicate ReadOk(s: State) {
    && Same(Data(s.tables, s.current.tables, s.logs, s.logNumber), s.history)
    && Older(Carried(s.tables, s.current.tables), LogsFrom(s.logs, s.logNumber))
  }

  /** Every table of a referenced version is on disk, and new numbers are new. */
  predicate TablesOk(s: State) {
    && s.current.tables <= s.tables.Keys && Below(s.current.tables, s.next)
    && HeldTables(s.held) <= s.tables.Keys && Below(HeldTables(s.held), s.next)
    && Below(s.pending, s.next)
  }

  // The MANIFEST has the compaction that is not yet installed.
  predicate Swapped(s: State) {
    s.install.Some? && !s.install.value.flush && s.install.value.durable
  }

  ghost predicate CompactionOk(s: State) {
    s.compaction.Some? ==>
      var c := s.compaction.value;
      && c.base in s.held
      && c.inputs <= s.current.tables
      && c.outputs <= s.pending && c.finished <= c.outputs && c.finished <= s.tables.Keys
      && c.outputs !! s.current.tables && c.outputs !! HeldTables(s.held)
      && Carried(s.tables, c.finished) <= Carried(s.tables, c.inputs)
      && (!Swapped(s) ==>
        && c.inputs <= s.manifest.version.tables && c.outputs !! s.manifest.version.tables
        && Older(Carried(s.tables, c.inputs), Carried(s.tables, s.manifest.version.tables - s.current.tables)))
  }

  ghost predicate BuildOk(s: State) {
    s.building.Some? ==>
      var n := s.building.value;
      && s.imm.Some? && s.install.None? && s.garbage.None?
      && n in s.pending && n !in s.current.tables && n !in HeldTables(s.held) && n !in s.manifest.version.tables
      && (s.compaction.Some? ==> n !in s.compaction.value.outputs)
  }

  /** The newest version of every key of I is in S. */
  ghost predicate NewestIn(I: set<Entry>, S: set<Entry>) {
    forall u, e :: R.Newest(I, u, MAX_SEQUENCE, e) ==> e in S
  }

  ghost predicate InstallOk(s: State) {
    s.install.Some? ==> InstallReads(s, s.install.value) && InstallShape(s, s.install.value)
  }

  /** Once made, the edit keeps both the process's version and the MANIFEST's reading as the history. */
  ghost predicate InstallReads(s: State, i: Install) {
    && Same(Data(s.tables, Edited(s.current, i.edit).tables, s.logs, i.log), s.history)
    && (!i.durable ==> Same(Data(s.tables, Edited(s.manifest.version, i.edit).tables, s.logs, i.log), s.history))
  }

  ghost predicate InstallShape(s: State, i: Install) {
    && s.garbage.None?
    && i.edit.added <= s.tables.Keys && Below(i.edit.added, i.next) && i.edit.top <= i.edit.added
    && i.log < i.next <= s.next && s.logNumber <= i.log && Below(s.current.tables, i.next)
    && Below(s.manifest.version.tables, i.next)
    && (if i.flush then FlushOk(s, i) else SwapOk(s, i))
  }

  ghost predicate FlushOk(s: State, i: Install) {
    && s.imm.Some? && i.log == s.memLog && i.edit.removed == {} && |i.edit.added| <= 1
    && Carried(s.tables, i.edit.added) <= s.imm.value.entries
    && NewestIn(s.imm.value.entries, Carried(s.tables, i.edit.added))
    && (s.compaction.Some? ==> i.edit.added !! s.compaction.value.outputs)
  }

  ghost predicate SwapOk(s: State, i: Install) {
    && i.log == s.logNumber && i.edit.top == {}
    && (if s.compaction.Some? then
        && i.edit == Edit(s.compaction.value.outputs, {}, s.compaction.value.inputs)
        && s.compaction.value.finished == s.compaction.value.outputs
      else i.edit.added == i.edit.removed <= s.current.tables && i.edit.added <= s.manifest.version.tables)
  }

  /** Until a background error, memory knows what the MANIFEST says. */
  ghost predicate ManifestOk(s: State) {
    && s.logNumber <= s.manifest.log <= s.memLog
    && s.manifest.next <= s.next
    && (s.imm.Some? && s.imm.value.log < s.manifest.log ==>
      NewestIn(s.imm.value.entries, Carried(s.tables, s.manifest.version.tables)))
    && (s.install.Some? && s.install.value.durable ==> s.manifest.log == s.install.value.log)
    && (!s.error ==>
      if s.install.Some? && s.install.value.durable
      then s.manifest.version == Edited(s.current, s.install.value.edit)
      else s.manifest.version == s.current && s.manifest.log == s.logNumber)
  }

  /** Nothing that is being deleted is needed, by this process or by the next. */
  predicate GarbageOk(s: State) {
    s.garbage.Some? ==>
      && s.building.None? && s.install.None?
      && Below(s.garbage.value.logs, s.logNumber)
      && s.garbage.value.tables !! Live(s)
      && s.garbage.value.tables !! s.manifest.version.tables
      && s.logNumber <= s.manifest.log
  }

  predicate BoundOk(s: State) {
    SLOWDOWN <= s.bound && |s.current.level0| + (if s.imm.Some? then 1 else 0) <= s.bound
  }

  ghost predicate UpOk(s: State) {
    s.phase.Up? ==>
      && MemOk(s) && ReadOk(s) && TablesOk(s) && CompactionOk(s) && BuildOk(s) && InstallOk(s) && ManifestOk(s)
      && GarbageOk(s) && BoundOk(s)
  }

  ghost predicate Inv(s: State) {
    && HistoryOk(s.history, s.logs, s.tables) && DiskOk(s.history, s.logs, s.tables, s.manifest)
    && RecoverOk(s) && UpOk(s)
  }

  // ---- Sets of entries on disk.

  lemma CarriedUpdate(tables: Disk, numbers: set<nat>, n: nat, entries: set<Entry>)
    requires n !in numbers
    ensures Carried(tables[n := entries], numbers) == Carried(tables, numbers)
  {
    var more := tables[n := entries];
    forall e | e in Carried(tables, numbers) ensures e in Carried(more, numbers) {
      var k :| k in numbers && k in tables && e in tables[k];
      assert k in more && more[k] == tables[k];
    }
  }

  lemma CarriedDelete(tables: Disk, numbers: set<nat>, n: nat)
    requires n !in numbers
    ensures Carried(tables - {n}, numbers) == Carried(tables, numbers)
  {
    var less := tables - {n};
    forall e | e in Carried(tables, numbers) ensures e in Carried(less, numbers) {
      var k :| k in numbers && k in tables && e in tables[k];
      assert k in less && less[k] == tables[k];
    }
  }

  lemma CarriedUnion(tables: Disk, a: set<nat>, b: set<nat>)
    ensures Carried(tables, a + b) == Carried(tables, a) + Carried(tables, b)
  {
  }

  lemma CarriedOne(tables: Disk, n: nat)
    requires n in tables
    ensures Carried(tables, {n}) == tables[n]
  {
  }

  lemma CarriedLess(tables: Disk, a: set<nat>, b: set<nat>)
    requires a <= b
    ensures Carried(tables, a) <= Carried(tables, b)
  {
  }

  lemma CarriedKnown(history: set<Entry>, logs: Disk, tables: Disk, numbers: set<nat>)
    requires HistoryOk(history, logs, tables)
    ensures Carried(tables, numbers) <= history
  {
  }

  lemma LogsKnown(history: set<Entry>, logs: Disk, tables: Disk, from: nat)
    requires HistoryOk(history, logs, tables)
    ensures LogsFrom(logs, from) <= history
  {
  }

  lemma LogsFromAppend(logs: Disk, from: nat, n: nat, b: set<Entry>)
    requires n in logs && from <= n
    ensures LogsFrom(logs[n := logs[n] + b], from) == LogsFrom(logs, from) + b
  {
    var more := logs[n := logs[n] + b];
    forall e | e in LogsFrom(logs, from) + b ensures e in LogsFrom(more, from) {
      if e in b {
        assert n in more && e in more[n];
      } else {
        var k :| k in logs && k >= from && e in logs[k];
        assert k in more && e in more[k];
      }
    }
  }

  lemma LogsFromNew(logs: Disk, from: nat, n: nat)
    requires n !in logs
    ensures LogsFrom(logs[n := {}], from) == LogsFrom(logs, from)
  {
    var more := logs[n := {}];
    forall e | e in LogsFrom(logs, from) ensures e in LogsFrom(more, from) {
      var k :| k in logs && k >= from && e in logs[k];
      assert k in more && e in more[k];
    }
  }

  lemma LogsFromDelete(logs: Disk, from: nat, n: nat)
    requires n < from
    ensures LogsFrom(logs, from) == LogsFrom(logs - {n}, from)
  {
    var less := logs - {n};
    forall e | e in LogsFrom(logs, from) ensures e in LogsFrom(less, from) {
      var k :| k in logs && k >= from && e in logs[k];
      assert k in less && less[k] == logs[k];
    }
  }

  lemma LogsFromTop(logs: Disk, n: nat)
    requires Top(logs, n)
    ensures LogsFrom(logs, n) == logs[n]
  {
  }

  lemma LogsFromLess(logs: Disk, a: nat, b: nat)
    requires a <= b
    ensures LogsFrom(logs, b) <= LogsFrom(logs, a)
  {
  }

  lemma LogsFromHas(logs: Disk, from: nat, n: nat)
    requires n in logs && n >= from
    ensures logs[n] <= LogsFrom(logs, from)
  {
  }

  lemma HeldMore(held: multiset<Version>, v: Version)
    ensures HeldTables(held + multiset{v}) == HeldTables(held) + v.tables
  {
  }

  lemma HeldLess(held: multiset<Version>, v: Version)
    ensures HeldTables(held - multiset{v}) <= HeldTables(held)
  {
  }

  // ---- What keeps reads.

  lemma StampedWithin(S: set<Entry>, H: set<Entry>)
    requires S <= H && R.Stamped(H)
    ensures R.Stamped(S)
  {
  }

  /** A batch appended to the last log is read alike everywhere. */
  lemma AppendSame(history: set<Entry>, logs: Disk, tables: Disk, numbers: set<nat>, log: nat, n: nat, b: set<Entry>)
    requires HistoryOk(history, logs, tables) && Same(Data(tables, numbers, logs, log), history)
    requires n in logs && log <= n && Older(history, b) && R.Stamped(b)
    ensures Same(Data(tables, numbers, logs[n := logs[n] + b], log), history + b)
  {
    var D := Data(tables, numbers, logs, log);
    CarriedKnown(history, logs, tables, numbers);
    LogsKnown(history, logs, tables, log);
    LogsFromAppend(logs, log, n, b);
    assert Data(tables, numbers, logs[n := logs[n] + b], log) == D + b;
    assert R.Stamped(D + history + b);
    hide Data, HistoryOk, R.Agree, R.Stamped;
    forall u ensures R.Agree(D + b, history + b, u, MAX_SEQUENCE) { R.NewerBatch(D, history, b, u, MAX_SEQUENCE); }
  }

  /** A pruned memtable's table in the place of the memtable. */
  lemma PruneSame(X: set<Entry>, list: seq<Entry>, bound: Sequence, history: set<Entry>)
    requires Sorted(list) && R.Stamped(history) && X + Elems(list) <= history && Same(X + Elems(list), history)
    ensures Same(X + Elems(Pruned(list, bound, |list|)), history)
  {
    StampedWithin(X + Elems(list), history);
    hide R.Agree, R.Stamped, Pruned;
    forall u ensures R.Agree(X + Elems(Pruned(list, bound, |list|)), history, u, MAX_SEQUENCE) {
      PruneSafe(X, list, bound, u, MAX_SEQUENCE);
      R.AgreeThrough(X + Elems(Pruned(list, bound, |list|)), X + Elems(list), history, u, MAX_SEQUENCE);
    }
  }

  lemma PruneKeepsNewest(list: seq<Entry>, bound: Sequence)
    requires Sorted(list) && R.Stamped(Elems(list))
    ensures Elems(Pruned(list, bound, |list|)) <= Elems(list)
    ensures NewestIn(Elems(list), Elems(Pruned(list, bound, |list|)))
  {
    PrunedElems(list, bound, |list|);
    forall u, e | R.Newest(Elems(list), u, MAX_SEQUENCE, e) ensures e in Elems(Pruned(list, bound, |list|)) {
      var i :| 0 <= i < |list| && e == list[i];
      if Hidden(list, bound, i) { HiddenNotNewest(list, bound, i, u, MAX_SEQUENCE); }
    }
  }

  /** Outputs in the place of inputs. */
  lemma CompactSame(X: set<Entry>, list: seq<Entry>, bound: Sequence, base: iset<UserKey>, history: set<Entry>)
    requires Sorted(list) && R.Stamped(history) && X + Elems(list) <= history && Same(X + Elems(list), history)
    requires NothingOlderBeside(X, list, base)
    ensures Same(X + Elems(Compacted(list, bound, base, |list|)), history)
  {
    StampedWithin(X + Elems(list), history);
    hide R.Agree, R.Stamped, Compacted;
    forall u ensures R.Agree(X + Elems(Compacted(list, bound, base, |list|)), history, u, MAX_SEQUENCE) {
      CompactSafe(X, list, bound, base, u, MAX_SEQUENCE);
      R.AgreeThrough(X + Elems(Compacted(list, bound, base, |list|)), X + Elems(list), history, u, MAX_SEQUENCE);
    }
  }

  /** Parts of I come and go unseen beside a set that has the newest of I. */
  lemma InnerSame(X: set<Entry>, I: set<Entry>, A: set<Entry>, B: set<Entry>, history: set<Entry>)
    requires A <= I && B <= I && R.Stamped(history) && X + I <= history && NewestIn(I, X) && Same(X + A, history)
    ensures Same(X + B, history)
  {
    StampedWithin(X + I, history);
    hide R.Agree, R.Stamped;
    forall u ensures R.Agree(X + B, history, u, MAX_SEQUENCE) {
      R.InnerUnseen(X, I, A, u, MAX_SEQUENCE);
      R.InnerUnseen(X, I, B, u, MAX_SEQUENCE);
      R.AgreeThrough(X + B, X, X + A, u, MAX_SEQUENCE) by { AgreeBack(X + A, X, u); }
      R.AgreeThrough(X + B, X + A, history, u, MAX_SEQUENCE);
    }
  }

  lemma AgreeBack(S: set<Entry>, T: set<Entry>, u: UserKey)
    requires R.Agree(S, T, u, MAX_SEQUENCE)
    ensures R.Agree(T, S, u, MAX_SEQUENCE)
  {
  }

  lemma OlderLess(A: set<Entry>, B: set<Entry>, C: set<Entry>, D: set<Entry>)
    requires Older(A, B) && C <= A && D <= B
    ensures Older(C, D)
  {
  }

  lemma OlderUnion(A: set<Entry>, B: set<Entry>, C: set<Entry>)
    requires Older(A, B) && Older(A, C)
    ensures Older(A, B + C)
  {
  }

  // ---- Writing.

  lemma AppendHistory(history: set<Entry>, logs: Disk, tables: Disk, n: nat, b: set<Entry>)
    requires HistoryOk(history, logs, tables) && Top(logs, n) && Older(history, b) && R.Stamped(b)
    ensures HistoryOk(history + b, logs[n := logs[n] + b], tables)
  {
    var more := logs[n := logs[n] + b];
    forall x, y | x in more && y in more && x < y ensures Older(more[x], more[y]) {
      assert Older(logs[x], logs[y]);
    }
  }

  lemma AppendDisk(history: set<Entry>, logs: Disk, tables: Disk, m: Manifest, n: nat, b: set<Entry>)
    requires HistoryOk(history, logs, tables) && DiskOk(history, logs, tables, m) && Top(logs, n) && m.log <= n
    requires Older(history, b) && R.Stamped(b)
    ensures DiskOk(history + b, logs[n := logs[n] + b], tables, m)
  {
    AppendSame(history, logs, tables, m.version.tables, m.log, n, b);
    CarriedKnown(history, logs, tables, m.version.tables);
    var E := Carried(tables, m.version.tables);
    OlderLess(history, b, E, b);
    OlderUnion(E, logs[n], b);
    var more := logs[n := logs[n] + b];
    forall k | Top(more, k) ensures Older(E, more[k]) { assert n in more; }
    hide Same, Data, Carried, Older, HistoryOk;
  }

  lemma AppendKeeps(s: State, b: set<Entry>)
    requires Inv(s) && Enabled(s, Append(b))
    ensures Inv(Do(s, Append(b)))
  {
    hide HistoryOk, DiskOk, ReadOk, TablesOk, CompactionOk, BuildOk, InstallOk, GarbageOk, BoundOk, NewestIn, Carried,
      LogsFrom, Older, R.Stamped;
    AppendHistory(s.history, s.logs, s.tables, s.memLog, b);
    AppendDisk(s.history, s.logs, s.tables, s.manifest, s.memLog, b);
    AppendRead(s, b);
    AppendMem(s, b);
    SameJobs(s, Do(s, Append(b)));
  }

  lemma AppendMem(s: State, b: set<Entry>)
    requires MemOk(s) && Enabled(s, Append(b))
    ensures MemOk(Do(s, Append(b)))
  {
    hide LogsFrom, Older, R.Stamped;
    LogsFromAppend(s.logs, s.logNumber, s.memLog, b);
  }

  lemma AppendRead(s: State, b: set<Entry>)
    requires Inv(s) && Enabled(s, Append(b))
    ensures ReadOk(Do(s, Append(b))) && InstallOk(Do(s, Append(b)))
  {
    hide DiskOk, CompactionOk, BuildOk, InstallOk, ManifestOk, GarbageOk, Same, Data, Carried, LogsFrom, R.Stamped,
      Older;
    AppendSame(s.history, s.logs, s.tables, s.current.tables, s.logNumber, s.memLog, b);
    CarriedKnown(s.history, s.logs, s.tables, s.current.tables);
    LogsFromAppend(s.logs, s.logNumber, s.memLog, b);
    var E := Carried(s.tables, s.current.tables);
    OlderLess(s.history, b, E, b);
    OlderUnion(E, LogsFrom(s.logs, s.logNumber), b);
    InstallLog(s);
    AppendInstall(s, b);
  }

  lemma InstallLog(s: State)
    requires InstallOk(s) && MemOk(s)
    ensures s.install.Some? ==> s.logNumber <= s.install.value.log <= s.memLog
  {
    hide InstallReads, Carried, NewestIn;
  }

  lemma AppendInstall(s: State, b: set<Entry>)
    requires HistoryOk(s.history, s.logs, s.tables) && InstallOk(s) && Enabled(s, Append(b))
    requires s.install.Some? ==> s.install.value.log <= s.memLog
    ensures InstallOk(Do(s, Append(b)))
  {
    hide HistoryOk, Same, Data, Carried, LogsFrom, NewestIn, R.Stamped, Older;
    if s.install.Some? {
      var i := s.install.value;
      AppendSame(s.history, s.logs, s.tables, Edited(s.current, i.edit).tables, i.log, s.memLog, b);
      if !i.durable {
        AppendSame(s.history, s.logs, s.tables, Edited(s.manifest.version, i.edit).tables, i.log, s.memLog, b);
      }
    }
  }

  lemma InsertKeeps(s: State)
    requires Inv(s) && Enabled(s, Insert)
    ensures Inv(Do(s, Insert))
  {
    hide HistoryOk, DiskOk, CompactionOk, BuildOk, InstallOk, GarbageOk, BoundOk, Same, Data, Carried, LogsFrom,
      NewestIn, Older, TablesOk;
    SameJobs(s, Do(s, Insert));
    SameInstall(s, Do(s, Insert));
  }

  // An install under way does not look at the live memtable.
  lemma SameInstall(s: State, t: State)
    requires t.tables == s.tables && t.current == s.current && t.logs == s.logs && t.history == s.history
    requires t.manifest == s.manifest && t.install == s.install && t.compaction == s.compaction && t.imm == s.imm
    requires t.garbage == s.garbage && t.logNumber == s.logNumber && t.memLog == s.memLog && s.next <= t.next
    ensures InstallOk(s) ==> InstallOk(t)
  {
    hide Same, Data, Carried, NewestIn;
  }

  lemma SwitchKeeps(s: State)
    requires Inv(s) && Enabled(s, Switch)
    ensures Inv(Do(s, Switch))
  {
    hide HistoryOk, DiskOk, ReadOk, InstallOk, Same, Carried, LogsFrom, NewestIn, Older;
    var t := Do(s, Switch);
    NewLogDisk(s.history, s.logs, s.tables, s.manifest, s.next);
    LogsFromNew(s.logs, s.logNumber, s.next);
    SwitchRead(s);
    hide TablesOk, BuildOk, GarbageOk, CompactionOk;
    SwitchJobs(s);
  }

  lemma SwitchRead(s: State)
    requires Inv(s) && Enabled(s, Switch)
    ensures ReadOk(Do(s, Switch)) && InstallOk(Do(s, Switch))
  {
    hide HistoryOk, DiskOk, CompactionOk, BuildOk, GarbageOk, BoundOk, Same, Carried, LogsFrom, NewestIn, Older;
    LogsFromNew(s.logs, s.logNumber, s.next);
    if s.install.Some? { LogsFromNew(s.logs, s.install.value.log, s.next); }
  }

  lemma SwitchJobs(s: State)
    requires TablesOk(s) && CompactionOk(s) && BuildOk(s) && GarbageOk(s) && Enabled(s, Switch)
    ensures var t := Do(s, Switch); TablesOk(t) && CompactionOk(t) && BuildOk(t) && GarbageOk(t)
  {
    hide Carried, Older, HeldTables;
  }

  lemma NewLogDisk(history: set<Entry>, logs: Disk, tables: Disk, m: Manifest, n: nat)
    requires HistoryOk(history, logs, tables) && DiskOk(history, logs, tables, m) && forall k :: k in logs ==> k < n
    ensures HistoryOk(history, logs[n := {}], tables) && DiskOk(history, logs[n := {}], tables, m)
    ensures Top(logs[n := {}], n)
  {
    LogsFromNew(logs, m.log, n);
    var more := logs[n := {}];
    forall a, b | a in more && b in more && a < b ensures Older(more[a], more[b]) { }
    forall k | Top(more, k) ensures Older(Carried(tables, m.version.tables), more[k]) { assert n in more; }
    hide Same, LogsFrom, Carried;
  }

  // ---- References.

  lemma TakeRefKeeps(s: State)
    requires Inv(s) && Enabled(s, TakeRef)
    ensures Inv(Do(s, TakeRef))
  {
    hide Inv, HeldTables;
    HeldMore(s.held, s.current);
    RefsKeep(s, Do(s, TakeRef));
  }

  lemma DropRefKeeps(s: State, v: Version)
    requires Inv(s) && Enabled(s, DropRef(v))
    ensures Inv(Do(s, DropRef(v)))
  {
    hide Inv, HeldTables;
    HeldLess(s.held, v);
    RefsKeep(s, Do(s, DropRef(v)));
  }

  // References come and go, but for the one a compaction holds.
  lemma RefsKeep(s: State, t: State)
    requires Inv(s) && s.phase.Up? && t == s.(held := t.held)
    requires HeldTables(t.held) <= HeldTables(s.held) + s.current.tables
    requires s.compaction.Some? && s.compaction.value.base in s.held ==> s.compaction.value.base in t.held
    ensures Inv(t)
  {
    hide HistoryOk, DiskOk, MemOk, ReadOk, ManifestOk, CompactionOk, BuildOk, InstallOk, TablesOk, GarbageOk,
      HeldTables;
    SameMemory(s, t);
    SameInstall(s, t);
    RefsJobs(s, t);
  }

  lemma RefsJobs(s: State, t: State)
    requires TablesOk(s) && CompactionOk(s) && BuildOk(s) && GarbageOk(s) && t == s.(held := t.held)
    requires HeldTables(t.held) <= HeldTables(s.held) + s.current.tables
    requires s.compaction.Some? && s.compaction.value.base in s.held ==> s.compaction.value.base in t.held
    ensures TablesOk(t) && CompactionOk(t) && BuildOk(t) && GarbageOk(t)
  {
    hide Carried, Older, HeldTables;
  }

  // What a step that leaves tables, versions and jobs alone leaves alone.
  lemma SameJobs(s: State, t: State)
    requires t.tables == s.tables && t.current == s.current && t.held == s.held && t.pending == s.pending
    requires t.next == s.next && t.manifest == s.manifest && t.install == s.install && t.compaction == s.compaction
    requires t.building == s.building && t.imm == s.imm && t.garbage == s.garbage && t.logNumber == s.logNumber
    requires t.bound == s.bound
    ensures TablesOk(s) ==> TablesOk(t)
    ensures CompactionOk(s) ==> CompactionOk(t)
    ensures BuildOk(s) ==> BuildOk(t)
    ensures GarbageOk(s) ==> GarbageOk(t)
    ensures BoundOk(s) ==> BoundOk(t)
  {
    hide Carried, Older, HeldTables;
  }

  // What a step that leaves disk, memtables and version alone leaves alone.
  lemma SameMemory(s: State, t: State)
    requires t.logs == s.logs && t.tables == s.tables && t.history == s.history
    requires t.mem == s.mem && t.writing == s.writing && t.imm == s.imm && t.memLog == s.memLog && s.next <= t.next
    requires t.logNumber == s.logNumber && t.current == s.current
    ensures MemOk(s) ==> MemOk(t)
    ensures ReadOk(s) ==> ReadOk(t)
    ensures ManifestOk(s) && t.manifest == s.manifest && t.install == s.install && (s.error ==> t.error) ==>
      ManifestOk(t)
  {
    hide Same, Data, Carried, LogsFrom, NewestIn, Older;
  }

  // ---- Flushing.

  lemma StartFlushKeeps(s: State)
    requires Inv(s) && Enabled(s, StartFlush)
    ensures Inv(Do(s, StartFlush))
  {
    hide HistoryOk, DiskOk, MemOk, ReadOk, ManifestOk, Carried, LogsFrom, NewestIn, Older, HeldTables;
    SameMemory(s, Do(s, StartFlush));
    NewNumber(s);
  }

  /** The next number is no table's that a version names. */
  lemma NewNumber(s: State)
    requires Inv(s) && s.phase.Up?
    ensures s.next !in s.current.tables && s.next !in HeldTables(s.held) && s.next !in s.manifest.version.tables
    ensures s.next !in s.pending
  {
    hide HistoryOk, MemOk, ReadOk, CompactionOk, BuildOk, InstallOk, GarbageOk, Same, Carried, Older, NewestIn,
      HeldTables;
  }

  // The logs from the immutable memtable's on, or some of them, are the two memtables.
  lemma LogsOfMem(s: State, log: nat)
    requires MemOk(s) && s.logNumber <= log <= s.memLog
    ensures s.mem + s.writing <= LogsFrom(s.logs, log) <= s.mem + s.writing + ImmEntries(s)
    ensures s.imm.None? || log <= s.imm.value.log ==> LogsFrom(s.logs, log) == s.mem + s.writing + ImmEntries(s)
    ensures LogsFrom(s.logs, s.memLog) == s.mem + s.writing
  {
    LogsFromLess(s.logs, s.logNumber, log);
    LogsFromTop(s.logs, s.memLog);
    LogsFromLess(s.logs, log, s.memLog);
    if s.imm.Some? && log <= s.imm.value.log { LogsFromHas(s.logs, log, s.imm.value.log); }
    hide LogsFrom;
  }

  /** The table with what pruning keeps of the memtable I, and log numbers from the next memtable's on. */
  lemma FlushedSame(history: set<Entry>, E: set<Entry>, L: set<Entry>, rest: set<Entry>, list: seq<Entry>,
    bound: Sequence)
    requires R.Stamped(history) && E + rest + Elems(list) <= history && Sorted(list) && Same(E + L, history)
    requires || L == rest + Elems(list)
             || (rest <= L <= rest + Elems(list) && NewestIn(Elems(list), E))
    ensures Same(E + Elems(Pruned(list, bound, |list|)) + rest, history)
  {
    var K := Elems(Pruned(list, bound, |list|));
    var X := E + rest;
    assert E + K + rest == X + K;
    if L == rest + Elems(list) {
      assert E + L == X + Elems(list);
      PruneSame(X, list, bound, history);
    } else {
      StampedWithin(Elems(list), history);
      PruneKeepsNewest(list, bound);
      var A := L - rest;
      assert E + L == X + A;
      NewestMore(Elems(list), E, X);
      InnerSame(X, Elems(list), A, K, history);
    }
  }

  lemma NewestMore(I: set<Entry>, S: set<Entry>, T: set<Entry>)
    requires NewestIn(I, S) && S <= T
    ensures NewestIn(I, T)
  {
  }

  // The tables after the flush, and what a version with the new one holds.
  lemma FlushedTables(tables: Disk, numbers: set<nat>, n: nat, K: set<Entry>)
    requires n !in numbers
    ensures var more, added := WithTable(tables, n, K), TableMade(n, K);
      && Carried(more, numbers) == Carried(tables, numbers)
      && Carried(more, added) == K && Carried(more, numbers + added) == Carried(tables, numbers) + K
  {
    hide Carried;
    CarriedUpdate(tables, numbers, n, K);
    var more := tables[n := K];
    CarriedOne(more, n);
    CarriedUnion(more, numbers, {n});
    CarriedUnion(tables, numbers, {});
    NoneCarried(tables);
    assert numbers + {} == numbers;
  }

  lemma NoneCarried(tables: Disk)
    ensures Carried(tables, {}) == {}
  {
  }

  lemma FinishFlushKeeps(s: State, list: seq<Entry>, bound: Sequence, level0: bool)
    requires Inv(s) && Enabled(s, FinishFlush(list, bound, level0))
    ensures Inv(Do(s, FinishFlush(list, bound, level0)))
  {
    hide HistoryOk, DiskOk, MemOk, ReadOk, CompactionOk, InstallOk, ManifestOk, Pruned, Carried, LogsFrom, NewestIn,
      Older, Same, HeldTables, Sorted;
    FlushHistory(s, list, bound);
    FlushDisk(s, list, bound, level0);
    FlushInstall(s, list, bound, level0);
    FlushCompaction(s, list, bound, level0);
  }

  lemma FlushHistory(s: State, list: seq<Entry>, bound: Sequence)
    requires Inv(s) && Enabled(s, FinishFlush(list, bound, false))
    ensures s.imm.value.entries <= s.history && R.Stamped(s.history) && R.Stamped(s.imm.value.entries)
    ensures Elems(Pruned(list, bound, |list|)) <= s.imm.value.entries
    ensures NewestIn(s.imm.value.entries, Elems(Pruned(list, bound, |list|)))
    ensures HistoryOk(s.history, s.logs, s.tables[s.building.value := Elems(Pruned(list, bound, |list|))])
  {
    hide DiskOk, ReadOk, CompactionOk, BuildOk, InstallOk, ManifestOk, GarbageOk, TablesOk, Pruned, NewestIn, Sorted;
    assert s.logs[s.imm.value.log] <= s.history;
    StampedWithin(s.imm.value.entries, s.history);
    PruneKeepsNewest(list, bound);
  }

  lemma FlushDisk(s: State, list: seq<Entry>, bound: Sequence, level0: bool)
    requires Inv(s) && Enabled(s, FinishFlush(list, bound, level0))
    ensures var t := Do(s, FinishFlush(list, bound, level0));
      DiskOk(t.history, t.logs, t.tables, t.manifest) && MemOk(t) && ReadOk(t) && ManifestOk(t)
  {
    hide HistoryOk, CompactionOk, InstallOk, GarbageOk, Pruned, Carried, LogsFrom, NewestIn, Older, Same, HeldTables,
      Sorted;
    var K := Elems(Pruned(list, bound, |list|));
    FlushedTables(s.tables, s.current.tables, s.building.value, K);
    FlushedTables(s.tables, s.manifest.version.tables, s.building.value, K);
  }

  lemma FlushCompaction(s: State, list: seq<Entry>, bound: Sequence, level0: bool)
    requires Inv(s) && Enabled(s, FinishFlush(list, bound, level0))
    ensures CompactionOk(Do(s, FinishFlush(list, bound, level0)))
  {
    hide HistoryOk, DiskOk, MemOk, ReadOk, InstallOk, GarbageOk, ManifestOk, Pruned, Carried, NewestIn, Older, Same,
      HeldTables, Sorted;
    if s.compaction.Some? {
      var K, n, c := Elems(Pruned(list, bound, |list|)), s.building.value, s.compaction.value;
      FlushedTables(s.tables, c.inputs, n, K);
      FlushedTables(s.tables, c.finished, n, K);
      FlushedTables(s.tables, s.manifest.version.tables - s.current.tables, n, K);
    }
  }

  lemma FlushInstall(s: State, list: seq<Entry>, bound: Sequence, level0: bool)
    requires Inv(s) && Enabled(s, FinishFlush(list, bound, level0))
    ensures InstallOk(Do(s, FinishFlush(list, bound, level0)))
  {
    hide *;
    FlushStarted(s, list, bound, level0);
    FlushShape(s);
    FlushHistory(s, list, bound);
    FlushRead(s, list, bound);
    FlushManifest(s, list, bound);
    var K := Elems(Pruned(list, bound, |list|));
    FlushedTables(s.tables, s.current.tables, s.building.value, K);
    FlushedTables(s.tables, s.manifest.version.tables, s.building.value, K);
    FlushEffect(s, list, bound, level0);
    FlushInstalls(s, Do(s, FinishFlush(list, bound, level0)), level0, K);
  }

  lemma FlushEffect(s: State, list: seq<Entry>, bound: Sequence, level0: bool)
    requires Enabled(s, FinishFlush(list, bound, level0))
    ensures var t, n, K := Do(s, FinishFlush(list, bound, level0)), s.building.value,
      Elems(Pruned(list, bound, |list|));
      && var added := TableMade(n, K);
      && t == s.(building := None, pending := t.pending, tables := WithTable(s.tables, n, K), install := t.install)
      && t.install == Some(Install(Edit(added, if level0 then added else {}, {}), s.memLog, s.next, true, false))
  {
    hide Pruned, Elems, Sorted, WithTable, TableMade;
  }

  lemma FlushInstalls(s: State, t: State, level0: bool, K: set<Entry>)
    requires s.building.Some? && s.imm.Some? && s.garbage.None? && K <= s.imm.value.entries
    requires NewestIn(s.imm.value.entries, K)
    requires s.memLog < s.next && s.logNumber <= s.memLog && Below(s.current.tables, s.next)
    requires Below(s.manifest.version.tables, s.next) && s.building.value < s.next
    requires s.compaction.Some? ==> s.building.value !in s.compaction.value.outputs
    requires var more, added := WithTable(s.tables, s.building.value, K), TableMade(s.building.value, K);
      && Carried(more, added) == K
      && Carried(more, s.current.tables + added) == Carried(s.tables, s.current.tables) + K
      && Carried(more, s.manifest.version.tables + added) == Carried(s.tables, s.manifest.version.tables) + K
      && t == s.(building := None, pending := t.pending, tables := more, install := t.install)
      && t.install == Some(Install(Edit(added, if level0 then added else {}, {}), s.memLog, s.next, true, false))
    requires Same(Carried(s.tables, s.current.tables) + K + LogsFrom(s.logs, s.memLog), s.history)
    requires Same(Carried(s.tables, s.manifest.version.tables) + K + LogsFrom(s.logs, s.memLog), s.history)
    ensures InstallOk(t)
  {
    hide Carried, LogsFrom, NewestIn, Same, InstallShape, WithTable, TableMade;
    var added := TableMade(s.building.value, K);
    assert s.current.tables - {} + added == s.current.tables + added;
    assert s.manifest.version.tables - {} + added == s.manifest.version.tables + added;
    FlushInstallShape(s, t, level0, K);
  }

  lemma FlushInstallShape(s: State, t: State, level0: bool, K: set<Entry>)
    requires s.building.Some? && s.imm.Some? && s.garbage.None? && K <= s.imm.value.entries
    requires NewestIn(s.imm.value.entries, K)
    requires s.memLog < s.next && s.logNumber <= s.memLog && Below(s.current.tables, s.next)
    requires Below(s.manifest.version.tables, s.next) && s.building.value < s.next
    requires s.compaction.Some? ==> s.building.value !in s.compaction.value.outputs
    requires var more, added := WithTable(s.tables, s.building.value, K), TableMade(s.building.value, K);
      && Carried(more, added) == K
      && t == s.(building := None, pending := t.pending, tables := more, install := t.install)
      && t.install == Some(Install(Edit(added, if level0 then added else {}, {}), s.memLog, s.next, true, false))
    ensures InstallShape(t, t.install.value)
  {
    hide Carried, NewestIn;
    assert |TableMade(s.building.value, K)| <= 1;
  }

  lemma FlushStarted(s: State, list: seq<Entry>, bound: Sequence, level0: bool)
    requires Inv(s) && Enabled(s, FinishFlush(list, bound, level0))
    ensures Enabled(s, FinishFlush(list, bound, false))
    ensures s.phase.Up? && s.building.Some? && s.imm.Some? && s.garbage.None?
  {
    hide HistoryOk, DiskOk, MemOk, ReadOk, CompactionOk, InstallOk, ManifestOk, TablesOk, GarbageOk;
  }

  lemma FlushShape(s: State)
    requires Inv(s) && s.phase.Up? && s.building.Some?
    ensures s.memLog < s.next && s.logNumber <= s.memLog && Below(s.current.tables, s.next)
    ensures Below(s.manifest.version.tables, s.next) && s.building.value < s.next
    ensures s.compaction.Some? ==> s.building.value !in s.compaction.value.outputs
    ensures s.building.value !in s.current.tables && s.building.value !in s.manifest.version.tables
  {
    hide HistoryOk, ReadOk, CompactionOk, InstallOk, GarbageOk, Same, Carried, Older, NewestIn, HeldTables, LogsFrom;
  }

  lemma FlushRead(s: State, list: seq<Entry>, bound: Sequence)
    requires Inv(s) && Enabled(s, FinishFlush(list, bound, false))
    ensures Same(Carried(s.tables, s.current.tables) + Elems(Pruned(list, bound, |list|)) + LogsFrom(s.logs, s.memLog),
      s.history)
  {
    hide Pruned, Carried, LogsFrom, NewestIn, Older, Same, Sorted, R.Stamped, CompactionOk, BuildOk, InstallOk, DiskOk;
    LogsOfMem(s, s.logNumber);
    Known(s, s.current.tables);
    FlushedSame(s.history, Carried(s.tables, s.current.tables), LogsFrom(s.logs, s.logNumber), s.mem + s.writing, list,
      bound);
  }

  lemma FlushManifest(s: State, list: seq<Entry>, bound: Sequence)
    requires Inv(s) && Enabled(s, FinishFlush(list, bound, false))
    ensures Same(Carried(s.tables, s.manifest.version.tables) + Elems(Pruned(list, bound, |list|))
                 + LogsFrom(s.logs, s.memLog), s.history)
  {
    hide Pruned, Carried, LogsFrom, NewestIn, Older, Same, Sorted, R.Stamped, CompactionOk, BuildOk, InstallOk, ReadOk;
    LogsOfMem(s, s.manifest.log);
    Known(s, s.manifest.version.tables);
    FlushedSame(s.history, Carried(s.tables, s.manifest.version.tables), LogsFrom(s.logs, s.manifest.log),
                s.mem + s.writing, list, bound);
  }

  // Nothing was made up.
  lemma Known(s: State, numbers: set<nat>)
    requires Inv(s) && s.phase.Up?
    ensures R.Stamped(s.history) && Carried(s.tables, numbers) + s.mem + s.writing + ImmEntries(s) <= s.history
  {
    hide Carried, LogsFrom, DiskOk, ReadOk, CompactionOk, BuildOk, InstallOk, ManifestOk, GarbageOk;
    CarriedKnown(s.history, s.logs, s.tables, numbers);
    LogsKnown(s.history, s.logs, s.tables, s.logNumber);
  }

  // ---- Compacting.

  lemma StartCompactionKeeps(s: State, inputs: set<nat>)
    requires Inv(s) && Enabled(s, StartCompaction(inputs))
    ensures Inv(Do(s, StartCompaction(inputs)))
  {
    hide HistoryOk, DiskOk, MemOk, ReadOk, Same, Data, Carried, LogsFrom, NewestIn, Older, HeldTables;
    HeldMore(s.held, s.current);
    SameMemory(s, Do(s, StartCompaction(inputs)));
    NoneCarried(s.tables);
    assert s.manifest.version.tables - s.current.tables == {};
    NoneOlder(Carried(s.tables, inputs));
  }

  lemma NoneOlder(A: set<Entry>)
    ensures Older(A, {}) && Older({}, A)
  {
  }

  lemma OpenOutputKeeps(s: State)
    requires Inv(s) && Enabled(s, OpenOutput)
    ensures Inv(Do(s, OpenOutput))
  {
    hide HistoryOk, DiskOk, MemOk, ReadOk, ManifestOk, Same, Data, Carried, LogsFrom, NewestIn, Older, HeldTables;
    NewNumber(s);
    SameMemory(s, Do(s, OpenOutput));
  }

  lemma FinishOutputKeeps(s: State, n: nat, entries: set<Entry>)
    requires Inv(s) && Enabled(s, FinishOutput(n, entries))
    ensures Inv(Do(s, FinishOutput(n, entries)))
  {
    hide HistoryOk, DiskOk, MemOk, ReadOk, CompactionOk, ManifestOk, Carried, LogsFrom, NewestIn, Older, Same,
      HeldTables;
    OutputApart(s, n);
    OutputDisk(s, n, entries);
    OutputCompaction(s, n, entries);
  }

  // An output being written is no version's table.
  lemma OutputApart(s: State, n: nat)
    requires CompactionOk(s) && s.compaction.Some? && s.install.None? && n in s.compaction.value.outputs
    ensures n !in s.current.tables && n !in s.manifest.version.tables && n in s.pending
    ensures n !in HeldTables(s.held)
  {
    hide Carried, Older, HeldTables;
  }

  lemma OutputDisk(s: State, n: nat, entries: set<Entry>)
    requires Inv(s) && Enabled(s, FinishOutput(n, entries)) && n !in s.current.tables && n !in s.manifest.version.tables
    ensures var t := Do(s, FinishOutput(n, entries));
      && HistoryOk(t.history, t.logs, t.tables) && DiskOk(t.history, t.logs, t.tables, t.manifest)
      && MemOk(t) && ReadOk(t) && ManifestOk(t)
  {
    hide CompactionOk, BuildOk, InstallOk, GarbageOk, Carried, LogsFrom, NewestIn, Older, Same, R.Stamped;
    CarriedUpdate(s.tables, s.current.tables, n, entries);
    CarriedUpdate(s.tables, s.manifest.version.tables, n, entries);
    CarriedKnown(s.history, s.logs, s.tables, s.compaction.value.inputs);
  }

  lemma OutputCompaction(s: State, n: nat, entries: set<Entry>)
    requires Inv(s) && Enabled(s, FinishOutput(n, entries)) && n !in s.current.tables && n !in s.manifest.version.tables
    ensures CompactionOk(Do(s, FinishOutput(n, entries)))
  {
    hide HistoryOk, DiskOk, MemOk, ReadOk, ManifestOk, BuildOk, InstallOk, GarbageOk, Carried, Older, HeldTables;
    var c := s.compaction.value;
    var more := s.tables[n := entries];
    CarriedUpdate(s.tables, c.inputs, n, entries);
    CarriedUpdate(s.tables, c.finished, n, entries);
    CarriedUpdate(s.tables, s.manifest.version.tables - s.current.tables, n, entries);
    CarriedOne(more, n);
    CarriedUnion(more, c.finished, {n});
  }

  /** Outputs in the place of inputs, in any version that has the inputs. */
  lemma SwappedSame(s: State, tables: set<nat>, L: set<Entry>, list: seq<Entry>, bound: Sequence, base: iset<UserKey>)
    requires HistoryOk(s.history, s.logs, s.tables) && s.compaction.Some? && Sorted(list)
    requires var c := s.compaction.value;
      && c.inputs <= tables && c.outputs !! tables && Elems(list) == Carried(s.tables, c.inputs)
      && Carried(s.tables, c.outputs) == Elems(Compacted(list, bound, base, |list|))
      && NothingOlderBeside(Carried(s.tables, tables - c.inputs) + L, list, base)
    requires L <= s.history && Same(Carried(s.tables, tables) + L, s.history)
    ensures Same(Carried(s.tables, tables - s.compaction.value.inputs + s.compaction.value.outputs) + L, s.history)
  {
    var c := s.compaction.value;
    var rest := Carried(s.tables, tables - c.inputs);
    var X := rest + L;
    CarriedUnion(s.tables, tables - c.inputs, c.inputs);
    CarriedUnion(s.tables, tables - c.inputs, c.outputs);
    assert tables - c.inputs + c.inputs == tables;
    CarriedKnown(s.history, s.logs, s.tables, tables);
    assert R.Stamped(s.history);
    hide Carried, Compacted, Same, NothingOlderBeside, Sorted, R.Stamped, HistoryOk, Elems;
    assert X + Elems(list) == Carried(s.tables, tables) + L;
    CompactSame(X, list, bound, base, s.history);
    assert X + Carried(s.tables, c.outputs) == Carried(s.tables, tables - c.inputs + c.outputs) + L;
  }

  lemma BesideMore(A: set<Entry>, B: set<Entry>, list: seq<Entry>, base: iset<UserKey>)
    requires NothingOlderBeside(A, list, base) && Older(Elems(list), B)
    ensures NothingOlderBeside(A + B, list, base)
  {
    forall e | e in list ensures e in Elems(list) { }
  }

  lemma BesideLess(A: set<Entry>, B: set<Entry>, list: seq<Entry>, base: iset<UserKey>)
    requires NothingOlderBeside(A, list, base) && B <= A
    ensures NothingOlderBeside(B, list, base)
  {
  }

  lemma FinishCompactionKeeps(s: State, list: seq<Entry>, bound: Sequence, base: iset<UserKey>)
    requires Inv(s) && Enabled(s, FinishCompaction(list, bound, base))
    ensures Inv(Do(s, FinishCompaction(list, bound, base)))
  {
    hide HistoryOk, DiskOk, MemOk, ReadOk, Compacted, Carried, LogsFrom, NewestIn, Older, Same, HeldTables, Sorted,
      Elems, NothingOlderBeside, InstallReads, InstallShape;
    SwapCurrent(s, list, bound, base);
    SwapManifest(s, list, bound, base);
    var t := Do(s, FinishCompaction(list, bound, base));
    SwapShape(s, t);
    SameMemory(s, t);
    hide CompactionOk;
    SameCompaction(s, t);
    assert InstallReads(t, t.install.value) by { SwapReads(s, t); }
  }

  // What a compaction knows does not depend on an install that is not in the MANIFEST.
  lemma SameCompaction(s: State, t: State)
    requires CompactionOk(s) && s.install.None? && t == s.(install := t.install)
    requires t.install.Some? ==> !t.install.value.durable
    ensures CompactionOk(t)
  {
    hide Carried, Older, HeldTables;
  }

  lemma SwapReads(s: State, t: State)
    requires s.compaction.Some? && t.install.Some? && t == s.(install := t.install)
    requires var c, i := s.compaction.value, t.install.value;
      && i.edit.added == c.outputs && i.edit.removed == c.inputs && i.log == s.logNumber
      && Same(Carried(s.tables, s.current.tables - c.inputs + c.outputs) + LogsFrom(s.logs, s.logNumber), s.history)
      && Same(Carried(s.tables, s.manifest.version.tables - c.inputs + c.outputs) + LogsFrom(s.logs, s.logNumber),
        s.history)
    ensures InstallReads(t, t.install.value)
  {
    hide Carried, LogsFrom, Same;
  }

  lemma SwapShape(s: State, t: State)
    requires Inv(s) && Idle(s) && s.compaction.Some? && s.compaction.value.finished == s.compaction.value.outputs
    requires t == s.(install := t.install)
    requires t.install == Some(Install(Edit(s.compaction.value.outputs, {}, s.compaction.value.inputs), s.logNumber,
      s.next,
                                       false, false))
    ensures InstallShape(t, t.install.value)
  {
    hide HistoryOk, ReadOk, Same, Carried, LogsFrom, NewestIn, Older, HeldTables;
  }

  lemma SwapCurrent(s: State, list: seq<Entry>, bound: Sequence, base: iset<UserKey>)
    requires s.compaction.Some? && Inv(s) && Enabled(s, FinishCompaction(list, bound, base))
    ensures var c := s.compaction.value;
      Same(Carried(s.tables, s.current.tables - c.inputs + c.outputs) + LogsFrom(s.logs, s.logNumber), s.history)
  {
    hide DiskOk, MemOk, ManifestOk, BuildOk, InstallOk, Compacted, Carried, LogsFrom, NewestIn, Same, Sorted, Elems,
      NothingOlderBeside, HistoryOk, Older, HeldTables;
    var c, L := s.compaction.value, LogsFrom(s.logs, s.logNumber);
    CarriedLess(s.tables, c.inputs, s.current.tables);
    OlderLess(Carried(s.tables, s.current.tables), L, Elems(list), L);
    BesideMore(Carried(s.tables, s.current.tables - c.inputs), L, list, base);
    LogsKnown(s.history, s.logs, s.tables, s.logNumber);
    SwappedSame(s, s.current.tables, L, list, bound, base);
  }

  lemma SwapManifest(s: State, list: seq<Entry>, bound: Sequence, base: iset<UserKey>)
    requires s.compaction.Some? && Inv(s) && Enabled(s, FinishCompaction(list, bound, base))
    ensures var c := s.compaction.value;
      Same(Carried(s.tables, s.manifest.version.tables - c.inputs + c.outputs) + LogsFrom(s.logs, s.logNumber),
        s.history)
  {
    hide DiskOk, MemOk, ManifestOk, BuildOk, InstallOk, Compacted, Carried, LogsFrom, NewestIn, Same, Sorted, Elems,
      NothingOlderBeside, HistoryOk, Older, HeldTables;
    var c, L := s.compaction.value, LogsFrom(s.logs, s.logNumber);
    BesideManifest(s, list, base);
    LogsKnown(s.history, s.logs, s.tables, s.logNumber);
    ManifestBack(s);
    SwappedSame(s, s.manifest.version.tables, L, list, bound, base);
  }

  lemma BesideManifest(s: State, list: seq<Entry>, base: iset<UserKey>)
    requires CompactionOk(s) && ReadOk(s) && s.compaction.Some? && s.install.None?
    requires Elems(list) == Carried(s.tables, s.compaction.value.inputs)
    requires NothingOlderBeside(Carried(s.tables, s.current.tables - s.compaction.value.inputs), list, base)
    ensures NothingOlderBeside(Carried(s.tables, s.manifest.version.tables - s.compaction.value.inputs)
                               + LogsFrom(s.logs, s.logNumber), list, base)
  {
    hide Carried, LogsFrom, Same, NothingOlderBeside, Older, HeldTables, Elems;
    var c, L := s.compaction.value, LogsFrom(s.logs, s.logNumber);
    var mine, theirs := s.current.tables - c.inputs, s.manifest.version.tables - s.current.tables;
    CarriedLess(s.tables, c.inputs, s.current.tables);
    OlderLess(Carried(s.tables, s.current.tables), L, Elems(list), L);
    BesideMore(Carried(s.tables, mine), Carried(s.tables, theirs), list, base);
    BesideMore(Carried(s.tables, mine) + Carried(s.tables, theirs), L, list, base);
    CarriedUnion(s.tables, mine, theirs);
    CarriedLess(s.tables, s.manifest.version.tables - c.inputs, mine + theirs);
    BesideLess(Carried(s.tables, mine) + Carried(s.tables, theirs) + L,
               Carried(s.tables, s.manifest.version.tables - c.inputs) + L, list, base);
  }

  /** A MANIFEST ahead of the process, after a flush that failed, reads the same with the process's logs. */
  lemma ManifestBack(s: State)
    requires Inv(s) && s.phase.Up?
    ensures Same(Carried(s.tables, s.manifest.version.tables) + LogsFrom(s.logs, s.logNumber), s.history)
  {
    hide CompactionOk, BuildOk, InstallOk, GarbageOk, Carried, LogsFrom, NewestIn, Same, Older, R.Stamped;
    var E, rest, I := Carried(s.tables, s.manifest.version.tables), s.mem + s.writing, ImmEntries(s);
    LogsOfMem(s, s.manifest.log);
    LogsOfMem(s, s.logNumber);
    Known(s, s.manifest.version.tables);
    if s.imm.Some? && s.imm.value.log < s.manifest.log {
      var A := LogsFrom(s.logs, s.manifest.log) - rest;
      assert E + LogsFrom(s.logs, s.manifest.log) == (E + rest) + A;
      assert E + LogsFrom(s.logs, s.logNumber) == (E + rest) + I;
      NewestMore(I, E, E + rest);
      InnerSame(E + rest, I, A, I, s.history);
    }
  }

  lemma StartMoveKeeps(s: State, n: nat)
    requires Inv(s) && Enabled(s, StartMove(n))
    ensures Inv(Do(s, StartMove(n)))
  {
    hide HistoryOk, MemOk, ReadOk, Carried, LogsFrom, NewestIn, Older, Same, HeldTables, Data;
    var t := Do(s, StartMove(n));
    SameMemory(s, t);
    assert s.current.tables - {n} + {n} == s.current.tables;
    MemBounds(s);
    assert Same(Data(s.tables, s.current.tables, s.logs, s.logNumber), s.history) by { assert ReadOk(s); }
  }

  lemma MemBounds(s: State)
    requires MemOk(s)
    ensures s.memLog < s.next && s.logNumber <= s.memLog
    ensures s.imm.Some? ==> s.logNumber <= s.imm.value.log < s.memLog
  {
  }

  // ---- The MANIFEST record, written in time or by a write that reports failure.

  /** With the record in the file the disk still reads as the history. */
  lemma WrittenDisk(s: State)
    requires Inv(s) && s.phase.Up? && s.install.Some? && !s.install.value.durable
    ensures DiskOk(s.history, s.logs, s.tables, Written(s.manifest, s.install.value))
  {
    hide HistoryOk, BuildOk, GarbageOk, CompactionOk, MemOk, ReadOk, ManifestOk, Carried, LogsFrom, NewestIn, Older,
      Same, HeldTables;
    WrittenOlder(s);
    WrittenFits(s);
  }

  lemma WrittenFits(s: State)
    requires DiskOk(s.history, s.logs, s.tables, s.manifest) && s.install.Some? && !s.install.value.durable
    requires InstallReads(s, s.install.value) && InstallShape(s, s.install.value) && Top(s.logs, s.memLog)
    requires Older(Carried(s.tables, Edited(s.manifest.version, s.install.value.edit).tables), s.logs[s.memLog])
    ensures DiskOk(s.history, s.logs, s.tables, Written(s.manifest, s.install.value))
  {
    hide Carried, LogsFrom, NewestIn, Older, Same;
    forall n | Top(s.logs, n) ensures n == s.memLog { }
  }

  lemma WrittenOlder(s: State)
    requires Inv(s) && s.phase.Up? && s.install.Some?
    ensures s.memLog in s.logs && Top(s.logs, s.memLog)
    ensures !s.install.value.durable ==>
      Older(Carried(s.tables, Edited(s.manifest.version, s.install.value.edit).tables), s.logs[s.memLog])
    ensures Older(Carried(s.tables, Edited(s.current, s.install.value.edit).tables), s.logs[s.memLog])
  {
    hide BuildOk, GarbageOk, LogsFrom, NewestIn, Same, HeldTables, ManifestOk, Carried, R.Stamped, Older;
    var i := s.install.value;
    AddedOlder(s);
    LogsFromHas(s.logs, s.logNumber, s.memLog);
    OlderLess(Carried(s.tables, s.current.tables), LogsFrom(s.logs, s.logNumber), Carried(s.tables, s.current.tables),
              s.logs[s.memLog]);
    EditedOlder(s.tables, s.manifest.version, i.edit, s.logs[s.memLog]);
    EditedOlder(s.tables, s.current, i.edit, s.logs[s.memLog]);
  }

  // The tables an edit adds are older than the live memtable.
  lemma AddedOlder(s: State)
    requires Inv(s) && s.phase.Up? && s.install.Some?
    ensures s.memLog in s.logs && Older(Carried(s.tables, s.install.value.edit.added), s.logs[s.memLog])
  {
    hide BuildOk, GarbageOk, LogsFrom, NewestIn, Same, HeldTables, ManifestOk, Carried, R.Stamped, Older;
    var i := s.install.value;
    LogsFromHas(s.logs, s.logNumber, s.memLog);
    if i.flush {
      OlderLess(s.logs[s.imm.value.log], s.logs[s.memLog], Carried(s.tables, i.edit.added), s.logs[s.memLog]);
    } else {
      if s.compaction.Some? {
        CarriedLess(s.tables, s.compaction.value.inputs, s.current.tables);
      } else {
        CarriedLess(s.tables, i.edit.added, s.current.tables);
      }
      OlderLess(Carried(s.tables, s.current.tables), LogsFrom(s.logs, s.logNumber), Carried(s.tables, i.edit.added),
                s.logs[s.memLog]);
    }
  }

  lemma EditedOlder(tables: Disk, v: Version, e: Edit, log: set<Entry>)
    requires Older(Carried(tables, e.added), log) && Older(Carried(tables, v.tables), log)
    ensures Older(Carried(tables, Edited(v, e).tables), log)
  {
    CarriedUnion(tables, v.tables - e.removed, e.added);
    CarriedLess(tables, v.tables - e.removed, v.tables);
    hide Carried;
  }

  // What the process knows of a MANIFEST with the record in it.
  lemma WrittenManifest(s: State, t: State)
    requires Inv(s) && s.phase.Up? && s.install.Some? && !s.install.value.durable
    requires t.manifest == Written(s.manifest, s.install.value) && t.logs == s.logs && t.tables == s.tables
    requires t.imm == s.imm && t.memLog == s.memLog && t.next == s.next && t.logNumber == s.logNumber
    requires t.current == s.current && (s.error ==> t.error)
    requires t.install == Some(s.install.value.(durable := true)) || (t.install.None? && t.error)
    ensures ManifestOk(t)
  {
    hide HistoryOk, DiskOk, ReadOk, BuildOk, GarbageOk, CompactionOk, Carried, LogsFrom, NewestIn, Older, HeldTables,
      InstallReads;
    var i := s.install.value;
    if i.flush {
      CarriedLess(s.tables, i.edit.added, t.manifest.version.tables);
      NewestMore(s.imm.value.entries, Carried(s.tables, i.edit.added), Carried(s.tables, t.manifest.version.tables));
    }
  }

  // A compaction still running finds its inputs there, and newer tables beside them at most.
  lemma WrittenCompaction(s: State, t: State)
    requires CompactionOk(s) && MemOk(s) && ReadOk(s) && s.install.Some? && s.install.value.flush
    requires InstallShape(s, s.install.value)
    requires t.manifest == Written(s.manifest, s.install.value) && t.tables == s.tables && t.current == s.current
    requires t.held == s.held && t.pending == s.pending && t.compaction == s.compaction
    ensures CompactionOk(t)
  {
    hide Carried, LogsFrom, NewestIn, Older, HeldTables, Same, MemOk, ReadOk;
    if s.compaction.Some? { WrittenBeside(s, t); }
  }

  lemma WrittenBeside(s: State, t: State)
    requires CompactionOk(s) && MemOk(s) && ReadOk(s) && s.install.Some? && s.install.value.flush && s.compaction.Some?
    requires InstallShape(s, s.install.value) && t.manifest == Written(s.manifest, s.install.value)
    ensures Older(Carried(s.tables, s.compaction.value.inputs),
                  Carried(s.tables, t.manifest.version.tables - s.current.tables))
  {
    hide Carried, LogsFrom, NewestIn, Older, HeldTables, Same;
    var c, i := s.compaction.value, s.install.value;
    var E, L := Carried(s.tables, c.inputs), LogsFrom(s.logs, s.logNumber);
    LogsFromHas(s.logs, s.logNumber, s.imm.value.log);
    CarriedLess(s.tables, c.inputs, s.current.tables);
    OlderLess(Carried(s.tables, s.current.tables), L, E, Carried(s.tables, i.edit.added));
    var before, after := s.manifest.version.tables - s.current.tables, t.manifest.version.tables - s.current.tables;
    hide CompactionOk, MemOk, ReadOk;
    CarriedUnion(s.tables, before, i.edit.added);
    CarriedLess(s.tables, after, before + i.edit.added);
    OlderUnion(E, Carried(s.tables, before), Carried(s.tables, i.edit.added));
    OlderLess(E, Carried(s.tables, before + i.edit.added), E, Carried(s.tables, after));
  }

  lemma WriteManifestKeeps(s: State)
    requires Inv(s) && Enabled(s, WriteManifest)
    ensures Inv(Do(s, WriteManifest))
  {
    hide HistoryOk, DiskOk, MemOk, ReadOk, ManifestOk, CompactionOk, BuildOk, InstallReads, InstallShape, Carried,
      LogsFrom, NewestIn, Older, Same, HeldTables, TablesOk, GarbageOk, BoundOk;
    var t := Do(s, WriteManifest);
    WrittenDisk(s);
    SameMemory(s, t);
    WrittenManifest(s, t);
    WrittenJobs(s, t);
    WrittenInstall(s, t);
  }

  lemma WrittenJobs(s: State, t: State)
    requires TablesOk(s) && CompactionOk(s) && BuildOk(s) && GarbageOk(s) && BoundOk(s) && MemOk(s) && ReadOk(s)
    requires s.install.Some? && InstallShape(s, s.install.value)
    requires t == s.(manifest := Written(s.manifest, s.install.value),
      install := Some(s.install.value.(durable := true)))
    ensures TablesOk(t) && CompactionOk(t) && BuildOk(t) && GarbageOk(t) && BoundOk(t)
  {
    hide MemOk, ReadOk, Carried, LogsFrom, NewestIn, Older, HeldTables;
    if s.install.value.flush {
      hide CompactionOk;
      WrittenCompaction(s, t);
    }
  }

  lemma WrittenInstall(s: State, t: State)
    requires s.install.Some? && InstallReads(s, s.install.value) && InstallShape(s, s.install.value)
    requires t == s.(manifest := Written(s.manifest, s.install.value),
      install := Some(s.install.value.(durable := true)))
    ensures InstallOk(t)
  {
    hide Same, Data, Carried, LogsFrom, NewestIn;
  }

  // ---- Installing.

  /** What the process reads once the edit is in its version. */
  lemma InstalledRead(s: State, t: State)
    requires Inv(s) && s.phase.Up? && s.install.Some? && t.logs == s.logs && t.tables == s.tables
      && t.history == s.history
    requires t.current == Edited(s.current, s.install.value.edit) && t.logNumber == s.install.value.log
    ensures ReadOk(t)
  {
    hide HistoryOk, DiskOk, BuildOk, GarbageOk, ManifestOk, Carried, LogsFrom, NewestIn, Older, Same, HeldTables,
      InstallShape;
    WrittenOlder(s);
    if s.install.value.flush {
      FlushLog(s);
      LogsFromTop(s.logs, s.memLog);
    } else {
      SwapOlder(s);
    }
  }

  lemma FlushLog(s: State)
    requires InstallOk(s) && s.install.Some? && s.install.value.flush
    ensures s.install.value.log == s.memLog && s.imm.Some?
  {
    hide InstallReads, Carried, NewestIn;
  }

  // Swapping tables brings in nothing that was not in the version.
  lemma SwapOlder(s: State)
    requires Inv(s) && s.phase.Up? && s.install.Some? && !s.install.value.flush
    ensures s.install.value.log == s.logNumber
    ensures Older(Carried(s.tables, Edited(s.current, s.install.value.edit).tables), LogsFrom(s.logs, s.logNumber))
  {
    hide HistoryOk, DiskOk, BuildOk, GarbageOk, ManifestOk, Carried, LogsFrom, NewestIn, Older, Same, HeldTables,
      InstallReads;
    var i, L := s.install.value, LogsFrom(s.logs, s.logNumber);
    var E := Carried(s.tables, s.current.tables);
    if s.compaction.Some? {
      CarriedLess(s.tables, s.compaction.value.inputs, s.current.tables);
    } else {
      CarriedLess(s.tables, i.edit.added, s.current.tables);
    }
    OlderLess(E, L, Carried(s.tables, i.edit.added), L);
    EditedOlder(s.tables, s.current, i.edit, L);
  }

  lemma InstallFlushKeeps(s: State)
    requires Inv(s) && Enabled(s, InstallVersion) && s.install.value.flush
    ensures Inv(Installed(s)) && Idle(Installed(s))
  {
    var t := Installed(s);
    hide *;
    InstallStarts(s);
    InstallEffect(s, t);
    InstalledRead(s, t);
    FlushedMem(s, t);
    FlushedJobs(s, t);
    FlushedTablesOk(s, t);
    FlushedBound(s, t);
    Assembled(t);
  }

  // The invariant of a process about to install, in parts.
  lemma InstallStarts(s: State)
    requires Inv(s) && Enabled(s, InstallVersion)
    ensures s.phase.Up? && s.install.Some? && s.install.value.durable
    ensures InstallReads(s, s.install.value) && InstallShape(s, s.install.value)
    ensures HistoryOk(s.history, s.logs, s.tables) && DiskOk(s.history, s.logs, s.tables, s.manifest)
    ensures MemOk(s) && ReadOk(s) && TablesOk(s) && CompactionOk(s) && BuildOk(s) && ManifestOk(s) && BoundOk(s)
  {
    hide HistoryOk, DiskOk, MemOk, ReadOk, CompactionOk, ManifestOk, InstallReads, InstallShape, TablesOk, BuildOk,
      BoundOk;
  }

  lemma InstallEffect(s: State, t: State)
    requires s.install.Some? && t == Installed(s)
    ensures t.phase == s.phase && t.history == s.history && t.logs == s.logs && t.tables == s.tables
    ensures t.manifest == s.manifest && t.current == Edited(s.current, s.install.value.edit)
    ensures t.logNumber == s.install.value.log && t.install.None? && t.building == s.building && t.garbage == s.garbage
    ensures s.install.value.flush ==> t.compaction == s.compaction
    ensures !s.install.value.flush ==> t.compaction.None?
  {
  }

  lemma Assembled(t: State)
    requires t.phase.Up? && t.install.None? && t.building.None? && t.garbage.None?
    requires HistoryOk(t.history, t.logs, t.tables) && DiskOk(t.history, t.logs, t.tables, t.manifest)
    requires MemOk(t) && ReadOk(t) && TablesOk(t) && CompactionOk(t) && ManifestOk(t) && BoundOk(t)
    ensures Inv(t) && Idle(t)
  {
    hide HistoryOk, DiskOk, MemOk, ReadOk, CompactionOk, ManifestOk, TablesOk, BoundOk;
  }

  lemma FlushedMem(s: State, t: State)
    requires MemOk(s) && ManifestOk(s) && s.install.Some? && s.install.value.flush && s.install.value.durable
    requires InstallShape(s, s.install.value) && t == Installed(s)
    ensures MemOk(t) && ManifestOk(t)
  {
    hide Carried, LogsFrom, NewestIn;
    LogsFromTop(s.logs, s.memLog);
  }

  lemma FlushedJobs(s: State, t: State)
    requires CompactionOk(s) && s.install.Some? && s.install.value.flush && InstallShape(s, s.install.value)
    requires t == Installed(s)
    ensures CompactionOk(t)
  {
    hide Carried, NewestIn, Older, HeldTables;
    if s.compaction.Some? {
      var E := Carried(s.tables, s.compaction.value.inputs);
      var before, after := s.manifest.version.tables - s.current.tables, s.manifest.version.tables - t.current.tables;
      CarriedLess(s.tables, after, before);
      OlderLess(E, Carried(s.tables, before), E, Carried(s.tables, after));
    }
  }

  lemma FlushedTablesOk(s: State, t: State)
    requires TablesOk(s) && BuildOk(s) && s.install.Some? && s.install.value.flush && InstallShape(s, s.install.value)
    requires t == Installed(s)
    ensures TablesOk(t) && BuildOk(t) && t.building.None? && t.garbage.None? && t.install.None?
  {
    hide Carried, NewestIn, HeldTables;
  }

  lemma FlushedBound(s: State, t: State)
    requires BoundOk(s) && s.install.Some? && s.install.value.flush && InstallShape(s, s.install.value)
      && t == Installed(s)
    ensures BoundOk(t)
  {
    hide Carried, NewestIn;
    Cardinality(s.current.level0, {}, s.install.value.edit.top, s.install.value.edit.added);
  }

  lemma InstallCompactionKeeps(s: State)
    requires Inv(s) && Enabled(s, InstallVersion) && !s.install.value.flush && s.compaction.Some?
    ensures Inv(Installed(s)) && Idle(Installed(s))
  {
    SwapKeeps(s, Installed(s));
  }

  lemma InstallMoveKeeps(s: State)
    requires Inv(s) && Enabled(s, InstallVersion) && !s.install.value.flush && s.compaction.None?
    ensures Inv(Installed(s))
  {
    SwapKeeps(s, Installed(s));
  }

  lemma SwapKeeps(s: State, t: State)
    requires Inv(s) && Enabled(s, InstallVersion) && !s.install.value.flush && t == Installed(s)
    ensures Inv(t) && Idle(t)
  {
    hide *;
    InstallStarts(s);
    InstallEffect(s, t);
    InstalledRead(s, t);
    SwappedMem(s, t);
    SwappedTablesOk(s, t);
    SwappedBound(s, t);
    NoCompaction(t);
    Assembled(t);
  }

  lemma NoCompaction(t: State)
    requires t.compaction.None?
    ensures CompactionOk(t)
  {
  }

  lemma SwappedMem(s: State, t: State)
    requires MemOk(s) && ManifestOk(s) && s.install.Some? && !s.install.value.flush && s.install.value.durable
    requires InstallShape(s, s.install.value) && t == Installed(s)
    ensures MemOk(t) && ManifestOk(t)
  {
    hide Carried, LogsFrom, NewestIn;
  }

  lemma SwappedTablesOk(s: State, t: State)
    requires TablesOk(s) && BuildOk(s) && CompactionOk(s) && s.install.Some? && !s.install.value.flush
    requires InstallShape(s, s.install.value) && t == Installed(s)
    ensures TablesOk(t) && BuildOk(t) && t.building.None? && t.garbage.None? && t.install.None?
  {
    hide Carried, Older, HeldTables;
    if s.compaction.Some? { HeldLess(s.held, s.compaction.value.base); }
  }

  lemma SwappedBound(s: State, t: State)
    requires BoundOk(s) && s.install.Some? && !s.install.value.flush && InstallShape(s, s.install.value)
      && t == Installed(s)
    ensures BoundOk(t)
  {
    Cardinality(s.current.level0, s.install.value.edit.removed, {}, {});
  }

  lemma Cardinality(a: set<nat>, removed: set<nat>, top: set<nat>, added: set<nat>)
    requires top <= added
    ensures |a - removed + top| <= |a| + |added|
  {
    Smaller(a - removed, a);
    Smaller(top, added);
    assert |a - removed + top| == |a - removed| + |top| - |(a - removed) * top|;
  }

  lemma Smaller(a: set<nat>, b: set<nat>)
    requires a <= b
    ensures |a| <= |b|
  {
    assert b == a + (b - a);
  }

  lemma CollectedKeeps(s: State)
    requires Inv(s) && Idle(s)
    ensures Inv(Collected(s))
  {
    hide HistoryOk, DiskOk, MemOk, ReadOk, CompactionOk, BuildOk, InstallReads, InstallShape, Carried, LogsFrom,
      NewestIn, Older, Same, HeldTables;
    SameMemory(s, Collected(s));
    CollectedJobs(s, Collected(s));
  }

  lemma CollectedJobs(s: State, t: State)
    requires CompactionOk(s) && BuildOk(s) && s.building.None? && t == s.(garbage := t.garbage)
    ensures CompactionOk(t) && BuildOk(t)
  {
    hide Carried, Older, HeldTables;
  }

  lemma InstallVersionKeeps(s: State)
    requires Inv(s) && Enabled(s, InstallVersion)
    ensures Inv(Do(s, InstallVersion))
  {
    hide Inv, Installed, Collected, Idle;
    if s.install.value.flush {
      InstallFlushKeeps(s);
      CollectedKeeps(Installed(s));
    } else if s.compaction.Some? {
      InstallCompactionKeeps(s);
      CollectedKeeps(Installed(s));
    } else {
      InstallMoveKeeps(s);
    }
  }

  // ---- Failures.

  /** After a failed build the number is free again. */
  lemma FailBuildKeeps(s: State, t: State)
    requires s.phase.Up? && s.building.Some? && Inv(s)
    requires t == s.(error := true, building := None, pending := s.pending - {s.building.value})
    ensures Inv(t)
  {
    hide HistoryOk, DiskOk, MemOk, ReadOk, ManifestOk, Carried, LogsFrom, NewestIn, Older, Same, HeldTables,
      InstallReads, InstallShape;
    SameMemory(s, t);
  }

  lemma FailInstallKeeps(s: State, written: bool)
    requires Inv(s) && Enabled(s, Fail(written)) && s.install.Some? && s.install.value.flush
    ensures Inv(Failed(s, written))
  {
    var t := Failed(s, written);
    hide HistoryOk, DiskOk, MemOk, ReadOk, ManifestOk, CompactionOk, TablesOk, BoundOk, BuildOk, InstallReads,
      InstallShape, Enabled;
    FailStarts(s, written);
    FailDisk(s, written);
    FailFlushJobs(s, written);
    SameMemory(s, t);
    Assembled(t);
  }

  lemma NotInstalling(s: State)
    requires Inv(s) && s.phase.Up? && s.building.Some?
    ensures s.install.None?
  {
    hide HistoryOk, DiskOk, MemOk, ReadOk, CompactionOk, ManifestOk, InstallOk, TablesOk, BoundOk, GarbageOk;
  }

  // The invariant of a process about to fail, in parts.
  lemma FailStarts(s: State, written: bool)
    requires Inv(s) && Enabled(s, Fail(written))
    ensures s.phase.Up? && s.garbage.None? && (written ==> s.install.Some? && !s.install.value.durable)
    ensures s.install.Some? ==> InstallShape(s, s.install.value) && s.building.None?
    ensures HistoryOk(s.history, s.logs, s.tables) && DiskOk(s.history, s.logs, s.tables, s.manifest)
    ensures MemOk(s) && ReadOk(s) && TablesOk(s) && CompactionOk(s) && BuildOk(s) && ManifestOk(s) && BoundOk(s)
  {
    hide HistoryOk, DiskOk, MemOk, ReadOk, CompactionOk, ManifestOk, InstallReads, InstallShape, TablesOk, BoundOk;
  }

  lemma FailDisk(s: State, written: bool)
    requires Inv(s) && Enabled(s, Fail(written)) && s.install.Some?
    ensures var t := Failed(s, written);
      DiskOk(t.history, t.logs, t.tables, t.manifest) && ManifestOk(t)
  {
    FailStarts(s, written);
    FailedState(s, written);
    hide *;
    var t := Failed(s, written);
    if written {
      WrittenDisk(s);
      WrittenManifest(s, t);
    } else {
      FailedManifest(s, t);
    }
  }

  lemma FailedState(s: State, written: bool)
    requires s.install.Some? && s.building.None?
    ensures var t := Failed(s, written);
      && t == s.(manifest := t.manifest, error := true, pending := t.pending, held := t.held,
        compaction := t.compaction,
                 install := None)
      && t.manifest == if written then Written(s.manifest, s.install.value) else s.manifest
  {
  }

  lemma FailedManifest(s: State, t: State)
    requires ManifestOk(s) && t.error && t.manifest == s.manifest && t.logs == s.logs && t.tables == s.tables
    requires t.imm == s.imm && t.memLog == s.memLog && t.next == s.next && t.logNumber == s.logNumber && t.install.None?
    ensures ManifestOk(t)
  {
    hide NewestIn, Carried;
  }

  lemma FailFlushJobs(s: State, written: bool)
    requires s.install.Some? && s.install.value.flush && InstallShape(s, s.install.value) && s.building.None?
    requires written ==> !s.install.value.durable
    requires MemOk(s) && ReadOk(s) && TablesOk(s) && CompactionOk(s) && BoundOk(s)
    ensures var t := Failed(s, written); TablesOk(t) && CompactionOk(t) && BoundOk(t)
  {
    var t := Failed(s, written);
    hide MemOk, ReadOk, Carried, NewestIn, Older, HeldTables;
    if written {
      hide CompactionOk;
      WrittenCompaction(s, t);
    }
  }

  lemma FailSwapKeeps(s: State, written: bool)
    requires Inv(s) && Enabled(s, Fail(written)) && s.install.Some? && !s.install.value.flush
    ensures Inv(Failed(s, written))
  {
    hide *;
    FailStarts(s, written);
    var t := Failed(s, written);
    FailSwapEffect(s, written);
    FailDisk(s, written);
    FailReleases(s, t);
    NoCompaction(t);
    SameMemory(s, t);
    Assembled(t);
  }

  lemma FailSwapEffect(s: State, written: bool)
    requires s.install.Some? && !s.install.value.flush && s.building.None?
    ensures var t := Failed(s, written);
      && t == s.(manifest := t.manifest, error := true, pending := t.pending, held := t.held, compaction := None,
                 install := None)
      && t.pending <= s.pending && (t.held == s.held || exists v :: t.held == s.held - multiset{v})
  {
  }

  lemma FailReleases(s: State, t: State)
    requires TablesOk(s) && BoundOk(s) && s.building.None? && t.current == s.current && t.tables == s.tables
    requires t.next == s.next && t.imm == s.imm && t.bound == s.bound && t.pending <= s.pending
    requires t.held == s.held || exists v :: t.held == s.held - multiset{v}
    ensures TablesOk(t) && BoundOk(t)
  {
    hide HeldTables;
    if t.held != s.held {
      var v :| t.held == s.held - multiset{v};
      HeldLess(s.held, v);
    }
  }

  lemma FailCompactionKeeps(s: State, written: bool)
    requires Inv(s) && Enabled(s, Fail(written)) && s.building.None? && s.install.None?
    ensures Inv(Failed(s, written))
  {
    var t := Failed(s, written);
    FailStarts(s, written);
    FailEffect(s, written);
    hide *;
    FailedManifest(s, t);
    FailReleases(s, t);
    NoCompaction(t);
    SameMemory(s, t);
    Assembled(t);
  }

  lemma FailEffect(s: State, written: bool)
    requires Enabled(s, Fail(written)) && s.building.None? && s.install.None?
    ensures s.compaction.Some? && !written
    ensures var c := s.compaction.value;
      Failed(s, written) == s.(error := true, pending := s.pending - c.outputs, held := s.held - multiset{c.base},
                               compaction := None, install := None)
  {
  }

  lemma FailKeeps(s: State, written: bool)
    requires Inv(s) && Enabled(s, Fail(written))
    ensures Inv(Do(s, Fail(written)))
  {
    if s.building.Some? {
      NotInstalling(s);
      FailBuildKeeps(s, Failed(s, written));
    } else if s.install.None? {
      FailCompactionKeeps(s, written);
    } else if s.install.value.flush {
      FailInstallKeeps(s, written);
    } else {
      FailSwapKeeps(s, written);
    }
  }

  lemma WriterErrorKeeps(s: State)
    requires Inv(s) && Enabled(s, WriterError)
    ensures Inv(Do(s, WriterError))
  {
    hide HistoryOk, DiskOk, MemOk, ReadOk, CompactionOk, BuildOk, InstallOk, GarbageOk, BoundOk, Carried, NewestIn,
      TablesOk;
    var t := Do(s, WriterError);
    SameMemory(s, t);
    SameJobs(s, t);
    SameInstall(s, t);
  }

  // ---- Deleting.

  lemma DeleteLogKeeps(s: State, n: nat)
    requires Inv(s) && Enabled(s, Delete(true, n))
    ensures Inv(Do(s, Delete(true, n)))
  {
    hide HistoryOk, DiskOk, ReadOk, CompactionOk, BuildOk, Carried, NewestIn, Older, Same, HeldTables, LogsFrom,
      InstallReads, InstallShape;
    var t := Do(s, Delete(true, n));
    LogsFromDelete(s.logs, s.logNumber, n);
    LogGoneDisk(s, t, n);
    CollectedJobs2(s, t);
  }

  lemma CollectedJobs2(s: State, t: State)
    requires s.building.None? && s.install.None?
    requires t.tables == s.tables && t.current == s.current && t.held == s.held && t.pending == s.pending
    requires t.manifest == s.manifest && t.install == s.install && t.compaction == s.compaction
      && t.building == s.building
    ensures CompactionOk(s) ==> CompactionOk(t)
    ensures BuildOk(t)
  {
    hide Carried, Older, HeldTables;
  }

  lemma LogGoneDisk(s: State, t: State, n: nat)
    requires HistoryOk(s.history, s.logs, s.tables) && DiskOk(s.history, s.logs, s.tables, s.manifest) && ReadOk(s)
    requires n < s.logNumber <= s.manifest.log && Top(s.logs, s.memLog) && s.logNumber <= s.memLog
    requires t.logs == s.logs - {n} && t.tables == s.tables && t.history == s.history && t.manifest == s.manifest
    requires t.current == s.current && t.logNumber == s.logNumber
    ensures HistoryOk(t.history, t.logs, t.tables) && DiskOk(t.history, t.logs, t.tables, t.manifest) && ReadOk(t)
    ensures Top(t.logs, s.memLog)
  {
    hide R.Stamped, Carried, Same, LogsFrom;
    LogsFromDelete(s.logs, s.logNumber, n);
    LogsFromDelete(s.logs, s.manifest.log, n);
    forall a, b | a in t.logs && b in t.logs && a < b ensures Older(t.logs[a], t.logs[b]) {
      assert Older(s.logs[a], s.logs[b]);
    }
    forall k | Top(t.logs, k) ensures Older(Carried(s.tables, s.manifest.version.tables), t.logs[k]) {
      assert s.memLog in t.logs && k == s.memLog;
    }
  }

  lemma DeleteTableKeeps(s: State, n: nat)
    requires Inv(s) && Enabled(s, Delete(false, n))
    ensures Inv(Do(s, Delete(false, n)))
  {
    hide HistoryOk, DiskOk, MemOk, ReadOk, CompactionOk, ManifestOk, Carried, NewestIn, Older, Same, HeldTables,
      LogsFrom, InstallReads, InstallShape;
    TableGoneDisk(s, Do(s, Delete(false, n)), n);
    TableGoneJobs(s, n);
  }

  lemma TableGoneDisk(s: State, t: State, n: nat)
    requires HistoryOk(s.history, s.logs, s.tables) && DiskOk(s.history, s.logs, s.tables, s.manifest)
    requires MemOk(s) && ReadOk(s) && ManifestOk(s) && n !in s.current.tables && n !in s.manifest.version.tables
    requires t == s.(tables := s.tables - {n}, garbage := t.garbage)
    ensures HistoryOk(t.history, t.logs, t.tables) && DiskOk(t.history, t.logs, t.tables, t.manifest)
    ensures MemOk(t) && ReadOk(t) && ManifestOk(t)
  {
    hide Carried, LogsFrom, NewestIn, Older, Same, R.Stamped;
    CarriedDelete(s.tables, s.current.tables, n);
    CarriedDelete(s.tables, s.manifest.version.tables, n);
  }

  lemma TableGoneJobs(s: State, n: nat)
    requires Inv(s) && Enabled(s, Delete(false, n))
    ensures CompactionOk(Do(s, Delete(false, n)))
  {
    hide HistoryOk, DiskOk, MemOk, ReadOk, ManifestOk, BuildOk, InstallOk, Carried, Older, HeldTables;
    if s.compaction.Some? {
      var c := s.compaction.value;
      CarriedDelete(s.tables, c.inputs, n);
      CarriedDelete(s.tables, c.finished, n);
      CarriedDelete(s.tables, s.manifest.version.tables - s.current.tables, n);
    }
  }

  lemma EndCollectionKeeps(s: State)
    requires Inv(s) && Enabled(s, EndCollection)
    ensures Inv(Do(s, EndCollection))
  {
    hide HistoryOk, DiskOk, MemOk, ReadOk, CompactionOk, BuildOk, ManifestOk, Carried, NewestIn, Older, Same,
      HeldTables, LogsFrom, InstallReads, InstallShape;
    var t := Do(s, EndCollection);
    SameMemory(s, t);
    CollectedJobs2(s, t);
  }

  // ---- Crashing and reopening.

  // A process that is not up answers for the disk and its recovery only.
  lemma NotUp(t: State)
    requires HistoryOk(t.history, t.logs, t.tables) && DiskOk(t.history, t.logs, t.tables, t.manifest) && RecoverOk(t)
    requires !t.phase.Up?
    ensures Inv(t)
  {
    hide HistoryOk, DiskOk, RecoverOk, MemOk, ReadOk, CompactionOk, ManifestOk, InstallOk, TablesOk, BoundOk, BuildOk,
      GarbageOk;
  }

  lemma DiskParts(s: State)
    requires Inv(s)
    ensures HistoryOk(s.history, s.logs, s.tables) && DiskOk(s.history, s.logs, s.tables, s.manifest) && RecoverOk(s)
  {
    hide HistoryOk, DiskOk, RecoverOk, UpOk;
  }

  lemma CrashKeeps(s: State)
    requires Inv(s) && Enabled(s, Crash)
    ensures Inv(Do(s, Crash))
  {
    hide Inv, HistoryOk, DiskOk, Carried, LogsFrom, Older;
    DiskParts(s);
    NotUp(Do(s, Crash));
  }

  lemma StartRecoveryKeeps(s: State)
    requires Inv(s) && Enabled(s, StartRecovery)
    ensures Inv(Do(s, StartRecovery))
  {
    hide Inv, HistoryOk, DiskOk, Carried, LogsFrom, Older;
    DiskParts(s);
    NoneCarried(s.tables);
    NoneOlder({});
    LogBelow(s);
    NotUp(Do(s, StartRecovery));
  }

  lemma LogBelow(s: State)
    requires DiskOk(s.history, s.logs, s.tables, s.manifest)
    ensures s.manifest.log < s.manifest.next
  {
    hide Same, Carried, LogsFrom, Older;
  }

  lemma RecoverReadKeeps(s: State, entries: set<Entry>)
    requires Inv(s) && Enabled(s, RecoverRead(entries))
    ensures Inv(Do(s, RecoverRead(entries)))
  {
    hide Inv, HistoryOk, DiskOk, Carried, LogsFrom, Older;
    DiskParts(s);
    var p := s.phase;
    var E := Carried(s.tables, p.made);
    OlderLess(p.read, entries, E, entries);
    OlderUnion(E, p.mem, entries);
    NotUp(Do(s, RecoverRead(entries)));
  }

  lemma RecoverTableKeeps(s: State)
    requires Inv(s) && Enabled(s, RecoverTable)
    ensures Inv(Do(s, RecoverTable))
  {
    hide Inv, HistoryOk, DiskOk, Carried, LogsFrom, Older;
    DiskParts(s);
    MadeDisk(s);
    MadeApart(s);
    MadeTable(s);
    NotUp(Do(s, RecoverTable));
  }

  lemma MadeTable(s: State)
    requires RecoverOk(s) && Enabled(s, RecoverTable) && s.next !in s.manifest.version.tables
    ensures RecoverOk(Do(s, RecoverTable))
  {
    hide Carried, LogsFrom, Older;
    var p, more := s.phase, s.tables[s.next := s.phase.mem];
    CarriedUpdate(s.tables, p.made, s.next, p.mem);
    CarriedOne(more, s.next);
    CarriedUnion(more, p.made, {s.next});
    NoneOlder(Carried(more, p.made + {s.next}));
  }

  lemma MadeApart(s: State)
    requires DiskOk(s.history, s.logs, s.tables, s.manifest) && s.manifest.next <= s.next
    ensures s.next !in s.manifest.version.tables
  {
    hide Same, Carried, LogsFrom, Older;
  }

  lemma MadeDisk(s: State)
    requires HistoryOk(s.history, s.logs, s.tables) && DiskOk(s.history, s.logs, s.tables, s.manifest)
    requires s.phase.Recovering? && s.manifest.next <= s.next && s.phase.mem <= LogsFrom(s.logs, s.manifest.log)
    ensures HistoryOk(s.history, s.logs, s.tables[s.next := s.phase.mem])
    ensures DiskOk(s.history, s.logs, s.tables[s.next := s.phase.mem], s.manifest)
  {
    hide Carried, LogsFrom, Older, Same, R.Stamped;
    LogsKnown(s.history, s.logs, s.tables, s.manifest.log);
    CarriedUpdate(s.tables, s.manifest.version.tables, s.next, s.phase.mem);
  }

  lemma RecoverLogKeeps(s: State, n: nat)
    requires Inv(s) && Enabled(s, RecoverLog(n))
    ensures Inv(Do(s, RecoverLog(n)))
  {
    hide Inv, HistoryOk, DiskOk, Carried, LogsFrom, Older, Same;
    DiskParts(s);
    LogBelow(s);
    NewLogDisk(s.history, s.logs, s.tables, s.manifest, n);
    LogsFromNew(s.logs, s.manifest.log, n);
    NotUp(Do(s, RecoverLog(n)));
  }

  lemma ReuseLogKeeps(s: State, n: nat, next: nat)
    requires Inv(s) && Enabled(s, ReuseLog(n, next))
    ensures Inv(Do(s, ReuseLog(n, next)))
  {
    hide Inv, HistoryOk, DiskOk, Carried, LogsFrom, Older, Same;
    DiskParts(s);
    NotUp(Do(s, ReuseLog(n, next)));
  }

  lemma RecoverManifestKeeps(s: State)
    requires Inv(s) && Enabled(s, RecoverManifest)
    ensures Inv(Do(s, RecoverManifest))
  {
    hide Inv, HistoryOk, DiskOk, Carried, LogsFrom, Older, Same;
    DiskParts(s);
    RecoveredDisk(s);
    NotUp(Do(s, RecoverManifest));
  }

  lemma RecoveredDisk(s: State)
    requires DiskOk(s.history, s.logs, s.tables, s.manifest) && RecoverOk(s) && Enabled(s, RecoverManifest)
    ensures var t := Do(s, RecoverManifest); DiskOk(t.history, t.logs, t.tables, t.manifest)
  {
    var p, m, t := s.phase, s.manifest.version.tables, Do(s, RecoverManifest);
    assert t.manifest.version.tables == m + p.made;
    RecoveredSame(s);
    RecoveredOlder(s);
    hide Enabled, Do, Carried, LogsFrom, Older, Same;
  }

  /** What was in the logs is in the tables made, or in the log kept. */
  lemma RecoveredSame(s: State)
    requires DiskOk(s.history, s.logs, s.tables, s.manifest) && RecoverOk(s)
    requires s.phase.Recovering? && s.phase.log.Some? && !s.phase.durable
    ensures Same(Data(s.tables, s.manifest.version.tables + s.phase.made, s.logs, s.phase.log.value), s.history)
  {
    hide Carried, LogsFrom, Older, Same;
    var p, m := s.phase, s.manifest.version.tables;
    CarriedUnion(s.tables, m, p.made);
    LogsFromTop(s.logs, p.log.value);
    assert Data(s.tables, m + p.made, s.logs, p.log.value) == Data(s.tables, m, s.logs, s.manifest.log);
  }

  lemma RecoveredOlder(s: State)
    requires DiskOk(s.history, s.logs, s.tables, s.manifest) && RecoverOk(s)
    requires s.phase.Recovering? && s.phase.log.Some? && !s.phase.durable
    ensures forall n :: Top(s.logs, n) ==>
      Older(Carried(s.tables, s.manifest.version.tables + s.phase.made), s.logs[n])
  {
    CarriedUnion(s.tables, s.manifest.version.tables, s.phase.made);
    hide Carried, LogsFrom, Same;
  }

  lemma OpenKeeps(s: State)
    requires Inv(s) && Enabled(s, Open)
    ensures Inv(Do(s, Open))
  {
    hide Inv, Idle, Opened, Collected;
    OpenedKeeps(s, Opened(s));
    CollectedKeeps(Opened(s));
  }

  lemma OpenedKeeps(s: State, t: State)
    requires s.phase.Recovering? && s.phase.log.Some? && t == Opened(s) && Enabled(s, Open) && Inv(s)
    ensures Inv(t) && Idle(t)
  {
    hide *;
    OpenStarts(s);
    OpenedRead(s, t);
    OpenedTables(s, t);
    OpenedRest(s, t);
    NoCompaction(t);
    Assembled(t);
  }

  lemma OpenStarts(s: State)
    requires Inv(s) && Enabled(s, Open)
    ensures HistoryOk(s.history, s.logs, s.tables) && DiskOk(s.history, s.logs, s.tables, s.manifest) && RecoverOk(s)
    ensures s.phase.Recovering? && s.phase.log.Some?
  {
    hide HistoryOk, DiskOk, RecoverOk;
  }

  lemma OpenedRest(s: State, t: State)
    requires RecoverOk(s) && s.phase.Recovering? && s.phase.log.Some? && t == Opened(s)
    ensures ManifestOk(t) && BoundOk(t) && t.phase.Up? && t.install.None? && t.building.None? && t.garbage.None?
    ensures t.history == s.history && t.logs == s.logs && t.tables == s.tables && t.manifest == s.manifest
    ensures t.compaction.None?
  {
    hide Carried, LogsFrom, Older, NewestIn;
  }

  lemma OpenedRead(s: State, t: State)
    requires DiskOk(s.history, s.logs, s.tables, s.manifest) && RecoverOk(s) && Enabled(s, Open) && t == Opened(s)
    ensures MemOk(t) && ReadOk(t)
  {
    hide Carried, LogsFrom, Same, Older;
    LogsFromTop(s.logs, s.phase.log.value);
    NoneCarried(s.tables);
    assert LogsFrom(s.logs, s.manifest.log) == s.logs[s.phase.log.value];
  }

  lemma OpenedTables(s: State, t: State)
    requires DiskOk(s.history, s.logs, s.tables, s.manifest) && RecoverOk(s) && Enabled(s, Open) && t == Opened(s)
    ensures TablesOk(t)
  {
    hide Carried, LogsFrom, Same, Older;
    assert HeldTables(multiset{}) == {};
  }

  // ---- Whole runs.

  lemma StepKeeps(s: State, a: Action)
    requires Inv(s) && Enabled(s, a)
    ensures Inv(Do(s, a))
  {
    hide Inv, Enabled, Do;
    match a
    case Append(b) => AppendKeeps(s, b);
    case Insert => InsertKeeps(s);
    case Switch => SwitchKeeps(s);
    case TakeRef => TakeRefKeeps(s);
    case DropRef(v) => DropRefKeeps(s, v);
    case StartFlush => StartFlushKeeps(s);
    case FinishFlush(list, bound, level0) => FinishFlushKeeps(s, list, bound, level0);
    case StartCompaction(inputs) => StartCompactionKeeps(s, inputs);
    case OpenOutput => OpenOutputKeeps(s);
    case FinishOutput(n, entries) => FinishOutputKeeps(s, n, entries);
    case FinishCompaction(list, bound, base) => FinishCompactionKeeps(s, list, bound, base);
    case StartMove(n) => StartMoveKeeps(s, n);
    case WriteManifest => WriteManifestKeeps(s);
    case InstallVersion => InstallVersionKeeps(s);
    case Fail(written) => FailKeeps(s, written);
    case _ => OtherStepKeeps(s, a);
  }

  // Errors, deletions, crashes and reopening.
  lemma OtherStepKeeps(s: State, a: Action)
    requires Inv(s) && Enabled(s, a)
    requires a.WriterError? || a.Delete? || a.EndCollection? || a.Crash? || a.StartRecovery? || a.RecoverRead?
      || a.RecoverTable? || a.RecoverLog? || a.ReuseLog? || a.RecoverManifest? || a.Open?
    ensures Inv(Do(s, a))
  {
    hide Inv, Enabled, Do;
    match a
    case WriterError => WriterErrorKeeps(s);
    case Delete(log, n) => if log { DeleteLogKeeps(s, n); } else { DeleteTableKeeps(s, n); }
    case EndCollection => EndCollectionKeeps(s);
    case Crash => CrashKeeps(s);
    case StartRecovery => StartRecoveryKeeps(s);
    case RecoverRead(entries) => RecoverReadKeeps(s, entries);
    case RecoverTable => RecoverTableKeeps(s);
    case RecoverLog(n) => RecoverLogKeeps(s, n);
    case ReuseLog(n, next) => ReuseLogKeeps(s, n, next);
    case RecoverManifest => RecoverManifestKeeps(s);
    case Open => OpenKeeps(s);
  }

  /** NewDB: an empty MANIFEST, with log number 0 and file numbers from 2 on. */
  predicate Fresh(s: State) {
    && s.phase.Down? && s.logs == map[] && s.tables == map[] && s.history == {}
    && s.manifest == Manifest(Version({}, {}), 0, 2)
  }

  ghost predicate Run(s: State, actions: seq<Action>, t: State)
    decreases |actions|
  {
    if |actions| == 0 then t == s
    else Enabled(s, actions[0]) && Run(Do(s, actions[0]), actions[1..], t)
  }

  lemma {:induction false} RunKeeps(s: State, actions: seq<Action>, t: State)
    requires Inv(s) && Run(s, actions, t)
    ensures Inv(t)
    decreases |actions|
  {
    hide Inv, Enabled, Do;
    if |actions| > 0 {
      StepKeeps(s, actions[0]);
      RunKeeps(Do(s, actions[0]), actions[1..], t);
    }
  }

  lemma FreshOk(s: State)
    requires Fresh(s)
    ensures Inv(s)
  {
    assert LogsFrom(s.logs, 0) == {} && Carried(s.tables, {}) == {};
    assert Data(s.tables, {}, s.logs, 0) == {};
  }

  /** The newest version of a key, if it is a value, is held by the set. */
  ghost predicate HoldsNewest(S: set<Entry>, history: set<Entry>) {
    forall e: Entry :: R.Newest(history, e.key.user, MAX_SEQUENCE, e) && e.key.kind.Value? ==> e in S
  }

  lemma SameHolds(S: set<Entry>, history: set<Entry>)
    requires Same(S, history)
    ensures HoldsNewest(S, history)
  {
    forall e: Entry | R.Newest(history, e.key.user, MAX_SEQUENCE, e) && e.key.kind.Value? ensures e in S {
      assert R.Agree(S, history, e.key.user, MAX_SEQUENCE);
    }
  }

  /**
   In every state a run reaches, whatever crashed or failed on the way: the tables the MANIFEST names are on disk, and
   with the logs it does not cover they show, key by key, the very entry the logged history shows, or none where it
   shows none; the current value of every key lies in one of them.  The same holds of the live process's version with
   the logs from LogNumber on.
   */
  lemma NothingLost(s: State, actions: seq<Action>, t: State)
    requires Fresh(s) && Run(s, actions, t)
    ensures t.manifest.version.tables <= t.tables.Keys
    ensures Same(Data(t.tables, t.manifest.version.tables, t.logs, t.manifest.log), t.history)
    ensures HoldsNewest(Data(t.tables, t.manifest.version.tables, t.logs, t.manifest.log), t.history)
    ensures t.phase.Up? ==> t.current.tables <= t.tables.Keys
    ensures t.phase.Up? ==> Same(Data(t.tables, t.current.tables, t.logs, t.logNumber), t.history)
    ensures t.phase.Up? ==> HoldsNewest(Data(t.tables, t.current.tables, t.logs, t.logNumber), t.history)
  {
    hide Run, Enabled, Do, Same, Data, Carried, LogsFrom, Older, HoldsNewest, HistoryOk, MemOk, CompactionOk, InstallOk,
      ManifestOk;
    FreshOk(s);
    RunKeeps(s, actions, t);
    SameHolds(Data(t.tables, t.manifest.version.tables, t.logs, t.manifest.log), t.history);
    if t.phase.Up? { SameHolds(Data(t.tables, t.current.tables, t.logs, t.logNumber), t.history); }
  }

  /**
   No file is deleted that a referenced version, a pending output, the MANIFEST or an uncovered log needs, and no new
   table takes the name of one in use.
   */
  lemma OnlyGarbageDeleted(s: State, actions: seq<Action>, t: State)
    requires Fresh(s) && Run(s, actions, t) && t.phase.Up?
    ensures t.garbage.Some? ==>
      && t.garbage.value.tables !! Live(t) && t.garbage.value.tables !! t.manifest.version.tables
      && forall n :: n in t.garbage.value.logs ==> n < t.logNumber && n < t.manifest.log
    ensures t.current.tables + HeldTables(t.held) <= t.tables.Keys
    ensures t.next !in Live(t) && t.next !in t.manifest.version.tables
  {
    hide Run, Enabled, Do, Same, Carried, LogsFrom, Older, HeldTables, HistoryOk, MemOk, ReadOk, CompactionOk,
      InstallOk;
    FreshOk(s);
    RunKeeps(s, actions, t);
    NewNumber(t);
  }

  /** Level 0, with the table a pending memtable may become, stays within eight files or the count at open. */
  lemma Level0Bounded(s: State, before: seq<Action>, opening: State, after: seq<Action>, t: State)
    requires Fresh(s) && Run(s, before, opening) && Enabled(opening, Open) && Run(Do(opening, Open), after, t)
    requires forall i :: 0 <= i < |after| ==> after[i] != Crash
    ensures var count := |Do(opening, Open).current.level0|;
      |t.current.level0| + (if t.imm.Some? then 1 else 0) <= (if count < 8 then 8 else count)
  {
    hide Run, Enabled, HistoryOk, DiskOk, MemOk, ReadOk, CompactionOk, InstallOk, ManifestOk, TablesOk, BuildOk,
      GarbageOk;
    FreshOk(s);
    RunKeeps(s, before, opening);
    OpenKeeps(opening);
    RunKeeps(Do(opening, Open), after, t);
    BoundStays(Do(opening, Open), after, t);
  }

  lemma {:induction false} BoundStays(s: State, actions: seq<Action>, t: State)
    requires s.phase.Up? && Run(s, actions, t) && forall i :: 0 <= i < |actions| ==> actions[i] != Crash
    ensures t.phase.Up? && t.bound == s.bound
    decreases |actions|
  {
    if |actions| > 0 {
      StepStays(s, actions[0]);
      hide Enabled, Do;
      BoundStays(Do(s, actions[0]), actions[1..], t);
    }
  }

  lemma StepStays(s: State, a: Action)
    requires s.phase.Up? && Enabled(s, a) && a != Crash
    ensures Do(s, a).phase.Up? && Do(s, a).bound == s.bound
  {
    hide Sorted, Carried, LogsFrom, Older, Compacted, Pruned, NothingOlderBeside, R.Stamped, Elems, AllRead, Collected,
      Opened;
    if a.InstallVersion? {
      InstalledStays(s);
      CollectedStays(Installed(s));
      hide Installed;
    } else if a.Fail? {
      FailedStays(s, a.written);
      hide Failed;
    } else {
      hide Installed, Failed, WithTable, TableMade, Written;
    }
  }

  lemma InstalledStays(s: State)
    requires s.install.Some?
    ensures Installed(s).phase == s.phase && Installed(s).bound == s.bound
  {
  }

  lemma CollectedStays(s: State)
    ensures Collected(s).phase == s.phase && Collected(s).bound == s.bound
  {
    hide Obsolete;
  }

  lemma FailedStays(s: State, written: bool)
    requires written ==> s.install.Some?
    ensures Failed(s, written).phase == s.phase && Failed(s, written).bound == s.bound
  {
  }
}
