/**
 Group commit (db_impl.cc, Write and BuildBatchGroup): writers queue up, the one in front takes a group of them, logs
 it as one record, syncs if it asked for it, applies it and answers them all; and recovery of such a log.
 */
module WriteQueue {
  import opened Keys
  import opened Coding
  import opened Batch
  import Wal

  // A writer's batch is missing when it only asks for a memtable switch.
  datatype Writer = Writer(id: nat, batch: Option<seq<Update>>, sync: bool)

  function UpdatesOf(w: Writer): seq<Update> {
    if w.batch.Some? then w.batch.value else []
  }

  function Updates(ws: seq<Writer>): seq<Update> {
    if |ws| == 0 then [] else Updates(ws[..|ws| - 1]) + UpdatesOf(ws[|ws| - 1])
  }

  lemma {:induction false} UpdatesConcat(a: seq<Writer>, b: seq<Writer>)
    ensures Updates(a + b) == Updates(a) + Updates(b)
  {
    if |b| == 0 {
      assert a + b == a;
    } else {
      UpdatesConcat(a, b[..|b| - 1]);
      assert (a + b)[..|a + b| - 1] == a + b[..|b| - 1];
    }
  }

  // ---- The group.

  function ByteSize(us: seq<Update>): nat {
    BATCH_HEADER + |Records(us)|
  }

  function MaxSize(size: nat): nat {
    if size <= 0x2_0000 then size + 0x2_0000 else 0x10_0000
  }

  /** Where the group ends when the writers before i are in it. */
  function GroupEnd(queue: seq<Writer>, sync: bool, max: nat, i: nat, size: nat): (end: nat)
    requires i <= |queue|
    ensures i <= end <= |queue|
    ensures forall j :: i <= j < end ==> queue[j].sync ==> sync
    decreases |queue| - i
  {
    if i == |queue| || (queue[i].sync && !sync) then i
    else if queue[i].batch.None? then GroupEnd(queue, sync, max, i + 1, size)
    else
      var more := size + ByteSize(queue[i].batch.value);
      if more > max then i else GroupEnd(queue, sync, max, i + 1, more)
  }

  function Group(queue: seq<Writer>): (end: nat)
    requires |queue| > 0 && queue[0].batch.Some?
    ensures 0 < end <= |queue|
    ensures forall j :: 0 <= j < end ==> queue[j].sync ==> queue[0].sync
  {
    var size := ByteSize(queue[0].batch.value);
    GroupEnd(queue, queue[0].sync, MaxSize(size), 1, size)
  }

  // The bytes of the batches among the writers.
  function GroupBytes(ws: seq<Writer>): nat {
    if |ws| == 0 then 0
    else
      var w := ws[|ws| - 1];
      GroupBytes(ws[..|ws| - 1]) + (if w.batch.Some? then ByteSize(w.batch.value) else 0)
  }

  /** The group stays within the limit its first batch sets, and only a rule keeps the next writer out of it. */
  lemma GroupIsLongest(queue: seq<Writer>)
    requires |queue| > 0 && queue[0].batch.Some?
    ensures var n, size := Group(queue), ByteSize(queue[0].batch.value);
      // A batch of at most 128 KiB takes up to 128 KiB more with it; the limit of any other is 1 MiB.
      var max := if size <= 0x2_0000 then size + 0x2_0000 else 0x10_0000;
      && (GroupBytes(queue[..n]) <= max || GroupBytes(queue[..n]) == size)
      && (n < |queue| ==>
        || (queue[n].sync && !queue[0].sync)
        || (queue[n].batch.Some? && GroupBytes(queue[..n + 1]) > max))
  {
    var size := ByteSize(queue[0].batch.value);
    assert queue[..1][..0] == [] && queue[..1] == [queue[0]];
    assert GroupBytes(queue[..1]) == size;
    EndIsLongest(queue, MaxSize(size), 1, size);
  }

  lemma {:induction false} EndIsLongest(queue: seq<Writer>, max: nat, i: nat, size: nat)
    requires 1 <= i <= |queue| && size == GroupBytes(queue[..i])
    ensures var n := GroupEnd(queue, queue[0].sync, max, i, size);
      && (GroupBytes(queue[..n]) <= max || GroupBytes(queue[..n]) == size)
      && (n < |queue| ==>
        || (queue[n].sync && !queue[0].sync)
        || (queue[n].batch.Some? && GroupBytes(queue[..n + 1]) > max))
    decreases |queue| - i
  {
    hide ByteSize, GroupEnd, GroupBytes;
    if i == |queue| {
      GroupDone(queue, max, size);
    } else {
      GroupStep(queue, max, i, size);
      BytesStep(queue, i);
      var more := GroupBytes(queue[..i + 1]);
      if !(queue[i].sync && !queue[0].sync) && (queue[i].batch.None? || more <= max) {
        EndIsLongest(queue, max, i + 1, more);
      }
    }
  }

  lemma GroupDone(queue: seq<Writer>, max: nat, size: nat)
    requires |queue| > 0
    ensures GroupEnd(queue, queue[0].sync, max, |queue|, size) == |queue|
  {
  }

  lemma BytesStep(queue: seq<Writer>, i: nat)
    requires i < |queue|
    ensures GroupBytes(queue[..i + 1]) ==
              GroupBytes(queue[..i]) + (if queue[i].batch.Some? then ByteSize(queue[i].batch.value) else 0)
  {
    hide ByteSize;
    assert queue[..i + 1][..i] == queue[..i];
  }

  ghost predicate Matches(batches: seq<WriteBatch?>, syncs: seq<bool>, queue: seq<Writer>)
    reads set b | b in batches
  {
    && |batches| == |syncs| == |queue|
    && forall i :: 0 <= i < |queue| ==>
      && queue[i].sync == syncs[i] && (queue[i].batch.None? <==> batches[i] == null)
      && (batches[i] != null ==> batches[i].Ok() && batches[i].updates == queue[i].batch.value)
  }

  /** Gathers the front writers' batches in queue order; a lone batch is used as it is, more are copied together. */
  method BuildBatchGroup(batches: seq<WriteBatch?>, syncs: seq<bool>, tmp: WriteBatch, ghost queue: seq<Writer>)
    returns (group: WriteBatch, count: nat)
    requires Matches(batches, syncs, queue) && |queue| > 0 && queue[0].batch.Some?
    requires tmp.Ok() && tmp.updates == [] && tmp !in batches
    modifies tmp
    ensures count == Group(queue)
    ensures group.Ok() && group.updates == Updates(queue[..count])
    ensures group == batches[0] || group == tmp
  {
    hide Holds, Records, Updates, GroupEnd;
    var first := batches[0];
    group := first;
    Sized(first.rep, first.sequence, first.updates);
    var size: nat := |first.rep|;
    var maxSize: nat := if size <= 0x2_0000 then size + 0x2_0000 else 0x10_0000;
    count := 1;
    OneWriter(queue[0]);
    assert queue[..1] == [queue[0]];
    while count < |batches|
      invariant 1 <= count <= |batches|
      invariant Matches(batches, syncs, queue)
      invariant GroupEnd(queue, queue[0].sync, maxSize, count, size) == Group(queue)
      invariant group == first || group == tmp
      invariant group == first ==> tmp.Ok() && tmp.updates == []
      invariant group.Ok() && group.updates == Updates(queue[..count])
    {
      var w := batches[count];
      GroupStep(queue, maxSize, count, size);
      if syncs[count] && !syncs[0] { return; }
      UpdatesConcat(queue[..count], [queue[count]]);
      OneWriter(queue[count]);
      assert queue[..count + 1] == queue[..count] + [queue[count]];
      if w != null {
        Sized(w.rep, w.sequence, w.updates);
        size := size + |w.rep|;
        if size > maxSize { return; }
        if group == first {
          group := tmp;
          group.Append(first);
        }
        group.Append(w);
      }
      count := count + 1;
    }
  }

  lemma GroupStep(queue: seq<Writer>, max: nat, i: nat, size: nat)
    requires 0 < i < |queue|
    ensures var sync, w := queue[0].sync, queue[i];
      var more := if w.batch.Some? then size + ByteSize(w.batch.value) else size;
      GroupEnd(queue, sync, max, i, size) ==
        if (w.sync && !sync) || (w.batch.Some? && more > max) then i else GroupEnd(queue, sync, max, i + 1, more)
  {
  }

  lemma OneWriter(w: Writer)
    ensures Updates([w]) == UpdatesOf(w)
  {
  }

  lemma Sized(rep: Bytes, sequence: nat, us: seq<Update>)
    requires Holds(rep, sequence, us)
    ensures |rep| == ByteSize(us)
  {
  }

  // ---- The machine.

  // One log record: a group's updates, the first of which has sequence number `first`.
  datatype LogRecord = LogRecord(first: nat, updates: seq<Update>)

  datatype Answer = Answer(writer: Writer, ok: bool, record: Option<nat>)

  datatype Stage = Logging | Syncing | Inserting | Finishing

  // The front writer at work for the first `count` writers of the queue.
  datatype Active = Active(count: nat, record: LogRecord, logged: bool, stage: Stage, ok: bool)

  datatype State = State(
    arrived: seq<Writer>, answered: seq<Answer>, queue: seq<Writer>, active: Option<Active>, last: nat,
    log: seq<LogRecord>, synced: nat, mem: seq<Numbered>, error: bool, skipped: bool)

  datatype Action =
    | Arrive(writer: Writer)
    | Pass(ok: bool)
    | Lead
    | Log(ok: bool)
    | Sync(ok: bool)
    | Insert
    | Finish

  predicate Enabled(s: State, a: Action) {
    match a
    case Arrive(w) => forall v :: v in s.arrived ==> v.id != w.id
    // No room could be made, or there was nothing to write.
    case Pass(ok) => s.active.None? && |s.queue| > 0 && (ok ==> s.queue[0].batch.None? && !s.error)
    case Lead => s.active.None? && |s.queue| > 0 && s.queue[0].batch.Some? && !s.error
    case Log(ok) => s.active.Some? && s.active.value.stage.Logging?
    case Sync(ok) => s.active.Some? && s.active.value.stage.Syncing?
    case Insert => s.active.Some? && s.active.value.stage.Inserting?
    case Finish => s.active.Some? && s.active.value.stage.Finishing? && s.active.value.count <= |s.queue|
  }

  function Do(s: State, a: Action): State
    requires Enabled(s, a)
  {
    match a
    case Arrive(w) => s.(arrived := s.arrived + [w], queue := s.queue + [w])
    case Pass(ok) => s.(answered := s.answered + [Answer(s.queue[0], ok, None)], queue := s.queue[1..])
    case Lead =>
      var n := Group(s.queue);
      s.(active := Some(Active(n, LogRecord(s.last + 1, Updates(s.queue[..n])), false, Logging, true)))
    case Log(ok) =>
      var c := s.active.value;
      if !ok then s.(active := Some(c.(stage := Finishing, ok := false)), skipped := true)
      else
        var stage := if |s.queue| > 0 && s.queue[0].sync then Syncing else Inserting;
        s.(active := Some(c.(stage := stage, logged := true)), log := s.log + [c.record])
    // A failed sync leaves the log in doubt: every later write fails.
    case Sync(ok) =>
      var c := s.active.value;
      if ok then s.(active := Some(c.(stage := Inserting)), synced := |s.log|)
      else s.(active := Some(c.(stage := Finishing, ok := false)), error := true)
    case Insert =>
      var c := s.active.value;
      s.(active := Some(c.(stage := Finishing)), mem := s.mem + Number(c.record.first, c.record.updates))
    case Finish =>
      var c := s.active.value;
      var answers := Answers(s.queue[..c.count], c.ok, if c.logged && |s.log| > 0 then Some(|s.log| - 1) else None);
      s.(active := None, answered := s.answered + answers, queue := s.queue[c.count..],
         last := s.last + |c.record.updates|)
  }

  function Answers(ws: seq<Writer>, ok: bool, record: Option<nat>): (r: seq<Answer>)
    ensures |r| == |ws| && forall i :: 0 <= i < |ws| ==> r[i] == Answer(ws[i], ok, record)
  {
    seq(|ws|, i requires 0 <= i < |ws| => Answer(ws[i], ok, record))
  }

  // ---- The invariant.

  function Writers(answers: seq<Answer>): (ws: seq<Writer>)
    ensures |ws| == |answers| && forall i :: 0 <= i < |ws| ==> ws[i] == answers[i].writer
  {
    seq(|answers|, i requires 0 <= i < |answers| => answers[i].writer)
  }

  /** The writers whose updates are in the log, in the order they were taken. */
  function Logged(answers: seq<Answer>): seq<Writer> {
    if |answers| == 0 then []
    else
      var a := answers[|answers| - 1];
      Logged(answers[..|answers| - 1]) + (if a.record.Some? then [a.writer] else [])
  }

  /** The writers answered for record r. */
  function Taken(answers: seq<Answer>, r: nat): seq<Writer> {
    if |answers| == 0 then []
    else
      var a := answers[|answers| - 1];
      Taken(answers[..|answers| - 1], r) + (if a.record == Some(r) then [a.writer] else [])
  }

  function Flat(log: seq<LogRecord>): seq<Update> {
    if |log| == 0 then [] else Flat(log[..|log| - 1]) + log[|log| - 1].updates
  }

  function NumberAll(log: seq<LogRecord>): seq<Numbered> {
    if |log| == 0 then []
    else NumberAll(log[..|log| - 1]) + Number(log[|log| - 1].first, log[|log| - 1].updates)
  }

  function EndOf(r: LogRecord): nat {
    r.first + |r.updates|
  }

  // Every writer is waiting or has its one answer, in order of arrival.
  predicate QueueOk(s: State) {
    Writers(s.answered) + s.queue == s.arrived
  }

  predicate ActiveOk(s: State) {
    s.active.Some? ==>
      var c := s.active.value;
      && 0 < c.count <= |s.queue|
      && c.record == LogRecord(s.last + 1, Updates(s.queue[..c.count]))
      && (forall i :: 0 <= i < c.count ==> s.queue[i].sync ==> s.queue[0].sync)
      && (c.logged ==> |s.log| > 0 && s.log[|s.log| - 1] == c.record)
      && (c.stage.Logging? ==> !c.logged && c.ok)
      && (c.stage.Syncing? || c.stage.Inserting? ==> c.logged && c.ok)
      && (c.ok && !c.stage.Logging? ==> c.logged)
      && (!c.logged && c.stage.Finishing? ==> !c.ok && s.skipped)
      && (c.ok && (c.stage.Inserting? || c.stage.Finishing?) && s.queue[0].sync ==> s.synced == |s.log|)
  }

  // Sequence ranges of successive records are disjoint and ascend, and are consecutive while no record failed.
  predicate RangesOk(s: State) {
    && (forall i, j :: 0 <= i < j < |s.log| ==> EndOf(s.log[i]) <= s.log[j].first)
    && (forall i :: 0 <= i < |s.log| ==> s.log[i].first > 0 && EndOf(s.log[i]) <= Reserved(s))
    && (!s.skipped ==>
      && (forall i :: 0 < i < |s.log| ==> s.log[i].first == EndOf(s.log[i - 1]))
      && Reserved(s) == (if |s.log| == 0 then 1 else EndOf(s.log[|s.log| - 1])))
  }

  // The first sequence number not given to a logged record.
  function Reserved(s: State): nat {
    if s.active.Some? && s.active.value.logged then EndOf(s.active.value.record) else s.last + 1
  }

  // The log holds the taken batches, each once, in the order of the queue.
  predicate ContentOk(s: State) {
    Flat(s.log) == Updates(Logged(s.answered))
      + (if s.active.Some? && s.active.value.logged then s.active.value.record.updates else [])
  }

  // The records whose writers have been answered.
  function Settled(s: State): nat {
    if s.active.Some? && s.active.value.logged && |s.log| > 0 then |s.log| - 1 else |s.log|
  }

  // Each of them is made of the batches of exactly the writers answered for it.
  predicate RecordsOk(s: State) {
    && (forall a :: a in s.answered && a.record.Some? ==> a.record.value < Settled(s))
    && forall r :: 0 <= r < Settled(s) ==> s.log[r].updates == Updates(Taken(s.answered, r))
  }

  // A writer told OK has its batch in a record; if it asked for a sync, in a synced one.
  predicate AnswersOk(s: State) {
    && s.synced <= |s.log|
    && forall a :: a in s.answered ==>
      && (a.record.Some? ==> a.record.value < |s.log|)
      && (a.ok && a.writer.batch.Some? ==> a.record.Some? && (a.writer.sync ==> a.record.value < s.synced))
  }

  // The memtable has the logged updates under their sequence numbers, but for a record at work or one that failed.
  predicate MemOk(s: State) {
    if s.active.Some? && s.active.value.logged && !s.active.value.stage.Finishing? then
      |s.log| > 0 && s.mem == NumberAll(s.log[..|s.log| - 1])
    else if !s.error then s.mem == NumberAll(s.log)
    else |s.log| > 0 && s.mem == NumberAll(s.log[..|s.log| - 1]) && (s.active.Some? ==> s.active.value.stage.Finishing?)
  }

  predicate Inv(s: State) {
    QueueOk(s) && ActiveOk(s) && RangesOk(s) && ContentOk(s) && RecordsOk(s) && AnswersOk(s) && MemOk(s)
      && (s.error ==> s.active.Some? ==> s.active.value.stage.Finishing?)
  }

  lemma FlatAppend(log: seq<LogRecord>, r: LogRecord)
    ensures Flat(log + [r]) == Flat(log) + r.updates
    ensures NumberAll(log + [r]) == NumberAll(log) + Number(r.first, r.updates)
  {
  }

  lemma {:induction false} LoggedAppend(answers: seq<Answer>, ws: seq<Writer>, ok: bool, record: Option<nat>)
    ensures Logged(answers + Answers(ws, ok, record)) == Logged(answers) + (if record.Some? then ws else [])
  {
    if |ws| == 0 {
      assert answers + Answers(ws, ok, record) == answers;
    } else {
      var n := |ws| - 1;
      LoggedAppend(answers, ws[..n], ok, record);
      var all := answers + Answers(ws, ok, record);
      assert all[..|all| - 1] == answers + Answers(ws[..n], ok, record);
      assert ws == ws[..n] + [ws[n]];
    }
  }

  lemma {:induction false} TakenAppend(answers: seq<Answer>, ws: seq<Writer>, ok: bool, record: Option<nat>, r: nat)
    ensures Taken(answers + Answers(ws, ok, record), r) == Taken(answers, r) + (if record == Some(r) then ws else [])
  {
    if |ws| == 0 {
      assert answers + Answers(ws, ok, record) == answers;
    } else {
      var n := |ws| - 1;
      TakenAppend(answers, ws[..n], ok, record, r);
      var all := answers + Answers(ws, ok, record);
      assert all[..|all| - 1] == answers + Answers(ws[..n], ok, record);
      assert ws == ws[..n] + [ws[n]];
    }
  }

  lemma {:induction false} NoneTaken(answers: seq<Answer>, r: nat)
    requires forall a :: a in answers ==> a.record != Some(r)
    ensures Taken(answers, r) == []
  {
    if |answers| > 0 { NoneTaken(answers[..|answers| - 1], r); }
  }

  // Answering the first n writers of the queue keeps everyone in order of arrival.
  lemma AnsweredInOrder(answered: seq<Answer>, queue: seq<Writer>, n: nat, ok: bool, record: Option<nat>)
    requires n <= |queue|
    ensures Writers(answered + Answers(queue[..n], ok, record)) + queue[n..] == Writers(answered) + queue
  {
  }

  lemma ArriveKeeps(s: State, w: Writer)
    requires Inv(s) && Enabled(s, Arrive(w))
    ensures Inv(Do(s, Arrive(w)))
  {
    hide RangesOk, ContentOk, RecordsOk, AnswersOk, MemOk, Updates, Writers;
    QueueGrows(s, Do(s, Arrive(w)));
    assert Writers(s.answered) + (s.queue + [w]) == Writers(s.answered) + s.queue + [w];
    if s.active.Some? {
      assert (s.queue + [w])[..s.active.value.count] == s.queue[..s.active.value.count];
    }
  }

  lemma QueueGrows(s: State, t: State)
    requires RangesOk(s) && ContentOk(s) && RecordsOk(s) && AnswersOk(s) && MemOk(s)
    requires t == s.(arrived := t.arrived, queue := t.queue)
    ensures RangesOk(t) && ContentOk(t) && RecordsOk(t) && AnswersOk(t) && MemOk(t)
  {
    hide Updates, Logged, Flat, NumberAll, Taken;
  }

  lemma PassKeeps(s: State, ok: bool)
    requires Inv(s) && Enabled(s, Pass(ok))
    ensures Inv(Do(s, Pass(ok)))
  {
    hide Updates, Logged, Flat, NumberAll, Taken, Writers, RangesOk, MemOk;
    var w, t := s.queue[0], Do(s, Pass(ok));
    PassRecords(s.answered, w, ok);
    AnsweredInOrder(s.answered, s.queue, 1, ok, None);
    assert s.queue[..1] == [w];
    assert Answers([w], ok, None) == [Answer(w, ok, None)];
    hide Answers;
    SameMemory(s, t);
  }

  // An answer without a record leaves what the log holds.
  lemma PassRecords(answered: seq<Answer>, w: Writer, ok: bool)
    ensures Logged(answered + [Answer(w, ok, None)]) == Logged(answered)
    ensures forall r: nat :: Taken(answered + [Answer(w, ok, None)], r) == Taken(answered, r)
  {
    assert Answers([w], ok, None) == [Answer(w, ok, None)];
    LoggedAppend(answered, [w], ok, None);
    forall r: nat ensures Taken(answered + [Answer(w, ok, None)], r) == Taken(answered, r) {
      TakenAppend(answered, [w], ok, None, r);
    }
  }

  lemma SameMemory(s: State, t: State)
    requires RangesOk(s) && MemOk(s) && t == s.(answered := t.answered, queue := t.queue)
    ensures RangesOk(t) && MemOk(t)
  {
    hide NumberAll;
  }

  lemma LeadKeeps(s: State)
    requires Inv(s) && Enabled(s, Lead)
    ensures Inv(Do(s, Lead))
  {
    hide Updates, Logged, Flat, NumberAll, Number, Writers, Answers, Taken;
  }

  lemma LogKeeps(s: State, ok: bool)
    requires Inv(s) && Enabled(s, Log(ok))
    ensures Inv(Do(s, Log(ok)))
  {
    hide Updates, Logged, Flat, NumberAll, Number, Writers, Answers, Group, RangesOk, Taken;
    LogRanges(s, ok);
    if ok { LogContent(s); }
  }

  lemma LogContent(s: State)
    requires Inv(s) && Enabled(s, Log(true))
    ensures ContentOk(Do(s, Log(true))) && MemOk(Do(s, Log(true))) && AnswersOk(Do(s, Log(true)))
  {
    hide Taken;
  }

  lemma LogRanges(s: State, ok: bool)
    requires RangesOk(s) && ActiveOk(s) && Enabled(s, Log(ok))
    ensures RangesOk(Do(s, Log(ok)))
  {
    hide Updates, Group;
  }

  lemma SyncKeeps(s: State, ok: bool)
    requires Inv(s) && Enabled(s, Sync(ok))
    ensures Inv(Do(s, Sync(ok)))
  {
    hide Updates, Logged, Flat, NumberAll, Number, Writers, Answers, Group, Taken;
  }

  lemma InsertKeeps(s: State)
    requires Inv(s) && Enabled(s, Insert)
    ensures Inv(Do(s, Insert))
  {
    hide Updates, Logged, Flat, NumberAll, Number, Writers, Answers, Group, RangesOk, AnswersOk, Taken;
    var n := |s.log| - 1;
    FlatAppend(s.log[..n], s.log[n]);
    assert s.log[..n] + [s.log[n]] == s.log;
    SameRanges(s, Do(s, Insert));
  }

  lemma SameRanges(s: State, t: State)
    requires RangesOk(s) && AnswersOk(s) && t.log == s.log && t.skipped == s.skipped && Reserved(t) == Reserved(s)
    requires t.answered == s.answered && t.synced == s.synced
    ensures RangesOk(t) && AnswersOk(t)
  {
  }

  lemma FinishKeeps(s: State)
    requires Inv(s) && Enabled(s, Finish)
    ensures Inv(Do(s, Finish))
  {
    hide Updates, Logged, Flat, NumberAll, Writers, AnswersOk, ContentOk, RecordsOk, Taken;
    var c := s.active.value;
    AnsweredInOrder(s.answered, s.queue, c.count, c.ok, if c.logged then Some(|s.log| - 1) else None);
    FinishContent(s);
    FinishRecords(s);
    FinishAnswers(s);
  }

  lemma FinishRecords(s: State)
    requires RecordsOk(s) && ActiveOk(s) && Enabled(s, Finish)
    ensures RecordsOk(Do(s, Finish))
  {
    hide Updates, Taken;
    var c, t := s.active.value, Do(s, Finish);
    var ws, record := s.queue[..c.count], if c.logged then Some(|s.log| - 1) else None;
    forall r | 0 <= r < |t.log| ensures t.log[r].updates == Updates(Taken(t.answered, r)) {
      TakenAppend(s.answered, ws, c.ok, record, r);
      assert Taken(s.answered, r) + [] == Taken(s.answered, r);
      if record == Some(r) {
        NoneTaken(s.answered, r);
        assert [] + ws == ws;
      }
    }
  }

  lemma FinishContent(s: State)
    requires ContentOk(s) && ActiveOk(s) && Enabled(s, Finish)
    ensures ContentOk(Do(s, Finish))
  {
    hide Updates, Logged, Flat, Answers;
    var c := s.active.value;
    var ws := s.queue[..c.count];
    LoggedAppend(s.answered, ws, c.ok, if c.logged then Some(|s.log| - 1) else None);
    UpdatesConcat(Logged(s.answered), ws);
    assert Logged(s.answered) + [] == Logged(s.answered);
    assert Updates(Logged(s.answered) + ws) + [] == Updates(Logged(s.answered) + ws);
  }

  lemma FinishAnswers(s: State)
    requires AnswersOk(s) && ActiveOk(s) && Enabled(s, Finish)
    ensures AnswersOk(Do(s, Finish))
  {
  }

  lemma StepKeeps(s: State, a: Action)
    requires Inv(s) && Enabled(s, a)
    ensures Inv(Do(s, a))
  {
    hide Inv, Enabled, Do;
    match a
    case Arrive(w) => ArriveKeeps(s, w);
    case Pass(ok) => PassKeeps(s, ok);
    case Lead => LeadKeeps(s);
    case Log(ok) => LogKeeps(s, ok);
    case Sync(ok) => SyncKeeps(s, ok);
    case Insert => InsertKeeps(s);
    case Finish => FinishKeeps(s);
  }

  predicate Fresh(s: State) {
    s == State([], [], [], None, 0, [], 0, [], false, false)
  }

  predicate Run(s: State, actions: seq<Action>, t: State)
    decreases |actions|
  {
    if |actions| == 0 then t == s
    else Enabled(s, actions[0]) && Run(Do(s, actions[0]), actions[1..], t)
  }

  lemma {:induction false} RunKeeps(s: State, actions: seq<Action>, t: State)
    requires Inv(s) && Run(s, actions, t)
    ensures Inv(t)
    decreases |actions|
  {
    hide Inv, Enabled, Do;
    if |actions| > 0 {
      StepKeeps(s, actions[0]);
      RunKeeps(Do(s, actions[0]), actions[1..], t);
    }
  }

  /**
   Every interleaving of writers: each is answered once, in order of arrival; the log holds the batches of the writers
   it took, each once, in that order, each record those of the writers answered for it, under ascending sequence
   numbers that leave no gap unless a record failed; and whoever was told OK is logged, and synced if it asked for it.
   */
  lemma GroupCommit(s: State, actions: seq<Action>, t: State)
    requires Fresh(s) && Run(s, actions, t)
    ensures Writers(t.answered) + t.queue == t.arrived
    ensures t.active.None? ==> Flat(t.log) == Updates(Logged(t.answered))
    ensures t.active.None? ==> forall r :: 0 <= r < |t.log| ==> t.log[r].updates == Updates(Taken(t.answered, r))
    ensures forall i, j :: 0 <= i < j < |t.log| ==> EndOf(t.log[i]) <= t.log[j].first
    ensures !t.skipped ==> forall i :: 0 < i < |t.log| ==> t.log[i].first == EndOf(t.log[i - 1])
    ensures forall a :: a in t.answered && a.ok && a.writer.batch.Some? ==>
      a.record.Some? && a.record.value < (if a.writer.sync then t.synced else |t.log|)
    ensures t.active.None? && !t.error ==> t.mem == NumberAll(t.log)
  {
    hide Run, Enabled, Do, Flat, Logged, Updates, NumberAll, Taken;
    assert Inv(s) by { StartOk(s); }
    RunKeeps(s, actions, t);
    assert t.active.None? ==> Updates(Logged(t.answered)) + [] == Updates(Logged(t.answered));
  }

  lemma StartOk(s: State)
    requires Fresh(s)
    ensures Inv(s)
  {
  }

  // ---- Recovering the log.

  function RecordBytes(log: seq<LogRecord>): (r: seq<Bytes>)
    requires forall i :: 0 <= i < |log| ==> log[i].first < LONG
    ensures |r| == |log| && forall i :: 0 <= i < |log| ==> r[i] == Rep(log[i].first, log[i].updates)
  {
    seq(|log|, i requires 0 <= i < |log| => Rep(log[i].first, log[i].updates))
  }

  ghost predicate WellFormed(log: seq<LogRecord>) {
    forall i :: 0 <= i < |log| ==>
      log[i].first < LONG && |log[i].updates| < WORD && forall u :: u in log[i].updates ==> Fits(u)
  }

  lemma WordFits(n: nat)
    requires n < WORD
    ensures n % WORD == n
  {
  }

  // What RecoverLogFile makes of one record.
  lemma RecordRecovered(r: LogRecord, rep: Bytes)
    requires r.first < LONG && |r.updates| < WORD && forall u :: u in r.updates ==> Fits(u)
    requires rep == Rep(r.first, r.updates)
    ensures SequenceOf(rep) == r.first && CountOf(rep) == |r.updates|
    ensures Replay(rep[BATCH_HEADER..]) == (true, r.updates)
  {
    hide *;
    WordFits(|r.updates|);
    HeaderRoundTrip(r.first, r.updates);
    ReplayRoundTrip(r.updates);
  }

  function MaxSequence(log: seq<LogRecord>): int {
    if |log| == 0 then 0
    else
      var rest, last := MaxSequence(log[..|log| - 1]), log[|log| - 1];
      if EndOf(last) - 1 > rest then EndOf(last) - 1 else rest
  }

  /**
   RecoverLogFile on a log cut at any byte: the memtable gets the updates of the whole records before the cut, under
   the sequence numbers they were written with.
   */
  method RecoverLogFile(step: Wal.Step, file: Bytes, ghost log: seq<LogRecord>, ghost n: nat)
    returns (ok: bool, mem: seq<Numbered>, maxSequence: int, ghost k: nat)
    requires WellFormed(log) && n <= |Wal.LogFrom(step, 0, RecordBytes(log))|
    requires file == Wal.LogFrom(step, 0, RecordBytes(log))[..n]
    ensures ok && k <= |log| && mem == NumberAll(log[..k]) && maxSequence == MaxSequence(log[..k])
    ensures |Wal.LogFrom(step, 0, RecordBytes(log)[..k])| <= n
    ensures k < |log| ==> n < |Wal.LogFrom(step, 0, RecordBytes(log)[..k + 1])|
  {
    hide Wal.LogFrom, Wal.ReadAll, Rep, Replay, SequenceOf, CountOf;
    k := Wal.CutExists(step, RecordBytes(log), n);
    var records, _ := Wal.ReadLog(step, file);
    ok, mem, maxSequence := true, [], 0;
    for i := 0 to |records|
      invariant ok && mem == NumberAll(log[..i]) && maxSequence == MaxSequence(log[..i])
    {
      RecordRecovered(log[i], records[i]);
      assert log[..i + 1] == log[..i] + [log[i]];
      FlatAppend(log[..i], log[i]);
      // No record is shorter than a batch header, so the source's check for that never fires.
      var entries;
      ok, entries := InsertInto(records[i]);
      mem := mem + entries;
      var last := SequenceOf(records[i]) + CountOf(records[i]) - 1;
      assert log[..i + 1][..i] == log[..i];
      if last > maxSequence { maxSequence := last; }
    }
    assert log[..|records|] == log[..k];
  }
}
