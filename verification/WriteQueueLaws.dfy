/** Laws of group commit stated from the actions: who arrived, what failed, and what every writer is told. */
module WriteQueueLaws {
  import opened Keys
  import opened Batch
  import opened WriteQueue

  // ---- Arrivals and failures.

  function Arrivals(actions: seq<Action>): seq<Writer> {
    if |actions| == 0 then []
    else (if actions[0].Arrive? then [actions[0].writer] else []) + Arrivals(actions[1..])
  }

  lemma StepFrame(s: State, a: Action)
    requires Enabled(s, a)
    ensures var t := Do(s, a);
      && t.arrived == s.arrived + (if a.Arrive? then [a.writer] else [])
      && (t.error <==> s.error || a == Sync(false)) && (t.skipped <==> s.skipped || a == Log(false))
  {
    hide Updates, Group, Number, Answers;
  }

  lemma InTail<T>(s: seq<T>, x: T)
    requires |s| > 0
    ensures x in s <==> x == s[0] || x in s[1..]
  {
    assert s == [s[0]] + s[1..];
  }

  /** Exactly the writers that arrived are there; a failed sync stops later writes, a failed append skips numbers. */
  lemma {:induction false} FromActions(s: State, actions: seq<Action>, t: State)
    requires Run(s, actions, t)
    ensures t.arrived == s.arrived + Arrivals(actions)
    ensures t.error <==> s.error || Sync(false) in actions
    ensures t.skipped <==> s.skipped || Log(false) in actions
    decreases |actions|
  {
    hide Enabled, Do;
    if |actions| > 0 {
      var a, next, rest := actions[0], Do(s, actions[0]), actions[1..];
      StepFrame(s, a);
      FromActions(next, rest, t);
      InTail(actions, Sync(false));
      InTail(actions, Log(false));
      assert s.arrived + ((if a.Arrive? then [a.writer] else []) + Arrivals(rest))
          == s.arrived + (if a.Arrive? then [a.writer] else []) + Arrivals(rest);
    }
  }

  // ---- What writers are told.

  /** Told OK is every writer with a record but those of the record whose sync failed, which is the last. */
  predicate Told(s: State) {
    && (forall a :: a in s.answered && a.record.Some? ==> (a.ok <==> !(s.error && a.record.value == |s.log| - 1)))
    && (s.active.Some? ==>
      var c := s.active.value;
      && (c.stage.Finishing? ==> (c.ok <==> c.logged && !s.error))
      && (s.error ==> c.logged))
    && (!s.skipped && |s.log| > 0 ==> s.log[0].first == 1)
  }

  lemma LogTold(s: State, ok: bool)
    requires Inv(s) && Told(s) && Enabled(s, Log(ok))
    ensures Told(Do(s, Log(ok)))
  {
    hide QueueOk, ContentOk, MemOk, Updates, Group, Number, Answers, Taken;
  }

  lemma SyncTold(s: State, ok: bool)
    requires Inv(s) && Told(s) && Enabled(s, Sync(ok))
    ensures Told(Do(s, Sync(ok)))
  {
    hide QueueOk, ContentOk, MemOk, Updates, Group, Number, Answers, Taken, RangesOk;
  }

  lemma FinishTold(s: State)
    requires Inv(s) && Told(s) && Enabled(s, Finish)
    ensures Told(Do(s, Finish))
  {
    hide QueueOk, ContentOk, MemOk, Updates, Group, Number, Taken, RangesOk;
  }

  lemma InsertTold(s: State)
    requires Inv(s) && Told(s) && Enabled(s, Insert)
    ensures Told(Do(s, Insert))
  {
    hide QueueOk, ContentOk, MemOk, Updates, Group, Number, Taken, RangesOk, RecordsOk, AnswersOk;
  }

  lemma OtherTold(s: State, a: Action)
    requires Told(s) && Enabled(s, a) && (a.Arrive? || a.Pass? || a.Lead?)
    ensures Told(Do(s, a))
  {
    hide Updates, Group;
  }

  lemma StepTold(s: State, a: Action)
    requires Inv(s) && Told(s) && Enabled(s, a)
    ensures Told(Do(s, a))
  {
    hide Inv, Told, Enabled, Do;
    match a
    case Log(ok) => LogTold(s, ok);
    case Sync(ok) => SyncTold(s, ok);
    case Insert => InsertTold(s);
    case Finish => FinishTold(s);
    case _ => OtherTold(s, a);
  }

  lemma {:induction false} RunTold(s: State, actions: seq<Action>, t: State)
    requires Inv(s) && Told(s) && Run(s, actions, t)
    ensures Inv(t) && Told(t)
    decreases |actions|
  {
    hide Inv, Told, Enabled, Do;
    if |actions| > 0 {
      StepKeeps(s, actions[0]);
      StepTold(s, actions[0]);
      RunTold(Do(s, actions[0]), actions[1..], t);
    }
  }

  /** A writer whose group was logged is told OK unless the sync of its own record failed. */
  lemma OkUnlessFailed(s: State, actions: seq<Action>, t: State, a: Answer)
    requires Fresh(s) && Run(s, actions, t) && a in t.answered && a.record.Some?
    ensures a.record.value < |t.log| && (a.ok <==> !(Sync(false) in actions && a.record.value == |t.log| - 1))
    ensures Log(false) !in actions ==> t.log[0].first == 1
  {
    hide Run, Enabled, Do;
    StartOk(s);
    RunTold(s, actions, t);
    FromActions(s, actions, t);
    assert AnswersOk(t);
  }

  predicate AllOk(s: State) {
    (forall a :: a in s.answered ==> a.ok) && (s.active.Some? ==> s.active.value.ok)
  }

  lemma StepAllOk(s: State, a: Action)
    requires AllOk(s) && Enabled(s, a) && a != Log(false) && a != Sync(false) && a != Pass(false)
    ensures AllOk(Do(s, a))
  {
    hide Updates, Group, Number;
  }

  /** Where nothing fails, everyone is told OK. */
  lemma {:induction false} NothingFailed(s: State, actions: seq<Action>, t: State)
    requires AllOk(s) && Run(s, actions, t)
    requires Log(false) !in actions && Sync(false) !in actions && Pass(false) !in actions
    ensures AllOk(t)
    decreases |actions|
  {
    hide Enabled, Do, AllOk;
    if |actions| > 0 {
      StepAllOk(s, actions[0]);
      NothingFailed(Do(s, actions[0]), actions[1..], t);
    }
  }

  // ---- What is in the memtable.

  /** The batch's updates are there under consecutive numbers of the record. */
  ghost predicate Present(mem: seq<Numbered>, r: LogRecord, us: seq<Update>) {
    exists k: nat {:trigger Number(k, us)} ::
      r.first <= k && k + |us| <= EndOf(r) && forall n :: n in Number(k, us) ==> n in mem
  }

  lemma {:induction false} BatchWithin(ws: seq<Writer>, w: Writer) returns (k: nat)
    requires w in ws && w.batch.Some?
    ensures k + |w.batch.value| <= |Updates(ws)| && Updates(ws)[k..k + |w.batch.value|] == w.batch.value
  {
    var n, us := |ws| - 1, w.batch.value;
    if ws[n] == w {
      k := |Updates(ws[..n])|;
    } else {
      k := BatchWithin(ws[..n], w);
      assert Updates(ws)[k..k + |us|] == Updates(ws[..n])[k..k + |us|];
    }
  }

  lemma {:induction false} AllNumbered(log: seq<LogRecord>, r: nat, n: Numbered)
    requires r < |log| && n in Number(log[r].first, log[r].updates)
    ensures n in NumberAll(log)
    decreases |log|
  {
    if r < |log| - 1 { AllNumbered(log[..|log| - 1], r, n); }
  }

  lemma {:induction false} NumbersBelow(log: seq<LogRecord>, bound: nat, n: Numbered)
    requires n in NumberAll(log) && forall i :: 0 <= i < |log| ==> EndOf(log[i]) <= bound
    ensures n.sequence < bound
    decreases |log|
  {
    var m := |log| - 1;
    if n in NumberAll(log[..m]) { NumbersBelow(log[..m], bound, n); }
  }

  lemma {:induction false} AnswerTaken(answers: seq<Answer>, a: Answer, r: nat)
    requires a in answers && a.record == Some(r)
    ensures a.writer in Taken(answers, r)
  {
    var n := |answers| - 1;
    if answers[n] != a { AnswerTaken(answers[..n], a, r); }
  }

  lemma PresentIn(log: seq<LogRecord>, r: nat, ws: seq<Writer>, w: Writer)
    requires r < |log| && log[r].updates == Updates(ws) && w in ws && w.batch.Some?
    ensures Present(NumberAll(log), log[r], w.batch.value)
  {
    hide NumberAll, Updates;
    var us, first := w.batch.value, log[r].first;
    var at := BatchWithin(ws, w);
    forall n | n in Number(first + at, us) ensures n in NumberAll(log) {
      var i :| 0 <= i < |us| && n == Number(first + at, us)[i];
      assert us[i] == log[r].updates[at..at + |us|][i];
      assert n == Number(first, log[r].updates)[at + i];
      AllNumbered(log, r, n);
    }
  }

  /**
   At any time: the updates of a writer with a record are in the memtable under the record's numbers if it was told OK,
   and if not, none of those numbers is.
   */
  lemma OkIffInserted(s: State, actions: seq<Action>, t: State, a: Answer)
    requires Fresh(s) && Run(s, actions, t) && a in t.answered && a.record.Some?
    ensures a.record.value < |t.log|
    ensures a.ok && a.writer.batch.Some? ==> Present(t.mem, t.log[a.record.value], a.writer.batch.value)
    ensures !a.ok ==> forall n :: n in t.mem ==> n.sequence < t.log[a.record.value].first
  {
    hide Run, Enabled, Do;
    StartOk(s);
    RunTold(s, actions, t);
    if a.ok && a.writer.batch.Some? { OkInserted(t, a); }
    if !a.ok { FailedOut(t, a); }
  }

  lemma OkInserted(t: State, a: Answer)
    requires Inv(t) && Told(t) && a in t.answered && a.record.Some? && a.ok && a.writer.batch.Some?
    ensures a.record.value < |t.log| && Present(t.mem, t.log[a.record.value], a.writer.batch.value)
  {
    hide Present, Updates, Taken, NumberAll, QueueOk, RangesOk, ContentOk;
    var r := a.record.value;
    AnswerTaken(t.answered, a, r);
    var n := if t.mem == NumberAll(t.log) then |t.log| else |t.log| - 1;
    assert t.log[..|t.log|] == t.log;
    assert t.mem == NumberAll(t.log[..n]) && r < n;
    PresentIn(t.log[..n], r, Taken(t.answered, r), a.writer);
  }

  lemma FailedOut(t: State, a: Answer)
    requires Inv(t) && Told(t) && a in t.answered && a.record.Some? && !a.ok
    ensures a.record.value < |t.log|
    ensures forall n :: n in t.mem ==> n.sequence < t.log[a.record.value].first
  {
    hide Updates, Taken, NumberAll, QueueOk, ContentOk;
    var m := |t.log| - 1;
    assert t.error && a.record.value == m && t.mem == NumberAll(t.log[..m]);
    forall n | n in t.mem ensures n.sequence < t.log[m].first {
      NumbersBelow(t.log[..m], t.log[m].first, n);
    }
  }

  // ---- Progress.

  function Left(stage: Stage): nat {
    match stage
    case Logging => 4
    case Syncing => 3
    case Inserting => 2
    case Finishing => 1
  }

  /** How many steps the machine can take before another writer comes. */
  function Work(s: State): nat {
    6 * |s.queue| + if s.active.Some? then Left(s.active.value.stage) else 5
  }

  /**
   While a writer waits some step is possible, and, unless a sync failed, one that is no failure; every step but an
   arrival is one less to go.
   */
  lemma NeverStuck(s: State)
    requires Inv(s)
    ensures |s.queue| > 0 ==> exists a: Action ::
      !a.Arrive? && Enabled(s, a) && (!s.error ==> a != Pass(false) && a != Log(false) && a != Sync(false))
    ensures forall a: Action :: !a.Arrive? && Enabled(s, a) ==> Work(Do(s, a)) < Work(s)
  {
    hide QueueOk, RangesOk, ContentOk, MemOk, RecordsOk, AnswersOk, Updates, Group, Number, Answers;
    if |s.queue| > 0 {
      if s.active.None? {
        if s.error { assert Enabled(s, Pass(false)); }
        else if s.queue[0].batch.Some? { assert Enabled(s, Lead); }
        else { assert Enabled(s, Pass(true)); }
      } else {
        match s.active.value.stage
        case Logging => assert Enabled(s, Log(true));
        case Syncing => assert Enabled(s, Sync(true));
        case Inserting => assert Enabled(s, Insert);
        case Finishing => assert Enabled(s, Finish);
      }
    }
  }
}
