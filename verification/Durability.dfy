/**
 What survives: a synced write in a log cut anywhere after it, and everything logged in a
 database that is reopened, across the modules that each prove a part of it.
 */
module Durability {
  import opened Keys
  import opened Store
  import opened Files
  import Compactor
  import StoreMachine
  import Batch
  import WriteQueue
  import Wal
  import Recovery
  import R = Reads

  // ---- A log that loses its end.

  lemma {:induction false} LongerLog(step: Wal.Step, records: seq<Bytes>, a: nat, b: nat)
    requires a <= b <= |records|
    ensures |Wal.LogFrom(step, 0, records[..a])| <= |Wal.LogFrom(step, 0, records[..b])|
    decreases b
  {
    hide Wal.LogFrom, Wal.Emit;
    if a < b {
      LongerLog(step, records, a, b - 1);
      Wal.LogAppend(step, 0, records[..b - 1], records[b - 1]);
      assert records[..b - 1] + [records[b - 1]] == records[..b];
    }
  }

  /**
   After any run of writers, a log that is cut no earlier than its last sync gives back a
   memtable with the record of every writer that asked for a sync and was told OK; that record
   is made of the batches of the writers answered for it.
   */
  method SyncedSurvive(step: Wal.Step, file: Bytes, ghost s: WriteQueue.State, ghost actions: seq<WriteQueue.Action>,
                       ghost t: WriteQueue.State, ghost n: nat)
    returns (mem: seq<Batch.Numbered>, ghost k: nat)
    requires WriteQueue.Fresh(s) && WriteQueue.Run(s, actions, t) && t.active.None? && WriteQueue.WellFormed(t.log)
    requires t.synced <= |t.log|
    requires |Wal.LogFrom(step, 0, WriteQueue.RecordBytes(t.log)[..t.synced])| <= n
    requires n <= |Wal.LogFrom(step, 0, WriteQueue.RecordBytes(t.log))|
    requires file == Wal.LogFrom(step, 0, WriteQueue.RecordBytes(t.log))[..n]
    ensures t.synced <= k <= |t.log| && mem == WriteQueue.NumberAll(t.log[..k])
    ensures forall a :: a in t.answered && a.ok && a.writer.sync && a.writer.batch.Some? ==>
      && a.record.Some? && a.record.value < k
      && t.log[a.record.value].updates == WriteQueue.Updates(WriteQueue.Taken(t.answered, a.record.value))
  {
    WriteQueue.GroupCommit(s, actions, t);
    hide *;
    var ok, maxSequence;
    ok, mem, maxSequence, k := WriteQueue.RecoverLogFile(step, file, t.log, n);
    if k < t.synced { LongerLog(step, WriteQueue.RecordBytes(t.log), k + 1, t.synced); }
  }

  // ---- A database that is reopened.

  /** The entries logged can be listed in the order they were written. */
  lemma {:induction false} HistoryList(H: set<Entry>) returns (history: seq<Entry>)
    requires R.Stamped(H)
    ensures Ascending(history) && Elems(history) == H
    decreases H
  {
    if H == {} {
      history := [];
    } else {
      var e := Latest(H);
      var rest := HistoryList(H - {e});
      history := rest + [e];
      forall i | 0 <= i < |rest| ensures rest[i].key.sequence < e.key.sequence {
        assert rest[i] in Elems(rest);
      }
      ElemsConcat(rest, [e]);
      assert Elems([e]) == {e};
    }
  }

  lemma {:induction false} Latest(H: set<Entry>) returns (e: Entry)
    requires H != {}
    ensures e in H && forall f :: f in H ==> f.key.sequence <= e.key.sequence
    decreases H
  {
    e :| e in H;
    if H - {e} != {} {
      var f := Latest(H - {e});
      if e.key.sequence < f.key.sequence { e := f; }
    }
  }

  /**
   Whatever was flushed, compacted, deleted, failed or lost with the process before: an open
   database reads as the history of everything logged, and so does one reopened from its disk.
   */
  lemma ReopenedReads(s: Recovery.State, actions: seq<Recovery.Action>, t: Recovery.State, history: seq<Entry>,
                      u: UserKey, value: Bytes)
    requires Recovery.Fresh(s) && Recovery.Run(s, actions, t) && Ascending(history) && Elems(history) == t.history
    ensures R.Shows(Recovery.Data(t.tables, t.manifest.version.tables, t.logs, t.manifest.log), u, MAX_SEQUENCE, value)
            <==> HistoryGet(history, u, MAX_SEQUENCE) == Some(value)
    ensures t.phase.Up? ==>
      (R.Shows(Recovery.Data(t.tables, t.current.tables, t.logs, t.logNumber), u, MAX_SEQUENCE, value)
       <==> HistoryGet(history, u, MAX_SEQUENCE) == Some(value))
  {
    Recovery.NothingLost(s, actions, t);
    HistoryShows(history, u, MAX_SEQUENCE, value);
    var disk := Recovery.Data(t.tables, t.manifest.version.tables, t.logs, t.manifest.log);
    hide Recovery.Data, Recovery.Run, R.Shows, R.Agree, HistoryGet;
    R.AgreeShows(disk, t.history, u, MAX_SEQUENCE, value);
    if t.phase.Up? {
      var live := Recovery.Data(t.tables, t.current.tables, t.logs, t.logNumber);
      R.AgreeShows(live, t.history, u, MAX_SEQUENCE, value);
    }
  }

  /** The premise of Recovery's compactions holds of every compaction the store has under way. */
  lemma PremiseHolds(st: State)
    requires StoreMachine.Inv(st) && st.compaction.Compacting? && LevelsOk(st.compaction.base)
    ensures var c := st.compaction;
      Recovery.NothingOlderBeside(Others(st.version, c.level, c.files0, c.files1), c.inputs,
                                  Compactor.BaseKeys(c.base, c.level))
  {
    var c := st.compaction;
    hide Faithful, Others, Compactor.BaseKeys, JobOk;
    forall x, e | x in Others(st.version, c.level, c.files0, c.files1) && e in c.inputs && x.key.user == e.key.user
                  && e.key.user in Compactor.BaseKeys(c.base, c.level)
      ensures e.key.sequence < x.key.sequence
    {
      OthersNewer(st.version, c, x, e);
    }
  }
}
