/** The compaction loop: what it writes, and where it may cut its output files. */
module Compactor {
  import opened Keys
  import opened Files
  import opened Dropping
  import R = Reads

  ghost function Concat(outputs: seq<seq<Entry>>): seq<Entry> {
    if |outputs| == 0 then [] else Concat(outputs[..|outputs| - 1]) + outputs[|outputs| - 1]
  }

  /** The closed outputs, all non-empty, and the one being built hold exactly `written`. */
  ghost predicate Holds(outputs: seq<seq<Entry>>, open: seq<Entry>, written: seq<Entry>) {
    Concat(outputs) + open == written && forall i :: 0 <= i < |outputs| ==> |outputs[i]| > 0
  }

  lemma CloseKeeps(outputs: seq<seq<Entry>>, open: seq<Entry>, written: seq<Entry>)
    requires Holds(outputs, open, written) && open != []
    ensures Holds(outputs + [open], [], written)
  {
  }

  lemma AppendKeeps(outputs: seq<seq<Entry>>, open: seq<Entry>, written: seq<Entry>, e: Entry)
    requires Holds(outputs, open, written)
    ensures Holds(outputs, open + [e], written + [e])
  {
  }

  /** The user keys for which the compaction may drop a deletion. */
  ghost function BaseKeys(version: seq<seq<File>>, level: nat): iset<UserKey>
    requires LevelsOk(version)
  {
    iset u: UserKey | NoDeeperFile(version, level, u)
  }

  /** The drop rule at one entry, given the sequence of the previous version of its key. */
  method ShouldDrop(c: Compaction, ikey: InternalKey, lastSequenceForKey: Sequence, smallestSnapshot: Sequence)
    returns (drop: bool)
    requires c.Ok() && c.Passed(ikey.user)
    modifies c
    ensures c.Ok() && forall w :: ikey.user <= w ==> c.Passed(w)
    ensures drop <==>
              || lastSequenceForKey <= smallestSnapshot
              || (ikey.kind.Deletion? && ikey.sequence <= smallestSnapshot && ikey.user in BaseKeys(c.version, c.level))
  {
    drop := false;
    if lastSequenceForKey <= smallestSnapshot {
      // Hidden by a newer entry for the same user key.
      drop := true;
    } else if ikey.kind.Deletion? && ikey.sequence <= smallestSnapshot {
      drop := c.IsBaseLevelForKey(ikey.user);
    }
  }

  /**
   DoCompactionWork over the merged inputs.  `stopBefore` and `full` are the answers of
   ShouldStopBefore and of the size test at each entry; any answers are allowed.  The
   finished outputs are non-empty and together are exactly what the drop rule keeps,
   except at a bound of MAX_SEQUENCE: the loop marks a key not yet seen by that very
   number, takes it for a readable newer version, and keeps nothing at all.
   */
  method DoCompactionWork(c: Compaction, list: seq<Entry>, smallestSnapshot: Sequence,
                          stopBefore: seq<bool>, full: seq<bool>) returns (outputs: seq<seq<Entry>>)
    requires c.Ok() && forall u :: c.Passed(u)
    requires Sorted(list) && |stopBefore| == |list| && |full| == |list|
    modifies c
    ensures smallestSnapshot < MAX_SEQUENCE ==>
              Holds(outputs, [], Compacted(list, smallestSnapshot, BaseKeys(c.version, c.level), |list|))
    ensures smallestSnapshot == MAX_SEQUENCE ==> outputs == []
  {
    ghost var base := BaseKeys(c.version, c.level);
    ghost var written: seq<Entry> := [];
    assert Holds([], [], []);
    hide *;
    outputs := [];
    var open: seq<Entry> := [];  // the output being built; empty when there is none
    var currentUserKey: UserKey := 0.0;
    var hasCurrentUserKey := false;
    var lastSequenceForKey: Sequence := MAX_SEQUENCE;
    CompactedNone(list, smallestSnapshot, base);
    for i := 0 to |list|
      invariant c.Ok() && (i < |list| ==> c.Passed(list[i].key.user))
      invariant hasCurrentUserKey == (i > 0)
      invariant i > 0 ==> currentUserKey == list[i - 1].key.user && lastSequenceForKey == list[i - 1].key.sequence
      invariant Holds(outputs, open, written)
      invariant smallestSnapshot < MAX_SEQUENCE ==> written == Compacted(list, smallestSnapshot, base, i)
      invariant smallestSnapshot == MAX_SEQUENCE ==> outputs == [] && open == []
    {
      if stopBefore[i] && open != [] {
        CloseKeeps(outputs, open, written);
        outputs, open := outputs + [open], [];
      }
      var ikey := list[i].key;
      if !hasCurrentUserKey || ikey.user != currentUserKey {
        // First occurrence of this user key.
        currentUserKey, hasCurrentUserKey, lastSequenceForKey := ikey.user, true, MAX_SEQUENCE;
      }
      var drop := ShouldDrop(c, ikey, lastSequenceForKey, smallestSnapshot);
      lastSequenceForKey := ikey.sequence;
      NextKey(list, i);
      if smallestSnapshot < MAX_SEQUENCE { DropDecision(list, smallestSnapshot, base, i, drop); }
      if !drop {
        AppendKeeps(outputs, open, written, list[i]);
        open, written := open + [list[i]], written + [list[i]];
        if full[i] {
          CloseKeeps(outputs, open, written);
          outputs, open := outputs + [open], [];
        }
      }
    }
    if open != [] {
      CloseKeeps(outputs, open, written);
      outputs, open := outputs + [open], [];
    }
  }

  /**
   Keeping nothing at a bound of MAX_SEQUENCE is what the drop rule asks exactly when the
   newest version of every key is a deletion with nothing deeper.
   */
  lemma NothingKeptIff(list: seq<Entry>, base: iset<UserKey>)
    requires Sorted(list)
    ensures Compacted(list, MAX_SEQUENCE, base, |list|) == [] <==>
              forall i :: 0 <= i < |list| && FirstOfKey(list, i) ==>
                list[i].key.kind.Deletion? && list[i].key.user in base
  {
    var kept := Compacted(list, MAX_SEQUENCE, base, |list|);
    CompactedElems(list, MAX_SEQUENCE, base, |list|);
    forall i | 0 <= i < |list| ensures !Dropped(list, MAX_SEQUENCE, base, i) ==> list[i] in kept { }
    if kept != [] {
      assert kept[0] in kept;
      var i :| 0 <= i < |list| && kept[0] == list[i] && !Dropped(list, MAX_SEQUENCE, base, i);
      assert FirstOfKey(list, i);
    }
  }

  /** Otherwise a read is lost: here the one value of a store, which the drop rule keeps and the loop does not. */
  lemma LargestBoundLoses(value: Bytes)
    ensures var e := Entry(InternalKey(1.0, 1, Value), value);
            && Sorted([e]) && Compacted([e], MAX_SEQUENCE, iset{}, 1) == [e]
            && R.Shows({e}, 1.0, 1, value) && !R.Shows({}, 1.0, 1, value)
  {
    var e := Entry(InternalKey(1.0, 1, Value), value);
    assert Compacted([e], MAX_SEQUENCE, iset{}, 0) == [];
    assert R.Newest({e}, 1.0, 1, e);
  }

  predicate FirstOfKey(list: seq<Entry>, i: nat)
    requires i < |list|
  {
    i == 0 || list[i - 1].key.user != list[i].key.user
  }

  /** The loop's decision at i is the drop rule's, and the next key is no smaller. */
  lemma DropDecision(list: seq<Entry>, bound: Sequence, base: iset<UserKey>, i: nat, drop: bool)
    requires Sorted(list) && i < |list| && bound < MAX_SEQUENCE
    requires drop <==>
               || (if i > 0 && list[i].key.user == list[i - 1].key.user
                   then list[i - 1].key.sequence else MAX_SEQUENCE) <= bound
               || (list[i].key.kind.Deletion? && list[i].key.sequence <= bound && list[i].key.user in base)
    ensures drop <==> Dropped(list, bound, base, i)
    ensures Compacted(list, bound, base, i + 1) == Compacted(list, bound, base, i) + if drop then [] else [list[i]]
  {
  }

  lemma NextKey(list: seq<Entry>, i: nat)
    requires Sorted(list) && i < |list|
    ensures i + 1 < |list| ==> list[i].key.user <= list[i + 1].key.user
  {
  }

  lemma CompactedNone(list: seq<Entry>, bound: Sequence, base: iset<UserKey>)
    ensures Compacted(list, bound, base, 0) == []
  {
  }
}
