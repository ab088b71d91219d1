/** The table iterator (table/two_level_iterator.cc): an index cursor and a data-block cursor that act as one. */
module TwoLevel {
  import opened Keys
  import opened Coding
  import opened Table

  // p is the position of the first entry not ahead of the key.
  ghost predicate IsFirst(all: seq<Pair>, k: IKey, p: nat) {
    && p <= |all|
    && (forall m :: 0 <= m < p ==> Ahead(all[m].key, k))
    && (forall m :: p <= m < |all| ==> !Ahead(all[m].key, k))
  }

  function LowerBound(all: seq<Pair>, k: IKey): (p: nat)
    ensures p <= |all|
  {
    if |all| == 0 || !Ahead(all[0].key, k) then 0 else 1 + LowerBound(all[1..], k)
  }

  lemma {:induction false} FirstUnique(all: seq<Pair>, k: IKey, p: nat)
    requires IsFirst(all, k, p)
    ensures p == LowerBound(all, k)
    decreases |all|
  {
    if p > 0 { FirstUnique(all[1..], k, p - 1); }
  }

  /** The index's block and the place in it lead to the first entry not ahead of the key, if need be one block on. */
  lemma SeekFinds(t: TableFile, all: seq<Pair>, cuts: seq<nat>, offsets: seq<nat>, k: IKey, i: nat, j: nat)
    requires TableOk(t, all, cuts, offsets) && i < |t.index|
    requires forall m :: 0 <= m < i ==> Ahead(t.index[m].key, k)
    requires !Ahead(t.index[i].key, k) && cuts[i] + j <= cuts[i + 1]
    requires forall m :: cuts[i] <= m < cuts[i] + j ==> Ahead(all[m].key, k)
    requires cuts[i] + j < cuts[i + 1] ==> !Ahead(all[cuts[i] + j].key, k)
    ensures IsFirst(all, k, cuts[i] + j)
  {
    var p := cuts[i] + j;
    forall m | 0 <= m < cuts[i]
      ensures Ahead(all[m].key, k)
    {
      NotBefore(t, all, cuts, offsets, k, i, m);
    }
    assert Separates(all, t.index[i].key, cuts[i + 1]);
  }

  lemma SeekPastEnd(t: TableFile, all: seq<Pair>, cuts: seq<nat>, offsets: seq<nat>, k: IKey)
    requires TableOk(t, all, cuts, offsets)
    requires forall m :: 0 <= m < |t.index| ==> Ahead(t.index[m].key, k)
    ensures IsFirst(all, k, |all|)
  {
    forall m | 0 <= m < |all|
      ensures Ahead(all[m].key, k)
    {
      NotBefore(t, all, cuts, offsets, k, |t.index|, m);
    }
  }

  datatype Op = First | Last | SeekTo(target: IKey) | Forward | Back

  /** The plain cursor over the table's entries: a position, or their number when it is on nothing. */
  function Step(all: seq<Pair>, pos: nat, op: Op): nat {
    match op
    case First => 0
    case Last => if |all| == 0 then 0 else |all| - 1
    case SeekTo(k) => LowerBound(all, k)
    case Forward => if pos < |all| then pos + 1 else pos
    case Back => if pos < |all| then if pos == 0 then |all| else pos - 1 else pos
  }

  function Position(all: seq<Pair>, ops: seq<Op>): nat {
    if |ops| == 0 then |all| else Step(all, Position(all, ops[..|ops| - 1]), ops[|ops| - 1])
  }

  class TwoLevelIterator {
    const t: TableFile
    ghost const all: seq<Pair>
    ghost const cuts: seq<nat>
    ghost const offsets: seq<nat>
    // The index cursor; it is past the end when it equals the index's length.
    var indexPos: nat
    // The data cursor, over the block it was made for; past the end when it equals the block's length.
    var data: Option<seq<Pair>>
    var dataPos: nat
    var dataHandle: nat
    ghost var pos: nat

    ghost predicate Made()
      reads this
    {
      && TableOk(t, all, cuts, offsets)
      && (data.Some? ==> dataHandle in t.file && data.value == t.file[dataHandle] && dataPos <= |data.value|)
      && indexPos <= |t.index|
    }

    // The data cursor is over the block the index cursor is at.
    ghost predicate At(i: nat)
      reads this
      requires Made()
    {
      i < |offsets| && indexPos == i && data.Some? && dataHandle == offsets[i]
    }

    ghost predicate Ok()
      reads this
    {
      && Made() && pos <= |all|
      && (if pos < |all| then At(indexPos) && pos == cuts[indexPos] + dataPos && dataPos < |data.value|
          else data.None? && pos == |all|)
    }

    constructor (t: TableFile, ghost all: seq<Pair>, ghost cuts: seq<nat>, ghost offsets: seq<nat>)
      requires TableOk(t, all, cuts, offsets)
      ensures Ok() && pos == |all| && this.all == all && this.t == t
    {
      this.t, this.all, this.cuts, this.offsets := t, all, cuts, offsets;
      indexPos, data, dataPos, dataHandle, pos := |t.index|, None, 0, 0, |all|;
    }

    predicate Valid()
      reads this
    {
      data.Some? && dataPos < |data.value|
    }

    method Current() returns (p: Pair)
      requires Ok() && Valid()
      ensures pos < |all| && p == all[pos]
    {
      Block(indexPos);
      p := data.value[dataPos];
    }

    // What block i holds.
    lemma Block(i: nat)
      requires TableOk(t, all, cuts, offsets) && i < |offsets|
      ensures |cuts| == |offsets| + 1 && |t.index| == |offsets| && t.index[i].handle == offsets[i]
      ensures 0 <= cuts[i] < cuts[i + 1] <= |all| && cuts[|offsets|] == |all|
      ensures offsets[i] in t.file && t.file[offsets[i]] == all[cuts[i]..cuts[i + 1]]
      ensures cuts[0] == 0
    {
    }

    lemma Ends()
      requires TableOk(t, all, cuts, offsets)
      ensures |cuts| == |offsets| + 1 && |t.index| == |offsets| && cuts[0] == 0 && cuts[|offsets|] == |all|
    {
    }

    method InitDataBlock()
      requires Made()
      modifies this`data, this`dataPos, this`dataHandle
      ensures Made() && (if indexPos < |t.index| then At(indexPos) else data.None?)
    {
      if indexPos >= |t.index| {
        data := None;
      } else {
        Block(indexPos);
        var handle := t.index[indexPos].handle;
        // A data cursor over this block already is kept.
        if !(data.Some? && handle == dataHandle) {
          data, dataHandle := Some(t.file[handle]), handle;
          dataPos := |data.value|;
        }
      }
    }

    /** From an exhausted block on to the first entry of the next; target is where that is. */
    method SkipEmptyDataBlocksForward(ghost target: nat)
      requires Made() && target <= |all|
      requires if indexPos < |t.index| then At(indexPos) && target == cuts[indexPos] + dataPos
               else data.None? && target == |all|
      modifies this
      ensures Ok() && pos == target
    {
      hide TableOk;
      Ends();
      while data.None? || dataPos >= |data.value|
        invariant Made()
        invariant if indexPos < |t.index| then At(indexPos) && target == cuts[indexPos] + dataPos
                  else data.None? && target == |all|
        decreases |t.index| - indexPos
      {
        if indexPos >= |t.index| {
          data := None;
          pos := target;
          return;
        }
        Block(indexPos);
        indexPos := indexPos + 1;
        InitDataBlock();
        if data.Some? {
          Block(indexPos);
          dataPos := 0;
        }
      }
      Block(indexPos);
      pos := target;
    }

    /** From before a block's first entry back to the last entry of the block before. */
    method SkipEmptyDataBlocksBackward(ghost before: nat)
      requires Made() && before <= |all|
      requires if indexPos < |t.index|
               then At(indexPos) && (if dataPos < |data.value| then before == cuts[indexPos] + dataPos + 1
                                     else before == cuts[indexPos])
               else data.None? && before == 0
      modifies this
      ensures Ok() && pos == (if before == 0 then |all| else before - 1)
    {
      hide TableOk;
      Ends();
      while data.None? || dataPos >= |data.value|
        invariant Made()
        invariant if indexPos < |t.index|
                  then At(indexPos) && (if dataPos < |data.value| then before == cuts[indexPos] + dataPos + 1
                                        else before == cuts[indexPos])
                  else data.None? && before == 0
        decreases if indexPos < |t.index| then indexPos + 1 else 0
      {
        if indexPos >= |t.index| {
          data := None;
          pos := |all|;
          return;
        }
        Block(indexPos);
        // The index cursor steps back, off the index from its first entry.
        indexPos := if indexPos == 0 then |t.index| else indexPos - 1;
        InitDataBlock();
        if data.Some? {
          Block(indexPos);
          dataPos := |data.value| - 1;
        }
      }
      Block(indexPos);
      pos := before - 1;
    }

    method Seek(k: IKey)
      requires Ok()
      modifies this
      ensures Ok() && IsFirst(all, k, pos)
    {
      hide TableOk, IsFirst, Ahead;
      Ends();
      indexPos := SeekIndex(t.index, k);
      InitDataBlock();
      ghost var target := |all|;
      if data.Some? {
        Block(indexPos);
        dataPos := SeekBlock(data.value, k);
        Shifted(data.value, k, all, cuts[indexPos], cuts[indexPos + 1], dataPos);
        SeekFinds(t, all, cuts, offsets, k, indexPos, dataPos);
        target := cuts[indexPos] + dataPos;
      } else {
        SeekPastEnd(t, all, cuts, offsets, k);
      }
      SkipEmptyDataBlocksForward(target);
    }

    method SeekToFirst()
      requires Ok()
      modifies this
      ensures Ok() && pos == 0
    {
      hide TableOk;
      Ends();
      indexPos := 0;
      InitDataBlock();
      if data.Some? { dataPos := 0; }
      SkipEmptyDataBlocksForward(0);
    }

    method SeekToLast()
      requires Ok()
      modifies this
      ensures Ok() && pos == (if |all| == 0 then 0 else |all| - 1)
    {
      hide TableOk;
      Ends();
      indexPos := if |t.index| == 0 then 0 else |t.index| - 1;
      InitDataBlock();
      if data.Some? {
        Block(indexPos);
        dataPos := |data.value| - 1;
      }
      SkipEmptyDataBlocksBackward(|all|);
    }

    method Next()
      requires Ok() && Valid()
      modifies this
      ensures Ok() && old(pos) < |all| && pos == old(pos) + 1
    {
      hide TableOk;
      Block(indexPos);
      dataPos := dataPos + 1;
      SkipEmptyDataBlocksForward(pos + 1);
    }

    method Prev()
      requires Ok() && Valid()
      modifies this
      ensures Ok() && old(pos) < |all| && pos == (if old(pos) == 0 then |all| else old(pos) - 1)
    {
      hide TableOk;
      Block(indexPos);
      // A block cursor steps back off its first entry.
      dataPos := if dataPos == 0 then |data.value| else dataPos - 1;
      SkipEmptyDataBlocksBackward(pos);
    }

    method Apply(op: Op)
      requires Ok()
      modifies this
      ensures Ok() && pos == Step(all, old(pos), op)
    {
      hide TableOk, IsFirst;
      match op
      case First => SeekToFirst();
      case Last => SeekToLast();
      case SeekTo(k) =>
        Seek(k);
        FirstUnique(all, k, pos);
      case Forward => if Valid() { Next(); }
      case Back => if Valid() { Prev(); }
    }
  }

  // A place in a block is a place in the table.
  lemma Shifted(block: seq<Pair>, k: IKey, all: seq<Pair>, from: nat, to: nat, j: nat)
    requires from <= to <= |all| && block == all[from..to] && j <= |block|
    requires forall m :: 0 <= m < j ==> Ahead(block[m].key, k)
    requires j < |block| ==> !Ahead(block[j].key, k)
    ensures forall m :: from <= m < from + j ==> Ahead(all[m].key, k)
    ensures from + j < to ==> !Ahead(all[from + j].key, k)
  {
    hide Ahead;
    forall m | from <= m < from + j
      ensures Ahead(all[m].key, k)
    {
      assert block[m - from] == all[m];
    }
  }

  /** Any mix of operations shows what one cursor over all the table's entries shows. */
  method Session(t: TableFile, ghost all: seq<Pair>, ghost cuts: seq<nat>, ghost offsets: seq<nat>, ops: seq<Op>)
    returns (shown: seq<Option<Pair>>)
    requires TableOk(t, all, cuts, offsets)
    ensures |shown| == |ops|
    ensures forall i :: 0 <= i < |ops| ==>
      var pos := Position(all, ops[..i + 1]);
      shown[i] == (if pos < |all| then Some(all[pos]) else None)
  {
    hide TableOk;
    var it := new TwoLevelIterator(t, all, cuts, offsets);
    shown := [];
    while |shown| < |ops|
      invariant it.Ok() && fresh(it) && it.all == all
      invariant |shown| <= |ops| && it.pos == Position(all, ops[..|shown|])
      invariant forall i :: 0 <= i < |shown| ==>
        var pos := Position(all, ops[..i + 1]);
        shown[i] == (if pos < |all| then Some(all[pos]) else None)
    {
      var op := ops[|shown|];
      assert ops[..|shown| + 1][..|shown|] == ops[..|shown|];
      it.Apply(op);
      if it.Valid() {
        var p := it.Current();
        shown := shown + [Some(p)];
      } else {
        shown := shown + [None];
      }
    }
  }
}
