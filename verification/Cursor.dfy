/**
 The Iterator interface as a position in a sorted list.  Memtable, block and table iterators
 each refine this cursor, and the merging iterator drives several of them.
 */
module Cursor {
  import opened Keys

  class InternalIterator {
    const list: seq<Entry>
    var pos: nat  // |list| when the iterator is not valid

    ghost predicate Ok()
      reads this
    {
      Sorted(list) && pos <= |list|
    }

    predicate Valid()
      reads this
    {
      pos < |list|
    }

    constructor (list: seq<Entry>)
      requires Sorted(list)
      ensures Ok() && this.list == list && pos == |list|
    {
      this.list, pos := list, |list|;
    }

    method SeekToFirst()
      requires Ok()
      modifies this
      ensures Ok() && pos == 0
    {
      pos := 0;
    }

    method SeekToLast()
      requires Ok()
      modifies this
      ensures Ok() && pos == if |list| == 0 then 0 else |list| - 1
    {
      pos := if |list| == 0 then 0 else |list| - 1;
    }

    method Seek(target: InternalKey)
      requires Ok()
      modifies this
      ensures Ok() && pos == LowerBound(list, target)
    {
      var low, high := 0, |list|;
      while low < high
        invariant low <= LowerBound(list, target) <= high <= |list|
      {
        var mid := (low + high) / 2;
        if Before(list[mid].key, target) {
          low := mid + 1;
        } else {
          high := mid;
        }
      }
      pos := low;
    }

    method Next()
      requires Ok() && Valid()
      modifies this
      ensures Ok() && pos == old(pos) + 1
    {
      pos := pos + 1;
    }

    method Prev()
      requires Ok() && Valid()
      modifies this
      ensures Ok() && pos == if old(pos) == 0 then |list| else old(pos) - 1
    {
      pos := if pos == 0 then |list| else pos - 1;
    }
  }
}
