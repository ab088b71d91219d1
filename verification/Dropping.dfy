/**
 The two transformations that discard versions: flush pruning (db/builder.cc) and the
 compaction drop rule (DoCompactionWork in db/db_impl.cc).  Both walk a sorted list of
 entries; what they keep is described here as a filter by position, and shown to leave
 every read at or above the captured bound unchanged.
 */
module Dropping {
  import opened Keys
  import R = Reads

  /** The version before i in the list is of the same key and readable at the bound. */
  predicate Hidden(list: seq<Entry>, bound: Sequence, i: nat)
    requires i < |list|
  {
    i > 0 && list[i - 1].key.user == list[i].key.user && list[i - 1].key.sequence <= bound
  }

  /** What pruning keeps of the first n entries. */
  function Pruned(list: seq<Entry>, bound: Sequence, n: nat): (r: seq<Entry>)
    requires n <= |list|
  {
    if n == 0 then []
    else Pruned(list, bound, n - 1) + if Hidden(list, bound, n - 1) then [] else [list[n - 1]]
  }

  /** Compaction also drops a deletion readable at the bound when no deeper level covers its key. */
  ghost predicate Dropped(list: seq<Entry>, bound: Sequence, base: iset<UserKey>, i: nat)
    requires i < |list|
  {
    || Hidden(list, bound, i)
    || (list[i].key.kind.Deletion? && list[i].key.sequence <= bound && list[i].key.user in base)
  }

  ghost function Compacted(list: seq<Entry>, bound: Sequence, base: iset<UserKey>, n: nat): (r: seq<Entry>)
    requires n <= |list|
  {
    if n == 0 then []
    else Compacted(list, bound, base, n - 1) + if Dropped(list, bound, base, n - 1) then [] else [list[n - 1]]
  }

  /** The pruning loop of BuildTable; without a bound (recovery) everything is kept. */
  method BuildTable(list: seq<Entry>, pruning: Option<Sequence>) returns (table: seq<Entry>)
    ensures table == if pruning.Some? then Pruned(list, pruning.value, |list|) else list
  {
    table := [];
    var currentUserKey: UserKey := 0.0;
    var hasPreviousKey := false;
    var previousSequence: Sequence := 0;
    for i := 0 to |list|
      invariant table == if pruning.Some? then Pruned(list, pruning.value, i) else list[..i]
      invariant pruning.Some? ==> hasPreviousKey == (i > 0)
      invariant pruning.Some? && i > 0 ==>
                  currentUserKey == list[i - 1].key.user && previousSequence == list[i - 1].key.sequence
    {
      var key := list[i].key;
      var drop := false;
      if pruning.Some? {
        if hasPreviousKey && key.user == currentUserKey {
          drop := previousSequence <= pruning.value;
        } else {
          currentUserKey := key.user;
          hasPreviousKey := true;
        }
        previousSequence := key.sequence;
      }
      if !drop {
        table := table + [list[i]];
      }
    }
    assert list[..|list|] == list;
  }

  // ---- Membership: which entries survive.

  lemma {:induction false} PrunedElems(list: seq<Entry>, bound: Sequence, n: nat)
    requires n <= |list|
    ensures forall e :: e in Pruned(list, bound, n) <==>
              exists i :: 0 <= i < n && e == list[i] && !Hidden(list, bound, i)
  {
    if n > 0 {
      PrunedElems(list, bound, n - 1);
      var r := Pruned(list, bound, n - 1);
      forall e ensures e in Pruned(list, bound, n) <==> exists i ::
        0 <= i < n && e == list[i] && !Hidden(list, bound, i) {
        if e in Pruned(list, bound, n) && e !in r { assert e == list[n - 1]; }
        if exists i :: 0 <= i < n && e == list[i] && !Hidden(list, bound, i) {
          var i :| 0 <= i < n && e == list[i] && !Hidden(list, bound, i);
          if i < n - 1 { assert e in r; }
        }
      }
    }
  }

  lemma {:induction false} CompactedElems(list: seq<Entry>, bound: Sequence, base: iset<UserKey>, n: nat)
    requires n <= |list|
    ensures forall e :: e in Compacted(list, bound, base, n) <==>
              exists i :: 0 <= i < n && e == list[i] && !Dropped(list, bound, base, i)
  {
    if n > 0 {
      CompactedElems(list, bound, base, n - 1);
      var r := Compacted(list, bound, base, n - 1);
      forall e ensures e in Compacted(list, bound, base, n) <==>
                       exists i :: 0 <= i < n && e == list[i] && !Dropped(list, bound, base, i) {
        if e in Compacted(list, bound, base, n) && e !in r { assert e == list[n - 1]; }
        if exists i :: 0 <= i < n && e == list[i] && !Dropped(list, bound, base, i) {
          var i :| 0 <= i < n && e == list[i] && !Dropped(list, bound, base, i);
          if i < n - 1 { assert e in r; }
        }
      }
    }
  }

  /** Filtering keeps the order. */
  lemma {:induction false} CompactedSorted(list: seq<Entry>, bound: Sequence, base: iset<UserKey>, n: nat)
    requires Sorted(list) && n <= |list|
    ensures Sorted(Compacted(list, bound, base, n))
    ensures forall e :: e in Compacted(list, bound, base, n) && n < |list| ==> Before(e.key, list[n].key)
  {
    if n > 0 {
      CompactedSorted(list, bound, base, n - 1);
      CompactedElems(list, bound, base, n);
    }
  }

  lemma {:induction false} PrunedSorted(list: seq<Entry>, bound: Sequence, n: nat)
    requires Sorted(list) && n <= |list|
    ensures Sorted(Pruned(list, bound, n))
    ensures forall e :: e in Pruned(list, bound, n) && n < |list| ==> Before(e.key, list[n].key)
  {
    if n > 0 {
      PrunedSorted(list, bound, n - 1);
      PrunedElems(list, bound, n);
    }
  }

  // ---- Safety: no read at or above the bound changes.

  /** An entry hidden behind a version readable at the bound is newest for no read above it. */
  lemma HiddenNotNewest(list: seq<Entry>, bound: Sequence, i: nat, u: UserKey, s: Sequence)
    requires Sorted(list) && i < |list| && Hidden(list, bound, i) && bound <= s
    requires R.Stamped(Elems(list))
    ensures !R.Newest(Elems(list), u, s, list[i])
  {
  }

  /** Everything older than a readable version of the same key is hidden. */
  lemma OlderHidden(list: seq<Entry>, bound: Sequence, i: nat, j: nat)
    requires Sorted(list) && i < j < |list|
    requires list[i].key.user == list[j].key.user && list[i].key.sequence <= bound
    ensures Hidden(list, bound, j)
  {
  }

  /** Flush pruning changes no read at or above its bound, whatever else is in the store. */
  lemma PruneSafe(X: set<Entry>, list: seq<Entry>, bound: Sequence, u: UserKey, s: Sequence)
    requires Sorted(list) && bound <= s
    requires R.Stamped(X + Elems(list))
    ensures R.Agree(X + Elems(list), X + Elems(Pruned(list, bound, |list|)), u, s)
  {
    PrunedElems(list, bound, |list|);
    var I, K := Elems(list), Elems(Pruned(list, bound, |list|));
    forall e | R.Newest(I, u, s, e) ensures e in K {
      var i :| 0 <= i < |list| && e == list[i];
      if Hidden(list, bound, i) { HiddenNotNewest(list, bound, i, u, s); }
    }
    R.ReplaceUnseen(X, I, K, u, s);
  }

  /** After a dropped deletion, everything kept of its key is newer than the read. */
  lemma KeptAreNewer(list: seq<Entry>, bound: Sequence, base: iset<UserKey>, i: nat, k: Entry, s: Sequence)
    requires Sorted(list) && bound <= s && i < |list|
    requires R.Newest(Elems(list), list[i].key.user, s, list[i]) && list[i].key.sequence <= bound
    requires Dropped(list, bound, base, i) && R.Stamped(Elems(list))
    requires k in Compacted(list, bound, base, |list|) && k.key.user == list[i].key.user
    ensures s < k.key.sequence
  {
    CompactedElems(list, bound, base, |list|);
    var j :| 0 <= j < |list| && k == list[j] && !Dropped(list, bound, base, j);
    if i < j {
      OlderHidden(list, bound, i, j);
    } else {
      assert k in Elems(list) && Before(k.key, list[i].key);
    }
  }

  /**
   The compaction drop rule changes no read at or above its bound, provided no older
   version of a base-level key lies beside the inputs.
   */
  lemma CompactSafe(X: set<Entry>, list: seq<Entry>, bound: Sequence, base: iset<UserKey>,
                    u: UserKey, s: Sequence)
    requires Sorted(list) && bound <= s
    requires R.Stamped(X + Elems(list))
    requires forall x, e :: x in X && e in list && x.key.user == e.key.user && e.key.user in base
                            ==> e.key.sequence < x.key.sequence
    ensures R.Agree(X + Elems(list), X + Elems(Compacted(list, bound, base, |list|)), u, s)
  {
    CompactedElems(list, bound, base, |list|);
    var I, K := Elems(list), Elems(Compacted(list, bound, base, |list|));
    forall e | R.Newest(I, u, s, e) ensures e in K || R.DropsCleanly(X, K, s, e) {
      var i :| 0 <= i < |list| && e == list[i];
      if Hidden(list, bound, i) { HiddenNotNewest(list, bound, i, u, s); }
      if Dropped(list, bound, base, i) {
        forall k | k in K && k.key.user == u ensures s < k.key.sequence {
          KeptAreNewer(list, bound, base, i, k, s);
        }
      }
    }
    R.ReplaceUnseen(X, I, K, u, s);
  }
}
