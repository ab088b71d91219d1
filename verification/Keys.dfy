/**
 The key vocabulary of the store: user keys, sequence numbers and internal keys.

 A user comparator is any total order.  A user key is represented by its rank in
 that order, a real number: every countable total order embeds in the reals, and
 module Bytewise proves this for the built-in bytewise comparator.  Comparing two
 ranks is therefore what Comparator::Compare does on the keys themselves.
 */
module Keys {

  type UserKey = real

  type Bytes = seq<Byte>

  type Byte = n: nat | n < 256

  // Fifty-six bits of sequence number share a word with eight bits of type.
  const MAX_SEQUENCE: nat := 0xFF_FFFF_FFFF_FFFF

  type Sequence = n: nat | n <= MAX_SEQUENCE

  datatype Kind = Deletion | Value

  datatype InternalKey = InternalKey(user: UserKey, sequence: Sequence, kind: Kind)

  datatype Entry = Entry(key: InternalKey, value: Bytes)

  datatype Option<T> = None | Some(value: T)

  // PackSequenceAndType: the trailer that breaks ties between equal user keys.
  function Tag(k: InternalKey): nat {
    k.sequence * 256 + (if k.kind.Value? then 1 else 0)
  }

  // InternalKeyComparator::Compare(a, b) < 0: user keys ascend, tags descend.
  predicate Before(a: InternalKey, b: InternalKey) {
    a.user < b.user || (a.user == b.user && Tag(a) > Tag(b))
  }

  // The key every lookup of u at snapshot s seeks to (kValueTypeForSeek).
  function SeekKey(u: UserKey, s: Sequence): InternalKey {
    InternalKey(u, s, Value)
  }

  ghost predicate Sorted(list: seq<Entry>) {
    forall i, j :: 0 <= i < j < |list| ==> Before(list[i].key, list[j].key)
  }

  ghost function Elems(list: seq<Entry>): set<Entry> {
    set e | e in list
  }

  ghost predicate Splits(list: seq<Entry>, target: InternalKey, p: nat) {
    && p <= |list|
    && (forall i :: 0 <= i < p ==> Before(list[i].key, target))
    && (forall i :: p <= i < |list| ==> !Before(list[i].key, target))
  }

  /** The first position whose key is not before `target`. */
  ghost function LowerBound(list: seq<Entry>, target: InternalKey): (p: nat)
    requires Sorted(list)
    ensures Splits(list, target, p)
  {
    SplitExists(list, target);
    var p: nat :| Splits(list, target, p);
    p
  }

  lemma {:induction false} SplitExists(list: seq<Entry>, target: InternalKey)
    requires Sorted(list)
    ensures exists p: nat :: Splits(list, target, p)
  {
    if |list| == 0 || Before(list[|list| - 1].key, target) {
      assert Splits(list, target, |list|);
    } else {
      SplitExists(list[..|list| - 1], target);
      var p: nat :| Splits(list[..|list| - 1], target, p);
      assert Splits(list, target, p);
    }
  }
}

/**
 The bytewise comparator of util/comparator.cc as a total order on byte strings, and
 its embedding in the reals that justifies representing a user key by its rank.
 */
module Bytewise {
  import opened Keys

  // Slice::compare(a, b) < 0: lexicographic, a proper prefix first.
  predicate Less(a: Bytes, b: Bytes) {
    if b == [] then false
    else if a == [] then true
    else a[0] < b[0] || (a[0] == b[0] && Less(a[1..], b[1..]))
  }

  // A string read as a base-257 fraction whose digits are its bytes plus one.
  function Rank(a: Bytes): (r: real)
    ensures 0.0 <= r < 1.0
    ensures a != [] ==> 0.0 < r
  {
    if a == [] then 0.0 else (a[0] as real + 1.0 + Rank(a[1..])) / 257.0
  }

  /** Ranks order strings exactly as the comparator does, and distinguish them. */
  lemma {:induction false} RankEmbedsOrder(a: Bytes, b: Bytes)
    ensures Less(a, b) <==> Rank(a) < Rank(b)
    ensures a == b <==> Rank(a) == Rank(b)
  {
    if a != [] && b != [] {
      RankEmbedsOrder(a[1..], b[1..]);
      assert a == [a[0]] + a[1..] && b == [b[0]] + b[1..];
      if a[0] < b[0] {
        assert a[0] as real + 1.0 <= b[0] as real;
      } else if b[0] < a[0] {
        assert b[0] as real + 1.0 <= a[0] as real;
      }
    }
  }
}
