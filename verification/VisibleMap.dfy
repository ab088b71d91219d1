/**
 What a reader at a snapshot may see: the map from user key to value that a sorted
 list of internal entries stands for, and a plain cursor over that map.  Nothing here
 mentions how the store walks the list.
 */
module VisibleMap {
  import opened Keys

  /** Position i holds the newest version of user key u with sequence at most s. */
  ghost predicate Newest(list: seq<Entry>, s: Sequence, u: UserKey, i: int) {
    && 0 <= i < |list|
    && list[i].key.user == u && list[i].key.sequence <= s
    && forall j :: 0 <= j < |list| && list[j].key.user == u && list[j].key.sequence <= s
                   ==> Tag(list[j].key) <= Tag(list[i].key)
  }

  /** Key u maps to v in the snapshot's view: its newest version is a value, v. */
  ghost predicate Shows(list: seq<Entry>, s: Sequence, u: UserKey, v: Bytes) {
    exists i :: Newest(list, s, u, i) && list[i].key.kind.Value? && list[i].value == v
  }

  ghost predicate Present(list: seq<Entry>, s: Sequence, u: UserKey) {
    exists v :: Shows(list, s, u, v)
  }

  // The keys a cursor operation is allowed to land on.
  datatype Range = All | From(low: UserKey) | After(low: UserKey) | Below(high: UserKey)

  predicate In(r: Range, u: UserKey) {
    match r
    case All => true
    case From(low) => low <= u
    case After(low) => low < u
    case Below(high) => u < high
  }

  // A cursor rests on a key of the map with its value, or is off the end.
  datatype Spot = Off | On(key: UserKey, value: Bytes)

  ghost predicate IsFirst(list: seq<Entry>, s: Sequence, r: Range, p: Spot) {
    match p
    case Off => forall u :: In(r, u) ==> !Present(list, s, u)
    case On(k, v) =>
      In(r, k) && Shows(list, s, k, v) && forall u :: In(r, u) && Present(list, s, u) ==> k <= u
  }

  ghost predicate IsLast(list: seq<Entry>, s: Sequence, r: Range, p: Spot) {
    match p
    case Off => forall u :: In(r, u) ==> !Present(list, s, u)
    case On(k, v) =>
      In(r, k) && Shows(list, s, k, v) && forall u :: In(r, u) && Present(list, s, u) ==> u <= k
  }

  datatype Op = SeekToFirst | SeekToLast | Seek(target: UserKey) | Next | Prev

  /** One operation of the plain cursor; Next and Prev are only issued on a key. */
  ghost predicate Moves(list: seq<Entry>, s: Sequence, op: Op, before: Spot, after: Spot) {
    match op
    case SeekToFirst => IsFirst(list, s, All, after)
    case SeekToLast => IsLast(list, s, All, after)
    case Seek(t) => IsFirst(list, s, From(t), after)
    case Next => before.On? && IsFirst(list, s, After(before.key), after)
    case Prev => before.On? && IsLast(list, s, Below(before.key), after)
  }

  ghost function Final(start: Spot, spots: seq<Spot>): Spot {
    if |spots| == 0 then start else spots[|spots| - 1]
  }

  /** A legal run of the plain cursor and the spots it shows. */
  ghost predicate Run(list: seq<Entry>, s: Sequence, start: Spot, ops: seq<Op>, spots: seq<Spot>) {
    && |spots| == |ops|
    && (|ops| > 0 ==>
          var n := |ops| - 1;
          && Run(list, s, start, ops[..n], spots[..n])
          && Moves(list, s, ops[n], Final(start, spots[..n]), spots[n]))
  }

  // ---- The map is well defined: one version is newest, so one value shows.

  /** The plain cursor is deterministic, so agreeing with it fixes every observation. */
  lemma MovesUnique(list: seq<Entry>, s: Sequence, op: Op, before: Spot, p: Spot, q: Spot)
    requires Sorted(list)
    requires Moves(list, s, op, before, p) && Moves(list, s, op, before, q)
    ensures p == q
  {
  }

  lemma {:induction false} RunUnique(
    list: seq<Entry>, s: Sequence, start: Spot, ops: seq<Op>, a: seq<Spot>, b: seq<Spot>)
    requires Sorted(list)
    requires Run(list, s, start, ops, a) && Run(list, s, start, ops, b)
    ensures a == b
  {
    if |ops| > 0 {
      var n := |ops| - 1;
      RunUnique(list, s, start, ops[..n], a[..n], b[..n]);
      MovesUnique(list, s, ops[n], Final(start, a[..n]), a[n], b[n]);
      assert a == a[..n] + [a[n]] && b == b[..n] + [b[n]];
    }
  }

  // ---- The positions at which a walk over the sorted list may stop.

  /** Position i opens the versions of its user key that the snapshot can read. */
  predicate Heads(list: seq<Entry>, s: Sequence, i: int) {
    && 0 <= i < |list| && list[i].key.sequence <= s
    && (i == 0 || list[i - 1].key.user != list[i].key.user || list[i - 1].key.sequence > s)
  }

  predicate Yields(list: seq<Entry>, s: Sequence, i: int) {
    Heads(list, s, i) && list[i].key.kind.Value?
  }

  lemma YieldsMonotone(list: seq<Entry>, s: Sequence, i: int, j: int)
    requires Sorted(list) && Yields(list, s, i) && Yields(list, s, j)
    ensures i < j ==> list[i].key.user < list[j].key.user
    ensures i == j <==> list[i].key.user == list[j].key.user
  {
  }

  /** The first yielding position in a range is the first key of the map in it. */
  lemma FirstFromPosition(list: seq<Entry>, s: Sequence, r: Range, i: int)
    requires Sorted(list) && Yields(list, s, i) && In(r, list[i].key.user)
    requires forall j :: Yields(list, s, j) && In(r, list[j].key.user) ==> i <= j
    ensures IsFirst(list, s, r, On(list[i].key.user, list[i].value))
  {
  }

  lemma LastFromPosition(list: seq<Entry>, s: Sequence, r: Range, i: int)
    requires Sorted(list) && Yields(list, s, i) && In(r, list[i].key.user)
    requires forall j :: Yields(list, s, j) && In(r, list[j].key.user) ==> j <= i
    ensures IsLast(list, s, r, On(list[i].key.user, list[i].value))
  {
  }

  lemma NoneFromPosition(list: seq<Entry>, s: Sequence, r: Range)
    requires Sorted(list)
    requires forall j :: Yields(list, s, j) ==> !In(r, list[j].key.user)
    ensures IsFirst(list, s, r, Off) && IsLast(list, s, r, Off)
  {
  }
}
