/**
 The merging iterator (table/merger.cc) as one cursor over the sorted union of its
 children.  Its methods carry the same contracts as Cursor.InternalIterator's, read
 against the ghost position `pos` in the ghost list `merged`.
 */
module Merger {
  import opened Keys
  import opened Cursor

  datatype Direction = Forward | Reverse

  /** The key lies below position p of the list. */
  ghost predicate Under(merged: seq<Entry>, p: nat, k: InternalKey)
    requires p <= |merged|
  {
    p == |merged| || Before(k, merged[p].key)
  }

  /** Cutting a child's list at c is cutting the merged list at p. */
  ghost predicate Cut(list: seq<Entry>, merged: seq<Entry>, p: nat, c: int)
    requires p <= |merged|
  {
    && 0 <= c <= |list|
    && (forall a :: 0 <= a < c ==> Under(merged, p, list[a].key))
    && (forall a :: c <= a < |list| ==> !Under(merged, p, list[a].key))
  }

  // Where an entry of the merged list lives: entry `at` of child `child`.
  datatype Home = Home(child: nat, at: nat)

  /**
   `merged` is the sorted union of lists that share no key: `home` and `place` are
   inverse bijections between its positions and the positions of the lists.
   */
  ghost predicate IsMerge(lists: seq<seq<Entry>>, merged: seq<Entry>, home: seq<Home>, place: seq<seq<nat>>) {
    && Sorted(merged) && |home| == |merged| && |place| == |lists|
    && (forall i :: 0 <= i < |lists| ==> Sorted(lists[i]) && |place[i]| == |lists[i]|)
    && (forall x :: 0 <= x < |merged| ==> HomeOk(lists, merged, home, place, x))
    && (forall i, a :: 0 <= i < |lists| && 0 <= a < |lists[i]| ==> PlaceOk(lists, merged, home, place, i, a))
  }

  ghost predicate HomeOk(lists: seq<seq<Entry>>, merged: seq<Entry>, home: seq<Home>, place: seq<seq<nat>>, x: nat)
    requires |home| == |merged| && |place| == |lists| && x < |merged|
    requires forall i :: 0 <= i < |lists| ==> |place[i]| == |lists[i]|
  {
    && home[x].child < |lists| && home[x].at < |lists[home[x].child]|
    && lists[home[x].child][home[x].at] == merged[x]
    && place[home[x].child][home[x].at] == x
  }

  ghost predicate PlaceOk(lists: seq<seq<Entry>>, merged: seq<Entry>, home: seq<Home>, place: seq<seq<nat>>,
                          i: nat, a: nat)
    requires |home| == |merged| && |place| == |lists| && i < |lists| && a < |lists[i]|
    requires forall i :: 0 <= i < |lists| ==> |place[i]| == |lists[i]|
  {
    && place[i][a] < |merged|
    && merged[place[i][a]] == lists[i][a]
    && home[place[i][a]] == Home(i, a)
  }

  /** Every list but the one excepted is cut at p. */
  ghost predicate AllCut(lists: seq<seq<Entry>>, merged: seq<Entry>, p: nat, cuts: seq<nat>, except: int)
    requires p <= |merged|
  {
    && |cuts| == |lists|
    && forall i :: 0 <= i < |lists| && i != except ==> Cut(lists[i], merged, p, cuts[i])
  }

  class MergingIterator {
    const children: seq<InternalIterator>
    var current: int  // index of the child at the current entry, -1 when not valid
    var direction: Direction
    ghost const merged: seq<Entry>
    ghost const home: seq<Home>
    ghost const place: seq<seq<nat>>
    ghost var pos: nat

    ghost const lists: seq<seq<Entry>>  // the children's lists

    ghost predicate Sound()
      reads this, children
    {
      && |lists| == |children|
      && (forall i :: 0 <= i < |children| ==> children[i].Ok() && children[i].list == lists[i])
      && (forall i, j :: 0 <= i < j < |children| ==> children[i] != children[j])
      && -1 <= current < |children|
    }

    ghost predicate ChildrenOk()
      reads this, children
    {
      Sound() && IsMerge(lists, merged, home, place) && pos <= |merged|
    }

    // The children's positions as values.
    ghost function Spots(): (r: seq<nat>)
      reads children
      ensures |r| == |children|
      ensures forall i :: 0 <= i < |r| ==> r[i] == children[i].pos
    {
      seq(|children|, i requires 0 <= i < |children| reads children => children[i].pos)
    }

    // A child's position read backward: the number of its entries at or below it.
    ghost function Behind(i: nat): (c: nat)
      requires i < |children|
      reads children
    {
      if children[i].pos < |children[i].list| then children[i].pos + 1 else 0
    }

    ghost function Backs(): (r: seq<nat>)
      reads children
      ensures |r| == |children|
      ensures forall i :: 0 <= i < |r| ==> r[i] == Behind(i)
    {
      seq(|children|, i requires 0 <= i < |children| reads children => Behind(i))
    }

    ghost predicate Ok()
      reads this, children
    {
      && ChildrenOk()
      && (pos == |merged| <==> current == -1)
      && (pos < |merged| ==> children[current].Valid() && children[current].list[children[current].pos] == merged[pos])
      && (pos < |merged| && direction.Forward? ==> AllCut(lists, merged, pos, Spots(), -1))
      && (pos < |merged| && direction.Reverse? ==> AllCut(lists, merged, pos, Backs(), current))
    }

    predicate Valid()
      reads this
    {
      current != -1
    }

    /** What a client may rely on: a sorted list, and a place in it or past its end. */
    ghost predicate Placed()
      reads this
    {
      Sorted(merged) && pos <= |merged| && (Valid() <==> pos < |merged|)
    }

    lemma IsPlaced()
      requires Ok()
      ensures Placed()
    {
    }

    function Shown(): (e: Option<Entry>)
      requires Ok()
      reads this, children
      ensures e == Look(merged, pos)
    {
      if Valid() then Some(Current()) else None
    }

    function Current(): (e: Entry)
      requires Ok() && Valid()
      reads this, children
      ensures e == merged[pos]
    {
      children[current].list[children[current].pos]
    }

    constructor (children: seq<InternalIterator>, ghost lists: seq<seq<Entry>>, ghost merged: seq<Entry>,
                 ghost home: seq<Home>, ghost place: seq<seq<nat>>)
      requires |lists| == |children|
      requires forall i :: 0 <= i < |children| ==> children[i].Ok() && children[i].list == lists[i]
      requires forall i, j :: 0 <= i < j < |children| ==> children[i] != children[j]
      requires IsMerge(lists, merged, home, place)
      ensures this.children == children && this.merged == merged
      ensures Ok() && !Valid()
    {
      this.children, current, direction := children, -1, Forward;
      this.lists, this.merged, this.home, this.place, pos := lists, merged, home, place, |merged|;
    }

    method LeastChild() returns (smallest: int)
      requires Sound()
      ensures Smallest(lists, Spots(), |lists|, smallest)
    {
      smallest := -1;
      var i := 0;
      while i < |children|
        invariant 0 <= i <= |children|
        invariant Smallest(lists, Spots(), i, smallest)
      {
        if children[i].Valid() {
          if smallest == -1 {
            smallest := i;
          } else if Before(children[i].list[children[i].pos].key, children[smallest].list[children[smallest].pos].key) {
            smallest := i;
          }
        }
        i := i + 1;
      }
    }

    method GreatestChild() returns (largest: int)
      requires Sound()
      ensures Largest(lists, Spots(), 0, largest)
    {
      largest := -1;
      var i := |children|;
      while i > 0
        invariant 0 <= i <= |children|
        invariant Largest(lists, Spots(), i, largest)
      {
        i := i - 1;
        if children[i].Valid() {
          if largest == -1 {
            largest := i;
          } else if Before(children[largest].list[children[largest].pos].key, children[i].list[children[i].pos].key) {
            largest := i;
          }
        }
      }
    }

    method FindSmallest()
      requires ChildrenOk() && AllCut(lists, merged, pos, Spots(), -1)
      modifies this`current, this`direction
      ensures Ok() && direction.Forward?
    {
      var smallest := LeastChild();
      SmallestAtCut(lists, merged, home, place, pos, Spots(), smallest);
      current := smallest;
      direction := Forward;
    }

    /** Every child stands at its last entry below position pos, which is where the cursor goes. */
    method FindLargest()
      requires ChildrenOk()
      requires AllCut(lists, merged, pos, Backs(), -1)
      modifies this`current, this`direction, this`pos
      ensures Ok() && direction.Reverse?
      ensures pos == if old(pos) == 0 then |merged| else old(pos) - 1
    {
      hide IsMerge, AllCut;
      var largest := GreatestChild();
      LargestAtCut(lists, merged, home, place, pos, Spots(), Backs(), largest);
      current := largest;
      direction := Reverse;
      pos := if pos == 0 then |merged| else pos - 1;
    }

    method SeekToFirst()
      requires Ok()
      modifies this, children
      ensures Ok() && pos == 0
      ensures Placed()
    {
      AllToFirst();
      pos := 0;
      CutAtStart(lists, merged, home, place);
      FindSmallest();
      IsPlaced();
    }

    method AllToFirst()
      requires Sound()
      modifies children
      ensures Sound() && forall j :: 0 <= j < |children| ==> children[j].pos == 0
    {
      var i := 0;
      while i < |children|
        invariant 0 <= i <= |children| && Sound()
        invariant forall j :: 0 <= j < i ==> children[j].pos == 0
      {
        children[i].SeekToFirst();
        i := i + 1;
      }
    }

    method SeekToLast()
      requires Ok()
      modifies this, children
      ensures Ok() && pos == if |merged| == 0 then 0 else |merged| - 1
      ensures Placed()
    {
      AllToLast();
      pos := |merged|;
      FindLargest();
      IsPlaced();
    }

    method AllToLast()
      requires Sound()
      modifies children
      ensures Sound() && forall j :: 0 <= j < |children| ==> Behind(j) == |lists[j]|
    {
      var i := 0;
      while i < |children|
        invariant 0 <= i <= |children| && Sound()
        invariant forall j :: 0 <= j < i ==> Behind(j) == |lists[j]|
      {
        children[i].SeekToLast();
        i := i + 1;
      }
    }

    method Seek(target: InternalKey)
      requires Ok()
      modifies this, children
      ensures Ok() && pos == LowerBound(merged, target)
      ensures Placed()
    {
      AllToTarget(target);
      pos := LowerBound(merged, target);
      CutAtTarget(lists, merged, home, place, target);
      FindSmallest();
      IsPlaced();
    }

    method AllToTarget(target: InternalKey)
      requires Sound()
      modifies children
      ensures Sound()
      ensures forall j :: 0 <= j < |children| ==> children[j].pos == LowerBound(lists[j], target)
    {
      var i := 0;
      while i < |children|
        invariant 0 <= i <= |children| && Sound()
        invariant forall j :: 0 <= j < i ==> children[j].pos == LowerBound(lists[j], target)
      {
        children[i].Seek(target);
        i := i + 1;
      }
    }

    method Next()
      requires Ok() && Valid()
      modifies this, children
      ensures Ok() && pos == old(pos) + 1
      ensures Placed()
    {
      hide Ok, ChildrenOk, AllCut;
      if direction.Reverse? {
        TurnForward();
      }
      StepCurrent();
      FindSmallest();
      IsPlaced();
    }

    method StepCurrent()
      requires Ok() && Valid() && direction.Forward?
      modifies this`pos, children
      ensures ChildrenOk() && pos == old(pos) + 1 && AllCut(lists, merged, pos, Spots(), -1)
    {
      hide IsMerge, AllCut;
      CutAfter(lists, merged, home, place, pos, Spots(), current);
      StepChild();
      pos := pos + 1;
    }

    method StepChild()
      requires Sound() && Valid() && children[current].Valid()
      modifies children
      ensures Sound() && Spots() == old(Spots()[current := children[current].pos + 1])
    {
      children[current].Next();
    }

    /** Bring every other child to its first entry above the current key. */
    method TurnForward()
      requires Ok() && Valid() && direction.Reverse?
      modifies this`direction, children
      ensures Ok() && direction.Forward? && pos == old(pos) && current == old(current)
    {
      OthersAbove(Current().key);
      OwnCut(lists, merged, home, place, pos, current, children[current].pos);
      direction := Forward;
    }

    /** The source steps over a key equal to the current one; no other child has it. */
    method OthersAbove(key: InternalKey)
      requires Ok() && Valid() && key == merged[pos].key
      modifies children
      ensures Sound()
      ensures forall j :: 0 <= j < |children| ==>
                children[j].pos == if j == current then old(children[j].pos) else LowerBound(lists[j], key)
    {
      NoOtherHasKey();
      hide IsMerge, AllCut, Ok;
      var i := 0;
      while i < |children|
        invariant 0 <= i <= |children| && Sound()
        invariant forall j :: 0 <= j < |children| && (i <= j || j == current) ==>
          children[j].pos == old(children[j].pos)
        invariant forall j :: 0 <= j < i && j != current ==> children[j].pos == LowerBound(lists[j], key)
      {
        if i != current {
          children[i].Seek(key);
          if children[i].Valid() && children[i].list[children[i].pos].key == key {
            assert false;
          }
        }
        i := i + 1;
      }
    }

    lemma NoOtherHasKey()
      requires Ok() && Valid()
      ensures forall i, a :: 0 <= i < |lists| && i != current && 0 <= a < |lists[i]| ==>
        lists[i][a].key != merged[pos].key
    {
      assert children[current].list[children[current].pos] in lists[current];
      forall i, a | 0 <= i < |lists| && i != current && 0 <= a < |lists[i]| ensures lists[i][a].key != merged[pos].key {
        OtherChildKeys(lists, merged, home, place, pos, current, i, a);
      }
    }

    method Prev()
      requires Ok() && Valid()
      modifies this, children
      ensures Ok() && pos == if old(pos) == 0 then |merged| else old(pos) - 1
      ensures Placed()
    {
      hide Ok, ChildrenOk, AllCut;
      if direction.Forward? {
        TurnReverse();
      }
      BackCurrent();
      FindLargest();
      IsPlaced();
    }

    method BackCurrent()
      requires Ok() && Valid() && direction.Reverse?
      modifies children
      ensures ChildrenOk() && AllCut(lists, merged, pos, Backs(), -1)
    {
      hide IsMerge, AllCut;
      CutBefore(lists, merged, home, place, pos, Backs(), current, children[current].pos);
      ghost var backs := Backs();
      children[current].Prev();
      assert Backs() == backs[current := backs[current] - 1];
    }

    /** Bring every other child to its last entry below the current key. */
    method TurnReverse()
      requires Ok() && Valid() && direction.Forward?
      modifies this`direction, children
      ensures Ok() && direction.Reverse? && pos == old(pos) && current == old(current)
    {
      OthersBelow(Current().key);
      direction := Reverse;
    }

    method OthersBelow(key: InternalKey)
      requires Sound() && Valid()
      modifies children
      ensures Sound() && children[current].pos == old(children[current].pos)
      ensures forall j :: 0 <= j < |children| && j != current ==> Behind(j) == LowerBound(lists[j], key)
    {
      var i := 0;
      while i < |children|
        invariant 0 <= i <= |children| && Sound()
        invariant children[current].pos == old(children[current].pos)
        invariant forall j :: 0 <= j < i && j != current ==> Behind(j) == LowerBound(lists[j], key)
      {
        if i != current {
          children[i].Seek(key);
          if children[i].Valid() {
            children[i].Prev();
          } else {
            children[i].SeekToLast();
          }
        }
        i := i + 1;
      }
    }

    /** The operations of a session, on an iterator not yet positioned. */
    method Play(ops: seq<Op>) returns (shown: seq<Option<Entry>>)
      requires Ok() && pos == |merged| && Sorted(merged)
      modifies this, children
      ensures |shown| == |ops| && Matches(merged, ops, shown)
    {
      assert Position(merged, ops[..0]) == |merged|;
      shown := [];
      assert Matches(merged, ops, shown);
      hide Ok, ChildrenOk, Sound, Shown, Current, Valid, IsMerge, AllCut, Sorted, Look, Move, Position, Matches;
      while |shown| < |ops|
        invariant Ok()
        invariant |shown| <= |ops| && pos == Position(merged, ops[..|shown|]) && Matches(merged, ops, shown)
      {
        PositionMore(merged, ops, |shown|);
        MatchesMore(merged, ops, shown);
        Apply(ops[|shown|]);
        shown := shown + [Shown()];
      }
    }

    /** One client operation. */
    method Apply(op: Op)
      requires Ok()
      modifies this, children
      ensures Ok() && pos == Move(merged, op, old(pos))
    {
      hide IsMerge, AllCut;
      match op
      case First => SeekToFirst();
      case Last => SeekToLast();
      case To(t) => Seek(t);
      case Next => if Valid() { Next(); }
      case Prev => if Valid() { Prev(); }
    }
  }

  /** Of the first n children, c has the least key at its position; -1 if none is valid. */
  ghost predicate Smallest(lists: seq<seq<Entry>>, spots: seq<nat>, n: nat, c: int) {
    && |spots| == |lists| && -1 <= c < n <= |lists|
    && (c == -1 ==> forall j :: 0 <= j < n ==> |lists[j]| <= spots[j])
    && (c >= 0 ==> spots[c] < |lists[c]|)
    && (c >= 0 ==> forall j :: 0 <= j < n && spots[j] < |lists[j]| ==>
                     !Before(lists[j][spots[j]].key, lists[c][spots[c]].key))
  }

  /** Of the children from n on, c has the greatest key at its position; -1 if none is valid. */
  ghost predicate Largest(lists: seq<seq<Entry>>, spots: seq<nat>, n: nat, c: int) {
    && |spots| == |lists| && n <= |lists| && (c == -1 || n <= c < |lists|)
    && (c == -1 ==> forall j :: n <= j < |lists| ==> |lists[j]| <= spots[j])
    && (c >= 0 ==> spots[c] < |lists[c]|)
    && (c >= 0 ==> forall j :: n <= j < |lists| && spots[j] < |lists[j]| ==>
                     !Before(lists[c][spots[c]].key, lists[j][spots[j]].key))
  }

  lemma CutAtStart(lists: seq<seq<Entry>>, merged: seq<Entry>, home: seq<Home>, place: seq<seq<nat>>)
    requires IsMerge(lists, merged, home, place)
    ensures forall i :: 0 <= i < |lists| ==> Cut(lists[i], merged, 0, 0)
  {
    forall i, a | 0 <= i < |lists| && 0 <= a < |lists[i]| ensures !Under(merged, 0, lists[i][a].key) {
      assert PlaceOk(lists, merged, home, place, i, a);
    }
  }

  lemma CutAtTarget(lists: seq<seq<Entry>>, merged: seq<Entry>, home: seq<Home>, place: seq<seq<nat>>, t: InternalKey)
    requires IsMerge(lists, merged, home, place)
    ensures forall i :: 0 <= i < |lists| ==> Cut(lists[i], merged, LowerBound(merged, t), LowerBound(lists[i], t))
  {
    var p := LowerBound(merged, t);
    forall i, a | 0 <= i < |lists| && 0 <= a < |lists[i]|
      ensures Under(merged, p, lists[i][a].key) <==> Before(lists[i][a].key, t)
    {
      assert PlaceOk(lists, merged, home, place, i, a);
    }
  }

  /** Stepping the child that holds position p moves every cut to p + 1. */
  lemma CutAfter(lists: seq<seq<Entry>>, merged: seq<Entry>, home: seq<Home>, place: seq<seq<nat>>,
                 p: nat, spots: seq<nat>, c: nat)
    requires IsMerge(lists, merged, home, place) && p < |merged| && AllCut(lists, merged, p, spots, -1)
    requires c < |lists| && spots[c] < |lists[c]| && lists[c][spots[c]] == merged[p]
    ensures AllCut(lists, merged, p + 1, spots[c := spots[c] + 1], -1)
  {
    forall i, a | 0 <= i < |lists| && 0 <= a < |lists[i]|
      ensures Under(merged, p + 1, lists[i][a].key) <==> Under(merged, p, lists[i][a].key) || (i == c && a == spots[c])
    {
      assert PlaceOk(lists, merged, home, place, i, a) && PlaceOk(lists, merged, home, place, c, spots[c]);
    }
  }

  /** The child that stands on the entry at p is cut there. */
  lemma OwnCut(lists: seq<seq<Entry>>, merged: seq<Entry>, home: seq<Home>, place: seq<seq<nat>>,
               p: nat, c: nat, a: nat)
    requires IsMerge(lists, merged, home, place) && p < |merged|
    requires c < |lists| && a < |lists[c]| && lists[c][a] == merged[p]
    ensures Cut(lists[c], merged, p, a)
  {
  }

  /** Stepping that child back leaves every child below p. */
  lemma CutBefore(lists: seq<seq<Entry>>, merged: seq<Entry>, home: seq<Home>, place: seq<seq<nat>>,
                  p: nat, backs: seq<nat>, c: nat, a: nat)
    requires IsMerge(lists, merged, home, place) && p < |merged| && AllCut(lists, merged, p, backs, c)
    requires c < |lists| && a < |lists[c]| && lists[c][a] == merged[p] && backs[c] == a + 1
    ensures AllCut(lists, merged, p, backs[c := a], -1)
  {
  }

  /** No other child holds the key at position p. */
  lemma OtherChildKeys(lists: seq<seq<Entry>>, merged: seq<Entry>, home: seq<Home>, place: seq<seq<nat>>,
                       p: nat, c: nat, i: nat, a: nat)
    requires IsMerge(lists, merged, home, place) && p < |merged| && c < |lists| && i < |lists| && i != c
    requires merged[p] in lists[c] && a < |lists[i]|
    ensures lists[i][a].key != merged[p].key
  {
    var b :| 0 <= b < |lists[c]| && lists[c][b] == merged[p];
    assert PlaceOk(lists, merged, home, place, c, b) && PlaceOk(lists, merged, home, place, i, a);
  }

  /** When every child is cut at p, the least child key is the entry at p. */
  lemma SmallestAtCut(lists: seq<seq<Entry>>, merged: seq<Entry>, home: seq<Home>, place: seq<seq<nat>>,
                      p: nat, spots: seq<nat>, c: int)
    requires IsMerge(lists, merged, home, place) && p <= |merged| && Smallest(lists, spots, |lists|, c)
    requires AllCut(lists, merged, p, spots, -1)
    ensures p == |merged| <==> c == -1
    ensures p < |merged| ==> lists[c][spots[c]] == merged[p]
  {
    if p < |merged| {
      // The child that holds the entry at p stands on it.
      assert HomeOk(lists, merged, home, place, p);
      var Home(j, a) := home[p];
      assert !Under(merged, p, lists[j][a].key) && !Under(merged, p, lists[j][spots[j]].key);
      assert !Under(merged, p, lists[c][spots[c]].key);
      assert PlaceOk(lists, merged, home, place, c, spots[c]);
    }
  }

  /** When every child stands at its last entry below p, the greatest of them is the entry before p. */
  lemma LargestAtCut(lists: seq<seq<Entry>>, merged: seq<Entry>, home: seq<Home>, place: seq<seq<nat>>,
                     p: nat, spots: seq<nat>, backs: seq<nat>, c: int)
    requires IsMerge(lists, merged, home, place) && p <= |merged| && Largest(lists, spots, 0, c)
    requires AllCut(lists, merged, p, backs, -1)
    requires forall i :: 0 <= i < |lists| ==> backs[i] == if spots[i] < |lists[i]| then spots[i] + 1 else 0
    ensures p == 0 <==> c == -1
    ensures p > 0 ==> lists[c][spots[c]] == merged[p - 1]
    ensures p > 0 ==> AllCut(lists, merged, p - 1, backs, c)
  {
    assert c >= 0 ==> PlaceOk(lists, merged, home, place, c, spots[c]);
    if p > 0 {
      assert HomeOk(lists, merged, home, place, p - 1);
      var Home(j, a) := home[p - 1];
      assert Under(merged, p, lists[j][a].key);
      assert Under(merged, p, lists[c][spots[c]].key);
      forall i, b | 0 <= i < |lists| && 0 <= b < |lists[i]| && i != c
        ensures Under(merged, p - 1, lists[i][b].key) <==> Under(merged, p, lists[i][b].key)
      {
        assert PlaceOk(lists, merged, home, place, i, b);
      }
    }
  }

  // ---- Whole sessions, and the existence of the merged list.

  datatype Op = First | Last | To(target: InternalKey) | Next | Prev

  /** A plain cursor over a sorted list; Next and Prev off the end are not issued. */
  ghost function Move(list: seq<Entry>, op: Op, p: nat): (q: nat)
    requires Sorted(list) && p <= |list|
    ensures q <= |list|
  {
    match op
    case First => 0
    case Last => if |list| == 0 then 0 else |list| - 1
    case To(t) => LowerBound(list, t)
    case Next => if p < |list| then p + 1 else p
    case Prev => if p == |list| then p else if p == 0 then |list| else p - 1
  }

  ghost function Position(list: seq<Entry>, ops: seq<Op>): (p: nat)
    requires Sorted(list)
    ensures p <= |list|
  {
    if |ops| == 0 then |list| else Move(list, ops[|ops| - 1], Position(list, ops[..|ops| - 1]))
  }

  ghost function Look(list: seq<Entry>, p: nat): Option<Entry> {
    if p < |list| then Some(list[p]) else None
  }

  /** What is shown after each operation so far is what the cursor shows. */
  ghost predicate Matches(list: seq<Entry>, ops: seq<Op>, shown: seq<Option<Entry>>)
    requires Sorted(list)
  {
    |shown| <= |ops| && forall i :: 0 <= i < |shown| ==> shown[i] == Look(list, Position(list, ops[..i + 1]))
  }

  lemma MatchesMore(list: seq<Entry>, ops: seq<Op>, shown: seq<Option<Entry>>)
    requires Sorted(list) && Matches(list, ops, shown) && |shown| < |ops|
    ensures Matches(list, ops, shown + [Look(list, Position(list, ops[..|shown| + 1]))])
  {
    hide Look, Position;
  }

  lemma PositionMore(list: seq<Entry>, ops: seq<Op>, n: nat)
    requires Sorted(list) && n < |ops|
    ensures Position(list, ops[..n + 1]) == Move(list, ops[n], Position(list, ops[..n]))
  {
    assert ops[..n + 1][..n] == ops[..n];
  }

  /** Any mix of operations shows what one cursor over the sorted union shows. */
  method Session(children: seq<InternalIterator>, ghost lists: seq<seq<Entry>>, ghost merged: seq<Entry>,
                 ghost home: seq<Home>, ghost place: seq<seq<nat>>, ops: seq<Op>)
    returns (shown: seq<Option<Entry>>)
    requires |lists| == |children|
    requires forall i :: 0 <= i < |children| ==> children[i].Ok() && children[i].list == lists[i]
    requires forall i, j :: 0 <= i < j < |children| ==> children[i] != children[j]
    requires Sorted(merged) && IsMerge(lists, merged, home, place)
    modifies children
    ensures |shown| == |ops|
    ensures forall i :: 0 <= i < |ops| ==> shown[i] == Look(merged, Position(merged, ops[..i + 1]))
  {
    hide IsMerge, AllCut, Sorted;
    var it := new MergingIterator(children, lists, merged, home, place);
    shown := it.Play(ops);
  }

  ghost function Total(lists: seq<seq<Entry>>): nat {
    if |lists| == 0 then 0 else Total(lists[..|lists| - 1]) + |lists[|lists| - 1]|
  }

  lemma {:induction false} TotalShrinks(lists: seq<seq<Entry>>, c: nat, shorter: seq<Entry>)
    requires c < |lists| && |shorter| < |lists[c]|
    ensures Total(lists[c := shorter]) < Total(lists)
  {
    var n := |lists| - 1;
    if c < n {
      TotalShrinks(lists[..n], c, shorter);
      assert lists[c := shorter][..n] == lists[..n][c := shorter];
    } else {
      assert lists[c := shorter][..n] == lists[..n];
    }
  }

  lemma {:induction false} LargestExists(lists: seq<seq<Entry>>, spots: seq<nat>, n: nat) returns (c: int)
    requires |spots| == |lists| && n <= |lists|
    ensures Largest(lists, spots, n, c)
    decreases |lists| - n
  {
    if n == |lists| {
      c := -1;
    } else {
      c := LargestExists(lists, spots, n + 1);
      if spots[n] < |lists[n]| && (c == -1 || Before(lists[c][spots[c]].key, lists[n][spots[n]].key)) {
        c := n;
      }
    }
  }

  ghost predicate Mergeable(lists: seq<seq<Entry>>) {
    && (forall i :: 0 <= i < |lists| ==> Sorted(lists[i]))
    && (forall i, j, a, b :: 0 <= i < j < |lists| && 0 <= a < |lists[i]| && 0 <= b < |lists[j]|
          ==> lists[i][a].key != lists[j][b].key)
  }

  /** Lists that are sorted and share no key have a merged list. */
  lemma {:induction false} MergeExists(lists: seq<seq<Entry>>)
    returns (merged: seq<Entry>, home: seq<Home>, place: seq<seq<nat>>)
    requires Mergeable(lists)
    ensures IsMerge(lists, merged, home, place)
    decreases Total(lists)
  {
    var spots := seq(|lists|, i requires 0 <= i < |lists| => if |lists[i]| == 0 then 0 else |lists[i]| - 1);
    var c := LargestExists(lists, spots, 0);
    if c == -1 {
      merged, home, place := [], [], seq(|lists|, _ => []);
    } else {
      var shorter := lists[c][..spots[c]];
      TotalShrinks(lists, c, shorter);
      var m, h, p := MergeExists(lists[c := shorter]);
      merged, home, place := m + [lists[c][spots[c]]], h + [Home(c, spots[c])], p[c := p[c] + [|m|]];
      AppendKeepsMerge(lists, spots, c, m, h, p);
    }
  }

  /** Putting back the greatest last entry extends the merge by one. */
  lemma AppendKeepsMerge(lists: seq<seq<Entry>>, spots: seq<nat>, c: nat,
                         m: seq<Entry>, h: seq<Home>, p: seq<seq<nat>>)
    requires Mergeable(lists) && Largest(lists, spots, 0, c)
    requires forall i :: 0 <= i < |lists| ==> spots[i] == if |lists[i]| == 0 then 0 else |lists[i]| - 1
    requires IsMerge(lists[c := lists[c][..spots[c]]], m, h, p)
    ensures IsMerge(lists, m + [lists[c][spots[c]]], h + [Home(c, spots[c])], p[c := p[c] + [|m|]])
  {
    var e := lists[c][spots[c]];
    var rest := lists[c := lists[c][..spots[c]]];
    AppendKeepsOrder(lists, spots, c, m, h, p);
    var place := p[c := p[c] + [|m|]];
    forall i, a | 0 <= i < |lists| && 0 <= a < |lists[i]|
      ensures PlaceOk(lists, m + [e], h + [Home(c, spots[c])], place, i, a)
    {
      assert (i == c && a == spots[c]) || PlaceOk(rest, m, h, p, i, a);
    }
    forall x | 0 <= x <= |m| ensures HomeOk(lists, m + [e], h + [Home(c, spots[c])], place, x) {
      assert x == |m| || HomeOk(rest, m, h, p, x);
    }
  }

  lemma AppendKeepsOrder(lists: seq<seq<Entry>>, spots: seq<nat>, c: nat,
                         m: seq<Entry>, h: seq<Home>, p: seq<seq<nat>>)
    requires Mergeable(lists) && Largest(lists, spots, 0, c)
    requires forall i :: 0 <= i < |lists| ==> spots[i] == if |lists[i]| == 0 then 0 else |lists[i]| - 1
    requires IsMerge(lists[c := lists[c][..spots[c]]], m, h, p)
    ensures Sorted(m + [lists[c][spots[c]]])
  {
    var e := lists[c][spots[c]];
    var rest := lists[c := lists[c][..spots[c]]];
    forall x | 0 <= x < |m| ensures Before(m[x].key, e.key) {
      assert HomeOk(rest, m, h, p, x);
      var Home(i, a) := h[x];
      if i != c {
        DistinctKeys(lists, i, a, c, spots[c]);
        assert !Before(e.key, lists[i][spots[i]].key);
        assert a == spots[i] || Before(lists[i][a].key, lists[i][spots[i]].key);
      }
    }
  }

  lemma DistinctKeys(lists: seq<seq<Entry>>, i: nat, a: nat, j: nat, b: nat)
    requires Mergeable(lists) && i < |lists| && j < |lists| && i != j && a < |lists[i]| && b < |lists[j]|
    ensures lists[i][a].key != lists[j][b].key
    ensures Before(lists[i][a].key, lists[j][b].key) || Before(lists[j][b].key, lists[i][a].key)
  {
  }
}
