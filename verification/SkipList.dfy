/**
 The memtable's skip list (db/skiplist.h): one writer links a node level by level from
 the bottom, one store at a time, while readers search, one pointer load at a time.
 Acquire and release accesses are atomic steps here; node heights are arbitrary in 1..12,
 and a new node's pointers hold anything until they are stored.
 */
module SkipList {

  // A key, by its rank in the comparator's order.
  type Key = real

  const MAX_HEIGHT: nat := 12

  // Node 0 is the head; its key is not used.
  const HEAD: nat := 0

  datatype Pointer = Null | To(node: nat)

  // Between two stores of Insert: the height is stored, or the node exists and is linked below
  // `level`, where its own pointer is `stored` or not.
  datatype Writer =
    | Idle
    | Raised(key: Key, height: nat, prev: seq<nat>)
    | Linking(node: nat, prev: seq<nat>, level: nat, stored: bool)

  // What a search looks for: a key, or in FindLast the end of the list.
  datatype Target = At(key: Key) | End

  predicate Under(k: Key, t: Target) {
    t.End? || k < t.key
  }

  // A FindGreaterOrEqual, FindLessThan or FindLast in flight: standing at node x on a level, or
  // returned.  It counts its moves to the right and its turns of the loop.
  datatype Reader = Reader(target: Target, x: nat, level: nat, moves: nat, turns: nat, result: Result)

  datatype Result = Running | Returned(node: Pointer)

  datatype State = State(
    keys: seq<Key>,
    next: seq<seq<Pointer>>,  // next[n][i] is node n's pointer on level i
    maxHeight: nat,
    writer: Writer,
    readers: seq<Reader>,
    chains: seq<seq<nat>>)    // auxiliary: the nodes linked on each level, in order

  /** The level's pointers thread exactly the chain, whose keys ascend. */
  ghost predicate Threads(keys: seq<Key>, next: seq<seq<Pointer>>, i: nat, chain: seq<nat>)
    requires |keys| == |next| > 0 && i < |next[HEAD]|
  {
    && Placed(next, i, chain)
    && next[HEAD][i] == Successor(chain, -1)
    && (forall k :: 0 <= k < |chain| ==> next[chain[k]][i] == Successor(chain, k))
    && Ascends(keys, next, chain)
  }

  /** Every node of the chain is tall enough for the level. */
  ghost predicate Placed(next: seq<seq<Pointer>>, i: nat, chain: seq<nat>) {
    forall k :: 0 <= k < |chain| ==> 0 < chain[k] < |next| && i < |next[chain[k]]|
  }

  ghost predicate Ascends(keys: seq<Key>, next: seq<seq<Pointer>>, chain: seq<nat>)
    requires |keys| == |next|
  {
    && (forall k :: 0 <= k < |chain| ==> 0 < chain[k] < |next|)
    && (forall a, b :: 0 <= a < b < |chain| ==> keys[chain[a]] < keys[chain[b]])
  }

  function Successor(chain: seq<nat>, k: int): Pointer
    requires -1 <= k < |chain|
  {
    if k + 1 < |chain| then To(chain[k + 1]) else Null
  }

  ghost predicate ShapeOk(st: State) {
    && |st.keys| == |st.next| > 0 && |st.next[HEAD]| == MAX_HEIGHT
    && |st.chains| == MAX_HEIGHT && 1 <= st.maxHeight <= MAX_HEIGHT
    && (forall i :: 0 <= i < MAX_HEIGHT ==> Threads(st.keys, st.next, i, st.chains[i]))
    && (forall i :: st.maxHeight <= i < MAX_HEIGHT ==> st.chains[i] == [])
  }

  /** Each level holds a sublist of every level below it. */
  ghost predicate Nested(st: State) {
    forall i, j, n :: 0 <= i < j < |st.chains| && n in st.chains[j] ==> n in st.chains[i]
  }

  /** p is the last node of the chain with a key below k (the head if none), at index a. */
  ghost predicate PrecedesAt(st: State, chain: seq<nat>, p: nat, k: Key, a: int)
    requires forall b :: 0 <= b < |chain| ==> chain[b] < |st.keys|
  {
    && -1 <= a < |chain| && p == NodeAt(chain, a)
    && (a >= 0 ==> st.keys[chain[a]] < k) && (a + 1 < |chain| ==> k < st.keys[chain[a + 1]])
  }

  ghost predicate Precedes(st: State, chain: seq<nat>, p: nat, k: Key)
    requires forall b :: 0 <= b < |chain| ==> chain[b] < |st.keys|
  {
    exists a :: PrecedesAt(st, chain, p, k, a)
  }

  /** The writer's node is linked exactly below its current level, and the rest of its way is prepared. */
  ghost predicate WriterOk(st: State)
    requires ShapeOk(st)
  {
    match st.writer
    case Idle => true
    case Raised(k, height, prev) => Found(st, k, height, prev) && height <= st.maxHeight
    case Linking(x, prev, level, stored) =>
      && 0 < x < |st.next| && level < |st.next[x]| <= st.maxHeight && |prev| == |st.next[x]|
      && (forall j :: 0 <= j < MAX_HEIGHT ==> (x in st.chains[j] <==> j < level))
      && (forall j :: level <= j < |prev| ==> ChainNodes(st, j) && Precedes(st, st.chains[j], prev[j], st.keys[x]))
      && (stored ==> && prev[level] < |st.next| && level < |st.next[prev[level]]|
                     && st.next[x][level] == st.next[prev[level]][level])
  }

  /** The search before an insertion found no node of the key, and its predecessor on every level it will have. */
  ghost predicate Found(st: State, k: Key, height: nat, prev: seq<nat>) {
    && 1 <= height <= MAX_HEIGHT == |st.chains| && |prev| == height
    && (forall n :: n in st.chains[0] ==> n < |st.keys| && st.keys[n] != k)
    && (forall j :: 0 <= j < height ==> ChainNodes(st, j) && Precedes(st, st.chains[j], prev[j], k))
  }

  ghost predicate ChainNodes(st: State, j: nat)
    requires j < |st.chains|
  {
    forall b :: 0 <= b < |st.chains[j]| ==> st.chains[j][b] < |st.keys|
  }

  /** How many linked keys are at most node x's: what a search has put behind it. */
  ghost function Passed(st: State, x: nat): nat
    requires ShapeOk(st) && x < |st.keys|
  {
    if x == HEAD then 0 else |UpTo(st, x)|
  }

  ghost function UpTo(st: State, x: nat): set<nat>
    requires ShapeOk(st) && x < |st.keys|
  {
    set n | n in st.chains[0] && n < |st.keys| && st.keys[n] <= st.keys[x]
  }

  /** A running search stands at the head or at a linked node below its target. */
  ghost predicate ReaderOk(st: State, r: Reader)
    requires ShapeOk(st)
  {
    && r.level < MAX_HEIGHT && r.x < |st.keys|
    && (r.x == HEAD || (r.x in st.chains[r.level] && r.x in st.chains[0] && Under(st.keys[r.x], r.target)))
    && r.moves <= Passed(st, r.x)
    && r.turns <= MAX_HEIGHT - 1 - r.level + r.moves + (if r.result.Running? then 0 else 1)
  }

  ghost predicate Inv(st: State) {
    && ShapeOk(st) && Nested(st) && WriterOk(st)
    && forall j :: 0 <= j < |st.readers| ==> ReaderOk(st, st.readers[j])
  }

  // ---- Steps.

  /** Insert up to its store of the list's height. */
  ghost predicate Raise(st: State, k: Key, height: nat, prev: seq<nat>, st': State) {
    && st.writer.Idle? && Found(st, k, height, prev)
    && st' == st.(maxHeight := if st.maxHeight < height then height else st.maxHeight,
      writer := Raised(k, height, prev))
  }

  /** NewNode: the node exists, its pointers hold anything, and nothing points to it. */
  ghost predicate Create(st: State, pointers: seq<Pointer>, st': State) {
    && st.writer.Raised? && |pointers| == st.writer.height
    && st' == st.(keys := st.keys + [st.writer.key], next := st.next + [pointers],
                  writer := Linking(|st.keys|, st.writer.prev, 0, false))
  }

  // The writer's nodes and levels exist.
  ghost predicate CanStore(st: State) {
    && st.writer.Linking?
    && var Linking(x, prev, i, _) := st.writer;
    && x < |st.next| && i < |st.next[x]| && i < |prev| && i < |st.chains| && prev[i] < |st.next|
      && i < |st.next[prev[i]]|
  }

  /** The node's own pointer on the level. */
  ghost predicate StoreOwn(st: State, st': State) {
    && CanStore(st) && !st.writer.stored
    && var Linking(x, prev, i, _) := st.writer;
    && st' == st.(next := st.next[x := st.next[x][i := st.next[prev[i]][i]]], writer := Linking(x, prev, i, true))
  }

  /** Then its predecessor's, which makes the node reachable there. */
  ghost predicate Publish(st: State, st': State) {
    && CanStore(st) && st.writer.stored
    && var Linking(x, prev, i, _) := st.writer;
    && st' == st.(next := st.next[prev[i] := st.next[prev[i]][i := To(x)]],
                  chains := st.chains[i := After(st.chains[i], prev[i], x)],
                  writer := if i + 1 < |st.next[x]| then Linking(x, prev, i + 1, false) else Idle)
  }

  /** The chain with x put after node p. */
  ghost function After(chain: seq<nat>, p: nat, x: nat): seq<nat> {
    if p == HEAD then [x] + chain
    else if |chain| == 0 then [x]
    else if chain[0] == p then [p, x] + chain[1..]
    else [chain[0]] + After(chain[1..], p, x)
  }

  ghost predicate StartSearch(st: State, target: Target, st': State) {
    && st.maxHeight > 0
    && st' == st.(readers := st.readers + [Reader(target, HEAD, st.maxHeight - 1, 0, 0, Running)])
  }

  /** KeyIsAfterNode(key, n). */
  ghost predicate IsAfter(st: State, t: Target, n: Pointer) {
    n.To? && n.node < |st.keys| && Under(st.keys[n.node], t)
  }

  /** One turn of the search loop: one load, then move right, down, or return. */
  ghost function Turn(st: State, r: Reader): Reader
    requires r.x < |st.next| && r.level < |st.next[r.x]|
  {
    var n := st.next[r.x][r.level];
    if IsAfter(st, r.target, n) then r.(x := n.node, moves := r.moves + 1, turns := r.turns + 1)
    else if r.level == 0 then r.(result := Returned(n), turns := r.turns + 1)
    else r.(level := r.level - 1, turns := r.turns + 1)
  }

  lemma TurnReady(st: State, r: Reader)
    requires ShapeOk(st) && ReaderOk(st, r)
    ensures r.x < |st.next| && r.level < |st.next[r.x]|
  {
  }

  ghost predicate SearchStep(st: State, j: nat, st': State) {
    && j < |st.readers| && st.readers[j].result.Running?
    && st.readers[j].x < |st.next| && st.readers[j].level < |st.next[st.readers[j].x]|
    && st' == st.(readers := st.readers[j := Turn(st, st.readers[j])])
  }

  // ---- The writer keeps the shape.

  lemma {:induction false} AfterAt(chain: seq<nat>, x: nat, a: int)
    requires -1 <= a < |chain| && forall b :: 0 <= b < |chain| ==> chain[b] != HEAD
    requires forall b :: 0 <= b < a ==> chain[b] != chain[a]
    ensures After(chain, NodeAt(chain, a), x) == Put(chain, x, a)
  {
    if a == -1 {
      assert chain[..0] == [] && chain[0..] == chain;
    } else if a > 0 {
      AfterAt(chain[1..], x, a - 1);
      assert chain[1..][..a] == chain[1..a + 1] && chain[1..][a..] == chain[a + 1..];
      assert chain[..a + 1] == [chain[0]] + chain[1..a + 1];
    } else {
      assert chain[..1] == [chain[0]];
    }
  }

  /** The pointers after one turn of the linking loop. */
  function Linked(next: seq<seq<Pointer>>, x: nat, p: nat, i: nat): (r: seq<seq<Pointer>>)
    requires x < |next| && p < |next| && x != p && i < |next[x]| && i < |next[p]|
    ensures |r| == |next| && forall n :: 0 <= n < |next| ==> |r[n]| == |next[n]|
    ensures forall n, j :: 0 <= n < |next| && 0 <= j < |next[n]| && j != i ==> r[n][j] == next[n][j]
    ensures forall n :: 0 <= n < |next| && i < |next[n]| ==>
              r[n][i] == if n == p then To(x) else if n == x then next[p][i] else next[n][i]
  {
    next[x := next[x][i := next[p][i]]][p := next[p][i := To(x)]]
  }

  /** Where a new key goes in an ascending chain: after index a. */
  ghost predicate Fits(keys: seq<Key>, chain: seq<nat>, x: nat, a: int)
    requires x < |keys| && forall b :: 0 <= b < |chain| ==> chain[b] < |keys|
  {
    && -1 <= a < |chain|
    && (a >= 0 ==> keys[chain[a]] < keys[x]) && (a + 1 < |chain| ==> keys[x] < keys[chain[a + 1]])
  }

  /** The chain with x inserted after index a. */
  function Put(chain: seq<nat>, x: nat, a: int): (c: seq<nat>)
    requires -1 <= a < |chain|
    ensures |c| == |chain| + 1 && c[a + 1] == x
    ensures forall k :: 0 <= k <= a ==> c[k] == chain[k]
    ensures forall k :: a + 1 < k < |c| ==> c[k] == chain[k - 1]
  {
    chain[..a + 1] + [x] + chain[a + 1..]
  }

  function NodeAt(chain: seq<nat>, a: int): nat
    requires -1 <= a < |chain|
  {
    if a == -1 then HEAD else chain[a]
  }

  lemma SpliceAscends(keys: seq<Key>, next: seq<seq<Pointer>>, chain: seq<nat>, x: nat, a: int)
    requires |keys| == |next| && Ascends(keys, next, chain) && 0 < x < |keys| && Fits(keys, chain, x, a)
    ensures Ascends(keys, next, Put(chain, x, a))
  {
    hide Put;
    var c := Put(chain, x, a);
    forall b, d | 0 <= b < d < |c| ensures keys[c[b]] < keys[c[d]] {
      if b <= a && a < d {
        assert b == a || keys[chain[b]] < keys[chain[a]];
      }
      if d > a + 1 && b <= a + 1 {
        assert d == a + 2 || keys[chain[a + 1]] < keys[chain[d - 1]];
      }
    }
  }

  /** Linking on level i threads the node into that level's chain. */
  lemma SpliceThreads(keys: seq<Key>, next: seq<seq<Pointer>>, i: nat, chain: seq<nat>, x: nat, a: int)
    requires |keys| == |next| > 0 && i < |next[HEAD]| && Threads(keys, next, i, chain)
    requires 0 < x < |keys| && i < |next[x]| && x !in chain && Fits(keys, chain, x, a)
    ensures Threads(keys, Linked(next, x, NodeAt(chain, a), i), i, Put(chain, x, a))
  {
    hide Put, Linked;
    var p := NodeAt(chain, a);
    var next' := Linked(next, x, p, i);
    var c := Put(chain, x, a);
    SpliceAscends(keys, next, chain, x, a);
    forall k | 0 <= k < |c| ensures 0 < c[k] < |next'| && i < |next'[c[k]]| && next'[c[k]][i] == Successor(c, k) {
      SplicePointer(keys, next, i, chain, x, a, k);
    }
  }

  lemma SplicePointer(keys: seq<Key>, next: seq<seq<Pointer>>, i: nat, chain: seq<nat>, x: nat, a: int, k: nat)
    requires |keys| == |next| > 0 && i < |next[HEAD]| && Threads(keys, next, i, chain)
    requires 0 < x < |keys| && i < |next[x]| && x !in chain && Fits(keys, chain, x, a)
    requires k < |chain| + 1
    ensures var next' := Linked(next, x, NodeAt(chain, a), i);
            var c := Put(chain, x, a);
            0 < c[k] < |next'| && i < |next'[c[k]]| && next'[c[k]][i] == Successor(c, k)
  {
    hide Put, Linked;
    if k < a {
      assert keys[chain[k]] < keys[chain[a]];
    } else if k > a + 1 {
      assert a >= 0 ==> keys[chain[a]] < keys[chain[k - 1]];
    }
  }

  /** Other levels do not notice. */
  lemma OtherThreads(keys: seq<Key>, next: seq<seq<Pointer>>, i: nat, j: nat, chain: seq<nat>, x: nat, p: nat)
    requires |keys| == |next| > 0 && j < |next[HEAD]| && Threads(keys, next, j, chain) && i != j
    requires x < |next| && p < |next| && x != p && i < |next[x]| && i < |next[p]|
    ensures Threads(keys, Linked(next, x, p, i), j, chain)
  {
  }

  // ---- Each step keeps the invariant.

  lemma RaiseKeeps(st: State, k: Key, height: nat, prev: seq<nat>, st': State)
    requires Inv(st) && Raise(st, k, height, prev, st')
    ensures Inv(st')
  {
    assert ShapeOk(st') && Nested(st');
    FoundKept(st, st', k, height, prev);
    forall j | 0 <= j < |st'.readers| ensures ReaderOk(st', st'.readers[j]) {
      PassedSame(st, st', st.readers[j].x);
    }
  }

  lemma FoundKept(st: State, st': State, k: Key, height: nat, prev: seq<nat>)
    requires Found(st, k, height, prev) && st'.chains == st.chains && st.keys <= st'.keys
    ensures Found(st', k, height, prev)
  {
    forall j | 0 <= j < height ensures ChainNodes(st', j) && Precedes(st', st'.chains[j], prev[j], k) {
      var a :| PrecedesAt(st, st.chains[j], prev[j], k, a);
      assert PrecedesAt(st', st'.chains[j], prev[j], k, a);
    }
  }

  lemma CreateKeeps(st: State, pointers: seq<Pointer>, st': State)
    requires Inv(st) && Create(st, pointers, st')
    ensures Inv(st')
  {
    CreateShape(st, pointers, st');
    CreateWriter(st, pointers, st');
    forall j | 0 <= j < |st'.readers| ensures ReaderOk(st', st'.readers[j]) {
      PassedSame(st, st', st.readers[j].x);
    }
  }

  lemma CreateShape(st: State, pointers: seq<Pointer>, st': State)
    requires Inv(st) && Create(st, pointers, st')
    ensures ShapeOk(st') && Nested(st')
  {
  }

  /** The fresh node is on no chain, and the search found its place on each of its levels. */
  lemma CreateWriter(st: State, pointers: seq<Pointer>, st': State)
    requires Inv(st) && Create(st, pointers, st') && ShapeOk(st')
    ensures WriterOk(st')
  {
    var x := |st.keys|;
    forall j | 0 <= j < MAX_HEIGHT ensures x !in st'.chains[j] {
      assert Threads(st.keys, st.next, j, st.chains[j]);
    }
    FoundKept(st, st', st.writer.key, st.writer.height, st.writer.prev);
  }

  /** The node's own pointer on a level it is not yet linked on: nothing reachable changes. */
  lemma StoreOwnKeeps(st: State, st': State)
    requires Inv(st) && StoreOwn(st, st')
    ensures Inv(st')
  {
    StoreOwnShape(st, st');
    StoreOwnWriter(st, st');
    forall j | 0 <= j < |st'.readers| ensures ReaderOk(st', st'.readers[j]) {
      PassedSame(st, st', st.readers[j].x);
    }
  }

  lemma StoreOwnShape(st: State, st': State)
    requires Inv(st) && StoreOwn(st, st')
    ensures ShapeOk(st') && Nested(st')
  {
    forall j | 0 <= j < MAX_HEIGHT ensures Threads(st'.keys, st'.next, j, st'.chains[j]) {
      assert Threads(st.keys, st.next, j, st.chains[j]);
    }
  }

  lemma StoreOwnWriter(st: State, st': State)
    requires Inv(st) && StoreOwn(st, st') && ShapeOk(st')
    ensures WriterOk(st')
  {
    var Linking(x, prev, i, _) := st.writer;
    assert Threads(st.keys, st.next, i, st.chains[i]);
    forall j | i <= j < |prev| ensures ChainNodes(st', j) && Precedes(st', st'.chains[j], prev[j], st'.keys[x]) {
      var a :| PrecedesAt(st, st.chains[j], prev[j], st.keys[x], a);
      assert PrecedesAt(st', st'.chains[j], prev[j], st'.keys[x], a);
    }
    var a :| PrecedesAt(st, st.chains[i], prev[i], st.keys[x], a);
    assert prev[i] != x;
  }

  lemma PassedSame(st: State, st': State, x: nat)
    requires ShapeOk(st) && ShapeOk(st') && x < |st.keys| && st'.chains[0] == st.chains[0] && st.keys <= st'.keys
    ensures Passed(st', x) == Passed(st, x)
  {
    assert Threads(st.keys, st.next, 0, st.chains[0]);
    if x != HEAD {
      forall n ensures n in UpTo(st, x) <==> n in UpTo(st', x) {
        if n in st.chains[0] { var k :| 0 <= k < |st.chains[0]| && st.chains[0][k] == n; }
      }
      assert UpTo(st, x) == UpTo(st', x);
    }
  }

  lemma PublishKeeps(st: State, st': State)
    requires Inv(st) && Publish(st, st')
    ensures Inv(st')
  {
    PublishShape(st, st');
    PublishWriter(st, st');
    forall j | 0 <= j < |st'.readers| ensures ReaderOk(st', st'.readers[j]) {
      PublishReader(st, st', st.readers[j]);
    }
  }

  /** The node goes into the chain of the writer's level after its predecessor there. */
  lemma PublishChain(st: State, st': State) returns (a: int)
    requires Inv(st) && Publish(st, st')
    ensures var Linking(x, prev, i, _) := st.writer;
            var chain := st.chains[i];
            && ChainNodes(st, i) && Fits(st.keys, chain, x, a) && prev[i] == NodeAt(chain, a)
            && x !in chain && st'.chains[i] == Put(chain, x, a)
  {
    var Linking(x, prev, i, _) := st.writer;
    var chain := st.chains[i];
    assert Threads(st.keys, st.next, i, chain);
    a :| PrecedesAt(st, chain, prev[i], st.keys[x], a);
    AfterAt(chain, x, a);
  }

  /** With its own pointer stored, publishing the node completes the link. */
  lemma PublishLinks(st: State, st': State)
    requires Inv(st) && Publish(st, st')
    ensures var Linking(x, prev, i, _) := st.writer;
            && x < |st.next| && prev[i] < |st.next| && x != prev[i] && i < |st.next[x]| && i < |st.next[prev[i]]|
            && st'.next == Linked(st.next, x, prev[i], i)
  {
    var Linking(x, prev, i, _) := st.writer;
    var a := PublishChain(st, st');
    assert st.next[x][i := st.next[prev[i]][i]] == st.next[x];
  }

  lemma PublishShape(st: State, st': State)
    requires Inv(st) && Publish(st, st')
    ensures ShapeOk(st') && Nested(st')
  {
    forall j | 0 <= j < MAX_HEIGHT ensures |st'.keys| == |st'.next| > 0 && |st'.next[HEAD]| == MAX_HEIGHT
                                           && Threads(st'.keys, st'.next, j, st'.chains[j]) {
      PublishLevel(st, st', j);
    }
    PublishNested(st, st');
    hide Threads, Nested, Linked, After, WriterOk, ReaderOk;
  }

  lemma PublishLevel(st: State, st': State, j: nat)
    requires Inv(st) && Publish(st, st') && j < MAX_HEIGHT
    ensures |st'.keys| == |st'.next| > 0 && |st'.next[HEAD]| == MAX_HEIGHT
    ensures Threads(st'.keys, st'.next, j, st'.chains[j])
  {
    if j == st.writer.level {
      PublishOwnLevel(st, st');
    } else {
      PublishOtherLevel(st, st', j);
    }
  }

  lemma PublishOwnLevel(st: State, st': State)
    requires Inv(st) && Publish(st, st')
    ensures |st'.keys| == |st'.next| > 0 && |st'.next[HEAD]| == MAX_HEIGHT
    ensures Threads(st'.keys, st'.next, st.writer.level, st'.chains[st.writer.level])
  {
    hide Put, Linked, After, Threads, Nested, ReaderOk, Precedes;
    var Linking(x, prev, i, _) := st.writer;
    var a := PublishChain(st, st');
    PublishLinks(st, st');
    assert Threads(st.keys, st.next, i, st.chains[i]);
    SpliceThreads(st.keys, st.next, i, st.chains[i], x, a);
  }

  lemma PublishOtherLevel(st: State, st': State, j: nat)
    requires Inv(st) && Publish(st, st') && j < MAX_HEIGHT && j != st.writer.level
    ensures |st'.keys| == |st'.next| > 0 && |st'.next[HEAD]| == MAX_HEIGHT
    ensures Threads(st'.keys, st'.next, j, st'.chains[j])
  {
    var Linking(x, prev, i, _) := st.writer;
    PublishLinks(st, st');
    assert Threads(st.keys, st.next, j, st.chains[j]);
    hide Linked, After, Threads, Nested, ReaderOk, Precedes;
    OtherThreads(st.keys, st.next, i, j, st.chains[j], x, prev[i]);
  }

  lemma PublishNested(st: State, st': State)
    requires Inv(st) && Publish(st, st')
    ensures Nested(st')
  {
    PublishMembers(st, st');
    hide Threads, Linked, After, ReaderOk, Precedes, ChainNodes;
  }

  lemma PublishMembers(st: State, st': State)
    requires Inv(st) && Publish(st, st')
    ensures forall j, n :: 0 <= j < MAX_HEIGHT ==>
              (n in st'.chains[j] <==> n in st.chains[j] || (j == st.writer.level && n == st.writer.node))
  {
    var Linking(x, prev, i, _) := st.writer;
    var a := PublishChain(st, st');
    forall n ensures n in st'.chains[i] <==> n in st.chains[i] || n == x {
      PutMembers(st.chains[i], x, a, n);
    }
  }

  lemma PutMembers(chain: seq<nat>, x: nat, a: int, n: nat)
    requires -1 <= a < |chain|
    ensures n in Put(chain, x, a) <==> n in chain || n == x
  {
  }

  lemma PublishWriter(st: State, st': State)
    requires Inv(st) && Publish(st, st') && ShapeOk(st')
    ensures WriterOk(st')
  {
    var Linking(x, prev, i, _) := st.writer;
    PublishMembers(st, st');
    forall j | i < j < |prev| ensures ChainNodes(st', j) && Precedes(st', st'.chains[j], prev[j], st'.keys[x]) {
      PrecedesKept(st, st', j);
    }
    assert |st'.next[x]| == |st.next[x]|;
    hide Linked, After, Nested, ReaderOk, Threads, Precedes, ChainNodes;
  }

  lemma PrecedesKept(st: State, st': State, j: nat)
    requires Inv(st) && Publish(st, st') && st.writer.level < j < |st.writer.prev|
    ensures |st'.chains| == MAX_HEIGHT && ChainNodes(st', j) && st.writer.node < |st'.keys|
    ensures Precedes(st', st'.chains[j], st.writer.prev[j], st'.keys[st.writer.node])
  {
    var w := st.writer;
    var a :| PrecedesAt(st, st.chains[j], w.prev[j], st.keys[w.node], a);
    assert PrecedesAt(st', st'.chains[j], w.prev[j], st'.keys[w.node], a);
  }

  /** Linking never takes away what a search stands on, and only adds to what it has passed. */
  lemma PublishReader(st: State, st': State, r: Reader)
    requires Inv(st) && Publish(st, st') && ShapeOk(st') && ReaderOk(st, r)
    ensures ReaderOk(st', r)
  {
    PublishMembers(st, st');
    if r.x != HEAD {
      assert UpTo(st, r.x) <= UpTo(st', r.x);
      SubsetSize(UpTo(st, r.x), UpTo(st', r.x));
    }
  }

  lemma {:induction false} SubsetSize(A: set<nat>, B: set<nat>)
    requires A <= B
    ensures |A| <= |B|
    decreases A
  {
    if A != {} {
      var a :| a in A;
      SubsetSize(A - {a}, B - {a});
    }
  }

  lemma StartSearchKeeps(st: State, target: Target, st': State)
    requires Inv(st) && StartSearch(st, target, st')
    ensures Inv(st')
  {
    OnlyReaders(st, st');
    forall j | 0 <= j < |st'.readers| ensures ReaderOk(st', st'.readers[j]) {
      if j < |st.readers| { PassedSame(st, st', st.readers[j].x); }
    }
  }

  lemma OnlyReaders(st: State, st': State)
    requires Inv(st) && st' == st.(readers := st'.readers)
    ensures ShapeOk(st') && Nested(st') && WriterOk(st')
  {
    if st.writer.Raised? { FoundKept(st, st', st.writer.key, st.writer.height, st.writer.prev); }
    if st.writer.Linking? {
      forall j | st.writer.level <= j < |st.writer.prev|
        ensures ChainNodes(st', j) && Precedes(st', st'.chains[j], st.writer.prev[j], st'.keys[st.writer.node])
      {
        var a :| PrecedesAt(st, st.chains[j], st.writer.prev[j], st.keys[st.writer.node], a);
        assert PrecedesAt(st', st'.chains[j], st.writer.prev[j], st'.keys[st.writer.node], a);
      }
    }
  }

  lemma SearchStepKeeps(st: State, j: nat, st': State)
    requires Inv(st) && SearchStep(st, j, st')
    ensures Inv(st')
  {
    OnlyReaders(st, st');
    forall k | 0 <= k < |st'.readers| ensures ReaderOk(st', st'.readers[k]) {
      PassedSame(st, st', st.readers[k].x);
      if k == j {
        TurnKeeps(st, st.readers[j]);
        PassedSame(st, st', st'.readers[j].x);
      }
    }
  }

  /** A turn moves only onto linked nodes below the target, each time past at least one more key. */
  lemma TurnKeeps(st: State, r: Reader)
    requires ShapeOk(st) && Nested(st) && ReaderOk(st, r) && r.result.Running?
    ensures ReaderOk(st, Turn(st, r))
  {
    TurnReady(st, r);
    var n := st.next[r.x][r.level];
    if IsAfter(st, r.target, n) {
      TurnMoves(st, r, n);
    }
    hide Threads, UpTo;
  }

  lemma TurnMoves(st: State, r: Reader, n: Pointer)
    requires ShapeOk(st) && Nested(st) && ReaderOk(st, r) && r.x < |st.next| && r.level < |st.next[r.x]|
    requires n == st.next[r.x][r.level] && IsAfter(st, r.target, n)
    ensures n.node in st.chains[r.level] && n.node in st.chains[0] && 0 < n.node && Passed(st, r.x) < Passed(st, n.node)
  {
    var chain := st.chains[r.level];
    assert Threads(st.keys, st.next, r.level, chain);
    var a := PositionOf(st, r);
    assert n == Successor(chain, a) && n.node == chain[a + 1];
    assert chain[a + 1] in chain;
    hide ReaderOk, UpTo;
    MovePasses(st, r.x, n.node);
  }

  lemma PositionOf(st: State, r: Reader) returns (a: int)
    requires ShapeOk(st) && ReaderOk(st, r)
    ensures -1 <= a < |st.chains[r.level]| && r.x == NodeAt(st.chains[r.level], a)
    ensures r.x < |st.next| && r.level < |st.next[r.x]| && st.next[r.x][r.level] == Successor(st.chains[r.level], a)
    ensures forall b :: 0 <= b <= a ==>
      st.chains[r.level][b] < |st.keys| && Under(st.keys[st.chains[r.level][b]], r.target)
  {
    var chain := st.chains[r.level];
    assert Threads(st.keys, st.next, r.level, chain);
    if r.x == HEAD {
      a := -1;
    } else {
      a :| 0 <= a < |chain| && chain[a] == r.x;
    }
  }

  lemma MovePasses(st: State, x: nat, y: nat)
    requires ShapeOk(st) && x < |st.keys| && 0 < y < |st.keys| && y in st.chains[0]
    requires x != HEAD ==> st.keys[x] < st.keys[y]
    ensures Passed(st, x) < Passed(st, y)
  {
    assert y in UpTo(st, y);
    if x != HEAD {
      assert UpTo(st, x) <= UpTo(st, y) - {y};
      SubsetSize(UpTo(st, x), UpTo(st, y) - {y});
    } else {
      SubsetSize({y}, UpTo(st, y));
    }
  }

  // ---- Whole runs.

  datatype Action =
    | RaiseHeight(key: Key, height: nat, prev: seq<nat>)
    | CreateNode(pointers: seq<Pointer>)
    | StoreOwnPointer
    | PublishNode
    | NewSearch(target: Target)
    | SearchTurn(reader: nat)

  ghost predicate Next(st: State, a: Action, st': State) {
    match a
    case RaiseHeight(k, height, prev) => Raise(st, k, height, prev, st')
    case CreateNode(pointers) => Create(st, pointers, st')
    case StoreOwnPointer => StoreOwn(st, st')
    case PublishNode => Publish(st, st')
    case NewSearch(target) => StartSearch(st, target, st')
    case SearchTurn(j) => SearchStep(st, j, st')
  }

  lemma StepKeeps(st: State, a: Action, st': State)
    requires Inv(st) && Next(st, a, st')
    ensures Inv(st')
  {
    hide Inv, Raise, Create, StoreOwn, Publish, StartSearch, SearchStep;
    match a
    case RaiseHeight(k, height, prev) => RaiseKeeps(st, k, height, prev, st');
    case CreateNode(pointers) => CreateKeeps(st, pointers, st');
    case StoreOwnPointer => StoreOwnKeeps(st, st');
    case PublishNode => PublishKeeps(st, st');
    case NewSearch(target) => StartSearchKeeps(st, target, st');
    case SearchTurn(j) => SearchStepKeeps(st, j, st');
  }

  /** Neither an insertion nor a search is ever stuck. */
  lemma NeverStuck(st: State, j: nat)
    requires Inv(st)
    ensures st.writer.Linking? ==> CanStore(st)
    ensures j < |st.readers| && st.readers[j].result.Running? ==> exists st' :: SearchStep(st, j, st')
    ensures exists st' :: StartSearch(st, End, st')
  {
    if st.writer.Linking? {
      var Linking(x, prev, i, _) := st.writer;
      assert Threads(st.keys, st.next, i, st.chains[i]);
      var a :| PrecedesAt(st, st.chains[i], prev[i], st.keys[x], a);
    }
    if j < |st.readers| && st.readers[j].result.Running? {
      TurnReady(st, st.readers[j]);
      assert SearchStep(st, j, st.(readers := st.readers[j := Turn(st, st.readers[j])]));
    }
    assert StartSearch(st, End, st.(readers := st.readers + [Reader(End, HEAD, st.maxHeight - 1, 0, 0, Running)]));
  }

  /** The list as constructed. */
  ghost predicate Empty(st: State) {
    var nothing: seq<nat> := [];
    st == State([0.0], [seq(MAX_HEIGHT, _ => Null)], 1, Idle, [], seq(MAX_HEIGHT, _ => nothing))
  }

  ghost predicate IsRun(states: seq<State>, actions: seq<Action>) {
    && |states| == |actions| + 1 && Empty(states[0])
    && forall i :: 0 <= i < |actions| ==> Next(states[i], actions[i], states[i + 1])
  }

  lemma {:induction false} RunKeeps(states: seq<State>, actions: seq<Action>, n: nat)
    requires IsRun(states, actions) && n < |states|
    ensures Inv(states[n])
  {
    hide Inv, Next, Empty;
    if n == 0 {
      EmptyListOk(states[0]);
    } else {
      RunKeeps(states, actions, n - 1);
      StepKeeps(states[n - 1], actions[n - 1], states[n]);
    }
  }

  lemma EmptyListOk(st: State)
    requires Empty(st)
    ensures Inv(st)
  {
  }

  /** n is the linked node of least key not under the target; Null if there is none. */
  ghost predicate Least(st: State, t: Target, n: Pointer)
    requires ShapeOk(st)
  {
    match n
    case Null => forall o :: o in st.chains[0] && o < |st.keys| ==> Under(st.keys[o], t)
    case To(m) => m in st.chains[0] && m < |st.keys| && !Under(st.keys[m], t)
                  && forall o :: o in st.chains[0] && o < |st.keys| && !Under(st.keys[o], t) ==>
                    st.keys[m] <= st.keys[o]
  }

  /** In any run a search that returns has found the least linked key not below its target, as of its last load. */
  lemma SearchReturnsLeast(states: seq<State>, actions: seq<Action>, n: nat, j: nat, result: Pointer)
    requires IsRun(states, actions) && n < |actions| && actions[n] == SearchTurn(j)
    requires j < |states[n + 1].readers| && states[n + 1].readers[j].result == Returned(result)
    ensures ShapeOk(states[n]) && j < |states[n].readers| && Least(states[n], states[n].readers[j].target, result)
  {
    RunKeeps(states, actions, n);
    assert Next(states[n], actions[n], states[n + 1]);
    ReturnIsLeast(states[n], states[n].readers[j], result);
  }

  /** n is the node of greatest linked key under the target; the head if there is none. */
  ghost predicate Greatest(st: State, t: Target, n: nat)
    requires ShapeOk(st)
  {
    if n == HEAD then forall o :: o in st.chains[0] && o < |st.keys| ==> !Under(st.keys[o], t)
    else n in st.chains[0] && n < |st.keys| && Under(st.keys[n], t)
         && forall o :: o in st.chains[0] && o < |st.keys| && Under(st.keys[o], t) ==> st.keys[o] <= st.keys[n]
  }

  /**
   FindLessThan and FindLast make the same turns and return where they stand: on the greatest linked key below the
   target, or of all, as of the last load.
   */
  lemma SearchStopsBelow(states: seq<State>, actions: seq<Action>, n: nat, j: nat, result: Pointer)
    requires IsRun(states, actions) && n < |actions| && actions[n] == SearchTurn(j)
    requires j < |states[n + 1].readers| && states[n + 1].readers[j].result == Returned(result)
    ensures ShapeOk(states[n]) && j < |states[n].readers|
    ensures states[n + 1].readers[j].x == states[n].readers[j].x
    ensures Greatest(states[n], states[n].readers[j].target, states[n].readers[j].x)
  {
    RunKeeps(states, actions, n);
    assert Next(states[n], actions[n], states[n + 1]);
    var st, r := states[n], states[n].readers[j];
    var chain := st.chains[0];
    assert Threads(st.keys, st.next, 0, chain);
    var a := PositionOf(st, r);
    forall o | o in chain ensures !Under(st.keys[o], r.target) || (a >= 0 && st.keys[o] <= st.keys[chain[a]]) {
      var b :| 0 <= b < |chain| && chain[b] == o;
      SidesOf(st.keys, st.next, chain, r.target, a, b);
    }
  }

  lemma ReturnIsLeast(st: State, r: Reader, result: Pointer)
    requires ShapeOk(st) && ReaderOk(st, r) && r.result.Running? && r.x < |st.next| && r.level < |st.next[r.x]|
    requires Turn(st, r).result == Returned(result)
    ensures Least(st, r.target, result)
  {
    var chain := st.chains[0];
    assert Threads(st.keys, st.next, 0, chain);
    var a := PositionOf(st, r);
    LeastAfter(st, r.target, a);
  }

  lemma LeastAfter(st: State, t: Target, a: int)
    requires ShapeOk(st) && -1 <= a < |st.chains[0]| && Placed(st.next, 0, st.chains[0])
    requires a >= 0 ==> Under(st.keys[st.chains[0][a]], t)
    requires a + 1 < |st.chains[0]| ==> !Under(st.keys[st.chains[0][a + 1]], t)
    ensures Least(st, t, Successor(st.chains[0], a))
  {
  }

  lemma SidesOf(keys: seq<Key>, next: seq<seq<Pointer>>, chain: seq<nat>, t: Target, a: int, b: nat)
    requires |keys| == |next| && Ascends(keys, next, chain) && -1 <= a < |chain| && b < |chain|
    requires a >= 0 ==> Under(keys[chain[a]], t)
    ensures b <= a ==> Under(keys[chain[b]], t)
    ensures b > a ==> keys[chain[a + 1]] <= keys[chain[b]]
  {
  }

  /** A search takes at most one turn per level and per linked node, whatever the writer does meanwhile. */
  lemma SearchEnds(states: seq<State>, actions: seq<Action>, n: nat, j: nat)
    requires IsRun(states, actions) && n < |states| && j < |states[n].readers|
    ensures |states[n].chains| > 0 && states[n].readers[j].turns <= MAX_HEIGHT + |states[n].chains[0]|
  {
    RunKeeps(states, actions, n);
    var st := states[n];
    var r := st.readers[j];
    assert ReaderOk(st, r);
    PassedBound(st, r.x);
  }

  ghost function Members(s: seq<nat>): set<nat> {
    set o | o in s
  }

  lemma {:induction false} MembersFew(s: seq<nat>)
    ensures |Members(s)| <= |s|
  {
    if |s| > 0 {
      var front, last := s[..|s| - 1], s[|s| - 1];
      MembersFew(front);
      assert s == front + [last];
      assert Members(s) == Members(front) + {last};
    }
  }

  // ---- The searches as loops, with no writer between their loads.

  /** On each level above `level` the predecessor recorded is where the search turned down. */
  ghost predicate Recorded(st: State, prev: seq<nat>, level: int, k: Key)
    requires ShapeOk(st)
  {
    && |prev| == st.maxHeight
    && forall j :: 0 <= j < st.maxHeight && level < j ==> ChainNodes(st, j) && StopsAt(st, st.chains[j], prev[j], k)
  }

  lemma RecordHere(st: State, prev: seq<nat>, level: nat, x: nat, k: Key, a: int)
    requires ShapeOk(st) && level < st.maxHeight && Recorded(st, prev, level, k) && Stands(st, k, x, level)
    requires -1 <= a < |st.chains[level]| && x == NodeAt(st.chains[level], a)
    requires a + 1 < |st.chains[level]| ==> st.chains[level][a + 1] < |st.keys| && k <= st.keys[st.chains[level][a + 1]]
    ensures Recorded(st, prev[level := x], level - 1, k)
    ensures a >= 0 ==> st.chains[level][a] < |st.keys| && st.keys[st.chains[level][a]] < k
  {
    assert Threads(st.keys, st.next, level, st.chains[level]);
    assert StopsAtIndex(st, st.chains[level], x, k, a);
  }

  lemma RecordedPrecedes(st: State, prev: seq<nat>, k: Key)
    requires ShapeOk(st) && Nested(st) && Recorded(st, prev, -1, k)
    requires forall n :: n in st.chains[0] ==> n < |st.keys| && st.keys[n] != k
    ensures forall j :: 0 <= j < st.maxHeight ==> ChainNodes(st, j) && Precedes(st, st.chains[j], prev[j], k)
  {
    forall j | 0 <= j < st.maxHeight ensures ChainNodes(st, j) && Precedes(st, st.chains[j], prev[j], k) {
      StopsPrecedes(st, j, prev[j], k);
    }
  }

  /** Insert's predecessors for a node of some height: those found, and the head on levels not yet in use. */
  function Heads(prev: seq<nat>, height: nat): (r: seq<nat>)
    ensures |r| == height && forall j :: 0 <= j < height ==> r[j] == if j < |prev| then prev[j] else HEAD
  {
    seq(height, j requires 0 <= j < height => if j < |prev| then prev[j] else HEAD)
  }

  lemma AllFound(st: State, prev: seq<nat>, k: Key)
    requires ShapeOk(st) && Nested(st) && Recorded(st, prev, -1, k)
    requires forall n :: n in st.chains[0] ==> n < |st.keys| && st.keys[n] != k
    ensures forall height :: 1 <= height <= MAX_HEIGHT ==> Found(st, k, height, Heads(prev, height))
  {
    RecordedPrecedes(st, prev, k);
    forall height | 1 <= height <= MAX_HEIGHT ensures Found(st, k, height, Heads(prev, height)) {
      forall j | 0 <= j < height
        ensures ChainNodes(st, j) && Precedes(st, st.chains[j], Heads(prev, height)[j], k)
      {
        if j >= st.maxHeight { assert PrecedesAt(st, st.chains[j], HEAD, k, -1); }
      }
    }
  }

  /** FindGreaterOrEqual with the predecessors Insert asks for. */
  method FindGreaterOrEqual(st: State, k: Key) returns (node: Pointer, prev: seq<nat>)
    requires ShapeOk(st) && Nested(st)
    ensures Least(st, At(k), node) && |prev| == st.maxHeight
    ensures (forall n :: n in st.chains[0] ==> n < |st.keys| && st.keys[n] != k) ==>
              forall height :: 1 <= height <= MAX_HEIGHT ==> Found(st, k, height, Heads(prev, height))
  {
    prev := seq(st.maxHeight, _ => HEAD);
    var x: nat := HEAD;
    var level: nat := st.maxHeight - 1;
    ghost var a;
    assert Stands(st, k, x, level) && Recorded(st, prev, level, k);
    hide Threads, Nested, Passed, Least, Stands, ChainNodes, StopsAt;
    while true
      invariant level < st.maxHeight && |prev| == st.maxHeight && x < |st.keys|
      invariant Stands(st, k, x, level) && Recorded(st, prev, level, k)
      decreases level, |st.chains[0]| - Passed(st, x)
    {
      hide Recorded;
      a := StandsAt(st, k, x, level);
      var next := st.next[x][level];
      if next.To? && st.keys[next.node] < k {
        StandsMove(st, k, x, level, a);
        PassedBound(st, next.node);
        x := next.node;
      } else {
        RecordHere(st, prev, level, x, k, a);
        prev := prev[level := x];
        if level == 0 {
          LeastAfter(st, At(k), a);
          node := next;
          if forall n :: n in st.chains[0] ==> n < |st.keys| && st.keys[n] != k { AllFound(st, prev, k); }
          return;
        }
        StandsDown(st, k, x, level);
        level := level - 1;
      }
    }
  }

  /** x is the head or a node below k linked on this level. */
  ghost predicate Stands(st: State, k: Key, x: nat, level: nat)
    requires ShapeOk(st) && level < MAX_HEIGHT
  {
    x == HEAD || (x in st.chains[level] && x < |st.keys| && st.keys[x] < k)
  }

  lemma StandsAt(st: State, k: Key, x: nat, level: nat) returns (a: int)
    requires ShapeOk(st) && level < MAX_HEIGHT && Stands(st, k, x, level)
    ensures ChainNodes(st, level) && -1 <= a < |st.chains[level]| && x == NodeAt(st.chains[level], a)
    ensures x < |st.next| && level < |st.next[x]| && st.next[x][level] == Successor(st.chains[level], a)
    ensures st.next[x][level].To? ==> 0 < st.next[x][level].node < |st.keys|
    ensures level == 0 ==> Placed(st.next, 0, st.chains[0])
    ensures forall b :: 0 <= b < |st.chains[level]| ==> st.chains[level][b] < |st.keys|
  {
    var chain := st.chains[level];
    assert Threads(st.keys, st.next, level, chain);
    if x == HEAD {
      a := -1;
    } else {
      a :| 0 <= a < |chain| && chain[a] == x;
    }
  }

  lemma StandsMove(st: State, k: Key, x: nat, level: nat, a: int)
    requires ShapeOk(st) && Nested(st) && level < MAX_HEIGHT && Stands(st, k, x, level) && x < |st.keys|
    requires -1 <= a < |st.chains[level]| && x == NodeAt(st.chains[level], a) && a + 1 < |st.chains[level]|
    requires ChainNodes(st, level) && st.keys[st.chains[level][a + 1]] < k
    ensures Stands(st, k, st.chains[level][a + 1], level)
    ensures Passed(st, x) < Passed(st, st.chains[level][a + 1])
  {
    var chain := st.chains[level];
    assert Threads(st.keys, st.next, level, chain);
    assert chain[a + 1] in chain;
    MovePasses(st, x, chain[a + 1]);
  }

  lemma PassedBound(st: State, x: nat)
    requires ShapeOk(st) && x < |st.keys|
    ensures Passed(st, x) <= |st.chains[0]|
  {
    if x != HEAD {
      assert UpTo(st, x) <= Members(st.chains[0]);
      SubsetSize(UpTo(st, x), Members(st.chains[0]));
      MembersFew(st.chains[0]);
    }
  }

  /** The search turned down here: keys up to p are below k, those after it are not. */
  ghost predicate StopsAtIndex(st: State, chain: seq<nat>, p: nat, k: Key, a: int)
    requires forall b :: 0 <= b < |chain| ==> chain[b] < |st.keys|
  {
    && -1 <= a < |chain| && p == NodeAt(chain, a)
    && (a >= 0 ==> st.keys[chain[a]] < k) && (a + 1 < |chain| ==> k <= st.keys[chain[a + 1]])
  }

  ghost predicate StopsAt(st: State, chain: seq<nat>, p: nat, k: Key)
    requires forall b :: 0 <= b < |chain| ==> chain[b] < |st.keys|
  {
    exists a :: StopsAtIndex(st, chain, p, k, a)
  }

  lemma StandsDown(st: State, k: Key, x: nat, level: nat)
    requires ShapeOk(st) && Nested(st) && 0 < level < MAX_HEIGHT && Stands(st, k, x, level)
    ensures Stands(st, k, x, level - 1)
  {
  }

  lemma StopsPrecedes(st: State, j: nat, p: nat, k: Key)
    requires ShapeOk(st) && Nested(st) && j < MAX_HEIGHT && ChainNodes(st, j) && StopsAt(st, st.chains[j], p, k)
    requires forall n :: n in st.chains[0] ==> n < |st.keys| && st.keys[n] != k
    ensures Precedes(st, st.chains[j], p, k)
  {
    var chain := st.chains[j];
    var a :| StopsAtIndex(st, chain, p, k, a);
    assert a + 1 < |chain| ==> chain[a + 1] in chain;
    assert PrecedesAt(st, chain, p, k, a);
  }
}
