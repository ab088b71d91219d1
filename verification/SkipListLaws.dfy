/** Laws of the skip list's runs stated from the actions: which keys are linked, and what each search looks for. */
module SkipListLaws {
  import opened SkipList

  // ---- What searches look for.

  function Targets(actions: seq<Action>, n: nat): seq<Target>
    requires n <= |actions|
  {
    if n == 0 then []
    else Targets(actions, n - 1) + if actions[n - 1].NewSearch? then [actions[n - 1].target] else []
  }

  ghost predicate LookFor(readers: seq<Reader>, targets: seq<Target>) {
    |readers| == |targets| && forall j :: 0 <= j < |readers| ==> readers[j].target == targets[j]
  }

  lemma StepTargets(st: State, a: Action, st': State, targets: seq<Target>)
    requires Next(st, a, st') && LookFor(st.readers, targets)
    ensures LookFor(st'.readers, targets + if a.NewSearch? then [a.target] else [])
  {
    hide Found, After;
  }

  /** The j-th search looks for what it was started with. */
  lemma {:induction false} TargetsStay(states: seq<State>, actions: seq<Action>, n: nat)
    requires IsRun(states, actions) && n <= |actions|
    ensures LookFor(states[n].readers, Targets(actions, n))
  {
    hide Next;
    if n > 0 {
      TargetsStay(states, actions, n - 1);
      StepTargets(states[n - 1], actions[n - 1], states[n], Targets(actions, n - 1));
    }
  }

  // ---- What is linked.

  /** The keys whose insertion was begun. */
  function Begun(actions: seq<Action>, n: nat): set<Key>
    requires n <= |actions|
  {
    if n == 0 then {}
    else Begun(actions, n - 1) + if actions[n - 1].RaiseHeight? then {actions[n - 1].key} else {}
  }

  /** The key being inserted, until its node is published on the lowest level. */
  function Pending(st: State): set<Key> {
    match st.writer
    case Idle => {}
    case Raised(k, _, _) => {k}
    case Linking(x, _, level, _) => if level == 0 && x < |st.keys| then {st.keys[x]} else {}
  }

  ghost function LinkedKeys(st: State): set<Key>
    requires |st.chains| > 0
  {
    set n | n in st.chains[0] && n < |st.keys| :: st.keys[n]
  }

  lemma StepLinked(st: State, a: Action, st': State)
    requires Inv(st) && Inv(st') && Next(st, a, st')
    ensures LinkedKeys(st') + Pending(st')
      == LinkedKeys(st) + Pending(st) + if a.RaiseHeight? then {a.key} else {}
  {
    hide Threads, Found, ReaderOk, Nested, Precedes, ChainNodes, After, Turn, LinkedKeys;
    if a.PublishNode? {
      PublishMembers(st, st');
      PublishLinked(st, st');
    } else if a.CreateNode? {
      CreateLinked(st, a.pointers, st');
    } else {
      SameLinked(st, st');
    }
  }

  lemma SameLinked(st: State, st': State)
    requires |st.chains| > 0 && st'.chains == st.chains && st'.keys == st.keys
    ensures LinkedKeys(st') == LinkedKeys(st)
  {
  }

  lemma CreateLinked(st: State, pointers: seq<Pointer>, st': State)
    requires Inv(st) && Create(st, pointers, st')
    ensures LinkedKeys(st') == LinkedKeys(st) && Pending(st') == Pending(st)
  {
    hide Found, ReaderOk, Nested, Precedes, ChainNodes;
    assert Threads(st.keys, st.next, 0, st.chains[0]);
    forall k ensures k in LinkedKeys(st') <==> k in LinkedKeys(st) {
    }
  }

  lemma PublishLinked(st: State, st': State)
    requires Inv(st) && Publish(st, st')
    requires forall j, n :: 0 <= j < MAX_HEIGHT ==>
      (n in st'.chains[j] <==> n in st.chains[j] || (j == st.writer.level && n == st.writer.node))
    ensures LinkedKeys(st') + Pending(st') == LinkedKeys(st) + Pending(st)
  {
    hide Threads, Found, ReaderOk, Nested, Precedes, ChainNodes, After;
  }

  /** Linked are exactly the keys whose insertion was begun, but for the one not yet published. */
  lemma {:induction false} LinkedAreInserted(states: seq<State>, actions: seq<Action>, n: nat)
    requires IsRun(states, actions) && n <= |actions|
    ensures |states[n].chains| > 0
    ensures LinkedKeys(states[n]) == Begun(actions, n) - Pending(states[n])
    ensures LinkedKeys(states[n]) !! Pending(states[n]) && Pending(states[n]) <= Begun(actions, n)
  {
    LinkedOrPending(states, actions, n);
    RunKeeps(states, actions, n);
    PendingApart(states[n]);
  }

  lemma {:induction false} LinkedOrPending(states: seq<State>, actions: seq<Action>, n: nat)
    requires IsRun(states, actions) && n <= |actions|
    ensures |states[n].chains| > 0
    ensures LinkedKeys(states[n]) + Pending(states[n]) == Begun(actions, n)
  {
    hide Next, LinkedKeys, Inv, Pending;
    RunKeeps(states, actions, n);
    HasChains(states[n]);
    if n == 0 {
      NothingLinked(states[0]);
    } else {
      LinkedOrPending(states, actions, n - 1);
      RunKeeps(states, actions, n - 1);
      StepLinked(states[n - 1], actions[n - 1], states[n]);
    }
  }

  lemma HasChains(st: State)
    requires Inv(st)
    ensures |st.chains| == MAX_HEIGHT
  {
  }

  lemma NothingLinked(st: State)
    requires Empty(st)
    ensures LinkedKeys(st) == {} && Pending(st) == {}
  {
  }

  lemma PendingApart(st: State)
    requires Inv(st)
    ensures LinkedKeys(st) !! Pending(st)
  {
    hide ReaderOk, Nested, Precedes, ChainNodes;
    assert Threads(st.keys, st.next, 0, st.chains[0]);
    if st.writer.Linking? && st.writer.level == 0 {
      NewKey(st);
    }
  }

  // The key of a node not yet linked lies between two neighbours of the lowest level.
  lemma NewKey(st: State)
    requires Inv(st) && st.writer.Linking? && st.writer.level == 0
    ensures forall n :: n in st.chains[0] ==> n < |st.keys| && st.keys[n] != st.keys[st.writer.node]
  {
    hide ReaderOk, Nested;
    var x, p, chain := st.writer.node, st.writer.prev[0], st.chains[0];
    assert Threads(st.keys, st.next, 0, chain);
    var a :| PrecedesAt(st, chain, p, st.keys[x], a);
    forall n | n in chain ensures n < |st.keys| && st.keys[n] != st.keys[x] {
      var b :| 0 <= b < |chain| && chain[b] == n;
      assert b < a ==> st.keys[chain[b]] < st.keys[chain[a]];
      assert b > a + 1 ==> st.keys[chain[a + 1]] < st.keys[chain[b]];
    }
  }

  /**
   A search that returns has found the least key, of those inserted by its last load, that is not under what it was
   started to look for: none it should have found is missing, and it finds nothing that was not inserted.
   */
  lemma SearchFindsInserted(states: seq<State>, actions: seq<Action>, n: nat, j: nat, result: Pointer)
    requires IsRun(states, actions) && n < |actions| && actions[n] == SearchTurn(j)
    requires j < |states[n + 1].readers| && states[n + 1].readers[j].result == Returned(result)
    ensures j < |Targets(actions, n)|
    ensures var target, inserted := Targets(actions, n)[j], Begun(actions, n) - Pending(states[n]);
      if result.Null? then forall k :: k in inserted ==> Under(k, target)
      else
        && result.node < |states[n].keys| && states[n].keys[result.node] in inserted
        && !Under(states[n].keys[result.node], target)
        && forall k :: k in inserted && !Under(k, target) ==> states[n].keys[result.node] <= k
  {
    hide Next, Inv, Pending, IsRun, ShapeOk;
    SearchReturnsLeast(states, actions, n, j, result);
    TargetsStay(states, actions, n);
    LinkedAreInserted(states, actions, n);
  }

  // ---- Heights.

  /** Every node but the one being linked is on each of its levels and on no other. */
  ghost predicate Tall(st: State) {
    forall x, j :: 0 < x < |st.next| && 0 <= j < |st.chains| && !(st.writer.Linking? && x == st.writer.node) ==>
      (x in st.chains[j] <==> j < |st.next[x]|)
  }

  lemma StepTall(st: State, a: Action, st': State)
    requires Inv(st) && Inv(st') && Tall(st) && Next(st, a, st')
    ensures Tall(st')
  {
    hide Threads, Found, ReaderOk, Nested, Precedes, ChainNodes, After, Turn;
    if a.PublishNode? {
      PublishMembers(st, st');
      PublishTall(st, st');
    }
  }

  lemma PublishTall(st: State, st': State)
    requires Inv(st) && Inv(st') && Tall(st) && Publish(st, st')
    requires forall j, n :: 0 <= j < MAX_HEIGHT ==>
      (n in st'.chains[j] <==> n in st.chains[j] || (j == st.writer.level && n == st.writer.node))
    ensures Tall(st')
  {
    hide Threads, Found, ReaderOk, Nested, Precedes, ChainNodes, After;
  }

  /** Once inserted, a node is linked on all of its levels. */
  lemma {:induction false} InsertedOnAllLevels(states: seq<State>, actions: seq<Action>, n: nat)
    requires IsRun(states, actions) && n <= |actions|
    ensures Tall(states[n])
  {
    hide Next, Inv, Tall;
    if n == 0 {
      EmptyTall(states[0]);
    } else {
      InsertedOnAllLevels(states, actions, n - 1);
      RunKeeps(states, actions, n - 1);
      RunKeeps(states, actions, n);
      StepTall(states[n - 1], actions[n - 1], states[n]);
    }
  }

  lemma EmptyTall(st: State)
    requires Empty(st)
    ensures Tall(st)
  {
  }
}
