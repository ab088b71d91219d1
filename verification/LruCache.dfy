/**
 The LRU cache (util/cache.cc, LRUCache): two circular lists, a hash table and reference counts that must agree. A
 handle's fields are maps from its number, and the list heads are numbers too.
 */
module LruCache {
  import opened Keys
  import opened Coding
  import opened HandleTable

  const LRU: Id := 0
  const IN_USE: Id := 1

  // ---- Circular lists.

  ghost predicate Joined(next: map<Id, Id>, prev: map<Id, Id>, a: Id, b: Id) {
    a in next && next[a] == b && b in prev && prev[b] == a
  }

  // Node i of the circle: the head, then the list, then the head again.
  function Node(head: Id, s: seq<Id>, i: nat): Id
    requires i <= |s| + 1
  {
    if i == 0 || i == |s| + 1 then head else s[i - 1]
  }

  ghost predicate Ring(next: map<Id, Id>, prev: map<Id, Id>, head: Id, s: seq<Id>) {
    && (forall i :: 0 <= i <= |s| ==> Joined(next, prev, Node(head, s, i), Node(head, s, i + 1)))
    && (forall i, j :: 0 <= i < j < |s| ==> s[i] != s[j])
    && head !in s
  }

  function Without(s: seq<Id>, e: Id): (r: seq<Id>)
    ensures e !in r && forall x :: x in r <==> x in s && x != e
    ensures e !in s ==> r == s
  {
    if |s| == 0 then [] else if s[0] == e then Without(s[1..], e) else [s[0]] + Without(s[1..], e)
  }

  /** LRU_Remove: a node's neighbours are joined. */
  lemma RingRemove(next: map<Id, Id>, prev: map<Id, Id>, head: Id, s: seq<Id>, i: nat)
    requires Ring(next, prev, head, s) && i < |s|
    ensures s[i] in next && s[i] in prev
    ensures var e := s[i]; Ring(next[prev[e] := next[e]], prev[next[e] := prev[e]], head, s[..i] + s[i + 1..])
  {
    var e, t := s[i], s[..i] + s[i + 1..];
    assert Joined(next, prev, Node(head, s, i), Node(head, s, i + 1));
    assert Joined(next, prev, Node(head, s, i + 1), Node(head, s, i + 2));
    var next', prev' := next[prev[e] := next[e]], prev[next[e] := prev[e]];
    forall j | 0 <= j <= |t|
      ensures Joined(next', prev', Node(head, t, j), Node(head, t, j + 1))
    {
      if j != i {
        var m := if j < i then j else j + 1;
        assert Joined(next, prev, Node(head, s, m), Node(head, s, m + 1));
        assert Node(head, t, j) == Node(head, s, m) && Node(head, t, j + 1) == Node(head, s, m + 1);
      }
    }
  }

  /** LRU_Append: a new node goes before the head. */
  lemma RingAppend(next: map<Id, Id>, prev: map<Id, Id>, head: Id, s: seq<Id>, e: Id)
    requires Ring(next, prev, head, s) && e !in s && e != head
    ensures head in prev
    ensures var last := prev[head]; Ring(next[e := head][last := e], prev[e := last][head := e], head, s + [e])
  {
    var t := s + [e];
    assert Joined(next, prev, Node(head, s, |s|), Node(head, s, |s| + 1));
    var last := prev[head];
    var next', prev' := next[e := head][last := e], prev[e := last][head := e];
    forall j | 0 <= j <= |t|
      ensures Joined(next', prev', Node(head, t, j), Node(head, t, j + 1))
    {
      if j < |s| {
        assert Joined(next, prev, Node(head, s, j), Node(head, s, j + 1));
        assert Node(head, t, j) == Node(head, s, j) && Node(head, t, j + 1) == Node(head, s, j + 1);
      }
    }
  }

  /** Nodes outside a circle do not matter to it. */
  lemma RingFrame(next: map<Id, Id>, prev: map<Id, Id>, next': map<Id, Id>, prev': map<Id, Id>, head: Id, s: seq<Id>)
    requires Ring(next, prev, head, s)
    requires forall x :: x in next && (x == head || x in s) ==> x in next' && next'[x] == next[x]
    requires forall x :: x in prev && (x == head || x in s) ==> x in prev' && prev'[x] == prev[x]
    ensures Ring(next', prev', head, s)
  {
  }

  lemma {:induction false} WithoutAt(s: seq<Id>, i: nat)
    requires i < |s| && forall j, k :: 0 <= j < k < |s| ==> s[j] != s[k]
    ensures Without(s, s[i]) == s[..i] + s[i + 1..]
  {
    var t := s[1..];
    if i == 0 {
      assert s[0] !in t;
    } else {
      assert t[i - 1] == s[i] && s[0] != s[i];
      WithoutAt(t, i - 1);
      assert Without(s, s[i]) == [s[0]] + Without(t, s[i]);
      hide Without;
      TailSlices(s, i);
    }
  }

  lemma TailSlices(s: seq<Id>, i: nat)
    requires 0 < i < |s|
    ensures [s[0]] + (s[1..][..i - 1] + s[1..][i..]) == s[..i] + s[i + 1..]
  {
  }

  ghost predicate Lists(next: map<Id, Id>, prev: map<Id, Id>, lru: seq<Id>, inUse: seq<Id>) {
    && Ring(next, prev, LRU, lru) && Ring(next, prev, IN_USE, inUse)
    && LRU !in inUse && IN_USE !in lru && (forall e :: e in lru ==> e !in inUse)
  }

  lemma ListsRemove(next: map<Id, Id>, prev: map<Id, Id>, lru: seq<Id>, inUse: seq<Id>, e: Id)
    requires Lists(next, prev, lru, inUse) && (e in lru || e in inUse)
    ensures e in next && e in prev
    ensures Lists(next[prev[e] := next[e]], prev[next[e] := prev[e]], Without(lru, e), Without(inUse, e))
  {
    if e in lru {
      OneRemoved(next, prev, LRU, lru, IN_USE, inUse, e);
    } else {
      OneRemoved(next, prev, IN_USE, inUse, LRU, lru, e);
    }
  }

  // Taking e off one circle leaves the other alone.
  lemma OneRemoved(next: map<Id, Id>, prev: map<Id, Id>, head: Id, s: seq<Id>, other: Id, rest: seq<Id>, e: Id)
    requires Ring(next, prev, head, s) && Ring(next, prev, other, rest) && e in s
    requires head != other && head !in rest && other !in s && forall x :: x in s ==> x !in rest
    ensures e in next && e in prev
    ensures Ring(next[prev[e] := next[e]], prev[next[e] := prev[e]], head, Without(s, e))
    ensures Ring(next[prev[e] := next[e]], prev[next[e] := prev[e]], other, rest)
  {
    var i :| 0 <= i < |s| && s[i] == e;
    RingRemove(next, prev, head, s, i);
    WithoutAt(s, i);
    assert Joined(next, prev, Node(head, s, i), Node(head, s, i + 1));
    assert Joined(next, prev, Node(head, s, i + 1), Node(head, s, i + 2));
    RingFrame(next, prev, next[prev[e] := next[e]], prev[next[e] := prev[e]], other, rest);
  }

  lemma ListsAppend(next: map<Id, Id>, prev: map<Id, Id>, lru: seq<Id>, inUse: seq<Id>, head: Id, e: Id)
    requires Lists(next, prev, lru, inUse) && e !in lru && e !in inUse && e != LRU && e != IN_USE
    requires head == LRU || head == IN_USE
    ensures head in prev
    ensures var last := prev[head];
      Lists(next[e := head][last := e], prev[e := last][head := e], if head == LRU then lru + [e] else lru,
            if head == LRU then inUse else inUse + [e])
  {
    var s, other, rest := if head == LRU then lru else inUse, if head == LRU then IN_USE else LRU,
      if head == LRU then inUse else lru;
    assert Joined(next, prev, Node(head, s, |s|), Node(head, s, |s| + 1));
    RingAppend(next, prev, head, s, e);
    var last := prev[head];
    RingFrame(next, prev, next[e := head][last := e], prev[e := last][head := e], other, rest);
  }

  // ---- Counts.

  function Sum(charge: map<Id, nat>, s: seq<Id>): nat {
    if |s| == 0 then 0 else (if s[0] in charge then charge[s[0]] else 0) + Sum(charge, s[1..])
  }

  lemma {:induction false} SumAppend(charge: map<Id, nat>, s: seq<Id>, e: Id)
    requires e in charge
    ensures Sum(charge, s + [e]) == Sum(charge, s) + charge[e]
  {
    if |s| > 0 {
      assert (s + [e])[1..] == s[1..] + [e];
      SumAppend(charge, s[1..], e);
    }
  }

  lemma {:induction false} SumWithout(charge: map<Id, nat>, s: seq<Id>, e: Id)
    requires e in charge && forall i, j :: 0 <= i < j < |s| ==> s[i] != s[j]
    ensures Sum(charge, Without(s, e)) == Sum(charge, s) - (if e in s then charge[e] else 0)
  {
    if |s| > 0 {
      SumWithout(charge, s[1..], e);
      if s[0] == e { assert e !in s[1..]; }
    }
  }

  lemma {:induction false} SumFrame(charge: map<Id, nat>, more: map<Id, nat>, s: seq<Id>)
    requires forall e :: e in s ==> (e in charge <==> e in more) && (e in charge ==> more[e] == charge[e])
    ensures Sum(more, s) == Sum(charge, s)
  {
    if |s| > 0 { SumFrame(charge, more, s[1..]); }
  }

  // lru holds the cached entries nobody else refers to, inUse the other cached ones.
  ghost predicate Divided(refs: map<Id, nat>, inCache: set<Id>, lru: seq<Id>, inUse: seq<Id>) {
    && (forall e :: e in lru <==> e in inCache && e in refs && refs[e] == 1)
    && (forall e :: e in inUse <==> e in inCache && e in refs && refs[e] >= 2)
  }

  // A live entry's references are the handles clients hold and the cache's own.
  ghost predicate Counted(refs: map<Id, nat>, inCache: set<Id>, handles: map<Id, nat>) {
    && refs.Keys == handles.Keys && inCache <= refs.Keys
    && (forall e :: e in refs ==> refs[e] == handles[e] + (if e in inCache then 1 else 0) && refs[e] > 0)
  }

  // Every entry ever made is live or was freed once.
  ghost predicate Born(fresh_: Id, refs: map<Id, nat>, charge: map<Id, nat>, freed: seq<Id>) {
    && (forall e :: 2 <= e < fresh_ <==> e in refs || e in freed)
    && (forall e :: e in freed ==> e !in refs)
    && (forall i, j :: 0 <= i < j < |freed| ==> freed[i] != freed[j])
    && (forall e :: e in refs ==> e in charge) && (forall e :: e in charge ==> e < fresh_)
  }

  // The hash table holds exactly the cached entries.
  ghost predicate Tabled(keyOf: map<Id, Bytes>, contents: map<Bytes, Id>, inCache: set<Id>) {
    && (forall k :: k in contents ==> contents[k] in inCache && contents[k] in keyOf && keyOf[contents[k]] == k)
    && (forall e :: e in inCache ==> e in keyOf && keyOf[e] in contents && contents[keyOf[e]] == e)
  }

  class LRUCache {
    const table: HandleTable
    var capacity: nat
    var usage: nat
    var next: map<Id, Id>
    var prev: map<Id, Id>
    var refs: map<Id, nat>
    var charge: map<Id, nat>
    var inCache: set<Id>
    var newId: Id
    var freed: seq<Id>
    ghost var lru: seq<Id>
    ghost var inUse: seq<Id>
    ghost var handles: map<Id, nat>

    ghost predicate Core()
      reads this
    {
      && Lists(next, prev, lru, inUse) && Divided(refs, inCache, lru, inUse) && Counted(refs, inCache, handles)
      && Born(newId, refs, charge, freed) && newId >= 2
      && usage == Sum(charge, lru) + Sum(charge, inUse)
    }

    ghost predicate Ok()
      reads this, table
    {
      && table.Ok() && Core() && Tabled(table.keyOf, table.contents, inCache)
      && (forall e :: e in table.keyOf ==> e < newId)
    }

    constructor (hash: Bytes -> Word, capacity: nat)
      ensures Ok() && fresh(table) && this.capacity == capacity && table.contents == map[] && handles == map[]
        && freed == []
    {
      table := new HandleTable(hash);
      this.capacity, usage := capacity, 0;
      next, prev := map[LRU := LRU, IN_USE := IN_USE], map[LRU := LRU, IN_USE := IN_USE];
      refs, charge, inCache, newId, freed := map[], map[], {}, 2, [];
      lru, inUse, handles := [], [], map[];
      new;
      assert Joined(next, prev, LRU, LRU) && Joined(next, prev, IN_USE, IN_USE);
    }

    method LruRemove(e: Id)
      requires Lists(next, prev, lru, inUse) && (e in lru || e in inUse)
      modifies this`next, this`prev, this`lru, this`inUse
      ensures Lists(next, prev, lru, inUse) && lru == Without(old(lru), e) && inUse == Without(old(inUse), e)
    {
      ListsRemove(next, prev, lru, inUse, e);
      hide Lists;
      var n, p := next[e], prev[e];
      prev := prev[n := p];
      next := next[p := n];
      lru, inUse := Without(lru, e), Without(inUse, e);
    }

    method LruAppend(list: Id, e: Id)
      requires Lists(next, prev, lru, inUse) && e !in lru && e !in inUse && e != LRU && e != IN_USE
      requires list == LRU || list == IN_USE
      modifies this`next, this`prev, this`lru, this`inUse
      ensures Lists(next, prev, lru, inUse)
      ensures lru == (if list == LRU then old(lru) + [e] else old(lru))
      ensures inUse == (if list == LRU then old(inUse) else old(inUse) + [e])
    {
      ListsAppend(next, prev, lru, inUse, list, e);
      hide Lists;
      next := next[e := list];
      prev := prev[e := prev[list]];
      next := next[prev[e] := e];
      prev := prev[list := e];
      if list == LRU { lru := lru + [e]; } else { inUse := inUse + [e]; }
    }

    /** Moves an entry to the end of the other list. */
    method Move(e: Id, to: Id)
      requires Lists(next, prev, lru, inUse) && e in charge && e != LRU && e != IN_USE
      requires (to == IN_USE && e in lru) || (to == LRU && e in inUse)
      modifies this`next, this`prev, this`lru, this`inUse
      ensures Lists(next, prev, lru, inUse)
      ensures lru == (if to == LRU then old(lru) + [e] else Without(old(lru), e))
      ensures inUse == (if to == LRU then Without(old(inUse), e) else old(inUse) + [e])
      ensures Sum(charge, lru) + Sum(charge, inUse) == old(Sum(charge, lru) + Sum(charge, inUse))
    {
      hide Lists, Without, Sum;
      ListFacts(next, prev, lru, inUse, charge, e);
      SumAppend(charge, if to == LRU then lru else inUse, e);
      LruRemove(e);
      LruAppend(to, e);
    }

    /** A client gets a handle on a live entry. */
    method Ref(e: Id)
      requires Core() && e in refs
      modifies this
      ensures Core() && e in old(handles) && handles == old(handles)[e := old(handles)[e] + 1]
        && inCache == old(inCache)
      ensures newId == old(newId) && freed == old(freed) && capacity == old(capacity)
    {
      hide Lists, Divided, Counted, Born, Sum, Without;
      RefKeeps(newId, refs, inCache, lru, inUse, handles, charge, freed, e);
      if refs[e] == 1 && e in inCache {
        Move(e, IN_USE);
      }
      refs := refs[e := refs[e] + 1];
      handles := handles[e := handles[e] + 1];
    }

    // Everything agrees once e has one reference less.
    ghost predicate Excess(e: Id)
      reads this
    {
      && Lists(next, prev, lru, inUse) && Divided(refs, inCache, lru, inUse) && Overcounted(refs, inCache, handles, e)
      && Born(newId, refs, charge, freed) && newId >= 2
      && usage == Sum(charge, lru) + Sum(charge, inUse)
    }

    /** Drops a reference: the last one frees the entry, the last but the cache's own makes it evictable. */
    method Unref(e: Id)
      requires Excess(e)
      modifies this
      ensures Core() && inCache == old(inCache) && newId == old(newId) && usage == old(usage)
        && capacity == old(capacity)
      ensures if e in old(handles) && old(handles)[e] == 0 && e !in inCache then handles == old(handles) - {e}
        && freed == old(freed) + [e]
              else handles == old(handles) && freed == old(freed)
      ensures e !in old(inCache) ==> lru == old(lru) && inUse == old(inUse)
      ensures charge == old(charge)
    {
      hide Lists, Divided, Counted, Overcounted, Born, Sum, Without;
      UnrefKeeps(newId, refs, inCache, lru, inUse, handles, charge, freed, e);
      refs := refs[e := refs[e] - 1];
      if refs[e] == 0 {
        assert refs - {e} == old(refs) - {e};
        refs, handles, freed := refs - {e}, handles - {e}, freed + [e];
      } else if e in inCache && refs[e] == 1 {
        Move(e, LRU);
      }
    }

    /** Takes an entry the table no longer holds out of the cache; clients that hold it keep it alive. */
    method FinishErase(e: Option<Id>) returns (erased: bool)
      requires Core() && (e.Some? ==> e.value in inCache)
      modifies this
      ensures Core() && erased == e.Some? && newId == old(newId) && capacity == old(capacity)
      ensures e.None? ==> inCache == old(inCache) && handles == old(handles) && freed == old(freed) && lru == old(lru)
      ensures charge == old(charge)
      ensures e.Some? ==> e.value in charge && usage == old(usage) - charge[e.value]
      ensures e.Some? ==>
        && inCache == old(inCache) - {e.value} && lru == Without(old(lru), e.value) && e.value in old(handles)
        && (if old(handles)[e.value] == 0 then handles == old(handles) - {e.value} && freed == old(freed) + [e.value]
            else handles == old(handles) && freed == old(freed))
    {
      hide Lists, Divided, Counted, Overcounted, Born, Sum, Without;
      if e.Some? {
        var x := e.value;
        EraseKeeps(newId, refs, inCache, lru, inUse, handles, charge, freed, x);
        ListFacts(next, prev, lru, inUse, charge, x);
        LruRemove(x);
        inCache := inCache - {x};
        usage := usage - charge[x];
        Unref(x);
      }
      erased := e.Some?;
    }

    /** A handle on the key's entry, if it is cached. */
    method Lookup(key: Bytes) returns (e: Option<Id>)
      requires Ok()
      modifies this
      ensures Ok() && inCache == old(inCache) && freed == old(freed) && capacity == old(capacity)
      ensures e == (if key in table.contents then Some(table.contents[key]) else None)
      ensures e.None? ==> handles == old(handles)
      ensures e.Some? ==> e.value in old(handles) && handles == old(handles)[e.value := old(handles)[e.value] + 1]
    {
      hide Lists, Divided, Born, Sum, TableOk;
      e := table.Lookup(key);
      if e.Some? { Ref(e.value); }
    }

    /** A client gives a handle back; the entry is freed if that was the last handle and it is no longer cached. */
    method Release(e: Id)
      requires Ok() && e in handles && handles[e] > 0
      modifies this
      ensures Ok() && inCache == old(inCache) && capacity == old(capacity)
      ensures if old(handles)[e] == 1 && e !in inCache then handles == old(handles) - {e} && freed == old(freed) + [e]
              else handles == old(handles)[e := old(handles)[e] - 1] && freed == old(freed)
    {
      hide Lists, Divided, Born, Sum, TableOk, Tabled;
      assert Overcounted(refs, inCache, handles[e := handles[e] - 1], e);
      handles := handles[e := handles[e] - 1];
      hide Overcounted, Counted;
      assert handles - {e} == old(handles) - {e};
      Unref(e);
    }

    method Erase(key: Bytes)
      requires Ok()
      modifies this, table
      ensures Ok() && table.contents == old(table.contents) - {key} && capacity == old(capacity)
      ensures HandlesKept(old(handles), handles)
    {
      hide Core, TableOk, Tabled;
      TabledRemove(table.keyOf, table.contents, inCache, key);
      var e := table.Remove(key);
      var _ := FinishErase(e);
    }

    lemma Oldest()
      requires Core() && |lru| > 0 && Tabled(table.keyOf, table.contents, inCache)
      ensures LRU in next && next[LRU] == lru[0] && lru[0] in handles && handles[lru[0]] == 0
      ensures lru[0] in table.keyOf && table.keyOf[lru[0]] in table.contents
      ensures table.contents[table.keyOf[lru[0]]] == lru[0] && Without(lru, lru[0]) == lru[1..]
    {
      OldestFacts(next, prev, refs, inCache, lru, inUse, handles);
    }

    /** The oldest entry nobody refers to leaves the cache and is freed. */
    method EvictOldest()
      requires Ok() && |lru| > 0
      modifies this, table
      ensures Ok() && lru == old(lru)[1..] && capacity == old(capacity) && newId == old(newId)
      ensures inCache == old(inCache) - {old(lru)[0]} && HandlesKept(old(handles), handles)
      ensures table.contents == old(table.contents) - {old(table.keyOf)[old(lru)[0]]} && table.keyOf == old(table.keyOf)
      ensures charge == old(charge) && old(lru)[0] in charge && usage == old(usage) - charge[old(lru)[0]]
    {
      hide Core, TableOk, Tabled;
      Oldest();
      var old_ := next[LRU];
      TabledRemove(table.keyOf, table.contents, inCache, table.keyOf[old_]);
      var e := table.Remove(table.keyOf[old_]);
      var _ := FinishErase(e);
    }

    /** A new entry with one handle on it, not cached. */
    method Allocate(c: nat) returns (e: Id)
      requires Core()
      modifies this
      ensures Core() && e == old(newId) && newId == old(newId) + 1 && capacity == old(capacity)
      ensures handles == old(handles)[e := 1] && e !in old(handles) && e !in inCache
      ensures inCache == old(inCache) && lru == old(lru) && freed == old(freed)
      ensures refs == old(refs)[e := 1] && charge == old(charge)[e := c]
    {
      NewKeeps(newId, refs, inCache, lru, inUse, handles, charge, freed, c);
      hide Lists, Divided, Counted, Born, Sum;
      e := newId;
      newId := newId + 1;
      refs, charge, handles := refs[e := 1], charge[e := c], handles[e := 1];
    }

    /** The cache takes its own reference to a new entry. */
    method Cache(e: Id)
      requires Core() && e in refs && refs[e] == 1 && e !in inCache
      modifies this
      ensures Core() && inCache == old(inCache) + {e} && handles == old(handles) && lru == old(lru)
      ensures newId == old(newId) && freed == old(freed) && capacity == old(capacity)
    {
      CacheKeeps(newId, refs, inCache, lru, inUse, handles, charge, freed, e);
      SumAppend(charge, inUse, e);
      hide Lists, Divided, Counted, Born, Sum;
      refs := refs[e := refs[e] + 1];
      inCache := inCache + {e};
      LruAppend(IN_USE, e);
      usage := usage + charge[e];
    }

    /**
     A new entry under the key, with a handle on it. The entry it replaces and, oldest first, entries nobody refers to
     leave the cache until the charge fits or none such is left.
     */
    method Insert(key: Bytes, c: nat) returns (e: Id, ghost evicted: nat)
      requires Ok()
      modifies this, table
      ensures Ok() && e == old(newId) && capacity == old(capacity)
      ensures usage <= capacity || lru == []
      ensures e in handles && handles[e] == 1 && HandlesKept(old(handles)[e := 1], handles)
      ensures capacity > 0 ==> key in table.contents && table.contents[key] == e
      ensures capacity == 0 ==> e !in inCache
      ensures forall k :: k in table.contents && (capacity == 0 || k != key) ==>
        k in old(table.contents) && table.contents[k] == old(table.contents)[k]
      ensures forall k :: k in old(table.contents) && k !in table.contents ==>
        old(table.contents)[k] in old(handles) && old(handles)[old(table.contents)[k]] == 0
      ensures var was := if capacity > 0 && key in old(table.contents) then Without(old(lru), old(table.contents)[key])
                         else old(lru);
        && evicted <= |was| && lru == was[evicted..]
        && (evicted > 0 ==> was[evicted - 1] in charge && usage + charge[was[evicted - 1]] > capacity)
    {
      hide Core, TableOk, Tabled;
      e := Allocate(c);
      if capacity > 0 {
        Enter(e, key);
      }
      evicted := EvictToFit();
    }

    method Enter(e: Id, key: Bytes)
      requires Ok() && e in refs && refs[e] == 1 && e in handles && e !in inCache && e !in table.keyOf
      modifies this, table
      ensures Ok() && table.contents == old(table.contents)[key := e] && capacity == old(capacity)
      ensures newId == old(newId) && HandlesKept(old(handles), handles)
      ensures lru == if key in old(table.contents) then Without(old(lru), old(table.contents)[key]) else old(lru)
    {
      hide Core, TableOk, Tabled;
      Alive(e);
      TabledInsert(table.keyOf, table.contents, inCache, key, e);
      Cache(e);
      var previous := table.Insert(e, key);
      var _ := FinishErase(previous);
      assert inCache == old(inCache) + {e} - (if key in old(table.contents) then {old(table.contents)[key]} else {});
    }

    lemma Alive(e: Id)
      requires Core() && e in refs
      ensures e < newId
    {
    }

    // Cut off the oldest until the charge fits.
    method EvictToFit() returns (ghost n: nat)
      requires Ok()
      modifies this, table
      ensures Ok() && capacity == old(capacity) && (usage <= capacity || lru == [])
      ensures n <= |old(lru)| && lru == old(lru)[n..] && HandlesKept(old(handles), handles)
      ensures n > 0 ==> old(lru)[n - 1] in charge && usage + charge[old(lru)[n - 1]] > capacity
      ensures Shrunk(old(table.contents), table.contents, old(handles)) && inCache <= old(inCache)
    {
      hide Core, TableOk, Tabled;
      n := 0;
      Emptiness();
      hide HandlesKept, Shrunk;
      KeptAll(handles, table.contents);
      while usage > capacity && next[LRU] != LRU
        invariant Ok() && capacity == old(capacity) && LRU in next && (next[LRU] == LRU <==> lru == [])
        invariant n <= |old(lru)| && lru == old(lru)[n..] && HandlesKept(old(handles), handles)
        invariant n > 0 ==> old(lru)[n - 1] in charge && usage + charge[old(lru)[n - 1]] > capacity
        invariant Shrunk(old(table.contents), table.contents, old(handles)) && inCache <= old(inCache)
        decreases |lru|
      {
        Oldest();
        ghost var held, contents, key := handles, table.contents, table.keyOf[lru[0]];
        EvictOldest();
        Emptiness();
        HandlesStillKept(old(handles), held, handles);
        ShrunkMore(old(table.contents), contents, key, old(handles), held);
        n := n + 1;
      }
    }

    lemma Emptiness()
      requires Core()
      ensures LRU in next && (next[LRU] == LRU <==> lru == [])
    {
      assert Joined(next, prev, Node(LRU, lru, 0), Node(LRU, lru, 1));
    }

    /** Drops every entry nobody refers to. */
    method Prune()
      requires Ok()
      modifies this, table
      ensures Ok() && lru == [] && capacity == old(capacity) && HandlesKept(old(handles), handles)
      ensures Shrunk(old(table.contents), table.contents, old(handles))
    {
      hide Core, TableOk, Tabled;
      Emptiness();
      while next[LRU] != LRU
        invariant Ok() && capacity == old(capacity) && LRU in next && (next[LRU] == LRU <==> lru == [])
        invariant HandlesKept(old(handles), handles) && Shrunk(old(table.contents), table.contents, old(handles))
        decreases |lru|
      {
        Oldest();
        EvictOldest();
        Emptiness();
      }
    }
  }

  // Clients keep every handle they hold.
  ghost predicate HandlesKept(before: map<Id, nat>, after: map<Id, nat>) {
    && (forall e :: e in after ==> e in before && after[e] == before[e])
    && (forall e :: e in before && before[e] > 0 ==> e in after)
  }

  // Only entries without handles are gone.
  ghost predicate Shrunk(before: map<Bytes, Id>, after: map<Bytes, Id>, handles: map<Id, nat>) {
    && (forall k :: k in after ==> k in before && after[k] == before[k])
    && (forall k :: k in before && k !in after ==> before[k] in handles && handles[before[k]] == 0)
  }

  lemma KeptAll(handles: map<Id, nat>, contents: map<Bytes, Id>)
    ensures HandlesKept(handles, handles) && Shrunk(contents, contents, handles)
  {
  }

  lemma HandlesStillKept(before: map<Id, nat>, mid: map<Id, nat>, after: map<Id, nat>)
    requires HandlesKept(before, mid) && HandlesKept(mid, after)
    ensures HandlesKept(before, after)
  {
  }

  // One more entry gone that had no handle.
  lemma ShrunkMore(before: map<Bytes, Id>, mid: map<Bytes, Id>, key: Bytes, handles: map<Id, nat>, held: map<Id, nat>)
    requires Shrunk(before, mid, handles) && HandlesKept(handles, held)
    requires key in mid && mid[key] in held && held[mid[key]] == 0
    ensures Shrunk(before, mid - {key}, handles)
  {
  }

  lemma TabledInsert(keyOf: map<Id, Bytes>, contents: map<Bytes, Id>, inCache: set<Id>, key: Bytes, e: Id)
    requires Tabled(keyOf, contents, inCache) && e !in keyOf
    ensures key in contents ==> contents[key] in inCache
    ensures Tabled(keyOf[e := key], contents[key := e],
                   inCache + {e} - (if key in contents then {contents[key]} else {}))
  {
  }

  lemma TabledRemove(keyOf: map<Id, Bytes>, contents: map<Bytes, Id>, inCache: set<Id>, key: Bytes)
    requires Tabled(keyOf, contents, inCache)
    ensures if key in contents then contents[key] in inCache && Tabled(keyOf, contents - {key},
      inCache - {contents[key]})
            else contents - {key} == contents
  {
  }

  lemma OldestFacts(next: map<Id, Id>, prev: map<Id, Id>, refs: map<Id, nat>, inCache: set<Id>, lru: seq<Id>,
                    inUse: seq<Id>, handles: map<Id, nat>)
    requires Lists(next, prev, lru, inUse) && Divided(refs, inCache, lru, inUse) && Counted(refs, inCache, handles)
    requires |lru| > 0
    ensures LRU in next && next[LRU] == lru[0] && lru[0] in inCache && lru[0] in handles && handles[lru[0]] == 0
    ensures Without(lru, lru[0]) == lru[1..]
  {
    assert Joined(next, prev, Node(LRU, lru, 0), Node(LRU, lru, 1));
    WithoutAt(lru, 0);
  }

  // Taking e off its list takes its charge off the sum.
  lemma ListFacts(next: map<Id, Id>, prev: map<Id, Id>, lru: seq<Id>, inUse: seq<Id>, charge: map<Id, nat>, e: Id)
    requires Lists(next, prev, lru, inUse) && e in charge && (e in lru || e in inUse)
    ensures Sum(charge, Without(lru, e)) == Sum(charge, lru) - (if e in lru then charge[e] else 0)
    ensures Sum(charge, Without(inUse, e)) == Sum(charge, inUse) - (if e in inUse then charge[e] else 0)
    ensures e in lru <==> e !in inUse
    ensures e !in Without(lru, e) && e !in Without(inUse, e)
    ensures if e in lru then Without(inUse, e) == inUse else Without(lru, e) == lru
  {
    SumWithout(charge, lru, e);
    SumWithout(charge, inUse, e);
  }

  // Counted, but for one reference of e too many.
  ghost predicate Overcounted(refs: map<Id, nat>, inCache: set<Id>, handles: map<Id, nat>, e: Id) {
    && refs.Keys == handles.Keys && inCache <= refs.Keys && e in refs
    && (forall x :: x in refs && x != e ==> refs[x] == handles[x] + (if x in inCache then 1 else 0) && refs[x] > 0)
    && refs[e] == handles[e] + (if e in inCache then 1 else 0) + 1
  }

  lemma RefKeeps(newId: Id, refs: map<Id, nat>, inCache: set<Id>, lru: seq<Id>, inUse: seq<Id>, handles: map<Id, nat>,
                 charge: map<Id, nat>, freed: seq<Id>, e: Id)
    requires Divided(refs, inCache, lru, inUse) && Counted(refs, inCache, handles) && Born(newId, refs, charge, freed)
    requires e in refs
    ensures e in handles && e in charge && e >= 2
    ensures var more, moves := refs[e := refs[e] + 1], refs[e] == 1 && e in inCache;
      && Divided(more, inCache, if moves then Without(lru, e) else lru, if moves then inUse + [e] else inUse)
      && Counted(more, inCache, handles[e := handles[e] + 1]) && Born(newId, more, charge, freed)
      && (moves ==> e in lru)
  {
    assert e in handles && e in charge && e >= 2 && refs[e] > 0;
    Recharged(newId, refs, refs[e := refs[e] + 1], charge, freed);
    assert refs[e] == 1 && e in inCache ==> e in lru;
    RefDivided(refs, inCache, lru, inUse, e);
    RefCounted(refs, inCache, handles, e);
    hide *;
  }

  lemma RefCounted(refs: map<Id, nat>, inCache: set<Id>, handles: map<Id, nat>, e: Id)
    requires Counted(refs, inCache, handles) && e in refs
    ensures e in handles && Counted(refs[e := refs[e] + 1], inCache, handles[e := handles[e] + 1])
  {
  }

  lemma Recharged(newId: Id, refs: map<Id, nat>, more: map<Id, nat>, charge: map<Id, nat>, freed: seq<Id>)
    requires Born(newId, refs, charge, freed) && more.Keys == refs.Keys
    ensures Born(newId, more, charge, freed)
  {
  }

  lemma RefDivided(refs: map<Id, nat>, inCache: set<Id>, lru: seq<Id>, inUse: seq<Id>, e: Id)
    requires Divided(refs, inCache, lru, inUse) && e in refs && refs[e] > 0
    ensures var more, moves := refs[e := refs[e] + 1], refs[e] == 1 && e in inCache;
      Divided(more, inCache, if moves then Without(lru, e) else lru, if moves then inUse + [e] else inUse)
  {
  }

  lemma UnrefDivided(refs: map<Id, nat>, inCache: set<Id>, lru: seq<Id>, inUse: seq<Id>, e: Id)
    requires Divided(refs, inCache, lru, inUse) && e in refs && refs[e] > 1
    ensures var less, moves := refs[e := refs[e] - 1], refs[e] == 2 && e in inCache;
      Divided(less, inCache, if moves then lru + [e] else lru, if moves then Without(inUse, e) else inUse)
  {
  }

  lemma UnrefLast(newId: Id, refs: map<Id, nat>, inCache: set<Id>, lru: seq<Id>, inUse: seq<Id>,
                  handles: map<Id, nat>, charge: map<Id, nat>, freed: seq<Id>, e: Id)
    requires Divided(refs, inCache, lru, inUse) && Overcounted(refs, inCache, handles, e)
    requires Born(newId, refs, charge, freed) && refs[e] == 1
    ensures Divided(refs - {e}, inCache, lru, inUse) && Counted(refs - {e}, inCache, handles - {e})
    ensures Born(newId, refs - {e}, charge, freed + [e])
  {
  }

  lemma UnrefKeeps(newId: Id, refs: map<Id, nat>, inCache: set<Id>, lru: seq<Id>, inUse: seq<Id>,
                   handles: map<Id, nat>, charge: map<Id, nat>, freed: seq<Id>, e: Id)
    requires Divided(refs, inCache, lru, inUse) && Overcounted(refs, inCache, handles, e)
    requires Born(newId, refs, charge, freed)
    ensures e in refs && e in handles && e in charge && e >= 2 && refs[e] > 0
    ensures refs[e] == 1 <==> handles[e] == 0 && e !in inCache
    ensures refs[e] == 1 ==>
      Divided(refs - {e}, inCache, lru, inUse) && Counted(refs - {e}, inCache, handles - {e})
      && Born(newId, refs - {e}, charge, freed + [e])
    ensures refs[e] > 1 ==>
      var less, moves := refs[e := refs[e] - 1], refs[e] == 2 && e in inCache;
      && Divided(less, inCache, if moves then lru + [e] else lru, if moves then Without(inUse, e) else inUse)
      && Counted(less, inCache, handles) && Born(newId, less, charge, freed)
      && (moves ==> e in inUse)
  {
    assert e in refs && e in handles && e in charge && e >= 2 && refs[e] > 0;
    assert refs[e] == 1 <==> handles[e] == 0 && e !in inCache;
    if refs[e] == 1 {
      UnrefLast(newId, refs, inCache, lru, inUse, handles, charge, freed, e);
    } else {
      assert refs[e] == 2 && e in inCache ==> e in inUse;
      assert Counted(refs[e := refs[e] - 1], inCache, handles);
      UnrefDivided(refs, inCache, lru, inUse, e);
      Recharged(newId, refs, refs[e := refs[e] - 1], charge, freed);
    }
    hide *;
  }

  lemma EraseKeeps(newId: Id, refs: map<Id, nat>, inCache: set<Id>, lru: seq<Id>, inUse: seq<Id>,
                   handles: map<Id, nat>, charge: map<Id, nat>, freed: seq<Id>, e: Id)
    requires Divided(refs, inCache, lru, inUse) && Counted(refs, inCache, handles) && Born(newId, refs, charge, freed)
    requires e in inCache
    ensures e in handles && e in charge && (e in lru || e in inUse)
    ensures Divided(refs, inCache - {e}, Without(lru, e), Without(inUse, e))
    ensures Overcounted(refs, inCache - {e}, handles, e)
  {
  }

  lemma NewKeeps(newId: Id, refs: map<Id, nat>, inCache: set<Id>, lru: seq<Id>, inUse: seq<Id>,
                 handles: map<Id, nat>, charge: map<Id, nat>, freed: seq<Id>, c: nat)
    requires Divided(refs, inCache, lru, inUse) && Counted(refs, inCache, handles) && Born(newId, refs, charge, freed)
    requires newId >= 2
    ensures newId !in refs && newId !in inCache && newId !in handles
    ensures Divided(refs[newId := 1], inCache, lru, inUse) && Counted(refs[newId := 1], inCache, handles[newId := 1])
    ensures Born(newId + 1, refs[newId := 1], charge[newId := c], freed)
    ensures Sum(charge[newId := c], lru) == Sum(charge, lru) && Sum(charge[newId := c], inUse) == Sum(charge, inUse)
  {
    assert newId !in refs && newId !in charge;
    assert newId !in lru && newId !in inUse;
    SumFrame(charge, charge[newId := c], lru);
    SumFrame(charge, charge[newId := c], inUse);
  }

  lemma CacheKeeps(newId: Id, refs: map<Id, nat>, inCache: set<Id>, lru: seq<Id>, inUse: seq<Id>,
                   handles: map<Id, nat>, charge: map<Id, nat>, freed: seq<Id>, e: Id)
    requires Divided(refs, inCache, lru, inUse) && Counted(refs, inCache, handles) && Born(newId, refs, charge, freed)
    requires e in refs && refs[e] == 1 && e !in inCache
    ensures e in charge && e >= 2 && e !in lru && e !in inUse
    ensures Divided(refs[e := 2], inCache + {e}, lru, inUse + [e]) && Counted(refs[e := 2], inCache + {e}, handles)
    ensures Born(newId, refs[e := 2], charge, freed)
  {
  }
}
