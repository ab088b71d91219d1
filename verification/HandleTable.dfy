/**
 The block cache's chained hash table (util/cache.cc, HandleTable). Handles are numbers, and a handle's fields are maps
 from them: a pointer is the number it points to, and a pointer to a pointer names the place that holds one.
 */
module HandleTable {
  import opened Keys
  import opened Coding

  type Id = nat

  // The masking of the source, for its power-of-two lengths.
  function BucketOf(hash: Bytes -> Word, key: Bytes, length: nat): (b: nat)
    requires length > 0
    ensures b < length
  {
    hash(key) % length
  }

  // &list_[i] or &e->next_hash.
  datatype Place = Bucket(index: nat) | After(id: Id)

  ghost predicate Linked(nextHash: map<Id, Option<Id>>, s: seq<Id>, i: nat)
    requires i < |s|
  {
    s[i] in nextHash && nextHash[s[i]] == (if i + 1 < |s| then Some(s[i + 1]) else None)
  }

  ghost predicate Chain(head: Option<Id>, nextHash: map<Id, Option<Id>>, s: seq<Id>) {
    && head == (if |s| == 0 then None else Some(s[0]))
    && (forall i :: 0 <= i < |s| ==> Linked(nextHash, s, i))
    && (forall i, j :: 0 <= i < j < |s| ==> s[i] != s[j])
  }

  ghost predicate Links(list: seq<Option<Id>>, nextHash: map<Id, Option<Id>>, chains: seq<seq<Id>>) {
    && |list| == |chains| > 0
    && (forall b :: 0 <= b < |chains| ==> Chain(list[b], nextHash, chains[b]))
  }

  // The chains hold exactly the contents' handles, each in the bucket its key hashes to.
  ghost predicate Places(hash: Bytes -> Word, keyOf: map<Id, Bytes>, chains: seq<seq<Id>>, contents: map<Bytes, Id>) {
    && |chains| > 0
    && (forall b, i :: 0 <= b < |chains| && 0 <= i < |chains[b]| ==>
      InPlace(hash, keyOf, contents, |chains|, b, chains[b][i]))
    && (forall k :: k in contents ==> Listed(hash, keyOf, chains, contents, k))
  }

  ghost predicate Listed(hash: Bytes -> Word, keyOf: map<Id, Bytes>, chains: seq<seq<Id>>, contents: map<Bytes, Id>,
                         k: Bytes)
    requires |chains| > 0 && k in contents
  {
    contents[k] in keyOf && keyOf[contents[k]] == k && contents[k] in chains[BucketOf(hash, k, |chains|)]
  }

  ghost predicate InPlace(hash: Bytes -> Word, keyOf: map<Id, Bytes>, contents: map<Bytes, Id>, length: nat, b: nat,
    id: Id)
    requires length > 0
  {
    id in keyOf && keyOf[id] in contents && contents[keyOf[id]] == id && BucketOf(hash, keyOf[id], length) == b
  }

  ghost predicate TableOk(hash: Bytes -> Word, list: seq<Option<Id>>, nextHash: map<Id, Option<Id>>,
                          keyOf: map<Id, Bytes>, chains: seq<seq<Id>>, contents: map<Bytes, Id>, length: nat,
                            elems: int)
  {
    && Links(list, nextHash, chains) && Places(hash, keyOf, chains, contents)
    && length == |list| && elems == |contents|
  }

  function PlaceOf(chains: seq<seq<Id>>, b: nat, i: nat): Place
    requires b < |chains| && i <= |chains[b]|
  {
    if i == 0 then Bucket(b) else After(chains[b][i - 1])
  }

  // What storing a pointer at a place makes of the buckets and of the links.
  function ListWith(list: seq<Option<Id>>, p: Place, v: Option<Id>): (r: seq<Option<Id>>)
    requires p.Bucket? ==> p.index < |list|
    ensures |r| == |list|
  {
    if p.Bucket? then list[p.index := v] else list
  }

  function LinksWith(nextHash: map<Id, Option<Id>>, p: Place, v: Option<Id>): map<Id, Option<Id>> {
    if p.After? then nextHash[p.id := v] else nextHash
  }

  /** Putting h where handle i of a chain is, or at the chain's end. */
  lemma ChainInsert(head: Option<Id>, nextHash: map<Id, Option<Id>>, s: seq<Id>, i: nat, h: Id)
    requires Chain(head, nextHash, s) && i <= |s| && h !in s && (i < |s| ==> Linked(nextHash, s, i))
    ensures var tail := if i < |s| then s[i + 1..] else [];
      var linked := nextHash[h := if i < |s| then nextHash[s[i]] else None];
      Chain(if i == 0 then Some(h) else head, if i == 0 then linked else linked[s[i - 1] := Some(h)],
        s[..i] + [h] + tail)
  {
    var tail := if i < |s| then s[i + 1..] else [];
    var t := s[..i] + [h] + tail;
    var linked := nextHash[h := if i < |s| then nextHash[s[i]] else None];
    var links := if i == 0 then linked else linked[s[i - 1] := Some(h)];
    forall j | 0 <= j < |t|
      ensures Linked(links, t, j)
    {
      assert t[j] == if j == i then h else s[j];
      if j + 1 < |t| { assert t[j + 1] == if j + 1 == i then h else s[j + 1]; }
      if j < |s| { assert Linked(nextHash, s, j); }
      if j < |s| && i > 0 { assert j != i - 1 ==> s[j] != s[i - 1]; }
      if i > 0 { assert s[i - 1] in s; }
    }
  }

  /** Unlinking handle i of a chain. */
  lemma ChainRemove(head: Option<Id>, nextHash: map<Id, Option<Id>>, s: seq<Id>, i: nat)
    requires Chain(head, nextHash, s) && i < |s| && Linked(nextHash, s, i)
    ensures Chain(if i == 0 then nextHash[s[i]] else head,
                  if i == 0 then nextHash else nextHash[s[i - 1] := nextHash[s[i]]], s[..i] + s[i + 1..])
  {
    var t := s[..i] + s[i + 1..];
    var links := if i == 0 then nextHash else nextHash[s[i - 1] := nextHash[s[i]]];
    forall j | 0 <= j < |t|
      ensures Linked(links, t, j)
    {
      assert t[j] == if j < i then s[j] else s[j + 1];
      if j + 1 < |t| { assert t[j + 1] == if j + 1 < i then s[j + 1] else s[j + 2]; }
      assert Linked(nextHash, s, i) && Linked(nextHash, s, if j < i then j else j + 1);
      if i > 0 { assert j != i - 1 ==> t[j] != s[i - 1]; }
    }
  }

  /** Links of handles outside a chain do not matter to it. */
  lemma ChainFrame(head: Option<Id>, nextHash: map<Id, Option<Id>>, other: map<Id, Option<Id>>, s: seq<Id>)
    requires Chain(head, nextHash, s)
    requires forall i :: 0 <= i < |s| ==> s[i] in other && s[i] in nextHash && other[s[i]] == nextHash[s[i]]
    ensures Chain(head, other, s)
  {
    forall i | 0 <= i < |s|
      ensures Linked(other, s, i)
    {
      assert Linked(nextHash, s, i);
    }
  }

  // Where FindPointer(key) ends: handle i of its chain, or the chain's end.
  ghost predicate Found(hash: Bytes -> Word, chains: seq<seq<Id>>, contents: map<Bytes, Id>, key: Bytes, i: nat)
    requires |chains| > 0
  {
    var chain := chains[BucketOf(hash, key, |chains|)];
    && i <= |chain|
    && (if i < |chain| then key in contents && contents[key] == chain[i] else key !in contents)
  }

  // A handle is in no chain but its own.
  lemma OtherChain(hash: Bytes -> Word, keyOf: map<Id, Bytes>, chains: seq<seq<Id>>, contents: map<Bytes, Id>,
                   b: nat, c: nat, id: Id)
    requires Places(hash, keyOf, chains, contents) && b < |chains| && c < |chains| && b != c && id in chains[c]
    ensures id !in chains[b]
  {
  }

  // Changing one chain's links leaves the others linked.
  lemma OtherLinks(list: seq<Option<Id>>, nextHash: map<Id, Option<Id>>, chains: seq<seq<Id>>,
                   other: map<Id, Option<Id>>, head: Option<Id>, b: nat, t: seq<Id>)
    requires Links(list, nextHash, chains) && b < |chains| && Chain(head, other, t)
    requires forall c, i :: 0 <= c < |chains| && c != b && 0 <= i < |chains[c]| && chains[c][i] in nextHash ==>
      chains[c][i] in other && other[chains[c][i]] == nextHash[chains[c][i]]
    ensures Links(list[b := head], other, chains[b := t])
  {
    forall c | 0 <= c < |chains| && c != b
      ensures Chain(list[c], other, chains[c])
    {
      var s := chains[c];
      assert Chain(list[c], nextHash, s);
      forall i | 0 <= i < |s|
        ensures s[i] in other && s[i] in nextHash && other[s[i]] == nextHash[s[i]]
      {
        assert Linked(nextHash, s, i);
      }
      ChainFrame(list[c], nextHash, other, s);
    }
  }

  lemma InsertLinks(hash: Bytes -> Word, list: seq<Option<Id>>, nextHash: map<Id, Option<Id>>, keyOf: map<Id, Bytes>,
                    chains: seq<seq<Id>>, contents: map<Bytes, Id>, b: nat, h: Id, i: nat)
    requires Links(list, nextHash, chains) && Places(hash, keyOf, chains, contents)
    requires h !in keyOf && b < |chains| && i <= |chains[b]|
    ensures var s, p := chains[b], PlaceOf(chains, b, i);
      && (i < |s| ==> s[i] in nextHash)
      && var links := nextHash[h := if i < |s| then nextHash[s[i]] else None];
      Links(ListWith(list, p, Some(h)), LinksWith(links, p, Some(h)),
            chains[b := s[..i] + [h] + (if i < |s| then s[i + 1..] else [])])
  {
    var s, p := chains[b], PlaceOf(chains, b, i);
    assert Chain(list[b], nextHash, s);
    if i < |s| { assert Linked(nextHash, s, i); }
    forall c, j | 0 <= c < |chains| && 0 <= j < |chains[c]|
      ensures chains[c][j] != h && (c != b ==> chains[c][j] !in s)
    {
      assert InPlace(hash, keyOf, contents, |chains|, c, chains[c][j]);
      if c != b { OtherChain(hash, keyOf, chains, contents, b, c, chains[c][j]); }
    }
    ChainInsert(list[b], nextHash, s, i, h);
    var links := LinksWith(nextHash[h := if i < |s| then nextHash[s[i]] else None], p, Some(h));
    OtherLinks(list, nextHash, chains, links, if i == 0 then Some(h) else list[b], b,
               s[..i] + [h] + (if i < |s| then s[i + 1..] else []));
    assert i != 0 ==> list[b := list[b]] == list;
  }

  lemma InsertPlaces(hash: Bytes -> Word, keyOf: map<Id, Bytes>, chains: seq<seq<Id>>, contents: map<Bytes, Id>,
                     key: Bytes, h: Id, i: nat, t: seq<Id>)
    requires Places(hash, keyOf, chains, contents) && h !in keyOf && Found(hash, chains, contents, key, i)
    requires Replaces(chains[BucketOf(hash, key, |chains|)], i, h, t)
    ensures Places(hash, keyOf[h := key], chains[BucketOf(hash, key, |chains|) := t], contents[key := h])
  {
    var b := BucketOf(hash, key, |chains|);
    var more, cs, keys := contents[key := h], chains[b := t], keyOf[h := key];
    forall c, j | 0 <= c < |cs| && 0 <= j < |cs[c]|
      ensures InPlace(hash, keys, more, |cs|, c, cs[c][j])
    {
      InsertInPlace(hash, keyOf, chains, contents, key, h, i, t, c, j);
    }
    forall k | k in more
      ensures Listed(hash, keys, cs, more, k)
    {
      InsertListed(hash, keyOf, chains, contents, key, h, i, t, k);
    }
  }

  // t is s with h for its element i, or at its end.
  ghost predicate Replaces(s: seq<Id>, i: nat, h: Id, t: seq<Id>) {
    && i <= |s| && |t| == (if i < |s| then |s| else |s| + 1) && t[i] == h
    && (forall j :: 0 <= j < |s| && j != i ==> t[j] == s[j] && (i < |s| ==> s[j] != s[i]))
  }

  lemma InsertInPlace(hash: Bytes -> Word, keyOf: map<Id, Bytes>, chains: seq<seq<Id>>, contents: map<Bytes, Id>,
                      key: Bytes, h: Id, i: nat, t: seq<Id>, c: nat, j: nat)
    requires Places(hash, keyOf, chains, contents) && h !in keyOf && Found(hash, chains, contents, key, i)
    requires Replaces(chains[BucketOf(hash, key, |chains|)], i, h, t)
    requires c < |chains| && j < |chains[BucketOf(hash, key, |chains|) := t][c]|
    ensures InPlace(hash, keyOf[h := key], contents[key := h], |chains|, c,
      chains[BucketOf(hash, key, |chains|) := t][c][j])
  {
  }

  lemma InsertListed(hash: Bytes -> Word, keyOf: map<Id, Bytes>, chains: seq<seq<Id>>, contents: map<Bytes, Id>,
                     key: Bytes, h: Id, i: nat, t: seq<Id>, k: Bytes)
    requires Places(hash, keyOf, chains, contents) && h !in keyOf && Found(hash, chains, contents, key, i)
    requires Replaces(chains[BucketOf(hash, key, |chains|)], i, h, t) && k in contents[key := h]
    ensures Listed(hash, keyOf[h := key], chains[BucketOf(hash, key, |chains|) := t], contents[key := h], k)
  {
  }

  lemma RemoveLinks(hash: Bytes -> Word, list: seq<Option<Id>>, nextHash: map<Id, Option<Id>>, keyOf: map<Id, Bytes>,
                    chains: seq<seq<Id>>, contents: map<Bytes, Id>, b: nat, i: nat)
    requires Links(list, nextHash, chains) && Places(hash, keyOf, chains, contents)
    requires b < |chains| && i < |chains[b]|
    ensures var s, p := chains[b], PlaceOf(chains, b, i);
      s[i] in nextHash
      && Links(ListWith(list, p, nextHash[s[i]]), LinksWith(nextHash, p, nextHash[s[i]]),
        chains[b := s[..i] + s[i + 1..]])
  {
    var s, p := chains[b], PlaceOf(chains, b, i);
    assert Chain(list[b], nextHash, s) && Linked(nextHash, s, i);
    forall c, j | 0 <= c < |chains| && 0 <= j < |chains[c]| && c != b
      ensures chains[c][j] !in s
    {
      OtherChain(hash, keyOf, chains, contents, b, c, chains[c][j]);
    }
    ChainRemove(list[b], nextHash, s, i);
    OtherLinks(list, nextHash, chains, LinksWith(nextHash, p, nextHash[s[i]]),
               if i == 0 then nextHash[s[i]] else list[b], b, s[..i] + s[i + 1..]);
    assert i != 0 ==> list[b := list[b]] == list;
  }

  lemma RemovePlaces(hash: Bytes -> Word, list: seq<Option<Id>>, nextHash: map<Id, Option<Id>>, keyOf: map<Id, Bytes>,
                     chains: seq<seq<Id>>, contents: map<Bytes, Id>, key: Bytes, i: nat)
    requires Links(list, nextHash, chains) && Places(hash, keyOf, chains, contents)
    requires Found(hash, chains, contents, key, i) && key in contents
    ensures var s := chains[BucketOf(hash, key, |chains|)];
      i < |s| && Places(hash, keyOf, chains[BucketOf(hash, key, |chains|) := s[..i] + s[i + 1..]], contents - {key})
  {
    var b := BucketOf(hash, key, |chains|);
    var s := chains[b];
    var t, less := s[..i] + s[i + 1..], contents - {key};
    var cs := chains[b := t];
    assert Chain(list[b], nextHash, s);
    forall c, j | 0 <= c < |cs| && 0 <= j < |cs[c]|
      ensures InPlace(hash, keyOf, less, |cs|, c, cs[c][j])
    {
      var m := if c == b && j >= i then j + 1 else j;
      assert cs[c][j] == chains[c][m] && InPlace(hash, keyOf, contents, |chains|, c, chains[c][m]);
    }
    forall k | k in less
      ensures Listed(hash, keyOf, cs, less, k)
    {
      assert Listed(hash, keyOf, chains, contents, k) && Listed(hash, keyOf, chains, contents, key);
      if contents[k] in s {
        var j :| 0 <= j < |s| && s[j] == contents[k];
        assert s[j] == if j < i then t[j] else t[j - 1];
      }
    }
  }

  // ---- Rehashing.

  /** Pushing a handle in front of a chain. */
  lemma PushLinks(list: seq<Option<Id>>, nextHash: map<Id, Option<Id>>, chains: seq<seq<Id>>, h: Id, b: nat)
    requires Links(list, nextHash, chains) && b < |chains|
    requires forall c, i :: 0 <= c < |chains| && 0 <= i < |chains[c]| ==> chains[c][i] != h
    ensures Links(list[b := Some(h)], nextHash[h := list[b]], chains[b := [h] + chains[b]])
  {
    var s, links := chains[b], nextHash[h := list[b]];
    assert Chain(list[b], nextHash, s);
    var t := [h] + s;
    forall i | 0 <= i < |t|
      ensures Linked(links, t, i)
    {
      if i > 0 { assert Linked(nextHash, s, i - 1) && s[i - 1] != h; }
    }
    OtherLinks(list, nextHash, chains, links, Some(h), b, t);
  }

  lemma PushPlaces(hash: Bytes -> Word, keyOf: map<Id, Bytes>, chains: seq<seq<Id>>, done: map<Bytes, Id>, key: Bytes,
                   h: Id)
    requires Places(hash, keyOf, chains, done) && h in keyOf && keyOf[h] == key && key !in done
    ensures var b := BucketOf(hash, key, |chains|);
      Places(hash, keyOf, chains[b := [h] + chains[b]], done[key := h])
  {
  }

  // The handles before position j of chain i have moved, and no others.
  ghost predicate Moved(keyOf: map<Id, Bytes>, chains: seq<seq<Id>>, contents: map<Bytes, Id>, done: map<Bytes, Id>,
                        i: nat, j: nat)
  {
    && (forall k :: k in done ==> k in contents && done[k] == contents[k])
    && (forall b, m :: 0 <= b < |chains| && 0 <= m < |chains[b]| ==>
      chains[b][m] in keyOf && (keyOf[chains[b][m]] in done <==> b < i || (b == i && m < j)))
  }

  lemma MovedStep(hash: Bytes -> Word, list: seq<Option<Id>>, nextHash: map<Id, Option<Id>>, keyOf: map<Id, Bytes>,
                  chains: seq<seq<Id>>, contents: map<Bytes, Id>, done: map<Bytes, Id>, i: nat, j: nat)
    requires Places(hash, keyOf, chains, contents) && Moved(keyOf, chains, contents, done, i, j)
    requires i < |chains| && j < |chains[i]| && forall m :: 0 <= m < |chains[i]| && m != j ==>
      chains[i][m] != chains[i][j]
    ensures chains[i][j] in keyOf && Moved(keyOf, chains, contents, done[keyOf[chains[i][j]] := chains[i][j]], i, j + 1)
  {
  }

  // Half-way through: the moved handles are in the new table, the rest still linked in the old one.
  ghost predicate Moving(hash: Bytes -> Word, list: seq<Option<Id>>, nextHash: map<Id, Option<Id>>,
                         keyOf: map<Id, Bytes>, chains: seq<seq<Id>>, contents: map<Bytes, Id>,
                         newList: seq<Option<Id>>, newChains: seq<seq<Id>>, done: map<Bytes, Id>, i: nat, j: nat)
  {
    && Places(hash, keyOf, chains, contents) && |list| == |chains|
    && Links(newList, nextHash, newChains) && Places(hash, keyOf, newChains, done)
    && Moved(keyOf, chains, contents, done, i, j)
    && (forall b :: i < b < |chains| ==> Chain(list[b], nextHash, chains[b]))
    && (i < |chains| ==> j <= |chains[i]|)
    && (i < |chains| ==>
      Chain(if j == 0 then list[i] else if j < |chains[i]| then Some(chains[i][j]) else None, nextHash, chains[i][j..]))
    && (i < |chains| ==> forall m, n :: 0 <= m < n < |chains[i]| ==> chains[i][m] != chains[i][n])
  }

  lemma StartMoved(hash: Bytes -> Word, keyOf: map<Id, Bytes>, chains: seq<seq<Id>>, contents: map<Bytes, Id>,
                   list: seq<Option<Id>>, newList: seq<Option<Id>>, nextHash: map<Id, Option<Id>>,
                   newChains: seq<seq<Id>>)
    requires Links(list, nextHash, chains) && Places(hash, keyOf, chains, contents)
    requires |newList| == |newChains| > 0
    requires forall b :: 0 <= b < |newList| ==> newList[b] == None && newChains[b] == []
    ensures Moving(hash, list, nextHash, keyOf, chains, contents, newList, newChains, map[], 0, 0)
  {
  }

  lemma MovingStep(hash: Bytes -> Word, list: seq<Option<Id>>, nextHash: map<Id, Option<Id>>, keyOf: map<Id, Bytes>,
                   chains: seq<seq<Id>>, contents: map<Bytes, Id>, newList: seq<Option<Id>>, newChains: seq<seq<Id>>,
                   done: map<Bytes, Id>, i: nat, j: nat)
    requires Moving(hash, list, nextHash, keyOf, chains, contents, newList, newChains, done, i, j)
    requires i < |chains| && j < |chains[i]|
    ensures var e := chains[i][j];
      && e in nextHash && e in keyOf && |newList| == |newChains| > 0
      && nextHash[e] == (if j + 1 < |chains[i]| then Some(chains[i][j + 1]) else None)
      && var b := BucketOf(hash, keyOf[e], |newChains|);
      Moving(hash, list, nextHash[e := newList[b]], keyOf, chains, contents, newList[b := Some(e)],
             newChains[b := [e] + newChains[b]], done[keyOf[e] := e], i, j + 1)
  {
    var e, s := chains[i][j], chains[i][j..];
    assert Linked(nextHash, s, 0);
    assert InPlace(hash, keyOf, contents, |chains|, i, e);
    var b := BucketOf(hash, keyOf[e], |newChains|);
    var links := nextHash[e := newList[b]];
    assert keyOf[e] !in done;
    assert forall c, m :: 0 <= c < |newChains| && 0 <= m < |newChains[c]| ==>
      InPlace(hash, keyOf, done, |newChains|, c, newChains[c][m]);
    PushLinks(newList, nextHash, newChains, e, b);
    PushPlaces(hash, keyOf, newChains, done, keyOf[e], e);
    MovedStep(hash, list, nextHash, keyOf, chains, contents, done, i, j);
    RestLinked(hash, list, nextHash, keyOf, chains, contents, links, i, j);
  }

  // The links of the handles that have not moved are untouched.
  lemma RestLinked(hash: Bytes -> Word, list: seq<Option<Id>>, nextHash: map<Id, Option<Id>>, keyOf: map<Id, Bytes>,
                   chains: seq<seq<Id>>, contents: map<Bytes, Id>, links: map<Id, Option<Id>>, i: nat, j: nat)
    requires Places(hash, keyOf, chains, contents) && |list| == |chains| && i < |chains| && j < |chains[i]|
    requires forall b :: i < b < |chains| ==> Chain(list[b], nextHash, chains[b])
    requires Chain(if j == 0 then list[i] else Some(chains[i][j]), nextHash, chains[i][j..])
    requires forall id :: id in nextHash && id != chains[i][j] ==> id in links && links[id] == nextHash[id]
    ensures forall b :: i < b < |chains| ==> Chain(list[b], links, chains[b])
    ensures Chain(if j + 1 < |chains[i]| then Some(chains[i][j + 1]) else None, links, chains[i][j + 1..])
  {
    forall b | i < b < |chains|
      ensures Chain(list[b], links, chains[b])
    {
      forall m | 0 <= m < |chains[b]|
        ensures chains[b][m] in links && chains[b][m] in nextHash && links[chains[b][m]] == nextHash[chains[b][m]]
      {
        assert Linked(nextHash, chains[b], m);
        OtherChain(hash, keyOf, chains, contents, i, b, chains[b][m]);
      }
      ChainFrame(list[b], nextHash, links, chains[b]);
    }
    var s := chains[i][j..];
    var t := chains[i][j + 1..];
    forall m | 0 <= m < |t|
      ensures Linked(links, t, m)
    {
      assert Linked(nextHash, s, m + 1) && t[m] == s[m + 1] && s[0] != s[m + 1];
    }
  }

  lemma NextBucket(hash: Bytes -> Word, list: seq<Option<Id>>, nextHash: map<Id, Option<Id>>, keyOf: map<Id, Bytes>,
                   chains: seq<seq<Id>>, contents: map<Bytes, Id>, newList: seq<Option<Id>>, newChains: seq<seq<Id>>,
                   done: map<Bytes, Id>, i: nat)
    requires i < |chains|
    requires Moving(hash, list, nextHash, keyOf, chains, contents, newList, newChains, done, i, |chains[i]|)
    ensures Moving(hash, list, nextHash, keyOf, chains, contents, newList, newChains, done, i + 1, 0)
  {
    hide Places, Links, Linked;
    if i + 1 < |chains| {
      assert Chain(list[i + 1], nextHash, chains[i + 1]);
      assert chains[i + 1][0..] == chains[i + 1];
    }
  }

  lemma BucketHead(hash: Bytes -> Word, list: seq<Option<Id>>, nextHash: map<Id, Option<Id>>, keyOf: map<Id, Bytes>,
                   chains: seq<seq<Id>>, contents: map<Bytes, Id>, newList: seq<Option<Id>>, newChains: seq<seq<Id>>,
                   done: map<Bytes, Id>, i: nat)
    requires Moving(hash, list, nextHash, keyOf, chains, contents, newList, newChains, done, i, 0) && i < |list|
    ensures |list| == |chains| && list[i] == (if |chains[i]| > 0 then Some(chains[i][0]) else None)
  {
  }

  lemma Finished(hash: Bytes -> Word, list: seq<Option<Id>>, nextHash: map<Id, Option<Id>>, keyOf: map<Id, Bytes>,
                 chains: seq<seq<Id>>, contents: map<Bytes, Id>, newList: seq<Option<Id>>, newChains: seq<seq<Id>>,
                 done: map<Bytes, Id>)
    requires Moving(hash, list, nextHash, keyOf, chains, contents, newList, newChains, done, |list|, 0)
    ensures Links(newList, nextHash, newChains) && Places(hash, keyOf, newChains, contents)
    ensures |newList| == |newChains|
  {
  }

  class HandleTable {
    const hash: Bytes -> Word
    var length: nat
    var elems: nat
    var list: seq<Option<Id>>
    var nextHash: map<Id, Option<Id>>
    var keyOf: map<Id, Bytes>
    ghost var chains: seq<seq<Id>>
    ghost var contents: map<Bytes, Id>

    ghost predicate Ok()
      reads this
    {
      TableOk(hash, list, nextHash, keyOf, chains, contents, length, elems)
    }

    constructor (hash: Bytes -> Word)
      ensures Ok() && contents == map[] && this.hash == hash && keyOf == map[]
    {
      this.hash := hash;
      length, elems, list := 4, 0, [None, None, None, None];
      nextHash, keyOf, chains, contents := map[], map[], [[], [], [], []], map[];
    }

    function Load(p: Place): Option<Id>
      requires (p.Bucket? ==> p.index < |list|) && (p.After? ==> p.id in nextHash)
      reads this
    {
      match p
      case Bucket(i) => list[i]
      case After(id) => nextHash[id]
    }

    /** The place that points at the key's handle, or at nothing at the end of its chain. */
    method FindPointer(key: Bytes) returns (p: Place, ghost i: nat)
      requires Ok()
      ensures 0 < length == |list| == |chains| && Found(hash, chains, contents, key, i)
      ensures p == PlaceOf(chains, BucketOf(hash, key, length), i)
      ensures (p.Bucket? ==> p.index < |list|) && (p.After? ==> p.id in nextHash)
      ensures Load(p) == (if key in contents then Some(contents[key]) else None)
    {
      ghost var b := BucketOf(hash, key, length);
      ghost var chain := chains[b];
      p, i := Bucket(BucketOf(hash, key, length)), 0;
      assert Chain(list[b], nextHash, chain);
      if |chain| > 0 { assert Linked(nextHash, chain, 0); }
      while Load(p).Some? && keyOf[Load(p).value] != key
        invariant i <= |chain| && p == (if i == 0 then Bucket(b) else After(chain[i - 1]))
        invariant (p.After? ==> p.id in nextHash) && Load(p) == (if i < |chain| then Some(chain[i]) else None)
        invariant i < |chain| ==> InPlace(hash, keyOf, contents, |chains|, b, chain[i])
        invariant forall j :: 0 <= j < i ==> chain[j] in keyOf && keyOf[chain[j]] != key
        decreases |chain| - i
      {
        assert Linked(nextHash, chain, i);
        p, i := After(Load(p).value), i + 1;
      }
    }

    method Lookup(key: Bytes) returns (r: Option<Id>)
      requires Ok()
      ensures r == (if key in contents then Some(contents[key]) else None)
    {
      var p, i := FindPointer(key);
      r := Load(p);
    }

    method Store(p: Place, v: Option<Id>)
      requires p.Bucket? ==> p.index < |list|
      modifies this`list, this`nextHash
      ensures list == ListWith(old(list), p, v) && nextHash == LinksWith(old(nextHash), p, v)
    {
      match p
      case Bucket(i) => list := list[i := v];
      case After(id) => nextHash := nextHash[id := v];
    }

    /** Maps the key to the new handle and returns the handle it replaces, if any. */
    method Insert(h: Id, key: Bytes) returns (previous: Option<Id>)
      requires Ok() && h !in keyOf
      modifies this
      ensures Ok() && contents == old(contents)[key := h] && keyOf == old(keyOf)[h := key]
      ensures previous == (if key in old(contents) then Some(old(contents)[key]) else None)
    {
      hide Links, Places, BucketOf;
      var p, i := FindPointer(key);
      previous := Load(p);
      ghost var b := BucketOf(hash, key, length);
      ghost var s := chains[b];
      ghost var t := s[..i] + [h] + (if i < |s| then s[i + 1..] else []);
      InsertLinks(hash, list, nextHash, keyOf, chains, contents, b, h, i);
      Distinct(list, nextHash, chains, b, i, h, t);
      InsertPlaces(hash, keyOf, chains, contents, key, h, i, t);
      keyOf := keyOf[h := key];
      nextHash := nextHash[h := if previous.None? then None else nextHash[previous.value]];
      Store(p, Some(h));
      chains, contents := chains[b := t], contents[key := h];
      if previous.None? {
        elems := elems + 1;
        if elems > length { Resize(); }
      }
    }

    method Remove(key: Bytes) returns (result: Option<Id>)
      requires Ok()
      modifies this
      ensures Ok() && contents == old(contents) - {key} && keyOf == old(keyOf)
      ensures result == (if key in old(contents) then Some(old(contents)[key]) else None)
    {
      hide TableOk, BucketOf, Found, PlaceOf, ChainsWithout, ListWith, LinksWith;
      var p, i := FindPointer(key);
      result := Load(p);
      if result.Some? {
        ghost var b := BucketOf(hash, key, length);
        RemoveBoth(hash, list, nextHash, keyOf, chains, contents, length, elems, key, i);
        Store(p, nextHash[result.value]);
        elems := elems - 1;
        chains, contents := ChainsWithout(chains, b, i), contents - {key};
      }
    }

    /** Rehashes every handle into a table at least as long as there are handles. */
    method Resize()
      requires Links(list, nextHash, chains) && Places(hash, keyOf, chains, contents)
      requires length == |list| && elems == |contents|
      modifies this
      ensures Ok() && contents == old(contents) && keyOf == old(keyOf) && elems <= length
    {
      hide Moving, Links, Places;
      var newLength := 4;
      while newLength < elems
        invariant newLength > 0
      {
        newLength := newLength * 2;
      }
      var newList: seq<Option<Id>> := seq(newLength, _ => None);
      ghost var newChains: seq<seq<Id>> := seq(newLength, _ => []);
      ghost var done: map<Bytes, Id> := map[];
      StartMoved(hash, keyOf, chains, contents, list, newList, nextHash, newChains);
      for i := 0 to length
        modifies this`nextHash
        invariant Moving(hash, list, nextHash, keyOf, chains, contents, newList, newChains, done, i, 0)
        invariant |newList| == |newChains| == newLength
      {
        newList, newChains, done := MoveChain(i, newList, newChains, done);
      }
      Finished(hash, list, nextHash, keyOf, chains, contents, newList, newChains, done);
      list := newList;
      length := newLength;
      chains := newChains;
    }

    method MoveChain(i: nat, newList: seq<Option<Id>>, ghost newChains: seq<seq<Id>>, ghost done: map<Bytes, Id>)
      returns (newer: seq<Option<Id>>, ghost newerChains: seq<seq<Id>>, ghost more: map<Bytes, Id>)
      requires i < |list| && |newList| == |newChains| > 0
      requires Moving(hash, list, nextHash, keyOf, chains, contents, newList, newChains, done, i, 0)
      modifies this`nextHash
      ensures |newer| == |newerChains| == |newList|
      ensures Moving(hash, list, nextHash, keyOf, chains, contents, newer, newerChains, more, i + 1, 0)
    {
      hide Moving;
      BucketHead(hash, list, nextHash, keyOf, chains, contents, newList, newChains, done, i);
      newer, newerChains, more := newList, newChains, done;
      var h := list[i];
      ghost var j := 0;
      while h.Some?
        modifies this`nextHash
        invariant j <= |chains[i]| && h == (if j < |chains[i]| then Some(chains[i][j]) else None)
        invariant Moving(hash, list, nextHash, keyOf, chains, contents, newer, newerChains, more, i, j)
        invariant |newer| == |newerChains| == |newList|
        decreases |chains[i]| - j
      {
        MovingStep(hash, list, nextHash, keyOf, chains, contents, newer, newerChains, more, i, j);
        var e := h.value;
        var next := nextHash[e];
        var b := BucketOf(hash, keyOf[e], |newer|);
        nextHash := nextHash[e := newer[b]];
        newer := newer[b := Some(e)];
        newerChains, more := newerChains[b := [e] + newerChains[b]], more[keyOf[e] := e];
        h, j := next, j + 1;
      }
      NextBucket(hash, list, nextHash, keyOf, chains, contents, newer, newerChains, more, i);
    }
  }

  function ChainsWithout(chains: seq<seq<Id>>, b: nat, i: nat): (r: seq<seq<Id>>)
    requires b < |chains| && i < |chains[b]|
    ensures |r| == |chains|
  {
    chains[b := chains[b][..i] + chains[b][i + 1..]]
  }

  lemma RemoveBoth(hash: Bytes -> Word, list: seq<Option<Id>>, nextHash: map<Id, Option<Id>>, keyOf: map<Id, Bytes>,
                   chains: seq<seq<Id>>, contents: map<Bytes, Id>, length: nat, elems: nat, key: Bytes, i: nat)
    requires TableOk(hash, list, nextHash, keyOf, chains, contents, length, elems)
    requires |chains| > 0 && Found(hash, chains, contents, key, i) && key in contents && |list| == |chains|
    ensures var b := BucketOf(hash, key, |chains|);
      var s := chains[b];
      i < |s| && contents[key] in nextHash
      && var p, next := PlaceOf(chains, b, i), nextHash[contents[key]];
      && (p.Bucket? ==> p.index < |list|)
      && TableOk(hash, ListWith(list, p, next), LinksWith(nextHash, p, next), keyOf, ChainsWithout(chains, b, i),
                 contents - {key}, length, elems - 1)
    ensures elems > 0
  {
    hide Links, Places, BucketOf;
    RemovePlaces(hash, list, nextHash, keyOf, chains, contents, key, i);
    RemoveLinks(hash, list, nextHash, keyOf, chains, contents, BucketOf(hash, key, |chains|), i);
    OneLess(contents, key);
  }

  lemma OneLess(contents: map<Bytes, Id>, key: Bytes)
    requires key in contents
    ensures |contents - {key}| == |contents| - 1
  {
    assert contents == (contents - {key})[key := contents[key]];
  }

  lemma Distinct(list: seq<Option<Id>>, nextHash: map<Id, Option<Id>>, chains: seq<seq<Id>>, b: nat, i: nat, h: Id,
                 t: seq<Id>)
    requires Links(list, nextHash, chains) && b < |chains| && i <= |chains[b]|
    requires var s := chains[b]; t == s[..i] + [h] + (if i < |s| then s[i + 1..] else [])
    ensures Replaces(chains[b], i, h, t)
  {
  }
}
