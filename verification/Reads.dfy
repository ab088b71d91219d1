/**
 Reads of a versioned store as a matter of sets: which value a set of entries shows for
 a user key at a snapshot, and when replacing part of the set changes no read.
 */
module Reads {
  import opened Keys

  /** e is the newest version of u in S that a reader at s may see. */
  ghost predicate Newest(S: set<Entry>, u: UserKey, s: Sequence, e: Entry) {
    && e in S && e.key.user == u && e.key.sequence <= s
    && forall f :: f in S && f.key.user == u && f.key.sequence <= s ==> f.key.sequence <= e.key.sequence
  }

  ghost predicate Shows(S: set<Entry>, u: UserKey, s: Sequence, v: Bytes) {
    exists e :: Newest(S, u, s, e) && e.key.kind.Value? && e.value == v
  }

  /** S and T answer every read of u at s alike, with the same entry or with none. */
  ghost predicate Agree(S: set<Entry>, T: set<Entry>, u: UserKey, s: Sequence) {
    forall e: Entry :: e.key.kind.Value? ==> (Newest(S, u, s, e) <==> Newest(T, u, s, e))
  }

  lemma AgreeShows(S: set<Entry>, T: set<Entry>, u: UserKey, s: Sequence, v: Bytes)
    requires Agree(S, T, u, s)
    ensures Shows(S, u, s, v) <==> Shows(T, u, s, v)
  {
  }

  /** No two entries share a sequence number, so a newest version is unique. */
  ghost predicate Stamped(S: set<Entry>) {
    forall e, f :: e in S && f in S && e.key.sequence == f.key.sequence ==> e == f
  }

  /** Every version in A is newer than any version of the same key in B. */
  ghost predicate Newer(A: set<Entry>, B: set<Entry>) {
    forall e, f :: e in A && f in B && e.key.user == f.key.user ==> f.key.sequence < e.key.sequence
  }

  lemma AgreeThrough(S: set<Entry>, T: set<Entry>, W: set<Entry>, u: UserKey, s: Sequence)
    requires (Agree(S, T, u, s) || Agree(T, S, u, s)) && Agree(T, W, u, s)
    ensures Agree(S, W, u, s)
  {
  }

  /** A set of versions of u readable at s has a newest one. */
  lemma {:induction false} NewestExists(S: set<Entry>, u: UserKey, s: Sequence)
    returns (found: bool, e: Entry)
    ensures found ==> Newest(S, u, s, e)
    ensures !found ==> forall f :: f in S ==> !(f.key.user == u && f.key.sequence <= s)
    decreases S
  {
    if S == {} {
      found, e := false, Entry(InternalKey(u, s, Deletion), []);
    } else {
      var f :| f in S;
      found, e := NewestExists(S - {f}, u, s);
      if f.key.user == u && f.key.sequence <= s && (!found || e.key.sequence < f.key.sequence) {
        found, e := true, f;
      }
      assert S == S - {f} + {f};
    }
  }

  /** Dropping the deletion e of I uncovers no older version of its key, in K or beside it in X. */
  ghost predicate DropsCleanly(X: set<Entry>, K: set<Entry>, s: Sequence, e: Entry) {
    && e.key.kind.Deletion?
    && (forall k :: k in K && k.key.user == e.key.user ==> s < k.key.sequence)
    && (forall x :: x in X && x.key.user == e.key.user && x.key.sequence <= s ==> e.key.sequence < x.key.sequence)
  }

  /**
   Replacing I by K beside X is unseen at (u, s) when K keeps the version of u that I
   shows there, or when that version is a deletion whose removal uncovers nothing.
   */
  lemma ReplaceUnseen(X: set<Entry>, I: set<Entry>, K: set<Entry>, u: UserKey, s: Sequence)
    requires Stamped(X + I) && K <= I
    requires forall e :: Newest(I, u, s, e) ==> e in K || DropsCleanly(X, K, s, e)
    ensures Agree(X + I, X + K, u, s)
  {
    var a, e := NewestExists(X + I, u, s);
    var b, f := NewestExists(X + K, u, s);
    var c, g := NewestExists(I, u, s);
    if b { assert f in X + I; }
    if a && e in I {
      assert Newest(I, u, s, e);
    }
    if c && g in K { assert g in X + K && g in X + I; }
    forall g': Entry | g'.key.kind.Value? ensures Newest(X + I, u, s, g') <==> Newest(X + K, u, s, g') {
      if Newest(X + I, u, s, g') {
        if g' in I { assert Newest(I, u, s, g'); }
        assert Newest(X + K, u, s, g');
      }
      if Newest(X + K, u, s, g') {
        assert a && e.key.sequence >= g'.key.sequence;
        assert e in X + K;
        assert e == g';
      }
    }
  }

  /** Versions newer than the snapshot are invisible. */
  lemma FutureUnseen(S: set<Entry>, T: set<Entry>, u: UserKey, s: Sequence)
    requires S <= T && forall e :: e in T && e !in S ==> s < e.key.sequence
    ensures Agree(S, T, u, s)
  {
  }

  /** Entries newer than all there is are read alike beside sets that are read alike. */
  lemma NewerBatch(C: set<Entry>, H: set<Entry>, B: set<Entry>, u: UserKey, s: Sequence)
    requires Agree(C, H, u, s) && Stamped(C + H + B)
    requires forall h, b :: h in C + H && b in B ==> h.key.sequence < b.key.sequence
    ensures Agree(C + B, H + B, u, s)
  {
    var found, b := NewestExists(B, u, s);
    if found {
      assert Newest(C + B, u, s, b) && Newest(H + B, u, s, b);
      forall e | Newest(C + B, u, s, e) ensures e == b { assert e in C + H + B && b in C + H + B; }
      forall e | Newest(H + B, u, s, e) ensures e == b { assert e in C + H + B && b in C + H + B; }
    } else {
      forall e ensures Newest(C, u, s, e) <==> Newest(C + B, u, s, e) { }
      forall e ensures Newest(H, u, s, e) <==> Newest(H + B, u, s, e) { }
    }
  }

  /** When the newest of I is in X, other parts of I beside it are unseen. */
  lemma InnerUnseen(X: set<Entry>, I: set<Entry>, A: set<Entry>, u: UserKey, s: Sequence)
    requires A <= I && Stamped(X + I) && forall e :: Newest(I, u, s, e) ==> e in X
    ensures Agree(X + A, X, u, s)
  {
    var found, i := NewestExists(I, u, s);
    forall e ensures Newest(X + A, u, s, e) <==> Newest(X, u, s, e) {
      if Newest(X + A, u, s, e) && e in A {
        assert i in X + A && e in X + I && i in X + I;
        assert e == i;
      }
    }
  }
}
