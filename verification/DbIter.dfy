/** The two-way user-level iterator with its reseek shortcuts (db/db_iter.cc). */
module DbIterator {
  import opened Keys
  import opened VisibleMap
  import M = Merger

  datatype Direction = Forward | Reverse

  // The rank of the empty string, which is what a cleared saved key holds.
  const EMPTY_KEY: UserKey := 0.0

  /** Every yielding position of the range lies at or after p. */
  ghost predicate NoneBefore(list: seq<Entry>, s: Sequence, r: Range, p: int) {
    forall i :: Yields(list, s, i) && In(r, list[i].key.user) ==> p <= i
  }

  /** Every yielding position of the range lies at or before p. */
  ghost predicate NoneAfter(list: seq<Entry>, s: Sequence, r: Range, p: int) {
    forall i :: Yields(list, s, i) && In(r, list[i].key.user) ==> i <= p
  }

  /**
   What the forward scan knows at position p: candidates all lie ahead; a key in the
   range is one the scan is not skipping; and the entry at p opens its user key's
   readable versions unless that key is being skipped.
   */
  ghost predicate ScanReady(list: seq<Entry>, s: Sequence, r: Range, p: nat, skipping: bool, skip: UserKey) {
    && NoneBefore(list, s, r, p)
    && (forall i :: p <= i < |list| && !(skipping && list[i].key.user <= skip) ==> In(r, list[i].key.user))
    && (forall i :: p <= i < |list| && skipping && list[i].key.user <= skip && In(r, list[i].key.user)
          ==> !Yields(list, s, i))
    && (forall i :: p <= i < |list| && skipping && list[i].key.user < skip ==> list[i].key.sequence > s)
    && (p < |list| && !(skipping && list[p].key.user <= skip) && list[p].key.sequence <= s ==> Heads(list, s, p))
  }

  /**
   What the reverse scan knows when everything above p has been walked: m is the lowest
   walked position the snapshot can read (top + 1 if none), and no position above m is
   the last key of the range.  p is -1 once the list is exhausted.
   */
  ghost predicate BackReady(list: seq<Entry>, s: Sequence, r: Range, p: int, m: int, top: int) {
    && -1 <= p < m <= top + 1 <= |list|
    && (forall i :: p < i < m ==> list[i].key.sequence > s)
    && (m <= top ==> list[m].key.sequence <= s)
    && (forall i :: 0 <= i <= top ==> In(r, list[i].key.user))
    && NoneAfter(list, s, r, if m <= top then m else p)
  }

  /** Reverse rest position: y is the key shown, and nothing readable lies between pos and it. */
  ghost predicate RestsBelow(list: seq<Entry>, s: Sequence, pos: nat, y: int) {
    && Yields(list, s, y)
    && (pos < |list| ==> pos < y && list[pos].key.user < list[y].key.user)
    && (forall i :: 0 <= i < |list| && (pos < |list| ==> pos < i) && list[i].key.user < list[y].key.user
          ==> list[i].key.sequence > s)
  }

  class DbIter {
    const iter: M.MergingIterator
    const sequence: Sequence
    const maxSequentialSkip: nat
    var direction: Direction
    var valid: bool
    var savedKey: UserKey
    var savedValue: Bytes

    constructor (iter: M.MergingIterator, sequence: Sequence, maxSequentialSkip: nat)
      requires iter.Ok() && iter.Placed()
      ensures this.iter == iter && this.sequence == sequence
      ensures this.maxSequentialSkip == maxSequentialSkip
      ensures Ok() && !valid
    {
      this.iter, this.sequence, this.maxSequentialSkip := iter, sequence, maxSequentialSkip;
      direction, valid, savedKey, savedValue := Forward, false, EMPTY_KEY, [];
    }

    ghost predicate Inner()
      reads this, iter, iter.children
    {
      iter.Ok() && iter.Placed()
    }

    ghost predicate Ok()
      reads this, iter, iter.children
    {
      && Inner()
      && (valid && direction.Forward? ==> Yields(iter.merged, sequence, iter.pos))
      && (valid && direction.Reverse? ==>
            exists y :: RestsBelow(iter.merged, sequence, iter.pos, y)
                        && iter.merged[y].key.user == savedKey && iter.merged[y].value == savedValue)
    }

    function Key(): UserKey
      requires Ok() && valid
      reads this, iter, iter.children
    {
      if direction.Forward? then iter.Current().key.user else savedKey
    }

    function Value(): Bytes
      requires Ok() && valid
      reads this, iter, iter.children
    {
      if direction.Forward? then iter.Current().value else savedValue
    }

    /** All a client can observe. */
    function Shown(): Spot
      requires Ok()
      reads this, iter, iter.children
    {
      if valid then On(Key(), Value()) else Off
    }

    /** The tail of the forward loop: leave an entry behind by one step or by a seek. */
    method PassEntry(skipping: bool, countedKey: UserKey, skipped0: nat,
                     soughtSnapshot0: bool, soughtPastKey0: bool, ghost r: Range)
      returns (skipped: nat, soughtSnapshot: bool, soughtPastKey: bool)
      requires Inner() && iter.Valid()
      requires maxSequentialSkip != 0 ==> countedKey == iter.merged[iter.pos].key.user
      requires ScanReady(iter.merged, sequence, r, iter.pos, skipping, savedKey)
      requires iter.merged[iter.pos].key.sequence <= sequence
               ==> skipping && iter.merged[iter.pos].key.user <= savedKey
      modifies iter, iter.children
      ensures Inner() && old(iter.pos) < iter.pos
      ensures ScanReady(iter.merged, sequence, r, iter.pos, skipping, savedKey)
    {
      hide M.MergingIterator.Ok;
      skipped, soughtSnapshot, soughtPastKey := skipped0, soughtSnapshot0, soughtPastKey0;
      var ikey := iter.Current().key;
      if maxSequentialSkip != 0 {
        // Saturate so that every threshold is usable.
        if skipped < maxSequentialSkip { skipped := skipped + 1; }
        var skipCurrentKey := skipping && ikey.user <= savedKey;
        var sought := if skipCurrentKey then soughtPastKey else soughtSnapshot;
        if skipped >= maxSequentialSkip && !sought {
          if skipCurrentKey { soughtPastKey := true; } else { soughtSnapshot := true; }
          var target := InternalKey(countedKey, if skipCurrentKey then 0 else sequence,
                                    if skipCurrentKey then Kind.Deletion else Kind.Value);
          // Never seek backward, nor twice to the same internal key.
          if Before(ikey, target) {
            ScanJump(iter.merged, sequence, r, iter.pos, skipping, savedKey);
            skipped := 0;
            iter.Seek(target);
            return;
          }
        }
      }
      ScanStep(iter.merged, sequence, r, iter.pos, skipping, savedKey);
      iter.Next();
    }

    method FindNextUserEntry(skip: bool, ghost r: Range)
      requires Inner() && iter.Valid() && direction.Forward?
      requires ScanReady(iter.merged, sequence, r, iter.pos, skip, savedKey)
      modifies this, iter, iter.children
      ensures Ok() && direction.Forward?
      ensures valid ==> In(r, iter.merged[iter.pos].key.user)
                        && NoneBefore(iter.merged, sequence, r, iter.pos)
      ensures !valid ==> NoneBefore(iter.merged, sequence, r, |iter.merged|)
    {
      hide M.MergingIterator.Ok;
      var skipping := skip;
      var countedKey := EMPTY_KEY;
      var skipped, hasCountedKey, soughtSnapshot, soughtPastKey := 0, false, false, false;
      while true
        invariant Inner() && iter.Valid() && direction.Forward?
        invariant ScanReady(iter.merged, sequence, r, iter.pos, skipping, savedKey)
        decreases |iter.merged| - iter.pos
      {
        var ikey := iter.Current().key;
        if maxSequentialSkip != 0 && (!hasCountedKey || ikey.user != countedKey) {
          countedKey := ikey.user;
          hasCountedKey, skipped, soughtSnapshot, soughtPastKey := true, 0, false, false;
        }
        if ikey.sequence <= sequence {
          match ikey.kind
          case Deletion =>
            // Hide the older versions of this key.
            ScanPastDeletion(iter.merged, sequence, r, iter.pos, skipping, savedKey);
            savedKey := ikey.user;
            skipping := true;
          case Value =>
            if skipping && ikey.user <= savedKey {
              // Hidden.
            } else {
              valid := true;
              savedKey := EMPTY_KEY;
              return;
            }
        }
        skipped, soughtSnapshot, soughtPastKey :=
          PassEntry(skipping, countedKey, skipped, soughtSnapshot, soughtPastKey, r);
        if !iter.Valid() { break; }
      }
      savedKey := EMPTY_KEY;
      valid := false;
    }

    // The inner position as an index, -1 when the list is exhausted going backward.
    ghost function Back(): (p: int)
      reads this, iter, iter.children
    {
      if iter.pos < |iter.merged| then iter.pos else -1
    }

    method SeekBeforeUserKey(u: UserKey)
      requires Inner()
      modifies iter, iter.children
      ensures Inner()
      ensures forall i :: 0 <= i < |iter.merged| ==> (i <= Back() <==> iter.merged[i].key.user < u)
    {
      hide M.MergingIterator.Ok;
      iter.Seek(InternalKey(u, MAX_SEQUENCE, Kind.Value));
      if iter.Valid() {
        iter.Prev();
      } else {
        iter.SeekToLast();
      }
    }

    method FindValueForCurrentKeyUsingSeek(u: UserKey) returns (found: bool)
      requires Inner()
      modifies iter, iter.children, `savedKey, `savedValue
      ensures Inner()
      ensures forall i :: 0 <= i < |iter.merged| ==> (i <= Back() <==> iter.merged[i].key.user < u)
      ensures found ==> exists y :: Yields(iter.merged, sequence, y) && iter.merged[y].key.user == u
                                    && savedKey == u && savedValue == iter.merged[y].value
      ensures !found ==> forall y :: Yields(iter.merged, sequence, y) ==> iter.merged[y].key.user != u
    {
      hide M.MergingIterator.Ok;
      iter.Seek(SeekKey(u, sequence));
      found := false;
      LowerBoundFindsHead(iter.merged, sequence, u);
      if iter.Valid() && iter.Current().key.sequence <= sequence
         && iter.Current().key.user == u && iter.Current().key.kind.Value? {
        savedKey := iter.Current().key.user;
        savedValue := iter.Current().value;
        found := true;
      }
      if !found {
        savedKey, savedValue := EMPTY_KEY, [];
      }
      SeekBeforeUserKey(u);
    }

    /** The saved fields hold the entry at m exactly when it is a value. */
    ghost predicate Remembers(kind: Kind, m: int, top: int)
      requires 0 <= m <= top + 1 <= |iter.merged|
      reads this
    {
      && (kind.Value? <==> m <= top && iter.merged[m].key.kind.Value?)
      && (kind.Value? ==> savedKey == iter.merged[m].key.user && savedValue == iter.merged[m].value)
    }

    /** The reverse loop's shortcut: answer for the current user key with two seeks. */
    method SettleBySeek(u: UserKey, ghost r: Range, ghost m: int, ghost top: int)
      returns (kind: Kind, ghost m': int)
      requires Inner() && iter.Valid() && u == iter.merged[iter.pos].key.user
      requires BackReady(iter.merged, sequence, r, Back(), m, top)
      requires m <= top && iter.merged[m].key.kind.Value? ==> iter.merged[m].key.user <= u
      modifies iter, iter.children, `savedKey, `savedValue
      ensures Inner() && Back() < old(Back())
      ensures BackReady(iter.merged, sequence, r, Back(), m', top) && Remembers(kind, m', top)
      ensures kind.Value? && Back() >= 0 ==> iter.merged[Back()].key.user < savedKey
    {
      hide M.MergingIterator.Ok;
      ghost var p := iter.pos;
      var found := FindValueForCurrentKeyUsingSeek(u);
      kind := if found then Kind.Value else Kind.Deletion;
      m' := BackJump(iter.merged, sequence, r, p, m, top, Back());
    }

    method Remember() returns (kind: Kind)
      requires Inner() && iter.Valid()
      modifies `savedKey, `savedValue
      ensures kind == iter.merged[iter.pos].key.kind
      ensures kind.Value? ==> savedKey == iter.merged[iter.pos].key.user && savedValue == iter.merged[iter.pos].value
    {
      hide M.MergingIterator.Ok;
      kind := iter.Current().key.kind;
      if kind.Deletion? {
        savedKey, savedValue := EMPTY_KEY, [];
      } else {
        savedKey, savedValue := iter.Current().key.user, iter.Current().value;
      }
    }

    /** The reverse loop: remember the newest readable version until a lower user key shows it final. */
    method ScanBack(ghost r: Range, ghost top: int) returns (kind: Kind, ghost m: int)
      requires Inner() && top == Back() && BackReady(iter.merged, sequence, r, top, top + 1, top)
      modifies iter, iter.children, `savedKey, `savedValue
      ensures Inner()
      ensures BackReady(iter.merged, sequence, r, Back(), m, top) && Remembers(kind, m, top)
      ensures kind.Value? && Back() >= 0 ==> iter.merged[Back()].key.user < savedKey
      ensures kind.Deletion? ==> Back() == -1
    {
      hide M.MergingIterator.Ok;
      kind, m := Kind.Deletion, top + 1;
      var countedKey := EMPTY_KEY;
      var skipped, hasCountedKey := 0, false;
      while iter.Valid()
        invariant Inner()
        invariant BackReady(iter.merged, sequence, r, Back(), m, top)
        invariant Remembers(kind, m, top)
        decreases Back()
      {
        var ikey := iter.Current().key;
        if maxSequentialSkip != 0 {
          if kind.Value? && ikey.user < savedKey { return; }
          if !hasCountedKey || ikey.user != countedKey {
            countedKey, hasCountedKey, skipped := ikey.user, true, 0;
          }
          if skipped < maxSequentialSkip { skipped := skipped + 1; }
          if skipped >= maxSequentialSkip {
            kind, m := SettleBySeek(countedKey, r, m, top);
            if kind.Value? { return; }
            hasCountedKey := false;
            continue;
          }
        }
        if ikey.sequence <= sequence {
          if kind.Value? && ikey.user < savedKey { return; }
          BackStep(iter.merged, sequence, r, iter.pos, m, top);
          m := iter.pos;
          kind := Remember();
        } else {
          BackSkip(iter.merged, sequence, r, iter.pos, m, top);
        }
        iter.Prev();
      }
    }

    method FindPrevUserEntry(ghost r: Range)
      requires Inner() && direction.Reverse?
      requires forall i :: 0 <= i <= Back() ==> In(r, iter.merged[i].key.user)
      requires NoneAfter(iter.merged, sequence, r, Back())
      modifies this, iter, iter.children
      ensures Ok()
      ensures valid ==> direction.Reverse? && In(r, savedKey)
                        && forall i :: Yields(iter.merged, sequence, i) && In(r, iter.merged[i].key.user)
                                       ==> iter.merged[i].key.user <= savedKey
      ensures !valid ==> NoneAfter(iter.merged, sequence, r, -1)
    {
      hide M.MergingIterator.Ok;
      ghost var top := Back();
      var kind;
      ghost var m;
      kind, m := ScanBack(r, top);
      BackDone(iter.merged, sequence, r, Back(), m, top);
      if kind.Deletion? {
        valid := false;
        savedKey, savedValue := EMPTY_KEY, [];
        direction := Forward;
      } else {
        valid := true;
      }
    }

    method Next()
      requires Ok() && valid
      modifies this, iter, iter.children
      ensures Ok()
      ensures Moves(iter.merged, sequence, Op.Next, old(Shown()), Shown())
    {
      hide M.MergingIterator.Ok;
      ghost var r := After(Key());
      if direction.Reverse? {
        NextFromReverse(r);
      } else {
        ghost var y := iter.pos;
        savedKey := iter.Current().key.user;
        iter.Next();
        LeaveForward(iter.merged, sequence, y);
        if !iter.Valid() {
          valid := false;
          savedKey := EMPTY_KEY;
          NoneFromPosition(iter.merged, sequence, r);
          return;
        }
        FindNextUserEntry(true, r);
      }
      FirstShown(iter.merged, sequence, r, iter.pos, valid);
    }

    /** Step back into the entries of the key shown, which the forward scan then skips. */
    method NextFromReverse(ghost r: Range)
      requires Ok() && valid && direction.Reverse? && r == After(savedKey)
      modifies this, iter, iter.children
      ensures Ok() && direction.Forward?
      ensures valid ==> In(r, iter.merged[iter.pos].key.user) && NoneBefore(iter.merged, sequence, r, iter.pos)
      ensures !valid ==> NoneBefore(iter.merged, sequence, r, |iter.merged|)
    {
      hide M.MergingIterator.Ok;
      ghost var y :| RestsBelow(iter.merged, sequence, iter.pos, y) && iter.merged[y].key.user == savedKey;
      ghost var rest := iter.pos;
      direction := Forward;
      if !iter.Valid() {
        iter.SeekToFirst();
      } else {
        iter.Next();
      }
      LeaveReverse(iter.merged, sequence, rest, y);
      // The source guards against an exhausted list here; the key shown rules that out.
      assert iter.Valid();
      FindNextUserEntry(true, r);
    }

    method Prev()
      requires Ok() && valid
      modifies this, iter, iter.children
      ensures Ok()
      ensures Moves(iter.merged, sequence, Op.Prev, old(Shown()), Shown())
    {
      hide M.MergingIterator.Ok;
      ghost var r := Below(Key());
      if direction.Forward? {
        var atEnd := StepBelowCurrent();
        if atEnd {
          valid := false;
          savedKey, savedValue := EMPTY_KEY, [];
          NoneFromPosition(iter.merged, sequence, r);
          return;
        }
        direction := Reverse;
      }
      FindPrevUserEntry(r);
      LastShown(iter.merged, sequence, r, iter.pos, valid, savedKey, savedValue);
    }

    /** Walk, or after the threshold seek, to the last entry below the current user key. */
    method StepBelowCurrent() returns (atEnd: bool)
      requires Ok() && valid && direction.Forward?
      modifies `savedKey, iter, iter.children
      ensures Inner() && savedKey == old(Key())
      ensures forall i :: 0 <= i < |iter.merged| ==> (i <= Back() <==> iter.merged[i].key.user < savedKey)
      ensures atEnd <==> !iter.Valid()
    {
      hide M.MergingIterator.Ok;
      savedKey := iter.Current().key.user;
      var skipped := 0;
      while true
        invariant Inner() && iter.Valid() && iter.merged[iter.pos].key.user == savedKey == old(Key())
        decreases iter.pos
      {
        iter.Prev();
        if !iter.Valid() { return true; }
        if iter.Current().key.user < savedKey { break; }
        if maxSequentialSkip != 0 {
          skipped := skipped + 1;
          if skipped >= maxSequentialSkip {
            SeekBeforeUserKey(savedKey);
            if !iter.Valid() { return true; }
            break;
          }
        }
      }
      return false;
    }

    method Seek(target: UserKey)
      requires Ok()
      modifies this, iter, iter.children
      ensures Ok()
      ensures Moves(iter.merged, sequence, Op.Seek(target), old(Shown()), Shown())
    {
      hide M.MergingIterator.Ok;
      direction := Forward;
      savedValue := [];
      savedKey := target;  // scratch space: the scan does not read it before setting it
      iter.Seek(SeekKey(target, sequence));
      LandForward(iter.merged, sequence, target, savedKey);
      if iter.Valid() {
        FindNextUserEntry(false, From(target));
      } else {
        valid := false;
      }
      FirstShown(iter.merged, sequence, From(target), iter.pos, valid);
    }

    method SeekToFirst()
      requires Ok()
      modifies this, iter, iter.children
      ensures Ok()
      ensures Moves(iter.merged, sequence, Op.SeekToFirst, old(Shown()), Shown())
    {
      hide M.MergingIterator.Ok;
      direction := Forward;
      savedValue := [];
      iter.SeekToFirst();
      if iter.Valid() {
        FindNextUserEntry(false, All);
      } else {
        valid := false;
      }
      FirstShown(iter.merged, sequence, All, iter.pos, valid);
    }

    method SeekToLast()
      requires Ok()
      modifies this, iter, iter.children
      ensures Ok()
      ensures Moves(iter.merged, sequence, Op.SeekToLast, old(Shown()), Shown())
    {
      hide M.MergingIterator.Ok;
      direction := Reverse;
      savedValue := [];
      iter.SeekToLast();
      FindPrevUserEntry(All);
      LastShown(iter.merged, sequence, All, iter.pos, valid, savedKey, savedValue);
    }

    /** One client operation; Next and Prev are issued only on a valid iterator. */
    method Apply(op: Op)
      requires Ok() && (op.Next? || op.Prev? ==> valid)
      modifies this, iter, iter.children
      ensures Ok()
      ensures Moves(iter.merged, sequence, op, old(Shown()), Shown())
    {
      hide M.MergingIterator.Ok;
      match op
      case SeekToFirst => SeekToFirst();
      case SeekToLast => SeekToLast();
      case Seek(t) => Seek(t);
      case Next => Next();
      case Prev => Prev();
    }
  }

  /** The spots of a session that runs to its end, or to a Next or Prev off the end. */
  ghost predicate Complete(list: seq<Entry>, s: Sequence, ops: seq<Op>, spots: seq<Spot>) {
    && |spots| <= |ops| && Run(list, s, Off, ops[..|spots|], spots)
    && (|spots| < |ops| ==> (ops[|spots|].Next? || ops[|spots|].Prev?) && Final(Off, spots).Off?)
  }

  /**
   A whole client session: the iterator shows what the plain cursor over the snapshot's
   map shows, whatever the reseek threshold.  The session ends early at the first Next
   or Prev the client may not issue.
   */
  method Session(iter: M.MergingIterator, s: Sequence, maxSequentialSkip: nat, ops: seq<Op>) returns (spots: seq<Spot>)
    requires iter.Ok()
    modifies iter, iter.children
    ensures Complete(iter.merged, s, ops, spots)
  {
    iter.IsPlaced();
    hide M.MergingIterator.Ok;
    ghost var list := iter.merged;
    var db := new DbIter(iter, s, maxSequentialSkip);
    spots := [];
    assert Run(list, s, Off, ops[..0], spots);
    hide Run, Moves, Sorted;
    while |spots| < |ops|
      invariant db.Ok() && db.iter == iter && db.sequence == s
      invariant fresh(db)
      invariant |spots| <= |ops| && Run(list, s, Off, ops[..|spots|], spots)
      invariant db.Shown() == Final(Off, spots)
      decreases |ops| - |spots|
    {
      var op := ops[|spots|];
      if (op.Next? || op.Prev?) && !db.valid { return; }
      db.Apply(op);
      var shown := if db.valid then On(db.Key(), db.Value()) else Off;
      RunMore(list, s, ops, spots, shown);
      spots := spots + [shown];
    }
  }

  lemma RunMore(list: seq<Entry>, s: Sequence, ops: seq<Op>, spots: seq<Spot>, next: Spot)
    requires |spots| < |ops| && Run(list, s, Off, ops[..|spots|], spots)
    requires Moves(list, s, ops[|spots|], Final(Off, spots), next)
    ensures Run(list, s, Off, ops[..|spots| + 1], spots + [next]) && Final(Off, spots + [next]) == next
  {
    hide Moves;
    var n := |spots|;
    assert ops[..n + 1][..n] == ops[..n] && (spots + [next])[..n] == spots;
  }

  /** Every threshold, and no reseeking at all, gives a client the same observations. */
  lemma ThresholdInvisible(list: seq<Entry>, s: Sequence, ops: seq<Op>, a: seq<Spot>, b: seq<Spot>)
    requires Sorted(list)
    requires Complete(list, s, ops, a) && Complete(list, s, ops, b)
    ensures a == b
  {
    if |a| <= |b| {
      NotLonger(list, s, ops, a, b);
    } else {
      NotLonger(list, s, ops, b, a);
    }
  }

  lemma NotLonger(list: seq<Entry>, s: Sequence, ops: seq<Op>, a: seq<Spot>, b: seq<Spot>)
    requires Sorted(list) && |a| <= |b|
    requires Complete(list, s, ops, a) && Complete(list, s, ops, b)
    ensures a == b
  {
    var n, m := |a|, |b|;
    RunPrefix(list, s, ops[..m], b, n);
    assert ops[..m][..n] == ops[..n];
    RunUnique(list, s, Off, ops[..n], a, b[..n]);
    if n < m {
      RunPrefix(list, s, ops[..m], b, n + 1);
      assert false;
    }
    assert b == b[..m];
  }

  lemma {:induction false} RunPrefix(list: seq<Entry>, s: Sequence, ops: seq<Op>, spots: seq<Spot>, n: nat)
    requires Run(list, s, Off, ops, spots) && n <= |ops|
    ensures Run(list, s, Off, ops[..n], spots[..n])
    decreases |ops|
  {
    if n == |ops| {
      assert ops[..n] == ops && spots[..n] == spots;
    } else {
      var k := |ops| - 1;
      RunPrefix(list, s, ops[..k], spots[..k], n);
      assert ops[..k][..n] == ops[..n] && spots[..k][..n] == spots[..n];
    }
  }

  // ---- Positions turned into spots, and the states a scan may start from.

  lemma FirstShown(list: seq<Entry>, s: Sequence, r: Range, p: nat, valid: bool)
    requires Sorted(list)
    requires valid ==> Yields(list, s, p) && In(r, list[p].key.user) && NoneBefore(list, s, r, p)
    requires !valid ==> NoneBefore(list, s, r, |list|)
    ensures valid ==> IsFirst(list, s, r, On(list[p].key.user, list[p].value))
    ensures !valid ==> IsFirst(list, s, r, Off)
  {
    if valid {
      FirstFromPosition(list, s, r, p);
    } else {
      NoneFromPosition(list, s, r);
    }
  }

  lemma LastShown(list: seq<Entry>, s: Sequence, r: Range, p: nat, valid: bool, key: UserKey, value: Bytes)
    requires Sorted(list)
    requires valid ==> && (exists y :: RestsBelow(list, s, p, y) && list[y].key.user == key && list[y].value == value)
                       && In(r, key)
                       && forall i :: Yields(list, s, i) && In(r, list[i].key.user) ==> list[i].key.user <= key
    requires !valid ==> NoneAfter(list, s, r, -1)
    ensures valid ==> IsLast(list, s, r, On(key, value))
    ensures !valid ==> IsLast(list, s, r, Off)
  {
    if valid {
      var y :| RestsBelow(list, s, p, y) && list[y].key.user == key && list[y].value == value;
      forall j | Yields(list, s, j) && In(r, list[j].key.user) ensures j <= y { YieldsMonotone(list, s, y, j); }
      LastFromPosition(list, s, r, y);
    } else {
      NoneFromPosition(list, s, r);
    }
  }

  /** Stepping past a shown entry: its older versions are what the scan will skip. */
  lemma LeaveForward(list: seq<Entry>, s: Sequence, y: nat)
    requires Sorted(list) && Yields(list, s, y)
    ensures ScanReady(list, s, After(list[y].key.user), y + 1, true, list[y].key.user)
  {
    var u := list[y].key.user;
    forall i | Yields(list, s, i) && u < list[i].key.user ensures y + 1 <= i { YieldsMonotone(list, s, y, i); }
    forall i | y < i < |list| ensures u <= list[i].key.user { assert Before(list[y].key, list[i].key); }
  }

  /** Turning round: the scan resumes just above the reverse rest position. */
  lemma LeaveReverse(list: seq<Entry>, s: Sequence, rest: nat, y: int)
    requires Sorted(list) && rest <= |list| && RestsBelow(list, s, rest, y)
    ensures var p := if rest < |list| then rest + 1 else 0;
            ScanReady(list, s, After(list[y].key.user), p, true, list[y].key.user)
  {
    var u := list[y].key.user;
    forall i | Yields(list, s, i) && u < list[i].key.user ensures y < i { YieldsMonotone(list, s, y, i); }
  }

  /** Seeking a target lands where the forward scan of [target, ..) may start. */
  lemma LandForward(list: seq<Entry>, s: Sequence, t: UserKey, skip: UserKey)
    requires Sorted(list)
    ensures ScanReady(list, s, From(t), LowerBound(list, SeekKey(t, s)), false, skip)
  {
    LowerBoundFindsHead(list, s, t);
  }

  /** A readable deletion at p moves the skip mark to its user key. */
  lemma ScanPastDeletion(list: seq<Entry>, s: Sequence, r: Range, p: nat, skipping: bool, skip: UserKey)
    requires Sorted(list) && p < |list| && ScanReady(list, s, r, p, skipping, skip)
    requires list[p].key.sequence <= s && list[p].key.kind.Deletion?
    ensures ScanReady(list, s, r, p, true, list[p].key.user)
  {
    var u := list[p].key.user;
    assert skipping ==> skip <= u;
    forall i | p < i < |list| ensures list[p].key.user <= list[i].key.user {
      assert Before(list[p].key, list[i].key);
    }
    forall i | p <= i < |list| && list[i].key.user <= u ensures !Yields(list, s, i) {
      if p < i {
        assert Before(list[p].key, list[i].key);
        if p < i - 1 {
          assert Before(list[p].key, list[i - 1].key) && Before(list[i - 1].key, list[i].key);
        }
      }
    }
  }

  /** Walking past an entry that was not returned. */
  lemma ScanStep(list: seq<Entry>, s: Sequence, r: Range, p: nat, skipping: bool, skip: UserKey)
    requires Sorted(list) && p < |list| && ScanReady(list, s, r, p, skipping, skip)
    requires list[p].key.sequence <= s ==> skipping && list[p].key.user <= skip
    ensures ScanReady(list, s, r, p + 1, skipping, skip)
  {
    assert p + 1 < |list| ==> Before(list[p].key, list[p + 1].key);
    assert !(Yields(list, s, p) && In(r, list[p].key.user));
  }

  /** Seeking past the unreadable, or the hidden, versions of the entry's user key. */
  lemma ScanJump(list: seq<Entry>, s: Sequence, r: Range, p: nat, skipping: bool, skip: UserKey)
    requires Sorted(list) && p < |list| && ScanReady(list, s, r, p, skipping, skip)
    requires list[p].key.sequence <= s ==> skipping && list[p].key.user <= skip
    ensures var u := list[p].key.user;
            var hidden := skipping && u <= skip;
            var q := LowerBound(list, InternalKey(u, if hidden then 0 else s, if hidden then Deletion else Value));
            && ScanReady(list, s, r, q, skipping, skip)
            && ((hidden && list[p].key.sequence == 0 && list[p].key.kind.Deletion?) || p < q)
  {
    var u := list[p].key.user;
    var hidden := skipping && u <= skip;
    var target := InternalKey(u, if hidden then 0 else s, if hidden then Deletion else Value);
    var q := LowerBound(list, target);
    forall i | p <= i < q ensures !(Yields(list, s, i) && In(r, list[i].key.user)) {
      assert Before(list[i].key, target);
      if p < i { assert Before(list[p].key, list[i].key); }
    }
  }

  /** Seeking (u, s) lands on the head of u's readable versions, if it has any. */
  lemma LowerBoundFindsHead(list: seq<Entry>, s: Sequence, u: UserKey)
    requires Sorted(list)
    ensures var k := LowerBound(list, SeekKey(u, s));
            && (k < |list| && list[k].key.user == u ==> Heads(list, s, k))
            && forall y :: Heads(list, s, y) && list[y].key.user == u ==> y == k
  {
    var k := LowerBound(list, SeekKey(u, s));
    forall y | Heads(list, s, y) && list[y].key.user == u ensures y == k {
    }
  }

  /** An entry the snapshot cannot read changes nothing. */
  lemma BackSkip(list: seq<Entry>, s: Sequence, r: Range, p: nat, m: int, top: int)
    requires Sorted(list) && BackReady(list, s, r, p, m, top) && list[p].key.sequence > s
    ensures BackReady(list, s, r, p - 1, m, top)
  {
  }

  /** A readable entry that does not end the reverse scan replaces the one remembered. */
  lemma BackStep(list: seq<Entry>, s: Sequence, r: Range, p: nat, m: int, top: int)
    requires Sorted(list) && BackReady(list, s, r, p, m, top)
    requires list[p].key.sequence <= s
    requires m <= top && list[m].key.kind.Value? ==> list[m].key.user <= list[p].key.user
    ensures BackReady(list, s, r, p - 1, p, top)
  {
    if m <= top && list[m].key.kind.Value? {
      assert Before(list[p].key, list[m].key);
      assert !Yields(list, s, m);
    }
  }

  /** Once no remembered value can be superseded, it is the last key of the range. */
  lemma BackDone(list: seq<Entry>, s: Sequence, r: Range, p: int, m: int, top: int)
    requires Sorted(list) && BackReady(list, s, r, p, m, top)
    requires m <= top && list[m].key.kind.Value? && p >= 0 ==> list[p].key.user < list[m].key.user
    requires m > top || list[m].key.kind.Deletion? ==> p == -1
    ensures m <= top && list[m].key.kind.Value? ==>
              && RestsBelow(list, s, if p >= 0 then p else |list|, m)
              && In(r, list[m].key.user)
              && forall i :: Yields(list, s, i) && In(r, list[i].key.user) ==> list[i].key.user <= list[m].key.user
    ensures m > top || list[m].key.kind.Deletion? ==> NoneAfter(list, s, r, -1)
  {
    if m <= top && list[m].key.kind.Value? {
      assert Yields(list, s, m);
      forall i | Yields(list, s, i) && In(r, list[i].key.user) ensures list[i].key.user <= list[m].key.user {
        assert i < m ==> Before(list[i].key, list[m].key);
      }
      forall i | p < i < |list| && list[i].key.user < list[m].key.user ensures list[i].key.sequence > s {
        assert m < i ==> Before(list[m].key, list[i].key);
      }
    }
  }

  /** Below p's user key nothing has been settled; at it, only the head h can be shown. */
  lemma JumpSpan(list: seq<Entry>, s: Sequence, p: nat, q: int)
    requires Sorted(list) && p < |list| && -1 <= q < |list|
    requires forall i :: 0 <= i < |list| ==> (i <= q <==> list[i].key.user < list[p].key.user)
    ensures var h := LowerBound(list, SeekKey(list[p].key.user, s));
            && q < h && q < p
            && (forall i :: q < i < h ==> list[i].key.sequence > s)
            && (h < |list| && list[h].key.user == list[p].key.user ==> Heads(list, s, h))
            && (h < |list| && list[h].key.user != list[p].key.user ==> p < h)
  {
    var u := list[p].key.user;
    var h := LowerBound(list, SeekKey(u, s));
    LowerBoundFindsHead(list, s, u);
    assert h < p ==> Before(list[h].key, list[p].key);
  }

  /** Jumping from p to q, just below p's user key, settles that key either way. */
  lemma BackJump(list: seq<Entry>, s: Sequence, r: Range, p: nat, m: int, top: int, q: int) returns (m': int)
    requires Sorted(list) && BackReady(list, s, r, p, m, top)
    requires m <= top && list[m].key.kind.Value? ==> list[m].key.user <= list[p].key.user
    requires -1 <= q < |list|
    requires forall i :: 0 <= i < |list| ==> (i <= q <==> list[i].key.user < list[p].key.user)
    ensures q < p && BackReady(list, s, r, q, m', top)
    ensures m' <= top && list[m'].key.kind.Value? ==> Yields(list, s, m') && list[m'].key.user == list[p].key.user
    ensures forall y :: Yields(list, s, y) && list[y].key.user == list[p].key.user ==> m' == y
  {
    var u := list[p].key.user;
    var h := LowerBound(list, SeekKey(u, s));
    JumpSpan(list, s, p, q);
    forall y | Yields(list, s, y) && list[y].key.user == u ensures y == h { YieldsAtKey(list, s, u, y); }
    assert m <= top ==> Before(list[p].key, list[m].key);
    if h <= top && list[h].key.user == u {
      m' := h;
      JumpOnHead(list, s, r, p, m, top, h);
    } else {
      m' := m;
      if m <= top && list[m].key.kind.Value? { YieldsBelow(list, s, p, m, h); }
    }
  }

  lemma JumpOnHead(list: seq<Entry>, s: Sequence, r: Range, p: nat, m: int, top: int, h: nat)
    requires Sorted(list) && BackReady(list, s, r, p, m, top)
    requires m <= top && list[m].key.kind.Value? ==> list[m].key.user <= list[p].key.user
    requires h <= top && Heads(list, s, h) && list[h].key.user == list[p].key.user
    ensures h <= m && NoneAfter(list, s, r, h)
  {
  }

  lemma YieldsAtKey(list: seq<Entry>, s: Sequence, u: UserKey, y: int)
    requires Sorted(list) && Yields(list, s, y)
    ensures list[y].key.user == u ==> y == LowerBound(list, SeekKey(u, s))
  {
    LowerBoundFindsHead(list, s, u);
  }

  lemma YieldsBelow(list: seq<Entry>, s: Sequence, p: nat, m: nat, h: nat)
    requires Sorted(list) && p < m < |list| && list[m].key.sequence <= s
    requires list[m].key.user <= list[p].key.user
    requires h == LowerBound(list, SeekKey(list[p].key.user, s))
    ensures h <= m && list[h].key.user == list[p].key.user
  {
    assert Before(list[p].key, list[m].key);
    assert h < m ==> Before(list[h].key, list[m].key);
  }
}
