/** Recording version edits: VersionSet::Builder and MANIFEST replay (db/version_set.cc). */
module VersionBuilder {
  import opened Keys
  import opened Files

  // One edit's deletions and additions, each tagged with its level.
  datatype Edit = Edit(deletedFiles: seq<(nat, nat)>, newFiles: seq<(nat, File)>)

  predicate EditOk(e: Edit) {
    && (forall i :: 0 <= i < |e.deletedFiles| ==> e.deletedFiles[i].0 < NUM_LEVELS)
    && (forall i :: 0 <= i < |e.newFiles| ==> e.newFiles[i].0 < NUM_LEVELS && |e.newFiles[i].1.entries| > 0)
  }

  // BySmallestKey.
  predicate FileBefore(f: File, g: File)
    requires |f.entries| > 0 && |g.entries| > 0
  {
    Before(Smallest(f), Smallest(g)) || (Smallest(f) == Smallest(g) && f.number < g.number)
  }

  ghost predicate InOrder(files: seq<File>) {
    && (forall i :: 0 <= i < |files| ==> |files[i].entries| > 0)
    && (forall i, j :: 0 <= i < j < |files| ==> FileBefore(files[i], files[j]))
  }

  // ---- What an edit means: a level's files after it.

  ghost function Deletes(e: Edit, level: nat): set<nat> {
    set d | d in e.deletedFiles && d.0 == level :: d.1
  }

  ghost function Adds(e: Edit, level: nat): set<File> {
    set a | a in e.newFiles && a.0 == level :: a.1
  }

  ghost function Installed(files: set<File>, e: Edit, level: nat): set<File> {
    (set f | f in files && f.number !in Deletes(e, level)) + Adds(e, level)
  }

  /** Installing the edits one by one, from an empty version. */
  ghost function OneByOne(edits: seq<Edit>, level: nat): set<File> {
    if |edits| == 0 then {}
    else Installed(OneByOne(edits[..|edits| - 1], level), edits[|edits| - 1], level)
  }

  // ---- The builder.

  class Builder {
    const base: seq<seq<File>>
    var deleted: seq<set<nat>>
    var added: seq<seq<File>>  // per level a std::set ordered by BySmallestKey

    ghost predicate Ok()
      reads this
    {
      && |base| == NUM_LEVELS && |deleted| == NUM_LEVELS && |added| == NUM_LEVELS
      && (forall l :: 0 <= l < NUM_LEVELS ==> InOrder(base[l]) && InOrder(added[l]))
    }

    /** The files a level will hold. */
    ghost function Result(l: nat): set<File>
      requires Ok() && l < NUM_LEVELS
      reads this
    {
      set f | f in base[l] + added[l] && f.number !in deleted[l]
    }

    constructor (base: seq<seq<File>>)
      requires |base| == NUM_LEVELS && forall l :: 0 <= l < NUM_LEVELS ==> InOrder(base[l])
      ensures Ok() && this.base == base
      ensures forall l :: 0 <= l < NUM_LEVELS ==> deleted[l] == {} && added[l] == []
    {
      this.base := base;
      deleted, added := seq(NUM_LEVELS, _ => {}), seq(NUM_LEVELS, _ => []);
    }

    method Apply(e: Edit)
      requires Ok() && EditOk(e)
      modifies this
      ensures Ok()
      ensures forall l :: 0 <= l < NUM_LEVELS ==>
                deleted[l] == old(deleted[l]) + Deletes(e, l) - (set f | f in Adds(e, l) :: f.number)
      ensures forall l, f :: 0 <= l < NUM_LEVELS ==> (f in added[l] ==> f in old(added[l]) || f in Adds(e, l))
      ensures forall l, f :: 0 <= l < NUM_LEVELS && f in old(added[l]) ==> f in added[l]
      ensures forall l, f :: 0 <= l < NUM_LEVELS && f in Adds(e, l) ==>
                exists g :: g in added[l] && |g.entries| > 0 && g.number == f.number && Smallest(g) == Smallest(f)
    {
      for i := 0 to |e.deletedFiles|
        invariant Ok() && added == old(added)
        invariant forall l :: 0 <= l < NUM_LEVELS ==>
                    deleted[l] == old(deleted[l]) + (set d | d in e.deletedFiles[..i] && d.0 == l :: d.1)
      {
        var (l, n) := e.deletedFiles[i];
        assert e.deletedFiles[..i + 1] == e.deletedFiles[..i] + [e.deletedFiles[i]];
        deleted := deleted[l := deleted[l] + {n}];
      }
      assert e.deletedFiles[..|e.deletedFiles|] == e.deletedFiles;
      AddFiles(e);
    }

    method AddFiles(e: Edit)
      requires Ok() && EditOk(e)
      modifies this
      ensures Ok()
      ensures forall l :: 0 <= l < NUM_LEVELS ==> deleted[l] == old(deleted[l]) - (set f | f in Adds(e, l) :: f.number)
      ensures forall l, f :: 0 <= l < NUM_LEVELS ==> (f in added[l] ==> f in old(added[l]) || f in Adds(e, l))
      ensures forall l, f :: 0 <= l < NUM_LEVELS && f in old(added[l]) ==> f in added[l]
      ensures forall l, f :: 0 <= l < NUM_LEVELS && f in Adds(e, l) ==>
                exists g :: g in added[l] && |g.entries| > 0 && g.number == f.number && Smallest(g) == Smallest(f)
    {
      for i := 0 to |e.newFiles|
        invariant Ok()
        invariant forall l :: 0 <= l < NUM_LEVELS ==>
                    deleted[l] == old(deleted[l]) - (set a | a in e.newFiles[..i] && a.0 == l :: a.1.number)
        invariant forall l, f :: 0 <= l < NUM_LEVELS ==> (f in added[l] ==> f in old(added[l]) || f in Adds(e, l))
        invariant forall l, f :: 0 <= l < NUM_LEVELS && f in old(added[l]) ==> f in added[l]
        invariant forall a :: a in e.newFiles[..i] ==>
                    exists g :: g in added[a.0] && |g.entries| > 0 && g.number == a.1.number
                      && Smallest(g) == Smallest(a.1)
      {
        var (l, f) := e.newFiles[i];
        assert e.newFiles[i] in e.newFiles && f in Adds(e, l);
        assert e.newFiles[..i + 1] == e.newFiles[..i] + [e.newFiles[i]];
        deleted := deleted[l := deleted[l] - {f.number}];
        var files := InsertInOrder(added[l], f);
        added := added[l := files];
      }
      assert e.newFiles[..|e.newFiles|] == e.newFiles;
    }

    method SaveTo() returns (levels: seq<seq<File>>)
      requires Ok()
      requires forall l, f, g :: 0 <= l < NUM_LEVELS && f in base[l] && g in added[l] ==> f.number != g.number
      ensures |levels| == NUM_LEVELS
      ensures forall l :: 0 <= l < NUM_LEVELS ==> InOrder(levels[l]) && (set f | f in levels[l]) == Result(l)
    {
      levels := [];
      for l := 0 to NUM_LEVELS
        invariant |levels| == l
        invariant forall k :: 0 <= k < l ==> InOrder(levels[k]) && (set f | f in levels[k]) == Result(k)
      {
        var files := SaveLevel(l);
        levels := levels + [files];
      }
    }

    /** SaveTo for one level: merge the base with the additions, dropping deletions. */
    method SaveLevel(l: nat) returns (files: seq<File>)
      requires Ok() && l < NUM_LEVELS
      requires forall f, g :: f in base[l] && g in added[l] ==> f.number != g.number
      ensures InOrder(files) && (set f | f in files) == Result(l)
    {
      files := Merge(base[l], added[l], deleted[l]);
    }
  }

  /** std::set::insert: an equivalent file already present keeps its place. */
  method InsertInOrder(files: seq<File>, f: File) returns (r: seq<File>)
    requires InOrder(files) && |f.entries| > 0
    ensures InOrder(r)
    ensures forall g :: g in r ==> g in files || g == f
    ensures forall g :: g in files ==> g in r
    ensures exists g :: g in r && |g.entries| > 0 && g.number == f.number && Smallest(g) == Smallest(f)
  {
    var i := 0;
    while i < |files| && FileBefore(files[i], f)
      invariant 0 <= i <= |files| && forall j :: 0 <= j < i ==> FileBefore(files[j], f)
    {
      i := i + 1;
    }
    if i < |files| && !FileBefore(f, files[i]) {
      SameOrder(f, files[i]);
      r := files;
      assert files[i] in r;
    } else {
      r := files[..i] + [f] + files[i..];
      InsertedInOrder(files, i, f, r);
    }
  }

  lemma Transitive(f: File, g: File, h: File)
    requires |f.entries| > 0 && |g.entries| > 0 && |h.entries| > 0 && FileBefore(f, g) && FileBefore(g, h)
    ensures FileBefore(f, h)
  {
  }

  lemma InsertedInOrder(files: seq<File>, i: nat, f: File, r: seq<File>)
    requires InOrder(files) && |f.entries| > 0 && i <= |files| && r == files[..i] + [f] + files[i..]
    requires forall j :: 0 <= j < i ==> FileBefore(files[j], f)
    requires i < |files| ==> FileBefore(f, files[i])
    ensures InOrder(r) && r[i] == f && forall g :: g in r <==> g in files || g == f
  {
    hide FileBefore;
    assert files == files[..i] + files[i..];
    forall a, b | 0 <= a < b < |r| ensures |r[a].entries| > 0 && |r[b].entries| > 0 && FileBefore(r[a], r[b]) {
      InsertedPair(files, i, f, r, a, b);
    }
  }

  lemma InsertedPair(files: seq<File>, i: nat, f: File, r: seq<File>, a: nat, b: nat)
    requires InOrder(files) && |f.entries| > 0 && i <= |files| && r == files[..i] + [f] + files[i..] && a < b < |r|
    requires forall j :: 0 <= j < i ==> FileBefore(files[j], f)
    requires i < |files| ==> FileBefore(f, files[i])
    ensures |r[a].entries| > 0 && |r[b].entries| > 0 && FileBefore(r[a], r[b])
  {
    hide FileBefore;
    var x, y := if a < i then a else a - 1, if b < i then b else b - 1;
    if a != i && b != i {
      assert r[a] == files[x] && r[b] == files[y];
    } else if a == i {
      assert r[a] == f && r[b] == files[y];
      if y > i { Transitive(f, files[i], files[y]); }
    } else {
      assert r[a] == files[x] && r[b] == f;
    }
  }

  lemma SameOrder(f: File, g: File)
    requires |f.entries| > 0 && |g.entries| > 0 && !FileBefore(f, g) && !FileBefore(g, f)
    ensures f.number == g.number && Smallest(f) == Smallest(g)
  {
  }

  /** The output so far: what survives of b base files and a added ones, all before the rest. */
  ghost predicate Merged(files: seq<File>, base: seq<File>, b: nat, added: seq<File>, a: nat, deleted: set<nat>)
    requires InOrder(base) && InOrder(added)
  {
    && b <= |base| && a <= |added| && InOrder(files)
    && (forall f :: f in files <==> (f in base[..b] || f in added[..a]) && f.number !in deleted)
    && (forall f, j :: f in files && a <= j < |added| ==> |f.entries| > 0 && FileBefore(f, added[j]))
    && (forall f, j :: f in files && b <= j < |base| ==> |f.entries| > 0 && FileBefore(f, base[j]))
  }

  function MaybeAddFile(files: seq<File>, f: File, deleted: set<nat>): (r: seq<File>) {
    if f.number in deleted then files else files + [f]
  }

  lemma TakeBase(files: seq<File>, base: seq<File>, b: nat, added: seq<File>, a: nat, deleted: set<nat>)
    requires InOrder(base) && InOrder(added) && Merged(files, base, b, added, a, deleted) && b < |base|
    requires a < |added| ==> FileBefore(base[b], added[a])
    ensures Merged(MaybeAddFile(files, base[b], deleted), base, b + 1, added, a, deleted)
  {
    assert base[..b + 1] == base[..b] + [base[b]];
    forall j | a <= j < |added| ensures FileBefore(base[b], added[j]) {
      assert j == a || FileBefore(added[a], added[j]);
    }
  }

  lemma TakeAdded(files: seq<File>, base: seq<File>, b: nat, added: seq<File>, a: nat, deleted: set<nat>)
    requires InOrder(base) && InOrder(added) && Merged(files, base, b, added, a, deleted) && a < |added|
    requires b < |base| ==> FileBefore(added[a], base[b])
    ensures Merged(MaybeAddFile(files, added[a], deleted), base, b, added, a + 1, deleted)
  {
    assert added[..a + 1] == added[..a] + [added[a]];
    forall j | b <= j < |base| ensures FileBefore(added[a], base[j]) {
      assert j == b || FileBefore(base[b], base[j]);
    }
  }

  lemma NoneMerged(base: seq<File>, added: seq<File>, deleted: set<nat>)
    requires InOrder(base) && InOrder(added)
    ensures Merged([], base, 0, added, 0, deleted)
  {
  }

  lemma AllMerged(files: seq<File>, base: seq<File>, added: seq<File>, deleted: set<nat>)
    requires InOrder(base) && InOrder(added) && Merged(files, base, |base|, added, |added|, deleted)
    ensures InOrder(files) && (set f | f in files) == set f | f in base + added && f.number !in deleted
  {
    assert base[..|base|] == base && added[..|added|] == added;
  }

  lemma Total(f: File, g: File)
    requires |f.entries| > 0 && |g.entries| > 0 && f.number != g.number
    ensures FileBefore(f, g) || FileBefore(g, f)
  {
  }

  /** The merge loop of SaveTo: base files up to each added one, then that one, then the rest. */
  method Merge(base: seq<File>, added: seq<File>, deleted: set<nat>) returns (files: seq<File>)
    requires InOrder(base) && InOrder(added)
    requires forall f, g :: f in base && g in added ==> f.number != g.number
    ensures InOrder(files)
    ensures (set f | f in files) == set f | f in base + added && f.number !in deleted
  {
    hide Merged, FileBefore, MaybeAddFile, InOrder;
    files := [];
    var b: nat := 0;
    NoneMerged(base, added, deleted);
    for a := 0 to |added|
      invariant b <= |base| && Merged(files, base, b, added, a, deleted)
    {
      files, b := TakeBases(files, base, b, added, a, deleted);
      TakeAdded(files, base, b, added, a, deleted);
      files := MaybeAddFile(files, added[a], deleted);
    }
    files, b := TakeBases(files, base, b, added, |added|, deleted);
    AllMerged(files, base, added, deleted);
  }

  /** The base files before the next added one, or all that are left. */
  method TakeBases(files: seq<File>, base: seq<File>, b: nat, added: seq<File>, a: nat, deleted: set<nat>)
    returns (r: seq<File>, c: nat)
    requires InOrder(base) && InOrder(added) && Merged(files, base, b, added, a, deleted)
    requires b <= |base| && a <= |added| && forall f, g :: f in base && g in added ==> f.number != g.number
    ensures c <= |base| && Merged(r, base, c, added, a, deleted)
    ensures if a < |added| then c < |base| ==>
      |added[a].entries| > 0 && |base[c].entries| > 0 && FileBefore(added[a], base[c])
            else c == |base|
  {
    hide Merged, FileBefore, MaybeAddFile;
    r, c := files, b;
    while c < |base| && (a == |added| || !FileBefore(added[a], base[c]))
      invariant c <= |base| && Merged(r, base, c, added, a, deleted)
    {
      if a < |added| {
        assert base[c] in base && added[a] in added;
        Total(base[c], added[a]);
      }
      TakeBase(r, base, c, added, a, deleted);
      r := MaybeAddFile(r, base[c], deleted);
      c := c + 1;
    }
  }

  // ---- Replaying edits.

  /** A file number names one file throughout. */
  ghost predicate NumbersName(edits: seq<Edit>) {
    forall i, j, l, m, f, g ::
      0 <= i < |edits| && 0 <= j < |edits| && f in Adds(edits[i], l) && g in Adds(edits[j], m) ==>
      f.number == g.number ==> f == g
  }

  /** Recovery: all edits through one builder on an empty base. */
  method Replay(edits: seq<Edit>) returns (levels: seq<seq<File>>)
    requires forall i :: 0 <= i < |edits| ==> EditOk(edits[i])
    requires NumbersName(edits)
    ensures |levels| == NUM_LEVELS
    ensures forall l :: 0 <= l < NUM_LEVELS ==> InOrder(levels[l]) && (set f | f in levels[l]) == OneByOne(edits, l)
  {
    var none: seq<File> := [];
    var builder := new Builder(seq(NUM_LEVELS, _ => none));
    for i := 0 to |edits|
      invariant builder.Ok() && fresh(builder) && forall l :: 0 <= l < NUM_LEVELS ==> builder.base[l] == []
      invariant forall l :: 0 <= l < NUM_LEVELS ==> Tracks(edits, i, l, builder.added[l], builder.deleted[l])
    {
      ghost var added, deleted := builder.added, builder.deleted;
      builder.Apply(edits[i]);
      forall l | 0 <= l < NUM_LEVELS ensures Tracks(edits, i + 1, l, builder.added[l], builder.deleted[l]) {
        TracksStep(edits, i, l, added[l], deleted[l], builder.added[l], builder.deleted[l]);
      }
    }
    assert edits[..|edits|] == edits;
    levels := builder.SaveTo();
    forall l | 0 <= l < NUM_LEVELS ensures builder.Result(l) == OneByOne(edits, l) {
      assert builder.base[l] + builder.added[l] == builder.added[l];
      assert builder.Result(l) == Survivors(FileSet(builder.added[l]), builder.deleted[l]);
    }
  }

  /** The builder's surviving additions are the files the first n edits leave. */
  ghost predicate Tracks(edits: seq<Edit>, n: nat, l: nat, added: seq<File>, deleted: set<nat>)
    requires n <= |edits|
  {
    && Survivors(FileSet(added), deleted) == OneByOne(edits[..n], l)
    && (forall f :: f in added ==> exists i :: 0 <= i < n && f in Adds(edits[i], l))
  }

  ghost function FileSet(files: seq<File>): set<File> {
    set f | f in files
  }

  ghost function Survivors(A: set<File>, D: set<nat>): set<File> {
    set f | f in A && f.number !in D
  }

  /** One edit on accumulated additions A and deletions D is one installation on what survives of them. */
  lemma SurvivorsStep(A: set<File>, D: set<nat>, e: Edit, l: nat, A': set<File>, D': set<nat>)
    requires A' == A + Adds(e, l) && D' == D + Deletes(e, l) - (set f | f in Adds(e, l) :: f.number)
    requires forall f, g :: f in A' && g in Adds(e, l) && f.number == g.number ==> f == g
    ensures Survivors(A', D') == Installed(Survivors(A, D), e, l)
  {
  }

  lemma TracksStep(edits: seq<Edit>, n: nat, l: nat, added: seq<File>, deleted: set<nat>,
                   added': seq<File>, deleted': set<nat>)
    requires n < |edits| && NumbersName(edits) && Tracks(edits, n, l, added, deleted)
    requires var e := edits[n];
             && deleted' == deleted + Deletes(e, l) - (set f | f in Adds(e, l) :: f.number)
             && (forall f :: f in added' ==> f in added || f in Adds(e, l))
             && (forall f :: f in added ==> f in added')
             && (forall f :: f in Adds(e, l) ==> exists g :: g in added' && g.number == f.number)
    ensures Tracks(edits, n + 1, l, added', deleted')
  {
    var e := edits[n];
    Provenance(edits, n, l, added, added');
    hide NumbersName, Deletes, Adds, Survivors, Installed;
    forall f | f in Adds(e, l) ensures f in added' {
      var g :| g in added' && g.number == f.number;
    }
    assert FileSet(added') == FileSet(added) + Adds(e, l);
    SurvivorsStep(FileSet(added), deleted, e, l, FileSet(added'), deleted');
    assert edits[..n + 1][..n] == edits[..n] && edits[..n + 1][n] == e;
  }

  lemma Provenance(edits: seq<Edit>, n: nat, l: nat, added: seq<File>, added': seq<File>)
    requires n < |edits| && NumbersName(edits)
    requires forall f :: f in added ==> exists i :: 0 <= i < n && f in Adds(edits[i], l)
    requires forall f :: f in added' ==> f in added || f in Adds(edits[n], l)
    ensures forall f :: f in added' ==> exists i :: 0 <= i < n + 1 && f in Adds(edits[i], l)
    ensures forall f, g :: f in added' && g in Adds(edits[n], l) && f.number == g.number ==> f == g
  {
  }

  // ---- The builder run once per edit.

  /** LogAndApply: a builder on the current version, one edit, and the next version. */
  method Install(base: seq<seq<File>>, e: Edit) returns (levels: seq<seq<File>>)
    requires |base| == NUM_LEVELS && (forall l :: 0 <= l < NUM_LEVELS ==> InOrder(base[l])) && EditOk(e)
    requires NumbersName([e])
    requires forall l, f, g :: 0 <= l < NUM_LEVELS && f in base[l] && g in Adds(e, l) ==> f.number != g.number
    ensures |levels| == NUM_LEVELS
    ensures forall l :: 0 <= l < NUM_LEVELS ==>
              InOrder(levels[l]) && FileSet(levels[l]) == Installed(FileSet(base[l]), e, l)
  {
    var builder := new Builder(base);
    builder.Apply(e);
    levels := builder.SaveTo();
    forall l | 0 <= l < NUM_LEVELS ensures FileSet(levels[l]) == Installed(FileSet(base[l]), e, l) {
      AddedAre(e, l, builder.added[l]);
      InstalledFiles(base[l], builder.added[l], builder.deleted[l], e, l);
      assert FileSet(levels[l]) == builder.Result(l);
    }
  }

  lemma NamedOnce(e: Edit, l: nat, f: File, g: File)
    requires NumbersName([e]) && f in Adds(e, l) && g in Adds(e, l) && f.number == g.number
    ensures f == g
  {
    hide Adds;
    assert f in Adds([e][0], l) && g in Adds([e][0], l);
  }

  lemma AddedAre(e: Edit, l: nat, added: seq<File>)
    requires NumbersName([e]) && forall f :: f in added ==> f in Adds(e, l)
    requires forall f :: f in Adds(e, l) ==> exists g :: g in added && g.number == f.number
    ensures FileSet(added) == Adds(e, l)
  {
    hide Adds, NumbersName;
    forall f | f in Adds(e, l) ensures f in added {
      var g :| g in added && g.number == f.number;
      NamedOnce(e, l, f, g);
    }
  }

  lemma InstalledFiles(base: seq<File>, added: seq<File>, deleted: set<nat>, e: Edit, l: nat)
    requires FileSet(added) == Adds(e, l) && deleted == Deletes(e, l) - (set f | f in Adds(e, l) :: f.number)
    requires forall f, g :: f in base && g in Adds(e, l) ==> f.number != g.number
    ensures (set f | f in base + added && f.number !in deleted) == Installed(FileSet(base), e, l)
  {
    var all := set f | f in base + added && f.number !in deleted;
    hide Deletes, Adds;
    forall f ensures f in all <==> f in Installed(FileSet(base), e, l) {
      assert f in added <==> f in FileSet(added);
    }
  }

  /** No edit adds a number that its level still holds. */
  ghost predicate NewNumbers(edits: seq<Edit>) {
    forall i, l, f, g :: 0 <= i < |edits| && f in OneByOne(edits[..i], l) && g in Adds(edits[i], l) ==>
      f.number != g.number
  }

  /** The running process: every edit installed on the version before it. */
  method InstallEach(edits: seq<Edit>) returns (levels: seq<seq<File>>)
    requires forall i :: 0 <= i < |edits| ==> EditOk(edits[i])
    requires NumbersName(edits) && NewNumbers(edits)
    ensures |levels| == NUM_LEVELS
    ensures forall l :: 0 <= l < NUM_LEVELS ==> InOrder(levels[l]) && FileSet(levels[l]) == OneByOne(edits, l)
  {
    var none: seq<File> := [];
    levels := seq(NUM_LEVELS, _ => none);
    for i := 0 to |edits|
      invariant |levels| == NUM_LEVELS
      invariant forall l :: 0 <= l < NUM_LEVELS ==> InOrder(levels[l]) && FileSet(levels[l]) == OneByOne(edits[..i], l)
    {
      forall l, f, g | 0 <= l < NUM_LEVELS && f in levels[l] && g in Adds(edits[i], l) ensures f.number != g.number {
        assert f in FileSet(levels[l]);
      }
      OneNames(edits, i);
      levels := Install(levels, edits[i]);
      assert edits[..i + 1][..i] == edits[..i] && edits[..i + 1][i] == edits[i];
    }
    assert edits[..|edits|] == edits;
  }

  lemma OneNames(edits: seq<Edit>, i: nat)
    requires NumbersName(edits) && i < |edits|
    ensures NumbersName([edits[i]])
  {
    hide Adds;
  }

  lemma {:induction false} SameFiles(a: seq<File>, b: seq<File>)
    requires InOrder(a) && InOrder(b) && FileSet(a) == FileSet(b)
    ensures a == b
  {
    if |a| > 0 { SomeFile(a); }
    if |b| > 0 { SomeFile(b); }
    if |a| > 0 && |b| > 0 {
      var n, m := |a| - 1, |b| - 1;
      LastIsLast(a, b);
      FrontSet(a);
      FrontSet(b);
      SameFiles(a[..n], b[..m]);
      assert a == a[..n] + [a[n]] && b == b[..m] + [b[m]];
    }
  }

  lemma SomeFile(a: seq<File>)
    requires |a| > 0
    ensures FileSet(a) != {}
  {
    assert a[0] in FileSet(a);
  }

  lemma AtMostLast(a: seq<File>, f: File)
    requires InOrder(a) && f in a
    ensures |f.entries| > 0 && |a[|a| - 1].entries| > 0 && (f == a[|a| - 1] || FileBefore(f, a[|a| - 1]))
  {
  }

  lemma LastIsLast(a: seq<File>, b: seq<File>)
    requires InOrder(a) && InOrder(b) && FileSet(a) == FileSet(b) && |a| > 0 && |b| > 0
    ensures a[|a| - 1] == b[|b| - 1]
  {
    var x, y := a[|a| - 1], b[|b| - 1];
    assert x in FileSet(a) && y in FileSet(b);
    AtMostLast(a, y);
    AtMostLast(b, x);
  }

  lemma FrontSet(a: seq<File>)
    requires InOrder(a) && |a| > 0
    ensures FileSet(a[..|a| - 1]) == FileSet(a) - {a[|a| - 1]}
  {
    var n := |a| - 1;
    assert a == a[..n] + [a[n]];
    forall f | f in a[..n] ensures f != a[n] {
      var i :| 0 <= i < n && a[i] == f;
      assert FileBefore(a[i], a[n]);
    }
  }

  /** Recovery rebuilds, file for file, the version the process had. */
  method ReplayRebuilds(edits: seq<Edit>) returns (replayed: seq<seq<File>>, installed: seq<seq<File>>)
    requires forall i :: 0 <= i < |edits| ==> EditOk(edits[i])
    requires NumbersName(edits) && NewNumbers(edits)
    ensures replayed == installed && |replayed| == NUM_LEVELS
    ensures forall l :: 0 <= l < NUM_LEVELS ==> InOrder(replayed[l]) && FileSet(replayed[l]) == OneByOne(edits, l)
  {
    replayed := Replay(edits);
    installed := InstallEach(edits);
    forall l | 0 <= l < NUM_LEVELS ensures replayed[l] == installed[l] {
      assert FileSet(replayed[l]) == OneByOne(edits, l);
      SameFiles(replayed[l], installed[l]);
    }
  }
}
