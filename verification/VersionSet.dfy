/**
 Choosing and recording files (db/version_set.cc): the level a flush goes to, the inputs
 of a compaction, and the version builder.
 */
module VersionSet {
  import opened Keys
  import opened Files
  import opened Lookup
  import opened Store
  import R = Reads
  import D = Dropping

  // ---- PickLevelForMemTableOutput.

  /** Some file's user key range meets [low, high]. */
  ghost predicate MeetsRange(files: seq<File>, low: UserKey, high: UserKey) {
    exists i :: 0 <= i < |files| && FileOk(files[i]) && low <= Largest(files[i]).user && Smallest(files[i]).user <= high
  }

  /**
   The deepest level, at most 2, that a flushed table may go to without passing a file it
   overlaps or a level whose overlap with the second one below it is too big (`tooBig`).
   */
  method PickLevelForMemTableOutput(levels: seq<seq<File>>, low: UserKey, high: UserKey, tooBig: seq<bool>)
    returns (level: nat)
    requires LevelsOk(levels) && |tooBig| == 2
    ensures level <= 2
    ensures level > 0 ==> forall l :: 0 <= l <= level ==> !MeetsRange(levels[l], low, high)
    ensures forall l :: 0 <= l < level ==> !tooBig[l]
    ensures level < 2 ==>
      MeetsRange(levels[0], low, high) || MeetsRange(levels[level + 1], low, high) || tooBig[level]
  {
    level := 0;
    var overlaps := OverlapInLevel(levels[0], false, Some(low), Some(high));
    if !overlaps {
      while level < MAX_MEM_COMPACT_LEVEL
        invariant 0 <= level <= MAX_MEM_COMPACT_LEVEL
        invariant forall l :: 0 <= l <= level ==> !MeetsRange(levels[l], low, high)
        invariant forall l :: 0 <= l < level ==> !tooBig[l]
      {
        overlaps := OverlapInLevel(levels[level + 1], true, Some(low), Some(high));
        if overlaps || tooBig[level] {
          break;
        }
        level := level + 1;
      }
    }
  }

  /** The level picked is one the store may install the table at. */
  lemma PickedLevelPlaceable(levels: seq<seq<File>>, level: nat, f: File)
    requires LevelsOk(levels) && FileOk(f) && level <= 2
    requires level > 0 ==> forall l :: 0 <= l <= level ==> !MeetsRange(levels[l], Smallest(f).user, Largest(f).user)
    ensures Placeable(levels, level, f)
  {
    if level > 0 {
      forall l, g | 0 <= l <= level && g in levels[l] ensures FileOk(g) && UserApart(g, f) {
        var i :| 0 <= i < |levels[l]| && levels[l][i] == g;
        assert FileOk(levels[l][i]);
      }
    }
  }

  // ---- GetOverlappingInputs.

  // A user key interval; a missing end is open.
  datatype Span = Span(low: Option<UserKey>, high: Option<UserKey>)

  /** The file's user key range meets the span. */
  predicate Meets(f: File, r: Span)
    requires |f.entries| > 0
  {
    !AfterFile(r.low, f) && !BeforeFile(r.high, f)
  }

  /** The file lies within the span. */
  predicate Inside(f: File, r: Span)
    requires |f.entries| > 0
  {
    (r.low.Some? ==> r.low.value <= Smallest(f).user) && (r.high.Some? ==> Largest(f).user <= r.high.value)
  }

  ghost predicate Within(r: Span, big: Span) {
    && r.low.Some? == big.low.Some? && r.high.Some? == big.high.Some?
    && (r.low.Some? ==> big.low.value <= r.low.value) && (r.high.Some? ==> r.high.value <= big.high.value)
  }

  ghost predicate AllOk(files: seq<File>) {
    forall i :: 0 <= i < |files| ==> FileOk(files[i]) && |files[i].entries| > 0
  }

  /** No file straddles an end of the span: each one it meets lies inside it. */
  ghost predicate Stable(files: seq<File>, r: Span)
    requires AllOk(files)
  {
    forall i :: 0 <= i < |files| && Meets(files[i], r) ==> Inside(files[i], r)
  }

  /** The files meeting the span, in their order in the level. */
  ghost function Selected(files: seq<File>, r: Span, n: nat): seq<File>
    requires AllOk(files) && n <= |files|
  {
    if n == 0 then []
    else Selected(files, r, n - 1) + if Meets(files[n - 1], r) then [files[n - 1]] else []
  }

  // How many files reach past each end of the span: each restart lowers this.
  ghost function Straddlers(files: seq<File>, r: Span): nat
    requires AllOk(files)
  {
    if |files| == 0 then 0
    else
      Straddlers(files[1..], r)
      + (if r.low.Some? && Smallest(files[0]).user < r.low.value then 1 else 0)
      + (if r.high.Some? && r.high.value < Largest(files[0]).user then 1 else 0)
  }

  lemma {:induction false} StraddlersShrink(files: seq<File>, r: Span, r': Span, k: nat)
    requires AllOk(files) && k < |files| && Within(r, r') && r != r'
    requires r'.low == r.low || (r.low.Some? && r'.low == Some(Smallest(files[k]).user))
    requires r'.high == r.high || (r.high.Some? && r'.high == Some(Largest(files[k]).user))
    ensures Straddlers(files, r') < Straddlers(files, r)
  {
    StraddlersMonotone(files[1..], r, r');
    if k > 0 {
      StraddlersShrink(files[1..], r, r', k - 1);
    }
  }

  lemma {:induction false} StraddlersMonotone(files: seq<File>, r: Span, r': Span)
    requires AllOk(files) && Within(r, r')
    ensures Straddlers(files, r') <= Straddlers(files, r)
  {
    if |files| > 0 { StraddlersMonotone(files[1..], r, r'); }
  }

  /**
   GetOverlappingInputs.  Above level 0 it selects the files meeting [begin, end].  At
   level 0, where files overlap one another, it restarts with a wider span whenever a
   file reaches past an end, and stops with the least stable span around [begin, end].
   */
  method GetOverlappingInputs(files: seq<File>, level: nat, begin: Option<UserKey>, end: Option<UserKey>)
    returns (inputs: seq<File>, ghost r: Span)
    requires AllOk(files)
    ensures inputs == Selected(files, r, |files|)
    ensures level > 0 ==> inputs == Selected(files, Span(begin, end), |files|) && r == Span(begin, end)
    ensures level == 0 ==> Within(Span(begin, end), r) && Stable(files, r)
    ensures level == 0 ==> forall s :: Within(Span(begin, end), s) && Stable(files, s) ==> Within(r, s)
  {
    inputs := [];
    var userBegin, userEnd := begin, end;
    var i := 0;
    while i < |files|
      invariant 0 <= i <= |files|
      invariant inputs == Selected(files, Span(userBegin, userEnd), i)
      invariant level > 0 ==> userBegin == begin && userEnd == end
      invariant Within(Span(begin, end), Span(userBegin, userEnd))
      invariant level == 0 ==> forall j :: 0 <= j < i && Meets(files[j], Span(userBegin, userEnd))
                                 ==> Inside(files[j], Span(userBegin, userEnd))
      invariant forall s :: Within(Span(begin, end), s) && Stable(files, s) && level == 0
                  ==> Within(Span(userBegin, userEnd), s)
      decreases Straddlers(files, Span(userBegin, userEnd)), |files| - i
    {
      var f := files[i];
      ghost var k := i;
      ghost var was := Span(userBegin, userEnd);
      i := i + 1;
      if userBegin.Some? && Largest(f).user < userBegin.value {
        // Wholly before the span.
      } else if userEnd.Some? && userEnd.value < Smallest(f).user {
        // Wholly after the span.
      } else {
        inputs := inputs + [f];
        if level == 0 {
          if userBegin.Some? && Smallest(f).user < userBegin.value {
            Forced(files, k, was, begin, end);
            userBegin := Some(Smallest(f).user);
            StraddlersShrink(files, was, Span(userBegin, userEnd), k);
            inputs, i := [], 0;
          } else if userEnd.Some? && userEnd.value < Largest(f).user {
            Forced(files, k, was, begin, end);
            userEnd := Some(Largest(f).user);
            StraddlersShrink(files, was, Span(userBegin, userEnd), k);
            inputs, i := [], 0;
          }
        }
      }
    }
    r := Span(userBegin, userEnd);
  }

  /** A stable span that contains r contains every file r meets. */
  lemma Forced(files: seq<File>, k: nat, r: Span, begin: Option<UserKey>, end: Option<UserKey>)
    requires AllOk(files) && k < |files| && Meets(files[k], r)
    requires forall s :: Within(Span(begin, end), s) && Stable(files, s) ==> Within(r, s)
    ensures forall s :: Within(Span(begin, end), s) && Stable(files, s) ==> Inside(files[k], s)
  {
  }

  lemma {:induction false} SelectedElems(files: seq<File>, r: Span, n: nat)
    requires AllOk(files) && n <= |files|
    ensures forall f :: f in Selected(files, r, n) <==> exists i :: 0 <= i < n && files[i] == f && Meets(files[i], r)
  {
    if n > 0 {
      SelectedElems(files, r, n - 1);
      var s := Selected(files, r, n - 1);
      forall f ensures f in Selected(files, r, n) <==> exists i :: 0 <= i < n && files[i] == f && Meets(files[i], r) {
        if f in Selected(files, r, n) && f !in s { assert f == files[n - 1]; }
        if exists i :: 0 <= i < n && files[i] == f && Meets(files[i], r) {
          var i :| 0 <= i < n && files[i] == f && Meets(files[i], r);
          if i < n - 1 { assert f in s; }
        }
      }
    }
  }

  // ---- AddBoundaryInputs and SetupOtherInputs.

  method FindLargestKey(files: seq<File>) returns (found: bool, largest: InternalKey)
    requires AllOk(files)
    ensures found <==> |files| > 0
    ensures found ==> forall i :: 0 <= i < |files| ==> !Before(largest, Largest(files[i]))
  {
    if |files| == 0 { return false, SeekKey(0.0, 0); }
    largest := Largest(files[0]);
    for i := 0 to |files|
      invariant forall j :: 0 <= j < i ==> !Before(largest, Largest(files[j]))
    {
      if Before(largest, Largest(files[i])) {
        largest := Largest(files[i]);
      }
    }
    found := true;
  }

  method FindSmallestBoundaryFile(files: seq<File>, largest: InternalKey) returns (boundary: Option<File>)
    requires AllOk(files)
    ensures boundary.None? <==>
              forall i :: 0 <= i < |files| ==>
                !(Before(largest, Smallest(files[i])) && Smallest(files[i]).user == largest.user)
    ensures boundary.Some? ==> boundary.value in files && |boundary.value.entries| > 0
                               && Before(largest, Smallest(boundary.value))
  {
    boundary := None;
    for i := 0 to |files|
      invariant boundary.None? <==>
                  forall j :: 0 <= j < i ==>
                    !(Before(largest, Smallest(files[j])) && Smallest(files[j]).user == largest.user)
      invariant boundary.Some? ==> boundary.value in files && |boundary.value.entries| > 0
                                   && Before(largest, Smallest(boundary.value))
    {
      var f := files[i];
      if Before(largest, Smallest(f)) && Smallest(f).user == largest.user {
        if boundary.None? || Before(Smallest(f), Smallest(boundary.value)) {
          boundary := Some(f);
        }
      }
    }
  }

  /**
   AddBoundaryInputs as written starts from the largest key of the whole level, beyond
   which no file begins, so it never adds a file to the compaction's inputs.
   */
  method AddBoundaryInputs(levelFiles: seq<File>, compactionFiles: seq<File>) returns (r: seq<File>)
    requires AllOk(levelFiles)
    ensures r == compactionFiles
  {
    r := compactionFiles;
    var found, largest := FindLargestKey(levelFiles);
    if !found { return; }
    var searching := true;
    while searching
      invariant r == compactionFiles
      invariant forall i :: 0 <= i < |levelFiles| ==> !Before(largest, Largest(levelFiles[i]))
      decreases searching
    {
      var boundary := FindSmallestBoundaryFile(levelFiles, largest);
      BeyondLargest(levelFiles, largest);
      // The source appends the file and searches on from its largest key; there is none.
      assert boundary.None?;
      searching := false;
    }
  }

  lemma BeyondLargest(files: seq<File>, largest: InternalKey)
    requires AllOk(files) && forall i :: 0 <= i < |files| ==> !Before(largest, Largest(files[i]))
    ensures forall i :: 0 <= i < |files| ==> !Before(largest, Smallest(files[i]))
  {
  }

  /** The user key span of a non-empty list of files (GetRange, reduced to user keys). */
  ghost predicate IsHull(files: seq<File>, low: UserKey, high: UserKey)
    requires AllOk(files)
  {
    && (forall i :: 0 <= i < |files| ==> low <= Smallest(files[i]).user && Largest(files[i]).user <= high)
    && (exists i :: 0 <= i < |files| && Smallest(files[i]).user == low)
    && (exists i :: 0 <= i < |files| && Largest(files[i]).user == high)
  }

  method GetRange(files: seq<File>) returns (smallest: InternalKey, largest: InternalKey)
    requires AllOk(files) && |files| > 0
    ensures forall i :: 0 <= i < |files| ==>
      !Before(Smallest(files[i]), smallest) && !Before(largest, Largest(files[i]))
    ensures (exists i :: 0 <= i < |files| && Smallest(files[i]) == smallest)
         && (exists i :: 0 <= i < |files| && Largest(files[i]) == largest)
    ensures IsHull(files, smallest.user, largest.user)
  {
    smallest, largest := Smallest(files[0]), Largest(files[0]);
    for i := 1 to |files|
      invariant forall j :: 0 <= j < i ==> !Before(Smallest(files[j]), smallest) && !Before(largest, Largest(files[j]))
      invariant exists j :: 0 <= j < i && Smallest(files[j]) == smallest
      invariant exists j :: 0 <= j < i && Largest(files[j]) == largest
    {
      if Before(Smallest(files[i]), smallest) {
        smallest := Smallest(files[i]);
      }
      if Before(largest, Largest(files[i])) {
        largest := Largest(files[i]);
      }
    }
  }

  lemma {:induction false} SelectedOk(files: seq<File>, r: Span, n: nat)
    requires AllOk(files) && n <= |files|
    ensures AllOk(Selected(files, r, n))
  {
    if n > 0 { SelectedOk(files, r, n - 1); }
  }

  /** in1 is exactly the next level's files whose user range meets that of in0. */
  ghost predicate TakesOverlaps(levels: seq<seq<File>>, level: nat, in0: seq<File>, in1: seq<File>)
    requires level + 1 < |levels| && AllOk(levels[level + 1]) && AllOk(in0)
  {
    exists low, high :: IsHull(in0, low, high)
      && in1 == Selected(levels[level + 1], Span(Some(low), Some(high)), |levels[level + 1]|)
  }

  /** What a level has around these files: all that meets their range; at level 0 also what overlaps that in turn. */
  ghost predicate Around(files: seq<File>, level: nat, inputs: seq<File>, wide: seq<File>)
    requires AllOk(files) && AllOk(inputs)
  {
    exists low, high, r :: IsHull(inputs, low, high) && wide == Selected(files, r, |files|)
      && Reaches(files, level, Span(Some(low), Some(high)), r)
  }

  ghost predicate Reaches(files: seq<File>, level: nat, span: Span, r: Span)
    requires AllOk(files)
  {
    if level > 0 then r == span
    else
      && Within(span, r) && Stable(files, r)
      && forall s :: Within(span, s) && Stable(files, s) ==> Within(r, s)
  }

  /** The inputs can grow to these: more files of the level, and as many of the next. */
  ghost predicate GrowsTo(levels: seq<seq<File>>, level: nat, in0: seq<File>, in1: seq<File>,
                          wide0: seq<File>, wide1: seq<File>)
    requires level + 1 < |levels| && AllOk(levels[level]) && AllOk(levels[level + 1]) && AllOk(in0)
  {
    && in1 != [] && AllOk(in1) && AllOk(wide0) && TakesOverlaps(levels, level, in0, in1)
    && Around(levels[level], level, in0 + in1, wide0) && TakesOverlaps(levels, level, wide0, wide1)
    && |wide0| > |in0| && |wide1| == |in1|
  }

  lemma HullUnique(files: seq<File>, low: UserKey, high: UserKey, low': UserKey, high': UserKey)
    requires AllOk(files) && IsHull(files, low, high) && IsHull(files, low', high')
    ensures low == low' && high == high'
  {
  }

  lemma OverlapsUnique(levels: seq<seq<File>>, level: nat, in0: seq<File>, a: seq<File>, b: seq<File>)
    requires level + 1 < |levels| && AllOk(levels[level + 1]) && AllOk(in0)
    requires TakesOverlaps(levels, level, in0, a) && TakesOverlaps(levels, level, in0, b)
    ensures a == b
  {
    hide IsHull, Selected;
    var files := levels[level + 1];
    var low, high :| IsHull(in0, low, high) && a == Selected(files, Span(Some(low), Some(high)), |files|);
    var low', high' :| IsHull(in0, low', high') && b == Selected(files, Span(Some(low'), Some(high')), |files|);
    HullUnique(in0, low, high, low', high');
  }

  lemma AroundUnique(files: seq<File>, level: nat, inputs: seq<File>, a: seq<File>, b: seq<File>)
    requires AllOk(files) && AllOk(inputs) && Around(files, level, inputs, a) && Around(files, level, inputs, b)
    ensures a == b
  {
    hide IsHull, Selected, Stable;
    var low, high, r :| IsHull(inputs, low, high) && a == Selected(files, r, |files|)
      && Reaches(files, level, Span(Some(low), Some(high)), r);
    var low', high', r' :| IsHull(inputs, low', high') && b == Selected(files, r', |files|)
      && Reaches(files, level, Span(Some(low'), Some(high')), r');
    HullUnique(inputs, low, high, low', high');
    assert level == 0 ==> Within(r, r') && Within(r', r);
  }

  /** What the inputs can grow to is the files around them, with what those take of the next level. */
  lemma GrowthUnique(levels: seq<seq<File>>, level: nat, in0: seq<File>, in1: seq<File>, wide: seq<File>,
                     next: seq<File>, wide0: seq<File>, wide1: seq<File>)
    requires level + 1 < |levels| && AllOk(levels[level]) && AllOk(levels[level + 1]) && AllOk(in0) && AllOk(in1)
    requires AllOk(in0 + in1) && (in1 != [] ==> Around(levels[level], level, in0 + in1, wide))
    requires TakesOverlaps(levels, level, in0, in1) && GrowsTo(levels, level, in0, next, wide0, wide1)
    ensures next == in1 && wide0 == wide
  {
    hide TakesOverlaps, Around;
    OverlapsUnique(levels, level, in0, next, in1);
    AroundUnique(levels[level], level, in0 + in1, wide0, wide);
  }

  /** The inputs grow exactly if the sizes allow it and there is something to grow to. */
  ghost predicate GrownIff(levels: seq<seq<File>>, level: nat, picked: seq<File>, sizesAllow: bool,
                           in0: seq<File>, in1: seq<File>)
    requires level + 1 < |levels| && AllOk(levels[level]) && AllOk(levels[level + 1]) && AllOk(picked)
  {
    && (in0 != picked ==> sizesAllow && exists next :: GrowsTo(levels, level, picked, next, in0, in1))
    && (sizesAllow ==> forall next, wide0, wide1 :: GrowsTo(levels, level, picked, next, wide0, wide1) ==>
      in0 == wide0 && in1 == wide1)
  }

  lemma NotGrown(levels: seq<seq<File>>, level: nat, picked: seq<File>, sizesAllow: bool, in1: seq<File>,
                 wide0: seq<File>, wide1: seq<File>)
    requires level + 1 < |levels| && AllOk(levels[level]) && AllOk(levels[level + 1]) && AllOk(picked) && AllOk(in1)
    requires TakesOverlaps(levels, level, picked, in1) && AllOk(wide0)
    requires in1 != [] ==> Around(levels[level], level, picked + in1, wide0)
    requires in1 != [] && sizesAllow && |wide0| > |picked| ==>
      TakesOverlaps(levels, level, wide0, wide1) && |wide1| != |in1|
    ensures GrownIff(levels, level, picked, sizesAllow, picked, in1)
  {
    assert AllOk(picked + in1);
    hide TakesOverlaps, Around, AllOk;
    if sizesAllow {
      forall next, other0, other1 ensures !GrowsTo(levels, level, picked, next, other0, other1) {
        if GrowsTo(levels, level, picked, next, other0, other1) {
          GrowthUnique(levels, level, picked, in1, wide0, next, other0, other1);
          OverlapsUnique(levels, level, wide0, wide1, other1);
        }
      }
    }
  }

  lemma Grown(levels: seq<seq<File>>, level: nat, picked: seq<File>, in1: seq<File>, wide0: seq<File>, wide1: seq<File>)
    requires level + 1 < |levels| && AllOk(levels[level]) && AllOk(levels[level + 1]) && AllOk(picked)
    requires in1 != [] && AllOk(in1) && AllOk(wide0) && TakesOverlaps(levels, level, picked, in1)
    requires Around(levels[level], level, picked + in1, wide0) && TakesOverlaps(levels, level, wide0, wide1)
    requires |wide0| > |picked| && |wide1| == |in1|
    ensures GrownIff(levels, level, picked, true, wide0, wide1)
  {
    assert AllOk(picked + in1);
    hide TakesOverlaps, Around, AllOk;
    assert GrowsTo(levels, level, picked, in1, wide0, wide1);
    forall next, other0, other1 | GrowsTo(levels, level, picked, next, other0, other1)
      ensures wide0 == other0 && wide1 == other1
    {
      GrowthUnique(levels, level, picked, in1, wide0, next, other0, other1);
      OverlapsUnique(levels, level, wide0, wide1, other1);
    }
  }

  /**
   SetupOtherInputs.  `sizesAllow` is the outcome of its byte-size test.  Expanded or
   not, the second input list holds every file of the next level that meets the first,
   and the files first picked are still inputs.  They are expanded exactly if the test
   allows it and more files of the level fit without adding any to the next.
   */
  method SetupOtherInputs(levels: seq<seq<File>>, level: nat, picked: seq<File>, sizesAllow: bool)
    returns (in0: seq<File>, in1: seq<File>)
    requires LevelsOk(levels) && level + 1 < NUM_LEVELS && AllOk(levels[level]) && AllOk(levels[level + 1])
    requires AllOk(picked) && |picked| > 0 && forall f :: f in picked ==> f in levels[level]
    ensures AllOk(in0) && |in0| > 0 && (forall f :: f in in0 ==> f in levels[level])
    ensures forall f :: f in picked ==> f in in0
    ensures TakesOverlaps(levels, level, in0, in1) && (in1 == [] ==> in0 == picked)
    ensures in0 == picked || exists r :: in0 == Selected(levels[level], r, |levels[level]|)
                                         && (level == 0 ==> Stable(levels[level], r))
    ensures level > 0 || (exists r :: Stable(levels[0], r) && picked == Selected(levels[0], r, |levels[0]|)) ==>
              Picked(levels, level, in0, in1)
    ensures GrownIff(levels, level, picked, sizesAllow, in0, in1)
  {
    hide Selected, IsHull, Stable, TakesOverlaps, Around, GrowsTo, GrownIff, Picked, Meets, Set, FileOk;
    in0 := AddBoundaryInputs(levels[level], picked);
    var smallest, largest := GetRange(in0);
    ghost var r;
    in1, r := GetOverlappingInputs(levels[level + 1], level + 1, Some(smallest.user), Some(largest.user));
    in1 := AddBoundaryInputs(levels[level + 1], in1);
    SetUp(levels, level, in0, smallest.user, largest.user, in1);
    ghost var wide1 := [];
    if |in1| > 0 {
      var allStart, allLimit := GetRange(in0 + in1);
      var expanded0;
      expanded0, r := GetOverlappingInputs(levels[level], level, Some(allStart.user), Some(allLimit.user));
      expanded0 := AddBoundaryInputs(levels[level], expanded0);
      SelectedOk(levels[level], r, |levels[level]|);
      PickedExpanded(levels[level], picked, in1, allStart.user, allLimit.user, r);
      AroundInputs(levels[level], level, in0 + in1, allStart.user, allLimit.user, r);
      if |expanded0| > |in0| && sizesAllow {
        var newStart, newLimit := GetRange(expanded0);
        var expanded1;
        ghost var r1;
        expanded1, r1 := GetOverlappingInputs(levels[level + 1], level + 1, Some(newStart.user), Some(newLimit.user));
        expanded1 := AddBoundaryInputs(levels[level + 1], expanded1);
        SetUp(levels, level, expanded0, newStart.user, newLimit.user, expanded1);
        wide1 := expanded1;
        if |expanded1| == |in1| {
          Grown(levels, level, picked, in1, expanded0, expanded1);
          in0, in1 := expanded0, expanded1;
          return;
        }
      }
      NotGrown(levels, level, picked, sizesAllow, in1, expanded0, wide1);
    } else {
      NotGrown(levels, level, picked, sizesAllow, in1, [], []);
    }
  }

  /** A list of the level's files with all that meets its range in the next one. */
  lemma SetUp(levels: seq<seq<File>>, level: nat, in0: seq<File>, low: UserKey, high: UserKey, in1: seq<File>)
    requires LevelsOk(levels) && level + 1 < NUM_LEVELS && AllOk(levels[level]) && AllOk(levels[level + 1])
    requires AllOk(in0) && (forall f :: f in in0 ==> f in levels[level]) && IsHull(in0, low, high)
    requires in1 == Selected(levels[level + 1], Span(Some(low), Some(high)), |levels[level + 1]|)
    ensures AllOk(in1) && TakesOverlaps(levels, level, in0, in1)
    ensures level > 0 || (exists r :: Stable(levels[0], r) && in0 == Selected(levels[0], r, |levels[0]|)) ==>
              Picked(levels, level, in0, in1)
  {
    hide Selected, IsHull, Stable, FileOk;
    SelectedOk(levels[level + 1], Span(Some(low), Some(high)), |levels[level + 1]|);
  }

  lemma AroundInputs(files: seq<File>, level: nat, inputs: seq<File>, low: UserKey, high: UserKey, r: Span)
    requires AllOk(files) && AllOk(inputs) && IsHull(inputs, low, high)
    requires Reaches(files, level, Span(Some(low), Some(high)), r)
    ensures Around(files, level, inputs, Selected(files, r, |files|))
  {
  }

  lemma PickedExpanded(files: seq<File>, picked: seq<File>, in1: seq<File>, low: UserKey, high: UserKey, r: Span)
    requires AllOk(files) && AllOk(picked) && AllOk(in1) && forall f :: f in picked ==> f in files
    requires IsHull(picked + in1, low, high) && Within(Span(Some(low), Some(high)), r)
    ensures forall f :: f in picked ==> f in Selected(files, r, |files|)
    ensures forall f :: f in Selected(files, r, |files|) ==> f in files
  {
    SelectedElems(files, r, |files|);
    forall f | f in picked ensures f in Selected(files, r, |files|) {
      var k :| 0 <= k < |picked| && picked[k] == f;
      assert (picked + in1)[k] == f;
      var i :| 0 <= i < |files| && files[i] == f;
      EntryInRange(files[i], 0);
      assert Meets(files[i], r);
    }
  }

  // ---- What a picked compaction leaves behind.

  /** Of two files of a level, one meeting a span and one not, the latter keeps its side. */
  lemma SideOfMeeting(files: seq<File>, low: UserKey, high: UserKey, f: File, g: File, e: Entry)
    requires LevelOk(files) && f in files && g in files && FileOk(f) && FileOk(g) && e in f.entries
    requires Meets(f, Span(Some(low), Some(high)))
    ensures Largest(g).user < low ==> Before(Largest(g), e.key)
    ensures high < Smallest(g).user ==> Before(e.key, Smallest(g))
  {
  }

  lemma FirstInputRange(in0: seq<File>, low: UserKey, high: UserKey, f: File, e: Entry)
    requires AllOk(in0) && IsHull(in0, low, high) && f in in0 && e in f.entries
    ensures low <= e.key.user <= high
  {
  }

  /** g lies below, or above, every entry of the inputs; and shares no user key with the first list. */
  ghost predicate OneSide(in0: seq<File>, in1: seq<File>, g: File)
    requires |g.entries| > 0
  {
    || (forall f, e :: (f in in0 || f in in1) && e in f.entries ==> Before(Largest(g), e.key))
    || (forall f, e :: (f in in0 || f in in1) && e in f.entries ==> Before(e.key, Smallest(g)))
  }

  /** A next-level file left out lies wholly on one side of everything taken. */
  lemma LeftOutSide(levels: seq<seq<File>>, level: nat, in0: seq<File>, in1: seq<File>, g: File)
    requires level + 1 < |levels| && LevelOk(levels[level + 1]) && AllOk(levels[level + 1]) && AllOk(in0)
    requires TakesOverlaps(levels, level, in0, in1) && g in levels[level + 1] && g !in in1
    ensures FileOk(g) && OneSide(in0, in1, g)
    ensures forall f, e, x :: f in in0 && e in f.entries && x in g.entries ==> e.key.user != x.key.user
  {
    var files := levels[level + 1];
    var low, high :| IsHull(in0, low, high) && in1 == Selected(files, Span(Some(low), Some(high)), |files|);
    SelectedElems(files, Span(Some(low), Some(high)), |files|);
    SidesFromSpan(files, low, high, in0, in1, g);
    NoSharedUser(in0, low, high, g);
  }

  lemma SidesFromSpan(files: seq<File>, low: UserKey, high: UserKey, in0: seq<File>, in1: seq<File>, g: File)
    requires LevelOk(files) && AllOk(files) && AllOk(in0) && IsHull(in0, low, high)
    requires forall f :: f in in1 <==> exists i ::
      0 <= i < |files| && files[i] == f && Meets(files[i], Span(Some(low), Some(high)))
    requires g in files && g !in in1
    ensures FileOk(g) && OneSide(in0, in1, g) && (Largest(g).user < low || high < Smallest(g).user)
  {
    var j :| 0 <= j < |files| && files[j] == g;
    assert FileOk(files[j]) && !Meets(files[j], Span(Some(low), Some(high)));
    forall f, e | (f in in0 || f in in1) && e in f.entries
      ensures Largest(g).user < low ==> Before(Largest(g), e.key)
      ensures high < Smallest(g).user ==> Before(e.key, Smallest(g))
    {
      hide IsHull, LevelOk;
      if f in in0 {
        FirstInputRange(in0, low, high, f, e);
      } else {
        var i :| 0 <= i < |files| && files[i] == f && Meets(files[i], Span(Some(low), Some(high)));
        SideOfMeeting(files, low, high, files[i], g, e);
      }
    }
  }

  lemma NoSharedUser(in0: seq<File>, low: UserKey, high: UserKey, g: File)
    requires AllOk(in0) && IsHull(in0, low, high) && FileOk(g) && (Largest(g).user < low || high < Smallest(g).user)
    ensures forall f, e, x :: f in in0 && e in f.entries && x in g.entries ==> e.key.user != x.key.user
  {
  }

  /** Outputs built from the inputs' entries are apart from every file left in their level. */
  lemma OutputsApart(levels: seq<seq<File>>, level: nat, in0: seq<File>, in1: seq<File>, o: File, g: File)
    requires level + 1 < |levels| && LevelOk(levels[level + 1]) && AllOk(levels[level + 1]) && AllOk(in0)
    requires TakesOverlaps(levels, level, in0, in1) && g in levels[level + 1] && g !in in1
    requires FileOk(o) && forall e :: e in o.entries ==> exists f :: (f in in0 || f in in1) && e in f.entries
    ensures FileOk(g) && Apart(o, g)
  {
    LeftOutSide(levels, level, in0, in1, g);
    hide TakesOverlaps, LevelOk, AllOk;
    var a, b := o.entries[0], o.entries[|o.entries| - 1];
    assert a in o.entries && b in o.entries;
    var f :| (f in in0 || f in in1) && a in f.entries;
    var h :| (h in in0 || h in in1) && b in h.entries;
  }

  /** Two neighbouring files of a level between which the versions of one user key are split. */
  ghost predicate Split(f: File, g: File)
    requires |f.entries| > 0 && |g.entries| > 0
  {
    Before(Largest(f), Smallest(g)) && Largest(f).user == Smallest(g).user
  }

  /** No taken file splits a user key with a later file left behind. */
  ghost predicate CleanCut(files: seq<File>, taken: set<File>)
    requires LevelOk(files) && taken <= Set(files)
  {
    forall f, g :: f in taken && g in files && g !in taken ==> !(FileOk(f) && FileOk(g) && Split(f, g))
  }

  /** Entries follow the order of the files that hold them. */
  lemma EntriesInOrder(f: File, g: File, e: Entry, x: Entry)
    requires FileOk(f) && FileOk(g) && e in f.entries && x in g.entries && Before(Largest(f), Smallest(g))
    ensures Before(e.key, x.key)
    ensures e.key.user == x.key.user ==> Split(f, g)
  {
  }

  /** Above level 0, taking files leaves no older version behind exactly when the cut is clean. */
  lemma ClosedIffCleanCut(files: seq<File>, taken: set<File>)
    requires LevelOk(files) && taken <= Set(files) && R.Stamped(FileEntries(files))
    ensures R.Newer(RestEntries(files, taken), TakenEntries(taken)) <==> CleanCut(files, taken)
  {
    if CleanCut(files, taken) {
      forall x, e | x in RestEntries(files, taken) && e in TakenEntries(taken) && x.key.user == e.key.user
        ensures e.key.sequence < x.key.sequence
      {
        CleanCutNewer(files, taken, x, e);
      }
    } else {
      var f, g :| f in taken && g in files && g !in taken && FileOk(f) && FileOk(g) && Split(f, g);
      UncleanCutOlder(files, taken, f, g);
    }
  }

  lemma UncleanCutOlder(files: seq<File>, taken: set<File>, f: File, g: File)
    requires f in taken && g in files && g !in taken && FileOk(f) && FileOk(g) && Split(f, g)
    ensures !R.Newer(RestEntries(files, taken), TakenEntries(taken))
  {
    var e, x := f.entries[|f.entries| - 1], g.entries[0];
    assert e in f.entries && x in g.entries;
    assert e in TakenEntries(taken) && x in RestEntries(files, taken);
  }

  lemma CleanCutNewer(files: seq<File>, taken: set<File>, x: Entry, e: Entry)
    requires LevelOk(files) && taken <= Set(files) && CleanCut(files, taken) && R.Stamped(FileEntries(files))
    requires x in RestEntries(files, taken) && e in TakenEntries(taken) && x.key.user == e.key.user
    ensures e.key.sequence < x.key.sequence
  {
    var g :| g in files && g !in taken && x in g.entries;
    var f :| f in taken && e in f.entries;
    assert f in files && x in FileEntries(files) && e in FileEntries(files);
    LevelApart(files, f, g);
    if Before(Largest(f), Smallest(g)) {
      EntriesInOrder(f, g, e, x);
    } else {
      EntriesInOrder(g, f, x, e);
    }
  }

  /** The next level left behind is newer than the inputs exactly when its own cut is clean. */
  lemma NextLevelClosedIff(levels: seq<seq<File>>, level: nat, in0: seq<File>, in1: seq<File>)
    requires level + 1 < |levels| && LevelOk(levels[level + 1]) && AllOk(levels[level + 1]) && AllOk(in0)
    requires TakesOverlaps(levels, level, in0, in1) && Set(in1) <= Set(levels[level + 1])
    requires R.Stamped(FileEntries(levels[level + 1]))
    ensures R.Newer(RestEntries(levels[level + 1], Set(in1)), TakenEntries(Set(in0)) + TakenEntries(Set(in1)))
            <==> CleanCut(levels[level + 1], Set(in1))
  {
    var files := levels[level + 1];
    ClosedIffCleanCut(files, Set(in1));
    forall x, e | x in RestEntries(files, Set(in1)) && e in TakenEntries(Set(in0)) ensures x.key.user != e.key.user {
      var g :| g in files && g !in Set(in1) && x in g.entries;
      LeftOutSide(levels, level, in0, in1, g);
    }
    hide CleanCut, RestEntries, TakenEntries;
  }

  /**
   For a compaction above level 0 the store may start it - it leaves no older version of
   an input key behind - exactly when neither level's cut splits a user key.  The source
   means AddBoundaryInputs to guarantee this, but that function adds nothing.
   */
  lemma PickedClosedIff(levels: seq<seq<File>>, level: nat, in0: seq<File>, in1: seq<File>)
    requires 0 < level && level + 1 < |levels| && LevelOk(levels[level]) && LevelOk(levels[level + 1])
    requires AllOk(levels[level + 1]) && AllOk(in0)
    requires Set(in0) <= Set(levels[level]) && Set(in1) <= Set(levels[level + 1])
    requires TakesOverlaps(levels, level, in0, in1)
    requires R.Stamped(FileEntries(levels[level])) && R.Stamped(FileEntries(levels[level + 1]))
    ensures (&& R.Newer(RestEntries(levels[level], Set(in0)), TakenEntries(Set(in0)))
             && R.Newer(RestEntries(levels[level + 1], Set(in1)), TakenEntries(Set(in0)) + TakenEntries(Set(in1))))
            <==> CleanCut(levels[level], Set(in0)) && CleanCut(levels[level + 1], Set(in1))
  {
    hide *;
    ClosedIffCleanCut(levels[level], Set(in0));
    NextLevelClosedIff(levels, level, in0, in1);
  }

  /** What SetupOtherInputs hands to a compaction of the two levels. */
  ghost predicate Picked(levels: seq<seq<File>>, level: nat, in0: seq<File>, in1: seq<File>)
    requires LevelsOk(levels) && level + 1 < NUM_LEVELS
  {
    && AllOk(levels[level]) && AllOk(levels[level + 1]) && AllOk(in0) && Set(in0) <= Set(levels[level])
    && TakesOverlaps(levels, level, in0, in1)
    && (level == 0 ==> exists r :: Stable(levels[0], r) && in0 == Selected(levels[0], r, |levels[0]|))
  }

  /** Neither level's cut splits a user key; level 0 has no cuts to speak of. */
  ghost predicate CleanCuts(levels: seq<seq<File>>, level: nat, in0: seq<File>, in1: seq<File>)
    requires LevelsOk(levels) && level + 1 < NUM_LEVELS
  {
    && Set(in0) <= Set(levels[level]) && Set(in1) <= Set(levels[level + 1])
    && (level > 0 ==> CleanCut(levels[level], Set(in0)))
    && CleanCut(levels[level + 1], Set(in1))
  }

  /** A picked compaction with clean cuts leaves no older version of its keys behind in the two levels. */
  lemma PickedCloses(levels: seq<seq<File>>, level: nat, in0: seq<File>, in1: seq<File>)
    requires LevelsOk(levels) && level + 1 < NUM_LEVELS && Picked(levels, level, in0, in1)
      && CleanCuts(levels, level, in0, in1)
    requires R.Stamped(FileEntries(levels[level])) && R.Stamped(FileEntries(levels[level + 1]))
    ensures R.Newer(RestEntries(levels[level], Set(in0)), TakenEntries(Set(in0)))
    ensures R.Newer(RestEntries(levels[level + 1], Set(in1)), TakenEntries(Set(in0)) + TakenEntries(Set(in1)))
  {
    hide R.Newer, R.Stamped, RestEntries, TakenEntries, CleanCut, TakesOverlaps, Selected;
    NextLevelClosedIff(levels, level, in0, in1);
    if level > 0 {
      ClosedIffCleanCut(levels[level], Set(in0));
    } else {
      var r :| Stable(levels[0], r) && in0 == Selected(levels[0], r, |levels[0]|);
      Level0Closed(levels[0], r);
    }
  }

  /** Files left in the output level lie beyond everything taken. */
  lemma PickedBeyond(levels: seq<seq<File>>, level: nat, in0: seq<File>, in1: seq<File>, inputs: seq<Entry>, g: File)
    requires LevelsOk(levels) && level + 1 < NUM_LEVELS && Picked(levels, level, in0, in1)
    requires Elems(inputs) == TakenEntries(Set(in0)) + TakenEntries(Set(in1))
    requires g in levels[level + 1] && g !in in1
    ensures Beyond(inputs, g)
  {
    LeftOutSide(levels, level, in0, in1, g);
    hide TakesOverlaps, LevelOk, AllOk, LevelsOk;
    forall e | e in inputs ensures exists f :: (f in in0 || f in in1) && e in f.entries {
      assert e in Elems(inputs);
      if e in TakenEntries(Set(in0)) {
        var f :| f in Set(in0) && e in f.entries;
      } else {
        var f :| f in Set(in1) && e in f.entries;
      }
    }
  }

  /** At level 0 the stable selection shares no user key with what it leaves. */
  lemma Level0Closed(files: seq<File>, r: Span)
    requires AllOk(files) && Stable(files, r)
    ensures R.Newer(RestEntries(files, Set(Selected(files, r, |files|))),
                    TakenEntries(Set(Selected(files, r, |files|))))
  {
    var taken := Set(Selected(files, r, |files|));
    SelectedElems(files, r, |files|);
    forall x, e | x in RestEntries(files, taken) && e in TakenEntries(taken) ensures x.key.user != e.key.user {
      var g :| g in files && g !in taken && x in g.entries;
      var f :| f in taken && e in f.entries;
      var i :| 0 <= i < |files| && files[i] == f && Meets(files[i], r);
      var j :| 0 <= j < |files| && files[j] == g;
      var k :| 0 <= k < |f.entries| && f.entries[k] == e;
      var m :| 0 <= m < |g.entries| && g.entries[m] == x;
      EntryInRange(files[i], k);
      EntryInRange(files[j], m);
      assert !Meets(files[j], r);
    }
  }
}
