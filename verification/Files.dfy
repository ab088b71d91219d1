/**
 Table files as the version set sees them (db/version_set.cc): key ranges, levels, and
 the searches that pick files by key.
 */
module Files {
  import opened Keys

  const NUM_LEVELS: nat := 7

  // A table file: its number and its entries, from which its key range is taken.
  datatype File = File(number: nat, entries: seq<Entry>)

  ghost predicate FileOk(f: File) {
    |f.entries| > 0 && Sorted(f.entries)
  }

  function Smallest(f: File): InternalKey
    requires |f.entries| > 0
  {
    f.entries[0].key
  }

  function Largest(f: File): InternalKey
    requires |f.entries| > 0
  {
    f.entries[|f.entries| - 1].key
  }

  // The user key range of a file contains u.
  predicate Covers(f: File, u: UserKey)
    requires |f.entries| > 0
  {
    Smallest(f).user <= u <= Largest(f).user
  }

  /** A level above 0: files in key order, no two overlapping. */
  ghost predicate LevelOk(files: seq<File>) {
    && (forall i :: 0 <= i < |files| ==> FileOk(files[i]))
    && (forall i, j :: 0 <= i < j < |files| ==> Before(Largest(files[i]), Smallest(files[j])))
  }

  ghost predicate LevelsOk(levels: seq<seq<File>>) {
    && |levels| == NUM_LEVELS
    && (forall i :: 0 <= i < |levels[0]| ==> FileOk(levels[0][i]))
    && (forall l :: 0 < l < NUM_LEVELS ==> LevelOk(levels[l]))
  }

  lemma EntryInRange(f: File, i: nat)
    requires FileOk(f) && i < |f.entries|
    ensures Covers(f, f.entries[i].key.user)
    ensures !Before(f.entries[i].key, Smallest(f)) && !Before(Largest(f), f.entries[i].key)
  {
  }

  /** FindFile: the first file whose largest key is not before the target. */
  method FindFile(files: seq<File>, key: InternalKey) returns (index: nat)
    requires LevelOk(files)
    ensures index <= |files|
    ensures forall i :: 0 <= i < index ==> Before(Largest(files[i]), key)
    ensures forall i :: index <= i < |files| ==> !Before(Largest(files[i]), key)
  {
    var left, right := 0, |files|;
    while left < right
      invariant 0 <= left <= right <= |files|
      invariant forall i :: 0 <= i < left ==> Before(Largest(files[i]), key)
      invariant forall i :: right <= i < |files| ==> !Before(Largest(files[i]), key)
    {
      var mid := (left + right) / 2;
      LargestAscend(files, mid);
      if Before(Largest(files[mid]), key) {
        left := mid + 1;
      } else {
        right := mid;
      }
    }
    index := right;
  }

  lemma LargestAscend(files: seq<File>, m: nat)
    requires LevelOk(files) && m < |files|
    ensures forall i :: 0 <= i < m ==> Before(Largest(files[i]), Largest(files[m]))
    ensures forall i :: m < i < |files| ==> Before(Largest(files[m]), Largest(files[i]))
  {
  }

  // A missing bound leaves that side of the range open.
  predicate AfterFile(u: Option<UserKey>, f: File)
    requires |f.entries| > 0
  {
    u.Some? && Largest(f).user < u.value
  }

  predicate BeforeFile(u: Option<UserKey>, f: File)
    requires |f.entries| > 0
  {
    u.Some? && u.value < Smallest(f).user
  }

  /** SomeFileOverlapsRange: does the level hold a file whose user key range meets [low, high]? */
  method OverlapInLevel(files: seq<File>, disjoint: bool, low: Option<UserKey>, high: Option<UserKey>)
    returns (overlaps: bool)
    requires forall i :: 0 <= i < |files| ==> FileOk(files[i])
    requires disjoint ==> LevelOk(files)
    ensures overlaps <==>
              exists i :: 0 <= i < |files| && FileOk(files[i]) && !AfterFile(low, files[i])
                && !BeforeFile(high, files[i])
  {
    if !disjoint {
      for i := 0 to |files|
        invariant forall j :: 0 <= j < i ==> AfterFile(low, files[j]) || BeforeFile(high, files[j])
      {
        if !(AfterFile(low, files[i]) || BeforeFile(high, files[i])) {
          return true;
        }
      }
      return false;
    }
    var index := 0;
    if low.Some? {
      index := FindFile(files, InternalKey(low.value, MAX_SEQUENCE, Value));
    }
    if index >= |files| {
      return false;
    }
    overlaps := !BeforeFile(high, files[index]);
    if !overlaps {
      LaterFilesAbove(files, index, high.value);
    }
  }

  // A compaction of levels `level` and `level + 1` of a pinned version.
  class Compaction {
    const level: nat
    const version: seq<seq<File>>
    var levelPtrs: seq<nat>

    constructor (level: nat, version: seq<seq<File>>)
      requires LevelsOk(version) && level + 1 < NUM_LEVELS
      ensures this.level == level && this.version == version
      ensures Ok() && forall u :: Passed(u)
    {
      this.level, this.version := level, version;
      levelPtrs := seq(NUM_LEVELS, _ => 0);
    }

    ghost predicate Ok()
      reads this
    {
      && LevelsOk(version) && level + 1 < NUM_LEVELS && |levelPtrs| == NUM_LEVELS
      && forall l :: 0 <= l < NUM_LEVELS ==> levelPtrs[l] <= |version[l]|
    }

    /** Every file the pointers have passed lies before u. */
    ghost predicate Passed(u: UserKey)
      requires Ok()
      reads this
    {
      forall l, i :: level + 2 <= l < NUM_LEVELS && 0 <= i < levelPtrs[l] ==> Largest(version[l][i]).user < u
    }

    /** The advancing pointers answer as a full scan of the deeper levels would. */
    method IsBaseLevelForKey(u: UserKey) returns (base: bool)
      requires Ok() && Passed(u)
      modifies this
      ensures Ok() && forall w :: u <= w ==> Passed(w)
      ensures base <==> NoDeeperFile(version, level, u)
    {
      var l := level + 2;
      while l < NUM_LEVELS
        invariant level + 2 <= l <= NUM_LEVELS
        invariant Ok() && Passed(u)
        invariant forall m :: level + 2 <= m < l ==> NoFileCovers(version[m], u)
      {
        var found := AdvancePointer(l, u);
        if found { return false; }
        l := l + 1;
      }
      return true;
    }

    /** Move one level's pointer to the first file not wholly before u. */
    method AdvancePointer(l: nat, u: UserKey) returns (found: bool)
      requires Ok() && Passed(u) && level + 2 <= l < NUM_LEVELS
      modifies this
      ensures Ok() && Passed(u)
      ensures found <==> !NoFileCovers(version[l], u)
    {
      var files := version[l];
      while levelPtrs[l] < |files|
        invariant Ok() && Passed(u)
        decreases |files| - levelPtrs[l]
      {
        var f := files[levelPtrs[l]];
        if u <= Largest(f).user {
          if Smallest(f).user <= u {
            return true;
          }
          LaterFilesAbove(files, levelPtrs[l], u);
          return false;
        }
        levelPtrs := levelPtrs[l := levelPtrs[l] + 1];
      }
      return false;
    }
  }

  ghost predicate NoFileCovers(files: seq<File>, u: UserKey)
    requires LevelOk(files)
  {
    forall i :: 0 <= i < |files| ==> !Covers(files[i], u)
  }

  /** No file of a level below the output level can hold a version of u. */
  ghost predicate NoDeeperFile(version: seq<seq<File>>, level: nat, u: UserKey)
    requires LevelsOk(version)
  {
    forall l :: level + 2 <= l < NUM_LEVELS ==> NoFileCovers(version[l], u)
  }

  lemma LaterFilesAbove(files: seq<File>, p: nat, u: UserKey)
    requires LevelOk(files) && p < |files| && u < Smallest(files[p]).user
    ensures forall i :: p <= i < |files| ==> u < Smallest(files[i]).user
  {
  }
}
