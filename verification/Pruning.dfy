/**
  The pruning of backup copies (crates/siltad/src/backup.rs) and of rotation snapshots
  (crates/silta-session/src/state.rs): both sort names and remove from the front.
 */
module Pruning {
  import opened Prelude
  import opened Stamps

  function Names(s: seq<string>): set<string> {
    set x | x in s
  }

  predicate Distinct(s: seq<string>) {
    forall i, j :: 0 <= i < j < |s| ==> s[i] != s[j]
  }

  predicate Ascending(s: seq<string>) {
    forall i, j :: 0 <= i < j < |s| ==> Less(s[i], s[j])
  }

  // ------------------------------------------------------------------------------------
  // What to keep

  /** The names that sort after a name. */
  function After(x: string, names: set<string>): set<string> {
    set y | y in names && Less(x, y)
  }

  /** The last `n` names: those with fewer than `n` names after them. */
  function Newest(names: set<string>, n: nat): set<string> {
    set x | x in names && |After(x, names)| < n
  }

  function Min(a: nat, b: nat): nat {
    if a < b then a else b
  }

  // ------------------------------------------------------------------------------------
  // Sorting

  function Insert(x: string, s: seq<string>): (r: seq<string>)
    requires Ascending(s) && x !in s
    ensures Ascending(r) && Names(r) == Names(s) + {x} && |r| == |s| + 1
  {
    if s == [] then [x]
    else if Less(x, s[0]) then
      InsertedFirst(x, s);
      [x] + s
    else
      TailAscending(s);
      var rest := Insert(x, s[1..]);
      InsertedLater(x, s, rest);
      [s[0]] + rest
  }

  lemma NamesCons(x: string, s: seq<string>)
    ensures Names([x] + s) == {x} + Names(s)
  {
    assert forall y :: y in [x] + s <==> y == x || y in s;
  }

  lemma TailAscending(s: seq<string>)
    requires Ascending(s) && s != []
    ensures Ascending(s[1..])
  {
  }

  lemma InsertedFirst(x: string, s: seq<string>)
    requires Ascending(s) && s != [] && Less(x, s[0])
    ensures Ascending([x] + s) && Names([x] + s) == Names(s) + {x}
  {
    hide Less;
    var r := [x] + s;
    forall i, j | 0 <= i < j < |r| ensures Less(r[i], r[j]) {
      if i == 0 && j > 1 {
        LessTransitive(x, s[0], s[j - 1]);
      }
    }
  }

  lemma InsertedLater(x: string, s: seq<string>, rest: seq<string>)
    requires Ascending(s) && s != [] && !Less(x, s[0]) && x != s[0]
    requires Ascending(rest) && Names(rest) == Names(s[1..]) + {x}
    ensures Ascending([s[0]] + rest) && Names([s[0]] + rest) == Names(s) + {x}
  {
    hide Less;
    var r := [s[0]] + rest;
    LessTotal(x, s[0]);
    assert s == [s[0]] + s[1..];
    NamesCons(s[0], s[1..]);
    NamesCons(s[0], rest);
    forall j | 0 <= j < |rest| ensures Less(s[0], rest[j]) {
      assert rest[j] in Names(rest);
      if rest[j] != x {
        var k :| 0 <= k < |s[1..]| && s[1..][k] == rest[j];
        assert s[k + 1] == rest[j];
      }
    }
  }

  /** The names in order, as the library's sort gives them. */
  function Sort(s: seq<string>): (r: seq<string>)
    requires Distinct(s)
    ensures Ascending(r) && Names(r) == Names(s) && |r| == |s|
  {
    if s == [] then [] else
    var rest := s[1..];
    assert s == [s[0]] + rest;
    assert s[0] !in rest;
    var sorted := Sort(rest);
    assert s[0] !in Names(sorted);
    Insert(s[0], sorted)
  }

  lemma {:induction false} Count(s: seq<string>)
    requires Ascending(s)
    ensures |Names(s)| == |s|
  {
    if s != [] {
      TailAscending(s);
      Count(s[1..]);
      assert Names(s) == Names(s[1..]) + {s[0]};
      LessIrreflexive(s[0]);
      assert s[0] !in s[1..];
    }
  }

  /** The end of the sorted names is what is to be kept. */
  lemma EndIsNewest(s: seq<string>, n: nat)
    requires Ascending(s)
    ensures Names(s[|s| - Min(n, |s|)..]) == Newest(Names(s), n)
    ensures |Newest(Names(s), n)| == Min(n, |s|)
  {
    hide Less;
    var tail := s[|s| - Min(n, |s|)..];
    forall i | 0 <= i < |s| ensures |After(s[i], Names(s))| == |s| - i - 1 {
      AfterIs(s, i);
    }
    Count(tail);
    forall x | x in tail ensures x in Newest(Names(s), n) {
      var i :| 0 <= i < |tail| && tail[i] == x;
      assert s[|s| - Min(n, |s|) + i] == x;
    }
    forall x | x in Newest(Names(s), n) ensures x in tail {
      var i :| 0 <= i < |s| && s[i] == x;
      assert tail[i - (|s| - Min(n, |s|))] == x;
    }
  }

  lemma AfterIs(s: seq<string>, i: nat)
    requires Ascending(s) && i < |s|
    ensures |After(s[i], Names(s))| == |s| - i - 1
  {
    hide Less;
    var tail := s[i + 1..];
    Count(tail);
    forall y | y in After(s[i], Names(s)) ensures y in tail {
      var j :| 0 <= j < |s| && s[j] == y;
      LessIrreflexive(s[i]);
      if j < i {
        LessTransitive(s[i], s[j], s[i]);
      }
      assert tail[j - i - 1] == y;
    }
    assert After(s[i], Names(s)) == Names(tail);
  }

  /** The names kept are as many as asked for, if there are so many, and sort after all others. */
  lemma NewestAre(names: set<string>, n: nat)
    ensures Newest(names, n) <= names && |Newest(names, n)| == Min(n, |names|)
    ensures forall x, y :: x in Newest(names, n) && y in names - Newest(names, n) ==> Less(y, x)
  {
    hide Less;
    var listing := Listing(names);
    var s := Sort(listing);
    EndIsNewest(s, n);
    Count(s);
    forall x, y | x in Newest(names, n) && y in names - Newest(names, n) ensures Less(y, x) {
      LessTotal(x, y);
      if Less(x, y) {
        AfterShrinks(x, y, names);
      }
    }
  }

  lemma AfterShrinks(x: string, y: string, names: set<string>)
    requires Less(x, y) && y in names
    ensures |After(y, names)| < |After(x, names)|
  {
    hide Less;
    LessIrreflexive(y);
    forall z | z in After(y, names) ensures z in After(x, names) {
      LessTransitive(x, y, z);
    }
    Subset(After(y, names) + {y}, After(x, names));
  }

  lemma {:induction false} Subset(a: set<string>, b: set<string>)
    requires a <= b
    ensures |a| <= |b|
  {
    assert b == a + (b - a);
  }

  /** A directory's names in some order. */
  lemma {:induction false} Listing(names: set<string>) returns (s: seq<string>)
    ensures Distinct(s) && Names(s) == names
  {
    if names == {} {
      s := [];
    } else {
      var x :| x in names;
      var rest := Listing(names - {x});
      s := [x] + rest;
      assert x !in Names(rest);
      NamesCons(x, rest);
    }
  }

  // ------------------------------------------------------------------------------------
  // The directories

  predicate EndsWith(name: string, suffix: string) {
    |suffix| <= |name| && name[|name| - |suffix|..] == suffix
  }

  predicate IsTemporary(name: string) {
    name != [] && name[0] == '.' && EndsWith(name, ".tmp")
  }

  predicate IsSnapshot(name: string) {
    EndsWith(name, "-before-handoff") || EndsWith(name, "-after-handoff")
  }

  /** The directories among some entries whose name is of a kind. */
  function Directories(entries: map<string, bool>, kind: string -> bool): set<string> {
    set x | x in entries && entries[x] && kind(x)
  }

  /** A directory: the names in it, and which of them are directories. */
  class Folder {
    var entries: map<string, bool>

    constructor (entries: map<string, bool>)
      ensures this.entries == entries
    {
      this.entries := entries;
    }

    /** Removes the temporary directories and collects the names of the copies. */
    method Collect(listing: seq<string>) returns (copies: seq<string>, removed: nat)
      requires Distinct(listing) && Names(listing) == entries.Keys
      modifies this
      ensures Distinct(copies) && Names(copies) == Directories(old(entries), IsStamp)
      ensures entries == Without(old(entries), Directories(old(entries), IsTemporary))
      ensures removed == |old(entries)| - |entries|
    {
      hide IsStamp, IsTemporary, Among;
      copies, removed := [], 0;
      assert Distinct(copies) && Names(copies) == {};
      hide Distinct, Without, Names, Directories;
      NoneAmong(entries, listing);
      WithoutNone(entries);
      for k := 0 to |listing|
        invariant Distinct(copies) && Names(copies) == Among(old(entries), listing, k, IsStamp)
        invariant entries == Without(old(entries), Among(old(entries), listing, k, IsTemporary))
        invariant removed == |old(entries)| - |entries|
      {
        var name := listing[k];
        AmongStep(old(entries), listing, k, IsStamp);
        AmongStep(old(entries), listing, k, IsTemporary);
        Exclusive(name);
        Listed(listing, k);
        RemoveOne(old(entries), Among(old(entries), listing, k, IsTemporary), name);
        if entries[name] {
          if IsTemporary(name) {
            entries := entries - {name};
            removed := removed + 1;
          } else if IsStamp(name) {
            AddName(copies, name);
            copies := copies + [name];
          }
        }
      }
      AllAmong(old(entries), listing);
    }

    /** Removes names from the front until `keep` are left. */
    method RemoveOldest(sorted: seq<string>, keep: nat) returns (removed: nat)
      requires Ascending(sorted) && Names(sorted) <= entries.Keys
      modifies this
      ensures entries == old(entries) - (Names(sorted) - Newest(Names(sorted), keep))
      ensures removed == |old(entries)| - |entries|
    {
      hide Ascending, Newest;
      var copies := sorted;
      removed := 0;
      while |copies| > keep
        invariant removed <= |sorted| && copies == sorted[removed..] && (removed > 0 ==> |copies| >= keep)
        invariant entries == old(entries) - Names(sorted[..removed])
        invariant removed == |old(entries)| - |entries|
      {
        var oldest := copies[0];
        FrontStep(sorted, removed);
        RemoveOne(old(entries), Names(sorted[..removed]), oldest);
        entries := entries - {oldest};
        copies := copies[1..];
        removed := removed + 1;
      }
      FrontIsOld(sorted, keep);
    }

    /**
      Removes leftover temporary directories and all copies but the newest `keep`; everything
      else stays. The listing is the directory's, in any order.
     */
    method PruneCopies(listing: seq<string>, keep: nat) returns (removed: nat)
      requires Distinct(listing) && Names(listing) == entries.Keys
      modifies this
      ensures var copies := Directories(old(entries), IsStamp);
              entries == old(entries) - Directories(old(entries), IsTemporary) - (copies - Newest(copies, keep))
      ensures removed == |old(entries)| - |entries|
    {
      var copies, temporary := Collect(listing);
      StampsStay(old(entries));
      hide IsStamp, IsTemporary, Newest, Distinct, Ascending;
      var old' := RemoveOldest(Sort(copies), keep);
      removed := temporary + old';
    }

    /** Removes all snapshots but the newest `2 * keep`; what is no directory is not removed. */
    method PruneSnapshots(listing: seq<string>, keep: nat)
      requires Distinct(listing) && Names(listing) == entries.Keys
      modifies this
      ensures var snapshots := Snapshots(old(entries).Keys);
              entries == old(entries) - DirectoriesIn(old(entries), snapshots - Newest(snapshots, 2 * keep))
    {
      hide IsSnapshot, DirectoriesIn, Snapshots;
      var found := Filter(listing);
      var sorted := Sort(found);
      var last := |sorted| - Min(2 * keep, |sorted|);
      FrontIsOld(sorted, 2 * keep);
      hide Newest, Ascending, Distinct;
      var k := last;
      NoDirectories(entries, sorted[last..last]);
      while k > 0
        invariant 0 <= k <= last
        invariant entries == old(entries) - DirectoriesIn(old(entries), Names(sorted[k..last]))
      {
        k := k - 1;
        BackStep(sorted, k, last);
        OneMore(old(entries), Names(sorted[k + 1..last]), sorted[k]);
        if sorted[k] in entries && entries[sorted[k]] {
          entries := entries - {sorted[k]};
        }
      }
      assert sorted[0..last] == sorted[..last];
    }
  }

  function Snapshots(names: set<string>): set<string> {
    set x | x in names && IsSnapshot(x)
  }

  function DirectoriesIn(entries: map<string, bool>, names: set<string>): set<string> {
    set x | x in names && x in entries && entries[x]
  }

  lemma NoDirectories(entries: map<string, bool>, none: seq<string>)
    requires none == []
    ensures entries - DirectoriesIn(entries, Names(none)) == entries
  {
  }

  lemma OneMore(entries: map<string, bool>, names: set<string>, x: string)
    ensures var rest := entries - DirectoriesIn(entries, names);
            entries - DirectoriesIn(entries, names + {x}) == if x in rest && rest[x] then rest - {x} else rest
  {
  }

  lemma BackStep(s: seq<string>, k: nat, last: nat)
    requires k < last <= |s|
    ensures Names(s[k..last]) == Names(s[k + 1..last]) + {s[k]}
  {
    assert s[k..last] == [s[k]] + s[k + 1..last];
    NamesCons(s[k], s[k + 1..last]);
  }

  method Filter(listing: seq<string>) returns (found: seq<string>)
    requires Distinct(listing)
    ensures Distinct(found) && Names(found) == Snapshots(Names(listing))
  {
    hide IsSnapshot;
    found := [];
    for k := 0 to |listing|
      invariant Distinct(found) && Names(found) == set x | x in listing[..k] && IsSnapshot(x)
    {
      assert listing[..k + 1] == listing[..k] + [listing[k]];
      if IsSnapshot(listing[k]) {
        AddName(found, listing[k]);
        assert listing[k] !in Names(found);
        found := found + [listing[k]];
      }
    }
    assert listing[..|listing|] == listing;
  }

  lemma AddName(s: seq<string>, x: string)
    ensures Names(s + [x]) == Names(s) + {x}
    ensures Distinct(s) && x !in Names(s) ==> Distinct(s + [x])
  {
    assert forall y :: y in s + [x] <==> y in s || y == x;
  }

  lemma Listed(listing: seq<string>, k: nat)
    requires k < |listing|
    ensures listing[k] in Names(listing)
  {
  }

  /** What is left of a directory. */
  function Without(entries: map<string, bool>, gone: set<string>): map<string, bool> {
    entries - gone
  }

  lemma WithoutNone(entries: map<string, bool>)
    ensures Without(entries, {}) == entries
  {
  }

  lemma RemoveOne(entries: map<string, bool>, gone: set<string>, x: string)
    requires x in entries && x !in gone
    ensures x in Without(entries, gone) && Without(entries, gone)[x] == entries[x]
    ensures Without(entries, gone + {x}) == Without(entries, gone) - {x}
    ensures |Without(entries, gone + {x})| == |Without(entries, gone)| - 1
  {
    var rest := entries - gone;
    assert (rest - {x}).Keys == rest.Keys - {x};
    assert |rest - {x}| == |(rest - {x}).Keys| && |rest| == |rest.Keys|;
  }

  lemma FrontStep(s: seq<string>, k: nat)
    requires Ascending(s) && k < |s|
    ensures Names(s[..k + 1]) == Names(s[..k]) + {s[k]} && s[k] !in Names(s[..k])
  {
    assert s[..k + 1] == s[..k] + [s[k]];
    AddName(s[..k], s[k]);
    LessIrreflexive(s[k]);
  }

  lemma FrontIsOld(s: seq<string>, keep: nat)
    requires Ascending(s)
    ensures Names(s[..|s| - Min(keep, |s|)]) == Names(s) - Newest(Names(s), keep)
  {
    hide Less, Newest;
    EndIsNewest(s, keep);
    var cut := |s| - Min(keep, |s|);
    assert s == s[..cut] + s[cut..];
    assert forall x :: x in s <==> x in s[..cut] || x in s[cut..];
    forall x | x in s[..cut] ensures x !in s[cut..] {
      LessIrreflexive(x);
    }
  }

  lemma NoneAmong(entries: map<string, bool>, listing: seq<string>)
    ensures Among(entries, listing, 0, IsStamp) == {} == Among(entries, listing, 0, IsTemporary)
  {
  }

  lemma AllAmong(entries: map<string, bool>, listing: seq<string>)
    requires Names(listing) == entries.Keys
    ensures Among(entries, listing, |listing|, IsStamp) == Directories(entries, IsStamp)
    ensures Among(entries, listing, |listing|, IsTemporary) == Directories(entries, IsTemporary)
  {
    hide IsStamp, IsTemporary;
    assert listing[..|listing|] == listing;
    assert forall x :: x in Names(listing) <==> x in listing;
  }

  /** Removing the temporary directories removes no copy. */
  lemma StampsStay(entries: map<string, bool>)
    ensures Directories(entries, IsStamp) <= (entries - Directories(entries, IsTemporary)).Keys
  {
    forall x | x in Directories(entries, IsStamp) ensures x !in Directories(entries, IsTemporary) {
      Exclusive(x);
    }
  }

  /** The directories of a kind among the first names of a listing. */
  function Among(entries: map<string, bool>, listing: seq<string>, k: nat, kind: string -> bool): set<string>
    requires k <= |listing|
  {
    set x | x in listing[..k] && x in entries && entries[x] && kind(x)
  }

  lemma AmongStep(entries: map<string, bool>, listing: seq<string>, k: nat, kind: string -> bool)
    requires k < |listing| && Distinct(listing)
    ensures var x := listing[k];
            if x in entries && entries[x] && kind(x)
            then Among(entries, listing, k + 1, kind) == Among(entries, listing, k, kind) + {x}
            else Among(entries, listing, k + 1, kind) == Among(entries, listing, k, kind)
    ensures listing[k] !in Among(entries, listing, k, kind)
  {
    assert listing[..k + 1] == listing[..k] + [listing[k]];
  }

  lemma Exclusive(name: string)
    ensures !(IsTemporary(name) && IsStamp(name))
  {
    if IsStamp(name) {
      assert StampChar(name[0]);
    }
  }

  // ------------------------------------------------------------------------------------
  // The newest names are the newest in time

  function CopyNames(times: set<nat>): set<string> {
    set t | t in times :: Stamp(t)
  }

  /** Every copy that pruning keeps is newer than every copy it removes, and none younger is missed. */
  lemma CopiesKeptAreNewest(times: set<nat>, keep: nat)
    requires forall t :: t in times ==> FourDigitYear(t)
    ensures var kept := Newest(CopyNames(times), keep);
            && |kept| == Min(keep, |CopyNames(times)|)
            && (forall a, b :: a in times && b in times && Stamp(a) in kept && Stamp(b) !in kept ==> b / 1000 < a / 1000)
  {
    hide Stamp, IsStamp, Less, Newest;
    var names := CopyNames(times);
    var kept := Newest(names, keep);
    NewestAre(names, keep);
    forall a, b | a in times && b in times && Stamp(a) in kept && Stamp(b) !in kept ensures b / 1000 < a / 1000 {
      assert Stamp(b) in names - kept;
      CopiesSortByTime(b, a);
    }
  }

  function SnapshotNames(taken: set<Snapshot>): set<string> {
    set s | s in taken :: SnapshotName(s)
  }

  /** A snapshot before a handoff and, later in the same second, one after a handoff. */
  predicate SameSecond(a: Snapshot, b: Snapshot) {
    a.moment.BeforeHandoff? && b.moment.AfterHandoff? && a.millis <= b.millis && a.millis / 1000 == b.millis / 1000
  }

  lemma SameName(a: Snapshot, b: Snapshot)
    requires FourDigitYear(a.millis) && FourDigitYear(b.millis)
    requires a.millis / 1000 == b.millis / 1000 && a.moment == b.moment
    ensures SnapshotName(a) == SnapshotName(b)
  {
    hide TimeText;
    StampsEqual(':', a.millis, b.millis);
  }

  /** Of a pair taken in one second, the snapshot before the handoff is the next name after the other's. */
  lemma PairIsAdjacent(taken: set<Snapshot>, a: Snapshot, b: Snapshot)
    requires forall s :: s in taken ==> FourDigitYear(s.millis)
    requires a in taken && b in taken && SameSecond(a, b)
    ensures var names := SnapshotNames(taken);
            |After(SnapshotName(b), names)| == |After(SnapshotName(a), names)| + 1
  {
    hide SnapshotName, Less, FourDigitYear;
    var names := SnapshotNames(taken);
    var x, y := After(SnapshotName(a), names), After(SnapshotName(b), names);
    SnapshotOrder(a, a);
    SnapshotOrder(b, a);
    forall c | c in taken ensures Less(SnapshotName(b), SnapshotName(c)) <==> Less(SnapshotName(a), SnapshotName(c)) || SnapshotName(c) == SnapshotName(a) {
      SnapshotOrder(a, c);
      SnapshotOrder(b, c);
      if c.millis / 1000 == a.millis / 1000 && c.moment == a.moment {
        SameName(a, c);
      }
    }
    assert y == x + {SnapshotName(a)};
  }

  /** Every snapshot kept is newer than every snapshot removed. */
  predicate KeepsTheNewest(taken: set<Snapshot>, keep: nat) {
    var kept := Newest(SnapshotNames(taken), 2 * keep);
    forall a, b :: a in taken && b in taken && SnapshotName(a) in kept && SnapshotName(b) !in kept ==> b.millis < a.millis
  }

  /** A pair taken in one second of which exactly the first has its name among the last ones. */
  predicate PairIsParted(taken: set<Snapshot>, keep: nat, a: Snapshot, b: Snapshot) {
    a in taken && b in taken && SameSecond(a, b) && |After(SnapshotName(a), SnapshotNames(taken))| == 2 * keep - 1
  }

  lemma PartedMeans(taken: set<Snapshot>, keep: nat, a: Snapshot, b: Snapshot)
    requires forall s :: s in taken ==> FourDigitYear(s.millis)
    requires a in taken && b in taken
    ensures var kept := Newest(SnapshotNames(taken), 2 * keep);
            SnapshotName(a) in kept && SnapshotName(b) !in kept && a.millis <= b.millis <==> PairIsParted(taken, keep, a, b)
  {
    hide SnapshotName, Less, FourDigitYear, After;
    var names := SnapshotNames(taken);
    if SameSecond(a, b) {
      PairIsAdjacent(taken, a, b);
    } else if SnapshotName(a) in Newest(names, 2 * keep) && SnapshotName(b) !in Newest(names, 2 * keep) {
      NewestAre(names, 2 * keep);
      assert SnapshotName(b) in names - Newest(names, 2 * keep);
      SnapshotOrder(b, a);
    }
  }

  /**
    Pruning keeps the newest snapshots, if and only if it does not part a pair taken in one
    second: one before a handoff and, no earlier, one after a handoff, with exactly `2 * keep - 1`
    names after the first.
   */
  lemma SnapshotsKeptAreNewest(taken: set<Snapshot>, keep: nat)
    requires forall s :: s in taken ==> FourDigitYear(s.millis)
    ensures KeepsTheNewest(taken, keep) <==> !exists a, b :: PairIsParted(taken, keep, a, b)
  {
    hide SnapshotName, Less, FourDigitYear, After, Newest, SameSecond, SnapshotNames;
    forall a, b | a in taken && b in taken
      ensures var kept := Newest(SnapshotNames(taken), 2 * keep);
              SnapshotName(a) in kept && SnapshotName(b) !in kept && a.millis <= b.millis <==> PairIsParted(taken, keep, a, b)
    {
      PartedMeans(taken, keep, a, b);
    }
  }

  /** The exception happens: with one rotation kept, the newer of two snapshots is removed. */
  lemma NewerSnapshotLost()
    ensures var before, after, next := Snapshot(0, BeforeHandoff), Snapshot(1, AfterHandoff), Snapshot(1000, BeforeHandoff);
            var kept := Newest(SnapshotNames({before, after, next}), 2 * 1);
            SnapshotName(before) in kept && SnapshotName(after) !in kept && SameSecond(before, after)
  {
    hide SnapshotName, Less;
    var before, after, next := Snapshot(0, BeforeHandoff), Snapshot(1, AfterHandoff), Snapshot(1000, BeforeHandoff);
    var names := SnapshotNames({before, after, next});
    var x, y, z := SnapshotName(before), SnapshotName(after), SnapshotName(next);
    SnapshotOrder(before, after);
    SnapshotOrder(after, before);
    SnapshotOrder(before, next);
    SnapshotOrder(after, next);
    SnapshotOrder(before, before);
    SnapshotOrder(after, after);
    SnapshotOrder(next, next);
    assert names == {x, y, z};
    assert x != z;
    assert After(x, names) == {z};
    assert After(y, names) == {x, z};
  }

  // ------------------------------------------------------------------------------------
  // Which names are meant

  lemma EndsWithIs(name: string, suffix: string)
    ensures EndsWith(name, suffix) <==> exists stem :: name == stem + suffix
  {
    if EndsWith(name, suffix) {
      assert name == name[..|name| - |suffix|] + suffix;
    }
  }

  /** A snapshot is what ends in one of the two moments; every one that is taken does. */
  lemma SnapshotsAre(name: string, s: Snapshot)
    ensures IsSnapshot(name) <==> exists stem, moment :: name == stem + MomentText(moment)
    ensures IsSnapshot(SnapshotName(s))
  {
    hide EndsWith, Rfc3339;
    EndsWithIs(name, MomentText(BeforeHandoff));
    EndsWithIs(name, MomentText(AfterHandoff));
    EndsWithIs(SnapshotName(s), MomentText(s.moment));
    assert SnapshotName(s) == Rfc3339(s.millis) + MomentText(s.moment);
  }

  /** What is temporary is a name between a dot and `.tmp`, as a copy has it while it is made. */
  lemma TemporariesAre(name: string, millis: nat)
    ensures IsTemporary(name) <==> name == ".tmp" || exists stem :: name == "." + stem + ".tmp"
    ensures IsTemporary("." + Stamp(millis) + ".tmp") && !IsSnapshot("." + Stamp(millis) + ".tmp")
  {
    hide Stamp;
    if IsTemporary(name) && name != ".tmp" {
      assert name[0..] == name;
      assert name == "." + name[1..|name| - 4] + ".tmp";
    }
    var made := "." + Stamp(millis) + ".tmp";
    assert made[|made| - 4..] == ".tmp";
    assert Last(made) == 'p' && Last("-before-handoff") == 'f' == Last("-after-handoff");
  }
}
