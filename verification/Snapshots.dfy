/** The versioned snapshot directory of one session: what a crash at any moment leaves behind and what reopening
    finds. */
module Snapshots {
  import opened Basics

  // ---------- Names and their order ----------

  /** Millisecond stamp and random nonce; a nonce has a fixed number of hexadecimal digits, so its text orders like its
      value. */
  datatype Name = Name(stamp: nat, nonce: nat)

  predicate Less(a: Name, b: Name) {
    a.stamp < b.stamp || (a.stamp == b.stamp && a.nonce < b.nonce)
  }

  function Pow10(n: nat): nat {
    if n == 0 then 1 else 10 * Pow10(n - 1)
  }

  /** Decimal digits, zero-padded to the width. */
  function Padded(n: nat, width: nat): seq<nat> {
    if width == 0 then [] else Padded(n / 10, width - 1) + [n % 10]
  }

  predicate TextLess(a: seq<nat>, b: seq<nat>) {
    if a == [] then b != []
    else b != [] && (a[0] < b[0] || (a[0] == b[0] && TextLess(a[1..], b[1..])))
  }

  lemma {:induction false} TextLessSnoc(a: seq<nat>, b: seq<nat>, x: nat, y: nat)
    requires |a| == |b|
    ensures TextLess(a + [x], b + [y]) <==> TextLess(a, b) || (a == b && x < y)
  {
    if a == [] {
      assert b == [] && (a + [x])[1..] == [] && (b + [y])[1..] == [];
    } else {
      assert (a + [x])[1..] == a[1..] + [x] && (b + [y])[1..] == b[1..] + [y];
      TextLessSnoc(a[1..], b[1..], x, y);
      assert a == b <==> a[0] == b[0] && a[1..] == b[1..];
    }
  }

  /** Sorting the padded texts sorts the stamps: twenty digits hold every 64-bit stamp. */
  lemma {:induction false} PaddingKeepsOrder(a: nat, b: nat, width: nat)
    requires a < Pow10(width) && b < Pow10(width)
    ensures |Padded(a, width)| == |Padded(b, width)| == width
    ensures TextLess(Padded(a, width), Padded(b, width)) <==> a < b
    ensures Padded(a, width) == Padded(b, width) <==> a == b
  {
    if width > 0 {
      PaddingKeepsOrder(a / 10, b / 10, width - 1);
      TextLessSnoc(Padded(a / 10, width - 1), Padded(b / 10, width - 1), a % 10, b % 10);
      var p, q := Padded(a, width), Padded(b, width);
      assert p[..width - 1] == Padded(a / 10, width - 1) && q[..width - 1] == Padded(b / 10, width - 1);
      assert p[width - 1] == a % 10 && q[width - 1] == b % 10;
    }
  }

  // ---------- Directory contents ----------

  datatype File = Snapshot(name: Name) | Temporary(name: Name)

  datatype Content<+S> = Torn | Whole(session: S)

  type Directory<S> = map<File, Content<S>>

  predicate Readable<S>(files: Directory<S>, n: Name) {
    Snapshot(n) in files && files[Snapshot(n)].Whole?
  }

  /** Reopening this directory finds exactly this snapshot: the newest one that can be read. */
  ghost predicate Recovers<S>(files: Directory<S>, n: Name, session: S) {
    && Snapshot(n) in files && files[Snapshot(n)] == Whole(session)
    && forall m :: Readable(files, m) && m != n ==> Less(m, n)
  }

  ghost predicate SameSnapshots<S>(a: Directory<S>, b: Directory<S>) {
    forall n :: (Snapshot(n) in a <==> Snapshot(n) in b) && (Snapshot(n) in a ==> a[Snapshot(n)] == b[Snapshot(n)])
  }

  /** No stamp is reused and the clock does not run backwards: the name sorts behind every snapshot there is. */
  ghost predicate Newest<S>(files: Directory<S>, name: Name) {
    forall m :: Snapshot(m) in files ==> Less(m, name)
  }

  ghost predicate IsNewest<S>(files: Directory<S>, n: Name) {
    Snapshot(n) in files && forall m :: Snapshot(m) in files ==> m == n || Less(m, n)
  }

  function Names<S>(files: Directory<S>): set<Name> {
    set f <- files | f.Snapshot? :: f.name
  }

  ghost predicate Sorted(names: seq<Name>) {
    forall i, j :: 0 <= i < j < |names| ==> Less(names[i], names[j])
  }

  /** Where a save can go wrong before its end. */
  datatype Fault = NoFault | WriteFails | RenameFails | ListingFails

  class SnapshotDir<S> {
    var files: Directory<S>
    /** Every state the disk has been in: a crash leaves one of them. */
    ghost var trail: seq<Directory<S>>

    constructor ()
      ensures files == map[] && trail == [map[]]
    {
      files, trail := map[], [map[]];
    }

    /** Writing a file is not atomic: for a while it is torn. */
    method Write(f: File, session: S, complete: bool)
      modifies this
      ensures files == old(files)[f := if complete then Whole(session) else Torn]
      ensures trail == old(trail) + if complete then [old(files)[f := Torn], files] else [files]
    {
      files := files[f := Torn];
      trail := trail + [files];
      if complete {
        files := files[f := Whole(session)];
        trail := trail + [files];
      }
    }

    /** Renaming is atomic. */
    method Rename(from: File, to: File)
      requires from in files && from != to
      modifies this
      ensures files == (old(files) - {from})[to := old(files)[from]]
      ensures trail == old(trail) + [files]
    {
      files := (files - {from})[to := files[from]];
      trail := trail + [files];
    }

    method Remove(f: File)
      modifies this
      ensures files == old(files) - {f} && trail == old(trail) + [files]
    {
      files := files - {f};
      trail := trail + [files];
    }

    method SortedNames() returns (names: seq<Name>)
      ensures Sorted(names)
      ensures forall n :: n in names <==> Snapshot(n) in files
    {
      names := [];
      var rest := Names(files);
      while rest != {}
        invariant Sorted(names)
        invariant rest <= Names(files)
        invariant forall n :: n in names <==> n in Names(files) - rest
        decreases |rest|
      {
        var n :| n in rest;
        var i := 0;
        while i < |names| && Less(names[i], n)
          invariant 0 <= i <= |names|
          invariant forall j :: 0 <= j < i ==> Less(names[j], n)
        {
          i := i + 1;
        }
        InsertKeepsSorted(names, i, n);
        names := names[..i] + [n] + names[i..];
        rest := rest - {n};
      }
    }

    /** Read the snapshots from the newest name back and take the first that can be read. */
    method LoadLatest() returns (session: Option<S>)
      ensures session.Some? ==> exists n :: Recovers(files, n, session.value)
      ensures session.None? <==> forall n :: !Readable(files, n)
      ensures forall n, found {:trigger Recovers(files, n, found)} ::
                Recovers(files, n, found) ==> session == Some(found)
    {
      var names := SortedNames();
      var i := |names|;
      while i > 0
        invariant 0 <= i <= |names|
        invariant forall j :: i <= j < |names| ==> !Readable(files, names[j])
      {
        i := i - 1;
        if files[Snapshot(names[i])].Whole? {
          session := Some(files[Snapshot(names[i])].session);
          LastReadableIsRecovered(files, names, i);
          return;
        }
      }
      NothingReadable(files, names);
      session := None;
    }

    /** Remove all but the two newest snapshots; `stuck` are snapshots that cannot be removed. */
    method Prune(stuck: set<Name>)
      requires trail != [] && trail[|trail| - 1] == files
      modifies this
      ensures old(trail) <= trail && trail[|trail| - 1] == files
      ensures forall k :: |old(trail)| <= k < |trail| ==> OnlyPruned(old(files), trail[k])
      ensures OnlyPruned(old(files), files)
      ensures stuck == {} ==> NoneOutdated(old(files), files)
    {
      ghost var full, from := files, |trail|;
      var names := SortedNames();
      var cut := Monus(|names|, 2);
      PrunedAreOutdated(names, full);
      var i := 0;
      while i < cut
        invariant i <= cut
        invariant old(trail) <= trail && trail[|trail| - 1] == files
        invariant PrunedFrom(full, trail, from) && OnlyPruned(full, files)
        invariant stuck == {} ==> Gone(files, names[..i])
      {
        ghost var before := files;
        if names[i] !in stuck {
          assert names[..cut][i] == names[i];
          PruneOneMore(full, files, names[i]);
          PrunedGrows(full, trail, from, files - {Snapshot(names[i])});
          Remove(Snapshot(names[i]));
        }
        assert names[..i + 1] == names[..i] + [names[i]];
        i := i + 1;
      }
      if stuck == {} {
        AllOutdatedAreGone(names, full, files);
      }
    }

    /** Write a temporary file, rename it into place, prune. With a name behind all others, a crash at any
        point, or a fault, leaves a directory that reopens to the previous snapshot until the rename and to
        the new one from then on. */
    method Save(session: S, name: Name, fault: Fault, stuck: set<Name>) returns (ok: bool, ghost committed: nat)
      requires Snapshot(name) !in files
      modifies this
      ensures ok <==> fault.NoFault?
      ensures |old(trail)| < committed <= |trail| && old(trail) <= trail && trail[|trail| - 1] == files
      ensures fault.WriteFails? || fault.RenameFails? <==> committed == |trail|
      ensures forall i :: |old(trail)| <= i < committed ==> SameSnapshots(old(files), trail[i])
      ensures old(Newest(files, name)) ==> forall i :: committed <= i < |trail| ==> Recovers(trail[i], name, session)
      ensures SavePath(old(files), name, session, trail[|old(trail)|..], committed - |old(trail)|)
      ensures ok && stuck == {} ==> Saved(old(files), name, session, files)
    {
      Write(Temporary(name), session, !fault.WriteFails?);
      committed := |trail|;
      if fault.WriteFails? || fault.RenameFails? {
        return false, committed;
      }
      Rename(Temporary(name), Snapshot(name));
      ghost var full := files;
      assert SameSnapshots(full, old(files)[Snapshot(name) := Whole(session)]);
      if fault.ListingFails? {
        return false, committed;
      }
      Prune(stuck);
      ok := true;
      forall d | OnlyPruned(full, d)
        ensures OnlyPruned(old(files)[Snapshot(name) := Whole(session)], d)
      {
        SamePruning(full, old(files)[Snapshot(name) := Whole(session)], d);
      }
      SavedFrom(old(files), name, session, full, files);
      forall d | OnlyPruned(full, d) && old(Newest(files, name))
        ensures Recovers(d, name, session)
      {
        NewestSurvivesPruning(full, name, session, d);
      }
    }
  }

  /** Nothing but outdated snapshots has been removed. */
  ghost predicate OnlyPruned<S>(full: Directory<S>, files: Directory<S>) {
    forall n {:trigger Snapshot(n) in files} ::
      && (Snapshot(n) in files ==> Snapshot(n) in full && files[Snapshot(n)] == full[Snapshot(n)])
      && (Snapshot(n) in full && !Outdated(full, n) ==> Snapshot(n) in files)
  }

  lemma LastReadableIsRecovered<S>(files: Directory<S>, names: seq<Name>, i: nat)
    requires Sorted(names) && forall n :: n in names <==> Snapshot(n) in files
    requires i < |names| && Readable(files, names[i])
    requires forall j :: i < j < |names| ==> !Readable(files, names[j])
    ensures Recovers(files, names[i], files[Snapshot(names[i])].session)
    ensures forall n, found {:trigger Recovers(files, n, found)} ::
      Recovers(files, n, found) ==> found == files[Snapshot(names[i])].session
  {
    forall m | Readable(files, m) && m != names[i]
      ensures Less(m, names[i])
    {
      var j :| 0 <= j < |names| && names[j] == m;
      assert j < i;
    }
    forall n, found | Recovers(files, n, found)
      ensures found == files[Snapshot(names[i])].session
    {
      assert n != names[i] ==> Less(n, names[i]) && Less(names[i], n);
    }
  }

  lemma NothingReadable<S>(files: Directory<S>, names: seq<Name>)
    requires forall n :: n in names <==> Snapshot(n) in files
    requires forall j :: 0 <= j < |names| ==> !Readable(files, names[j])
    ensures forall n :: !Readable(files, n)
  {
    forall n ensures !Readable(files, n) {
      if Snapshot(n) in files {
        assert n in names;
      }
    }
  }

  /** What a save does step by step: up to its rename the snapshots are the old ones, and from then on the
      new one is there too and only outdated ones are removed. A fault ends the path early. */
  ghost predicate SavePath<S>(before: Directory<S>, name: Name, session: S, path: seq<Directory<S>>, committed: nat) {
    && 0 < committed <= |path|
    && (forall i :: 0 <= i < committed ==> SameSnapshots(before, path[i]))
    && (forall i :: committed <= i < |path| ==> OnlyPruned(before[Snapshot(name) := Whole(session)], path[i]))
  }

  lemma SamePruning<S>(a: Directory<S>, b: Directory<S>, files: Directory<S>)
    requires SameSnapshots(a, b) && OnlyPruned(a, files)
    ensures OnlyPruned(b, files)
  {
    assert forall n :: Outdated(a, n) <==> Outdated(b, n);
  }

  lemma NewestSurvivesPruning<S>(full: Directory<S>, name: Name, session: S, files: Directory<S>)
    requires OnlyPruned(full, files)
    requires Snapshot(name) in full && full[Snapshot(name)] == Whole(session)
    requires forall m :: Snapshot(m) in full ==> m == name || Less(m, name)
    ensures Recovers(files, name, session)
  {
    assert !Outdated(full, name);
    assert Snapshot(name) in files;
    assert forall m :: Readable(files, m) ==> Snapshot(m) in full;
  }

  ghost predicate PrunedFrom<S>(full: Directory<S>, trail: seq<Directory<S>>, from: nat) {
    forall k :: from <= k < |trail| ==> OnlyPruned(full, trail[k])
  }

  ghost predicate NoneOutdated<S>(full: Directory<S>, files: Directory<S>) {
    forall n {:trigger Snapshot(n) in files} :: Snapshot(n) in files ==> !Outdated(full, n)
  }

  ghost predicate Gone<S>(files: Directory<S>, names: seq<Name>) {
    forall n {:trigger Snapshot(n) in files} :: n in names ==> Snapshot(n) !in files
  }

  lemma PruneOneMore<S>(full: Directory<S>, files: Directory<S>, n: Name)
    requires OnlyPruned(full, files) && Outdated(full, n)
    ensures OnlyPruned(full, files - {Snapshot(n)})
  {
  }

  lemma PrunedGrows<S>(full: Directory<S>, trail: seq<Directory<S>>, from: nat, next: Directory<S>)
    requires PrunedFrom(full, trail, from) && OnlyPruned(full, next)
    ensures PrunedFrom(full, trail + [next], from)
  {
  }

  lemma AllOutdatedAreGone<S>(names: seq<Name>, full: Directory<S>, files: Directory<S>)
    requires Sorted(names) && forall n :: n in names <==> Snapshot(n) in full
    requires OnlyPruned(full, files) && Gone(files, names[..Monus(|names|, 2)])
    ensures NoneOutdated(full, files)
  {
    OutdatedArePruned(names, full);
    forall n | Snapshot(n) in files
      ensures !Outdated(full, n)
    {
      assert Snapshot(n) in full && n in names;
      assert n !in names[..Monus(|names|, 2)];
    }
  }

  /** Pruning all but the last two of the sorted names removes only outdated ones, and all of them. */
  lemma PrunedAreOutdated<S>(names: seq<Name>, files: Directory<S>)
    requires Sorted(names)
    requires forall n :: n in names <==> Snapshot(n) in files
    ensures forall n :: n in names[..Monus(|names|, 2)] ==> Outdated(files, n)
  {
    forall n | n in names[..Monus(|names|, 2)]
      ensures Outdated(files, n)
    {
      var a, b := names[|names| - 2], names[|names| - 1];
      assert a in names && b in names && Less(n, a) && Less(a, b);
    }
  }

  lemma OutdatedArePruned<S>(names: seq<Name>, files: Directory<S>)
    requires Sorted(names)
    requires forall n :: n in names <==> Snapshot(n) in files
    ensures forall n :: n in names && Outdated(files, n) ==> n in names[..Monus(|names|, 2)]
  {
    forall n | n in names && Outdated(files, n)
      ensures n in names[..Monus(|names|, 2)]
    {
      var a, b :| Less(n, a) && Less(a, b) && Snapshot(a) in files && Snapshot(b) in files;
      ThreeInOrder(names, n, a, b);
    }
  }

  lemma ThreeInOrder(names: seq<Name>, n: Name, a: Name, b: Name)
    requires Sorted(names) && n in names && a in names && b in names
    requires Less(n, a) && Less(a, b)
    ensures n in names[..Monus(|names|, 2)]
  {
    var i :| 0 <= i < |names| && names[i] == n;
    var j :| 0 <= j < |names| && names[j] == a;
    var k :| 0 <= k < |names| && names[k] == b;
    assert i < j < k;
    assert names[..Monus(|names|, 2)][i] == n;
  }

  lemma SavedFrom<S>(before: Directory<S>, name: Name, session: S, full: Directory<S>, files: Directory<S>)
    requires SameSnapshots(full, before[Snapshot(name) := Whole(session)])
    requires OnlyPruned(full, files)
    ensures NoneOutdated(full, files) ==> Saved(before, name, session, files)
  {
    var whole := before[Snapshot(name) := Whole(session)];
    assert forall n :: Outdated(whole, n) <==> Outdated(full, n);
  }

  lemma InsertKeepsSorted(names: seq<Name>, i: nat, n: Name)
    requires Sorted(names) && i <= |names| && n !in names
    requires forall j :: 0 <= j < i ==> Less(names[j], n)
    requires i < |names| ==> !Less(names[i], n)
    ensures Sorted(names[..i] + [n] + names[i..])
    ensures forall m :: m in names[..i] + [n] + names[i..] <==> m == n || m in names
  {
    forall j | i <= j < |names|
      ensures Less(n, names[j])
    {
      assert names[i] in names && Less(n, names[i]);
    }
    assert names == names[..i] + names[i..];
  }

  // ---------- Whole saves, without faults ----------

  /** Snapshots with at least two newer ones are pruned. */
  ghost predicate Outdated<S>(files: Directory<S>, n: Name) {
    exists a, b :: Less(n, a) && Less(a, b) && Snapshot(a) in files && Snapshot(b) in files
  }

  ghost predicate Clean<S>(files: Directory<S>) {
    forall n :: Snapshot(n) in files ==> Readable(files, n)
  }

  /** What a completed save leaves, whatever the name it drew. */
  ghost predicate Saved<S>(before: Directory<S>, name: Name, session: S, files: Directory<S>) {
    var full := before[Snapshot(name) := Whole(session)];
    forall n {:trigger Snapshot(n) in files} ::
      && (Snapshot(n) in files <==> Snapshot(n) in full && !Outdated(full, n))
      && (Snapshot(n) in files ==> files[Snapshot(n)] == full[Snapshot(n)])
  }

  lemma NewestSaveIsRecovered<S>(before: Directory<S>, name: Name, session: S, files: Directory<S>)
    requires Newest(before, name) && Saved(before, name, session, files)
    ensures Recovers(files, name, session)
  {
    var full := before[Snapshot(name) := Whole(session)];
    assert forall m :: Snapshot(m) in full ==> m == name || Less(m, name);
    assert !Outdated(full, name);
    assert Snapshot(name) in files && files[Snapshot(name)] == full[Snapshot(name)];
    forall m | Readable(files, m) && m != name
      ensures Less(m, name)
    {
      assert Snapshot(m) in full;
    }
  }

  lemma OlderSaveIsNotRecovered<S>(before: Directory<S>, name: Name, session: S, files: Directory<S>)
    requires Clean(before) && Snapshot(name) !in before && !Newest(before, name)
    requires Saved(before, name, session, files)
    ensures !Recovers(files, name, session)
  {
    var full := before[Snapshot(name) := Whole(session)];
    var m :| Snapshot(m) in before && !Less(m, name);
    assert Less(name, m);
    var top := Greatest(full, m);
    assert !Outdated(full, top);
    assert Snapshot(top) in files && files[Snapshot(top)] == full[Snapshot(top)];
    assert top != name && Readable(before, top) && Readable(files, top);
  }

  /** A completed save is what reopening finds exactly when its name sorts behind every other snapshot:
      a clock that ran back, or a smaller nonce within one millisecond, makes reopening return an older session. */
  lemma SaveIsRecoveredIff<S>(before: Directory<S>, name: Name, session: S, files: Directory<S>)
    requires Clean(before) && Snapshot(name) !in before
    requires Saved(before, name, session, files)
    ensures Recovers(files, name, session) <==> Newest(before, name)
  {
    if Newest(before, name) {
      NewestSaveIsRecovered(before, name, session, files);
    } else {
      OlderSaveIsNotRecovered(before, name, session, files);
    }
  }

  /** Above any snapshot there is one with nothing above it. */
  lemma Greatest<S>(files: Directory<S>, n: Name) returns (top: Name)
    requires Snapshot(n) in files
    ensures IsNewest(files, top) && (top == n || Less(n, top))
    decreases |set m | m in Names(files) && Less(n, m)|
  {
    if m :| m in Names(files) && Less(n, m) {
      var above_n := set k | k in Names(files) && Less(n, k);
      var above_m := set k | k in Names(files) && Less(m, k);
      assert above_m <= above_n && m in above_n && m !in above_m;
      SubsetIsSmaller(above_m, above_n);
      top := Greatest(files, m);
    } else {
      top := n;
      assert forall m :: Snapshot(m) in files ==> m in Names(files);
    }
  }

  lemma SubsetIsSmaller<T>(a: set<T>, b: set<T>)
    requires a < b
    ensures |a| < |b|
  {
    assert b == a + (b - a);
    assert a !! (b - a);
  }

  lemma PreviousIsNotOutdated<S>(before: Directory<S>, last: Name, name: Name, session: S)
    requires Newest(before, name) && IsNewest(before, last)
    ensures !Outdated(before[Snapshot(name) := Whole(session)], last)
  {
    var full := before[Snapshot(name) := Whole(session)];
    assert forall a :: Snapshot(a) in full && Less(last, a) ==> a == name;
  }

  /** Keeping two is enough against power loss: when the newest snapshot turns out torn, reopening finds the one before
      it. */
  lemma PowerLossFallsBack<S>(before: Directory<S>, last: Name, previous: S, name: Name, session: S,
                              files: Directory<S>)
    requires Clean(before) && Recovers(before, last, previous) && Newest(before, name)
    requires Saved(before, name, session, files)
    ensures Recovers(files[Snapshot(name) := Torn], last, previous)
  {
    var full := before[Snapshot(name) := Whole(session)];
    var torn := files[Snapshot(name) := Torn];
    assert forall m :: Snapshot(m) in before ==> Readable(before, m);
    PreviousIsNotOutdated(before, last, name, session);
    assert Snapshot(last) in full && Snapshot(last) in files && files[Snapshot(last)] == full[Snapshot(last)];
    forall m | Readable(torn, m)
      ensures m == last || Less(m, last)
    {
      assert m != name && Snapshot(m) in files && Snapshot(m) in full;
      assert Readable(before, m);
    }
  }

  // ---------- Histories: saves, faults, crashes and restarts ----------

  /** One attempt to save. The disk goes through the directories of `path` up to its rename and beyond; after
      `steps` of them the process crashes, or the save is over, and what is there then is what comes next. */
  datatype Attempt<S> = Attempt(name: Name, session: S, path: seq<Directory<S>>, committed: nat, steps: nat)

  /** The directory that a history of attempts leaves, starting from an empty one. */
  function Left<S>(history: seq<Attempt<S>>): Directory<S> {
    if history == [] then map[]
    else
      var last := history[|history| - 1];
      if 0 < last.steps <= |last.path| then last.path[last.steps - 1] else Left(history[..|history| - 1])
  }

  /** Stamps are never reused and the clock never runs back. */
  ghost predicate NamesIncrease<S>(history: seq<Attempt<S>>) {
    forall i, j :: 0 <= i < j < |history| ==> Less(history[i].name, history[j].name)
  }

  ghost predicate IsAttempt<S>(before: Directory<S>, a: Attempt<S>) {
    a.steps <= |a.path| && SavePath(before, a.name, a.session, a.path, a.committed)
  }

  /** Every attempt is a save from the directory the earlier ones left, with any fault, any snapshots that
      cannot be removed, and a crash after any step. */
  ghost predicate IsHistory<S>(history: seq<Attempt<S>>) {
    && NamesIncrease(history)
    && forall i :: 0 <= i < |history| ==> IsAttempt(Left(history[..i]), history[i])
  }

  /** The attempts that got past their rename. */
  function Renamed<S>(history: seq<Attempt<S>>): seq<Attempt<S>> {
    if history == [] then []
    else
      var last := history[|history| - 1];
      Renamed(history[..|history| - 1]) + if last.steps > last.committed then [last] else []
  }

  /** With increasing names every attempt, whatever became of it, stays behind the next name. */
  lemma IncreasingNamesStayNewest<S>(before: Directory<S>, a: Attempt<S>, i: nat, next: Name)
    requires Clean(before) && Newest(before, a.name) && Less(a.name, next)
    requires SavePath(before, a.name, a.session, a.path, a.committed) && i < |a.path|
    ensures Clean(a.path[i]) && Newest(a.path[i], next)
  {
    var full := before[Snapshot(a.name) := Whole(a.session)];
    forall m | Snapshot(m) in a.path[i]
      ensures Readable(a.path[i], m) && Less(m, next)
    {
      if i < a.committed {
        assert SameSnapshots(before, a.path[i]);
      } else {
        assert OnlyPruned(full, a.path[i]);
        assert Snapshot(m) in full;
      }
    }
  }

  lemma HistoryPrefix<S>(history: seq<Attempt<S>>)
    requires IsHistory(history) && history != []
    ensures IsHistory(history[..|history| - 1])
  {
    var prefix := history[..|history| - 1];
    forall i | 0 <= i < |prefix|
      ensures IsAttempt(Left(prefix[..i]), prefix[i])
    {
      assert prefix[..i] == history[..i] && prefix[i] == history[i];
    }
  }

  lemma {:induction false} HistoryStaysBehind<S>(history: seq<Attempt<S>>, next: Name)
    requires IsHistory(history)
    requires forall i :: 0 <= i < |history| ==> Less(history[i].name, next)
    ensures Clean(Left(history)) && Newest(Left(history), next)
    decreases |history|
  {
    if history != [] {
      var last, prefix := history[|history| - 1], history[..|history| - 1];
      HistoryPrefix(history);
      if last.steps == 0 {
        HistoryStaysBehind(prefix, next);
      } else {
        HistoryStaysBehind(prefix, last.name);
        assert history[..|history| - 1] == prefix;
        IncreasingNamesStayNewest(Left(prefix), last, last.steps - 1, next);
      }
    }
  }

  lemma RenamedIsRecovered<S>(before: Directory<S>, a: Attempt<S>, i: nat)
    requires Newest(before, a.name)
    requires SavePath(before, a.name, a.session, a.path, a.committed) && a.committed <= i < |a.path|
    ensures Recovers(a.path[i], a.name, a.session)
  {
    NewestSurvivesPruning(before[Snapshot(a.name) := Whole(a.session)], a.name, a.session, a.path[i]);
  }

  lemma UnrenamedKeepsSnapshots<S>(before: Directory<S>, a: Attempt<S>, i: nat, n: Name, session: S)
    requires SavePath(before, a.name, a.session, a.path, a.committed) && i < a.committed
    ensures Recovers(before, n, session) ==> Recovers(a.path[i], n, session)
    ensures (forall m :: Snapshot(m) !in before) ==> forall m :: Snapshot(m) !in a.path[i]
  {
    assert SameSnapshots(before, a.path[i]);
  }

  /** With increasing names, over every history of saves, faults, stuck removals, crashes at any step and
      restarts: what reopening finds is exactly the session renamed last, and nothing before the first rename. */
  lemma {:induction false} LastRenamedIsRecovered<S>(history: seq<Attempt<S>>)
    requires IsHistory(history)
    ensures var renamed := Renamed(history);
            if renamed == [] then forall n :: Snapshot(n) !in Left(history)
            else Recovers(Left(history), renamed[|renamed| - 1].name, renamed[|renamed| - 1].session)
    decreases |history|
  {
    if history != [] {
      var last, prefix := history[|history| - 1], history[..|history| - 1];
      HistoryPrefix(history);
      LastRenamedIsRecovered(prefix);
      HistoryStaysBehind(prefix, last.name);
      if last.steps > last.committed {
        RenamedIsRecovered(Left(prefix), last, last.steps - 1);
      } else if last.steps > 0 {
        var renamed := Renamed(prefix);
        if renamed == [] {
          UnrenamedKeepsSnapshots(Left(prefix), last, last.steps - 1, last.name, last.session);
        } else {
          var found := renamed[|renamed| - 1];
          UnrenamedKeepsSnapshots(Left(prefix), last, last.steps - 1, found.name, found.session);
        }
      }
    }
  }

  /** A save without faults that removes nothing. */
  function PlainSave<S>(before: Directory<S>, name: Name, session: S): Attempt<S> {
    Attempt(name, session, [before, before[Snapshot(name) := Whole(session)]], 1, 2)
  }

  lemma PlainSavePath<S>(before: Directory<S>, name: Name, session: S)
    ensures IsAttempt(before, PlainSave(before, name, session))
  {
    var full := before[Snapshot(name) := Whole(session)];
    assert SameSnapshots(before, before) && OnlyPruned(full, full);
  }

  lemma HistoryGrows<S>(history: seq<Attempt<S>>, last: Attempt<S>)
    requires IsHistory(history) && forall i :: 0 <= i < |history| ==> Less(history[i].name, last.name)
    requires IsAttempt(Left(history), last)
    ensures IsHistory(history + [last])
  {
    var more := history + [last];
    forall i | 0 <= i < |more|
      ensures IsAttempt(Left(more[..i]), more[i])
    {
      assert more[..i] == if i < |history| then history[..i] else history;
    }
  }

  /** The history saves these sessions, in order, with these stamps. */
  ghost predicate SavesAll<S>(history: seq<Attempt<S>>, sessions: seq<S>) {
    && IsHistory(history)
    && SessionsOf(Renamed(history)) == sessions
    && forall i :: 0 <= i < |history| ==> history[i].name.stamp < |sessions|
  }

  function SessionsOf<S>(attempts: seq<Attempt<S>>): (sessions: seq<S>)
    ensures |sessions| == |attempts|
    ensures forall i :: 0 <= i < |attempts| ==> sessions[i] == attempts[i].session
  {
    seq(|attempts|, i requires 0 <= i < |attempts| => attempts[i].session)
  }

  lemma RenamedGrows<S>(history: seq<Attempt<S>>, last: Attempt<S>)
    requires last.steps > last.committed
    ensures SessionsOf(Renamed(history + [last])) == SessionsOf(Renamed(history)) + [last.session]
  {
    assert (history + [last])[..|history|] == history;
  }

  lemma OneSaveMore<S>(history: seq<Attempt<S>>, sessions: seq<S>, session: S)
    requires SavesAll(history, sessions)
    ensures SavesAll(history + [PlainSave(Left(history), Name(|sessions|, 0), session)], sessions + [session])
  {
    var name := Name(|sessions|, 0);
    var last := PlainSave(Left(history), name, session);
    PlainSavePath(Left(history), name, session);
    HistoryGrows(history, last);
    RenamedGrows(history, last);
  }

  /** Any sequence of sessions can be saved one after the other. */
  lemma {:induction false} SomeHistory<S>(sessions: seq<S>) returns (history: seq<Attempt<S>>)
    ensures SavesAll(history, sessions)
  {
    if sessions == [] {
      history := [];
    } else {
      var before, last := sessions[..|sessions| - 1], sessions[|sessions| - 1];
      var prefix := SomeHistory(before);
      OneSaveMore(prefix, before, last);
      history := prefix + [PlainSave(Left(prefix), Name(|before|, 0), last)];
      assert sessions == before + [last];
    }
  }
}
