/** A directory that appears under the name of a trashed file: a scan refused for good, from the first scan on. */
module Obstacles {
  import opened Common
  import opened FolderTree
  import opened Paths
  import opened ScanSafety
  import opened Reconciling
  import opened Converging
  import opened Refusing
  import opened Scanning

  /** The scan of the whole workspace that begins then. */
  function At(start: int): Run {
    Run(start, 0, [])
  }

  function Same(name: string): string {
    name
  }

  function AsFile(): Disk {
    map[[] := Listing({"x"}, [], [Entry("x", 1, 1)], {"x"})]
  }

  function Emptied(): Disk {
    map[[] := Listing({}, [], [], {})]
  }

  function AsDirectory(): Disk {
    map[[] := Listing({"x"}, ["x"], [], {"x"}), ["x"] := Listing({}, [], [], {})]
  }

  lemma OneNameFits(l: Listing)
    requires |l.directories| + |l.files| <= 1
    requires (forall d :: d in l.directories ==> d in l.mentioned) && forall e :: e in l.files ==> e.name in l.mentioned
    ensures ListingFits(Same, l)
  {
  }

  lemma DisksFit()
    ensures DiskFits(Same, AsFile()) && DiskFits(Same, Emptied()) && DiskFits(Same, AsDirectory())
  {
    hide ListingFits;
    OneNameFits(AsFile()[[]]);
    OneNameFits(Emptied()[[]]);
    OneNameFits(AsDirectory()[[]]);
    OneNameFits(AsDirectory()[["x"]]);
    assert [] + ["x"] == ["x"];
  }

  lemma NothingHeld(run: Run, disk: Disk, t: Tree, rows: Files)
    requires forall p :: p in disk ==> disk[p].directories == []
    ensures !Held(run, Same, disk, t, rows)
  {
  }

  lemma NoFolders(disk: Disk, done: map<Path, Processed>, t: Tree, t': Tree)
    requires FoldersSoFar(Same, disk, done, t, t') && Extends(t, t')
    requires forall p :: p in disk ==> disk[p].directories == []
    ensures t' == t
  {
  }

  lemma RootOfAll(t: Tree, start: int)
    ensures FolderFor(At(start), Same, t, []) == Some(0) && forall disk: Disk :: Reachable(At(start), disk, [])
  {
    assert At(start).path[0..] == [];
  }

  /** The file is in the index. */
  lemma FileThere(t: Tree, rows: Files)
    requires Converged(At(0), Same, AsFile(), t, rows)
    ensures exists i :: LiveAt(rows, 0, "x", i)
  {
    hide Reachable, FolderFor, HasPlace;
    RootOfAll(t, 0);
    assert SettledPath(At(0), Same, AsFile(), t, rows, []);
    assert Entry("x", 1, 1) in AsFile()[[]].files;
    assert SettledEntry(Same, rows, 0, Entry("x", 1, 1));
    var i :| LiveAt(rows, 0, Same("x"), i);
  }

  /** And then in the trash. */
  lemma FileTrashed(done: map<Path, Processed>, t: Tree, rows: Files, rows': Files, i: nat)
    requires Converged(At(1), Same, Emptied(), t, rows') && AllInPlace(Same, Emptied(), done, rows, rows') && 0 in t
    requires LiveAt(rows, 0, "x", i)
    ensures InTrash(rows', 0, "x", i)
  {
    hide Reachable, FolderFor, LiveDiffer, HasPlace;
    assert InPlace(Same, Emptied(), done, rows[i], rows'[i]);
    assert Above(t, 0, 0);
    NoPlace(t, rows'[i]);
  }

  lemma NoPlace(t: Tree, f: FileRow)
    ensures !HasPlace(At(1), Same, Emptied(), t, f)
  {
    hide Reachable, FolderFor;
  }

  lemma InTheWay(t: Tree, rows: Files, i: nat)
    requires InTrash(rows, 0, "x", i) && t.Keys == {0} && t[0].parent == None
    ensures Obstructed(At(2), Same, AsDirectory(), t, rows)
  {
    hide FolderFor, Reachable;
    RootOfAll(t, 2);
    assert "x" in AsDirectory()[[]].directories && !HasChild(t, 0, Same("x"));
    assert HeldAt(At(2), Same, AsDirectory(), t, rows, [], "x", i);
    assert StaysHeld(At(2), Same, AsDirectory(), t, rows, []);
  }

  // ------------------------------------------------------------------ from the first scan on

  /** A scan, commit by commit. */
  datatype Passage = Passage(run: Run, disk: Disk, states: seq<Scan>, events: seq<Event>)

  ghost predicate Ran(a: Passage, from: Scan, to: Scan) {
    |a.states| > 0 && a.states[0] == StartOf(a.run, from.folder, from.file)
    && Came(a.run, Same, a.disk, a.states, a.events, to)
  }

  /** Nothing left to look at, and nothing left to sweep. */
  ghost predicate Finished(a: Passage, to: Scan) {
    to.frontier == map[] && forall i :: !Unseen(a.run, to, i)
  }

  /** A directory left to look at, whose listing is refused. */
  ghost predicate RefusedAt(a: Passage, to: Scan) {
    exists p :: p in to.frontier && p in a.disk
      && Barred(Same, to.folder, to.file, to.frontier[p], a.disk[p].directories)
  }

  function FirstTree(): Tree {
    map[0 := Folder(0, None, "", "", 0)]
  }

  method New() returns (scanner: Scanner)
    ensures fresh(scanner) && scanner.Fit() && Aged(-1, scanner.file)
    ensures scanner.State() == Scan(FirstTree(), map[], map[], map[], {})
  {
    scanner := new Scanner(FirstTree(), map[], 1, 0);
  }

  /** A scan registers the file `x`, and the next one trashes it. */
  method FileGone() returns (scanner: Scanner, ghost first: Passage, ghost between: Scan, ghost second: Passage)
    ensures fresh(scanner) && first.disk == AsFile() && second.disk == Emptied() && first.run == At(0)
    ensures second.run == At(1)
    ensures Ran(first, Scan(FirstTree(), map[], map[], map[], {}), between) && Finished(first, between)
    ensures Ran(second, between, scanner.State()) && Finished(second, scanner.State())
    ensures scanner.Fit() && 0 in scanner.folder && Aged(1, scanner.file)
    ensures Obstructed(At(2), Same, AsDirectory(), scanner.folder, scanner.file)
  {
    hide DiskFits, Converged, Obstructed, Held, FoldersSoFar, AllInPlace, Extends, LiveDiffer, Housed, Fresh, Aged,
      Barred, Reachable, StaysPut,
      Came, Linked, SiblingsDiffer, Unseen;
    DisksFit();
    scanner := New();
    var ok, tally, trashed;
    ghost var states, events;
    NothingHeld(At(0), AsFile(), FirstTree(), map[]);
    AgedIsFresh(-1, At(0), scanner.file);
    AgedLater(-1, 0, scanner.file);
    ok, tally, trashed, states, events := scanner.RunScan(At(0), Same, AsFile(), 0, []);
    first, between := Passage(At(0), AsFile(), states, events), scanner.State();
    NoFolders(AsFile(), scanner.done, FirstTree(), scanner.folder);
    FileThere(scanner.folder, between.file);
    ghost var i :| LiveAt(between.file, 0, "x", i);
    NothingHeld(At(1), Emptied(), FirstTree(), between.file);
    AgedIsFresh(0, At(1), between.file);
    AgedLater(0, 1, between.file);
    ok, tally, trashed, states, events := scanner.RunScan(At(1), Same, Emptied(), 1, []);
    second := Passage(At(1), Emptied(), states, events);
    NoFolders(Emptied(), scanner.done, FirstTree(), scanner.folder);
    FileTrashed(scanner.done, FirstTree(), between.file, scanner.file, i);
    InTheWay(FirstTree(), scanner.file, i);
  }

  /** One more scan over the directory `x`. */
  method ScanAgain(scanner: Scanner, now: int, start: int, kills: seq<nat>) returns (ghost a: Passage)
    requires scanner.Fit() && 0 in scanner.folder && Aged(now, scanner.file) && now < start
    requires Obstructed(At(2), Same, AsDirectory(), scanner.folder, scanner.file)
    modifies scanner
    ensures scanner.Fit() && 0 in scanner.folder && Aged(start, scanner.file)
    ensures Obstructed(At(2), Same, AsDirectory(), scanner.folder, scanner.file)
    ensures a.run == At(start) && a.disk == AsDirectory() && Ran(a, old(scanner.State()), scanner.State())
    ensures RefusedAt(a, scanner.State())
  {
    hide DiskFits, Converged, Obstructed, Held, FoldersSoFar, AllInPlace, LiveDiffer, Housed, Fresh, Aged, Barred,
      Reachable, StaysPut,
      Came, Linked, SiblingsDiffer, Unseen;
    DisksFit();
    ObstructedLater(At(2), At(start), Same, AsDirectory(), scanner.folder, scanner.file);
    AgedIsFresh(now, At(start), scanner.file);
    AgedLater(now, start, scanner.file);
    var ok, tally, trashed;
    ghost var states, events;
    ok, tally, trashed, states, events := scanner.RunScan(At(start), Same, AsDirectory(), start, kills);
    a := Passage(At(start), AsDirectory(), states, events);
    ObstructedLater(At(start), At(2), Same, AsDirectory(), scanner.folder, scanner.file);
  }

  ghost predicate Ascending(starts: seq<int>) {
    (forall n :: 0 <= n < |starts| ==> 1 < starts[n]) && forall m, n :: 0 <= m < n < |starts| ==> starts[m] < starts[n]
  }

  /**
   A scan registers the file `x` and the next one trashes it. Then `x` is a directory: every scan from then on, however
   many and however often retried, comes to the directory that holds it, and its listing is refused.
  */
  method LostScan(starts: seq<int>, kills: seq<nat>)
    returns (scanner: Scanner, ghost first: Passage, ghost second: Passage, ghost later: seq<Passage>, ghost between: seq<Scan>)
    requires Ascending(starts)
    ensures |later| == |starts| && |between| == 2 + |later| && between[|later| + 1] == scanner.State()
    ensures first.disk == AsFile() && Ran(first, Scan(FirstTree(), map[], map[], map[], {}), between[0])
    ensures Finished(first, between[0])
    ensures second.disk == Emptied() && Ran(second, between[0], between[1]) && Finished(second, between[1])
    ensures forall n :: 0 <= n < |later| ==>
      later[n].run == At(starts[n]) && later[n].disk == AsDirectory()
        && Ran(later[n], between[n + 1], between[n + 2]) && RefusedAt(later[n], between[n + 2])
  {
    hide Obstructed, Aged, Linked, SiblingsDiffer, LiveDiffer, Housed, Ran, RefusedAt, Finished;
    ghost var gap;
    scanner, first, gap, second := FileGone();
    later, between := [], [gap, scanner.State()];
    var n, now := 0, 1;
    while n < |starts|
      invariant n <= |starts| && now == (if n == 0 then 1 else starts[n - 1])
      invariant |later| == n && |between| == 2 + n && between[n + 1] == scanner.State() && between[0] == gap
      invariant Ran(second, between[0], between[1]) && Finished(second, between[1])
      invariant scanner.Fit() && 0 in scanner.folder && Aged(now, scanner.file)
      invariant Obstructed(At(2), Same, AsDirectory(), scanner.folder, scanner.file)
      invariant forall k :: 0 <= k < n ==>
        later[k].run == At(starts[k]) && later[k].disk == AsDirectory()
          && Ran(later[k], between[k + 1], between[k + 2]) && RefusedAt(later[k], between[k + 2])
    {
      ghost var a := ScanAgain(scanner, now, starts[n], kills);
      later, between := later + [a], between + [scanner.State()];
      now, n := starts[n], n + 1;
    }
  }
}
