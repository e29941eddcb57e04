/**
 When a scan is refused: a file row, live or trashed, holds the name of a directory that has no folder yet. Followed
 through a whole run, from the index it began with.
*/
module Refusing {
  import opened Common
  import opened FolderTree
  import opened Paths
  import opened ScanSafety
  import opened Reconciling
  import opened Matching
  import opened Converging

  // ------------------------------------------------------------------ where rows go

  predicate Accepted(key: string -> string, l: Listing, k: string) {
    exists e :: e in l.files && key(e.name) == k
  }

  predicate HasContent(l: Listing, hash: nat) {
    exists e :: e in l.files && e.hash == hash
  }

  predicate OnlyStamped(f: FileRow, f': FileRow) {
    f' == f.(seen := f'.seen)
  }

  /** The row stands for an accepted file now: it did before, or its own path was gone and its content was here. */
  ghost predicate Landed(key: string -> string, t: Tree, disk: Disk, at: nat, l: Listing, f: FileRow, f': FileRow) {
    f'.folder == at && Accepted(key, l, f'.key)
    && ((f.folder == at && Accepted(key, l, f.key)) || (f.live && GoneFrom(t, disk, f) && HasContent(l, f.hash)))
  }

  /** What one listing does to the rows: none disappears, and none comes to a name but that of an accepted file. */
  ghost predicate Refiles(key: string -> string, t: Tree, disk: Disk, at: nat, l: Listing, rows: Files, rows': Files) {
    (forall i :: i in rows ==>
      i in rows' && (OnlyStamped(rows[i], rows'[i]) || Landed(key, t, disk, at, l, rows[i], rows'[i]))) &&
    forall i :: i in rows' && i !in rows ==> rows'[i].folder == at && Accepted(key, l, rows'[i].key)
  }

  lemma StampingRefiles(run: Run, key: string -> string, t: Tree, disk: Disk, at: nat, l: Listing, rows: Files)
    ensures Refiles(key, t, disk, at, l, rows, StampedRows(run, rows, at, l.mentioned))
  {
  }

  lemma EntryRefiles(run: Run, key: string -> string, t: Tree, disk: Disk, at: nat, l: Listing, n: nat, rows: Files,
                     rows': Files, i: nat, outcome: Outcome)
    requires n < |l.files| && EntryStep(run, t, disk, at, key(l.files[n].name), l.files[n], rows, rows', i, outcome)
    ensures Refiles(key, t, disk, at, l, rows, rows')
  {
    hide GoneFrom;
    assert l.files[n] in l.files;
  }

  lemma RefilesOnward(key: string -> string, t: Tree, disk: Disk, at: nat, l: Listing, rows: Files, rows': Files,
                      rows'': Files)
    requires Refiles(key, t, disk, at, l, rows, rows') && Refiles(key, t, disk, at, l, rows', rows'')
    ensures Refiles(key, t, disk, at, l, rows, rows'')
  {
    hide PathOf, Accepted, HasContent;
    forall i | i in rows
      ensures i in rows'' && (OnlyStamped(rows[i], rows''[i]) || Landed(key, t, disk, at, l, rows[i], rows''[i]))
    {
      assert i in rows';
    }
  }

  // ------------------------------------------------------------------ the index a run began with

  /** A row holds the name of a reachable directory, and there is no folder of that name beside it. */
  ghost predicate HeldAt(run: Run, key: string -> string, disk: Disk, t: Tree, rows: Files, p: Path, d: string,
                         i: nat) {
    p in disk && Reachable(run, disk, p) && d in disk[p].directories && FolderFor(run, key, t, p).Some? && i in rows
    && rows[i].folder == FolderFor(run, key, t, p).value && rows[i].key == key(d)
    && !HasChild(t, FolderFor(run, key, t, p).value, key(d))
  }

  ghost predicate Held(run: Run, key: string -> string, disk: Disk, t: Tree, rows: Files) {
    exists p, d, i :: HeldAt(run, key, disk, t, rows, p, d, i)
  }

  /** The only way out: live, nothing at its own path, and its content in a directory the run may come to before `p`. */
  ghost predicate MayLeave(run: Run, disk: Disk, t: Tree, f: FileRow, p: Path) {
    f.live && GoneFrom(t, disk, f)
    && exists q :: q in disk && Reachable(run, disk, q) && !(p <= q) && HasContent(disk[q], f.hash)
  }

  ghost predicate StaysHeld(run: Run, key: string -> string, disk: Disk, t: Tree, rows: Files, p: Path) {
    exists d, i :: HeldAt(run, key, disk, t, rows, p, d, i) && !MayLeave(run, disk, t, rows[i], p)
  }

  /**
   A row that is in the way and cannot leave: a trashed one, one whose path is there, or one whose content is not
   elsewhere.
  */
  ghost predicate Obstructed(run: Run, key: string -> string, disk: Disk, t: Tree, rows: Files) {
    exists p :: StaysHeld(run, key, disk, t, rows, p)
  }

  // ------------------------------------------------------------------ followed through a run

  /** The row stands for an accepted file of a directory processed. */
  ghost predicate CameTo(key: string -> string, disk: Disk, s: Scan, f: FileRow) {
    exists q :: q in s.done && q in disk && s.done[q].folder == f.folder && Accepted(key, disk[q], f.key)
  }

  /** Nothing is at its path, and a directory processed holds its content. */
  ghost predicate Wanted(disk: Disk, t: Tree, s: Scan, f: FileRow) {
    f.live && GoneFrom(t, disk, f) && exists q :: q in s.done && q in disk && HasContent(disk[q], f.hash)
  }

  ghost predicate RowSoFar(key: string -> string, disk: Disk, t: Tree, s: Scan, f: FileRow, f': FileRow) {
    OnlyStamped(f, f') || (CameTo(key, disk, s, f') && (CameTo(key, disk, s, f) || Wanted(disk, t, s, f)))
  }

  ghost predicate RowsSoFar(key: string -> string, disk: Disk, t: Tree, rows: Files, s: Scan) {
    (forall i :: i in rows ==> i in s.file && RowSoFar(key, disk, t, s, rows[i], s.file[i])) &&
    forall i :: i in s.file && i !in rows ==> CameTo(key, disk, s, s.file[i])
  }

  /** The folder is that of a directory some processed one lists, under its name. */
  ghost predicate FiledUnder(key: string -> string, disk: Disk, done: map<Path, Processed>, row: Folder) {
    row.key == key(row.name) &&
    exists q :: q in done && q in disk && row.parent == Some(done[q].folder) && row.name in disk[q].directories
  }

  /** Folders were added only for directories listed. */
  ghost predicate FoldersSoFar(key: string -> string, disk: Disk, done: map<Path, Processed>, t: Tree, t': Tree) {
    forall c :: c in t' && c !in t ==> FiledUnder(key, disk, done, t'[c])
  }

  /** From the index `t` and `rows` to here, past no directory whose name is held for good. */
  ghost predicate SoFar(run: Run, key: string -> string, disk: Disk, t: Tree, rows: Files, s: Scan) {
    Linked(t) && run.root in t && Housed(t, rows) && Extends(t, s.folder) && RowsSoFar(key, disk, t, rows, s)
    && FoldersSoFar(key, disk, s.done, t, s.folder) &&
    forall p :: p in s.done ==> !StaysHeld(run, key, disk, t, rows, p)
  }

  lemma StartSoFar(run: Run, key: string -> string, disk: Disk, s: Scan)
    requires Begun(run, s) && Housed(s.folder, s.file)
    ensures SoFar(run, key, disk, s.folder, s.file, s)
  {
    hide StaysHeld;
  }

  /** A path names the same folder as at the start, if that was there. */
  lemma {:induction false} SameFolder(run: Run, key: string -> string, t: Tree, t': Tree, p: Path, f: nat)
    requires Linked(t) && Extends(t, t') && run.root in t && f in t
    requires run.path <= p && SiblingsDiffer(t)
    ensures FolderFor(run, key, t, p) == Some(f) <==> FolderFor(run, key, t', p) == Some(f)
    decreases |p|
  {
    hide FolderFor;
    if p == run.path {
      RunFolder(run, key, t);
      RunFolder(run, key, t');
    } else {
      assert p != [] && run.path <= p[..|p| - 1] by { ShorterPath(run, p); }
      FolderUp(run, key, t, p, f);
      FolderUp(run, key, t', p, f);
      if t[f].parent.Some? {
        SameFolder(run, key, t, t', p[..|p| - 1], t[f].parent.value);
      }
    }
  }

  lemma ShorterPath(run: Run, p: Path)
    requires run.path <= p && p != run.path
    ensures p != [] && run.path <= p[..|p| - 1]
  {
    assert run.path == p[..|run.path|] && |run.path| < |p|;
    assert p[..|p| - 1][..|run.path|] == p[..|run.path|];
  }

  lemma RunFolder(run: Run, key: string -> string, t: Tree)
    ensures FolderFor(run, key, t, run.path) == Some(run.root)
  {
    assert run.path[|run.path|..] == [];
  }

  lemma SoFarParts(run: Run, key: string -> string, disk: Disk, t: Tree, rows: Files, s: Scan)
    requires SoFar(run, key, disk, t, rows, s)
    ensures Linked(t) && run.root in t && Housed(t, rows) && Extends(t, s.folder)
    ensures RowsSoFar(key, disk, t, rows, s) && FoldersSoFar(key, disk, s.done, t, s.folder)
  {
  }

  /** Nothing processed is filed under the folder of a directory that is not processed. */
  lemma NoneFiledThere(run: Run, key: string -> string, disk: Disk, s: Scan, p: Path, q: Path)
    requires Progress(run, key, disk, s) && DiskFits(key, disk) && Reachable(run, disk, p) && p !in s.done
    requires q in s.done
    requires run.root in s.folder
    ensures FolderFor(run, key, s.folder, p) != Some(s.done[q].folder)
  {
    hide Reachable, FolderFor, ListedByParent, Followed, Unmentioned, DoneRight, SeenSomewhere, LiveDiffer, Linked,
      SiblingsDiffer;
    ProgressInv(run, key, disk, s);
    DoneIsReachable(run, key, disk, s, q);
    KnownResolves(run, key, s, q);
    NotBothIs(run, key, s, q);
    if FolderFor(run, key, s.folder, p) == Some(s.done[q].folder) {
      LookupsDiffer(run, key, disk, s.folder, p, q, s.done[q].folder);
    }
  }

  /** A directory is processed before everything below it. */
  lemma {:induction false} AboveFirst(run: Run, key: string -> string, disk: Disk, s: Scan, p: Path, q: Path)
    requires Progress(run, key, disk, s) && run.path <= p <= q && q in s.done
    ensures p in s.done
    decreases |q|
  {
    hide Progress;
    if p != q {
      assert q != run.path && p <= q[..|q| - 1];
      Upward(run, key, disk, s, q);
      AboveFirst(run, key, disk, s, p, q[..|q| - 1]);
    }
  }

  /** What bars a directory now was in its way when the run began. */
  lemma BarredWasHeld(run: Run, key: string -> string, disk: Disk, t: Tree, rows: Files, s: Scan, p: Path)
    requires Progress(run, key, disk, s) && DiskFits(key, disk) && SoFar(run, key, disk, t, rows, s)
    requires SiblingsDiffer(t)
    requires p in s.frontier && p in disk && Barred(key, s.folder, s.file, s.frontier[p], disk[p].directories)
    ensures Held(run, key, disk, t, rows)
  {
    hide Progress, SoFar, Reachable, FolderFor, Linked, SiblingsDiffer, Housed, RowsSoFar, FoldersSoFar, Extends,
      HasChild;
    var at := s.frontier[p];
    var i, d :| i in s.file && d in disk[p].directories && s.file[i].folder == at && s.file[i].key == key(d)
      && !HasChild(s.folder, at, key(d));
    SoFarParts(run, key, disk, t, rows, s);
    ProgressInv(run, key, disk, s);
    KnownReachable(run, key, disk, s, p);
    KnownResolves(run, key, s, p);
    NotBoth(run, key, s, p);
    RootThere(t, s.folder, run.root);
    forall q | q in s.done ensures s.done[q].folder != at {
      NoneFiledThere(run, key, disk, s, p, q);
    }
    RowStayed(key, disk, t, rows, s, i);
    SameFolder(run, key, t, s.folder, p, at);
    ChildStays(t, s.folder, at, key(d));
    assert HeldAt(run, key, disk, t, rows, p, d, i);
  }

  lemma RootThere(t: Tree, t': Tree, root: nat)
    requires Extends(t, t') && root in t
    ensures root in t'
  {
  }

  lemma ChildStays(t: Tree, t': Tree, at: nat, k: string)
    requires Extends(t, t')
    ensures HasChild(t, at, k) ==> HasChild(t', at, k)
  {
    if HasChild(t, at, k) {
      var c :| ChildOf(t, at, k, c);
      assert ChildOf(t', at, k, c);
    }
  }

  /** A row in a folder no processed directory is filed under has been there from the start. */
  lemma RowStayed(key: string -> string, disk: Disk, t: Tree, rows: Files, s: Scan, i: nat)
    requires RowsSoFar(key, disk, t, rows, s) && Housed(t, rows) && i in s.file
    requires forall q :: q in s.done ==> s.done[q].folder != s.file[i].folder
    ensures i in rows && rows[i].folder == s.file[i].folder && rows[i].key == s.file[i].key && rows[i].folder in t
  {
    assert !CameTo(key, disk, s, s.file[i]);
  }

  /** Until its directory is processed, a row that cannot leave has not left. */
  lemma StillHeld(run: Run, key: string -> string, disk: Disk, t: Tree, rows: Files, s: Scan, p: Path)
    requires Progress(run, key, disk, s) && DiskFits(key, disk) && SoFar(run, key, disk, t, rows, s)
    requires SiblingsDiffer(t)
    requires StaysHeld(run, key, disk, t, rows, p) && p !in s.done
    ensures StaysHeld(run, key, disk, s.folder, s.file, p)
  {
    hide Progress, SoFar, Reachable, FolderFor, Linked, SiblingsDiffer, Housed, RowsSoFar, FoldersSoFar, Extends,
      HasChild, GoneFrom, HasContent;
    var d, i :| HeldAt(run, key, disk, t, rows, p, d, i) && !MayLeave(run, disk, t, rows[i], p);
    SoFarParts(run, key, disk, t, rows, s);
    RootThere(t, s.folder, run.root);
    PathsGrow(run, disk, p);
    var at := rows[i].folder;
    assert at in t by { HousedAt(t, rows, i); }
    SameFolder(run, key, t, s.folder, p, at);
    forall q | q in s.done ensures s.done[q].folder != at && !(q in disk && p <= q) && Reachable(run, disk, q) {
      NoneFiledThere(run, key, disk, s, p, q);
      DoneIsReachable(run, key, disk, s, q);
      if p <= q {
        AboveFirst(run, key, disk, s, p, q);
      }
    }
    RowNotMoved(run, key, disk, t, rows, s, i, p);
    NoNewChild(key, disk, t, s, at, key(d));
    GoneStays(t, s.folder, disk, rows[i], s.file[i]);
    assert HeldAt(run, key, disk, s.folder, s.file, p, d, i) && !MayLeave(run, disk, s.folder, s.file[i], p);
  }

  lemma HousedAt(t: Tree, rows: Files, i: nat)
    requires Housed(t, rows) && i in rows
    ensures rows[i].folder in t
  {
  }

  lemma RowNotMoved(run: Run, key: string -> string, disk: Disk, t: Tree, rows: Files, s: Scan, i: nat, p: Path)
    requires RowsSoFar(key, disk, t, rows, s) && i in rows && !MayLeave(run, disk, t, rows[i], p)
    requires forall q :: q in s.done ==>
      s.done[q].folder != rows[i].folder && !(q in disk && p <= q) && Reachable(run, disk, q)
    ensures i in s.file && OnlyStamped(rows[i], s.file[i])
  {
    hide GoneFrom, Reachable, HasContent;
    assert !CameTo(key, disk, s, rows[i]);
    assert !Wanted(disk, t, s, rows[i]);
  }

  lemma NoNewChild(key: string -> string, disk: Disk, t: Tree, s: Scan, at: nat, k: string)
    requires FoldersSoFar(key, disk, s.done, t, s.folder) && Extends(t, s.folder) && !HasChild(t, at, k)
    requires forall q :: q in s.done ==> s.done[q].folder != at
    ensures !HasChild(s.folder, at, k)
  {
    assert forall c :: c in t && ChildOf(s.folder, at, k, c) ==> ChildOf(t, at, k, c);
  }

  lemma GoneStays(t: Tree, t': Tree, disk: Disk, f: FileRow, f': FileRow)
    requires Linked(t) && Extends(t, t') && f.folder in t && OnlyStamped(f, f')
    ensures GoneFrom(t, disk, f) <==> GoneFrom(t', disk, f')
  {
    hide PathOf;
    PathStays(t, t', f.folder);
  }

  // ------------------------------------------------------------------ one more directory

  /** New folders are those of the directories listed. */
  ghost predicate NewNamed(key: string -> string, t: Tree, t': Tree, at: nat, directories: seq<string>) {
    forall c :: c in t' && c !in t ==> t'[c].parent == Some(at) && t'[c].name in directories && t'[c].key == key(t'[c].name)
  }

  /** What one committed directory did, when there was one. */
  ghost predicate Committed(key: string -> string, disk: Disk, s: Scan, s': Scan, p: Path) {
    p in s.frontier && s'.done == s.done[p := Processed(s.frontier[p], Looked(disk, p))]
      && Extends(s.folder, s'.folder) &&
    if p in disk then NewNamed(key, s.folder, s'.folder, s.frontier[p], disk[p].directories) && Refiles(key, s'.folder, disk, s.frontier[p], disk[p], s.file, s'.file)
    else s'.folder == s.folder && s'.file == s.file
  }

  lemma SoFarOnward(run: Run, key: string -> string, disk: Disk, t: Tree, rows: Files, s: Scan, s': Scan, p: Path)
    requires Progress(run, key, disk, s) && DiskFits(key, disk) && SoFar(run, key, disk, t, rows, s)
    requires SiblingsDiffer(t)
    requires Committed(key, disk, s, s', p)
    requires p in disk ==> !Barred(key, s.folder, s.file, s.frontier[p], disk[p].directories)
    ensures SoFar(run, key, disk, t, rows, s')
  {
    hide Progress, DiskFits, RowsSoFar, FoldersSoFar, StaysHeld, Barred, Refiles, Linked, SiblingsDiffer, Housed,
      NewNamed;
    ExtendsOnward(t, s.folder, s'.folder);
    FrontierNotDone(run, key, disk, s, p);
    RowsOnward(key, disk, t, rows, s, s', p);
    FoldersOnward(key, disk, t, s, s', p);
    if StaysHeld(run, key, disk, t, rows, p) {
      StillHeld(run, key, disk, t, rows, s, p);
      HeldIsBarred(run, key, disk, s, p);
    }
  }

  lemma HeldIsBarred(run: Run, key: string -> string, disk: Disk, s: Scan, p: Path)
    requires Progress(run, key, disk, s) && p in s.frontier && StaysHeld(run, key, disk, s.folder, s.file, p)
    ensures p in disk && Barred(key, s.folder, s.file, s.frontier[p], disk[p].directories)
  {
    hide Progress, FolderFor, Reachable, HasChild, MayLeave;
    ProgressInv(run, key, disk, s);
    KnownResolves(run, key, s, p);
    var d, i :| HeldAt(run, key, disk, s.folder, s.file, p, d, i);
  }

  lemma FoldersOnward(key: string -> string, disk: Disk, t: Tree, s: Scan, s': Scan, p: Path)
    requires FoldersSoFar(key, disk, s.done, t, s.folder) && Committed(key, disk, s, s', p) && p !in s.done
    ensures FoldersSoFar(key, disk, s'.done, t, s'.folder)
  {
    hide Refiles, Linked, SiblingsDiffer;
    forall c | c in s'.folder && c !in t ensures FiledUnder(key, disk, s'.done, s'.folder[c]) {
      if c in s.folder {
        assert FiledUnder(key, disk, s.done, s.folder[c]);
        var q :| q in s.done && q in disk && s.folder[c].parent == Some(s.done[q].folder)
          && s.folder[c].name in disk[q].directories;
        assert q in s'.done && s'.done[q] == s.done[q];
      } else {
        assert p in s'.done && s'.done[p].folder == s.frontier[p];
      }
    }
  }

  lemma CameOnward(key: string -> string, disk: Disk, t: Tree, s: Scan, s': Scan, p: Path, f: FileRow)
    requires Committed(key, disk, s, s', p) && p !in s.done
    ensures CameTo(key, disk, s, f) ==> CameTo(key, disk, s', f)
    ensures Wanted(disk, t, s, f) ==> Wanted(disk, t, s', f)
    ensures p in disk && f.folder == s.frontier[p] && Accepted(key, disk[p], f.key) ==> CameTo(key, disk, s', f)
    ensures p in disk && f.live && GoneFrom(t, disk, f) && HasContent(disk[p], f.hash) ==> Wanted(disk, t, s', f)
  {
    hide GoneFrom, Accepted, HasContent, Refiles, Extends, NewNamed;
    if CameTo(key, disk, s, f) {
      var q :| q in s.done && q in disk && s.done[q].folder == f.folder && Accepted(key, disk[q], f.key);
      assert q in s'.done && s'.done[q] == s.done[q];
    }
    if Wanted(disk, t, s, f) {
      var q :| q in s.done && q in disk && HasContent(disk[q], f.hash);
      assert q in s'.done;
    }
    assert p in s'.done && s'.done[p].folder == s.frontier[p];
  }

  lemma RowOnward(key: string -> string, disk: Disk, t: Tree, s: Scan, s': Scan, p: Path, f0: FileRow, f: FileRow,
                  f': FileRow)
    requires Linked(t) && f0.folder in t && Extends(t, s'.folder) && RowSoFar(key, disk, t, s, f0, f)
    requires Committed(key, disk, s, s', p) && p !in s.done
    requires OnlyStamped(f, f') || (p in disk && Landed(key, s'.folder, disk, s.frontier[p], disk[p], f, f'))
    ensures RowSoFar(key, disk, t, s', f0, f')
  {
    hide GoneFrom, Accepted, HasContent, Extends, NewNamed, CameTo, Wanted, Linked, Refiles;
    CameOnward(key, disk, t, s, s', p, f0);
    CameOnward(key, disk, t, s, s', p, f);
    CameOnward(key, disk, t, s, s', p, f');
    CameSame(key, disk, s', f, f');
    if OnlyStamped(f0, f) {
      GoneStays(t, s'.folder, disk, f0, f);
    }
  }

  lemma RowsOnward(key: string -> string, disk: Disk, t: Tree, rows: Files, s: Scan, s': Scan, p: Path)
    requires Linked(t) && Housed(t, rows) && Extends(t, s'.folder) && RowsSoFar(key, disk, t, rows, s)
    requires Committed(key, disk, s, s', p) && p !in s.done
    ensures RowsSoFar(key, disk, t, rows, s')
  {
    hide GoneFrom, Accepted, HasContent, Extends, NewNamed, CameTo, Wanted, Linked;
    forall i | i in rows ensures i in s'.file && RowSoFar(key, disk, t, s', rows[i], s'.file[i]) {
      assert RowSoFar(key, disk, t, s, rows[i], s.file[i]) && rows[i].folder in t;
      RowOnward(key, disk, t, s, s', p, rows[i], s.file[i], s'.file[i]);
    }
    forall i | i in s'.file && i !in rows ensures CameTo(key, disk, s', s'.file[i]) {
      CameOnward(key, disk, t, s, s', p, s'.file[i]);
      if i in s.file {
        CameSame(key, disk, s, s.file[i], s'.file[i]);
      }
    }
  }

  lemma CameSame(key: string -> string, disk: Disk, s: Scan, f: FileRow, f': FileRow)
    ensures OnlyStamped(f, f') && CameTo(key, disk, s, f) ==> CameTo(key, disk, s, f')
  {
  }

  // ------------------------------------------------------------------ where the new folders are

  /** A folder the run made for a directory hangs under that of the directory above it, and has its name. */
  lemma NamedRight(run: Run, key: string -> string, disk: Disk, t: Tree, rows: Files, s: Scan, p: Path)
    requires Progress(run, key, disk, s) && DiskFits(key, disk) && SoFar(run, key, disk, t, rows, s)
    requires p in s.done && s.done[p].folder !in t
    ensures p != [] && p != run.path && var f := s.done[p].folder; var up := p[..|p| - 1];
      up in s.done && f in s.folder && s.folder[f].parent == Some(s.done[up].folder) && s.folder[f].name == p[|p| - 1]
  {
    hide Progress, DiskFits, Linked, SiblingsDiffer, Housed, RowsSoFar, StaysHeld;
    ProgressInv(run, key, disk, s);
    NotBothIs(run, key, s, p);
    KnownDepth(run, key, s, p);
    RootedAt(run, key, s);
    Upward(run, key, disk, s, p);
    var f, up, last := s.done[p].folder, p[..|p| - 1], p[|p| - 1];
    assert FiledUnder(key, disk, s.done, s.folder[f]);
    var q :| q in s.done && q in disk && s.folder[f].parent == Some(s.done[q].folder)
      && s.folder[f].name in disk[q].directories;
    NotBothIs(run, key, s, q);
    NotBothIs(run, key, s, up);
    FoldersDiffer(run, key, disk, s, up, q);
    FitsAt(key, disk, up);
    SameLast(key, disk[up], s.folder[f].name, last);
  }

  lemma RootedAt(run: Run, key: string -> string, s: Scan)
    requires Inv(run, key, s)
    ensures Known(s, run.path) && FolderAt(s, run.path) == run.root
  {
    assert ListedByParent(run, key, s, run.path);
  }

  /** What was there of the directories on the way to this one is filed under its path. */
  ghost predicate OnTheWay(done: map<Path, Processed>, t: Tree, p: Path) {
    forall q :: q in done && q <= p && done[q].folder in t ==> PathOf(t, done[q].folder) == q
  }

  lemma OnTheWayHere(done: map<Path, Processed>, t: Tree, p: Path)
    requires OnTheWay(done, t, p)
    ensures p in done && done[p].folder in t ==> PathOf(t, done[p].folder) == p
    ensures p != [] ==> OnTheWay(done, t, p[..|p| - 1])
  {
    hide PathOf;
  }

  /** If what was there on the way to a directory is filed under its path, so is the directory. */
  lemma {:induction false} FiledAtPath(run: Run, key: string -> string, disk: Disk, t: Tree, rows: Files, s: Scan, p: Path)
    requires Progress(run, key, disk, s) && DiskFits(key, disk) && SoFar(run, key, disk, t, rows, s) && p in s.done
    requires OnTheWay(s.done, t, p)
    ensures PathOf(s.folder, s.done[p].folder) == p
    decreases |p|
  {
    hide Progress, DiskFits, SoFar, Linked, SiblingsDiffer, Extends, PathOf, OnTheWay, Housed, RowsSoFar, FoldersSoFar;
    SoFarParts(run, key, disk, t, rows, s);
    WellKept(run, key, disk, s);
    var f := s.done[p].folder;
    OnTheWayHere(s.done, t, p);
    if f in t {
      PathStays(t, s.folder, f);
    } else {
      NamedRight(run, key, disk, t, rows, s, p);
      FiledAtPath(run, key, disk, t, rows, s, p[..|p| - 1]);
      PathDown(s.folder, f, p);
    }
  }

  lemma PathDown(t: Tree, f: nat, p: Path)
    requires Linked(t) && f in t && t[f].parent.Some? && p != [] && t[f].name == p[|p| - 1]
    requires PathOf(t, t[f].parent.value) == p[..|p| - 1]
    ensures PathOf(t, f) == p
  {
    assert p == p[..|p| - 1] + [p[|p| - 1]];
  }

  /** Every folder processed is at its directory's path, so far as those were that it found on the way. */
  ghost predicate FiledAtPaths(done: map<Path, Processed>, t: Tree, t': Tree) {
    forall p :: p in done && OnTheWay(done, t, p) ==> PathOf(t', done[p].folder) == p
  }

  lemma AllAtPaths(run: Run, key: string -> string, disk: Disk, t: Tree, rows: Files, s: Scan)
    requires Progress(run, key, disk, s) && DiskFits(key, disk) && SoFar(run, key, disk, t, rows, s)
    ensures FiledAtPaths(s.done, t, s.folder)
  {
    hide Progress, DiskFits, SoFar, PathOf, OnTheWay;
    forall p | p in s.done && OnTheWay(s.done, t, p)
      ensures PathOf(s.folder, s.done[p].folder) == p
    {
      FiledAtPath(run, key, disk, t, rows, s, p);
    }
  }

  // ------------------------------------------------------------------ at the end

  lemma SoFarHoused(run: Run, key: string -> string, disk: Disk, t: Tree, rows: Files, s: Scan)
    requires Progress(run, key, disk, s) && SoFar(run, key, disk, t, rows, s)
    ensures Housed(s.folder, s.file)
  {
    hide Progress, StaysHeld, Linked, SiblingsDiffer, Accepted;
    ProgressInv(run, key, disk, s);
    forall q | q in s.done ensures s.done[q].folder in s.folder {
      NotBothIs(run, key, s, q);
      KnownDepth(run, key, s, q);
    }
  }

  /** A finished traversal met nothing that could not leave. */
  lemma FinishedUnheld(run: Run, key: string -> string, disk: Disk, t: Tree, rows: Files, s: Scan)
    requires Progress(run, key, disk, s) && SoFar(run, key, disk, t, rows, s) && s.frontier == map[]
    ensures !Obstructed(run, key, disk, t, rows)
  {
    hide Progress, Reachable, FolderFor, RowsSoFar, FoldersSoFar, Linked, Extends, HasChild, MayLeave;
    forall p ensures !StaysHeld(run, key, disk, t, rows, p) {
      ReachableIsDone(run, key, disk, s, p);
    }
  }

  /** And wherever the traversal has got to, what cannot leave has not left: the next run meets it too. */
  lemma StillObstructed(run: Run, key: string -> string, disk: Disk, t: Tree, rows: Files, s: Scan)
    requires Progress(run, key, disk, s) && DiskFits(key, disk) && SoFar(run, key, disk, t, rows, s)
    requires SiblingsDiffer(t)
    ensures Obstructed(run, key, disk, t, rows) ==> Obstructed(run, key, disk, s.folder, s.file)
  {
    hide Progress, StaysHeld, RowsSoFar, FoldersSoFar, Linked, SiblingsDiffer, Extends, DiskFits;
    if Obstructed(run, key, disk, t, rows) {
      var p :| StaysHeld(run, key, disk, t, rows, p);
      StillHeld(run, key, disk, t, rows, s, p);
    }
  }

  /** The row is at the name it had, or stands for an accepted file of a directory processed. */
  ghost predicate InPlace(key: string -> string, disk: Disk, done: map<Path, Processed>, f: FileRow, f': FileRow) {
    (f'.folder == f.folder && f'.key == f.key) ||
    exists q :: q in done && q in disk && done[q].folder == f'.folder && Accepted(key, disk[q], f'.key)
  }

  ghost predicate AllInPlace(key: string -> string, disk: Disk, done: map<Path, Processed>, rows: Files, rows': Files) {
    forall i :: i in rows ==> i in rows' && InPlace(key, disk, done, rows[i], rows'[i])
  }

  lemma SweptInPlace(run: Run, key: string -> string, disk: Disk, t: Tree, rows: Files, s: Scan, swept: Files)
    requires RowsSoFar(key, disk, t, rows, s) && Swept(run, s.file, swept)
    ensures AllInPlace(key, disk, s.done, rows, swept)
  {
    hide Accepted, Wanted;
  }

  lemma SweptSelf(run: Run, rows: Files)
    ensures Swept(run, rows, rows)
  {
  }

  lemma SweptHoused(run: Run, t: Tree, rows: Files, rows': Files)
    requires Housed(t, rows) && Swept(run, rows, rows')
    ensures Housed(t, rows')
  {
  }

  // ------------------------------------------------------------------ time

  /** Nothing in the index is younger, or was seen later. */
  ghost predicate Aged(now: int, rows: Files) {
    forall i :: i in rows ==> rows[i].created <= now && (rows[i].seen.Some? ==> rows[i].seen.value <= now)
  }

  /** Whom a row obstructs depends on where a run looks, not on when. */
  lemma ObstructedLater(run: Run, later: Run, key: string -> string, disk: Disk, t: Tree, rows: Files)
    requires Obstructed(run, key, disk, t, rows) && later == run.(start := later.start)
    ensures Obstructed(later, key, disk, t, rows)
  {
    hide HasChild, GoneFrom, HasContent;
    var p :| StaysHeld(run, key, disk, t, rows, p);
    var d, i :| HeldAt(run, key, disk, t, rows, p, d, i) && !MayLeave(run, disk, t, rows[i], p);
    assert forall q :: Reachable(run, disk, q) <==> Reachable(later, disk, q);
    assert HeldAt(later, key, disk, t, rows, p, d, i) && !MayLeave(later, disk, t, rows[i], p);
    assert StaysHeld(later, key, disk, t, rows, p);
  }

  lemma AgedIsFresh(now: int, run: Run, rows: Files)
    requires Aged(now, rows) && now < run.start
    ensures Fresh(run, rows)
  {
  }

  lemma StampingAges(run: Run, rows: Files, at: nat, mentioned: set<string>, now: int)
    requires run.start <= now
    ensures Aged(now, rows) ==> Aged(now, StampedRows(run, rows, at, mentioned))
  {
  }

  lemma AgedLater(now: int, later: int, rows: Files)
    requires Aged(now, rows) && now <= later
    ensures Aged(later, rows)
  {
  }

  lemma AgedSwept(now: int, run: Run, rows: Files, rows': Files)
    requires Aged(now, rows) && Swept(run, rows, rows')
    ensures Aged(now, rows')
  {
  }

  // ------------------------------------------------------------------ one listing's directories

  /** The directory's name is held, and it has no folder. */
  ghost predicate BarredOne(key: string -> string, t: Tree, rows: Files, at: nat, d: string) {
    !HasChild(t, at, key(d)) && exists i :: i in rows && rows[i].folder == at && rows[i].key == key(d)
  }

  ghost predicate MadeOne(key: string -> string, directories: seq<string>, n: nat, k: string) {
    exists j :: 0 <= j < n && j < |directories| && key(directories[j]) == k
  }

  /** No folder came beside the ones there but under this name. */
  ghost predicate OnlyChild(t: Tree, t': Tree, at: nat, k: string) {
    forall other :: HasChild(t', at, other) ==> HasChild(t, at, other) || other == k
  }

  ghost predicate OnlyMade(key: string -> string, t: Tree, t': Tree, at: nat, directories: seq<string>, n: nat) {
    forall k :: HasChild(t', at, k) ==> HasChild(t, at, k) || MadeOne(key, directories, n, k)
  }

  lemma NoneMade(key: string -> string, t: Tree, at: nat, directories: seq<string>)
    ensures OnlyMade(key, t, t, at, directories, 0) && forall k :: OnlyChild(t, t, at, k)
  {
  }

  lemma NewOnlyChild(t: Tree, at: nat, k: string, c: nat, row: Folder)
    requires c !in t && row.parent == Some(at) && row.key == k
    ensures OnlyChild(t, t[c := row], at, k)
  {
    forall other | HasChild(t[c := row], at, other) ensures HasChild(t, at, other) || other == k {
      var x :| ChildOf(t[c := row], at, other, x);
      assert x != c ==> ChildOf(t, at, other, x);
    }
  }

  lemma MadeOneMore(key: string -> string, t: Tree, t': Tree, t'': Tree, at: nat, directories: seq<string>, n: nat)
    requires n < |directories| && OnlyMade(key, t, t', at, directories, n)
    requires OnlyChild(t', t'', at, key(directories[n]))
    ensures OnlyMade(key, t, t'', at, directories, n + 1)
  {
    hide HasChild;
    forall k | HasChild(t'', at, k) ensures HasChild(t, at, k) || MadeOne(key, directories, n + 1, k) {
      if k == key(directories[n]) {
        assert MadeOne(key, directories, n + 1, k);
      } else if MadeOne(key, directories, n, k) {
        var j :| 0 <= j < n && key(directories[j]) == k;
        assert MadeOne(key, directories, n + 1, k);
      }
    }
  }

  ghost predicate KeysDiffer(key: string -> string, names: seq<string>) {
    forall i, j :: 0 <= i < j < |names| ==> key(names[i]) != key(names[j])
  }

  /** The folders made for the directories before it are no folder of this one. */
  lemma BarredNow(key: string -> string, first: Tree, t: Tree, rows: Files, at: nat, directories: seq<string>, n: nat)
    requires n < |directories| && KeysDiffer(key, directories)
    requires Extends(first, t)
    requires OnlyMade(key, first, t, at, directories, n)
    ensures BarredOne(key, t, rows, at, directories[n]) <==> BarredOne(key, first, rows, at, directories[n])
  {
    hide Extends, HasChild;
    ChildStays(first, t, at, key(directories[n]));
  }

  lemma NoneNamed(key: string -> string, t: Tree, at: nat, directories: seq<string>)
    ensures NewNamed(key, t, t, at, directories)
  {
  }

  lemma NamedMore(key: string -> string, t: Tree, t': Tree, t'': Tree, at: nat, directories: seq<string>, d: string)
    requires NewNamed(key, t, t', at, directories) && NewNamed(key, t', t'', at, [d]) && Extends(t', t'')
    ensures NewNamed(key, t, t'', at, directories + [d])
  {
    hide Linked, SiblingsDiffer;
  }

  lemma BarredIs(key: string -> string, t: Tree, rows: Files, at: nat, d: string)
    ensures BarredOne(key, t, rows, at, d) <==>
      !HasChild(t, at, key(d)) && exists i :: i in rows && rows[i].folder == at && rows[i].key == key(d)
  {
  }

  /** The first directories are barred as soon as one of them is, and then all of them. */
  lemma BarredMore(key: string -> string, t: Tree, rows: Files, at: nat, directories: seq<string>, n: nat)
    requires n < |directories| && !Barred(key, t, rows, at, directories[..n])
    ensures Barred(key, t, rows, at, directories[..n + 1]) <==> BarredOne(key, t, rows, at, directories[n])
    ensures BarredOne(key, t, rows, at, directories[n]) ==> Barred(key, t, rows, at, directories)
  {
    hide HasChild;
    assert directories[..n + 1] == directories[..n] + [directories[n]];
    if BarredOne(key, t, rows, at, directories[n]) {
      var i :| i in rows && rows[i].folder == at && rows[i].key == key(directories[n]);
      assert directories[n] in directories[..n + 1] && directories[n] in directories;
    }
  }

  lemma NoneBarred(key: string -> string, t: Tree, rows: Files, at: nat)
    ensures !Barred(key, t, rows, at, [])
  {
  }

  lemma FitsParts(key: string -> string, l: Listing)
    requires ListingFits(key, l)
    ensures KeysDiffer(key, l.directories)
  {
  }

  lemma WellKept(run: Run, key: string -> string, disk: Disk, s: Scan)
    requires Progress(run, key, disk, s)
    ensures Linked(s.folder) && SiblingsDiffer(s.folder) && LiveDiffer(s.file)
  {
  }

  // ------------------------------------------------------------------ the run as a trace

  /** What the run came through, commit by commit: directories of this disk, and sweep batches. */
  ghost predicate Came(run: Run, key: string -> string, disk: Disk, states: seq<Scan>, events: seq<Event>, s: Scan) {
    Trace(run, key, states, events) && states[|events|] == s &&
    forall k :: 0 <= k < |events| ==>
      events[k].Sweep? || (events[k].Process? && events[k].verdict == Looked(disk, events[k].path))
  }

  /** Where a run starts. */
  function StartOf(run: Run, t: Tree, rows: Files): Scan {
    Scan(t, rows, map[run.path := run.root], map[], {})
  }

  lemma CameStarts(run: Run, key: string -> string, disk: Disk, s: Scan)
    requires Begun(run, s)
    ensures Came(run, key, disk, [s], [], s)
  {
  }

  lemma CameOn(run: Run, key: string -> string, disk: Disk, states: seq<Scan>, events: seq<Event>, s: Scan, s': Scan,
               e: Event)
    requires Came(run, key, disk, states, events, s) && Commit(run, key, s, s', e)
    requires e.Sweep? || (e.Process? && e.verdict == Looked(disk, e.path))
    ensures Came(run, key, disk, states + [s'], events + [e], s') && (states + [s'])[0] == states[0]
  {
    hide Commit, Begun;
    var more, all := states + [s'], events + [e];
    forall k | 0 <= k < |all| ensures Commit(run, key, more[k], more[k + 1], all[k]) {
      if k < |events| {
        assert Commit(run, key, states[k], states[k + 1], events[k]);
      }
    }
  }

  /**
   Why a live row whose path is gone may or may not be in the way: if its content is reconciled in another directory first
   and taken for it, nothing bars the directory of its name any more; before that the listing is refused.
  */
  lemma OrderDecides(run: Run, key: string -> string, t: Tree, disk: Disk, at: nat, d: string, other: nat, e: Entry,
                     rows: Files, rows': Files, i: nat)
    requires EntryStep(run, t, disk, other, key(e.name), e, rows, rows', i, Moved) && other != at
    requires rows[i].folder == at && rows[i].key == key(d) && !HasChild(t, at, key(d))
    requires forall j :: j in rows && rows[j].folder == at && rows[j].key == key(d) ==> j == i
    ensures BarredOne(key, t, rows, at, d) && !BarredOne(key, t, rows', at, d)
  {
    hide GoneFrom, HasChild;
  }
}
