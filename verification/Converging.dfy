/** What a run has achieved so far on a static, readable tree, and that it is what the disk says. */
module Converging {
  import opened Common
  import opened FolderTree
  import opened Paths
  import opened ScanSafety
  import opened Reconciling
  import opened Matching

  datatype Tally = Tally(registered: nat, changed: nat, moved: nat, restored: nat)

  predicate Nothing(t: Tally) {
    t.registered <= 0 && t.changed <= 0 && t.moved <= 0 && t.restored <= 0
  }

  function Counted(t: Tally, outcome: Outcome): Tally {
    match outcome
    case Changed => t.(changed := t.changed + 1)
    case Restored => t.(restored := t.restored + 1)
    case Moved => t.(moved := t.moved + 1)
    case Registered => t.(registered := t.registered + 1)
    case _ => t
  }

  function Sum(t: Tally, u: Tally): Tally {
    Tally(t.registered + u.registered, t.changed + u.changed, t.moved + u.moved, t.restored + u.restored)
  }

  lemma SumNothing(t: Tally, u: Tally)
    requires Nothing(t) && Nothing(u)
    ensures Nothing(Sum(t, u))
  {
  }

  // ------------------------------------------------------------------ rows filed and agreeing

  /** The directory is filed: every accepted file has its live row, stamped and agreeing with the disk. */
  ghost predicate FiledEntry(run: Run, key: string -> string, rows: Files, folder: nat, e: Entry) {
    exists i :: LiveAt(rows, folder, key(e.name), i) && Stamped(run, rows[i]) && Agrees(rows[i], e)
  }

  ghost predicate Filed(run: Run, key: string -> string, rows: Files, folder: nat, l: Listing) {
    forall e :: e in l.files ==> FiledEntry(run, key, rows, folder, e)
  }

  ghost predicate SettledEntry(key: string -> string, rows: Files, folder: nat, e: Entry) {
    exists i :: LiveAt(rows, folder, key(e.name), i) && Agrees(rows[i], e)
  }

  /** Every accepted file of the directory already has its live row. */
  ghost predicate Settled(key: string -> string, rows: Files, folder: nat, l: Listing) {
    forall e :: e in l.files ==> SettledEntry(key, rows, folder, e)
  }

  /** Nothing but stamps and recorded stats differ. */
  predicate SameButStamp(f: FileRow, f': FileRow) {
    f' == f.(stat := f'.stat, seen := f'.seen)
  }

  ghost predicate SameButStamps(rows: Files, rows': Files) {
    rows'.Keys == rows.Keys && forall i :: i in rows ==> SameButStamp(rows[i], rows'[i])
  }

  /** Nothing but stamps and recorded stats differ, and those only in this folder. */
  ghost predicate QuietHere(rows: Files, rows': Files, folder: nat) {
    SameButStamps(rows, rows') && forall i :: i in rows && rows[i].folder != folder ==> rows'[i] == rows[i]
  }

  function StampedRows(run: Run, rows: Files, folder: nat, mentioned: set<string>): Files {
    map i | i in rows :: if rows[i].live && rows[i].folder == folder && rows[i].key in mentioned then rows[i].(seen := Some(run.start)) else rows[i]
  }

  ghost predicate MentionedStamped(run: Run, rows: Files, folder: nat, mentioned: set<string>) {
    forall i :: i in rows && rows[i].live && rows[i].folder == folder && rows[i].key in mentioned ==>
      Stamped(run, rows[i])
  }

  lemma StampingKeeps(run: Run, t: Tree, disk: Disk, rows: Files, folder: nat, mentioned: set<string>)
    requires LiveDiffer(rows)
    ensures var rows' := StampedRows(run, rows, folder, mentioned);
            DirectoryStep(run, t, disk, folder, mentioned, rows, rows') && LiveDiffer(rows')
              && QuietHere(rows, rows', folder)
            && MentionedStamped(run, rows', folder, mentioned)
  {
    hide PathOf, GoneFrom, LiveDiffer, QuietHere, FileStep, LeavesOthers, StampsHere, KeepsPresent;
    StampingSteps(run, rows, folder, mentioned);
    StampingPresent(run, t, disk, rows, folder, mentioned);
    StampingDiffers(run, rows, folder, mentioned);
  }

  lemma StampingSteps(run: Run, rows: Files, folder: nat, mentioned: set<string>)
    ensures var rows' := StampedRows(run, rows, folder, mentioned);
            FileStep(run, rows, rows') && LeavesOthers(run, rows, rows', folder)
              && StampsHere(run, rows, rows', folder, mentioned)
  {
  }

  lemma StampingPresent(run: Run, t: Tree, disk: Disk, rows: Files, folder: nat, mentioned: set<string>)
    ensures KeepsPresent(t, disk, rows, StampedRows(run, rows, folder, mentioned))
  {
    hide PathOf, GoneFrom;
  }

  lemma StampingDiffers(run: Run, rows: Files, folder: nat, mentioned: set<string>)
    requires LiveDiffer(rows)
    ensures var rows' := StampedRows(run, rows, folder, mentioned);
            LiveDiffer(rows') && QuietHere(rows, rows', folder)
  {
  }

  /** The loop over the entries, between the rows it began with and the rows it has. */
  ghost predicate Reconciled(
    run: Run, key: string -> string, t: Tree, disk: Disk, folder: nat, l: Listing, rows: Files, rows': Files, n: nat)
  {
    n <= |l.files| && DirectoryStep(run, t, disk, folder, l.mentioned, rows, rows') && LiveDiffer(rows')
    && MentionedStamped(run, rows', folder, l.mentioned)
    && forall k :: 0 <= k < n ==> FiledEntry(run, key, rows', folder, l.files[k])
  }

  lemma EntryReconciles(
    run: Run, key: string -> string, t: Tree, disk: Disk, folder: nat, l: Listing, rows: Files, rows': Files,
      rows'': Files, n: nat, i: nat, outcome: Outcome)
    requires ListingFits(key, l) && n < |l.files| && Reconciled(run, key, t, disk, folder, l, rows, rows', n)
    requires EntryStep(run, t, disk, folder, key(l.files[n].name), l.files[n], rows', rows'', i, outcome)
    ensures Reconciled(run, key, t, disk, folder, l, rows, rows'', n + 1)
  {
    hide PathOf, GoneFrom, EntryStep, DirectoryStep, LiveDiffer;
    var e := l.files[n];
    assert e in l.files;
    EntryKeeps(run, t, disk, folder, key(e.name), e, l.mentioned, rows', rows'', i, outcome);
    StepOnward(run, t, disk, folder, l.mentioned, rows, rows', rows'');
    forall k | 0 <= k < n ensures FiledEntry(run, key, rows'', folder, l.files[k]) {
      var j :| LiveAt(rows', folder, key(l.files[k].name), j) && Stamped(run, rows'[j]) && Agrees(rows'[j], l.files[k]);
      assert rows''[j] == rows'[j];
    }
    assert FiledEntry(run, key, rows'', folder, e);
    MentionedStays(run, t, disk, folder, l.mentioned, rows', rows'');
  }

  /** Stamped rows stay stamped or leave the index. */
  ghost predicate Onward(run: Run, rows: Files, rows': Files) {
    forall i :: i in rows && Stamped(run, rows[i]) ==> i in rows' && Stamped(run, rows'[i])
  }

  lemma EntryOnward(
    run: Run, key: string -> string, t: Tree, disk: Disk, folder: nat, l: Listing, rows: Files, rows': Files,
      rows'': Files, n: nat, i: nat, outcome: Outcome)
    requires n < |l.files| && Onward(run, rows, rows')
    requires EntryStep(run, t, disk, folder, key(l.files[n].name), l.files[n], rows', rows'', i, outcome)
    ensures Onward(run, rows, rows'')
  {
    hide PathOf, GoneFrom;
  }

  /** Rows at mentioned names stay stamped: a row that comes to one is stamped on the way. */
  lemma MentionedStays(run: Run, t: Tree, disk: Disk, folder: nat, mentioned: set<string>, rows: Files, rows': Files)
    requires DirectoryStep(run, t, disk, folder, mentioned, rows, rows')
    requires MentionedStamped(run, rows, folder, mentioned)
    requires forall j :: j in rows' && j !in rows ==> Stamped(run, rows'[j])
    ensures MentionedStamped(run, rows', folder, mentioned)
  {
    hide PathOf, GoneFrom, KeepsPresent;
    forall j | j in rows' && rows'[j].live && rows'[j].folder == folder && rows'[j].key in mentioned
      ensures Stamped(run, rows'[j])
    {
      if j in rows {
        assert RowStep(run, rows[j], rows'[j]);
      }
    }
  }

  /** An entry whose row already agrees changes nothing but stamps and stats, and the ones to come still agree. */
  lemma SettledIsQuiet(
    run: Run, key: string -> string, t: Tree, disk: Disk, folder: nat, l: Listing, rows: Files, rows': Files, n: nat,
      i: nat, outcome: Outcome)
    requires ListingFits(key, l) && n < |l.files| && LiveDiffer(rows)
    requires MentionedStamped(run, rows, folder, l.mentioned)
    requires forall k :: n <= k < |l.files| ==> SettledEntry(key, rows, folder, l.files[k])
    requires EntryStep(run, t, disk, folder, key(l.files[n].name), l.files[n], rows, rows', i, outcome)
    ensures outcome in {Unchanged, Refreshed} && QuietHere(rows, rows', folder)
    ensures forall k :: n < k < |l.files| ==> SettledEntry(key, rows', folder, l.files[k])
  {
    hide PathOf, GoneFrom;
    var e := l.files[n];
    assert SettledEntry(key, rows, folder, e);
    var j :| LiveAt(rows, folder, key(e.name), j) && Agrees(rows[j], e);
    forall k | n < k < |l.files| ensures SettledEntry(key, rows', folder, l.files[k]) {
      var m :| LiveAt(rows, folder, key(l.files[k].name), m) && Agrees(rows[m], l.files[k]);
      assert LiveAt(rows', folder, key(l.files[k].name), m);
    }
  }

  lemma StampingSettles(run: Run, key: string -> string, rows: Files, folder: nat, l: Listing)
    requires Settled(key, rows, folder, l)
    ensures Settled(key, StampedRows(run, rows, folder, l.mentioned), folder, l)
  {
    forall e | e in l.files ensures SettledEntry(key, StampedRows(run, rows, folder, l.mentioned), folder, e) {
      var j :| LiveAt(rows, folder, key(e.name), j) && Agrees(rows[j], e);
      assert LiveAt(StampedRows(run, rows, folder, l.mentioned), folder, key(e.name), j);
    }
  }

  lemma SameOnward(rows: Files, rows': Files, rows'': Files)
    requires SameButStamps(rows, rows') && SameButStamps(rows', rows'')
    ensures SameButStamps(rows, rows'')
  {
    forall i | i in rows ensures SameButStamp(rows[i], rows''[i]) {
      assert SameButStamp(rows[i], rows'[i]) && SameButStamp(rows'[i], rows''[i]);
    }
  }

  lemma QuietOnward(rows: Files, rows': Files, rows'': Files, folder: nat)
    requires QuietHere(rows, rows', folder) && QuietHere(rows', rows'', folder)
    ensures QuietHere(rows, rows'', folder)
  {
    SameOnward(rows, rows', rows'');
    forall i | i in rows && rows[i].folder != folder ensures rows''[i] == rows[i] {
      assert SameButStamp(rows[i], rows'[i]);
    }
  }

  predicate InTrash(rows: Files, folder: nat, k: string, i: nat) {
    i in rows && !rows[i].live && rows[i].folder == folder && rows[i].key == k
  }

  ghost predicate NewestInTrash(rows: Files, folder: nat, k: string, i: nat) {
    InTrash(rows, folder, k, i) && forall j :: InTrash(rows, folder, k, j) ==> rows[j].created <= rows[i].created
  }

  /** Nothing in the folder's trash to restore: none of the name, or the newest of them has other content. */
  ghost predicate NoneToRestore(rows: Files, folder: nat, k: string, hash: nat) {
    (forall j :: !InTrash(rows, folder, k, j)) || exists j :: NewestInTrash(rows, folder, k, j) && rows[j].hash != hash
  }

  /** What the heuristic picks among the rows with this content. */
  ghost predicate Picked(run: Run, key: string -> string, t: Tree, disk: Disk, rows: Files, e: Entry,
                         source: Option<nat>) {
    exists c :: OldestFirst(run, rows, e.hash, c) && source == Choice(key, rows, e.name, Absent(t, disk, rows, c))
  }

  // ------------------------------------------------------------------ folders for what a listing holds

  ghost predicate HasChild(t: Tree, p: nat, k: string) {
    exists c :: ChildOf(t, p, k, c)
  }

  /** Every listed directory has its folder already. */
  ghost predicate HasAll(key: string -> string, t: Tree, p: nat, directories: seq<string>) {
    forall d :: d in directories ==> HasChild(t, p, key(d))
  }

  /** A file row, live or trashed, holds the name of a listed directory that has no folder: the batch is refused. */
  ghost predicate Barred(key: string -> string, t: Tree, rows: Files, at: nat, directories: seq<string>) {
    exists i, d :: i in rows && d in directories && rows[i].folder == at && rows[i].key == key(d)
      && !HasChild(t, at, key(d))
  }

  lemma HasEach(key: string -> string, t: Tree, p: nat, directories: seq<string>, n: nat)
    requires HasAll(key, t, p, directories) && n < |directories|
    ensures HasChild(t, p, key(directories[n]))
  {
  }

  lemma ExtendsSelf(t: Tree)
    requires Linked(t) && SiblingsDiffer(t)
    ensures Extends(t, t)
  {
  }

  lemma Extended(t: Tree, t': Tree, f: nat)
    requires Extends(t, t') && f in t
    ensures f in t' && Linked(t') && SiblingsDiffer(t')
  {
  }

  lemma ExtendsOnward(t: Tree, t': Tree, t'': Tree)
    requires Extends(t, t') && Extends(t', t'')
    ensures Extends(t, t'')
  {
  }

  lemma NoneNew(t: Tree, at: nat)
    ensures NewUnder(t, t, at)
  {
  }

  lemma NewOnward(t: Tree, t': Tree, t'': Tree, at: nat)
    requires NewUnder(t, t', at) && NewUnder(t', t'', at) && Extends(t', t'')
    ensures NewUnder(t, t'', at)
  {
  }

  lemma NewChild(t: Tree, p: nat, name: string, k: string, c: nat)
    requires Linked(t) && SiblingsDiffer(t) && p in t && c !in t && forall x :: !ChildOf(t, p, k, x)
    ensures var t' := t[c := Folder(t[p].workspace, Some(p), name, k, t[p].depth + 1)];
            Extends(t, t') && ChildOf(t', p, k, c)
  {
    var t' := t[c := Folder(t[p].workspace, Some(p), name, k, t[p].depth + 1)];
    assert forall x :: x in t ==> ChildOf(t, p, k, x) || t[x].parent != Some(p) || t[x].key != k;
    assert Linked(t') by {
      assert t[p].depth >= 0;
    }
  }

  lemma PushedExtends(key: string -> string, t: Tree, t': Tree, before: map<Path, nat>, pushed: map<Path, nat>,
                      path: Path, at: nat, directories: seq<string>)
    requires Pushed(key, t, before, pushed, path, at, directories) && Extends(t, t')
    ensures Pushed(key, t', before, pushed, path, at, directories)
  {
    hide Linked, SiblingsDiffer;
  }

  lemma PushedOne(
    key: string -> string, t: Tree, before: map<Path, nat>, pushed: map<Path, nat>, path: Path, at: nat,
      directories: seq<string>, d: string, child: nat)
    requires Pushed(key, t, before, pushed, path, at, directories) && ChildOf(t, at, key(d), child)
    ensures Pushed(key, t, before, if path + [d] in pushed then pushed
      else pushed[path + [d] := child], path, at, directories + [d])
  {
    hide ChildOf;
    var q := path + [d];
    assert q[..|q| - 1] == path && q[|q| - 1] == d;
  }

  lemma TakeOne(s: seq<string>, n: nat)
    requires n < |s|
    ensures s[..n + 1] == s[..n] + [s[n]]
  {
  }

  lemma PushedNothing(key: string -> string, t: Tree, before: map<Path, nat>, path: Path, at: nat)
    ensures Pushed(key, t, before, before, path, at, [])
  {
  }

  lemma {:induction false} PathStays(t: Tree, t': Tree, f: nat)
    requires Linked(t) && Extends(t, t') && f in t
    ensures PathOf(t', f) == PathOf(t, f)
    decreases t[f].depth
  {
    if t[f].parent.Some? {
      PathStays(t, t', t[f].parent.value);
    }
  }

  lemma KeptSelf(t: Tree, disk: Disk, rows: Files)
    ensures KeepsPresent(t, disk, rows, rows)
  {
  }

  lemma KeptOnward(t: Tree, t': Tree, disk: Disk, rows: Files, rows': Files, rows'': Files)
    requires Linked(t) && Extends(t, t') && Housed(t, rows) && KeepsPresent(t, disk, rows, rows')
    requires KeepsPresent(t', disk, rows', rows'')
    ensures KeepsPresent(t, disk, rows, rows'')
  {
    hide PathOf;
    forall i | i in rows && rows[i].live && !GoneFrom(t, disk, rows[i])
      ensures i in rows'' && rows''[i].live && rows''[i].folder == rows[i].folder && rows''[i].name == rows[i].name
      ensures rows''[i].key == rows[i].key
    {
      PathStays(t, t', rows[i].folder);
    }
  }

  // ------------------------------------------------------------------ where a run has got to

  /** What looking at a path of this disk says. */
  function Looked(disk: Disk, p: Path): Verdict {
    if p in disk then Listed(disk[p].directories, disk[p].mentioned) else Gone
  }

  ghost predicate DoneRight(run: Run, key: string -> string, disk: Disk, s: Scan, p: Path)
    requires p in s.done
  {
    s.done[p].verdict == Looked(disk, p) && (p in disk ==> Filed(run, key, s.file, s.done[p].folder, disk[p]))
  }

  /** A live row this run stamped was mentioned by a directory it processed. */
  ghost predicate SeenSomewhere(disk: Disk, s: Scan, i: nat)
    requires i in s.file
  {
    exists p :: p in s.done && p in disk && s.done[p].folder == s.file[i].folder && s.file[i].key in disk[p].mentioned
  }

  ghost predicate Progress(run: Run, key: string -> string, disk: Disk, s: Scan) {
    Inv(run, key, s) && LiveDiffer(s.file) && s.blocked == {} &&
    (forall p :: Known(s, p) ==> p in disk || p == run.path) &&
    (forall p :: p in s.done ==> DoneRight(run, key, disk, s, p)) &&
    (forall i :: i in s.file && s.file[i].live && Stamped(run, s.file[i]) ==> SeenSomewhere(disk, s, i))
  }

  /** A known path is as far below the run's directory as its folder is below the run's folder. */
  lemma {:induction false} KnownDepth(run: Run, key: string -> string, s: Scan, p: Path)
    requires Inv(run, key, s) && Known(s, p)
    ensures FolderAt(s, p) in s.folder && run.root in s.folder && |p| >= |run.path|
    ensures s.folder[FolderAt(s, p)].depth == s.folder[run.root].depth + |p| - |run.path|
    decreases |p|
  {
    hide Unmentioned, Followed, SiblingsDiffer;
    assert ListedByParent(run, key, s, p);
    if p != run.path {
      var up := p[..|p| - 1];
      assert up !in s.frontier;
      KnownDepth(run, key, s, up);
      assert s.folder[FolderAt(s, p)].parent == Some(FolderAt(s, up));
    }
  }

  /** One level up from a known path. */
  lemma Upward(run: Run, key: string -> string, disk: Disk, s: Scan, p: Path)
    requires Progress(run, key, disk, s) && Known(s, p) && p != run.path
    ensures p != [] && var up := p[..|p| - 1];
            up in s.done && Known(s, up) && FolderAt(s, up) == s.done[up].folder && up in disk
              && p[|p| - 1] in disk[up].directories
            && ChildOf(s.folder, s.done[up].folder, key(p[|p| - 1]), FolderAt(s, p))
  {
    hide Unmentioned, Followed, SiblingsDiffer, Filed, SeenSomewhere, LiveDiffer, Linked;
    assert ListedByParent(run, key, s, p);
    assert DoneRight(run, key, disk, s, p[..|p| - 1]);
  }

  lemma SameLast(key: string -> string, l: Listing, d: string, e: string)
    requires ListingFits(key, l) && d in l.directories && e in l.directories && key(d) == key(e)
    ensures d == e
  {
  }

  /** Different directories are filed under different folders. */
  lemma {:induction false} FoldersDiffer(run: Run, key: string -> string, disk: Disk, s: Scan, p: Path, q: Path)
    requires Progress(run, key, disk, s) && DiskFits(key, disk) && Known(s, p) && Known(s, q)
    requires FolderAt(s, p) == FolderAt(s, q)
    ensures p == q
    decreases |p|
  {
    hide Progress, Inv, ListingFits;
    assert Inv(run, key, s) by {
      ProgressInv(run, key, disk, s);
    }
    KnownDepth(run, key, s, p);
    KnownDepth(run, key, s, q);
    if p == run.path || q == run.path {
      ShortestIsRoot(run, key, s, p);
      ShortestIsRoot(run, key, s, q);
    } else {
      Upward(run, key, disk, s, p);
      Upward(run, key, disk, s, q);
      var up, uq := p[..|p| - 1], q[..|q| - 1];
      FoldersDiffer(run, key, disk, s, up, uq);
      SameLast(key, disk[up], p[|p| - 1], q[|q| - 1]);
      assert p == up + [p[|p| - 1]] && q == up + [q[|q| - 1]];
    }
  }

  lemma ProgressInv(run: Run, key: string -> string, disk: Disk, s: Scan)
    requires Progress(run, key, disk, s)
    ensures Inv(run, key, s)
  {
    hide Inv;
  }

  lemma ShortestIsRoot(run: Run, key: string -> string, s: Scan, p: Path)
    requires Inv(run, key, s) && Known(s, p)
    ensures |p| == |run.path| ==> p == run.path
  {
    assert ListedByParent(run, key, s, p);
    if p != run.path {
      RunPathAlone(run, key, s, p[..|p| - 1]);
    }
  }

  lemma FiledStays(run: Run, key: string -> string, rows: Files, rows': Files, at: nat, folder: nat, l: Listing)
    requires Filed(run, key, rows, folder, l) && LeavesOthers(run, rows, rows', at) && at != folder
    ensures Filed(run, key, rows', folder, l)
  {
    forall e | e in l.files ensures FiledEntry(run, key, rows', folder, e) {
      assert FiledEntry(run, key, rows, folder, e);
      var i :| LiveAt(rows, folder, key(e.name), i) && Stamped(run, rows[i]) && Agrees(rows[i], e);
      assert LiveAt(rows', folder, key(e.name), i);
    }
  }

  /** What one committed directory did to the rows, when there was a directory. */
  ghost predicate DirectoryDone(run: Run, key: string -> string, disk: Disk, s: Scan, s': Scan, p: Path) {
    p in s.frontier && LiveDiffer(s'.file) &&
    (p in disk ==> DirectoryStep(run, s'.folder, disk, s.frontier[p], disk[p].mentioned, s.file, s'.file) && Filed(run, key, s'.file, s.frontier[p], disk[p]))
  }

  lemma DoneStaysRight(run: Run, key: string -> string, disk: Disk, s: Scan, s': Scan, p: Path, q: Path)
    requires Progress(run, key, disk, s) && DiskFits(key, disk) && ProcessStep(run, key, s, s', p, Looked(disk, p))
    requires DirectoryDone(run, key, disk, s, s', p)
    requires q in s'.done
    ensures DoneRight(run, key, disk, s', q)
  {
    hide Inv, FileStep, Extends, Pushed, AllStamped, Filed, LiveDiffer, SeenSomewhere, StampsHere, KeepsPresent,
      LeavesOthers, DiskFits;
    if q in s.done {
      NotBoth(run, key, s, p);
      assert DoneRight(run, key, disk, s, q) && p != q && s'.done[q] == s.done[q];
      if p in disk && q in disk {
        if s.frontier[p] == s.done[q].folder {
          NotBothWays(run, key, s, p, q);
          FoldersDiffer(run, key, disk, s, p, q);
        }
        FiledStays(run, key, s.file, s'.file, s.frontier[p], s.done[q].folder, disk[q]);
      }
    }
  }

  lemma NotBothWays(run: Run, key: string -> string, s: Scan, p: Path, q: Path)
    requires Inv(run, key, s) && p in s.frontier && q in s.done
    ensures FolderAt(s, p) == s.frontier[p] && FolderAt(s, q) == s.done[q].folder
  {
  }

  lemma SeenStays(run: Run, key: string -> string, disk: Disk, s: Scan, s': Scan, p: Path, i: nat)
    requires Progress(run, key, disk, s) && ProcessStep(run, key, s, s', p, Looked(disk, p))
    requires DirectoryDone(run, key, disk, s, s', p)
    requires i in s'.file && s'.file[i].live && Stamped(run, s'.file[i])
    ensures SeenSomewhere(disk, s', i)
  {
    hide FileStep, Extends, Pushed, AllStamped, Filed, LiveDiffer, KeepsPresent, LeavesOthers, Linked, SiblingsDiffer,
      ListedByParent, Followed, Unmentioned, DoneRight;
    NotBoth(run, key, s, p);
    if i in s.file && s'.file[i] == s.file[i] {
      assert SeenSomewhere(disk, s, i);
      var q :| q in s.done && q in disk && s.done[q].folder == s.file[i].folder && s.file[i].key in disk[q].mentioned;
      assert q in s'.done && s'.done[q] == s.done[q];
    } else {
      assert p in disk && s'.done[p].folder == s.frontier[p];
    }
  }

  lemma ProcessProgress(run: Run, key: string -> string, disk: Disk, s: Scan, s': Scan, p: Path)
    requires Progress(run, key, disk, s) && DiskFits(key, disk) && ProcessStep(run, key, s, s', p, Looked(disk, p))
    requires DirectoryDone(run, key, disk, s, s', p)
    ensures Progress(run, key, disk, s')
  {
    hide Inv, FileStep, Extends, Pushed, AllStamped, Filed, LiveDiffer, StampsHere, KeepsPresent, LeavesOthers,
      SeenSomewhere, DoneRight, DiskFits, Known;
    CommitKeeps(run, key, s, s', Process(p, Looked(disk, p)));
    forall q | q in s'.done ensures DoneRight(run, key, disk, s', q) {
      DoneStaysRight(run, key, disk, s, s', p, q);
    }
    forall i | i in s'.file && s'.file[i].live && Stamped(run, s'.file[i]) ensures SeenSomewhere(disk, s', i) {
      SeenStays(run, key, disk, s, s', p, i);
    }
    forall q | Known(s', q) ensures q in disk || q == run.path {
      KnownOnDisk(run, key, disk, s, s', p, q);
    }
  }

  lemma KnownOnDisk(run: Run, key: string -> string, disk: Disk, s: Scan, s': Scan, p: Path, q: Path)
    requires Progress(run, key, disk, s) && DiskFits(key, disk) && ProcessStep(run, key, s, s', p, Looked(disk, p))
    requires Known(s', q)
    ensures q in disk || q == run.path
  {
    hide Progress, DiskFits, ProcessStep;
    ProgressInv(run, key, disk, s);
    if p in disk {
      PushedKnown(run, key, s, s', p, Looked(disk, p));
      if !Known(s, q) {
        ListedOnDisk(key, disk, p, q[|q| - 1]);
        assert q == p + [q[|q| - 1]];
      }
    } else {
      GoneKnown(run, key, s, s', p, q);
    }
    if Known(s, q) {
      WasOnDisk(run, key, disk, s, q);
    }
  }

  lemma ListedOnDisk(key: string -> string, disk: Disk, p: Path, d: string)
    requires DiskFits(key, disk) && p in disk && d in disk[p].directories
    ensures p + [d] in disk
  {
    hide ListingFits;
  }

  lemma GoneKnown(run: Run, key: string -> string, s: Scan, s': Scan, p: Path, q: Path)
    requires ProcessStep(run, key, s, s', p, Gone) && Known(s', q)
    ensures Known(s, q)
  {
  }

  lemma WasOnDisk(run: Run, key: string -> string, disk: Disk, s: Scan, q: Path)
    requires Progress(run, key, disk, s) && Known(s, q)
    ensures q in disk || q == run.path
  {
    hide Inv, LiveDiffer, DoneRight, SeenSomewhere;
  }

  lemma FrontierFolder(run: Run, key: string -> string, disk: Disk, s: Scan, p: Path)
    requires Progress(run, key, disk, s) && p in s.frontier
    ensures s.frontier[p] in s.folder && Linked(s.folder) && SiblingsDiffer(s.folder) && LiveDiffer(s.file)
    ensures s.blocked == {}
    ensures p in disk || p == run.path
  {
    KnownDepth(run, key, s, p);
  }

  lemma FitsAt(key: string -> string, disk: Disk, p: Path)
    requires DiskFits(key, disk) && p in disk
    ensures ListingFits(key, disk[p])
  {
  }

  lemma ReconciledIs(run: Run, key: string -> string, t: Tree, disk: Disk, folder: nat, l: Listing, rows: Files,
                     rows': Files)
    requires Reconciled(run, key, t, disk, folder, l, rows, rows', |l.files|)
    ensures FileStep(run, rows, rows') && LiveDiffer(rows') && Filed(run, key, rows', folder, l)
    ensures DirectoryStep(run, t, disk, folder, l.mentioned, rows, rows') && KeepsPresent(t, disk, rows, rows')
    ensures MentionedStamped(run, rows', folder, l.mentioned)
  {
    hide LiveDiffer, FileStep, LeavesOthers, StampsHere, KeepsPresent, MentionedStamped, FiledEntry;
    forall e | e in l.files ensures FiledEntry(run, key, rows', folder, e) {
      var k :| 0 <= k < |l.files| && l.files[k] == e;
    }
  }

  lemma FrontierNotDone(run: Run, key: string -> string, disk: Disk, s: Scan, p: Path)
    requires Progress(run, key, disk, s) && p in s.frontier
    ensures p !in s.done
  {
    hide Linked, SiblingsDiffer, LiveDiffer;
  }

  lemma DoneGrows(run: Run, key: string -> string, s: Scan, s': Scan, p: Path, v: Verdict)
    requires ProcessStep(run, key, s, s', p, v)
    ensures s'.done.Keys == s.done.Keys + {p}
  {
  }

  // ------------------------------------------------------------------ when it is finished

  /** The directories a walk from the run's own can come to. */
  ghost predicate Reachable(run: Run, disk: Disk, p: Path) {
    run.path <= p && forall n :: |run.path| <= n < |p| ==> p[..n] in disk && p[n] in disk[p[..n]].directories
  }

  /** The folder a path below the run's directory names. */
  ghost function FolderFor(run: Run, key: string -> string, t: Tree, p: Path): Option<nat> {
    if run.path <= p then Resolve(t, Some(run.root), p[|run.path|..], key) else None
  }

  ghost predicate SettledPath(run: Run, key: string -> string, disk: Disk, t: Tree, rows: Files, p: Path)
    requires p in disk
  {
    FolderFor(run, key, t, p).Some? && Settled(key, rows, FolderFor(run, key, t, p).value, disk[p])
  }

  /** The row stands for something the disk still holds at its place: an accepted file, or a name seen and refused. */
  ghost predicate HasPlace(run: Run, key: string -> string, disk: Disk, t: Tree, f: FileRow) {
    exists p :: p in disk && Reachable(run, disk, p) && FolderFor(run, key, t, p) == Some(f.folder)
      && f.key in disk[p].mentioned
  }

  /**
   The index is what the disk says below the run's folder: every accepted file of every reachable directory has its one
   live row there, agreeing with it, and every live row stands for a name that is there.
  */
  ghost predicate Converged(run: Run, key: string -> string, disk: Disk, t: Tree, rows: Files) {
    LiveDiffer(rows) && (forall p :: p in disk && Reachable(run, disk, p) ==>
      SettledPath(run, key, disk, t, rows, p)) &&
    (forall i :: i in rows && rows[i].live && Above(t, run.root, rows[i].folder) ==>
      HasPlace(run, key, disk, t, rows[i]))
  }

  ghost predicate OneWithContent(rows: Files, folder: nat, k: string, hash: nat) {
    exists i :: LiveAt(rows, folder, k, i) && rows[i].hash == hash && forall j :: LiveAt(rows, folder, k, j) ==> j == i
  }

  /**
   Read by content: where a row with the recorded stat of a file also has its bytes, every accepted file of every
   reachable directory has exactly one live row at its place, with its hash.
  */
  lemma ConvergedContent(run: Run, key: string -> string, disk: Disk, t: Tree, rows: Files, p: Path, e: Entry)
    requires Converged(run, key, disk, t, rows) && p in disk && Reachable(run, disk, p) && e in disk[p].files
    requires forall i :: i in rows && rows[i].stat == Some(e.stat) && rows[i].key == key(e.name) ==>
      rows[i].hash == e.hash
    ensures FolderFor(run, key, t, p).Some?
    ensures OneWithContent(rows, FolderFor(run, key, t, p).value, key(e.name), e.hash)
  {
    hide Reachable, FolderFor;
    assert SettledPath(run, key, disk, t, rows, p);
    var folder := FolderFor(run, key, t, p).value;
    assert SettledEntry(key, rows, folder, e);
    var i :| LiveAt(rows, folder, key(e.name), i) && Agrees(rows[i], e);
    assert forall j :: LiveAt(rows, folder, key(e.name), j) ==> j == i;
  }

  lemma {:induction false} KnownResolves(run: Run, key: string -> string, s: Scan, p: Path)
    requires Inv(run, key, s) && Known(s, p)
    ensures run.path <= p && FolderFor(run, key, s.folder, p) == Some(FolderAt(s, p))
    decreases |p|
  {
    hide Unmentioned, Followed, Linked;
    assert ListedByParent(run, key, s, p);
    if p == run.path {
      assert p[|run.path|..] == [];
    } else {
      var up, last := p[..|p| - 1], p[|p| - 1];
      assert up !in s.frontier;
      KnownResolves(run, key, s, up);
      assert p[|run.path|..] == up[|run.path|..] + [last];
      ResolveLast(s.folder, Some(run.root), up[|run.path|..], last, key);
      TheChild(s.folder, FolderAt(s, up), key(last), FolderAt(s, p));
    }
  }

  lemma ReachableUp(run: Run, disk: Disk, p: Path)
    requires p != [] && p != run.path
    ensures Reachable(run, disk, p) <==>
      Reachable(run, disk, p[..|p| - 1]) && p[..|p| - 1] in disk && p[|p| - 1] in disk[p[..|p| - 1]].directories
  {
    var up := p[..|p| - 1];
    assert forall n :: 0 <= n <= |up| ==> up[..n] == p[..n];
    if run.path <= p {
      assert run.path == p[..|run.path|];
      assert |run.path| < |p|;
    }
    if run.path <= up {
      assert run.path == up[..|run.path|];
    }
  }

  lemma {:induction false} DoneIsReachable(run: Run, key: string -> string, disk: Disk, s: Scan, p: Path)
    requires Progress(run, key, disk, s) && p in s.done
    ensures Reachable(run, disk, p)
    decreases |p|
  {
    hide Progress, Reachable;
    if p == run.path {
      RunPathReachable(run, disk);
    } else {
      Upward(run, key, disk, s, p);
      DoneIsReachable(run, key, disk, s, p[..|p| - 1]);
      ReachableUp(run, disk, p);
    }
  }

  lemma RunPathReachable(run: Run, disk: Disk)
    ensures Reachable(run, disk, run.path)
  {
  }

  lemma ChildDone(run: Run, key: string -> string, disk: Disk, s: Scan, p: Path, d: string)
    requires Progress(run, key, disk, s) && s.frontier == map[] && p in s.done && p in disk && d in disk[p].directories
    ensures p + [d] in s.done
  {
    hide ListedByParent, Unmentioned, SiblingsDiffer, Linked, Filed, LiveDiffer, SeenSomewhere;
    assert DoneRight(run, key, disk, s, p) && Followed(s, p);
    assert Known(s, p + [d]);
  }

  /** With the frontier empty, the run has processed exactly the reachable directories. */
  lemma {:induction false} ReachableIsDone(run: Run, key: string -> string, disk: Disk, s: Scan, p: Path)
    requires Progress(run, key, disk, s) && s.frontier == map[]
    ensures Reachable(run, disk, p) <==> p in s.done
    decreases |p|
  {
    hide Progress, Inv, Reachable;
    if p in s.done {
      DoneIsReachable(run, key, disk, s, p);
    }
    if Reachable(run, disk, p) {
      if p == run.path {
        RootDone(run, key, disk, s);
      } else {
        ReachableNotEmpty(run, disk, p);
        ReachableUp(run, disk, p);
        ReachableIsDone(run, key, disk, s, p[..|p| - 1]);
        ChildDone(run, key, disk, s, p[..|p| - 1], p[|p| - 1]);
        assert p == p[..|p| - 1] + [p[|p| - 1]];
      }
    }
  }

  lemma RootDone(run: Run, key: string -> string, disk: Disk, s: Scan)
    requires Progress(run, key, disk, s) && s.frontier == map[]
    ensures run.path in s.done
  {
  }

  lemma ReachableNotEmpty(run: Run, disk: Disk, p: Path)
    requires Reachable(run, disk, p) && p != run.path
    ensures p != []
  {
  }

  lemma FiledIsSettled(run: Run, key: string -> string, rows: Files, folder: nat, l: Listing)
    requires Filed(run, key, rows, folder, l)
    ensures Settled(key, rows, folder, l)
  {
    forall e | e in l.files ensures SettledEntry(key, rows, folder, e) {
      assert FiledEntry(run, key, rows, folder, e);
    }
  }

  /** Done traversing, and nothing left to sweep: the index has converged. */
  lemma ProgressConverges(run: Run, key: string -> string, disk: Disk, s: Scan)
    requires Progress(run, key, disk, s) && s.frontier == map[]
    requires forall i :: i in s.file && s.file[i].live && Above(s.folder, run.root, s.file[i].folder) ==>
      Stamped(run, s.file[i])
    ensures Converged(run, key, disk, s.folder, s.file)
  {
    hide Inv, Filed, Settled, SeenSomewhere, FolderFor, LiveDiffer;
    ProgressInv(run, key, disk, s);
    forall p | p in disk && Reachable(run, disk, p) ensures SettledPath(run, key, disk, s.folder, s.file, p) {
      ReachableIsDone(run, key, disk, s, p);
      assert DoneRight(run, key, disk, s, p);
      KnownResolves(run, key, s, p);
      FiledIsSettled(run, key, s.file, s.done[p].folder, disk[p]);
    }
    forall i | i in s.file && s.file[i].live && Above(s.folder, run.root, s.file[i].folder)
      ensures HasPlace(run, key, disk, s.folder, s.file[i])
    {
      SeenHasPlace(run, key, disk, s, i);
    }
  }

  lemma SeenHasPlace(run: Run, key: string -> string, disk: Disk, s: Scan, i: nat)
    requires Progress(run, key, disk, s) && s.frontier == map[] && i in s.file && SeenSomewhere(disk, s, i)
    ensures HasPlace(run, key, disk, s.folder, s.file[i])
  {
    hide Inv, DoneRight, FolderFor, LiveDiffer;
    ProgressInv(run, key, disk, s);
    var p :| p in s.done && p in disk && s.done[p].folder == s.file[i].folder && s.file[i].key in disk[p].mentioned;
    ReachableIsDone(run, key, disk, s, p);
    KnownResolves(run, key, s, p);
  }

  // ------------------------------------------------------------------ a second run

  lemma {:induction false} ResolveDepth(t: Tree, a: nat, segments: seq<string>, key: string -> string, f: nat)
    requires Linked(t) && a in t && Resolve(t, Some(a), segments, key) == Some(f)
    ensures f in t && t[f].depth == t[a].depth + |segments|
    decreases |segments|
  {
    if segments != [] {
      var most, last := segments[..|segments| - 1], segments[|segments| - 1];
      assert segments == most + [last];
      ResolveLast(t, Some(a), most, last, key);
      var p := Resolve(t, Some(a), most, key).value;
      ResolveDepth(t, a, most, key, p);
      assert Child(t, p, key(last), f);
    }
  }

  /** The last step of a lookup below the run's directory. */
  lemma FolderUp(run: Run, key: string -> string, t: Tree, p: Path, f: nat)
    requires SiblingsDiffer(t) && p != [] && p != run.path && run.path <= p
    ensures run.path <= p[..|p| - 1]
    ensures FolderFor(run, key, t, p) == Some(f) <==>
      FolderFor(run, key, t, p[..|p| - 1]).Some?
        && ChildOf(t, FolderFor(run, key, t, p[..|p| - 1]).value, key(p[|p| - 1]), f)
  {
    var up, last := p[..|p| - 1], p[|p| - 1];
    assert |run.path| < |p| by {
      assert run.path == p[..|run.path|];
    }
    assert run.path == up[..|run.path|];
    assert p[|run.path|..] == up[|run.path|..] + [last];
    ResolveLast(t, Some(run.root), up[|run.path|..], last, key);
    if FolderFor(run, key, t, up).Some? {
      TheChild(t, FolderFor(run, key, t, up).value, key(last), f);
    }
  }

  lemma LookupDepth(run: Run, key: string -> string, t: Tree, p: Path, f: nat)
    requires Linked(t) && run.root in t && FolderFor(run, key, t, p) == Some(f)
    ensures run.path <= p && f in t && t[f].depth == t[run.root].depth + |p| - |run.path|
  {
    ResolveDepth(t, run.root, p[|run.path|..], key, f);
  }

  /** Different reachable directories name different folders. */
  lemma {:induction false} LookupsDiffer(run: Run, key: string -> string, disk: Disk, t: Tree, p: Path, q: Path, f: nat)
    requires Linked(t) && SiblingsDiffer(t) && run.root in t && DiskFits(key, disk) && Reachable(run, disk, p)
    requires Reachable(run, disk, q)
    requires FolderFor(run, key, t, p) == Some(f) && FolderFor(run, key, t, q) == Some(f)
    ensures p == q
    decreases |p|
  {
    hide Linked, SiblingsDiffer, ListingFits, Reachable, FolderFor;
    LookupDepth(run, key, t, p, f);
    LookupDepth(run, key, t, q, f);
    if p == run.path || q == run.path {
      assert p == q;
    } else {
      ReachableNotEmpty(run, disk, p);
      ReachableNotEmpty(run, disk, q);
      ReachableUp(run, disk, p);
      ReachableUp(run, disk, q);
      var up, uq := p[..|p| - 1], q[..|q| - 1];
      FolderUp(run, key, t, p, f);
      FolderUp(run, key, t, q, f);
      LookupsDiffer(run, key, disk, t, up, uq, FolderFor(run, key, t, up).value);
      SameLast(key, disk[up], p[|p| - 1], q[|q| - 1]);
      assert p == up + [p[|p| - 1]] && q == up + [q[|q| - 1]];
    }
  }

  /** A run that began converged has changed nothing yet but stamps and stats. */
  ghost predicate QuietSoFar(run: Run, key: string -> string, disk: Disk, t: Tree, rows: Files, s: Scan) {
    s.folder == t && SameButStamps(rows, s.file) &&
    (forall p :: p in disk && Reachable(run, disk, p) && p !in s.done ==> SettledPath(run, key, disk, t, s.file, p)) &&
    (forall p :: p in s.done && p in disk ==> MentionedStamped(run, s.file, s.done[p].folder, disk[p].mentioned))
  }

  lemma KnownReachable(run: Run, key: string -> string, disk: Disk, s: Scan, p: Path)
    requires Progress(run, key, disk, s) && Known(s, p)
    ensures Reachable(run, disk, p)
  {
    hide Progress, Reachable;
    if p == run.path {
      RunPathReachable(run, disk);
    } else {
      Upward(run, key, disk, s, p);
      DoneIsReachable(run, key, disk, s, p[..|p| - 1]);
      ReachableUp(run, disk, p);
    }
  }

  /** The next directory of a converged index is settled, and every child it lists has its folder. */
  lemma NextIsSettled(run: Run, key: string -> string, disk: Disk, t: Tree, rows: Files, s: Scan, p: Path)
    requires Progress(run, key, disk, s) && DiskFits(key, disk) && QuietSoFar(run, key, disk, t, rows, s)
    requires p in s.frontier && p in disk
    ensures Settled(key, s.file, s.frontier[p], disk[p])
    ensures HasAll(key, s.folder, s.frontier[p], disk[p].directories)
  {
    hide Progress, Reachable, Settled, Linked, Unmentioned, Followed, FolderFor, SameButStamps, MentionedStamped;
    ProgressInv(run, key, disk, s);
    NotBoth(run, key, s, p);
    KnownReachable(run, key, disk, s, p);
    KnownResolves(run, key, s, p);
    assert SettledPath(run, key, disk, t, s.file, p);
    forall d | d in disk[p].directories ensures HasChild(s.folder, s.frontier[p], key(d)) {
      var q := p + [d];
      assert q[..|q| - 1] == p;
      assert q != run.path by {
        KnownDepth(run, key, s, p);
      }
      ReachableUp(run, disk, q);
      if q in s.done {
        KnownListed(run, key, s, q);
      }
      assert SettledPath(run, key, disk, t, s.file, q);
      PathsGrow(run, disk, q);
      FolderUp(run, key, t, q, FolderFor(run, key, t, q).value);
    }
  }

  lemma PathsGrow(run: Run, disk: Disk, p: Path)
    requires Reachable(run, disk, p)
    ensures run.path <= p
  {
  }

  lemma KnownListed(run: Run, key: string -> string, s: Scan, q: Path)
    requires Inv(run, key, s) && q in s.done && q != run.path
    ensures q != [] && q[..|q| - 1] in s.done
  {
    assert ListedByParent(run, key, s, q);
  }

  lemma SettledStays(key: string -> string, rows: Files, rows': Files, at: nat, folder: nat, l: Listing)
    requires Settled(key, rows, folder, l) && QuietHere(rows, rows', at) && at != folder
    ensures Settled(key, rows', folder, l)
  {
    forall e | e in l.files ensures SettledEntry(key, rows', folder, e) {
      assert SettledEntry(key, rows, folder, e);
      var i :| LiveAt(rows, folder, key(e.name), i) && Agrees(rows[i], e);
      assert LiveAt(rows', folder, key(e.name), i);
    }
  }

  lemma QuietStep(run: Run, key: string -> string, disk: Disk, t: Tree, rows: Files, s: Scan, s': Scan, p: Path)
    requires Progress(run, key, disk, s) && DiskFits(key, disk) && QuietSoFar(run, key, disk, t, rows, s)
    requires p in s.frontier
    requires s'.folder == s.folder && s'.done == s.done[p := Processed(s.frontier[p], Looked(disk, p))]
    requires if p in disk then QuietHere(s.file, s'.file, s.frontier[p]) && MentionedStamped(run, s'.file, s.frontier[p], disk[p].mentioned) else s'.file == s.file
    ensures QuietSoFar(run, key, disk, t, rows, s')
  {
    hide Progress, Inv, Reachable, Settled, Linked, FolderFor, SameButStamps, MentionedStamped, QuietHere, DiskFits,
      LiveDiffer;
    ProgressInv(run, key, disk, s);
    NotBoth(run, key, s, p);
    SameHere(rows, s.file, s'.file, s.frontier[p]);
    forall q | q in disk && Reachable(run, disk, q) && q !in s'.done
      ensures SettledPath(run, key, disk, t, s'.file, q)
    {
      assert SettledPath(run, key, disk, t, s.file, q);
      if p in disk {
        OthersElsewhere(run, key, disk, s, p, q);
        SettledStays(key, s.file, s'.file, s.frontier[p], FolderFor(run, key, t, q).value, disk[q]);
      }
    }
    forall q | q in s'.done && q in disk ensures MentionedStamped(run, s'.file, s'.done[q].folder, disk[q].mentioned) {
      if q != p && p in disk {
        NotBothWays(run, key, s, p, q);
        if s.done[q].folder == s.frontier[p] {
          FoldersDiffer(run, key, disk, s, p, q);
        }
        MentionedElsewhere(run, s.file, s'.file, s.frontier[p], s.done[q].folder, disk[q].mentioned);
      }
    }
  }

  lemma SameHere(rows: Files, rows': Files, rows'': Files, at: nat)
    requires SameButStamps(rows, rows') && (QuietHere(rows', rows'', at) || rows'' == rows')
    ensures SameButStamps(rows, rows'')
  {
    if QuietHere(rows', rows'', at) {
      SameOnward(rows, rows', rows'');
    }
  }

  lemma OthersElsewhere(run: Run, key: string -> string, disk: Disk, s: Scan, p: Path, q: Path)
    requires Progress(run, key, disk, s) && DiskFits(key, disk) && p in s.frontier && q != p && Reachable(run, disk, q)
    ensures FolderFor(run, key, s.folder, q) != Some(s.frontier[p])
  {
    hide Reachable, FolderFor, ListedByParent, Followed, Unmentioned, DoneRight, SeenSomewhere, LiveDiffer, Linked,
      SiblingsDiffer;
    KnownReachable(run, key, disk, s, p);
    KnownResolves(run, key, s, p);
    if FolderFor(run, key, s.folder, q) == Some(s.frontier[p]) {
      LookupsDiffer(run, key, disk, s.folder, p, q, s.frontier[p]);
    }
  }

  lemma MentionedElsewhere(run: Run, rows: Files, rows': Files, at: nat, folder: nat, mentioned: set<string>)
    requires MentionedStamped(run, rows, folder, mentioned) && QuietHere(rows, rows', at) && at != folder
    ensures MentionedStamped(run, rows', folder, mentioned)
  {
    forall i | i in rows' && rows'[i].live && rows'[i].folder == folder && rows'[i].key in mentioned
      ensures Stamped(run, rows'[i])
    {
      assert SameButStamp(rows[i], rows'[i]);
    }
  }

  /** Nothing is left to sweep after a traversal that began converged. */
  lemma QuietStamps(run: Run, key: string -> string, disk: Disk, t: Tree, rows: Files, s: Scan, i: nat)
    requires Progress(run, key, disk, s) && Converged(run, key, disk, t, rows) && QuietSoFar(run, key, disk, t, rows, s)
    requires s.frontier == map[]
    requires i in s.file && s.file[i].live && Above(s.folder, run.root, s.file[i].folder)
    ensures Stamped(run, s.file[i])
  {
    hide Progress, Reachable, FolderFor, LiveDiffer, Settled;
    ProgressInv(run, key, disk, s);
    assert SameButStamp(rows[i], s.file[i]);
    assert HasPlace(run, key, disk, t, rows[i]);
    var p :| p in disk && Reachable(run, disk, p) && FolderFor(run, key, t, p) == Some(rows[i].folder)
      && rows[i].key in disk[p].mentioned;
    ReachableIsDone(run, key, disk, s, p);
    KnownResolves(run, key, s, p);
    NotBothIs(run, key, s, p);
    assert MentionedStamped(run, s.file, s.done[p].folder, disk[p].mentioned);
  }

  lemma NotBothIs(run: Run, key: string -> string, s: Scan, p: Path)
    requires Inv(run, key, s) && p in s.done
    ensures FolderAt(s, p) == s.done[p].folder
  {
  }

  // ------------------------------------------------------------------ the sweep

  lemma SweepProgress(run: Run, key: string -> string, disk: Disk, s: Scan, s': Scan, batch: set<nat>)
    requires Progress(run, key, disk, s) && SweepStep(run, s, s', batch)
    ensures Progress(run, key, disk, s')
  {
    hide Inv, SweepStep, Filed, SeenSomewhere, Unseen;
    CommitKeeps(run, key, s, s', Sweep(batch));
    SweptRows(run, s, s', batch);
    forall p | p in s'.done ensures DoneRight(run, key, disk, s', p) {
      assert DoneRight(run, key, disk, s, p);
      if p in disk {
        FiledSwept(run, key, s.file, s'.file, s.done[p].folder, disk[p]);
      }
    }
    forall i | i in s'.file && s'.file[i].live && Stamped(run, s'.file[i]) ensures SeenSomewhere(disk, s', i) {
      assert SeenSomewhere(disk, s, i);
      SeenSwept(disk, s, s', i);
    }
    assert forall p :: Known(s', p) ==> Known(s, p);
  }

  /** A sweep leaves every stamped row as it was, and only ever takes rows out. */
  ghost predicate Swept(run: Run, rows: Files, rows': Files) {
    rows'.Keys == rows.Keys && (forall i :: i in rows && Stamped(run, rows[i]) ==> rows'[i] == rows[i]) &&
    forall i :: i in rows ==> rows'[i] == rows[i] || (rows[i].live && rows'[i] == rows[i].(live := false))
  }

  lemma SweptRows(run: Run, s: Scan, s': Scan, batch: set<nat>)
    requires SweepStep(run, s, s', batch)
    ensures Swept(run, s.file, s'.file) && s'.folder == s.folder && s'.done == s.done && s'.blocked == s.blocked
    ensures s'.frontier == s.frontier
  {
  }

  lemma FiledSwept(run: Run, key: string -> string, rows: Files, rows': Files, folder: nat, l: Listing)
    requires Filed(run, key, rows, folder, l) && Swept(run, rows, rows')
    ensures Filed(run, key, rows', folder, l)
  {
    forall e | e in l.files ensures FiledEntry(run, key, rows', folder, e) {
      assert FiledEntry(run, key, rows, folder, e);
      var i :| LiveAt(rows, folder, key(e.name), i) && Stamped(run, rows[i]) && Agrees(rows[i], e);
      assert LiveAt(rows', folder, key(e.name), i);
    }
  }

  lemma SeenSwept(disk: Disk, s: Scan, s': Scan, i: nat)
    requires i in s.file && i in s'.file && s'.file[i] == s.file[i] && s'.done == s.done && SeenSomewhere(disk, s, i)
    ensures SeenSomewhere(disk, s', i)
  {
  }

  /** Whatever is live and unstamped was there before the run. */
  ghost predicate Young(run: Run, rows: Files) {
    forall i :: i in rows && rows[i].live && !Stamped(run, rows[i]) ==> rows[i].created < run.start
  }

  lemma YoungStays(run: Run, rows: Files, rows': Files, folder: nat)
    requires Young(run, rows) && FileStep(run, rows, rows') && LeavesOthers(run, rows, rows', folder)
    ensures Young(run, rows')
  {
    forall i | i in rows' && rows'[i].live && !Stamped(run, rows'[i]) ensures rows'[i].created < run.start {
      assert i in rows && RowStep(run, rows[i], rows'[i]);
    }
  }

  lemma YoungReconciled(run: Run, key: string -> string, t: Tree, disk: Disk, folder: nat, l: Listing, rows: Files,
                        rows': Files)
    requires Young(run, rows) && Reconciled(run, key, t, disk, folder, l, rows, rows', |l.files|)
    ensures Young(run, rows')
  {
    hide Young, FileStep, LeavesOthers, StampsHere, KeepsPresent, LiveDiffer, MentionedStamped, FiledEntry;
    YoungStays(run, rows, rows', folder);
  }

  lemma StartProgress(run: Run, key: string -> string, disk: Disk, s: Scan)
    requires Begun(run, s) && LiveDiffer(s.file) && Fresh(run, s.file)
    ensures Progress(run, key, disk, s)
  {
    hide Linked, SiblingsDiffer;
    BegunInv(run, key, s);
  }

  lemma StartQuiet(run: Run, key: string -> string, disk: Disk, s: Scan)
    requires Begun(run, s) && Converged(run, key, disk, s.folder, s.file)
    ensures QuietSoFar(run, key, disk, s.folder, s.file, s)
  {
    hide Linked, SiblingsDiffer, HasPlace, SettledPath;
  }

  /** What a finished traversal left unstamped in the subtree is what the sweep asks for. */
  lemma OnlyUnseenLeft(run: Run, key: string -> string, disk: Disk, s: Scan)
    requires Progress(run, key, disk, s) && Young(run, s.file)
    requires forall i :: !Unseen(run, s, i)
    ensures forall i :: i in s.file && s.file[i].live && Above(s.folder, run.root, s.file[i].folder) ==>
      Stamped(run, s.file[i])
  {
    hide Inv, LiveDiffer, DoneRight, SeenSomewhere;
    forall i | i in s.file && s.file[i].live && Above(s.folder, run.root, s.file[i].folder)
      ensures Stamped(run, s.file[i])
    {
      assert !Unseen(run, s, i);
    }
  }

  const SWEEP_BATCH := 500

  lemma UnseenIn(run: Run, s: Scan)
    ensures forall i :: Unseen(run, s, i) ==> i in s.file && s.file[i].live
  {
  }

  lemma SameUnseen(run: Run, s: Scan, s': Scan)
    requires s'.folder == s.folder && s'.file == s.file && s'.blocked == s.blocked
    ensures forall i :: Unseen(run, s, i) <==> Unseen(run, s', i)
  {
    hide Above;
  }

  lemma SweepTakes(run: Run, s: Scan, s': Scan, batch: set<nat>)
    requires SweepStep(run, s, s', batch)
    ensures forall i :: i in batch ==> i in s.file && s.file[i].live && Unseen(run, s, i)
  {
  }

  lemma SweptOnward(run: Run, rows: Files, rows': Files, rows'': Files)
    requires Swept(run, rows, rows') && Swept(run, rows', rows'')
    ensures Swept(run, rows, rows'')
  {
  }

  lemma FreshIsYoung(run: Run, rows: Files)
    requires Fresh(run, rows)
    ensures Young(run, rows)
  {
  }

  lemma YoungSwept(run: Run, rows: Files, rows': Files)
    requires Young(run, rows) && Swept(run, rows, rows')
    ensures Young(run, rows')
  {
  }

  /** Files still at their own path keep their place in the index. */
  ghost predicate StaysPut(t: Tree, disk: Disk, rows: Files, rows': Files) {
    forall i :: i in rows && rows[i].live && PathOf(t, rows[i].folder) in disk && rows[i].name in disk[PathOf(t, rows[i].folder)].names ==>
      i in rows' && rows'[i].folder == rows[i].folder && rows'[i].name == rows[i].name && rows'[i].key == rows[i].key
  }

  lemma KeptStays(t: Tree, disk: Disk, rows: Files, rows': Files, rows'': Files)
    requires KeepsPresent(t, disk, rows, rows')
    requires rows''.Keys == rows'.Keys
    requires forall i :: i in rows' ==> rows''[i] == rows'[i] || rows''[i] == rows'[i].(live := false)
    ensures StaysPut(t, disk, rows, rows'')
  {
  }

  lemma QuietNoneUnseen(run: Run, key: string -> string, disk: Disk, t: Tree, rows: Files, s: Scan)
    requires Progress(run, key, disk, s) && Converged(run, key, disk, t, rows) && QuietSoFar(run, key, disk, t, rows, s)
    requires s.frontier == map[]
    ensures forall i :: !Unseen(run, s, i)
    ensures s.folder == t && SameButStamps(rows, s.file)
  {
    hide Progress, Converged;
    forall i ensures !Unseen(run, s, i) {
      if i in s.file && s.file[i].live && Above(s.folder, run.root, s.file[i].folder) {
        QuietStamps(run, key, disk, t, rows, s, i);
      }
    }
  }
}
