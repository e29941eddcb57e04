/** What the counters of a scan run say (scans.py `Progress`): each is how many rows differ in one way. */
module Tallying {
  import opened Common
  import opened FolderTree
  import opened ScanSafety
  import opened Reconciling
  import opened Converging
  import opened Refusing

  // ------------------------------------------------------------------ how rows differ

  /** The row says the same file is at the same place. */
  predicate SameRow(f: FileRow, f': FileRow) {
    f'.folder == f.folder && f'.key == f.key && f'.live == f.live && f'.hash == f.hash
  }

  ghost function NewRows(rows: Files, rows': Files): set<nat> {
    set i | i in rows' && i !in rows
  }

  datatype Change = Rewritten | Refiled | Returned | Trashed

  predicate Underwent(c: Change, f: FileRow, f': FileRow) {
    match c
    case Rewritten => f'.hash != f.hash
    case Refiled => f'.folder != f.folder || f'.key != f.key
    case Returned => !f.live && f'.live
    case Trashed => f.live && !f'.live
  }

  ghost function Rows(c: Change, rows: Files, rows': Files): set<nat> {
    set i | i in rows && i in rows' && Underwent(c, rows[i], rows'[i])
  }

  /** The four counters of the traversal. */
  ghost predicate Counts(t: Tally, rows: Files, rows': Files) {
    t.registered == |NewRows(rows, rows')| && t.changed == |Rows(Rewritten, rows, rows')|
    && t.moved == |Rows(Refiled, rows, rows')| && t.restored == |Rows(Returned, rows, rows')|
  }

  /** No row is lost or trashed. */
  ghost predicate NoneLost(rows: Files, rows': Files) {
    forall i :: i in rows ==> i in rows' && (rows[i].live ==> rows'[i].live)
  }

  /** A part of the traversal, counted right. */
  ghost predicate Tallied(t: Tally, rows: Files, rows': Files) {
    Counts(t, rows, rows') && NoneLost(rows, rows')
  }

  lemma SumZero(t: Tally, rows: Files, rows': Files)
    ensures Tallied(t, rows, rows') ==> Tallied(Sum(t, Tally(0, 0, 0, 0)), rows, rows')
  {
    hide Counts;
  }

  lemma NoneTallied(rows: Files)
    ensures Tallied(Tally(0, 0, 0, 0), rows, rows) && Nothing(Tally(0, 0, 0, 0))
  {
    assert NewRows(rows, rows) == {} && Rows(Rewritten, rows, rows) == {};
    assert Rows(Refiled, rows, rows) == {} && Rows(Returned, rows, rows) == {};
  }

  /** No row is touched twice, nor is one that came in between. */
  ghost predicate TouchedOnce(rows: Files, rows': Files, rows'': Files) {
    forall i :: i in rows' ==>
      i in rows'' && (SameRow(rows'[i], rows''[i]) || (i in rows && SameRow(rows[i], rows'[i])))
  }

  lemma RowsApart(c: Change, rows: Files, rows': Files, rows'': Files)
    requires TouchedOnce(rows, rows', rows'') && NoneLost(rows, rows')
    ensures |Rows(c, rows, rows'')| == |Rows(c, rows, rows')| + |Rows(c, rows', rows'')|
  {
    assert Rows(c, rows, rows'') == Rows(c, rows, rows') + Rows(c, rows', rows'');
    assert Rows(c, rows, rows') !! Rows(c, rows', rows'');
  }

  lemma NewApart(rows: Files, rows': Files, rows'': Files)
    requires NoneLost(rows, rows') && NoneLost(rows', rows'')
    ensures |NewRows(rows, rows'')| == |NewRows(rows, rows')| + |NewRows(rows', rows'')|
  {
    assert NewRows(rows, rows'') == NewRows(rows, rows') + NewRows(rows', rows'');
    assert NewRows(rows, rows') !! NewRows(rows', rows'');
  }

  lemma LostNone(rows: Files, rows': Files, rows'': Files)
    requires NoneLost(rows, rows') && NoneLost(rows', rows'')
    ensures NoneLost(rows, rows'')
  {
  }

  /** Then counters add up. */
  lemma TalliedOn(t: Tally, u: Tally, rows: Files, rows': Files, rows'': Files)
    requires Tallied(t, rows, rows') && Tallied(u, rows', rows'') && TouchedOnce(rows, rows', rows'')
    ensures Tallied(Sum(t, u), rows, rows'')
  {
    hide Rows, NewRows, NoneLost, TouchedOnce;
    LostNone(rows, rows', rows'');
    NewApart(rows, rows', rows'');
    RowsApart(Rewritten, rows, rows', rows'');
    RowsApart(Refiled, rows, rows', rows'');
    RowsApart(Returned, rows, rows', rows'');
  }

  lemma TalliedAgain(t: Tally, u: Tally, v: Tally, rows: Files, rows': Files)
    requires Tallied(Sum(Sum(t, u), v), rows, rows')
    ensures Tallied(Sum(t, Sum(u, v)), rows, rows')
  {
    hide Counts;
  }

  // ------------------------------------------------------------------ one entry

  lemma EntryRows(run: Run, t: Tree, disk: Disk, at: nat, k: string, e: Entry, rows: Files, rows': Files, i: nat,
                  outcome: Outcome)
    requires EntryStep(run, t, disk, at, k, e, rows, rows', i, outcome)
    ensures NewRows(rows, rows') == if outcome == Registered then {i} else {}
    ensures Rows(Rewritten, rows, rows') == if outcome == Changed then {i} else {}
    ensures Rows(Refiled, rows, rows') == if outcome == Moved then {i} else {}
    ensures Rows(Returned, rows, rows') == if outcome == Restored then {i} else {}
    ensures NoneLost(rows, rows')
  {
    hide GoneFrom;
    assert !LiveAt(rows, at, k, i) || outcome in {Unchanged, Refreshed, Changed};
  }

  lemma EntryTallied(run: Run, t: Tree, disk: Disk, at: nat, k: string, e: Entry, rows: Files, rows': Files, i: nat,
                     outcome: Outcome, u: Tally)
    requires EntryStep(run, t, disk, at, k, e, rows, rows', i, outcome) && Nothing(u)
    ensures Tallied(Counted(u, outcome), rows, rows')
  {
    hide EntryStep, Rows, NewRows, NoneLost;
    EntryRows(run, t, disk, at, k, e, rows, rows', i, outcome);
  }

  lemma CountedIsSum(t: Tally, u: Tally, outcome: Outcome)
    requires Nothing(u)
    ensures Counted(t, outcome) == Sum(t, Counted(u, outcome))
  {
  }

  // ------------------------------------------------------------------ one directory

  /** The row is at the name of one of the first entries, and seen. */
  ghost predicate Taken(run: Run, key: string -> string, at: nat, l: Listing, n: nat, f: FileRow) {
    f.live && f.folder == at && Stamped(run, f) && exists m :: 0 <= m < n && m < |l.files| && key(l.files[m].name) == f.key
  }

  /** A listing touches rows of its folder, and live ones the run has not seen. */
  ghost predicate Reached(run: Run, at: nat, f: FileRow) {
    f.folder == at || (f.live && !Stamped(run, f))
  }

  ghost predicate RowTouched(run: Run, key: string -> string, at: nat, l: Listing, n: nat, rows: Files, i: nat,
                             f: FileRow) {
    if i in rows && SameRow(rows[i], f) then Stamped(run, rows[i]) ==> Stamped(run, f)
    else Taken(run, key, at, l, n, f) && (i in rows ==> Reached(run, at, rows[i]))
  }

  /** What the first entries touched is at their names. */
  ghost predicate Touched(run: Run, key: string -> string, at: nat, l: Listing, n: nat, rows: Files, rows': Files) {
    forall i :: i in rows' ==> RowTouched(run, key, at, l, n, rows, i, rows'[i])
  }

  lemma StampingTouches(run: Run, key: string -> string, at: nat, l: Listing, rows: Files)
    ensures ToldSoFar(run, key, at, l, 0, rows, StampedRows(run, rows, at, l.mentioned), Tally(0, 0, 0, 0))
  {
    var rows' := StampedRows(run, rows, at, l.mentioned);
    assert NewRows(rows, rows') == {} && Rows(Rewritten, rows, rows') == {};
    assert Rows(Refiled, rows, rows') == {} && Rows(Returned, rows, rows') == {};
  }

  lemma NotTaken(run: Run, key: string -> string, at: nat, l: Listing, n: nat, f: FileRow)
    requires ListingFits(key, l) && n < |l.files| && f.key == key(l.files[n].name)
    ensures !Taken(run, key, at, l, n, f)
  {
  }

  lemma FitsEntry(key: string -> string, l: Listing, e: Entry)
    requires ListingFits(key, l) && e in l.files
    ensures key(e.name) in l.mentioned
  {
  }

  lemma SeenIsTaken(run: Run, key: string -> string, at: nat, l: Listing, n: nat, f: FileRow)
    requires n < |l.files|
    ensures Taken(run, key, at, l, n, f) ==> f.live && Stamped(run, f) && Taken(run, key, at, l, n + 1, f)
    ensures f.live && Stamped(run, f) && f.folder == at && f.key == key(l.files[n].name) ==>
      Taken(run, key, at, l, n + 1, f)
  {
  }

  lemma EntryTouches(run: Run, key: string -> string, t: Tree, disk: Disk, at: nat, l: Listing, n: nat, rows: Files,
                     rows': Files, rows'': Files, i: nat, outcome: Outcome)
    requires ListingFits(key, l) && n < |l.files| && Touched(run, key, at, l, n, rows, rows')
    requires EntryStep(run, t, disk, at, key(l.files[n].name), l.files[n], rows', rows'', i, outcome)
    requires MentionedStamped(run, rows', at, l.mentioned)
    requires NoneLost(rows, rows')
    ensures Touched(run, key, at, l, n + 1, rows, rows'')
    ensures TouchedOnce(rows, rows', rows'')
  {
    hide GoneFrom, ListingFits, Taken;
    var e := l.files[n];
    FitsEntry(key, l, e);
    if i in rows' && rows'[i].key == key(e.name) {
      NotTaken(run, key, at, l, n, rows'[i]);
    }
    if i in rows' {
      SeenIsTaken(run, key, at, l, n, rows'[i]);
      assert RowTouched(run, key, at, l, n, rows, i, rows'[i]);
    }
    SeenIsTaken(run, key, at, l, n, rows''[i]);
    forall j | j in rows'' ensures RowTouched(run, key, at, l, n + 1, rows, j, rows''[j]) {
      if j in rows' {
        assert RowTouched(run, key, at, l, n, rows, j, rows'[j]);
        SeenIsTaken(run, key, at, l, n, rows''[j]);
      }
    }
  }

  /** The first entries of a listing, counted right. */
  ghost predicate ToldSoFar(run: Run, key: string -> string, at: nat, l: Listing, n: nat, rows: Files, rows': Files,
                            t: Tally) {
    Touched(run, key, at, l, n, rows, rows') && Tallied(t, rows, rows')
  }

  lemma EntryTold(run: Run, key: string -> string, t: Tree, disk: Disk, at: nat, l: Listing, n: nat, rows: Files,
                  rows': Files, rows'': Files, i: nat, outcome: Outcome, u: Tally)
    requires ListingFits(key, l) && n < |l.files| && ToldSoFar(run, key, at, l, n, rows, rows', u)
    requires EntryStep(run, t, disk, at, key(l.files[n].name), l.files[n], rows', rows'', i, outcome)
    requires Reconciled(run, key, t, disk, at, l, rows, rows', n)
    ensures ToldSoFar(run, key, at, l, n + 1, rows, rows'', Counted(u, outcome))
  {
    hide ListingFits, Touched, Counts, NoneLost, EntryStep, Counted, TouchedOnce, DirectoryStep, LiveDiffer, FiledEntry,
      MentionedStamped;
    EntryTouches(run, key, t, disk, at, l, n, rows, rows', rows'', i, outcome);
    var none := Tally(0, 0, 0, 0);
    EntryTallied(run, t, disk, at, key(l.files[n].name), l.files[n], rows', rows'', i, outcome, none);
    TalliedOn(u, Counted(none, outcome), rows, rows', rows'');
    CountedIsSum(u, none, outcome);
  }

  lemma AllTold(run: Run, key: string -> string, at: nat, l: Listing, n: nat, rows: Files, rows': Files, t: Tally)
    requires ToldSoFar(run, key, at, l, n, rows, rows', t)
    ensures Tallied(t, rows, rows') && Reaches(run, at, rows, rows')
  {
    hide Touched, Counts, Reached;
    TouchedReaches(run, key, at, l, n, rows, rows');
  }

  // ------------------------------------------------------------------ directory after directory

  lemma DoneElsewhere(run: Run, key: string -> string, disk: Disk, s: Scan, p: Path, q: Path)
    requires Progress(run, key, disk, s) && DiskFits(key, disk) && p in s.frontier && q in s.done
    ensures s.done[q].folder != s.frontier[p]
  {
    hide Progress, DiskFits, Inv;
    ProgressInv(run, key, disk, s);
    NotBothIs(run, key, s, q);
    FrontierNotDone(run, key, disk, s, p);
    if s.done[q].folder == s.frontier[p] {
      FoldersDiffer(run, key, disk, s, p, q);
    }
  }

  /** A live row at the name of an accepted file of a directory processed is seen. */
  lemma CameIsSeen(run: Run, key: string -> string, disk: Disk, s: Scan, i: nat)
    requires Progress(run, key, disk, s) && i in s.file && s.file[i].live && CameTo(key, disk, s, s.file[i])
    ensures Stamped(run, s.file[i])
  {
    hide Inv, SeenSomewhere;
    var q :| q in s.done && q in disk && s.done[q].folder == s.file[i].folder && Accepted(key, disk[q], s.file[i].key);
    var e :| e in disk[q].files && key(e.name) == s.file[i].key;
    assert DoneRight(run, key, disk, s, q);
    assert FiledEntry(run, key, s.file, s.done[q].folder, e);
  }

  /** What a run touched so far, the next directory does not reach. */
  lemma OutOfReach(run: Run, key: string -> string, disk: Disk, t: Tree, rows: Files, s: Scan, p: Path, i: nat)
    requires Progress(run, key, disk, s) && DiskFits(key, disk) && RowsSoFar(key, disk, t, rows, s) && p in s.frontier
    requires i in s.file && Reached(run, s.frontier[p], s.file[i])
    ensures i in rows && SameRow(rows[i], s.file[i])
  {
    hide Progress, DiskFits, Accepted, Wanted;
    if CameTo(key, disk, s, s.file[i]) {
      var q :| q in s.done && q in disk && s.done[q].folder == s.file[i].folder && Accepted(key, disk[q], s.file[i].key);
      DoneElsewhere(run, key, disk, s, p, q);
      CameIsSeen(run, key, disk, s, i);
    }
    assert i in rows ==> RowSoFar(key, disk, t, s, rows[i], s.file[i]);
  }

  /** A directory reaches those rows of the index it changes. */
  ghost predicate Reaches(run: Run, at: nat, rows: Files, rows': Files) {
    forall i :: i in rows ==> i in rows' && (SameRow(rows[i], rows'[i]) || Reached(run, at, rows[i]))
  }

  lemma ReachesNone(run: Run, at: nat, rows: Files)
    ensures Reaches(run, at, rows, rows)
  {
  }

  lemma TouchedReaches(run: Run, key: string -> string, at: nat, l: Listing, n: nat, rows: Files, rows': Files)
    requires Touched(run, key, at, l, n, rows, rows') && NoneLost(rows, rows')
    ensures Reaches(run, at, rows, rows')
  {
    hide Reached;
    forall i | i in rows ensures i in rows' && (SameRow(rows[i], rows'[i]) || Reached(run, at, rows[i])) {
      assert RowTouched(run, key, at, l, n, rows, i, rows'[i]);
    }
  }

  lemma TalliedDirectory(run: Run, key: string -> string, disk: Disk, t: Tree, rows: Files, s: Scan, p: Path,
                         rows': Files, u: Tally, v: Tally)
    requires Progress(run, key, disk, s) && DiskFits(key, disk) && SoFar(run, key, disk, t, rows, s) && p in s.frontier
    requires Reaches(run, s.frontier[p], s.file, rows') && Tallied(u, rows, s.file) && Tallied(v, s.file, rows')
    ensures Tallied(Sum(u, v), rows, rows')
  {
    hide Progress, DiskFits, SoFar, Reached, SameRow, Tallied;
    SoFarParts(run, key, disk, t, rows, s);
    forall i | i in s.file
      ensures i in rows' && (SameRow(s.file[i], rows'[i]) || (i in rows && SameRow(rows[i], s.file[i])))
    {
      if !SameRow(s.file[i], rows'[i]) {
        OutOfReach(run, key, disk, t, rows, s, p, i);
      }
    }
    TalliedOn(u, v, rows, s.file, rows');
  }

  // ------------------------------------------------------------------ a whole run

  /** Each counter of a run is how many rows differ in one way between the index it began with and what it left. */
  ghost predicate Told(t: Tally, trashed: nat, rows: Files, rows': Files) {
    Counts(t, rows, rows') && trashed == |Rows(Trashed, rows, rows')|
  }

  lemma TalliedTold(t: Tally, rows: Files, rows': Files)
    requires Tallied(t, rows, rows')
    ensures Told(t, 0, rows, rows')
  {
    hide Counts;
    assert Rows(Trashed, rows, rows') == {};
  }

  /** What the sweep took was there, live and as it was, when the run began. */
  lemma SweptTold(run: Run, key: string -> string, disk: Disk, t: Tree, rows: Files, s: Scan, rows': Files, u: Tally,
                  trashed: nat)
    requires Progress(run, key, disk, s) && SoFar(run, key, disk, t, rows, s) && Tallied(u, rows, s.file)
    requires Swept(run, s.file, rows') && trashed == |Rows(Trashed, s.file, rows')|
    ensures Told(u, trashed, rows, rows')
  {
    hide Progress, Wanted, CameTo, SoFar;
    SoFarParts(run, key, disk, t, rows, s);
    forall i | i in s.file ensures rows'[i] == s.file[i] || (i in rows && SameRow(rows[i], s.file[i]) && s.file[i].live) {
      if rows'[i] != s.file[i] {
        if CameTo(key, disk, s, s.file[i]) {
          CameIsSeen(run, key, disk, s, i);
        }
        assert i in rows ==> RowSoFar(key, disk, t, s, rows[i], s.file[i]);
      }
    }
    assert NewRows(rows, rows') == NewRows(rows, s.file);
    SweptCounts(Rewritten, rows, s.file, rows');
    SweptCounts(Refiled, rows, s.file, rows');
    SweptCounts(Returned, rows, s.file, rows');
    assert Rows(Trashed, rows, rows') == Rows(Trashed, s.file, rows');
  }

  lemma SweptCounts(c: Change, rows: Files, rows': Files, rows'': Files)
    requires c != Trashed && rows''.Keys == rows'.Keys && NoneLost(rows, rows')
    requires forall i :: i in rows' ==>
      rows''[i] == rows'[i] || (rows''[i] == rows'[i].(live := false) && rows'[i].live)
    requires forall i :: i in rows' ==> rows''[i] == rows'[i] || (i in rows && SameRow(rows[i], rows'[i]))
    ensures Rows(c, rows, rows'') == Rows(c, rows, rows')
  {
  }

  lemma TrashedMore(run: Run, rows: Files, s: Scan, s': Scan, batch: set<nat>)
    requires SweepStep(run, s, s', batch) && Swept(run, rows, s.file)
    ensures |Rows(Trashed, rows, s'.file)| == |Rows(Trashed, rows, s.file)| + |batch|
  {
    hide Swept;
    forall i | i in batch ensures i in s.file && s.file[i].live {
      BatchLive(run, s, s', batch, i);
    }
    MoreTrashed(rows, s.file, s'.file, batch) by {
      SweptOnly(run, rows, s.file);
    }
  }

  lemma BatchLive(run: Run, s: Scan, s': Scan, batch: set<nat>, i: nat)
    requires SweepStep(run, s, s', batch) && i in batch
    ensures i in s.file && s.file[i].live
  {
    hide Above;
    assert Unseen(run, s, i);
  }

  ghost predicate LiveGone(rows: Files, rows': Files) {
    rows'.Keys == rows.Keys && forall i :: i in rows ==> rows'[i].live ==> rows[i].live
  }

  lemma SweptOnly(run: Run, rows: Files, rows': Files)
    requires Swept(run, rows, rows')
    ensures LiveGone(rows, rows')
  {
  }

  lemma MoreTrashed(rows: Files, rows': Files, rows'': Files, batch: set<nat>)
    requires LiveGone(rows, rows') && rows''.Keys == rows'.Keys
    requires forall i :: i in rows' ==> rows''[i] == if i in batch then rows'[i].(live := false) else rows'[i]
    requires forall i :: i in batch ==> i in rows' && rows'[i].live
    ensures |Rows(Trashed, rows, rows'')| == |Rows(Trashed, rows, rows')| + |batch|
  {
    Apart(Rows(Trashed, rows, rows''), Rows(Trashed, rows, rows'), batch);
  }

  lemma NoneTrashed(rows: Files)
    ensures |Rows(Trashed, rows, rows)| == 0
  {
    assert Rows(Trashed, rows, rows) == {};
  }

  lemma Apart(all: set<nat>, some: set<nat>, others: set<nat>)
    requires all == some + others && some !! others
    ensures |all| == |some| + |others|
  {
  }
}
