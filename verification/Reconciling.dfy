/**
 What one directory's listing does to the rows filed under it (reconcile.py `directory`), as a relation on the rows.
*/
module Reconciling {
  import opened Common
  import opened FolderTree
  import opened Paths
  import opened ScanSafety

  /** A regular file as the filesystem described it; `hash` is what reading it gives. */
  datatype Entry = Entry(name: string, stat: nat, hash: nat)

  /** `names` is everything that is there; the rest is what classifying made of it. */
  datatype Listing = Listing(names: set<string>, directories: seq<string>, files: seq<Entry>, mentioned: set<string>)

  type Disk = map<Path, Listing>

  /** No two names the app registers share a comparison key, and everything registered is mentioned. */
  ghost predicate ListingFits(key: string -> string, l: Listing) {
    (forall i, j :: 0 <= i < j < |l.directories| ==> key(l.directories[i]) != key(l.directories[j])) &&
    (forall i, j :: 0 <= i < j < |l.files| ==> key(l.files[i].name) != key(l.files[j].name)) &&
    (forall d, e :: d in l.directories && e in l.files ==> key(d) != key(e.name)) &&
    (forall d :: d in l.directories ==> key(d) in l.mentioned)
    && (forall e :: e in l.files ==> key(e.name) in l.mentioned)
  }

  ghost predicate DiskFits(key: string -> string, disk: Disk) {
    forall p :: p in disk ==> ListingFits(key, disk[p]) && forall d :: d in disk[p].directories ==> p + [d] in disk
  }

  // ------------------------------------------------------------------ rows

  predicate LiveAt(rows: Files, folder: nat, k: string, i: nat) {
    i in rows && rows[i].live && rows[i].folder == folder && rows[i].key == k
  }

  /** The partial unique index: one live row per name and folder. */
  ghost predicate LiveDiffer(rows: Files) {
    forall i, j :: i in rows && j in rows && rows[i].live && rows[j].live && rows[i].folder == rows[j].folder && rows[i].key == rows[j].key ==> i == j
  }

  ghost predicate NoneAt(rows: Files, folder: nat, k: string) {
    forall i :: !LiveAt(rows, folder, k, i)
  }

  /** The row says what is on the disk: by content, or by the stat recorded with it. */
  predicate Agrees(f: FileRow, e: Entry) {
    f.hash == e.hash || f.stat == Some(e.stat)
  }

  /** Nothing is at the row's own path any more. */
  predicate GoneFrom(t: Tree, disk: Disk, f: FileRow) {
    PathOf(t, f.folder) !in disk || f.name !in disk[PathOf(t, f.folder)].names
  }

  /** A row this content may have moved away from. */
  ghost predicate Candidate(run: Run, t: Tree, disk: Disk, rows: Files, e: Entry, i: nat) {
    i in rows && rows[i].live && !Stamped(run, rows[i]) && rows[i].hash == e.hash && GoneFrom(t, disk, rows[i])
  }

  datatype Outcome = Unchanged | Refreshed | Changed | Restored | Moved | Registered

  /** What the app concludes about one entry, and the one row it writes. */
  ghost predicate EntryStep(
    run: Run, t: Tree, disk: Disk, folder: nat, k: string, e: Entry, rows: Files, rows': Files, i: nat,
      outcome: Outcome)
  {
    match outcome
    case Unchanged => LiveAt(rows, folder, k, i) && rows[i].stat == Some(e.stat) && rows' == rows
    case Refreshed => LiveAt(rows, folder, k, i) && rows[i].stat != Some(e.stat) && rows[i].hash == e.hash
      && rows' == rows[i := rows[i].(stat := Some(e.stat))]
    case Changed => LiveAt(rows, folder, k, i) && rows[i].stat != Some(e.stat) && rows[i].hash != e.hash
      && rows' == rows[i := rows[i].(hash := e.hash, stat := Some(e.stat))]
    case Restored => NoneAt(rows, folder, k) && i in rows && !rows[i].live && rows[i].folder == folder
      && rows[i].key == k && rows[i].hash == e.hash
      && rows' == rows[i := rows[i].(live := true, seen := Some(run.start))]
    case Moved => NoneAt(rows, folder, k) && Candidate(run, t, disk, rows, e, i)
      && rows' == rows[i := rows[i].(folder := folder, name := e.name, key := k, stat := Some(e.stat), seen := Some(run.start))]
    case Registered =>
      NoneAt(rows, folder, k) && i !in rows && i in rows' && rows'[i].created >= run.start
      && rows' == rows[i := FileRow(folder, e.name, k, true, e.hash, Some(e.stat), Some(run.start), rows'[i].created)]
  }

  // ------------------------------------------------------------------ what a directory's reconciliation keeps

  /** Rows this run has stamped elsewhere are left alone, no live row stops being one, and new ones are stamped. */
  ghost predicate LeavesOthers(run: Run, rows: Files, rows': Files, folder: nat) {
    (forall i :: i in rows ==> i in rows' && (rows[i].live ==> rows'[i].live) && (Stamped(run, rows[i]) && rows[i].folder != folder ==> rows'[i] == rows[i])) &&
    (forall i :: i in rows' && i !in rows && rows'[i].live ==> Stamped(run, rows'[i]))
  }

  /** A row not stamped elsewhere before is stamped only by being mentioned here. */
  ghost predicate StampsHere(run: Run, rows: Files, rows': Files, folder: nat, mentioned: set<string>) {
    forall i :: i in rows' && rows'[i].live && Stamped(run, rows'[i]) ==>
      (i in rows && rows'[i] == rows[i]) || (rows'[i].folder == folder && rows'[i].key in mentioned)
  }

  /** Files still at their own path stay there. */
  ghost predicate KeepsPresent(t: Tree, disk: Disk, rows: Files, rows': Files) {
    forall i :: i in rows && rows[i].live && !GoneFrom(t, disk, rows[i]) ==>
      i in rows' && rows'[i].live && rows'[i].folder == rows[i].folder && rows'[i].name == rows[i].name
        && rows'[i].key == rows[i].key
  }

  ghost predicate DirectoryStep(run: Run, t: Tree, disk: Disk, folder: nat, mentioned: set<string>, rows: Files,
                                rows': Files) {
    FileStep(run, rows, rows') && LeavesOthers(run, rows, rows', folder)
    && StampsHere(run, rows, rows', folder, mentioned) && KeepsPresent(t, disk, rows, rows')
  }

  lemma StepOnward(run: Run, t: Tree, disk: Disk, folder: nat, mentioned: set<string>, rows: Files, rows': Files,
                   rows'': Files)
    requires DirectoryStep(run, t, disk, folder, mentioned, rows, rows')
    requires DirectoryStep(run, t, disk, folder, mentioned, rows', rows'')
    ensures DirectoryStep(run, t, disk, folder, mentioned, rows, rows'')
  {
    hide PathOf, GoneFrom, FileStep, LeavesOthers, StampsHere, KeepsPresent;
    FileOnward(run, rows, rows', rows'');
    LeavesOnward(run, rows, rows', rows'', folder);
    StampsOnward(run, rows, rows', rows'', folder, mentioned);
    PresentOnward(t, disk, rows, rows', rows'');
  }

  lemma FileOnward(run: Run, rows: Files, rows': Files, rows'': Files)
    requires FileStep(run, rows, rows') && FileStep(run, rows', rows'')
    ensures FileStep(run, rows, rows'')
  {
    forall i | i in rows ensures RowStep(run, rows[i], rows''[i]) {
      assert RowStep(run, rows[i], rows'[i]) && RowStep(run, rows'[i], rows''[i]);
    }
  }

  lemma LeavesOnward(run: Run, rows: Files, rows': Files, rows'': Files, folder: nat)
    requires LeavesOthers(run, rows, rows', folder) && LeavesOthers(run, rows', rows'', folder)
    requires FileStep(run, rows', rows'')
    ensures LeavesOthers(run, rows, rows'', folder)
  {
    forall i | i in rows'' && i !in rows && rows''[i].live ensures Stamped(run, rows''[i]) {
      assert i in rows' ==> RowStep(run, rows'[i], rows''[i]);
    }
  }

  lemma StampsOnward(run: Run, rows: Files, rows': Files, rows'': Files, folder: nat, mentioned: set<string>)
    requires StampsHere(run, rows, rows', folder, mentioned) && StampsHere(run, rows', rows'', folder, mentioned)
    ensures StampsHere(run, rows, rows'', folder, mentioned)
  {
  }

  lemma PresentOnward(t: Tree, disk: Disk, rows: Files, rows': Files, rows'': Files)
    requires KeepsPresent(t, disk, rows, rows') && KeepsPresent(t, disk, rows', rows'')
    ensures KeepsPresent(t, disk, rows, rows'')
  {
    hide PathOf;
  }

  /** Every outcome but the first writes one row, and says how. */
  ghost predicate OneRow(run: Run, t: Tree, disk: Disk, folder: nat, k: string, rows: Files, rows': Files, i: nat) {
    i in rows' && rows' == rows[i := rows'[i]] && LiveAt(rows', folder, k, i) && Stamped(run, rows'[i])
    && (i !in rows ==> rows'[i].created >= run.start && NoneAt(rows, folder, k))
    && (i in rows ==> rows'[i].created == rows[i].created && (!LiveAt(rows, folder, k, i) ==> NoneAt(rows, folder, k)))
    && (i in rows ==> if LiveAt(rows, folder, k, i) then rows'[i].name == rows[i].name
      else ComesFrom(run, t, disk, folder, rows[i]))
  }

  /** Where a row that was not there comes from: this folder's trash, or a path that is gone. */
  ghost predicate ComesFrom(run: Run, t: Tree, disk: Disk, folder: nat, f: FileRow) {
    if f.live then !Stamped(run, f) && GoneFrom(t, disk, f) else f.folder == folder
  }

  lemma EntryIsOneRow(run: Run, t: Tree, disk: Disk, folder: nat, k: string, e: Entry, rows: Files, rows': Files,
                      i: nat, outcome: Outcome)
    requires EntryStep(run, t, disk, folder, k, e, rows, rows', i, outcome)
    requires forall j :: LiveAt(rows, folder, k, j) ==> Stamped(run, rows[j])
    ensures OneRow(run, t, disk, folder, k, rows, rows', i) && Agrees(rows'[i], e)
  {
    hide PathOf, GoneFrom;
    if outcome.Unchanged? {
      assert rows == rows[i := rows[i]];
    }
  }

  lemma OneRowDiffers(run: Run, t: Tree, disk: Disk, folder: nat, k: string, rows: Files, rows': Files, i: nat)
    requires OneRow(run, t, disk, folder, k, rows, rows', i) && LiveDiffer(rows)
    ensures LiveDiffer(rows')
  {
    hide PathOf, GoneFrom;
    forall a, b | a in rows' && b in rows' && rows'[a].live && rows'[b].live && rows'[a].folder == rows'[b].folder
      && rows'[a].key == rows'[b].key
      ensures a == b
    {
      assert a != i ==> (LiveAt(rows', folder, k, a) <==> LiveAt(rows, folder, k, a));
      assert b != i ==> (LiveAt(rows', folder, k, b) <==> LiveAt(rows, folder, k, b));
    }
  }

  lemma OneRowKeeps(run: Run, t: Tree, disk: Disk, folder: nat, k: string, mentioned: set<string>, rows: Files,
                    rows': Files, i: nat)
    requires OneRow(run, t, disk, folder, k, rows, rows', i) && k in mentioned
    ensures DirectoryStep(run, t, disk, folder, mentioned, rows, rows')
  {
    hide PathOf, GoneFrom, NoneAt, StampsHere, KeepsPresent;
    assert forall j :: j in rows && j != i ==> RowStep(run, rows[j], rows'[j]);
    OneRowStamps(run, t, disk, folder, k, mentioned, rows, rows', i);
    OneRowPresent(run, t, disk, folder, k, rows, rows', i);
  }

  lemma OneRowStamps(run: Run, t: Tree, disk: Disk, folder: nat, k: string, mentioned: set<string>, rows: Files,
                     rows': Files, i: nat)
    requires OneRow(run, t, disk, folder, k, rows, rows', i) && k in mentioned
    ensures StampsHere(run, rows, rows', folder, mentioned)
  {
    hide PathOf, GoneFrom, NoneAt, ComesFrom;
  }

  lemma OneRowPresent(run: Run, t: Tree, disk: Disk, folder: nat, k: string, rows: Files, rows': Files, i: nat)
    requires OneRow(run, t, disk, folder, k, rows, rows', i)
    ensures KeepsPresent(t, disk, rows, rows')
  {
    hide PathOf, GoneFrom, NoneAt;
  }

  lemma EntryKeeps(
    run: Run, t: Tree, disk: Disk, folder: nat, k: string, e: Entry, mentioned: set<string>, rows: Files, rows': Files,
      i: nat, outcome: Outcome)
    requires EntryStep(run, t, disk, folder, k, e, rows, rows', i, outcome) && k in mentioned && LiveDiffer(rows)
    requires forall j :: LiveAt(rows, folder, k, j) ==> Stamped(run, rows[j])
    ensures DirectoryStep(run, t, disk, folder, mentioned, rows, rows') && LiveDiffer(rows')
    ensures i in rows' && LiveAt(rows', folder, k, i) && Stamped(run, rows'[i]) && Agrees(rows'[i], e)
    ensures forall j :: j in rows' && j !in rows ==> j == i
    ensures forall j :: j in rows && rows[j].live && Stamped(run, rows[j]) && rows[j].key != k ==>
      j in rows' && rows'[j] == rows[j]
  {
    hide EntryStep, PathOf, GoneFrom, DirectoryStep, LiveDiffer;
    EntryIsOneRow(run, t, disk, folder, k, e, rows, rows', i, outcome);
    OneRowDiffers(run, t, disk, folder, k, rows, rows', i);
    OneRowKeeps(run, t, disk, folder, k, mentioned, rows, rows', i);
  }

  /** What a directory's reconciliation touches ends up in its folder. */
  lemma ReconciledLands(run: Run, t: Tree, t': Tree, disk: Disk, folder: nat, mentioned: set<string>, rows: Files,
                        rows': Files)
    requires DirectoryStep(run, t', disk, folder, mentioned, rows, rows') && NewUnder(t, t', folder)
    ensures Lands(t, t', rows, rows', folder)
  {
    hide KeepsPresent;
    forall i | i in rows' && rows'[i].live && rows'[i].folder != folder
      ensures i in rows && StayedPut(rows[i], rows'[i])
    {
      assert i in rows ==> RowStep(run, rows[i], rows'[i]);
    }
  }
}
