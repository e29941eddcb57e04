/** One scan run over a static, readable tree: the frontier loop, reconciliation of each directory, and the sweep. */
module Scanning {
  import opened Common
  import opened FolderTree
  import opened Paths
  import opened ScanSafety
  import opened Reconciling
  import opened Matching
  import opened Converging
  import opened Refusing
  import opened Tallying

  class Scanner {
    var folder: Tree
    var file: Files
    var frontier: map<Path, nat>
    var blocked: set<nat>
    var nextFolder: nat
    var nextFile: nat
    ghost var done: map<Path, Processed>

    constructor (t: Tree, rows: Files, folders: nat, files: nat)
      ensures folder == t && file == rows && nextFolder == folders && nextFile == files
      ensures frontier == map[] && blocked == {} && done == map[]
    {
      folder, file, nextFolder, nextFile := t, rows, folders, files;
      frontier, blocked, done := map[], {}, map[];
    }

    ghost function State(): Scan
      reads this
    {
      Scan(folder, file, frontier, done, blocked)
    }

    ghost predicate Numbered()
      reads this
    {
      (forall f :: f in folder ==> f < nextFolder) && (forall i :: i in file ==> i < nextFile)
    }

    /** What the schema keeps of folders and file rows. */
    ghost predicate Fit()
      reads this
    {
      Linked(folder) && SiblingsDiffer(folder) && LiveDiffer(file) && Housed(folder, file) && Numbered()
    }

    // ---------------------------------------------------------------- one entry

    /** The newest of the rows in a folder's trash under a name. */
    method NewestTrashed(at: nat, k: string) returns (found: Option<nat>)
      ensures found.Some? ==> InTrash(file, at, k, found.value) && forall i :: InTrash(file, at, k, i) ==>
        file[i].created <= file[found.value].created
      ensures found.None? ==> forall i :: !InTrash(file, at, k, i)
    {
      found := None;
      var left := set i | i in file && InTrash(file, at, k, i);
      while left != {}
        invariant forall i :: i in left ==> InTrash(file, at, k, i)
        invariant found.Some? ==> InTrash(file, at, k, found.value)
        invariant forall i :: InTrash(file, at, k, i) && i !in left ==>
          found.Some? && file[i].created <= file[found.value].created
        decreases left
      {
        var i :| i in left;
        left := left - {i};
        if found == None || file[found.value].created <= file[i].created {
          found := Some(i);
        }
      }
    }

    method LiveRow(at: nat, k: string) returns (found: Option<nat>)
      ensures found.Some? ==> LiveAt(file, at, k, found.value)
      ensures found.None? ==> NoneAt(file, at, k)
    {
      if i :| i in file && LiveAt(file, at, k, i) {
        return Some(i);
      }
      return None;
    }

    /** The oldest rows with this content, unseen by the run. */
    method Candidates(run: Run, hash: nat) returns (c: seq<nat>)
      ensures OldestFirst(run, file, hash, c)
    {
      c := [];
      var left := set i | i in file && SameContent(run, file, hash, i);
      while left != {} && |c| < CANDIDATE_LIMIT
        invariant |c| <= CANDIDATE_LIMIT
        invariant forall i :: i in left ==> SameContent(run, file, hash, i)
        invariant forall i :: SameContent(run, file, hash, i) ==> i in left || i in c
        invariant forall n :: 0 <= n < |c| ==> SameContent(run, file, hash, c[n])
        invariant forall m, n :: 0 <= m < n < |c| ==> Older(file, c[m], c[n])
        invariant forall n, i :: 0 <= n < |c| && i in left ==> Older(file, c[n], i)
        decreases left
      {
        var i := Oldest(left);
        left := left - {i};
        c := c + [i];
      }
    }

    method Oldest(rows: set<nat>) returns (oldest: nat)
      requires rows != {} && forall i :: i in rows ==> i in file
      ensures oldest in rows && forall i :: i in rows && i != oldest ==> Older(file, oldest, i)
    {
      oldest :| oldest in rows;
      var left := rows - {oldest};
      while left != {}
        invariant left <= rows && oldest in rows
        invariant forall i :: i in rows && i != oldest && i !in left ==> Older(file, oldest, i)
        decreases left
      {
        var i :| i in left;
        left := left - {i};
        if Older(file, i, oldest) {
          oldest := i;
        }
      }
    }

    /** The file this content moved away from: its own path is gone from the disk. */
    method MovedFrom(run: Run, key: string -> string, disk: Disk, e: Entry) returns (source: Option<nat>)
      ensures source.Some? ==> Candidate(run, folder, disk, file, e, source.value)
      ensures source.Some? ==> MovedAway(run, folder, disk, file, e, source.value)
      ensures exists c ::
        OldestFirst(run, file, e.hash, c) && source == Choice(key, file, e.name, Absent(folder, disk, file, c))
      ensures forall j :: MovedAway(run, folder, disk, file, e, j) ==> PassedOver(run, key, file, e, source, j)
    {
      hide PassedOver, GoneFrom, MovedAway;
      var c := Candidates(run, e.hash);
      var absent := Absent(folder, disk, file, c);
      source := Choice(key, file, e.name, absent);
      if source.Some? {
        AbsentAre(folder, disk, file, c, source.value);
        NamesakesAre(key, file, e.name, absent, source.value);
        CandidateIs(run, folder, disk, file, e, source.value);
      }
      forall j | MovedAway(run, folder, disk, file, e, j) ensures PassedOver(run, key, file, e, source, j) {
        CandidateIs(run, folder, disk, file, e, j);
        MovedForReason(run, key, folder, disk, file, e, c, j);
      }
    }

    /** Reconcile one entry: the table of conclusions, first match wins. */
    method ReconcileEntry(run: Run, key: string -> string, disk: Disk, at: nat, e: Entry, now: int)
      returns (outcome: Outcome, ghost i: nat)
      requires now >= run.start && forall j :: j in file ==> j < nextFile
      modifies this`file, this`nextFile
      ensures EntryStep(run, folder, disk, at, key(e.name), e, old(file), file, i, outcome)
      ensures forall j :: j in file ==> j < nextFile
      ensures outcome == Restored ==> NewestInTrash(old(file), at, key(e.name), i)
      ensures outcome in {Moved, Registered} ==> NoneToRestore(old(file), at, key(e.name), e.hash)
      ensures outcome in {Moved, Registered} ==>
        Picked(run, key, folder, disk, old(file), e, if outcome == Moved then Some(i) else None)
      ensures Aged(now, old(file)) ==> Aged(now, file)
    {
      hide PathOf, GoneFrom, Choice, Absent, Namesakes, OldestFirst;
      var k := key(e.name);
      var existing := LiveRow(at, k);
      if existing.Some? {
        var r := existing.value;
        if file[r].stat == Some(e.stat) {
          return Unchanged, r;
        }
        if file[r].hash == e.hash {
          file := file[r := file[r].(stat := Some(e.stat))];
          return Refreshed, r;
        }
        file := file[r := file[r].(hash := e.hash, stat := Some(e.stat))];
        return Changed, r;
      }
      var gone := NewestTrashed(at, k);
      if gone.Some? && file[gone.value].hash == e.hash {
        file := file[gone.value := file[gone.value].(live := true, seen := Some(run.start))];
        return Restored, gone.value;
      }
      var source := MovedFrom(run, key, disk, e);
      if source.Some? {
        var r := source.value;
        file := file[r := file[r].(folder := at, name := e.name, key := k, stat := Some(e.stat), seen := Some(run.start))];
        return Moved, r;
      }
      var r := nextFile;
      nextFile := nextFile + 1;
      file := file[r := FileRow(at, e.name, k, true, e.hash, Some(e.stat), Some(run.start), now)];
      return Registered, r;
    }

    // ---------------------------------------------------------------- one directory

    /** Stamp what the listing mentions, then settle its entries one by one. */
    method Directory(run: Run, key: string -> string, disk: Disk, at: nat, l: Listing, now: int) returns (t: Tally)
      requires ListingFits(key, l) && LiveDiffer(file) && now >= run.start && forall j :: j in file ==> j < nextFile
      modifies this`file, this`nextFile
      ensures Reconciled(run, key, folder, disk, at, l, old(file), file, |l.files|)
      ensures AllStamped(run, old(file), file, at, l.mentioned)
      ensures forall j :: j in file ==> j < nextFile
      ensures Refiles(key, folder, disk, at, l, old(file), file) && (Aged(now, old(file)) ==> Aged(now, file))
      ensures Settled(key, old(file), at, l) ==> Nothing(t) && QuietHere(old(file), file, at)
      ensures Tallied(t, old(file), file) && Reaches(run, at, old(file), file)
    {
      hide PathOf, GoneFrom, DirectoryStep, EntryStep, LiveDiffer, SettledEntry, Refiles, Aged, ToldSoFar, Tallied,
        Reaches;
      ghost var first := file;
      ghost var quiet := Settled(key, file, at, l);
      StampingKeeps(run, folder, disk, file, at, l.mentioned);
      StampingRefiles(run, key, folder, disk, at, l, file);
      StampingAges(run, file, at, l.mentioned, now);
      if quiet {
        StampingSettles(run, key, file, at, l);
      }
      StampingTouches(run, key, at, l, file);
      file := StampedRows(run, file, at, l.mentioned);
      ghost var stamped := file;
      t := Tally(0, 0, 0, 0);
      var n := 0;
      while n < |l.files|
        invariant 0 <= n <= |l.files|
        invariant Reconciled(run, key, folder, disk, at, l, first, file, n) && Onward(run, stamped, file)
        invariant forall j :: j in file ==> j < nextFile
        invariant Refiles(key, folder, disk, at, l, first, file) && (Aged(now, first) ==> Aged(now, file))
        invariant ToldSoFar(run, key, at, l, n, first, file, t)
        invariant quiet ==> Nothing(t) && QuietHere(first, file, at)
        invariant quiet ==> forall k :: n <= k < |l.files| ==> SettledEntry(key, file, at, l.files[k])
      {
        ghost var before := file;
        var outcome;
        ghost var i;
        outcome, i := ReconcileEntry(run, key, disk, at, l.files[n], now);
        EntryReconciles(run, key, folder, disk, at, l, first, before, file, n, i, outcome);
        EntryOnward(run, key, folder, disk, at, l, stamped, before, file, n, i, outcome);
        EntryRefiles(run, key, folder, disk, at, l, n, before, file, i, outcome);
        RefilesOnward(key, folder, disk, at, l, first, before, file);
        EntryTold(run, key, folder, disk, at, l, n, first, before, file, i, outcome, t);
        if quiet {
          SettledIsQuiet(run, key, folder, disk, at, l, before, file, n, i, outcome);
          QuietOnward(first, before, file, at);
        }
        t := Counted(t, outcome);
        n := n + 1;
      }
      AllTold(run, key, at, l, n, first, file, t);
    }

    /** One new folder, under its name and one level deeper, if the child was not there; none otherwise. */
    static ghost predicate OneMade(t: Tree, t': Tree, at: nat, name: string, k: string, child: Option<nat>)
      requires at in t
    {
      if child.Some? && child.value !in t
      then t' == t[child.value := Folder(t[at].workspace, Some(at), name, k, t[at].depth + 1)]
      else t' == t
    }

    /** The folder row of a directory that is there, created if missing. None when a file holds its name. */
    method EnsureChild(key: string -> string, at: nat, name: string) returns (child: Option<nat>)
      requires at in folder && Linked(folder) && SiblingsDiffer(folder) && forall f :: f in folder ==> f < nextFolder
      modifies this`folder, this`nextFolder
      ensures Extends(old(folder), folder) && forall f :: f in folder ==> f < nextFolder
      ensures NewUnder(old(folder), folder, at)
      ensures child.Some? ==> ChildOf(folder, at, key(name), child.value)
      ensures HasChild(old(folder), at, key(name)) ==> child.Some? && folder == old(folder)
      ensures child == None <==> !HasChild(old(folder), at, key(name)) && exists i ::
        i in file && file[i].folder == at && file[i].key == key(name)
      ensures OnlyChild(old(folder), folder, at, key(name)) && NewNamed(key, old(folder), folder, at, [name])
      ensures OneMade(old(folder), folder, at, name, key(name), child)
    {
      hide Linked, SiblingsDiffer, Extends, OnlyChild;
      ExtendsSelf(folder);
      NoneMade(key, folder, at, []);
      if c :| c in folder && ChildOf(folder, at, key(name), c) {
        return Some(c);
      }
      if exists i :: i in file && file[i].folder == at && file[i].key == key(name) {
        return None;
      }
      var c := nextFolder;
      nextFolder := nextFolder + 1;
      NewChild(folder, at, name, key(name), c);
      NewOnlyChild(folder, at, key(name), c,
        Folder(folder[at].workspace, Some(at), name, key(name), folder[at].depth + 1));
      folder := folder[c := Folder(folder[at].workspace, Some(at), name, key(name), folder[at].depth + 1)];
      return Some(c);
    }

    /** A folder per listed directory, and each onto the frontier. */
    method Discover(key: string -> string, path: Path, at: nat, directories: seq<string>)
      returns (ok: bool, pushed: map<Path, nat>)
      requires KeysDiffer(key, directories)
      requires at in folder && Linked(folder) && SiblingsDiffer(folder) && forall f :: f in folder ==> f < nextFolder
      modifies this`folder, this`nextFolder
      ensures Extends(old(folder), folder) && forall f :: f in folder ==> f < nextFolder
      ensures NewUnder(old(folder), folder, at)
      ensures ok ==> Pushed(key, folder, frontier, pushed, path, at, directories) && NewNamed(key, old(folder), folder, at, directories)
      ensures HasAll(key, old(folder), at, directories) ==> ok && folder == old(folder)
      ensures ok <==> !Barred(key, old(folder), file, at, directories)
    {
      hide Linked, SiblingsDiffer, Extends, Pushed, ChildOf, HasAll, HasChild, NewUnder, NewNamed, OnlyMade, OnlyChild,
        BarredOne, Barred, OneMade, KeysDiffer;
      NoneNew(folder, at);
      pushed := frontier;
      ghost var first := folder;
      ghost var settled := HasAll(key, folder, at, directories);
      ExtendsSelf(folder);
      PushedNothing(key, folder, frontier, path, at);
      NoneMade(key, folder, at, directories);
      NoneNamed(key, folder, at, []);
      NoneBarred(key, folder, file, at);
      var n := 0;
      assert directories[..n] == [];
      while n < |directories|
        invariant 0 <= n <= |directories|
        invariant Extends(first, folder) && (forall f :: f in folder ==> f < nextFolder)
        invariant NewUnder(first, folder, at)
        invariant Pushed(key, folder, frontier, pushed, path, at, directories[..n])
        invariant settled ==> folder == first
        invariant OnlyMade(key, first, folder, at, directories, n) && NewNamed(key, first, folder, at, directories[..n])
        invariant !Barred(key, first, file, at, directories[..n])
      {
        ghost var before := folder;
        var d := directories[n];
        Extended(first, folder, at);
        if settled {
          HasEach(key, folder, at, directories, n);
        }
        var child := EnsureChild(key, at, d);
        ExtendsOnward(first, before, folder);
        NewOnward(first, before, folder, at);
        BarredNow(key, first, before, file, at, directories, n);
        BarredIs(key, before, file, at, d);
        BarredMore(key, first, file, at, directories, n);
        if child == None {
          return false, pushed;
        }
        MadeOneMore(key, first, before, folder, at, directories, n);
        NamedMore(key, first, before, folder, at, directories[..n], d);
        PushedExtends(key, before, folder, frontier, pushed, path, at, directories[..n]);
        PushedOne(key, folder, frontier, pushed, path, at, directories[..n], d, child.value);
        if path + [d] !in pushed {
          pushed := pushed[path + [d] := child.value];
        }
        TakeOne(directories, n);
        n := n + 1;
      }
      assert directories[..n] == directories;
      return true, pushed;
    }

    /** One directory. False rolls the batch back: a file holds the name of a directory. */
    method ProcessDirectory(run: Run, key: string -> string, disk: Disk, path: Path, now: int, ghost first: Tree,
                            ghost rows: Files)
      returns (ok: bool, t: Tally)
      requires Progress(run, key, disk, State()) && DiskFits(key, disk) && Numbered() && path in frontier
      requires now >= run.start
      modifies this
      ensures Numbered()
      ensures ok ==>
        Progress(run, key, disk, State()) && ProcessStep(run, key, old(State()), State(), path, Looked(disk, path))
      ensures ok ==> KeepsPresent(folder, disk, old(file), file) && Extends(old(folder), folder) && (Young(run, old(file)) ==> Young(run, file))
      ensures ok <==>
        !(path in disk && Barred(key, old(folder), old(file), old(frontier)[path], disk[path].directories))
      ensures !ok ==> State() == old(State())
      ensures ok ==> Committed(key, disk, old(State()), State(), path)
      ensures Aged(now, old(file)) ==> Aged(now, file)
      ensures ok ==> Tallied(t, old(file), file) && Reaches(run, old(frontier)[path], old(file), file)
      ensures QuietSoFar(run, key, disk, first, rows, old(State())) ==>
        ok && Nothing(t) && QuietSoFar(run, key, disk, first, rows, State())
    {
      hide Tallied, Reaches, Inv, Settled, LiveDiffer, SeenSomewhere, DoneRight, DirectoryStep, QuietHere, Reconciled, Pushed, PathOf,
        GoneFrom, QuietSoFar, DiskFits, Progress, HasAll, Linked, SiblingsDiffer, Filed, AllStamped, FileStep,
        MentionedStamped, KeepsPresent, ListingFits, Extends, Young, Lands, Barred, Refiles, Aged, NewNamed;
      ghost var was := State();
      ghost var quiet := QuietSoFar(run, key, disk, first, rows, was);
      var at := frontier[path];
      t := Tally(0, 0, 0, 0);
      ok := true;
      FrontierFolder(run, key, disk, was, path);
      if path in disk {
        var saved, next := folder, nextFolder;
        var pushed;
        if quiet {
          NextIsSettled(run, key, disk, first, rows, was, path);
        }
        FitsAt(key, disk, path);
        FitsParts(key, disk[path]);
        ok, pushed := Discover(key, path, at, disk[path].directories);
        if !ok {
          folder, nextFolder := saved, next;
          return;
        }
        t := Directory(run, key, disk, at, disk[path], now);
        frontier := pushed - {path};
        ReconciledIs(run, key, folder, disk, at, disk[path], was.file, file);
        ReconciledLands(run, was.folder, folder, disk, at, disk[path].mentioned, was.file, file);
        if Young(run, was.file) {
          YoungReconciled(run, key, folder, disk, at, disk[path], was.file, file);
        }
      } else {
        frontier := frontier - {path};
        ExtendsSelf(folder);
        KeptSelf(folder, disk, file);
        NoneTallied(file);
        ReachesNone(run, at, file);
      }
      done := done[path := Processed(at, Looked(disk, path))];
      ProcessProgress(run, key, disk, was, State(), path);
      if quiet {
        QuietStep(run, key, disk, first, rows, was, State(), path);
      }
    }

    // ---------------------------------------------------------------- the loops

    /** Directory after directory, each its own commit, until the frontier is empty or the process is killed. */
    method Traverse(run: Run, key: string -> string, disk: Disk, now: int, kill: Option<nat>, ghost first: Tree,
                    ghost rows: Files, ghost told: Tally,
                    ghost past: seq<Scan>, ghost sofar: seq<Event>)
      returns (ok: bool, t: Tally, ghost states: seq<Scan>, ghost events: seq<Event>)
      requires Came(run, key, disk, past, sofar, State()) && |past| > 0
      requires Progress(run, key, disk, State()) && DiskFits(key, disk) && Numbered() && now >= run.start
      requires Linked(first) && Housed(first, rows) && Young(run, file) && Extends(first, folder)
      requires KeepsPresent(first, disk, rows, file) && Tallied(told, rows, file)
      requires SoFar(run, key, disk, first, rows, State()) && SiblingsDiffer(first)
      modifies this
      ensures Came(run, key, disk, states, events, State()) && |states| > 0 && states[0] == past[0]
      ensures Progress(run, key, disk, State()) && Numbered() && Young(run, file)
      ensures Extends(first, folder) && KeepsPresent(first, disk, rows, file)
      ensures Tallied(Sum(told, t), rows, file)
      ensures ok && kill == None ==> frontier == map[]
      ensures ok && kill.Some? ==> frontier == map[] || |events| == |sofar| + kill.value
      ensures SoFar(run, key, disk, first, rows, State()) && (Aged(now, old(file)) ==> Aged(now, file))
      ensures !ok ==>
        exists p :: p in frontier && p in disk && Barred(key, folder, file, frontier[p], disk[p].directories)
      ensures QuietSoFar(run, key, disk, first, rows, old(State())) ==>
        ok && Nothing(t) && QuietSoFar(run, key, disk, first, rows, State())
    {
      hide Came, SoFar, Aged, SiblingsDiffer, Committed, Progress, QuietSoFar, DiskFits, KeepsPresent, Extends, Linked,
        ProcessStep, Young, Housed, Barred, Sum, Tallied, Reaches;
      t := Tally(0, 0, 0, 0);
      SumZero(told, rows, file);
      ok, states, events := true, past, sofar;
      var processed := 0;
      while frontier != map[] && (kill == None || processed < kill.value)
        invariant Came(run, key, disk, states, events, State()) && |states| > 0 && states[0] == past[0]
        invariant Progress(run, key, disk, State()) && Numbered() && Young(run, file)
        invariant Extends(first, folder) && KeepsPresent(first, disk, rows, file)
        invariant SoFar(run, key, disk, first, rows, State()) && (Aged(now, old(file)) ==> Aged(now, file))
        invariant Tallied(Sum(told, t), rows, file) && |events| == |sofar| + processed
        invariant kill.Some? ==> processed <= kill.value
        invariant QuietSoFar(run, key, disk, first, rows, old(State())) ==>
          Nothing(t) && QuietSoFar(run, key, disk, first, rows, State())
        decreases disk.Keys + {run.path} - done.Keys
      {
        ghost var was := State();
        var path :| path in frontier;
        FrontierFolder(run, key, disk, was, path);
        FrontierNotDone(run, key, disk, was, path);
        var found;
        ok, found := ProcessDirectory(run, key, disk, path, now, first, rows);
        if !ok {
          return;
        }
        CameOn(run, key, disk, states, events, was, State(), Process(path, Looked(disk, path)));
        states, events := states + [State()], events + [Process(path, Looked(disk, path))];
        TalliedDirectory(run, key, disk, first, rows, was, path, file, Sum(told, t), found);
        TalliedAgain(told, t, found, rows, file);
        SoFarOnward(run, key, disk, first, rows, was, State(), path);
        ExtendsOnward(first, was.folder, folder);
        KeptOnward(first, folder, disk, rows, was.file, file);
        DoneGrows(run, key, was, State(), path, Looked(disk, path));
        if Nothing(t) && Nothing(found) {
          SumNothing(t, found);
        }
        t := Sum(t, found);
        processed := processed + 1;
      }
    }

    /** One batch of what the run did not see. Needs no cursor: every row it takes stops being asked for. */
    method SweepBatch(run: Run, limit: nat) returns (trashed: nat, ghost batch: set<nat>)
      requires frontier == map[] && limit > 0
      modifies this`file
      ensures SweepStep(run, old(State()), State(), batch) && trashed == |batch| <= limit
      ensures trashed == 0 ==> file == old(file) && forall i :: !Unseen(run, State(), i)
      ensures (set i | i in file && file[i].live) == (set i | i in old(file) && old(file)[i].live) - batch
    {
      hide Above, Unseen;
      var view := Scan(folder, file, frontier, map[], blocked);
      UnseenIn(run, view);
      var unseen := set i | i in file && Unseen(run, view, i);
      var chosen := UpTo(unseen, limit);
      batch := chosen;
      trashed := |chosen|;
      SameUnseen(run, view, State());
      file := map i | i in file :: if i in chosen then file[i].(live := false) else file[i];
      if chosen == {} {
        assert file == old(file);
        SameUnseen(run, view, State());
      }
    }

    /** Sweep until a batch is empty. */
    method SweepAll(run: Run, key: string -> string, disk: Disk, ghost past: seq<Scan>, ghost sofar: seq<Event>)
      returns (trashed: nat, ghost states: seq<Scan>, ghost events: seq<Event>)
      requires Came(run, key, disk, past, sofar, State()) && |past| > 0
      requires frontier == map[] && Progress(run, key, disk, State())
      modifies this`file
      ensures Came(run, key, disk, states, events, State()) && |states| > 0 && states[0] == past[0]
      ensures Progress(run, key, disk, State()) && Swept(run, old(file), file)
      ensures forall i :: !Unseen(run, State(), i)
      ensures (forall i :: !Unseen(run, old(State()), i)) ==> trashed == 0 && file == old(file)
      ensures trashed == |Rows(Trashed, old(file), file)|
    {
      hide Progress, Unseen, SweepStep, Came, Rows;
      trashed, states, events := 0, past, sofar;
      ghost var first := file;
      NoneTrashed(file);
      while true
        invariant Came(run, key, disk, states, events, State()) && |states| > 0 && states[0] == past[0]
        invariant Progress(run, key, disk, State()) && Swept(run, first, file)
        invariant trashed == |Rows(Trashed, first, file)|
        invariant (forall i :: !Unseen(run, old(State()), i)) ==> trashed == 0 && file == first
        decreases set i | i in file && file[i].live
      {
        ghost var was := State();
        var n;
        ghost var batch;
        n, batch := SweepBatch(run, SWEEP_BATCH);
        if n == 0 {
          break;
        }
        CameOn(run, key, disk, states, events, was, State(), Sweep(batch));
        states, events := states + [State()], events + [Sweep(batch)];
        SweepTakes(run, was, State(), batch);
        SweepProgress(run, key, disk, was, State(), batch);
        SweptRows(run, was, State(), batch);
        TrashedMore(run, first, was, State(), batch);
        SweptOnward(run, first, was.file, file);
        trashed := trashed + n;
      }
    }

    /**
     Attempt after attempt at the traversal: each dies after so many directories or is refused, the last goes on to the
     end.
    */
    method Attempts(run: Run, key: string -> string, disk: Disk, now: int, kills: seq<nat>, ghost first: Tree,
                    ghost rows: Files,
                    ghost past: seq<Scan>, ghost sofar: seq<Event>)
      returns (ok: bool, t: Tally, ghost states: seq<Scan>, ghost events: seq<Event>)
      requires Came(run, key, disk, past, sofar, State()) && |past| > 0
      requires Progress(run, key, disk, State()) && DiskFits(key, disk) && Numbered() && now >= run.start
      requires Linked(first) && Housed(first, rows) && Young(run, file) && Extends(first, folder)
      requires KeepsPresent(first, disk, rows, file) && file == rows
      requires SoFar(run, key, disk, first, rows, State()) && SiblingsDiffer(first)
      modifies this
      ensures Came(run, key, disk, states, events, State()) && |states| > 0 && states[0] == past[0]
      ensures Progress(run, key, disk, State()) && Numbered() && Young(run, file)
      ensures Extends(first, folder) && KeepsPresent(first, disk, rows, file)
      ensures ok ==> frontier == map[]
      ensures SoFar(run, key, disk, first, rows, State()) && (Aged(now, old(file)) ==> Aged(now, file))
      ensures !ok ==>
        exists p :: p in frontier && p in disk && Barred(key, folder, file, frontier[p], disk[p].directories)
      ensures QuietSoFar(run, key, disk, first, rows, old(State())) ==>
        ok && Nothing(t) && QuietSoFar(run, key, disk, first, rows, State())
      ensures Tallied(t, rows, file)
    {
      hide Progress, QuietSoFar, Linked, SiblingsDiffer, DiskFits, Young, Extends, Housed, Barred, Sum, KeepsPresent,
        SoFar, Came, Aged, Tallied, Nothing;
      ghost var quiet := QuietSoFar(run, key, disk, first, rows, State());
      t, states, events := Tally(0, 0, 0, 0), past, sofar;
      NoneTallied(rows);
      var attempt := 0;
      while attempt < |kills|
        invariant Came(run, key, disk, states, events, State()) && |states| > 0 && states[0] == past[0]
        invariant Progress(run, key, disk, State()) && Numbered() && Young(run, file)
        invariant Extends(first, folder) && KeepsPresent(first, disk, rows, file)
        invariant SoFar(run, key, disk, first, rows, State()) && (Aged(now, old(file)) ==> Aged(now, file))
        invariant quiet ==> Nothing(t) && QuietSoFar(run, key, disk, first, rows, State())
        invariant Tallied(t, rows, file)
      {
        var found;
        ok, found, states, events :=
          Traverse(run, key, disk, now, Some(kills[attempt]), first, rows, t, states, events);
        if Nothing(t) && Nothing(found) {
          SumNothing(t, found);
        }
        t := Sum(t, found);
        attempt := attempt + 1;
      }
      var found;
      ok, found, states, events := Traverse(run, key, disk, now, None, first, rows, t, states, events);
      if Nothing(t) && Nothing(found) {
        SumNothing(t, found);
      }
      t := Sum(t, found);
    }

    /**
     A whole run. `kills` says after how many directories each earlier attempt died, if it was not refused; the last
     attempt goes on to the end. It is refused only over a file row that held a directory's name when the run began, and
     always if one of these cannot leave; and then so is every later run. Otherwise the index converges on the disk. A
     run over a converged index changes nothing but stamps, and a file that is still at its own path is never taken for
     one that moved.
    */
    method RunScan(run: Run, key: string -> string, disk: Disk, now: int, kills: seq<nat>)
      returns (ok: bool, t: Tally, trashed: nat, ghost states: seq<Scan>, ghost events: seq<Event>)
      requires Fit() && run.root in folder && DiskFits(key, disk) && Fresh(run, file) && now >= run.start
      modifies this
      ensures Came(run, key, disk, states, events, State()) && |states| > 0
      ensures states[0] == StartOf(run, old(folder), old(file))
      ensures Fit() && Extends(old(folder), folder) && (Aged(now, old(file)) ==> Aged(now, file))
      ensures ok ==> Converged(run, key, disk, folder, file) && forall p :: p in done <==> Reachable(run, disk, p)
      ensures ok ==> frontier == map[] && forall i :: !Unseen(run, State(), i)
      ensures !ok ==> Held(run, key, disk, old(folder), old(file))
      ensures Obstructed(run, key, disk, old(folder), old(file)) ==> !ok && Obstructed(run, key, disk, folder, file)
      ensures !ok ==>
        exists p :: p in frontier && p in disk && Barred(key, folder, file, frontier[p], disk[p].directories)
      ensures FoldersSoFar(key, disk, done, old(folder), folder)
      ensures FiledAtPaths(done, old(folder), folder)
      ensures Told(t, trashed, old(file), file)
      ensures AllInPlace(key, disk, done, old(file), file) && StaysPut(old(folder), disk, old(file), file)
      ensures Converged(run, key, disk, old(folder), old(file))
        ==> ok && Nothing(t) && trashed == 0 && folder == old(folder) && SameButStamps(old(file), file)
    {
      hide Progress, QuietSoFar, Linked, SiblingsDiffer, DiskFits, Converged, Young, Fresh, LiveDiffer, Extends,
        Housed, Barred,
        Reachable, Sum, StaysPut, KeepsPresent, Unseen, SoFar, Came, FoldersSoFar, Aged, Held, Obstructed, AllInPlace,
        Tallied, Told, Rows;
      ghost var first, rows := folder, file;
      ghost var quiet := Converged(run, key, disk, folder, file);
      trashed := 0;
      frontier, blocked, done := map[run.path := run.root], {}, map[];
      StartProgress(run, key, disk, State());
      StartSoFar(run, key, disk, State());
      states, events := [State()], [];
      CameStarts(run, key, disk, State());
      if quiet {
        StartQuiet(run, key, disk, State());
      }
      ExtendsSelf(folder);
      KeptSelf(folder, disk, file);
      FreshIsYoung(run, file);
      ok, t, states, events := Attempts(run, key, disk, now, kills, first, rows, states, events);
      ghost var before := State();
      SoFarHoused(run, key, disk, first, rows, before);
      AllAtPaths(run, key, disk, first, rows, before);
      KeptStays(first, disk, rows, file, file);
      if !ok {
        TalliedTold(t, rows, file);
        Refused(run, key, disk, first, rows);
        return;
      }
      FinishedUnheld(run, key, disk, first, rows, before);
      if quiet {
        QuietNoneUnseen(run, key, disk, first, rows, before);
      }
      trashed, states, events := SweepAll(run, key, disk, states, events);
      Finished(run, key, disk, now, first, rows, before);
      SweptTold(run, key, disk, first, rows, before, file, t, trashed);
      KeptStays(first, disk, rows, before.file, file);
      forall p ensures p in done <==> Reachable(run, disk, p) {
        ReachableIsDone(run, key, disk, State(), p);
      }
    }

    /** What a refused traversal leaves. */
    lemma Refused(run: Run, key: string -> string, disk: Disk, first: Tree, rows: Files)
      requires Progress(run, key, disk, State()) && DiskFits(key, disk) && SoFar(run, key, disk, first, rows, State())
      requires SiblingsDiffer(first)
      requires exists p :: p in frontier && p in disk && Barred(key, folder, file, frontier[p], disk[p].directories)
      ensures Held(run, key, disk, first, rows) && AllInPlace(key, disk, done, rows, file)
      ensures FoldersSoFar(key, disk, done, first, folder)
      ensures Obstructed(run, key, disk, first, rows) ==> Obstructed(run, key, disk, folder, file)
      ensures Linked(folder) && SiblingsDiffer(folder) && LiveDiffer(file)
    {
      hide Progress, Linked, SiblingsDiffer, DiskFits, LiveDiffer, Extends, Housed, Barred, SoFar, FoldersSoFar, Held,
        Obstructed, AllInPlace;
      var p :| p in frontier && p in disk && Barred(key, folder, file, frontier[p], disk[p].directories);
      FrontierFolder(run, key, disk, State(), p);
      BarredWasHeld(run, key, disk, first, rows, State(), p);
      StillObstructed(run, key, disk, first, rows, State());
      SoFarParts(run, key, disk, first, rows, State());
      SweptSelf(run, file);
      SweptInPlace(run, key, disk, first, rows, State(), file);
    }

    /** What a finished sweep leaves. */
    lemma Finished(run: Run, key: string -> string, disk: Disk, now: int, first: Tree, rows: Files, before: Scan)
      requires Progress(run, key, disk, State()) && SoFar(run, key, disk, first, rows, before)
      requires Young(run, before.file)
      requires before == State().(file := before.file) && Swept(run, before.file, file) && frontier == map[]
      requires Housed(folder, before.file) && forall i :: !Unseen(run, State(), i)
      ensures Converged(run, key, disk, folder, file) && AllInPlace(key, disk, done, rows, file)
      ensures FoldersSoFar(key, disk, done, first, folder)
      ensures Housed(folder, file) && Linked(folder) && SiblingsDiffer(folder) && LiveDiffer(file)
      ensures Aged(now, before.file) ==> Aged(now, file)
    {
      hide Progress, Linked, SiblingsDiffer, LiveDiffer, Extends, Housed, SoFar, FoldersSoFar, Converged, AllInPlace,
        Young, Aged, Unseen, Swept;
      YoungSwept(run, before.file, file);
      OnlyUnseenLeft(run, key, disk, State());
      ProgressConverges(run, key, disk, State());
      SoFarParts(run, key, disk, first, rows, before);
      SweptInPlace(run, key, disk, first, rows, before, file);
      SweptHoused(run, folder, before.file, file);
      WellKept(run, key, disk, State());
      if Aged(now, before.file) {
        AgedSwept(now, run, before.file, file);
      }
    }
  }

  /** Some of them, as many as the limit lets through. */
  method UpTo(all: set<nat>, limit: nat) returns (chosen: set<nat>)
    requires limit > 0
    ensures chosen <= all && |chosen| <= limit && (chosen == {} ==> all == {})
  {
    chosen := {};
    var left := all;
    while left != {} && |chosen| < limit
      invariant |chosen| <= limit && chosen + left == all && chosen !! left
      decreases left
    {
      var i :| i in left;
      left, chosen := left - {i}, chosen + {i};
    }
  }
}
