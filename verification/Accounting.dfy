/**
 What a finished scan hands the identity pass (folders.py `vanished`, reconcile.py `_claim`): which folders the run
 accounted for, and exactly when that leaves no live file in a folder it did not.
*/
module Accounting {
  import opened Common
  import opened FolderTree
  import opened Crossing
  import opened ScanSafety
  import R = Rollup
  import D = Steps
  import I = Identity

  /** Some listing of the run mentioned the folder, or it is the run's own and was listed: its row is stamped. */
  ghost predicate SeenFolder(run: Run, s: Scan, f: nat) {
    exists p :: Known(s, p) && FolderAt(s, p) == f && (p == run.path ==> ListedIn(s, p))
  }

  predicate ListedIn(s: Scan, p: Path) {
    p in s.done && s.done[p].verdict.Listed?
  }

  ghost predicate UnderBlocked(s: Scan, f: nat) {
    exists b :: b in s.blocked && Above(s.folder, b, f)
  }

  /** Outside the run's root, registered since it began, seen by it, or under a directory it could not look into. */
  ghost predicate Accounted(run: Run, first: Tree, s: Scan, f: nat) {
    f in s.folder && (!Above(s.folder, run.root, f) || f !in first || SeenFolder(run, s, f) || UnderBlocked(s, f))
  }

  ghost function AllAccounted(run: Run, first: Tree, s: Scan): (all: set<nat>)
    ensures forall f :: f in all <==> Accounted(run, first, s, f)
  {
    set f | f in s.folder && Accounted(run, first, s, f)
  }

  /** Folders registered since the run began, other than the roots of new workspaces. */
  function YoungFolders(first: Tree, t: Tree): set<nat> {
    set f | f in t && f !in first && t[f].parent.Some?
  }

  // ------------------------------------------------------------------ who wrote what is there

  /** The commit left a live row that was not live there before, or was not as seen or as old. */
  predicate LeftBy(s: Scan, s': Scan, i: nat) {
    i in s'.file && s'.file[i].live && !(i in s.file && StayedPut(s.file[i], s'.file[i]))
  }

  /** The live row is where somebody else's transaction put it during the run. */
  ghost predicate PutByOthers(states: seq<Scan>, events: seq<Event>, k: nat, i: nat)
    requires |states| == |events| + 1 && k <= |events|
  {
    i in states[k].file &&
    exists j :: 0 <= j < k && events[j].Other? && LeftBy(states[j], states[j + 1], i)
      && states[j + 1].file[i].folder == states[k].file[i].folder
  }

  ghost predicate AddedByOthers(states: seq<Scan>, events: seq<Event>, k: nat, f: nat)
    requires |states| == |events| + 1 && k <= |events|
  {
    exists j :: 0 <= j < k && events[j].Other? && f !in states[j].folder && f in states[j + 1].folder
  }

  ghost predicate ListedFolder(s: Scan, f: nat) {
    exists p :: ListedIn(s, p) && s.done[p].folder == f
  }

  lemma ListedOnward(run: Run, key: string -> string, s: Scan, s': Scan, e: Event, f: nat)
    requires Inv(run, key, s) && Commit(run, key, s, s', e) && ListedFolder(s, f)
    ensures ListedFolder(s', f)
  {
    hide Inv, Commit;
    CommitKnown(run, key, s, s', e);
    var p :| ListedIn(s, p) && s.done[p].folder == f;
    assert ListedIn(s', p);
  }

  /** A live row the sweep would not ask for was put where it is by a listing of that folder, or by others. */
  lemma {:induction false} RowsLand(run: Run, key: string -> string, states: seq<Scan>, events: seq<Event>, k: nat,
                                    i: nat)
    requires Trace(run, key, states, events) && k <= |events| && Fresh(run, states[0].file)
    requires i in states[k].file && states[k].file[i].live && !Waiting(run, states[k].file[i])
    ensures ListedFolder(states[k], states[k].file[i].folder) || PutByOthers(states, events, k, i)
  {
    hide Inv, Begun, Pushed, Extends, FileStep, AllStamped, ListedFolder;
    if k > 0 {
      var s, s', e := states[k - 1], states[k], events[k - 1];
      assert Commit(run, key, s, s', e);
      if i in s.file && StayedPut(s.file[i], s'.file[i]) {
        RowsLand(run, key, states, events, k - 1, i);
        TraceInv(run, key, states, events, k - 1);
        if ListedFolder(s, s.file[i].folder) {
          ListedOnward(run, key, s, s', e, s.file[i].folder);
        }
      } else if e.Process? {
        assert ListedIn(s', e.path);
        ListedHere(s', e.path);
      } else {
        assert LeftBy(s, s', i);
      }
    }
  }

  lemma ListedHere(s: Scan, p: Path)
    requires ListedIn(s, p)
    ensures ListedFolder(s, s.done[p].folder)
  {
  }

  lemma {:induction false} FoldersGrow(run: Run, key: string -> string, states: seq<Scan>, events: seq<Event>, j: nat,
                                       k: nat)
    requires Trace(run, key, states, events) && j <= k <= |events|
    ensures forall f :: f in states[j].folder ==> f in states[k].folder && states[k].folder[f] == states[j].folder[f]
    decreases k - j
  {
    hide Inv, Begun, Pushed, FileStep, AllStamped, Linked, SiblingsDiffer, Lands;
    if j < k {
      FoldersGrow(run, key, states, events, j, k - 1);
      assert Commit(run, key, states[k - 1], states[k], events[k - 1]);
    }
  }

  /** A folder registered during the run hangs under one that was listed, or others added it. */
  lemma {:induction false} FoldersLand(run: Run, key: string -> string, states: seq<Scan>, events: seq<Event>, k: nat,
                                       f: nat)
    requires Trace(run, key, states, events) && k <= |events|
    requires f in states[k].folder && f !in states[0].folder && states[k].folder[f].parent.Some?
    ensures ListedFolder(states[k], states[k].folder[f].parent.value) || AddedByOthers(states, events, k, f)
  {
    hide Inv, Begun, Pushed, FileStep, AllStamped, Linked, SiblingsDiffer, ListedFolder;
    if k > 0 {
      var s, s', e := states[k - 1], states[k], events[k - 1];
      assert Commit(run, key, s, s', e);
      if f in s.folder {
        FoldersLand(run, key, states, events, k - 1, f);
        TraceInv(run, key, states, events, k - 1);
        if ListedFolder(s, s.folder[f].parent.value) {
          ListedOnward(run, key, s, s', e, s.folder[f].parent.value);
        }
      } else if e.Process? {
        ListedHere(s', e.path);
      }
    }
  }

  /** What is blocked was processed, and could not be looked into. */
  lemma {:induction false} BlockedUnknown(run: Run, key: string -> string, states: seq<Scan>, events: seq<Event>,
                                          k: nat, b: nat) returns (p: Path)
    requires Trace(run, key, states, events) && k <= |events| && b in states[k].blocked
    ensures p in states[k].done && states[k].done[p] == Processed(b, Unknown)
  {
    hide Inv, Pushed, FileStep, AllStamped, Linked, SiblingsDiffer, Extends, Lands;
    assert k > 0;
    var s, s', e := states[k - 1], states[k], events[k - 1];
    assert Commit(run, key, s, s', e);
    if b in s.blocked {
      p := BlockedUnknown(run, key, states, events, k - 1, b);
      TraceInv(run, key, states, events, k - 1);
      CommitKnown(run, key, s, s', e);
    } else {
      p := e.path;
    }
  }

  // ------------------------------------------------------------------ what the identity pass may rely on

  lemma ListedSeen(run: Run, s: Scan, f: nat)
    requires ListedFolder(s, f) && forall p :: p in s.frontier ==> p !in s.done
    ensures SeenFolder(run, s, f)
  {
    var p :| ListedIn(s, p) && s.done[p].folder == f;
    assert Known(s, p) && FolderAt(s, p) == f;
  }

  /** Nobody above the run's own folder lies inside it. */
  lemma RootsParentOutside(t: Tree, root: nat, f: nat)
    requires Linked(t) && f in t && t[f].parent.Some? && (Above(t, root, f) ==> f == root)
    ensures !Above(t, root, t[f].parent.value)
  {
    if f == root {
      ParentAbove(t, t[f].parent.value, f);
    }
  }

  /** The folder above one the run saw was listed, unless it lies outside the run. */
  lemma SeenAbove(run: Run, key: string -> string, s: Scan, f: nat)
    requires Inv(run, key, s) && SeenFolder(run, s, f) && f in s.folder && s.folder[f].parent.Some?
    ensures f == run.root || ListedFolder(s, s.folder[f].parent.value)
  {
    hide SiblingsDiffer, Followed, Unmentioned, Linked;
    var p :| Known(s, p) && FolderAt(s, p) == f && (p == run.path ==> ListedIn(s, p));
    ListedAbove(run, key, s, p);
  }

  ghost predicate UnderListed(s: Scan, f: nat)
    requires f in s.folder
  {
    s.folder[f].parent.Some? && ListedFolder(s, s.folder[f].parent.value)
  }

  lemma ListedAbove(run: Run, key: string -> string, s: Scan, p: Path)
    requires Inv(run, key, s) && Known(s, p)
    ensures p == run.path ==> FolderAt(s, p) == run.root
    ensures p != run.path ==> FolderAt(s, p) in s.folder && UnderListed(s, FolderAt(s, p))
  {
    hide SiblingsDiffer, Followed, Unmentioned, Linked;
    assert ListedByParent(run, key, s, p);
    if p != run.path {
      var up := p[..|p| - 1];
      assert ListedIn(s, up);
      ListedHere(s, up);
    }
  }

  lemma BlockedAbove(run: Run, key: string -> string, states: seq<Scan>, events: seq<Event>, f: nat)
    requires Trace(run, key, states, events) && UnderBlocked(states[|events|], f)
    requires var s := states[|events|]; f in s.folder && s.folder[f].parent.Some? && f != run.root
    ensures var s := states[|events|]; var g := s.folder[f].parent.value; UnderBlocked(s, g) || ListedFolder(s, g)
  {
    hide Inv, Begun, Commit, ListedFolder;
    var s := states[|events|];
    var b :| b in s.blocked && Above(s.folder, b, f);
    if b == f {
      TraceInv(run, key, states, events, |events|);
      var p := BlockedUnknown(run, key, states, events, |events|, b);
      DoneOnce(run, key, s, p);
      ListedAbove(run, key, s, p);
    }
  }

  lemma DoneOnce(run: Run, key: string -> string, s: Scan, p: Path)
    requires Inv(run, key, s) && p in s.done
    ensures Known(s, p) && FolderAt(s, p) == s.done[p].folder
  {
  }

  /** Folders other people added during the run hang under folders the run accounts for. */
  ghost predicate OthersHangInside(run: Run, states: seq<Scan>, events: seq<Event>)
    requires |states| == |events| + 1
  {
    var s := states[|events|];
    forall f :: f in s.folder && s.folder[f].parent.Some? && AddedByOthers(states, events, |events|, f)
      ==> Accounted(run, states[0].folder, s, s.folder[f].parent.value)
  }

  /** Live rows other people put somewhere during the run, and that are still there, are in folders it accounts for. */
  ghost predicate OthersPutInside(run: Run, states: seq<Scan>, events: seq<Event>)
    requires |states| == |events| + 1
  {
    var s := states[|events|];
    forall i :: i in s.file && s.file[i].live && PutByOthers(states, events, |events|, i)
      ==> Accounted(run, states[0].folder, s, s.file[i].folder)
  }

  /**
   Whoever a finished traversal accounts for, it accounts for the folder above: exactly if others added folders inside
   only.
  */
  lemma AccountedUpClosed(run: Run, key: string -> string, states: seq<Scan>, events: seq<Event>)
    requires Trace(run, key, states, events)
    ensures var s := states[|events|];
      UpClosed(s.folder, AllAccounted(run, states[0].folder, s)) <==> OthersHangInside(run, states, events)
  {
    hide Commit, Begun, Inv, ListedFolder, SeenFolder, UnderBlocked;
    var s, first := states[|events|], states[0].folder;
    var all := AllAccounted(run, first, s);
    TraceInv(run, key, states, events, |events|);
    TraceLinked(run, key, s);
    if OthersHangInside(run, states, events) {
      forall f {:trigger s.folder[f].parent} | f in s.folder && f in all && s.folder[f].parent.Some?
        ensures s.folder[f].parent.value in all
      {
        AccountedParent(run, key, states, events, f);
      }
    }
    if UpClosed(s.folder, all) {
      forall f | f in s.folder && s.folder[f].parent.Some? && AddedByOthers(states, events, |events|, f)
        ensures Accounted(run, first, s, s.folder[f].parent.value)
      {
        var j :| 0 <= j < |events| && events[j].Other? && f !in states[j].folder && f in states[j + 1].folder;
        FoldersGrow(run, key, states, events, 0, j);
        assert f in all;
      }
    }
  }

  lemma TraceLinked(run: Run, key: string -> string, s: Scan)
    requires Inv(run, key, s)
    ensures Linked(s.folder) && run.root in s.folder && forall p :: p in s.frontier ==> p !in s.done
  {
  }

  lemma AccountedParent(run: Run, key: string -> string, states: seq<Scan>, events: seq<Event>, f: nat)
    requires Trace(run, key, states, events) && OthersHangInside(run, states, events)
    requires Accounted(run, states[0].folder, states[|events|], f) && states[|events|].folder[f].parent.Some?
    ensures Accounted(run, states[0].folder, states[|events|], states[|events|].folder[f].parent.value)
  {
    hide Commit, Begun, Inv, ListedFolder, SeenFolder, UnderBlocked, Above;
    var s, first := states[|events|], states[0].folder;
    var g := s.folder[f].parent.value;
    TraceInv(run, key, states, events, |events|);
    TraceLinked(run, key, s);
    ParentIn(s.folder, f);
    if !Above(s.folder, run.root, f) || f == run.root {
      RootsParentOutside(s.folder, run.root, f);
    } else if f !in first {
      FoldersLand(run, key, states, events, |events|, f);
      if ListedFolder(s, g) {
        ListedSeen(run, s, g);
      }
    } else if SeenFolder(run, s, f) {
      SeenAbove(run, key, s, f);
      ListedSeen(run, s, g);
    } else {
      BlockedAbove(run, key, states, events, f);
      if ListedFolder(s, g) {
        ListedSeen(run, s, g);
      }
    }
  }

  lemma ParentIn(t: Tree, f: nat)
    requires Linked(t) && f in t && t[f].parent.Some?
    ensures t[f].parent.value in t
  {
  }

  /** The live rows of a scan all lie in folders of the set. */
  ghost predicate LiveInside(file: Files, all: set<nat>) {
    forall i :: i in file && file[i].live ==> file[i].folder in all
  }

  /**
   Once the sweep finds nothing more, no live file lies in an unaccounted folder: exactly if others put none there.
  */
  lemma SweptLiveAccounted(run: Run, key: string -> string, states: seq<Scan>, events: seq<Event>)
    requires Trace(run, key, states, events) && Fresh(run, states[0].file)
    requires Housed(states[|events|].folder, states[|events|].file)
    requires forall i :: !Unseen(run, states[|events|], i)
    ensures var s := states[|events|];
      LiveInside(s.file, AllAccounted(run, states[0].folder, s)) <==> OthersPutInside(run, states, events)
  {
    hide Commit, Begun, Inv, ListedFolder, SeenFolder, Above;
    var s, first := states[|events|], states[0].folder;
    TraceInv(run, key, states, events, |events|);
    TraceLinked(run, key, s);
    if OthersPutInside(run, states, events) {
      forall i | i in s.file && s.file[i].live ensures Accounted(run, first, s, s.file[i].folder) {
        if !Waiting(run, s.file[i]) {
          RowsLand(run, key, states, events, |events|, i);
          if ListedFolder(s, s.file[i].folder) {
            ListedSeen(run, s, s.file[i].folder);
          }
        } else {
          assert !Unseen(run, s, i);
        }
      }
    }
  }

  /** Everything at or under a folder registered during the run counts as accounted for. */
  lemma YoungAreSettled(run: Run, key: string -> string, states: seq<Scan>, events: seq<Event>)
    requires Trace(run, key, states, events)
    ensures var s := states[|events|];
      YoungSettled(s.folder, AllAccounted(run, states[0].folder, s), YoungFolders(states[0].folder, s.folder))
  {
    hide Commit, Begun, Inv, SeenFolder, UnderBlocked, Above;
    var s, first := states[|events|], states[0].folder;
    FoldersGrow(run, key, states, events, 0, |events|);
    TraceInv(run, key, states, events, 0);
    TraceLinked(run, key, states[0]);
    forall n, f | n in YoungFolders(first, s.folder) && Above(s.folder, n, f) ensures Accounted(run, first, s, f) {
      if f in first {
        OldAbove(first, s.folder, n, f);
      }
      InTree(s.folder, n, f);
    }
  }

  lemma InTree(t: Tree, n: nat, f: nat)
    requires Above(t, n, f)
    ensures f in t
  {
  }

  lemma {:induction false} OldAbove(first: Tree, t: Tree, n: nat, f: nat)
    requires Linked(first) && (forall g :: g in first ==> g in t && t[g] == first[g]) && Above(t, n, f) && f in first
    ensures n in first
    decreases first[f].depth
  {
    if n != f {
      OldAbove(first, t, n, first[f].parent.value);
    }
  }

  /** Evidence of a rename lands inside: a row that a listing moved is in a folder the run accounts for. */
  lemma EvidenceLands(run: Run, key: string -> string, states: seq<Scan>, events: seq<Event>, j: nat, i: nat)
    requires Trace(run, key, states, events) && j < |events| && events[j].Process?
    requires i in states[j].file && i in states[j + 1].file && states[j + 1].file[i].live
    requires states[j + 1].file[i].folder != states[j].file[i].folder
    ensures Accounted(run, states[0].folder, states[|events|], states[j + 1].file[i].folder)
  {
    hide Begun, Inv, SeenFolder, UnderBlocked, Above, Extends, FileStep, AllStamped, Pushed;
    var s, s', p := states[j], states[j + 1], events[j].path;
    assert Commit(run, key, s, s', events[j]);
    assert ListedIn(s', p) && s'.done[p].folder == s'.file[i].folder;
    DoneStays(run, key, states, events, j + 1, |events|, p);
    TraceInv(run, key, states, events, |events|);
    TraceLinked(run, key, states[|events|]);
    ListedHere(states[|events|], p);
    ListedSeen(run, states[|events|], s'.file[i].folder);
    DoneFolder(run, key, states[|events|], p);
  }

  lemma DoneFolder(run: Run, key: string -> string, s: Scan, p: Path)
    requires Inv(run, key, s) && p in s.done
    ensures s.done[p].folder in s.folder
  {
    hide SiblingsDiffer, Followed, Unmentioned, Linked;
    DoneOnce(run, key, s, p);
    ListedAbove(run, key, s, p);
  }

  // ------------------------------------------------------------------ the evidence counted on the way

  /** The rows one commit moved from a folder to another. */
  ghost function MovedRows(s: Scan, s': Scan, a: nat, b: nat): set<nat> {
    set i | i in s.file && i in s'.file && s'.file[i].live && s.file[i].folder == a && s'.file[i].folder == b
  }

  /** How many rows listings moved from `a` to `b`, up to the k-th commit. */
  ghost function MovedBefore(states: seq<Scan>, events: seq<Event>, k: nat, a: nat, b: nat): nat
    requires |states| == |events| + 1 && k <= |events|
  {
    if k == 0 then 0
    else MovedBefore(states, events, k - 1, a, b) + if events[k - 1].Process? then |MovedRows(states[k - 1], states[k], a, b)| else 0
  }

  /** The evidence counts every row a listing moved to another folder, and nothing else. */
  ghost predicate Recorded(states: seq<Scan>, events: seq<Event>, relocation: map<(nat, nat), I.Evidence>)
    requires |states| == |events| + 1
  {
    forall a: nat, b: nat :: var n := MovedBefore(states, events, |events|, a, b);
      ((a, b) in relocation <==> a != b && n > 0) && ((a, b) in relocation ==> relocation[(a, b)] == I.Evidence(n, 0))
  }

  /** A file row lies in a folder that is there, and a listing looks for the rows to move in its own workspace. */
  ghost predicate WithinWorkspace(states: seq<Scan>, events: seq<Event>)
    requires |states| == |events| + 1
  {
    (forall k :: 0 <= k < |states| ==> Housed(states[k].folder, states[k].file)) &&
    forall j, i :: 0 <= j < |events| && events[j].Process? && i in states[j].file && i in states[j + 1].file
      ==> SameWorkspace(states[j + 1].folder, states[j].file[i].folder, states[j + 1].file[i].folder)
  }

  predicate SameWorkspace(t: Tree, a: nat, b: nat) {
    a in t && b in t ==> t[a].workspace == t[b].workspace
  }

  lemma {:induction false} SomeListing(states: seq<Scan>, events: seq<Event>, k: nat, a: nat, b: nat)
    returns (j: nat, i: nat)
    requires |states| == |events| + 1 && k <= |events| && MovedBefore(states, events, k, a, b) > 0
    ensures j < k && events[j].Process? && i in MovedRows(states[j], states[j + 1], a, b)
  {
    if events[k - 1].Process? && MovedRows(states[k - 1], states[k], a, b) != {} {
      j := k - 1;
      i :| i in MovedRows(states[j], states[j + 1], a, b);
    } else {
      j, i := SomeListing(states, events, k - 1, a, b);
    }
  }

  /** And a row a listing moved is counted. */
  lemma {:induction false} ListingCounted(states: seq<Scan>, events: seq<Event>, k: nat, j: nat, i: nat)
    requires |states| == |events| + 1 && j < k <= |events| && events[j].Process?
    requires i in states[j].file && i in states[j + 1].file && states[j + 1].file[i].live
    ensures MovedBefore(states, events, k, states[j].file[i].folder, states[j + 1].file[i].folder) > 0
  {
    if j < k - 1 {
      ListingCounted(states, events, k - 1, j, i);
    } else {
      assert i in MovedRows(states[j], states[k], states[j].file[i].folder, states[k].file[i].folder);
    }
  }

  /** All of it names folders of one workspace, and lands where the run has been. */
  lemma EvidenceStands(run: Run, key: string -> string, states: seq<Scan>, events: seq<Event>,
                       relocation: map<(nat, nat), I.Evidence>)
    requires Trace(run, key, states, events) && WithinWorkspace(states, events) && Recorded(states, events, relocation)
    ensures I.PairsIn(states[|events|].folder, AllAccounted(run, states[0].folder, states[|events|]), relocation)
  {
    hide Commit, Begun, Accounted, WithinWorkspace, MovedBefore;
    var s := states[|events|];
    forall a: nat, b: nat | (a, b) in relocation
      ensures a in s.folder && Accounted(run, states[0].folder, s, b) && b in s.folder
      ensures s.folder[a].workspace == s.folder[b].workspace
    {
      var j, i := SomeListing(states, events, |events|, a, b);
      EvidenceLands(run, key, states, events, j, i);
      PairStands(run, key, states, events, j, i);
    }
  }

  lemma LastHoused(states: seq<Scan>, events: seq<Event>)
    requires |states| == |events| + 1 && WithinWorkspace(states, events)
    ensures Housed(states[|events|].folder, states[|events|].file)
  {
  }

  lemma PairStands(run: Run, key: string -> string, states: seq<Scan>, events: seq<Event>, j: nat, i: nat)
    requires Trace(run, key, states, events) && WithinWorkspace(states, events) && j < |events| && events[j].Process?
    requires i in states[j].file && i in states[j + 1].file
    ensures var t, a, b := states[|events|].folder, states[j].file[i].folder, states[j + 1].file[i].folder;
      a in t && b in t && t[a].workspace == t[b].workspace
  {
    hide Commit, Begun;
    FoldersGrow(run, key, states, events, j, j + 1);
    FoldersGrow(run, key, states, events, j + 1, |events|);
    assert Housed(states[j].folder, states[j].file) && Housed(states[j + 1].folder, states[j + 1].file);
    assert SameWorkspace(states[j + 1].folder, states[j].file[i].folder, states[j + 1].file[i].folder);
  }

  /** The index of the scan and that of the identity pass are the same tables. */
  ghost predicate SameIndex(s: Scan, rows: R.Tables) {
    rows.folder == s.folder &&
    forall i :: i in rows.file && rows.file[i].live ==>
      i in s.file && s.file[i].live && s.file[i].folder == rows.file[i].folder
  }

  /**
   A traversal that came to its end and a sweep that finds nothing more leave what the identity pass begins with, as
   long as others uploaded, moved and created things only in folders the run accounts for. No claim is tangled then.
  */
  lemma SweepPrepares(run: Run, key: string -> string, states: seq<Scan>, events: seq<Event>, rows: R.Tables,
                      closure: Closure,
                      relocation: map<(nat, nat), I.Evidence>)
    requires Trace(run, key, states, events) && Fresh(run, states[0].file) && WithinWorkspace(states, events)
    requires forall i :: !Unseen(run, states[|events|], i)
    requires OthersHangInside(run, states, events) && OthersPutInside(run, states, events)
    requires Recorded(states, events, relocation)
    requires SameIndex(states[|events|], rows) && D.Sound(rows) && Exact(closure, rows.folder)
    ensures var s, first := states[|events|], states[0].folder;
      I.Prepared(rows, closure, AllAccounted(run, first, s), YoungFolders(first, s.folder), relocation)
    ensures forall f :: f in YoungFolders(states[0].folder, rows.folder) <==>
      f in rows.folder && f !in states[0].folder && rows.folder[f].parent != None
    ensures var s, first := states[|events|], states[0].folder;
      YoungSettled(rows.folder, AllAccounted(run, first, s), YoungFolders(first, s.folder))
  {
    hide Commit, Begun, Fresh, Housed, Unseen, OthersHangInside, OthersPutInside, D.Sound, Exact, I.PairsIn, Accounted,
      UpClosed, Above, Recorded, WithinWorkspace;
    LastHoused(states, events);
    EvidenceStands(run, key, states, events, relocation);
    AccountedUpClosed(run, key, states, events);
    SweptLiveAccounted(run, key, states, events);
    YoungAreSettled(run, key, states, events);
  }
}
