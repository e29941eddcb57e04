/**
 A scan run's durable state (scans.py) and every commit that can touch it: one directory processed, a sweep batch, or
 somebody else's transaction. Every listing is arbitrary, and a crash is just the absence of further commits.
*/
module ScanSafety {
  import opened Common
  import opened FolderTree

  type Path = seq<string>

  /** What looking at one directory said. Unknown covers unreadable, unreachable and unmounted alike. */
  datatype Verdict = Gone | Unknown | Listed(directories: seq<string>, mentioned: set<string>)

  datatype FileRow = FileRow(folder: nat, name: string, key: string, live: bool, hash: nat, stat: Option<nat>,
    seen: Option<int>, created: int)

  type Files = map<nat, FileRow>

  datatype Run = Run(start: int, root: nat, path: Path)

  datatype Processed = Processed(folder: nat, verdict: Verdict)

  /** The tables a run reads and writes. `done` is the record of what it looked at, kept for the argument only. */
  datatype Scan = Scan(folder: Tree, file: Files, frontier: map<Path, nat>, done: map<Path, Processed>,
    blocked: set<nat>)

  predicate Stamped(run: Run, f: FileRow) {
    f.seen.Some? && f.seen.value >= run.start
  }

  /** The rows the sweep asks for: live, registered before the run, in its subtree, unstamped, under nothing blocked. */
  predicate Unseen(run: Run, s: Scan, i: nat) {
    i in s.file && s.file[i].live && s.file[i].created < run.start && !Stamped(run, s.file[i])
    && Above(s.folder, run.root, s.file[i].folder)
    && forall b :: b in s.blocked ==> !Above(s.folder, b, s.file[i].folder)
  }

  // ------------------------------------------------------------------ commits

  /** Folders are only added: a run assumes nobody moves one meanwhile. */
  ghost predicate Extends(t: Tree, t': Tree) {
    Linked(t') && SiblingsDiffer(t') && forall f :: f in t ==> f in t' && t'[f] == t[f]
  }

  /** Whoever touches a row stamps it, takes it out of the index, or leaves it where it is. */
  predicate RowStep(run: Run, f: FileRow, f': FileRow) {
    f'.created == f.created &&
    (Stamped(run, f') || !f'.live || (f.live && f'.folder == f.folder && f'.key == f.key && f'.seen == f.seen))
  }

  /** What a commit may do to the file rows: known rows step, new rows are as young as the run. */
  ghost predicate FileStep(run: Run, rows: Files, rows': Files) {
    (forall i :: i in rows ==> i in rows' && RowStep(run, rows[i], rows'[i])) &&
    (forall i :: i in rows' && i !in rows ==> rows'[i].created >= run.start)
  }

  ghost predicate AllStamped(run: Run, rows: Files, rows': Files, folder: nat, mentioned: set<string>) {
    forall i :: i in rows && rows[i].live && rows[i].folder == folder && rows[i].key in mentioned
      ==> i in rows' && (Stamped(run, rows'[i]) || !rows'[i].live)
  }

  /** A row the commit has nothing to do with: still live where it was, as seen and as old as it was. */
  predicate StayedPut(f: FileRow, f': FileRow) {
    f.live && f'.folder == f.folder && f'.seen == f.seen && f'.created == f.created
  }

  ghost predicate NewUnder(t: Tree, t': Tree, folder: nat) {
    forall f :: f in t' && f !in t ==> t'[f].parent == Some(folder)
  }

  /**
   Whatever a listing concludes, it concludes in its own folder: new folders and touched live rows are filed there.
  */
  ghost predicate Lands(t: Tree, t': Tree, rows: Files, rows': Files, folder: nat) {
    NewUnder(t, t', folder) &&
    forall i :: i in rows' && rows'[i].live ==> rows'[i].folder == folder || (i in rows && StayedPut(rows[i], rows'[i]))
  }

  /** The folder row the listing's directory `name` was filed under. */
  predicate ChildOf(t: Tree, p: nat, k: string, c: nat) {
    c in t && t[c].parent == Some(p) && t[c].key == k
  }

  /** The frontier gained one entry per directory the listing held, unless the path was there already. */
  ghost predicate Pushed(key: string -> string, t: Tree, before: map<Path, nat>, after: map<Path, nat>, p: Path,
                         folder: nat, directories: seq<string>) {
    (forall q :: q in before ==> q in after && after[q] == before[q]) &&
    (forall q :: q in after && q !in before ==>
      q != [] && q[..|q| - 1] == p && q[|q| - 1] in directories && ChildOf(t, folder, key(q[|q| - 1]), after[q])) &&
    (forall d :: d in directories ==> p + [d] in after)
  }

  /** One directory, committed: its conclusions, its discoveries and its removal from the frontier together. */
  ghost predicate ProcessStep(run: Run, key: string -> string, s: Scan, s': Scan, p: Path, v: Verdict) {
    p in s.frontier && s'.done == s.done[p := Processed(s.frontier[p], v)] &&
    match v
    case Gone => s'.folder == s.folder && s'.file == s.file && s'.blocked == s.blocked
      && s'.frontier == s.frontier - {p}
    case Unknown => s'.folder == s.folder && s'.file == s.file && s'.blocked == s.blocked + {s.frontier[p]}
      && s'.frontier == s.frontier - {p}
    case Listed(directories, mentioned) =>
      Extends(s.folder, s'.folder) && s'.blocked == s.blocked && FileStep(run, s.file, s'.file)
        && Lands(s.folder, s'.folder, s.file, s'.file, s.frontier[p])
      && AllStamped(run, s.file, s'.file, s.frontier[p], mentioned) && p !in s'.frontier
      && exists pushed :: Pushed(key, s'.folder, s.frontier, pushed, p, s.frontier[p], directories) && s'.frontier == pushed - {p}
  }

  /** A sweep batch: only once the frontier is empty, and only rows the query returns. */
  ghost predicate SweepStep(run: Run, s: Scan, s': Scan, batch: set<nat>) {
    s.frontier == map[] && (forall i :: i in batch ==> Unseen(run, s, i)) &&
    s'.folder == s.folder && s'.frontier == s.frontier && s'.done == s.done && s'.blocked == s.blocked &&
    s'.file.Keys == s.file.Keys
    && forall i :: i in s.file ==> s'.file[i] == if i in batch then s.file[i].(live := false) else s.file[i]
  }

  /** Somebody else's transaction: uploads, file moves, deletions, restores, new folders. */
  ghost predicate OtherStep(run: Run, s: Scan, s': Scan) {
    Extends(s.folder, s'.folder) && FileStep(run, s.file, s'.file) && s'.frontier == s.frontier && s'.done == s.done
    && s'.blocked == s.blocked
  }

  datatype Event = Process(path: Path, verdict: Verdict) | Sweep(batch: set<nat>) | Other

  ghost predicate Commit(run: Run, key: string -> string, s: Scan, s': Scan, e: Event) {
    match e
    case Process(p, v) => ProcessStep(run, key, s, s', p, v)
    case Sweep(batch) => SweepStep(run, s, s', batch)
    case Other => OtherStep(run, s, s')
  }

  /** The run's first commit: its root alone in the frontier. */
  ghost predicate Begun(run: Run, s: Scan) {
    Linked(s.folder) && SiblingsDiffer(s.folder) && run.root in s.folder
    && s.frontier == map[run.path := run.root] && s.done == map[] && s.blocked == {}
  }

  ghost predicate Housed(t: Tree, rows: Files) {
    forall i :: i in rows ==> rows[i].folder in t
  }

  /** A run about to start: nothing in the index is as young as it, and nothing bears its stamp. */
  ghost predicate Fresh(run: Run, rows: Files) {
    forall i :: i in rows ==>
      rows[i].created < run.start && (rows[i].seen == None || rows[i].seen.value < run.start)
  }

  // ------------------------------------------------------------------ what the commits keep

  ghost predicate Known(s: Scan, p: Path) {
    p in s.frontier || p in s.done
  }

  function FolderAt(s: Scan, p: Path): nat
    requires p in s.frontier || p in s.done
  {
    if p in s.frontier then s.frontier[p] else s.done[p].folder
  }

  /** Every known path but the run's own was listed by its parent, and is filed under the parent's folder. */
  ghost predicate ListedByParent(run: Run, key: string -> string, s: Scan, p: Path)
    requires Known(s, p)
  {
    if p == run.path then FolderAt(s, p) == run.root
    else p != [] && var up, last := p[..|p| - 1], p[|p| - 1];
      up in s.done && s.done[up].verdict.Listed? && last in s.done[up].verdict.directories
      && ChildOf(s.folder, s.done[up].folder, key(last), FolderAt(s, p))
  }

  /** What a processed directory listed is known, and what it could not look into is blocked. */
  ghost predicate Followed(s: Scan, p: Path)
    requires p in s.done
  {
    match s.done[p].verdict
    case Gone => true
    case Unknown => s.done[p].folder in s.blocked
    case Listed(directories, _) => forall d :: d in directories ==> Known(s, p + [d])
  }

  /** A row the run could still sweep. */
  predicate Waiting(run: Run, f: FileRow) {
    f.live && f.created < run.start && !Stamped(run, f)
  }

  /** A row still unstamped was mentioned by no listing of its folder. */
  ghost predicate Unmentioned(run: Run, s: Scan, p: Path)
    requires p in s.done
  {
    s.done[p].verdict.Listed? ==>
      (forall i :: i in s.file && Waiting(run, s.file[i]) && s.file[i].folder == s.done[p].folder ==>
        s.file[i].key !in s.done[p].verdict.mentioned)
  }

  ghost predicate Inv(run: Run, key: string -> string, s: Scan) {
    Linked(s.folder) && SiblingsDiffer(s.folder) && run.root in s.folder && Known(s, run.path) &&
    (forall p :: p in s.frontier ==> p !in s.done) &&
    (forall p :: Known(s, p) ==> ListedByParent(run, key, s, p)) &&
    (forall p :: p in s.done ==> Followed(s, p)) &&
    (forall p :: p in s.done ==> Unmentioned(run, s, p))
  }

  lemma BegunInv(run: Run, key: string -> string, s: Scan)
    requires Begun(run, s)
    ensures Inv(run, key, s)
  {
  }

  // ------------------------------------------------------------------ each commit keeps them

  lemma NotBoth(run: Run, key: string -> string, s: Scan, p: Path)
    requires Inv(run, key, s) && p in s.frontier
    ensures p !in s.done
  {
  }

  /** A directory the frontier holds has no known directory below it: nothing can be pushed twice. */
  lemma NothingPushedTwice(run: Run, key: string -> string, s: Scan, p: Path, q: Path)
    requires Inv(run, key, s) && p in s.frontier && q in s.done && q != [] && q[..|q| - 1] == p
    ensures q == run.path
  {
    hide Linked, SiblingsDiffer, Unmentioned, Followed;
    assert Known(s, q) && ListedByParent(run, key, s, q);
  }

  lemma {:induction false} RunPathAlone(run: Run, key: string -> string, s: Scan, p: Path)
    requires Inv(run, key, s) && Known(s, p)
    ensures |p| >= |run.path|
    decreases |p|
  {
    hide Linked, SiblingsDiffer, Unmentioned, Followed;
    assert ListedByParent(run, key, s, p);
    if p != run.path {
      RunPathAlone(run, key, s, p[..|p| - 1]);
    }
  }

  lemma PushedKnown(run: Run, key: string -> string, s: Scan, s': Scan, p: Path, v: Verdict)
    requires Inv(run, key, s) && ProcessStep(run, key, s, s', p, v) && v.Listed?
    ensures forall q :: Known(s, q) ==> Known(s', q) && FolderAt(s', q) == FolderAt(s, q)
    ensures forall q :: q in s'.frontier ==> q !in s'.done
    ensures forall q :: Known(s', q) && !Known(s, q) ==>
      q != [] && q[..|q| - 1] == p && q[|q| - 1] in v.directories
        && ChildOf(s'.folder, s.frontier[p], key(q[|q| - 1]), FolderAt(s', q))
    ensures forall d :: d in v.directories ==> Known(s', p + [d])
  {
    hide Inv, Linked, SiblingsDiffer, FileStep, AllStamped, Extends, ChildOf;
    var pushed :| Pushed(key, s'.folder, s.frontier, pushed, p, s.frontier[p], v.directories)
      && s'.frontier == pushed - {p};
    NotBoth(run, key, s, p);
    forall q | q in s'.frontier ensures q !in s'.done {
      if q in s.frontier {
        NotBoth(run, key, s, q);
      } else if q in s.done {
        NothingPushedTwice(run, key, s, p, q);
        RunPathAlone(run, key, s, p);
      }
    }
    forall d | d in v.directories ensures Known(s', p + [d]) {
      assert p + [d] in pushed && p + [d] != p;
    }
  }

  lemma CommitKnown(run: Run, key: string -> string, s: Scan, s': Scan, e: Event)
    requires Inv(run, key, s) && Commit(run, key, s, s', e)
    ensures forall p :: Known(s, p) ==> Known(s', p) && FolderAt(s', p) == FolderAt(s, p)
    ensures forall p :: p in s.done ==> p in s'.done && s'.done[p] == s.done[p]
    ensures forall p :: p in s'.frontier ==> p !in s'.done
  {
    hide Linked, SiblingsDiffer, Unmentioned, FileStep, AllStamped, Followed, ListedByParent, Pushed, Extends;
    if e.Process? && e.verdict.Listed? {
      PushedKnown(run, key, s, s', e.path, e.verdict);
    }
  }

  lemma CommitListed(run: Run, key: string -> string, s: Scan, s': Scan, e: Event, p: Path)
    requires Inv(run, key, s) && Commit(run, key, s, s', e) && Known(s', p)
    ensures ListedByParent(run, key, s', p)
  {
    hide Linked, SiblingsDiffer, Unmentioned, FileStep, AllStamped, Followed;
    CommitKnown(run, key, s, s', e);
    if Known(s, p) {
      assert ListedByParent(run, key, s, p);
    } else {
      PushedKnown(run, key, s, s', e.path, e.verdict);
    }
  }

  lemma CommitFollowed(run: Run, key: string -> string, s: Scan, s': Scan, e: Event, p: Path)
    requires Inv(run, key, s) && Commit(run, key, s, s', e) && p in s'.done
    ensures Followed(s', p)
  {
    hide Linked, SiblingsDiffer, Unmentioned, FileStep, AllStamped, ListedByParent;
    CommitKnown(run, key, s, s', e);
    if p in s.done {
      assert Followed(s, p);
    } else if e.Process? && e.verdict.Listed? {
      PushedKnown(run, key, s, s', e.path, e.verdict);
    }
  }

  lemma CommitUnmentioned(run: Run, key: string -> string, s: Scan, s': Scan, e: Event, p: Path)
    requires Inv(run, key, s) && Commit(run, key, s, s', e) && p in s'.done
    ensures Unmentioned(run, s', p)
  {
    hide Linked, SiblingsDiffer, ListedByParent, Followed, Pushed, Extends;
    CommitKnown(run, key, s, s', e);
    forall i | i in s'.file && Waiting(run, s'.file[i]) && i in s.file
      ensures Waiting(run, s.file[i]) && s.file[i].folder == s'.file[i].folder && s.file[i].key == s'.file[i].key
    {
      assert e.Sweep? || s.file == s'.file || RowStep(run, s.file[i], s'.file[i]);
    }
    if p in s.done {
      assert Unmentioned(run, s, p);
    }
  }

  lemma CommitKeeps(run: Run, key: string -> string, s: Scan, s': Scan, e: Event)
    requires Inv(run, key, s) && Commit(run, key, s, s', e)
    ensures Inv(run, key, s')
  {
    CommitKnown(run, key, s, s', e);
    forall p | Known(s', p) ensures ListedByParent(run, key, s', p) {
      CommitListed(run, key, s, s', e, p);
    }
    forall p | p in s'.done ensures Followed(s', p) && Unmentioned(run, s', p) {
      CommitFollowed(run, key, s, s', e, p);
      CommitUnmentioned(run, key, s, s', e, p);
    }
    assert Linked(s'.folder) && SiblingsDiffer(s'.folder) && run.root in s'.folder;
  }

  // ------------------------------------------------------------------ every run

  /** The states of a run and the commits between them. */
  ghost predicate Trace(run: Run, key: string -> string, states: seq<Scan>, events: seq<Event>) {
    |states| == |events| + 1 && Begun(run, states[0]) &&
    forall k :: 0 <= k < |events| ==> Commit(run, key, states[k], states[k + 1], events[k])
  }

  lemma {:induction false} TraceInv(run: Run, key: string -> string, states: seq<Scan>, events: seq<Event>, k: nat)
    requires Trace(run, key, states, events) && k < |states|
    ensures Inv(run, key, states[k])
  {
    hide Inv, Begun, Commit;
    if k == 0 {
      BegunInv(run, key, states[0]);
    } else {
      TraceInv(run, key, states, events, k - 1);
      CommitKeeps(run, key, states[k - 1], states[k], events[k - 1]);
    }
  }

  lemma {:induction false} DoneStays(run: Run, key: string -> string, states: seq<Scan>, events: seq<Event>, i: nat,
                                     j: nat, p: Path)
    requires Trace(run, key, states, events) && i <= j < |states| && p in states[i].done
    ensures p in states[j].done && states[j].done[p] == states[i].done[p]
    decreases j - i
  {
    hide Inv, Begun, Commit;
    if i < j {
      DoneStays(run, key, states, events, i, j - 1, p);
      TraceInv(run, key, states, events, j - 1);
      CommitKnown(run, key, states[j - 1], states[j], events[j - 1]);
    }
  }

  /** However often a run is killed and resumed, it processes no directory twice. */
  lemma ProcessedOnce(run: Run, key: string -> string, states: seq<Scan>, events: seq<Event>, i: nat, j: nat)
    requires Trace(run, key, states, events) && i < |events| && j < |events|
    requires events[i].Process? && events[j].Process? && events[i].path == events[j].path
    ensures i == j
  {
    if i < j {
      TwiceIsNever(run, key, states, events, i, j);
    } else if j < i {
      TwiceIsNever(run, key, states, events, j, i);
    }
  }

  lemma TwiceIsNever(run: Run, key: string -> string, states: seq<Scan>, events: seq<Event>, i: nat, j: nat)
    requires Trace(run, key, states, events) && i < j < |events|
    requires events[i].Process? && events[j].Process?
    ensures events[i].path != events[j].path
  {
    hide Inv, Begun, Pushed, FileStep, Extends, AllStamped;
    assert Commit(run, key, states[i], states[i + 1], events[i])
      && Commit(run, key, states[j], states[j + 1], events[j]);
    DoneStays(run, key, states, events, i + 1, j, events[i].path);
    TraceInv(run, key, states, events, j);
    NotBoth(run, key, states[j], events[j].path);
  }

  // ------------------------------------------------------------------ safety

  /** The child of `a` on the way down to `target`. */
  ghost predicate Toward1(t: Tree, a: nat, c: nat, target: nat) {
    c in t && t[c].parent == Some(a) && Above(t, c, target)
  }

  function Depth(t: Tree, f: nat): int {
    if f in t then t[f].depth else 0
  }

  /** Processed, and the next step toward the row is missing from what it said. */
  ghost predicate Breaks(key: string -> string, s: Scan, p: Path, i: nat) {
    p in s.done && i in s.file && Above(s.folder, s.done[p].folder, s.file[i].folder) &&
    match s.done[p].verdict
    case Gone => true
    case Unknown => false
    case Listed(directories, mentioned) =>
      if s.done[p].folder == s.file[i].folder then s.file[i].key !in mentioned
      else forall c, d :: Toward1(s.folder, s.done[p].folder, c, s.file[i].folder) && d in directories ==>
        key(d) != s.folder[c].key
  }

  /** From the run's own directory down to `p`, every directory was listed and held the next. */
  ghost predicate WalkListed(run: Run, s: Scan, p: Path) {
    run.path <= p && forall n :: |run.path| <= n < |p| ==>
      p[..n] in s.done && s.done[p[..n]].verdict.Listed? && p[n] in s.done[p[..n]].verdict.directories
  }

  lemma {:induction false} KnownWalks(run: Run, key: string -> string, s: Scan, p: Path)
    requires Inv(run, key, s) && p in s.done
    ensures WalkListed(run, s, p)
    decreases |p|
  {
    assert Known(s, p) && ListedByParent(run, key, s, p);
    if p != run.path {
      var up := p[..|p| - 1];
      KnownWalks(run, key, s, up);
      assert p == up + [p[|p| - 1]];
      forall n | |run.path| <= n < |p|
        ensures p[..n] in s.done && s.done[p[..n]].verdict.Listed? && p[n] in s.done[p[..n]].verdict.directories
      {
        if n < |p| - 1 {
          assert up[..n] == p[..n];
        }
      }
    }
  }

  /** Walking down from a processed directory above the row, some listing lacks the next step. */
  lemma {:induction false} FindBreak(run: Run, key: string -> string, s: Scan, p: Path, i: nat) returns (q: Path)
    requires Inv(run, key, s) && s.frontier == map[] && Unseen(run, s, i)
    requires p in s.done && Above(s.folder, s.done[p].folder, s.file[i].folder)
    ensures Breaks(key, s, q, i)
    decreases Depth(s.folder, s.file[i].folder) - Depth(s.folder, s.done[p].folder)
  {
    var target := s.file[i].folder;
    var at := s.done[p].folder;
    q := p;
    Bounds(s.folder, at, target);
    assert Followed(s, p) && Unmentioned(run, s, p);
    if s.done[p].verdict.Listed? && at != target {
      var c := Toward(s.folder, at, target);
      if d :| d in s.done[p].verdict.directories && key(d) == s.folder[c].key {
        var next := p + [d];
        assert Known(s, next);
        NextFolder(run, key, s, p, d, c);
        Bounds(s.folder, c, target);
        q := FindBreak(run, key, s, next, i);
      }
    }
  }

  lemma NextFolder(run: Run, key: string -> string, s: Scan, p: Path, d: string, c: nat)
    requires Inv(run, key, s) && s.frontier == map[] && p in s.done && s.done[p].verdict.Listed?
    requires d in s.done[p].verdict.directories
    requires ChildOf(s.folder, s.done[p].folder, key(d), c)
    ensures p + [d] in s.done && s.done[p + [d]].folder == c
  {
    var next := p + [d];
    assert Followed(s, p);
    assert Known(s, next) && ListedByParent(run, key, s, next);
    assert next[..|next| - 1] == p;
    if next == run.path {
      LongerThanRoot(run, key, s, p);
    }
  }

  lemma LongerThanRoot(run: Run, key: string -> string, s: Scan, p: Path)
    requires Inv(run, key, s) && p in s.done
    ensures |run.path| <= |p|
  {
    KnownWalks(run, key, s, p);
  }

  /**
   Scan safety over whole runs with crashes and other people's transactions: a row is trashed only if it was registered
   before the run, nothing above it was blocked, and walking down from the run's own directory through listings that
   held the next step, the run came to a processed directory whose listing, or whose confirmed absence, lacked it.
  */
  lemma OnlyAbsenceDeletes(run: Run, key: string -> string, states: seq<Scan>, events: seq<Event>, k: nat, i: nat)
    requires Trace(run, key, states, events) && k < |events| && events[k].Sweep? && i in events[k].batch
    ensures i in states[k].file && states[k].file[i].live && states[k].file[i].created < run.start
    ensures forall b :: b in states[k].blocked ==> !Above(states[k].folder, b, states[k].file[i].folder)
    ensures exists p :: Breaks(key, states[k], p, i) && WalkListed(run, states[k], p)
  {
    TraceInv(run, key, states, events, k);
    var s := states[k];
    assert Commit(run, key, s, states[k + 1], events[k]);
    assert Known(s, run.path) && ListedByParent(run, key, s, run.path);
    var p := FindBreak(run, key, s, run.path, i);
    KnownWalks(run, key, s, p);
  }
}
