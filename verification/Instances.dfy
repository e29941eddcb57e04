/**
 Small inputs on which the code does less than its words say, built statement by statement through the model's methods.
*/
module Instances {
  import opened Common
  import opened FolderTree
  import opened Rollup
  import opened Steps
  import opened Moves
  import opened Interleavings
  import opened Batching
  import opened Overtaking
  import opened Totals
  import opened Merging
  import opened Absorbing
  import opened Transferring
  import opened Renaming
  import opened Crossing
  import opened DatabaseModel
  import opened Identity
  import opened Tangling

  method AddFolder(db: Database, parent: nat, name: string) returns (id: nat)
    requires db.Valid() && Reached(db.Rows()) && parent in db.folder && name != "" && db.file == map[]
    requires forall c :: c in db.folder && db.folder[c].parent == Some(parent) ==>
      db.folder[c].key != db.comparisonKey(name)
    modifies db
    ensures db.Valid() && Reached(db.Rows()) && id !in old(db.folder) && db.file == map[] && db.delta == old(db.delta)
    ensures db.folder == old(db.folder)[id :=
      Folder(old(db.folder)[parent].workspace, Some(parent), name, db.comparisonKey(name),
        old(db.folder)[parent].depth + 1)]
  {
    hide WellFormed, Filed, LiveNamesDiffer, Countable, Exact, Reached;
    ReachedOn(db.Rows(), ChildCreated(parent, name, db.comparisonKey(name)));
    ghost var was, row := db.Rows(), Folder(db.folder[parent].workspace, Some(parent), name, db.comparisonKey(name), db.folder[parent].depth + 1);
    assert !HasFile(was, parent, db.comparisonKey(name)) && !HasChild(was, parent, db.comparisonKey(name));
    var outcome := db.CreateChild(parent, name);
    assert db.Rows() == AddRow(was, row);
    id := outcome.value;
  }

  method AddFile(db: Database, f: nat, name: string) returns (id: nat)
    requires db.Valid() && Reached(db.Rows()) && f in db.folder
    requires forall i :: i in db.file ==> db.file[i].key != db.comparisonKey(name)
    modifies db
    ensures db.Valid() && Reached(db.Rows()) && db.folder == old(db.folder) && id !in old(db.file)
    ensures db.aggregate == old(db.aggregate)
    ensures db.delta == old(db.delta)[old(db.nextDelta) := Delta(db.folder[f].workspace, f, 1, 1)]
    ensures db.nextDelta == old(db.nextDelta) + 1
    ensures db.file == old(db.file)[id := File(db.folder[f].workspace, f, name, db.comparisonKey(name), true, 1)]
  {
    hide WellFormed, Filed, LiveNamesDiffer, Countable, Exact, Reached;
    ReachedOn(db.Rows(), FileRegistered(f, name, db.comparisonKey(name), 1));
    var put := db.Register(f, name, 1);
    id := put.value;
  }

  /** A workspace's root, the first thing there is. */
  method AddRoot(db: Database) returns (root: nat)
    requires db.Valid() && db.Rows() == EMPTY
    modifies db
    ensures db.Valid() && Reached(db.Rows()) && db.file == map[] && db.delta == map[]
    ensures db.folder == map[root := Folder(0, None, "", db.comparisonKey(""), 0)]
  {
    hide WellFormed, Filed, LiveNamesDiffer, Countable, Exact, Reached;
    ReachedFirst();
    ReachedOn(EMPTY, RootCreated(0, db.comparisonKey("")));
    var created;
    root, created := db.CreateRoot(0);
  }

  /** Five folders: `b` and `n` in `root`, `c` in `b`, `m` in `n`. */
  ghost predicate Shape(t: Tree, root: nat, b: nat, c: nat, n: nat, m: nat) {
    t.Keys == {root, b, c, n, m} && b != root && c !in {root, b} && n !in {root, b, c} && m !in {root, b, c, n}
    && t[root].parent == None && t[b].parent == Some(root) && t[c].parent == Some(b)
    && t[n].parent == Some(root) && t[m].parent == Some(n) && forall f :: f in t ==> t[f].workspace == 0
  }

  lemma ShapeOf(t: Tree, root: nat, b: nat, c: nat, n: nat, m: nat, r0: Folder, r1: Folder, r2: Folder, r3: Folder,
                r4: Folder)
    requires t == map[root := r0][b := r1][c := r2][n := r3][m := r4]
    requires b != root && c !in {root, b} && n !in {root, b, c} && m !in {root, b, c, n}
    requires r0.parent == None && r1.parent == Some(root) && r2.parent == Some(b) && r3.parent == Some(root)
    requires r4.parent == Some(n)
    requires r0.workspace == r1.workspace == r2.workspace == r3.workspace == r4.workspace == 0
    ensures Shape(t, root, b, c, n, m)
  {
  }

  method FiveFolders(db: Database) returns (root: nat, b: nat, c: nat, n: nat, m: nat)
    requires db.Valid() && db.Rows() == EMPTY && forall name :: db.comparisonKey(name) == name
    modifies db
    ensures db.Valid() && Shape(db.folder, root, b, c, n, m) && db.file == map[] && Reached(db.Rows())
  {
    hide Sound, Exact, Shape, Reached;
    ghost var r0, r1, r2;
    root, b, c, r0, r1, r2 := ThreeFolders(db);
    assert r1.key[0] == 'B';
    n := AddFolder(db, root, "N");
    ghost var r3 := db.folder[n];
    m := AddFolder(db, n, "M");
    ShapeOf(db.folder, root, b, c, n, m, r0, r1, r2, r3, db.folder[m]);
  }

  method ThreeFolders(db: Database)
    returns (root: nat, b: nat, c: nat, ghost r0: Folder, ghost r1: Folder, ghost r2: Folder)
    requires db.Valid() && db.Rows() == EMPTY && forall name :: db.comparisonKey(name) == name
    modifies db
    ensures db.Valid() && db.file == map[] && Reached(db.Rows()) && b != root && c !in {root, b}
    ensures db.folder == map[root := r0][b := r1][c := r2] && r0.parent == None && r1.parent == Some(root)
    ensures r2.parent == Some(b)
    ensures r0.workspace == r1.workspace == r2.workspace == 0 && r1.key == "B"
  {
    hide Sound, Exact, Reached;
    root := AddRoot(db);
    r0 := db.folder[root];
    b := AddFolder(db, root, "B");
    r1 := db.folder[b];
    c := AddFolder(db, b, "C");
    r2 := db.folder[c];
  }

  lemma ShapeAbove(t: Tree, root: nat, b: nat, c: nat, n: nat, m: nat)
    requires Linked(t) && Shape(t, root, b, c, n, m)
    ensures StrictlyAbove(t, b, c) && StrictlyAbove(t, n, m) && !Above(t, m, b) && !Above(t, b, m)
  {
    assert Above(t, b, b) && Above(t, n, n);
    assert !Above(t, m, root) && !Above(t, b, root) && !Above(t, b, n);
  }

  lemma ShapeRows(t: Tree, root: nat, b: nat, c: nat, n: nat, m: nat)
    requires Shape(t, root, b, c, n, m)
    ensures t.Keys == {root, b, c, n, m} && m != n && m != b && m != c && n != b && n != c && b != c && b != root
    ensures c != root
    ensures t[b].parent == Some(root) && t[m].parent == Some(n) && forall f :: f in t ==> t[f].parent != Some(m)
  {
  }

  lemma AllPrepared(s: Tables, closure: Closure, accounted: set<nat>, young: set<nat>,
                    relocation: map<(nat, nat), Evidence>)
    requires Sound(s) && Exact(closure, s.folder) && UpClosed(s.folder, accounted) && LiveAccounted(s.file, accounted)
    requires YoungHang(s.folder, young) && PairsIn(s.folder, accounted, relocation)
    ensures Prepared(s, closure, accounted, young, relocation)
  {
  }

  lemma Begins(pass: Pass, root: nat, b: nat, c: nat, n: nat, m: nat)
    requires pass.db.Valid() && Shape(pass.db.folder, root, b, c, n, m) && pass.accounted == {root, n, m}
    requires pass.young == {n, m}
    requires pass.relocation == map[(b, m) := Evidence(1, 0), (c, n) := Evidence(1, 0), (c, m) := Evidence(1, 0)]
    requires forall i :: i in pass.db.file ==> pass.db.file[i].folder == m || pass.db.file[i].folder == n
    ensures pass.Ready() && Scattered(pass.Sees(), b, m, c, n, 1) && Alone(pass.Sees(), b, m, c, n)
  {
    hide Sound, Exact, Above, Shape, PairsIn, UpClosed, LiveAccounted, YoungHang, Prepared, ToBoth, FilesStayed,
      Consistent;
    SoundIsLinked(pass.db.Rows());
    ShapeAbove(pass.db.folder, root, b, c, n, m);
    ShapeRows(pass.db.folder, root, b, c, n, m);
    ShapeSettled(pass.db.folder, root, b, c, n, m, pass.relocation);
    BothHalves(pass.relocation, b, c, n, m);
    FiledThere(pass.db.file, root, n, m);
    AllPrepared(pass.db.Rows(), pass.db.closure, pass.accounted, pass.young, pass.relocation);
    NoneStayed(pass.db.file, pass.known, n, m);
  }

  lemma NoneStayed(file: map<nat, File>, known: set<nat>, n: nat, m: nat)
    requires forall i :: i in file ==> file[i].folder == m || file[i].folder == n
    ensures forall f: nat :: f != n && f != m ==> FilesStayed(file, known, f) == 0
  {
    forall f: nat | f != n && f != m ensures FilesStayed(file, known, f) == 0 {
      assert (set i | i in file && i in known && file[i].folder == f) == {};
    }
  }

  lemma FiledThere(file: map<nat, File>, root: nat, n: nat, m: nat)
    requires forall i :: i in file ==> file[i].folder == m || file[i].folder == n
    ensures LiveAccounted(file, {root, n, m})
  {
  }

  lemma BothHalves(relocation: map<(nat, nat), Evidence>, b: nat, c: nat, n: nat, m: nat)
    requires relocation == map[(b, m) := Evidence(1, 0), (c, n) := Evidence(1, 0), (c, m) := Evidence(1, 0)] && b != c
    requires m != n
    ensures ToBoth(relocation, c, m, n, 1) && relocation.Keys == {(b, m), (c, n), (c, m)}
    ensures relocation[(b, m)].files == 1
  {
  }

  lemma ShapeSettled(t: Tree, root: nat, b: nat, c: nat, n: nat, m: nat, relocation: map<(nat, nat), Evidence>)
    requires Shape(t, root, b, c, n, m) && relocation.Keys == {(b, m), (c, n), (c, m)}
    ensures UpClosed(t, {root, n, m}) && YoungHang(t, {n, m}) && PairsIn(t, {root, n, m}, relocation)
  {
    forall x: nat, y: nat | (x, y) in relocation
      ensures x in t && y in t && y in {root, n, m} && x != y && t[x].workspace == t[y].workspace
    {
      assert (x, y) in relocation.Keys;
    }
  }

  method Renamed() returns (pass: Pass, b: nat, m: nat, c: nat, n: nat)
    ensures pass.Ready() && Scattered(pass.Sees(), b, m, c, n, 1) && Alone(pass.Sees(), b, m, c, n) && fresh(pass)
    ensures fresh(pass.db)
    ensures Reached(pass.db.Rows())
  {
    hide Above, Sound, Exact, WellFormed, Shape, Scattered, Alone, Consistent, Reached;
    var db := new Database(name => name);
    var root;
    root, b, c, n, m := FiveFolders(db);
    ghost var t := db.folder;
    assert m in t && n in t by { ShapeRows(t, root, b, c, n, m); }
    var b1 := AddFile(db, m, "b1");
    var c1 := AddFile(db, n, "c1");
    var c2 := AddFile(db, m, "c2");
    var one := Evidence(1, 0);
    pass := new Pass(db, map[(b, m) := one, (c, n) := one, (c, m) := one], {root, n, m}, {n, m}, {b1, c1, c2});
    Begins(pass, root, b, c, n, m);
  }

  /**
   `B` with `C` in it is gone from disk and `N` with `M` in it is new. The file of `B` turned up in `M`, and the two
   files of `C` one in each. The pass hands `B` the place of `M`; then `C` claims `N`, which contains it by now. That
   transfer is refused, and the whole pass with it: every table is as it was, and the rename of `B` is lost too.
  */
  method LostRename() returns (pass: Pass, undone: bool, ghost start: View, ghost turns: seq<Decision>)
    ensures Reached(pass.db.Rows()) && undone && pass.Sees() == start && Refused(start, turns) && |turns| == 2
    ensures CarriedOver(start, turns[1].view, turns[0].source, turns[0].destination)
    ensures var last := turns[1];
      ClaimsIn(last.view, last.source, last.destination) && Above(last.view.folder, last.destination, last.source)
  {
    hide Above, Scattered, Alone, Consistent, Prepared, ClaimsIn, Course, Refused, Considered, Straight, CrossesAt,
      CarriedOver, Reached;
    var b, m, c, n;
    pass, b, m, c, n := Renamed();
    start := pass.Sees();
    var transferred, ambiguous;
    ghost var log;
    transferred, ambiguous, undone, log, turns := pass.Identities();
    if !undone {
      NeverThrough(start, turns, pass.Sees(), b, m, c, n, 1);
      pass.ClaimsAre();
    }
    SecondRefused(start, turns, b, m, c, n, 1);
  }

  /**
   `B/C` turned up as `N/M`, but a file was still live in `C` when its row was handed the place of `M`: the parents
   differ, and the transfer compensates them by what was queued only. Totals were right before and are wrong after.
  */
  method LostCount()
    returns (db: Database, ghost before: Tables, ghost source: nat, ghost destination: nat, ghost merged: Handover)
    ensures Reached(before) && Consistent(before) && Apart(before.folder, source, destination)
    ensures Transferred(before, db.Rows(), source, destination, merged) && db.Valid() && !Consistent(db.Rows())
  {
    hide Sound, Exact, WellFormed, Shape, Consistent, Transferred, LiveBelow, Reached;
    db := new Database(name => name);
    var root, b, c, n, m := FiveFolders(db);
    ghost var t := db.folder;
    ShapeRows(t, root, b, c, n, m);
    var late := AddFile(db, c, "late");
    before, source, destination := db.Rows(), c, m;
    ReachedGood(before);
    SoundIsLinked(before);
    ShapeAbove(t, root, b, c, n, m);
    SidesApart(t, root, b, c, n, m);
    OnlyLate(before, c, m, late);
    var ok;
    ok, merged := Transfer(db, c, m);
  }

  lemma SidesApart(t: Tree, root: nat, b: nat, c: nat, n: nat, m: nat)
    requires Linked(t) && Shape(t, root, b, c, n, m)
    ensures Apart(t, c, m) && Mergeable(t, c, m) && t[c].parent == Some(b) && b != n && t[m].parent == Some(n)
  {
    assert !Above(t, c, root) && !Above(t, m, root) && !Above(t, c, n) && !Above(t, m, b);
  }

  lemma OnlyLate(s: Tables, c: nat, m: nat, late: nat)
    requires s.file.Keys == {late} && s.file[late].live && s.file[late].folder == c && c in s.folder
    requires !Above(s.folder, m, c)
    ensures LiveBelow(s, c) && !LiveBelow(s, m)
  {
    assert Above(s.folder, c, c);
  }

  // ------------------------------------------------------------------ a rollup refused for good

  /** Three folders in `root`, empty of folders. */
  ghost predicate Flat(t: Tree, root: nat, x: nat, q: nat, y: nat) {
    t.Keys == {root, x, q, y} && x != root && q !in {root, x} && y !in {root, x, q} && t[root].parent == None
    && t[x].parent == Some(root) && t[q].parent == Some(root) && t[y].parent == Some(root)
    && forall f :: f in t ==> t[f].workspace == 0
  }

  lemma FlatAbove(t: Tree, root: nat, x: nat, q: nat, y: nat)
    requires Linked(t) && Flat(t, root, x, q, y)
    ensures forall a, d :: a in {x, q, y} ==> (Above(t, a, d) <==> d == a)
  {
    forall a, d | a in {x, q, y} ensures Above(t, a, d) <==> d == a {
      assert !Above(t, a, root);
    }
  }

  lemma FlatOf(t: Tree, root: nat, x: nat, q: nat, y: nat, r0: Folder, r1: Folder, r2: Folder, r3: Folder)
    requires t == map[root := r0][x := r1][q := r2][y := r3] && x != root && q !in {root, x} && y !in {root, x, q}
    requires r0.parent == None && r1.parent == Some(root) && r2.parent == Some(root) && r3.parent == Some(root)
    requires r0.workspace == r1.workspace == r2.workspace == r3.workspace == 0
    ensures Flat(t, root, x, q, y)
  {
  }

  method FlatFolders(db: Database) returns (root: nat, x: nat, q: nat, y: nat)
    requires db.Valid() && db.Rows() == EMPTY && forall name :: db.comparisonKey(name) == name
    modifies db
    ensures db.Valid() && Flat(db.folder, root, x, q, y) && db.file == map[] && db.delta == map[] && Reached(db.Rows())
  {
    hide Sound, Exact, Flat, Reached;
    root := AddRoot(db);
    ghost var r0 := db.folder[root];
    x := AddFolder(db, root, "X");
    ghost var r1 := db.folder[x];
    assert r1.key[0] == 'X';
    q := AddFolder(db, root, "Q");
    ghost var r2 := db.folder[q];
    assert r2.key[0] == 'Q';
    y := AddFolder(db, root, "Y");
    FlatOf(db.folder, root, x, q, y, r0, r1, r2, db.folder[y]);
  }

  /** Everything drained: one live file in `x`, and nothing queued. */
  ghost predicate Drained(s: Tables, x: nat, q: nat, f: nat) {
    QueuedIn(s, 0) == {} && s.file.Keys == {f} && s.file[f].live && s.file[f].folder == x && s.file[f].workspace == 0
    && s.file[f].size == 1
    && s.file[f].key == "f" && q in s.folder && Stored(s, q, Files) == 0
  }

  lemma FlatRows(t: Tree, root: nat, x: nat, q: nat, y: nat)
    requires Flat(t, root, x, q, y)
    ensures x in t && q in t && y in t && x != q && y != x && y != q && t[x].parent == Some(root)
    ensures forall f :: f in t ==> t[f].workspace == 0
    ensures t.Keys == {root, x, q, y}
  {
  }

  lemma OneQueued(s: Tables, k: nat)
    requires s.delta.Keys == {k}
    ensures |QueuedIn(s, 0)| <= 1
  {
    assert QueuedIn(s, 0) == {} || QueuedIn(s, 0) == {k};
  }

  lemma DrainRows(s: Tables, batch: set<nat>)
    ensures Moves.Drain(s, batch).folder == s.folder && Moves.Drain(s, batch).file == s.file
  {
  }

  /** No file at or under a folder: its truth is nothing. */
  lemma NoneBelow(s: Tables, a: nat, u: Unit)
    requires forall i :: i in s.file ==> !Above(s.folder, a, s.file[i].folder)
    ensures Truth(s, a, u) == 0
  {
    assert Under(s.folder, Live(s, u), a) == map[];
  }

  method DrainedStart() returns (db: Database, ghost root: nat, x: nat, q: nat, y: nat, f: nat)
    ensures fresh(db) && db.Valid() && Reached(db.Rows()) && Flat(db.folder, root, x, q, y)
    ensures Drained(db.Rows(), x, q, f)
    ensures forall name :: db.comparisonKey(name) == name
  {
    hide Sound, Exact, Flat, Consistent, QueuedIn, Stored, Truth, Above, Apply, Exceeds, Reached, Moves.Drain, Batch;
    db := new Database(name => name);
    var r;
    r, x, q, y := FlatFolders(db);
    root := r;
    FlatRows(db.folder, root, x, q, y);
    ghost var k := db.nextDelta;
    f := AddFile(db, x, "f");
    ghost var was := db.Rows();
    OneQueued(was, k);
    SoundIsLinked(was);
    FlatAbove(db.folder, root, x, q, y);
    Settle(db);
    NoneBelow(db.Rows(), q, Files);
  }

  /** One batch that holds the whole queue. */
  method Settle(db: Database)
    requires db.Valid() && Reached(db.Rows()) && |QueuedIn(db.Rows(), 0)| <= BATCH
    modifies db
    ensures db.Valid() && Reached(db.Rows()) && db.folder == old(db.folder) && db.file == old(db.file)
    ensures QueuedIn(db.Rows(), 0) == {}
    ensures forall a :: a in db.folder && db.folder[a].workspace == 0 ==>
      Stored(db.Rows(), a, Files) == Truth(db.Rows(), a, Files)
  {
    hide Sound, Exact, Consistent, QueuedIn, Stored, Truth, Apply, Reached, Moves.Drain, Batch;
    ghost var was := db.Rows();
    ReachedGood(was);
    var affected, refused, claimed := db.Drain(0, BATCH);
    ReachedOn(was, Interleavings.Step.Drained(0, BATCH, claimed));
    WholeBatch(QueuedIn(was, 0), BATCH, claimed);
    QueueGone(was);
    DrainRows(was, claimed);
    forall a | a in db.folder && db.folder[a].workspace == 0
      ensures Stored(db.Rows(), a, Files) == Truth(db.Rows(), a, Files)
    {
      WholeDrain(was, 0, a, Files);
    }
  }

  lemma QueueGone(s: Tables)
    requires Good(s)
    ensures QueuedIn(Moves.Drain(s, QueuedIn(s, 0)), 0) == {}
  {
    hide Sound, Consistent, Countable, Exceeds;
    FullDrainGoesThrough(s, 0);
  }

  // ------------------------------------------------------------------ the backlog

  function Repeated(n: nat): string {
    seq(n + 1, i => 'n')
  }

  /** `f` trashed, and n files registered in `y` since: one delta each, in this order from `first` on. */
  ghost predicate Behind(s0: Tables, s: Tables, f: nat, x: nat, y: nat, first: nat, n: nat) {
    s.folder == s0.folder && s.aggregate == s0.aggregate && s.nextDelta == first + 1 + n &&
    (forall k :: k in s.delta && s.delta[k].workspace == 0 <==> first <= k <= first + n) &&
    first in s.delta && s.delta[first] == Delta(0, x, -1, -1)
    && (forall k :: first < k <= first + n ==> k in s.delta && s.delta[k] == Delta(0, y, 1, 1)) &&
    (forall i :: i in s.file ==> (i == f && s.file[i].key == "f" && s.file[i].folder == x) || (s.file[i].folder == y && exists m: nat :: m < n && s.file[i].key == Repeated(m)))
  }

  method Backlog(db: Database, f: nat, x: nat, y: nat, count: nat) returns (ghost first: nat)
    requires db.Valid() && Reached(db.Rows()) && f in db.file && x in db.folder && y in db.folder
    requires forall g :: g in db.folder ==> db.folder[g].workspace == 0
    requires exists q :: Drained(db.Rows(), x, q, f)
    requires forall name :: db.comparisonKey(name) == name
    modifies db
    ensures db.Valid() && Reached(db.Rows()) && Behind(old(db.Rows()), db.Rows(), f, x, y, first, count)
  {
    hide Sound, Exact, Consistent, Stored, Truth, Behind, QueuedIn, Reached;
    ghost var s0 := db.Rows();
    first := db.nextDelta;
    ReachedGood(s0);
    ReachedOn(s0, FileTrashed(f));
    var trashed := db.Trash(f);
    NothingBehind(s0, db.Rows(), f, x, y);
    var n := 0;
    while n < count
      invariant 0 <= n <= count && db.Valid() && Reached(db.Rows()) && Behind(s0, db.Rows(), f, x, y, first, n)
    {
      ghost var was := db.Rows();
      NewName(s0, was, f, x, y, first, n);
      var id := AddFile(db, y, Repeated(n));
      OneMoreBehind(s0, was, db.Rows(), f, x, y, first, n, id);
      n := n + 1;
    }
  }

  lemma NothingBehind(s0: Tables, s: Tables, f: nat, x: nat, y: nat)
    requires Sound(s0) && f in s0.file && s == Steps.Trash(s0, f) && exists q :: Drained(s0, x, q, f)
    ensures Behind(s0, s, f, x, y, s0.nextDelta, 0)
  {
    hide WellFormed, LiveNamesDiffer, Countable, Filed;
    var q :| Drained(s0, x, q, f);
    assert forall k :: k in s0.delta ==> k !in QueuedIn(s0, 0);
  }

  lemma NewName(s0: Tables, s: Tables, f: nat, x: nat, y: nat, first: nat, n: nat)
    requires Behind(s0, s, f, x, y, first, n)
    ensures forall i :: i in s.file ==> s.file[i].key != Repeated(n)
    ensures s.folder == s0.folder
  {
    forall i | i in s.file ensures s.file[i].key != Repeated(n) {
      if s.file[i].key == Repeated(n) {
        if i == f {
          assert Repeated(n)[0] == 'n';
        }
        assert forall m: nat :: m < n ==> |Repeated(m)| != |Repeated(n)|;
      }
    }
  }

  lemma OneMoreBehind(s0: Tables, was: Tables, s: Tables, f: nat, x: nat, y: nat, first: nat, n: nat, id: nat)
    requires Behind(s0, was, f, x, y, first, n) && s.folder == was.folder && s.aggregate == was.aggregate
    requires s.nextDelta == was.nextDelta + 1
    requires s.delta == was.delta[was.nextDelta := Delta(0, y, 1, 1)] && id !in was.file
    requires id in s.file && s.file == was.file[id := s.file[id]] && s.file[id].folder == y
    requires s.file[id].key == Repeated(n)
    ensures Behind(s0, s, f, x, y, first, n + 1)
  {
    forall i | i in s.file && i != id && i != f ensures exists m: nat :: m < n + 1 && s.file[i].key == Repeated(m) {
      var m: nat :| m < n && was.file[i].key == Repeated(m);
    }
  }

  /** A whole batch is queued: of what it takes, one file comes from under `x`, and nothing from under `q`. */
  lemma BatchBehind(s0: Tables, s: Tables, root: nat, x: nat, q: nat, y: nat, f: nat, first: nat)
    requires Linked(s.folder) && Flat(s.folder, root, x, q, y) && Behind(s0, s, f, x, y, first, BATCH - 1)
    requires Stored(s0, q, Files) == 0
    ensures Batch(QueuedIn(s, 0), BATCH, QueuedIn(s, 0)) && |QueuedIn(s, 0)| == BATCH
    ensures Stored(s, q, Files) == 0 && Rolled(s, QueuedIn(s, 0), q, Files) == 0
    ensures Rolled(s, QueuedIn(s, 0), x, Files) == -1
    ensures Brings(s, x, q, "X", "X")
  {
    hide Total;
    var ids := QueuedIn(s, 0);
    RangeSize(first, BATCH, ids);
    FlatAbove(s.folder, root, x, q, y);
    assert Under(s.folder, Claimed(s, ids, Files), q) == map[];
    assert Under(s.folder, Claimed(s, ids, Files), x) == map[first := -1];
    Zeros(map[]);
    Put(map[], first, -1);
  }

  /**
   The file of `x` is trashed, 999 files are uploaded elsewhere, and `x` moves into `q`: the oldest thousand deltas take
   a file from `q` that it does not count yet. The rollup is refused, and a second one changes nothing; the drift check
   passes `q` over.
  */
  method LostRollup() returns (db: Database, first: bool, second: bool, ghost between: Tables, ghost q: nat)
    ensures first && second && db.Valid() && Reached(between) && db.Rows() == between
    ensures Stuck(db.Rows(), 0) && q in db.folder && Pending(db.Rows(), q)
  {
    hide Sound, Exact, Flat, Consistent, QueuedIn, Stored, Truth, Above, Apply, FirstIds, BlockedAt, Behind, Rolled,
      Pending, Drained, Stuck,
      Batch, Brings, Reached;
    var x, into, y, f;
    ghost var root;
    db, root, x, into, y, f := DrainedStart();
    q := into;
    ghost var s0 := db.Rows();
    FlatRows(db.folder, root, x, into, y);
    DrainedRows(s0, x, into, f);
    ghost var oldest := Backlog(db, f, x, y, BATCH - 1);
    ghost var s := db.Rows();
    SoundIsLinked(s);
    assert s.folder == s0.folder by { BehindRows(s0, s, f, x, y, oldest, BATCH - 1); }
    BatchBehind(s0, s, root, x, into, y, f, oldest);
    Overtake(db, x, into, QueuedIn(s, 0));
    between := db.Rows();
    ReachedGood(between);
    first, second := RollUpTwice(db);
  }

  method RollUpTwice(db: Database) returns (first: bool, second: bool)
    requires db.Valid() && Consistent(db.Rows()) && Stuck(db.Rows(), 0)
    modifies db
    ensures first && second && db.Valid() && db.Rows() == old(db.Rows())
  {
    hide Sound, Exact, Consistent, QueuedIn, Stored, Truth, Apply, FirstIds, BlockedAt, Stuck;
    var settled, batches;
    settled, first, batches := db.RollUp(0);
    settled, second, batches := db.RollUp(0);
  }

  /** The move that carries the backlog along. */
  method Overtake(db: Database, x: nat, q: nat, ghost batch: set<nat>)
    requires db.Valid() && Reached(db.Rows()) && (forall name :: db.comparisonKey(name) == name) && q in db.folder
    requires db.folder[q].workspace == 0
    requires Brings(db.Rows(), x, q, "X", "X") && Batch(QueuedIn(db.Rows(), 0), BATCH, batch) && |batch| == BATCH
    requires Stored(db.Rows(), q, Files) + Rolled(db.Rows(), batch, q, Files) + Rolled(db.Rows(), batch, x, Files) < 0
    modifies db
    ensures db.Valid() && Reached(db.Rows()) && Stuck(db.Rows(), 0) && q in db.folder && Pending(db.Rows(), q)
  {
    hide Sound, Exact, Consistent, QueuedIn, Stored, Apply, Rolled, Pending, Stuck, Batch, Brings, Reached, MoveFolder;
    ghost var s := db.Rows();
    ReachedGood(s);
    BringsAllowed(s, x, q, "X", "X");
    Overtaken(s, x, q, "X", "X", batch, Files);
    ReachedOn(s, FolderMoved(x, q, "X", "X"));
    var refusal := db.Relocate(x, q, "X", true);
    StillThere(s, x, q);
  }

  lemma StillThere(s: Tables, x: nat, q: nat)
    requires Brings(s, x, q, "X", "X") && Good(s)
    ensures x in s.aggregate && q in MoveFolder(s, x, q, "X", "X").folder
  {
    hide OneRoot, SiblingsDiffer, RootsUnnamed, LiveNamesDiffer, Countable, Consistent, Carry, Hang;
    BroughtRows(s, x, q, "X", "X");
    BringsRows(s, x, q, "X", "X");
  }

  lemma DrainedRows(s: Tables, x: nat, q: nat, f: nat)
    requires Drained(s, x, q, f)
    ensures f in s.file && Stored(s, q, Files) == 0 && exists p :: Drained(s, x, p, f)
  {
  }

  lemma BehindRows(s0: Tables, s: Tables, f: nat, x: nat, y: nat, first: nat, n: nat)
    requires Behind(s0, s, f, x, y, first, n)
    ensures s.folder == s0.folder
  {
  }

  lemma BringsAllowed(s: Tables, x: nat, q: nat, name: string, key: string)
    requires Brings(s, x, q, name, key)
    ensures x in s.folder && q in s.folder && name != "" && MoveAllowed(s, x, q, key)
  {
  }
}
