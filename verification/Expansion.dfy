/** Small facts that connect the statements of the database to the functions describing them. */
module Expansion {
  import opened Common
  import opened Totals
  import opened FolderTree
  import opened Rollup
  import opened Steps
  import opened Moves
  import opened Relinking

  lemma ParentOfNewRow(t: Tree, f: nat, row: Folder)
    requires Linked(t[f := row]) && f !in t
    ensures row.parent.Some? ==> row.parent.value in t && row.parent.value != f
    ensures row.depth == if row.parent.Some? then t[row.parent.value].depth + 1 else 0
  {
    assert t[f := row][f].parent == row.parent;
  }

  /** The subtree query gives the same folders after the closure was rewritten as before. */
  lemma SubtreeSurvives(c: Closure, t: Tree, x: nat, p: nat)
    requires Exact(c, t) && !Above(t, x, p) && Linked(t) && x in t
    ensures forall f: nat :: (x, f) in Attached(Detached(c, x), x, p) <==> Above(t, x, f)
  {
    forall f: nat ensures (x, f) in Attached(Detached(c, x), x, p) <==> Above(t, x, f) {
      RelinkedRows(c, t, x, p, x, f);
    }
  }

  /** `UPDATE folder SET depth = depth + shift, workspace_id = ... WHERE id IN (subtree of x)`. */
  function Shifted(t: Tree, c: Closure, x: nat, shift: int, workspace: nat): Tree {
    map f | f in t :: if (x, f) in c then t[f].(depth := t[f].depth + shift, workspace := workspace) else t[f]
  }

  lemma HangRows(c: Closure, t: Tree, x: nat, p: nat, name: string, key: string)
    requires x in t && p in t && forall f: nat :: (x, f) in c <==> Above(t, x, f)
    ensures var u := Shifted(t, c, x, t[p].depth + 1 - t[x].depth, t[p].workspace);
      x in u && u[x := u[x].(parent := Some(p), name := name, key := key)] == Hang(t, x, p, name, key)
  {
    assert (x, x) in c;
  }

  lemma RolledOne(s: Tables, done: set<nat>, k: nat, a: nat, u: Unit)
    requires k in s.delta && k !in done
    ensures Rolled(s, done + {k}, a, u)
         == Rolled(s, done, a, u) + (if Above(s.folder, a, s.delta[k].folder) then s.delta[k].Of(u) else 0)
  {
    var v := Entry(s.delta[k].folder, s.delta[k].Of(u));
    UnderPut(s.folder, Claimed(s, done, u), k, v, a);
    assert Claimed(s, done + {k}, u) == Claimed(s, done, u)[k := v];
  }

  /** Every ancestor of a claimed row's folder gains the row's amount. */
  function Credited(aggregate: map<nat, Aggregate>, c: Closure, d: Delta): map<nat, Aggregate> {
    map a | a in aggregate ::
      if (a, d.folder) in c then Aggregate(aggregate[a].files + d.files, aggregate[a].bytes + d.bytes) else aggregate[a]
  }

  lemma CreditedIsApplied(s: Tables, c: Closure, done: set<nat>, k: nat)
    requires Exact(c, s.folder) && k in s.delta && k !in done
    ensures Credited(Apply(s, done).aggregate, c, s.delta[k]) == Apply(s, done + {k}).aggregate
  {
    hide Above, Rolled;
    var now, next := Credited(Apply(s, done).aggregate, c, s.delta[k]), Apply(s, done + {k}).aggregate;
    forall a | a in s.aggregate ensures now[a] == next[a] {
      RolledOne(s, done, k, a, Files);
      RolledOne(s, done, k, a, Bytes);
    }
  }

  ghost function Part(e: Ledger, done: set<nat>): Ledger {
    map k | k in done && k in e :: e[k]
  }

  lemma PartOne(t: Tree, e: Ledger, done: set<nat>, k: nat, a: nat)
    requires k in e && k !in done
    ensures Total(Under(t, Part(e, done + {k}), a))
         == Total(Under(t, Part(e, done), a)) + (if Above(t, a, e[k].folder) then e[k].value else 0)
  {
    UnderPut(t, Part(e, done), k, e[k], a);
    assert Part(e, done + {k}) == Part(e, done)[k := e[k]];
  }

  predicate Least(ids: set<nat>, k: nat) {
    k in ids && forall o :: o in ids ==> k <= o
  }

  lemma {:induction false} LeastExists(ids: set<nat>) returns (k: nat)
    requires ids != {}
    ensures Least(ids, k)
    decreases |ids|
  {
    var m :| m in ids;
    if ids == {m} {
      k := m;
    } else {
      var j := LeastExists(ids - {m});
      k := if m < j then m else j;
      assert forall o :: o in ids ==> o == m || o in ids - {m};
    }
  }

  /** Inside one workspace a move rewrites no workspace column. */
  lemma CarryWithin(s: Tables, x: nat, p: nat, name: string, key: string)
    requires Linked(s.folder) && Filed(s) && x in s.folder && p in s.folder
    requires s.folder[x].workspace == s.folder[p].workspace
    ensures Carry(s, x, p, name, key).file == s.file && Carry(s, x, p, name, key).delta == s.delta
  {
    forall d: nat ensures Above(s.folder, x, d) ==> d in s.folder && s.folder[d].workspace == s.folder[p].workspace {
      if Above(s.folder, x, d) {
        Bounds(s.folder, x, d);
      }
    }
  }

  lemma InsideWorkspace(s: Tables, x: nat, d: nat)
    requires Linked(s.folder) && Above(s.folder, x, d)
    ensures d in s.folder && x in s.folder && s.folder[d].workspace == s.folder[x].workspace
  {
    Bounds(s.folder, x, d);
  }

  function RefiledFiles(file: map<nat, File>, c: Closure, x: nat, workspace: nat): map<nat, File> {
    map i | i in file :: if (x, file[i].folder) in c then file[i].(workspace := workspace) else file[i]
  }

  /** Only rows tagged with the old workspace are re-tagged, which inside the subtree is all of them. */
  function RetaggedDeltas(delta: map<nat, Delta>, c: Closure, x: nat, from: nat, workspace: nat): map<nat, Delta> {
    map k | k in delta ::
      if delta[k].workspace == from && (x, delta[k].folder) in c then delta[k].(workspace := workspace) else delta[k]
  }

  lemma CarryFiles(s: Tables, c: Closure, x: nat, p: nat, name: string, key: string)
    requires x in s.folder && p in s.folder && forall f: nat :: (x, f) in c <==> Above(s.folder, x, f)
    ensures RefiledFiles(s.file, c, x, s.folder[p].workspace) == Carry(s, x, p, name, key).file
  {
    hide Above, Hang;
  }

  lemma CarryDeltas(s: Tables, c: Closure, x: nat, p: nat, name: string, key: string)
    requires x in s.folder && p in s.folder && forall f: nat :: (x, f) in c <==> Above(s.folder, x, f)
    requires forall k :: k in s.delta && Above(s.folder, x, s.delta[k].folder) ==>
      s.delta[k].workspace == s.folder[x].workspace
    ensures RetaggedDeltas(s.delta, c, x, s.folder[x].workspace, s.folder[p].workspace) == Carry(s, x, p, name, key).delta
  {
    hide Above, Hang;
  }

  lemma CarryAcross(s: Tables, c: Closure, x: nat, p: nat, name: string, key: string)
    requires Linked(s.folder) && Filed(s) && x in s.folder && p in s.folder
    requires forall f: nat :: (x, f) in c <==> Above(s.folder, x, f)
    ensures RefiledFiles(s.file, c, x, s.folder[p].workspace) == Carry(s, x, p, name, key).file
    ensures RetaggedDeltas(s.delta, c, x, s.folder[x].workspace, s.folder[p].workspace) == Carry(s, x, p, name, key).delta
  {
    hide Above, Linked, Carry, RetaggedDeltas, RefiledFiles;
    forall k | k in s.delta && Above(s.folder, x, s.delta[k].folder)
      ensures s.delta[k].workspace == s.folder[x].workspace
    {
      InsideWorkspace(s, x, s.delta[k].folder);
    }
    CarryFiles(s, c, x, p, name, key);
    CarryDeltas(s, c, x, p, name, key);
  }

  lemma InSubtree(c: Closure, t: Tree, x: nat)
    requires Exact(c, t)
    ensures forall f: nat :: (x, f) in c <==> Above(t, x, f)
  {
  }

  lemma CarryShape(s: Tables, x: nat, p: nat, name: string, key: string)
    requires x in s.folder && p in s.folder
    ensures var c := Carry(s, x, p, name, key);
      c == Tables(Hang(s.folder, x, p, name, key), c.file, s.aggregate, c.delta, s.nextId, s.nextDelta)
  {
  }

  lemma MoveFolderShape(s: Tables, x: nat, p: nat, name: string, key: string)
    requires x in s.folder && p in s.folder && x in s.aggregate && MoveAllowed(s, x, p, key)
    ensures MoveFolder(s, x, p, name, key).folder == Hang(s.folder, x, p, name, key)
  {
  }

  // ------------------------------------------------------------------ file transactions keep the constraints

  lemma RegisterSound(s: Tables, f: nat, name: string, key: string, size: nat)
    requires Sound(s) && f in s.folder
    ensures Sound(Register(s, f, name, key, size))
  {
    hide WellFormed, LiveNamesDiffer, Countable, LiveClash;
    if !LiveClash(s, f, key, s.nextId) {
      var row := File(s.folder[f].workspace, f, name, key, true, size);
      var s0 := s.(nextId := s.nextId + 1);
      NoClash(s.file, s, s.nextId, row);
      FileSound(s0, s.nextId, row);
      RecordSound(s0.(file := s.file[s.nextId := row]), row.workspace, f, 1, size);
    }
  }

  lemma RewriteSound(s: Tables, i: nat, row: File, f: nat, files: int, bytes: int)
    requires Sound(s) && i in s.file && row.folder in s.folder && row.workspace == s.folder[row.folder].workspace
    requires row.live ==> !LiveClash(s, row.folder, row.key, i)
    requires f in s.folder
    ensures Sound(s.(file := s.file[i := row]))
    ensures Sound(Record(s.(file := s.file[i := row]), s.folder[f].workspace, f, files, bytes))
  {
    hide WellFormed, LiveNamesDiffer, Countable, LiveClash;
    NoClash(s.file, s, i, row);
    FileSound(s, i, row);
    RecordSound(s.(file := s.file[i := row]), s.folder[f].workspace, f, files, bytes);
  }

  lemma AloneAtHome(s: Tables, i: nat)
    requires LiveNamesDiffer(s.file) && i in s.file && s.file[i].live
    ensures !LiveClash(s, s.file[i].folder, s.file[i].key, i)
  {
  }

  lemma AddVersionSound(s: Tables, i: nat, size: nat)
    requires Sound(s) && i in s.file
    ensures Sound(AddVersion(s, i, size))
  {
    hide WellFormed, LiveNamesDiffer, Countable, LiveClash;
    var was := s.file[i];
    if was.live {
      AloneAtHome(s, i);
    }
    RewriteSound(s, i, was.(size := size), was.folder, 0, size - was.size);
  }

  lemma TrashSound(s: Tables, i: nat)
    requires Sound(s) && i in s.file
    ensures Sound(Trash(s, i))
  {
    hide WellFormed, LiveNamesDiffer, Countable, LiveClash;
    var was := s.file[i];
    RewriteSound(s, i, was.(live := false), was.folder, -1, 0 - was.size);
  }

  lemma ReactivateSound(s: Tables, i: nat)
    requires Sound(s) && i in s.file
    ensures Sound(Reactivate(s, i))
  {
    hide WellFormed, LiveNamesDiffer, Countable, LiveClash;
    var was := s.file[i];
    if !was.live && !LiveClash(s, was.folder, was.key, i) {
      RewriteSound(s, i, was.(live := true), was.folder, 1, was.size);
    }
  }

  lemma MoveFileSound(s: Tables, i: nat, f: nat, name: string, key: string)
    requires Sound(s) && i in s.file && f in s.folder
    ensures Sound(MoveFile(s, i, f, name, key))
  {
    hide WellFormed, LiveNamesDiffer, Countable, LiveClash, Numbered;
    var was := s.file[i];
    if !(was.live && LiveClash(s, f, key, i)) {
      var row := was.(workspace := s.folder[f].workspace, folder := f, name := name, key := key);
      RewriteSound(s, i, row, was.folder, -1, 0 - was.size);
      RecordSound(Record(s.(file := s.file[i := row]), was.workspace, was.folder, -1, 0 - was.size), row.workspace, f,
        1, was.size);
    }
  }

  // ------------------------------------------------------------------ draining

  lemma BatchQueued(s: Tables, workspace: nat, limit: nat, batch: set<nat>)
    requires Batch(QueuedIn(s, workspace), limit, batch)
    ensures forall k :: k in batch ==> k in s.delta
  {
  }

  /** The folders one row credits: those with an aggregate row at or above its folder. */
  function Reached(aggregate: map<nat, Aggregate>, c: Closure, d: Delta): set<nat> {
    set a | a in aggregate && (a, d.folder) in c
  }

  lemma ReachedItself(s: Tables, c: Closure, k: nat)
    requires Filed(s) && Exact(c, s.folder) && k in s.delta && forall f :: f in s.folder <==> f in s.aggregate
    ensures Reached(s.aggregate, c, s.delta[k]) != {}
  {
    assert s.delta[k].folder in Reached(s.aggregate, c, s.delta[k]);
  }

  lemma DrainSound(s: Tables, batch: set<nat>)
    requires Sound(s)
    ensures Sound(Moves.Drain(s, batch))
  {
    hide WellFormed, LiveNamesDiffer, Rolled;
  }

  lemma ApplyShape(s: Tables, batch: set<nat>)
    ensures Apply(s, batch) == s.(aggregate := Apply(s, batch).aggregate, delta := Unclaimed(s.delta, batch))
  {
  }

  lemma NothingQueued(s: Tables, workspace: nat, a: nat)
    requires Linked(s.folder) && Filed(s) && QueuedIn(s, workspace) == {}
    requires a in s.folder && s.folder[a].workspace == workspace
    ensures !Pending(s, a)
  {
    assert forall k :: k in s.delta && s.delta[k].workspace == workspace ==> k in QueuedIn(s, workspace);
    if Pending(s, a) {
      var k :| k in s.delta && Above(s.folder, a, s.delta[k].folder);
      OwnQueue(s, a, k);
    }
  }

  lemma SameTruth(s: Tables, s': Tables, a: nat)
    requires s' == s.(aggregate := s'.aggregate)
    ensures forall u :: Truth(s', a, u) == Truth(s, a, u)
  {
    forall u ensures Truth(s', a, u) == Truth(s, a, u) {
      assert Live(s', u) == Live(s, u);
    }
  }

  lemma AggregateParts(s: Tables, a: nat, truth: Aggregate)
    requires a in s.aggregate
    ensures s.aggregate[a] == truth <==> forall u :: Stored(s, a, u) == truth.Of(u)
  {
    assert Stored(s, a, Files) == s.aggregate[a].files && Stored(s, a, Bytes) == s.aggregate[a].bytes;
    assert truth.Of(Files) == truth.files && truth.Of(Bytes) == truth.bytes;
  }

  lemma AssignSound(s: Tables, a: nat, truth: Aggregate)
    requires Sound(s) && a in s.aggregate && truth.Of(Files) >= 0 && truth.Of(Bytes) >= 0
    ensures Sound(s.(aggregate := s.aggregate[a := truth]))
  {
    hide WellFormed, LiveNamesDiffer;
    assert truth.files == truth.Of(Files) && truth.bytes == truth.Of(Bytes);
  }

  /** `taken` are the smallest of `ids`, `rest` what is left. */
  ghost predicate Split(ids: set<nat>, taken: set<nat>, rest: set<nat>) {
    ids == taken + rest && taken !! rest && forall b, o :: b in taken && o in rest ==> b < o
  }

  lemma SplitOne(ids: set<nat>, taken: set<nat>, rest: set<nat>, k: nat)
    requires Split(ids, taken, rest) && Least(rest, k)
    ensures Split(ids, taken + {k}, rest - {k}) && |taken + {k}| == |taken| + 1
  {
  }

  lemma PartNone(t: Tree, e: Ledger, a: nat)
    ensures Total(Under(t, Part(e, {}), a)) == 0
  {
    assert Under(t, Part(e, {}), a) == map[];
  }

  lemma PartAll(e: Ledger, done: set<nat>)
    requires forall k :: k in e ==> k in done
    ensures Part(e, done) == e
  {
  }
}
