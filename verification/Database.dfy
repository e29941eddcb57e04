/**
 The tables as the code writes them, statement by statement: `folder`, `folder_closure`, `file`,
 `folder_aggregate` and `folder_delta`. Each method is one transaction (or one function called inside
 one) and is proved to leave the rows that the step of the same name describes, closure included.
*/
module DatabaseModel {
  import opened Common
  import opened Totals
  import opened FolderTree
  import opened Rollup
  import opened Steps
  import opened Effects
  import opened Moves
  import opened Batching
  import opened Relinking
  import opened Expansion

  datatype Refusal = RootFolder | Cycle | Collision | NameTaken | FilesystemRefused

  class Database {
    const comparisonKey: string -> string
    var folder: Tree
    var closure: Closure
    var file: map<nat, File>
    var aggregate: map<nat, Aggregate>
    var delta: map<nat, Delta>
    var nextId: nat
    var nextDelta: nat

    ghost function Rows(): Tables
      reads this
    {
      Tables(folder, file, aggregate, delta, nextId, nextDelta)
    }

    /** Constraints hold and the closure is exactly the ancestry of the parent links. */
    ghost predicate Valid()
      reads this
    {
      Sound(Rows()) && Exact(closure, folder)
    }

    constructor (key: string -> string)
      ensures Valid() && Rows() == EMPTY && comparisonKey == key
    {
      comparisonKey := key;
      folder, closure, file, aggregate, delta, nextId, nextDelta := map[], map[], map[], map[], map[], 0, 0;
    }

    // ---------------------------------------------------------------- folders

    method InsertFolder(row: Folder) returns (id: nat)
      requires Valid() && nextId !in folder && WellFormed(folder[nextId := row])
      modifies this
      ensures Valid() && Rows() == AddRow(old(Rows()), row) && id == old(nextId)
    {
      hide Linked, OneRoot, SiblingsDiffer, RootsUnnamed, LiveNamesDiffer, Filed, Countable, Numbered, Exact, WithLeaf;
      AddRowSound(Rows(), row);
      ParentOfNewRow(folder, nextId, row);
      LeafExact(closure, folder, nextId, row);
      id := nextId;
      folder := folder[id := row];
      closure := WithLeaf(closure, id, row.parent);
      aggregate := aggregate[id := Aggregate(0, 0)];
      nextId := nextId + 1;
    }

    /** Idempotent: a second attempt converges on the root already there. */
    method CreateRoot(workspace: nat) returns (id: nat, created: bool)
      requires Valid()
      modifies this
      ensures Valid() && Rows() == Steps.CreateRoot(old(Rows()), workspace, comparisonKey(""))
      ensures id in folder && folder[id].parent == None && folder[id].workspace == workspace
      ensures created <==> id !in old(folder)
      ensures created ==>
        id == old(nextId) && Gets(old(Rows()), Rows(), Folder(workspace, None, "", comparisonKey(""), 0))
      ensures !created ==> Rows() == old(Rows())
    {
      if r :| r in folder && folder[r].parent == None && folder[r].workspace == workspace {
        id, created := r, false;
      } else {
        RootFits(folder, nextId, workspace, comparisonKey(""));
        id := InsertFolder(Folder(workspace, None, "", comparisonKey(""), 0));
        created := true;
      }
    }

    /** Inserts, or converges on the folder of that key, or refuses a name a file holds. */
    method CreateChild(parent: nat, name: string) returns (outcome: Option<nat>)
      requires Valid() && parent in folder && name != ""
      modifies this
      ensures Valid() && Rows() == Steps.CreateChild(old(Rows()), parent, name, comparisonKey(name))
      ensures outcome == None <==> HasFile(old(Rows()), parent, comparisonKey(name))
      ensures outcome.Some? ==> outcome.value in folder
      ensures outcome.Some? ==> folder[outcome.value].parent == Some(parent)
      ensures outcome.Some? ==> folder[outcome.value].key == comparisonKey(name)
      ensures outcome.Some? && outcome.value !in old(folder) ==>
        Gets(old(Rows()), Rows(),
          Folder(old(folder)[parent].workspace, Some(parent), name, comparisonKey(name), old(folder)[parent].depth + 1))
      ensures outcome == None || outcome.value in old(folder) ==> Rows() == old(Rows())
    {
      hide Linked, OneRoot, SiblingsDiffer, RootsUnnamed, LiveNamesDiffer, Filed, Countable, Exact;
      var key := comparisonKey(name);
      if exists i :: i in file && file[i].folder == parent && file[i].key == key {
        outcome := None;
      } else if c :| c in folder && folder[c].parent == Some(parent) && folder[c].key == key {
        outcome := Some(c);
      } else {
        ChildFits(folder, nextId, parent, name, key);
        var id := InsertFolder(Folder(folder[parent].workspace, Some(parent), name, key, folder[parent].depth + 1));
        outcome := Some(id);
      }
    }

    /** `_detach`, `_attach`, the depth shift and the new parent and name, in the order they are written. */
    method Rehang(x: nat, p: nat, name: string, key: string)
      requires Valid() && CanHang(folder, x, p, name, key)
      modifies this`folder, this`closure
      ensures folder == Hang(old(folder), x, p, name, key) && Exact(closure, folder)
    {
      hide Linked, OneRoot, SiblingsDiffer, RootsUnnamed, LiveNamesDiffer, Filed, Countable, Numbered, NameFree,
        Attached, Detached, Exact, Above, Shifted, Hang;
      var parent, depth, workspace := Some(p), folder[p].depth + 1, folder[p].workspace;
      var shift := depth - folder[x].depth;
      RelinkExact(closure, folder, x, p, name, key);
      SubtreeSurvives(closure, folder, x, p);
      closure := Detached(closure, x);
      closure := Attached(closure, x, p);
      HangRows(closure, folder, x, p, name, key);
      folder := Shifted(folder, closure, x, shift, workspace);
      folder := folder[x := folder[x].(parent := parent, name := name, key := key)];
    }

    /** Rename or move a folder. The disk goes first; `diskAccepts` is what the one rename there answered. */
    method Relocate(x: nat, p: nat, name: string, diskAccepts: bool) returns (refused: Option<Refusal>)
      requires Valid() && x in folder && p in folder && name != ""
      modifies this
      ensures Valid()
      ensures refused == None <==> MoveAllowed(old(Rows()), x, p, comparisonKey(name)) && diskAccepts
      ensures refused == None ==> Rows() == MoveFolder(old(Rows()), x, p, name, comparisonKey(name))
      ensures refused == None ==> aggregate == old(aggregate) && x in folder
      ensures refused == None ==>
        folder[x] == Folder(old(folder)[p].workspace, Some(p), name, comparisonKey(name), old(folder)[p].depth + 1)
      ensures refused.Some? ==> Rows() == old(Rows()) && closure == old(closure)
      ensures refused == Some(RootFolder) <==> old(folder)[x].parent == None
      ensures refused == Some(Cycle) <==> old(folder)[x].parent.Some? && Above(old(folder), x, p)
      ensures refused == Some(Collision) ==> HasChild(old(Rows()), p, comparisonKey(name))
      ensures refused == Some(NameTaken) ==> HasFile(old(Rows()), p, comparisonKey(name))
    {
      hide Linked, OneRoot, SiblingsDiffer, RootsUnnamed, LiveNamesDiffer, Filed, Countable, Numbered, CanHang,
        Steps.Record, Carry, Above;
      var key := comparisonKey(name);
      if folder[x].parent == None {
        return Some(RootFolder);
      }
      if (x, p) in closure {
        return Some(Cycle);
      }
      var inPlace := folder[x].parent == Some(p) && folder[x].key == key;
      if !inPlace && exists c :: c in folder && folder[c].parent == Some(p) && folder[c].key == key {
        return Some(Collision);
      }
      if !inPlace && exists i :: i in file && file[i].folder == p && file[i].key == key {
        return Some(NameTaken);
      }
      if !diskAccepts {
        return Some(FilesystemRefused);
      }
      MoveAllowedHangs(Rows(), x, p, name, key);
      ghost var was := Rows();
      CarryOut(x, p, name, key);
      refused := None;
      MovedRow(was, x, p, name, key);
    }

    /** The part of a move that follows the disk: rehang, re-file, shift the stored total. */
    method CarryOut(x: nat, p: nat, name: string, key: string)
      requires Valid() && x in folder && p in folder && name != ""
      requires MoveAllowed(Rows(), x, p, key) && CanHang(folder, x, p, name, key)
      modifies this
      ensures Valid() && Rows() == MoveFolder(old(Rows()), x, p, name, key)
    {
      hide Linked, OneRoot, SiblingsDiffer, RootsUnnamed, LiveNamesDiffer, Filed, Countable, Numbered,
        Steps.Record, Carry, Above, Exact, Hang, NameFree, RefiledFiles, RetaggedDeltas, HasFile, HasChild;
      ghost var was := Rows();
      var from, source, target := folder[x].parent.value, folder[x].workspace, folder[p].workspace;
      ShiftSound(was, x, p, name, key);
      MoveFolderShape(was, x, p, name, key);
      InSubtree(closure, folder, x);
      var below := closure;
      Rehang(x, p, name, key);
      CarryAcross(was, below, x, p, name, key);
      if source != target {
        file := RefiledFiles(file, below, x, target);
        delta := RetaggedDeltas(delta, below, x, source, target);
      } else {
        CarryWithin(was, x, p, name, key);
      }
      assert Rows() == Carry(was, x, p, name, key) by { CarryShape(was, x, p, name, key); }
      var total := aggregate[x];
      Record(source, from, -total.files, -total.bytes);
      Record(target, p, total.files, total.bytes);
    }

    // ---------------------------------------------------------------- the outbox

    /** `aggregates.record`, called from the transaction that made the change. */
    method Record(workspace: nat, f: nat, files: int, bytes: int)
      modifies this`delta, this`nextDelta
      ensures Rows() == Steps.Record(old(Rows()), workspace, f, files, bytes)
    {
      if files == 0 && bytes == 0 {
        return;
      }
      delta := delta[nextDelta := Delta(workspace, f, files, bytes)];
      nextDelta := nextDelta + 1;
    }

    // ---------------------------------------------------------------- files

    /** The partial unique index on live names refuses the insert; nothing is written then. */
    method Register(f: nat, name: string, size: nat) returns (id: Option<nat>)
      requires Valid() && f in folder
      modifies this
      ensures Valid() && Rows() == Steps.Register(old(Rows()), f, name, comparisonKey(name), size)
      ensures id == None <==> LiveClash(old(Rows()), f, comparisonKey(name), old(nextId))
      ensures id.Some? ==> id == Some(old(nextId)) && OnlyFiles(old(Rows()), Rows())
      ensures id.Some? ==>
        file == old(file)[id.value := File(old(folder)[f].workspace, f, name, comparisonKey(name), true, size)]
      ensures id.Some? ==> Owes(old(Rows()), Rows(), old(folder)[f].workspace, f, 1, size)
      ensures id == None ==> Rows() == old(Rows())
    {
      hide WellFormed, LiveNamesDiffer, Filed, Countable, Exact, Steps.Record;
      ghost var was := Rows();
      var key := comparisonKey(name);
      RegisterSound(was, f, name, key, size);
      RegisterRows(was, f, name, key, size);
      if exists i :: i in file && i != nextId && file[i].live && file[i].folder == f && file[i].key == key {
        return None;
      }
      var row := File(folder[f].workspace, f, name, key, true, size);
      id := Some(nextId);
      file := file[nextId := row];
      nextId := nextId + 1;
      Record(row.workspace, f, 1, row.size);
    }

    method AddVersion(i: nat, size: nat)
      requires Valid() && i in file
      modifies this
      ensures Valid() && Rows() == Steps.AddVersion(old(Rows()), i, size) && OnlyFiles(old(Rows()), Rows())
      ensures file == old(file)[i := old(file)[i].(size := size)] && nextId == old(nextId)
      ensures old(file)[i].live && size != old(file)[i].size ==>
        Owes(old(Rows()), Rows(), old(file)[i].workspace, old(file)[i].folder, 0, size - old(file)[i].size)
      ensures !(old(file)[i].live && size != old(file)[i].size) ==> OwesNothing(old(Rows()), Rows())
    {
      hide WellFormed, LiveNamesDiffer, Filed, Countable, Exact, Steps.Record;
      ghost var was := Rows();
      AddVersionSound(was, i, size);
      AddVersionRows(was, i, size);
      var found := file[i];
      file := file[i := found.(size := size)];
      if found.live {
        Record(found.workspace, found.folder, 0, size - found.size);
      }
    }

    /** A move detected by a scan or asked for: the row follows, and two deltas if a live file changed folder. */
    method MoveFile(i: nat, f: nat, name: string) returns (moved: bool)
      requires Valid() && i in file && f in folder
      modifies this
      ensures Valid() && Rows() == Steps.MoveFile(old(Rows()), i, f, name, comparisonKey(name))
      ensures !moved <==> old(file)[i].live && LiveClash(old(Rows()), f, comparisonKey(name), i)
      ensures !moved ==> Rows() == old(Rows())
      ensures moved ==> OnlyFiles(old(Rows()), Rows()) && file == old(file)[i :=
        File(old(folder)[f].workspace, f, name, comparisonKey(name), old(file)[i].live, old(file)[i].size)]
      ensures moved && old(file)[i].live && f != old(file)[i].folder ==>
        nextDelta == old(nextDelta) + 2 && delta == old(delta)
          [old(nextDelta) := Delta(old(file)[i].workspace, old(file)[i].folder, -1, 0 - old(file)[i].size)]
          [old(nextDelta) + 1 := Delta(old(folder)[f].workspace, f, 1, old(file)[i].size)]
      ensures moved && !(old(file)[i].live && f != old(file)[i].folder) ==> OwesNothing(old(Rows()), Rows())
    {
      hide WellFormed, LiveNamesDiffer, Filed, Countable, Exact, Steps.Record;
      ghost var was := Rows();
      var key := comparisonKey(name);
      MoveFileSound(was, i, f, name, key);
      MoveFileRows(was, i, f, name, key);
      var found := file[i];
      if found.live && exists j :: j in file && j != i && file[j].live && file[j].folder == f && file[j].key == key {
        return false;
      }
      moved := true;
      file := file[i := found.(workspace := folder[f].workspace, folder := f, name := name, key := key)];
      if f != found.folder && found.live {
        Record(found.workspace, found.folder, -1, 0 - found.size);
        Record(folder[f].workspace, f, 1, found.size);
      }
    }

    /** Guarded on the state flip: however often a deletion is reported, the totals lose the file once. */
    method Trash(i: nat) returns (newlyTrashed: bool)
      requires Valid() && i in file
      modifies this
      ensures Valid() && Rows() == Steps.Trash(old(Rows()), i)
      ensures newlyTrashed <==> old(file)[i].live
      ensures newlyTrashed ==> OnlyFiles(old(Rows()), Rows()) && file == old(file)[i := old(file)[i].(live := false)]
      ensures newlyTrashed ==>
        Owes(old(Rows()), Rows(), old(file)[i].workspace, old(file)[i].folder, -1, 0 - old(file)[i].size)
      ensures !newlyTrashed ==> Rows() == old(Rows())
    {
      hide WellFormed, LiveNamesDiffer, Filed, Countable, Exact, Steps.Record;
      ghost var was := Rows();
      TrashSound(was, i);
      TrashRows(was, i);
      var found := file[i];
      newlyTrashed := found.live;
      if newlyTrashed {
        file := file[i := found.(live := false)];
        Record(found.workspace, found.folder, -1, 0 - found.size);
      }
    }

    method Reactivate(i: nat) returns (back: bool)
      requires Valid() && i in file
      modifies this
      ensures Valid() && Rows() == Steps.Reactivate(old(Rows()), i)
      ensures back <==> !old(file)[i].live && !LiveClash(old(Rows()), old(file)[i].folder, old(file)[i].key, i)
      ensures back ==> OnlyFiles(old(Rows()), Rows()) && file == old(file)[i := old(file)[i].(live := true)]
      ensures back ==> Owes(old(Rows()), Rows(), old(file)[i].workspace, old(file)[i].folder, 1, old(file)[i].size)
      ensures !back ==> Rows() == old(Rows())
    {
      hide WellFormed, LiveNamesDiffer, Filed, Countable, Exact, Steps.Record;
      ghost var was := Rows();
      ReactivateSound(was, i);
      ReactivateRows(was, i);
      var found := file[i];
      if found.live || exists j ::
        j in file && j != i && file[j].live && file[j].folder == found.folder && file[j].key == found.key {
        return false;
      }
      back := true;
      file := file[i := found.(live := true)];
      Record(found.workspace, found.folder, 1, found.size);
    }

    // ---------------------------------------------------------------- draining and checking

    /** The oldest `limit` rows of one workspace's queue. */
    method Claim(workspace: nat, limit: nat) returns (claimed: set<nat>)
      ensures Batch(QueuedIn(Rows(), workspace), limit, claimed)
    {
      var ids := set k | k in delta && delta[k].workspace == workspace;
      var rest := ids;
      claimed := {};
      while |claimed| < limit && rest != {}
        invariant Split(ids, claimed, rest) && |claimed| <= limit
        decreases rest
      {
        ghost var least := LeastExists(rest);
        var k :| k in rest && Least(rest, k);
        SplitOne(ids, claimed, rest, k);
        claimed, rest := claimed + {k}, rest - {k};
      }
      if rest == {} {
        assert claimed == ids;
      }
    }

    /** The claimed rows joined with the closure and summed per ancestor. */
    method Expand(claimed: set<nat>) returns (next: map<nat, Aggregate>, touched: set<nat>)
      requires Valid() && forall k :: k in claimed ==> k in delta
      ensures next == Apply(Rows(), claimed).aggregate
      ensures touched == {} <==> claimed == {}
    {
      hide WellFormed, LiveNamesDiffer, Apply, Countable, Numbered;
      var rest := claimed;
      ghost var done: set<nat> := {};
      next, touched := aggregate, {};
      ApplyNone(Rows());
      while rest != {}
        invariant done + rest == claimed && done !! rest
        invariant next == Apply(Rows(), done).aggregate
        invariant touched == {} <==> done == {}
        decreases rest
      {
        var k :| k in rest;
        CreditedIsApplied(Rows(), closure, done, k);
        ReachedItself(Rows(), closure, k);
        next := Credited(next, closure, delta[k]);
        touched := touched + Reached(aggregate, closure, delta[k]);
        done, rest := done + {k}, rest - {k};
      }
      assert done == claimed;
    }

    /** One statement: the claimed rows go and every ancestor they have now is credited, or nothing happens. */
    method Drain(workspace: nat, limit: nat) returns (affected: nat, refused: bool, claimed: set<nat>)
      requires Valid()
      modifies this`aggregate, this`delta
      ensures Valid()
      ensures Batch(QueuedIn(old(Rows()), workspace), limit, claimed)
      ensures Rows() == Moves.Drain(old(Rows()), claimed)
      ensures refused <==> !Countable(Apply(old(Rows()), claimed).aggregate)
      ensures !refused ==> (affected == 0 <==> claimed == {})
    {
      hide WellFormed, LiveNamesDiffer, Batch, Exact, Apply, Filed;
      ghost var was := Rows();
      claimed := Claim(workspace, limit);
      BatchQueued(was, workspace, limit, claimed);
      DrainSound(was, claimed);
      var next, touched := Expand(claimed);
      affected, refused := |touched|, exists a :: a in next && (next[a].files < 0 || next[a].bytes < 0);
      if !refused {
        aggregate := next;
        delta := Unclaimed(delta, claimed);
        ApplyShape(was, claimed);
      }
    }

    /** Count and size a subtree from the files themselves. */
    method GroundTruth(a: nat) returns (truth: Aggregate)
      requires Valid()
      ensures forall u :: truth.Of(u) == Truth(Rows(), a, u)
    {
      hide Sound, Above, Under, Part, Total;
      var rest := file.Keys;
      ghost var done: set<nat> := {};
      ghost var files, bytes := Live(Rows(), Files), Live(Rows(), Bytes);
      PartNone(folder, files, a);
      PartNone(folder, bytes, a);
      var count, size := 0, 0;
      while rest != {}
        invariant done + rest == file.Keys && done !! rest
        invariant count == Total(Under(folder, Part(files, done), a))
        invariant size == Total(Under(folder, Part(bytes, done), a))
        decreases rest
      {
        var i :| i in rest;
        PartOne(folder, files, done, i, a);
        PartOne(folder, bytes, done, i, a);
        if (a, file[i].folder) in closure {
          count, size := count + file[i].Weight(Files), size + file[i].Weight(Bytes);
        }
        done, rest := done + {i}, rest - {i};
      }
      PartAll(files, done);
      PartAll(bytes, done);
      truth := Aggregate(count, size);
    }

    /** What a subtree's unapplied changes add up to. */
    method QueuedUnder(a: nat) returns (queued: Aggregate)
      requires Valid()
      ensures forall u :: queued.Of(u) == Rollup.QueuedUnder(Rows(), a, u)
    {
      hide Sound, Above, Under, Part, Total;
      var rest := delta.Keys;
      ghost var done: set<nat> := {};
      ghost var files, bytes := Queue(Rows(), Files), Queue(Rows(), Bytes);
      PartNone(folder, files, a);
      PartNone(folder, bytes, a);
      var count, size := 0, 0;
      while rest != {}
        invariant done + rest == delta.Keys && done !! rest
        invariant count == Total(Under(folder, Part(files, done), a))
        invariant size == Total(Under(folder, Part(bytes, done), a))
        decreases rest
      {
        var k :| k in rest;
        PartOne(folder, files, done, k, a);
        PartOne(folder, bytes, done, k, a);
        if (a, delta[k].folder) in closure {
          count, size := count + delta[k].files, size + delta[k].bytes;
        }
        done, rest := done + {k}, rest - {k};
      }
      PartAll(files, done);
      PartAll(bytes, done);
      queued := Aggregate(count, size);
    }

    /** Some folders with nothing pending compared with ground truth: corrects what disagrees and reports it. */
    method Verify(checked: seq<nat>) returns (drifted: seq<nat>)
      requires Valid() && forall a :: a in checked ==> a in folder && !Pending(Rows(), a)
      modifies this`aggregate
      ensures Valid() && Rows() == old(Rows()).(aggregate := aggregate)
      ensures forall a, u :: a in checked ==> Stored(Rows(), a, u) == Truth(Rows(), a, u)
      ensures forall a :: a in drifted ==> a in checked && aggregate[a] != old(aggregate)[a]
      ensures forall a :: a in folder && a !in drifted ==> aggregate[a] == old(aggregate)[a]
      ensures Consistent(old(Rows())) ==> drifted == [] && Rows() == old(Rows())
    {
      hide WellFormed, LiveNamesDiffer, Filed, Exact, Pending, Consistent, Rollup.QueuedUnder, Countable, Numbered,
        Truth;
      drifted := [];
      ghost var was := Rows();
      var n := 0;
      while n < |checked|
        invariant 0 <= n <= |checked|
        invariant Valid() && Rows() == was.(aggregate := aggregate)
        invariant forall a, u :: a in checked[..n] ==> Stored(Rows(), a, u) == Truth(was, a, u)
        invariant forall a :: a in drifted ==> a in checked[..n] && aggregate[a] != was.aggregate[a]
        invariant forall a :: a in folder && a !in drifted ==> aggregate[a] == was.aggregate[a]
        invariant Consistent(was) ==> drifted == [] && aggregate == was.aggregate
      {
        var a := checked[n];
        var truth := GroundTruth(a);
        SameTruth(was, Rows(), a);
        AggregateParts(Rows(), a, truth);
        if Consistent(was) {
          SettledIsExact(was, a, Files);
          SettledIsExact(was, a, Bytes);
        }
        if aggregate[a] != truth {
          drifted := drifted + [a];
          TruthNotNegative(was, a, Files);
          TruthNotNegative(was, a, Bytes);
          AssignSound(Rows(), a, truth);
          aggregate := aggregate[a := truth];
        }
        n := n + 1;
      }
      forall a, u ensures Truth(Rows(), a, u) == Truth(was, a, u) {
        SameTruth(was, Rows(), a);
      }
    }

    /**
     `roll_up` with nothing committed between its batches. It is refused exactly if for some number of batches below the
     cap what is queued beyond them exceeds the live files beneath some folder, and then nothing short of another
     transaction gets it any further. If it is not, it settles exactly when one batch fewer than the cap holds the
     queue.
    */
    method RollUp(workspace: nat) returns (settled: bool, refused: bool, batches: nat)
      requires Valid() && Consistent(Rows())
      modifies this`aggregate, this`delta
      ensures Valid() && Consistent(Rows())
      ensures refused <==> exists k: nat :: k < BATCHES_PER_RUN && BlockedAt(old(Rows()), workspace, k)
      ensures refused ==> batches < BATCHES_PER_RUN && BlockedAt(old(Rows()), workspace, batches)
      ensures forall k: nat :: k < batches ==> !BlockedAt(old(Rows()), workspace, k)
      ensures Rows() == Apply(old(Rows()), FirstIds(QueuedIn(old(Rows()), workspace), batches * BATCH))
      ensures refused ==> !settled && Stuck(Rows(), workspace)
      ensures Stuck(old(Rows()), workspace) ==> refused && batches == 0 && Rows() == old(Rows())
      ensures !refused ==> (settled <==> |QueuedIn(old(Rows()), workspace)| <= (BATCHES_PER_RUN - 1) * BATCH)
      ensures |QueuedIn(old(Rows()), workspace)| <= BATCH ==> settled && !refused
      ensures settled ==> QueuedIn(Rows(), workspace) == {}
      ensures settled ==>
        forall a, u :: a in folder && folder[a].workspace == workspace ==> Stored(Rows(), a, u) == Truth(Rows(), a, u)
      ensures !settled && !refused ==> batches == BATCHES_PER_RUN
    {
      hide Sound, Exact, Consistent, Moves.Drain, Apply, Countable, QueuedIn, Batch, BlockedAt, FirstIds, Stored,
        Truth, RolledTo;
      ghost var first := Rows();
      ghost var taken: set<nat> := {};
      batches, settled, refused := 0, false, false;
      RollUpStarts(first, workspace);
      while batches < BATCHES_PER_RUN
        invariant Valid() && Consistent(Rows()) && batches <= BATCHES_PER_RUN
        invariant Rows() == Apply(first, taken) && RolledTo(first, workspace, batches, taken)
      {
        ghost var was := Rows();
        var written, failed, claimed := Drain(workspace, BATCH);
        DrainKeeps(was, claimed);
        NextBatch(first, workspace, batches, taken, claimed);
        if failed {
          refused := true;
          RefusedStays(was, claimed);
          RolledRefused(first, workspace, batches, taken);
          return;
        }
        if written == 0 {
          settled := true;
          NothingTaken(was, claimed);
          RolledDry(first, workspace, batches, taken);
          AllSettled(Rows(), workspace);
          return;
        }
        TakenOn(first, was, taken, claimed);
        taken := taken + claimed;
        batches := batches + 1;
      }
      RolledOut(first, workspace, taken);
    }
  }

  lemma MovedRow(s: Tables, x: nat, p: nat, name: string, key: string)
    requires x in s.folder && p in s.folder && x in s.aggregate && MoveAllowed(s, x, p, key)
    ensures var s' := MoveFolder(s, x, p, name, key);
      s'.aggregate == s.aggregate && x in s'.folder
      && s'.folder[x] == Folder(s.folder[p].workspace, Some(p), name, key, s.folder[p].depth + 1)
  {
    hide MoveAllowed;
  }

  lemma RefusedStays(s: Tables, batch: set<nat>)
    requires !Countable(Apply(s, batch).aggregate)
    ensures Moves.Drain(s, batch) == s
  {
  }

  lemma NothingTaken(s: Tables, batch: set<nat>)
    requires Sound(s) && batch == {}
    ensures Moves.Drain(s, batch) == s
  {
    hide WellFormed, LiveNamesDiffer, Filed, Numbered, Apply;
    ApplyNone(s);
  }

  lemma TakenOn(s: Tables, was: Tables, taken: set<nat>, claimed: set<nat>)
    requires was == Apply(s, taken) && taken !! claimed && Countable(Apply(was, claimed).aggregate)
    ensures Moves.Drain(was, claimed) == Apply(s, taken + claimed)
  {
    hide Countable, Apply;
    ApplyTwice(s, taken, claimed);
  }

  /** With nothing queued every total of the workspace is exact. */
  lemma AllSettled(s: Tables, workspace: nat)
    requires Good(s) && QueuedIn(s, workspace) == {}
    ensures forall a, u :: a in s.folder && s.folder[a].workspace == workspace ==> Stored(s, a, u) == Truth(s, a, u)
  {
    hide OneRoot, SiblingsDiffer, RootsUnnamed, LiveNamesDiffer, Numbered, Countable, Pending, Consistent, QueuedIn,
      Stored, Truth;
    forall a, u | a in s.folder && s.folder[a].workspace == workspace ensures Stored(s, a, u) == Truth(s, a, u) {
      NothingQueued(s, workspace, a);
      SettledIsExact(s, a, u);
    }
  }
}
