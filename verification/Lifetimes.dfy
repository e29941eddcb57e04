/**
 Any life of an instance: every transaction there is, renames recognised by a scan and checks for drift included, in any
 order and any number, each one run as the code runs it.
*/
module Lifetimes {
  import opened Common
  import opened FolderTree
  import opened Rollup
  import opened Steps
  import opened Moves
  import opened Batching
  import opened Interleavings
  import opened Merging
  import opened Absorbing
  import opened Transferring
  import opened Renaming
  import opened Paths
  import opened DatabaseModel

  datatype Transaction =
    | CreateRoot(workspace: nat)
    | CreateChild(parent: nat, name: string)
    | Register(folder: nat, name: string, size: nat)
    | AddVersion(file: nat, size: nat)
    | MoveFile(file: nat, folder: nat, name: string)
    | Trash(file: nat)
    | Reactivate(file: nat)
    | Relocate(folder: nat, parent: nat, name: string, diskAccepts: bool)
    | Transfer(source: nat, destination: nat)
    | Drain(workspace: nat, limit: nat)
    | Verify(checked: seq<nat>)

  // ------------------------------------------------------------------ names and keys go together

  /** The step writes keys computed from the names it writes. */
  predicate Spelled(step: Interleavings.Step, key: string -> string) {
    match step
    case RootCreated(_, k) => k == key("")
    case ChildCreated(_, name, k) => k == key(name)
    case FolderMoved(_, _, name, k) => k == key(name)
    case _ => true
  }

  lemma StepKeyed(s: Tables, step: Interleavings.Step, key: string -> string)
    requires Enabled(s, step) && Spelled(step, key) && Keyed(s.folder, key)
    ensures Keyed(Next(s, step).folder, key)
  {
  }

  /** A merged row's key is its survivor's, and so are, in the end, the names. */
  lemma TransferKeyed(s0: Tables, s: Tables, source: nat, destination: nat, m: Handover, key: string -> string)
    requires source in s0.folder && destination in s0.folder && Transferred(s0, s, source, destination, m)
    requires Keyed(s0.folder, key)
    requires Linked(s0.folder) && Apart(s0.folder, source, destination)
    ensures Keyed(s.folder, key)
  {
    hide FilesFollow, TotalsFollow, Linked, Apart, Above;
    ValuesWithin(s0.folder, source, destination, m);
    forall f | f in s.folder ensures s.folder[f].key == key(s.folder[f].name) {
      if f != source && f in m.Values {
        var g :| g in m && m[g] == f;
        assert PairedAt(s0.folder, source, destination, m, g);
      }
    }
  }

  // ------------------------------------------------------------------ one transaction

  /** What every committed transaction leaves behind. */
  ghost predicate Whole(db: Database)
    reads db
  {
    db.Valid() && Consistent(db.Rows()) && Keyed(db.folder, db.comparisonKey)
  }

  lemma StepWhole(s: Tables, step: Interleavings.Step, key: string -> string)
    requires Good(s) && Enabled(s, step) && Spelled(step, key) && Keyed(s.folder, key)
    ensures Good(Next(s, step)) && Keyed(Next(s, step).folder, key)
  {
    hide Good, Enabled, Next, Spelled, Keyed;
    StepKeeps(s, step);
    StepKeyed(s, step, key);
  }

  // ------------------------------------------------------------------ what one does

  /** The step, if the rows it names are there; nothing otherwise. */
  ghost predicate Stepped(s: Tables, s': Tables, step: Interleavings.Step) {
    s' == if Enabled(s, step) then Next(s, step) else s
  }

  /** An external rename may be carried over when the parents agree or nothing alive is left where the folder was. */
  ghost predicate MayTransfer(s: Tables, source: nat, destination: nat) {
    source in s.folder && destination in s.folder && s.folder[source].parent.Some? && s.folder[destination].parent.Some?
    && s.folder[source].workspace == s.folder[destination].workspace && !Above(s.folder, source, destination)
    && (s.folder[source].parent == s.folder[destination].parent || !LiveBelow(s, source))
  }

  /** The transfer with its merges, or none: live files on both sides, or a destination above its source. */
  ghost predicate Identified(s: Tables, s': Tables, source: nat, destination: nat) {
    if MayTransfer(s, source, destination) then
      (s' == s && (BothLive(s, source, destination) || Above(s.folder, destination, source))) ||
      (Apart(s.folder, source, destination) && exists m :: Transferred(s, s', source, destination, m))
    else s' == s
  }

  ghost predicate DrainedTo(s: Tables, s': Tables, workspace: nat, limit: nat) {
    exists batch :: Batch(QueuedIn(s, workspace), limit, batch) && s' == Moves.Drain(s, batch)
  }

  /** What a committed transaction does to the rows; a refused one does nothing. */
  ghost predicate Performed(s: Tables, s': Tables, t: Transaction, key: string -> string) {
    match t
    case CreateRoot(w) => Stepped(s, s', RootCreated(w, key("")))
    case CreateChild(p, name) => Stepped(s, s', ChildCreated(p, name, key(name)))
    case Register(f, name, size) => Stepped(s, s', FileRegistered(f, name, key(name), size))
    case AddVersion(i, size) => Stepped(s, s', VersionAdded(i, size))
    case MoveFile(i, f, name) => Stepped(s, s', FileMoved(i, f, name, key(name)))
    case Trash(i) => Stepped(s, s', FileTrashed(i))
    case Reactivate(i) => Stepped(s, s', FileReactivated(i))
    case Relocate(x, p, name, diskAccepts) => if diskAccepts then Stepped(s, s', FolderMoved(x, p, name, key(name))) else s' == s
    case Transfer(source, destination) => Identified(s, s', source, destination)
    case Drain(w, limit) => DrainedTo(s, s', w, limit)
    case Verify(_) => s' == s
  }

  method Files(db: Database, t: Transaction)
    requires Whole(db) && (t.Register? || t.AddVersion? || t.MoveFile? || t.Trash? || t.Reactivate?)
    modifies db
    ensures Whole(db) && Performed(old(db.Rows()), db.Rows(), t, db.comparisonKey)
  {
    hide Sound, Exact, Consistent, Keyed;
    ghost var was := db.Rows();
    match t {
      case Register(f, name, size) =>
        if f in db.folder {
          StepWhole(was, FileRegistered(f, name, db.comparisonKey(name), size), db.comparisonKey);
          var id := db.Register(f, name, size);
        }
      case AddVersion(i, size) =>
        if i in db.file {
          StepWhole(was, VersionAdded(i, size), db.comparisonKey);
          db.AddVersion(i, size);
        }
      case MoveFile(i, f, name) =>
        if i in db.file && f in db.folder {
          StepWhole(was, FileMoved(i, f, name, db.comparisonKey(name)), db.comparisonKey);
          var moved := db.MoveFile(i, f, name);
        }
      case Trash(i) =>
        if i in db.file {
          StepWhole(was, FileTrashed(i), db.comparisonKey);
          var newly := db.Trash(i);
        }
      case Reactivate(i) =>
        if i in db.file {
          StepWhole(was, FileReactivated(i), db.comparisonKey);
          var back := db.Reactivate(i);
        }
    }
  }

  method Folders(db: Database, t: Transaction)
    requires Whole(db) && (t.CreateRoot? || t.CreateChild? || t.Relocate?)
    modifies db
    ensures Whole(db) && Performed(old(db.Rows()), db.Rows(), t, db.comparisonKey)
  {
    hide Sound, Exact, Consistent, Keyed;
    ghost var was := db.Rows();
    match t {
      case CreateRoot(w) =>
        StepWhole(was, RootCreated(w, db.comparisonKey("")), db.comparisonKey);
        var id, created := db.CreateRoot(w);
      case CreateChild(p, name) =>
        if p in db.folder && name != "" {
          StepWhole(was, ChildCreated(p, name, db.comparisonKey(name)), db.comparisonKey);
          var outcome := db.CreateChild(p, name);
        }
      case Relocate(x, p, name, diskAccepts) =>
        if x in db.folder && p in db.folder && name != "" {
          assert x in was.aggregate by { RowsMatch(was, x); }
          StepWhole(was, FolderMoved(x, p, name, db.comparisonKey(name)), db.comparisonKey);
          var refused := db.Relocate(x, p, name, diskAccepts);
        }
    }
  }

  lemma RowsMatch(s: Tables, x: nat)
    requires Sound(s) && x in s.folder
    ensures x in s.aggregate
  {
  }

  /** The same, read out of the closure. */
  predicate Transferable(db: Database, source: nat, destination: nat)
    reads db
  {
    source in db.folder && destination in db.folder && db.folder[source].parent.Some?
    && db.folder[destination].parent.Some?
    && db.folder[source].workspace == db.folder[destination].workspace && (source, destination) !in db.closure
    && (db.folder[source].parent == db.folder[destination].parent
        || forall i :: i in db.file && db.file[i].live ==> (source, db.file[i].folder) !in db.closure)
  }

  lemma TransferableIs(db: Database, source: nat, destination: nat)
    requires db.Valid()
    ensures Transferable(db, source, destination) <==> MayTransfer(db.Rows(), source, destination)
    ensures Transferable(db, source, destination) ==> Mergeable(db.folder, source, destination)
  {
    hide Above, Sound;
  }

  method Identify(db: Database, source: nat, destination: nat)
    requires Whole(db)
    modifies db
    ensures Whole(db) && Identified(old(db.Rows()), db.Rows(), source, destination)
  {
    hide Sound, Exact, Consistent, Keyed, Transferred, Mergeable, Apart, LiveBelow, Above;
    ghost var was := db.Rows();
    TransferableIs(db, source, destination);
    if !Transferable(db, source, destination) {
      return;
    }
    ghost var merged;
    var done;
    done, merged := Renaming.Transfer(db, source, destination);
    if done {
      SoundLinked(was);
      TransferKeyed(was, db.Rows(), source, destination, merged, db.comparisonKey);
    }
  }

  lemma SoundLinked(s: Tables)
    requires Sound(s)
    ensures Linked(s.folder)
  {
  }

  method Totals(db: Database, t: Transaction)
    requires Whole(db) && (t.Drain? || t.Verify?)
    modifies db
    ensures Whole(db) && Performed(old(db.Rows()), db.Rows(), t, db.comparisonKey)
  {
    hide Sound, Exact, Consistent, Keyed, Pending;
    ghost var was := db.Rows();
    match t {
      case Drain(w, limit) =>
        var affected, refused, claimed := db.Drain(w, limit);
        StepWhole(was, Drained(w, limit, claimed), db.comparisonKey);
      case Verify(checked) =>
        var settled := forall a :: a in checked ==> a in db.folder && forall k :: k in db.delta ==>
          (a, db.delta[k].folder) !in db.closure;
        if settled {
          NothingPending(db, checked);
          var drifted := db.Verify(checked);
        }
    }
  }

  lemma NothingPending(db: Database, checked: seq<nat>)
    requires db.Valid()
    requires forall a :: a in checked ==>
      a in db.folder && forall k :: k in db.delta ==> (a, db.delta[k].folder) !in db.closure
    ensures forall a :: a in checked ==> a in db.folder && !Pending(db.Rows(), a)
  {
    hide Above, Sound;
  }

  method Perform(db: Database, t: Transaction)
    requires Whole(db)
    modifies db
    ensures Whole(db) && Performed(old(db.Rows()), db.Rows(), t, db.comparisonKey)
  {
    hide Whole;
    match t {
      case Transfer(source, destination) => Identify(db, source, destination);
      case Drain(_, _) => Totals(db, t);
      case Verify(_) => Totals(db, t);
      case CreateRoot(_) => Folders(db, t);
      case CreateChild(_, _) => Folders(db, t);
      case Relocate(_, _, _, _) => Folders(db, t);
      case _ => Files(db, t);
    }
  }

  // ------------------------------------------------------------------ any number of them

  /** The root of the folder's workspace. */
  predicate RootOf(t: Tree, root: nat, f: nat) {
    root in t && f in t && t[root].parent == None && t[root].workspace == t[f].workspace
  }

  /**
   Each total plus what is queued beneath it is the live files beneath it, and looking up the path of a folder finds it.
  */
  ghost predicate Lawful(s: Tables, key: string -> string) {
    (forall a, u :: a in s.folder ==> Stored(s, a, u) + QueuedUnder(s, a, u) == Truth(s, a, u)) &&
    forall root: nat, f: nat :: RootOf(s.folder, root, f) ==>
      Resolve(s.folder, Some(root), PathOf(s.folder, f), key) == Some(f)
  }

  lemma GoodIsLawful(s: Tables, key: string -> string)
    requires Good(s) && Keyed(s.folder, key)
    ensures Lawful(s, key)
  {
    hide Stored, QueuedUnder, Truth, Keyed, LiveNamesDiffer, Filed, Countable, Linked, OneRoot, SiblingsDiffer,
      RootsUnnamed;
    forall a, u | a in s.folder ensures Stored(s, a, u) + QueuedUnder(s, a, u) == Truth(s, a, u) {
      SourceAccounted(s, a, u);
    }
    forall root: nat, f: nat | RootOf(s.folder, root, f)
      ensures Resolve(s.folder, Some(root), PathOf(s.folder, f), key) == Some(f)
    {
      PathResolves(s.folder, root, f, key);
    }
  }

  /** State after state, each by the next transaction. */
  ghost predicate Lived(states: seq<Tables>, life: seq<Transaction>, key: string -> string) {
    |states| == |life| + 1 && forall n :: 0 <= n < |life| ==> Performed(states[n], states[n + 1], life[n], key)
  }

  lemma LivedOn(states: seq<Tables>, life: seq<Transaction>, key: string -> string, s: Tables, t: Transaction)
    requires Lived(states, life, key) && Performed(states[|life|], s, t, key)
    ensures Lived(states + [s], life + [t], key)
  {
    hide Performed;
    var more, all := states + [s], life + [t];
    forall n | 0 <= n < |all| ensures Performed(more[n], more[n + 1], all[n], key) {
      assert n < |life| ==> Performed(states[n], states[n + 1], life[n], key);
    }
  }

  ghost predicate AllLawful(states: seq<Tables>, key: string -> string) {
    forall n :: 0 <= n < |states| ==> Lawful(states[n], key)
  }

  /** Whatever a database goes through from here. */
  method Through(db: Database, life: seq<Transaction>) returns (ghost states: seq<Tables>)
    requires Whole(db)
    modifies db
    ensures Whole(db) && Lived(states, life, db.comparisonKey) && AllLawful(states, db.comparisonKey)
    ensures states[0] == old(db.Rows()) && states[|life|] == db.Rows()
  {
    hide Sound, Exact, Consistent, Keyed, Performed, Lawful, Lived;
    states := [db.Rows()];
    GoodIsLawful(db.Rows(), db.comparisonKey);
    assert Lived(states, [], db.comparisonKey) by { NotLivedYet(db.Rows(), db.comparisonKey); }
    assert life[..0] == [];
    var n := 0;
    while n < |life|
      invariant 0 <= n <= |life| && Whole(db) && |states| == n + 1 && states[n] == db.Rows()
      invariant states[0] == old(db.Rows())
      invariant Lived(states, life[..n], db.comparisonKey) && AllLawful(states, db.comparisonKey)
    {
      Perform(db, life[n]);
      GoodIsLawful(db.Rows(), db.comparisonKey);
      LivedOn(states, life[..n], db.comparisonKey, db.Rows(), life[n]);
      assert life[..n + 1] == life[..n] + [life[n]];
      states := states + [db.Rows()];
      n := n + 1;
    }
    assert life[..n] == life;
  }

  lemma NotLivedYet(s: Tables, key: string -> string)
    ensures Lived([s], [], key)
  {
  }

  /** Whatever an instance goes through, from its first transaction to its last. */
  method Live(key: string -> string, life: seq<Transaction>) returns (db: Database, ghost states: seq<Tables>)
    ensures db.Valid() && db.comparisonKey == key
    ensures states != [] && states[0] == EMPTY && Lived(states, life, key) && states[|life|] == db.Rows()
    ensures AllLawful(states, key)
  {
    hide Sound, Exact, Consistent, Lived, AllLawful;
    db := new Database(key);
    EmptyIsGood();
    states := Through(db, life);
    LivedSize(states, life, key);
  }

  lemma LivedSize(states: seq<Tables>, life: seq<Transaction>, key: string -> string)
    requires Lived(states, life, key)
    ensures |states| == |life| + 1
  {
  }

  /** A claim finds nothing exactly if nothing is queued, and then nothing is refused. */
  lemma QueueOf(s: Tables, workspace: nat, claimed: set<nat>)
    requires Good(s) && Batch(QueuedIn(s, workspace), BATCH, claimed)
    ensures claimed == {} <==> QueuedIn(s, workspace) == {}
    ensures claimed == {} ==> Countable(Apply(s, claimed).aggregate)
  {
    hide WellFormed, LiveNamesDiffer, Filed, Numbered, Consistent, Apply, QueuedIn;
    ApplyNone(s);
  }

  /** These transactions lead from one state to the other. */
  ghost predicate Leads(s: Tables, s': Tables, life: seq<Transaction>, key: string -> string) {
    exists states :: Lived(states, life, key) && states[0] == s && states[|life|] == s'
  }

  /** A batch of the rollup, and then what else commits before the next one. */
  ghost predicate BatchThen(s: Tables, s': Tables, workspace: nat, meanwhile: seq<Transaction>, key: string -> string) {
    exists batch :: Batch(QueuedIn(s, workspace), BATCH, batch) && Leads(Moves.Drain(s, batch), s', meanwhile, key)
  }

  lemma LeadsBy(states: seq<Tables>, life: seq<Transaction>, key: string -> string)
    requires Lived(states, life, key)
    ensures Leads(states[0], states[|life|], life, key)
  {
    hide Lived;
  }

  lemma ThenIs(s: Tables, s': Tables, workspace: nat, batch: set<nat>, meanwhile: seq<Transaction>,
               key: string -> string)
    requires Batch(QueuedIn(s, workspace), BATCH, batch) && Leads(Moves.Drain(s, batch), s', meanwhile, key)
    ensures BatchThen(s, s', workspace, meanwhile, key)
  {
  }

  /**
   `roll_up` as it is: the lock is released between batches, and anything may commit there. `seen` are the states its
   batches meet, one after the other. Each batch goes through exactly if the rollup is not stuck by then; a rollup that
   settles leaves every total of the workspace exact.
  */
  method RollUpMeanwhile(db: Database, workspace: nat, meanwhile: seq<seq<Transaction>>)
    returns (settled: bool, refused: bool, batches: nat, ghost seen: seq<Tables>)
    requires Whole(db) && |meanwhile| == BATCHES_PER_RUN
    modifies db
    ensures Whole(db) && 0 < |seen| <= BATCHES_PER_RUN && seen[0] == old(db.Rows())
    ensures batches == if settled || refused then |seen| - 1 else BATCHES_PER_RUN
    ensures forall i :: 0 < i < |seen| ==>
      BatchThen(seen[i - 1], seen[i], workspace, meanwhile[i - 1], db.comparisonKey)
    ensures if settled || refused then db.Rows() == seen[|seen| - 1]
            else |seen| == BATCHES_PER_RUN && BatchThen(seen[|seen| - 1], db.Rows(), workspace, meanwhile[|seen| - 1], db.comparisonKey)
    ensures forall i :: 0 <= i < |seen| ==> (Stuck(seen[i], workspace) <==> refused && i == |seen| - 1)
    ensures settled <==> QueuedIn(seen[|seen| - 1], workspace) == {}
    ensures settled ==> !refused && forall a, u :: a in db.folder && db.folder[a].workspace == workspace ==>
      Stored(db.Rows(), a, u) == Truth(db.Rows(), a, u)
  {
    hide Sound, Exact, Consistent, Stuck, QueuedIn, Batch, Countable, Apply, Stored, Truth, Keyed, BatchThen, Leads,
      Lived;
    settled, refused, batches, seen := false, false, 0, [];
    ghost var now := db.Rows();
    while batches < BATCHES_PER_RUN
      invariant Whole(db) && |seen| == batches <= BATCHES_PER_RUN && now == db.Rows()
      invariant if batches == 0 then now == old(db.Rows()) else seen[0] == old(db.Rows())
      invariant forall i :: 0 < i < |seen| ==>
        BatchThen(seen[i - 1], seen[i], workspace, meanwhile[i - 1], db.comparisonKey)
      invariant batches > 0 ==> BatchThen(seen[batches - 1], now, workspace, meanwhile[batches - 1], db.comparisonKey)
      invariant forall i :: 0 <= i < |seen| ==> !Stuck(seen[i], workspace) && QueuedIn(seen[i], workspace) != {}
    {
      ghost var was := now;
      seen := seen + [was];
      var written, failed, claimed := db.Drain(workspace, BATCH);
      StuckMeans(was, workspace, claimed);
      QueueOf(was, workspace, claimed);
      if failed {
        refused := true;
        RefusedStays(was, claimed);
        return;
      }
      if written == 0 {
        settled := true;
        NothingTaken(was, claimed);
        AllSettled(was, workspace);
        return;
      }
      DrainWhole(was, workspace, claimed);
      ghost var states := Through(db, meanwhile[batches]);
      LeadsBy(states, meanwhile[batches], db.comparisonKey);
      now := db.Rows();
      ThenIs(was, now, workspace, claimed, meanwhile[batches], db.comparisonKey);
      batches := batches + 1;
    }
  }

  lemma DrainWhole(s: Tables, workspace: nat, batch: set<nat>)
    requires Good(s) && Batch(QueuedIn(s, workspace), BATCH, batch)
    ensures Good(Moves.Drain(s, batch)) && Moves.Drain(s, batch).folder == s.folder
  {
    hide Sound, Consistent, Batch, QueuedIn;
    StepKeeps(s, Drained(workspace, BATCH, batch));
  }
}
