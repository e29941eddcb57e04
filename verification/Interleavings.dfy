/** Every history of committed transactions, in any order, starting from an empty instance. */
module Interleavings {
  import opened Common
  import opened FolderTree
  import opened Rollup
  import opened Steps
  import opened Moves
  import opened Batching

  datatype Step =
    | RootCreated(workspace: nat, key: string)
    | ChildCreated(parent: nat, name: string, key: string)
    | FileRegistered(folder: nat, name: string, key: string, size: nat)
    | VersionAdded(file: nat, size: nat)
    | FileMoved(file: nat, folder: nat, name: string, key: string)
    | FileTrashed(file: nat)
    | FileReactivated(file: nat)
    | FolderMoved(folder: nat, parent: nat, name: string, key: string)
    | Drained(workspace: nat, limit: nat, batch: set<nat>)

  /** A step that names rows which are not there, or claims a batch the queue does not hold, never happens. */
  ghost predicate Enabled(s: Tables, step: Step) {
    match step
    case RootCreated(_, _) => true
    case ChildCreated(p, name, _) => p in s.folder && name != ""
    case FileRegistered(f, _, _, _) => f in s.folder
    case VersionAdded(i, _) => i in s.file
    case FileMoved(i, f, _, _) => i in s.file && f in s.folder
    case FileTrashed(i) => i in s.file
    case FileReactivated(i) => i in s.file
    case FolderMoved(x, p, name, _) => x in s.folder && p in s.folder && name != "" && x in s.aggregate
    case Drained(w, limit, batch) => Batch(QueuedIn(s, w), limit, batch)
  }

  ghost function Next(s: Tables, step: Step): Tables
    requires Enabled(s, step)
  {
    match step
    case RootCreated(w, key) => CreateRoot(s, w, key)
    case ChildCreated(p, name, key) => CreateChild(s, p, name, key)
    case FileRegistered(f, name, key, size) => Register(s, f, name, key, size)
    case VersionAdded(i, size) => AddVersion(s, i, size)
    case FileMoved(i, f, name, key) => MoveFile(s, i, f, name, key)
    case FileTrashed(i) => Trash(s, i)
    case FileReactivated(i) => Reactivate(s, i)
    case FolderMoved(x, p, name, key) => MoveFolder(s, x, p, name, key)
    case Drained(_, _, batch) => Drain(s, batch)
  }

  ghost predicate History(s: Tables, steps: seq<Step>, end: Tables)
    decreases |steps|
  {
    if steps == [] then end == s
    else Enabled(s, steps[0]) && History(Next(s, steps[0]), steps[1..], end)
  }

  lemma StepKeeps(s: Tables, step: Step)
    requires Good(s) && Enabled(s, step)
    ensures Good(Next(s, step))
  {
    hide Sound, Kept, Good, CreateRoot, CreateChild, Register, AddVersion, MoveFile, Trash, Reactivate, MoveFolder,
      Drain, Batch;
    KeptIsGood(s);
    match step {
      case RootCreated(w, key) => CreateRootKeeps(s, w, key);
      case ChildCreated(p, name, key) => CreateChildKeeps(s, p, name, key);
      case FileRegistered(f, name, key, size) => RegisterKeeps(s, f, name, key, size);
      case VersionAdded(i, size) => AddVersionKeeps(s, i, size);
      case FileMoved(i, f, name, key) => MoveFileKeeps(s, i, f, name, key);
      case FileTrashed(i) => TrashKeeps(s, i);
      case FileReactivated(i) => ReactivateKeeps(s, i);
      case FolderMoved(x, p, name, key) => MoveFolderKeeps(s, x, p, name, key);
      case Drained(_, _, batch) => DrainKeeps(s, batch);
    }
    KeptIsGood(Next(s, step));
  }

  lemma {:induction false} HistoryKeeps(s: Tables, steps: seq<Step>, end: Tables)
    requires Good(s) && History(s, steps, end)
    ensures Good(end)
    decreases |steps|
  {
    hide Good, Enabled, Next;
    if steps != [] {
      StepKeeps(s, steps[0]);
      HistoryKeeps(Next(s, steps[0]), steps[1..], end);
    }
  }

  /** Some history leads here from the empty instance. */
  ghost predicate Reached(s: Tables) {
    exists steps :: History(EMPTY, steps, s)
  }

  lemma ReachedGood(s: Tables)
    requires Reached(s)
    ensures Good(s)
  {
    hide History, Good;
    EmptyIsGood();
    var steps :| History(EMPTY, steps, s);
    HistoryKeeps(EMPTY, steps, s);
  }

  lemma ReachedFirst()
    ensures Reached(EMPTY)
  {
    assert History(EMPTY, [], EMPTY);
  }

  lemma {:induction false} HistoryOn(s: Tables, steps: seq<Step>, mid: Tables, step: Step)
    requires History(s, steps, mid) && Enabled(mid, step)
    ensures History(s, steps + [step], Next(mid, step))
    decreases |steps|
  {
    hide Enabled, Next;
    var more := steps + [step];
    if steps == [] {
      assert more[1..] == [];
    } else {
      HistoryOn(Next(s, steps[0]), steps[1..], mid, step);
      assert more[1..] == steps[1..] + [step];
    }
  }

  lemma ReachedOn(s: Tables, step: Step)
    requires Reached(s) && Enabled(s, step)
    ensures Reached(Next(s, step)) && Good(Next(s, step))
  {
    hide History, Enabled, Next, Good;
    var steps :| History(EMPTY, steps, s);
    HistoryOn(EMPTY, steps, s, step);
    ReachedGood(Next(s, step));
  }

  lemma EmptyIsGood()
    ensures Good(EMPTY)
  {
  }

  /** In every reachable state each folder's stored total plus what is queued beneath it is its live files. */
  lemma Reachable(steps: seq<Step>, end: Tables)
    requires History(EMPTY, steps, end)
    ensures Sound(end)
    ensures forall i, j :: i in end.file && j in end.file && end.file[i].live && end.file[j].live ==>
      end.file[i].folder == end.file[j].folder && end.file[i].key == end.file[j].key ==> i == j
    ensures forall a, u :: a in end.folder ==> Stored(end, a, u) + QueuedUnder(end, a, u) == Truth(end, a, u)
  {
    hide History;
    EmptyIsGood();
    HistoryKeeps(EMPTY, steps, end);
    forall a, u | a in end.folder ensures Stored(end, a, u) + QueuedUnder(end, a, u) == Truth(end, a, u) {
      assert Accounted(end, a);
    }
  }

  /** Reachable with nothing pending: the drift check finds nothing to correct. */
  lemma NoDrift(steps: seq<Step>, end: Tables, a: nat, u: Unit)
    requires History(EMPTY, steps, end) && a in end.folder && !Pending(end, a)
    ensures Stored(end, a, u) == Truth(end, a, u)
  {
    hide History, Pending;
    EmptyIsGood();
    HistoryKeeps(EMPTY, steps, end);
    SettledIsExact(end, a, u);
  }

  /**
   From any reachable state a batch goes through exactly if what it leaves queued exceeds the live files beneath no
   folder, and otherwise changes nothing. One that holds the workspace's whole queue goes through, empties it and makes
   every total exact.
  */
  lemma SettlesInOneDrain(steps: seq<Step>, s: Tables, workspace: nat, limit: nat, batch: set<nat>, a: nat, u: Unit)
    requires History(EMPTY, steps, s) && a in s.folder && s.folder[a].workspace == workspace
    requires Batch(QueuedIn(s, workspace), limit, batch)
    ensures Drain(s, batch) == if Exceeds(s, batch) then s else Apply(s, batch)
    ensures |QueuedIn(s, workspace)| <= limit ==>
      QueuedIn(Drain(s, batch), workspace) == {} && Stored(Drain(s, batch), a, u) == Truth(Drain(s, batch), a, u)
  {
    hide History, Good, Countable, Rolled, Linked, Filed, Consistent, Exceeds, QueuedIn, Apply;
    EmptyIsGood();
    HistoryKeeps(EMPTY, steps, s);
    BatchGoesThrough(s, batch);
    if |QueuedIn(s, workspace)| <= limit {
      WholeBatch(QueuedIn(s, workspace), limit, batch);
      WholeDrain(s, workspace, a, u);
    }
  }

  lemma WholeBatch(ids: set<nat>, limit: nat, batch: set<nat>)
    requires Batch(ids, limit, batch) && |ids| <= limit
    ensures batch == ids
  {
    if batch != ids {
      FullBatch(ids, limit, batch);
    }
  }

  lemma WholeDrain(s: Tables, workspace: nat, a: nat, u: Unit)
    requires Good(s) && a in s.folder && s.folder[a].workspace == workspace
    ensures var s' := Drain(s, QueuedIn(s, workspace));
      QueuedIn(s', workspace) == {} && Stored(s', a, u) == Truth(s', a, u)
  {
    hide Countable, Rolled, Linked, Filed, Consistent, OneRoot, SiblingsDiffer, RootsUnnamed, LiveNamesDiffer, Numbered;
    FullDrainGoesThrough(s, workspace);
    FullDrainExact(s, workspace, a, u);
    ApplyStored(s, QueuedIn(s, workspace), a, u);
  }
}
