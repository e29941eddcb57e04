/**
 Folder totals and the delta queue that feeds them (aggregates.py): what "stored plus queued equals
 the live files" means, and the equivalent equation that looks at one folder and its children only.
*/
module Rollup {
  import opened Common
  import opened Totals
  import opened FolderTree

  /** The two numbers every total carries. */
  datatype Unit = Files | Bytes

  /** One `folder_aggregate` row. */
  datatype Aggregate = Aggregate(files: int, bytes: int) {
    function Of(u: Unit): int {
      match u
      case Files => files
      case Bytes => bytes
    }
  }

  /** One `file` row with the size of its current version. */
  datatype File = File(workspace: nat, folder: nat, name: string, key: string, live: bool, size: nat) {
    /** What it adds to a total: trashed files add nothing. */
    function Weight(u: Unit): int {
      if !live then 0
      else
        match u
        case Files => 1
        case Bytes => size
    }
  }

  /** One `folder_delta` row: an amount owed to a folder and to every ancestor it has when drained. */
  datatype Delta = Delta(workspace: nat, folder: nat, files: int, bytes: int) {
    function Of(u: Unit): int {
      match u
      case Files => files
      case Bytes => bytes
    }
  }

  /** The tables, without the closure: that one is derived, and `FolderTree.Exact` says from what. */
  datatype Tables = Tables(
    folder: Tree, file: map<nat, File>, aggregate: map<nat, Aggregate>, delta: map<nat, Delta>,
    nextId: nat, nextDelta: nat)

  // ------------------------------------------------------------------ amounts filed under folders

  datatype Entry = Entry(folder: nat, value: int)

  type Ledger = map<nat, Entry>

  ghost function At(e: Ledger, a: nat): map<nat, int> {
    map k | k in e && e[k].folder == a :: e[k].value
  }

  ghost function Under(t: Tree, e: Ledger, a: nat): map<nat, int> {
    map k | k in e && Above(t, a, e[k].folder) :: e[k].value
  }

  ghost function UnderChildren(t: Tree, e: Ledger, a: nat): map<nat, int> {
    map c | c in t && t[c].parent == Some(a) :: Total(Under(t, e, c))
  }

  /** Adding one entry adds its value exactly where its folder is met. */
  lemma UnderPut(t: Tree, e: Ledger, k: nat, v: Entry, a: nat)
    requires k !in e
    ensures Total(Under(t, e[k := v], a)) == Total(Under(t, e, a)) + (if Above(t, a, v.folder) then v.value else 0)
  {
    if Above(t, a, v.folder) {
      assert Under(t, e[k := v], a) == Under(t, e, a)[k := v.value];
      Put(Under(t, e, a), k, v.value);
    } else {
      assert Under(t, e[k := v], a) == Under(t, e, a);
    }
  }

  lemma AtPut(e: Ledger, k: nat, v: Entry, a: nat)
    requires k !in e
    ensures Total(At(e[k := v], a)) == Total(At(e, a)) + (if a == v.folder then v.value else 0)
  {
    if a == v.folder {
      assert At(e[k := v], a) == At(e, a)[k := v.value];
      Put(At(e, a), k, v.value);
    } else {
      assert At(e[k := v], a) == At(e, a);
    }
  }

  /** Two maps that differ by `v` at one key at most. */
  lemma Bump(before: map<nat, int>, after: map<nat, int>, c: Option<nat>, v: int)
    requires after.Keys == before.Keys && (c.Some? ==> c.value in before)
    requires forall d :: d in before ==> after[d] == before[d] + (if c == Some(d) then v else 0)
    ensures Total(after) == Total(before) + (if c.Some? then v else 0)
  {
    hide Total;
    if c.Some? {
      Change(before, c.value, before[c.value] + v);
      assert after == before[c.value := before[c.value] + v];
    } else {
      assert after == before;
    }
  }

  /** At most one child of `a` lies above a given folder. */
  lemma OneChildAbove(t: Tree, a: nat, f: nat) returns (c: Option<nat>)
    requires Linked(t)
    ensures c.Some? <==> Above(t, a, f) && a != f
    ensures c.Some? ==> c.value in t && t[c.value].parent == Some(a)
    ensures forall e :: e in t && t[e].parent == Some(a) ==> (Above(t, e, f) <==> c == Some(e))
  {
    if Above(t, a, f) && a != f {
      var d := Toward(t, a, f);
      c := Some(d);
    } else {
      c := None;
      forall e | e in t && t[e].parent == Some(a) ensures !Above(t, e, f) {
        if Above(t, e, f) {
          ParentAbove(t, a, e);
          Transitive(t, a, e, f);
          Bounds(t, e, f);
        }
      }
    }
  }

  lemma UnderChildrenPut(t: Tree, e: Ledger, k: nat, v: Entry, a: nat)
    requires Linked(t) && k !in e
    ensures Total(UnderChildren(t, e[k := v], a))
         == Total(UnderChildren(t, e, a)) + (if Above(t, a, v.folder) && a != v.folder then v.value else 0)
  {
    var c := OneChildAbove(t, a, v.folder);
    forall d | d in t && t[d].parent == Some(a)
      ensures Total(Under(t, e[k := v], d)) == Total(Under(t, e, d)) + (if c == Some(d) then v.value else 0)
    {
      UnderPut(t, e, k, v, d);
    }
    Bump(UnderChildren(t, e, a), UnderChildren(t, e[k := v], a), c, v.value);
  }

  /** What lies under a folder is what it holds itself plus what lies under each child. */
  lemma {:induction false} UnderSplit(t: Tree, e: Ledger, a: nat)
    requires Linked(t) && a in t && (forall k :: k in e ==> e[k].folder in t)
    ensures Total(Under(t, e, a)) == Total(At(e, a)) + Total(UnderChildren(t, e, a))
    decreases |e|
  {
    if e == map[] {
      Zeros(UnderChildren(t, e, a));
    } else {
      var k :| k in e;
      var rest := e - {k};
      assert e == rest[k := e[k]];
      UnderSplit(t, rest, a);
      UnderPut(t, rest, k, e[k], a);
      AtPut(rest, k, e[k], a);
      UnderChildrenPut(t, rest, k, e[k], a);
    }
  }

  // ------------------------------------------------------------------ the equation

  ghost function Queue(s: Tables, u: Unit): Ledger {
    map k | k in s.delta :: Entry(s.delta[k].folder, s.delta[k].Of(u))
  }

  ghost function Live(s: Tables, u: Unit): Ledger {
    map i | i in s.file :: Entry(s.file[i].folder, s.file[i].Weight(u))
  }

  ghost function Stored(s: Tables, a: nat, u: Unit): int {
    if a in s.aggregate then s.aggregate[a].Of(u) else 0
  }

  /** `queued_under`: what the subtree's unapplied changes add up to. */
  ghost function QueuedUnder(s: Tables, a: nat, u: Unit): int {
    Total(Under(s.folder, Queue(s, u), a))
  }

  /** `ground_truth`: live files beneath the folder, and the bytes of their current versions. */
  ghost function Truth(s: Tables, a: nat, u: Unit): int {
    Total(Under(s.folder, Live(s, u), a))
  }

  ghost predicate Accounted(s: Tables, a: nat) {
    forall u :: Stored(s, a, u) + QueuedUnder(s, a, u) == Truth(s, a, u)
  }

  /** The rollup's promise: for every folder, the cached total plus what is queued beneath is the truth. */
  ghost predicate Consistent(s: Tables) {
    forall a :: a in s.folder ==> Accounted(s, a)
  }

  ghost function ChildStored(s: Tables, a: nat, u: Unit): map<nat, int> {
    map c | c in s.folder && s.folder[c].parent == Some(a) :: Stored(s, c, u)
  }

  /** How far one folder's own row is from explaining its total out of its children's totals. */
  ghost function Slack(s: Tables, a: nat, u: Unit): int {
    Stored(s, a, u) + Total(At(Queue(s, u), a)) - Total(At(Live(s, u), a)) - Total(ChildStored(s, a, u))
  }

  ghost predicate Balanced(s: Tables) {
    forall a, u :: a in s.folder ==> Slack(s, a, u) == 0
  }

  ghost function Defect(s: Tables, a: nat, u: Unit): int {
    Stored(s, a, u) + QueuedUnder(s, a, u) - Truth(s, a, u)
  }

  ghost function ChildDefects(s: Tables, a: nat, u: Unit): map<nat, int> {
    map c | c in s.folder && s.folder[c].parent == Some(a) :: Defect(s, c, u)
  }

  /** Rows only name folders that exist. */
  ghost predicate Filed(s: Tables) {
    (forall k :: k in s.delta ==>
      s.delta[k].folder in s.folder && s.delta[k].workspace == s.folder[s.delta[k].folder].workspace) &&
    (forall i :: i in s.file ==>
      s.file[i].folder in s.folder && s.file[i].workspace == s.folder[s.file[i].folder].workspace)
  }

  lemma DefectSplit(s: Tables, a: nat, u: Unit)
    requires Linked(s.folder) && Filed(s) && a in s.folder
    ensures Defect(s, a, u) == Slack(s, a, u) + Total(ChildDefects(s, a, u))
  {
    hide Total, Under, At;
    UnderSplit(s.folder, Queue(s, u), a);
    UnderSplit(s.folder, Live(s, u), a);
    var stored, queued, truth :=
      ChildStored(s, a, u), UnderChildren(s.folder, Queue(s, u), a), UnderChildren(s.folder, Live(s, u), a);
    var owed := map c | c in s.folder && s.folder[c].parent == Some(a) :: Stored(s, c, u) + QueuedUnder(s, c, u);
    Add(stored, queued, owed);
    Add(ChildDefects(s, a, u), truth, owed);
  }

  lemma {:induction false} NoDefect(s: Tables, a: nat, u: Unit)
    requires Linked(s.folder) && Filed(s) && Balanced(s) && a in s.folder
    ensures Defect(s, a, u) == 0
    decreases Subtree(s.folder, a)
  {
    forall c | c in s.folder && s.folder[c].parent == Some(a) ensures Defect(s, c, u) == 0 {
      SmallerSubtree(s.folder, a, c);
      NoDefect(s, c, u);
    }
    Zeros(ChildDefects(s, a, u));
    DefectSplit(s, a, u);
  }

  lemma SmallerSubtree(t: Tree, a: nat, c: nat)
    requires Linked(t) && a in t && c in t && t[c].parent == Some(a)
    ensures Subtree(t, c) < Subtree(t, a)
  {
    ParentAbove(t, a, c);
    forall d | d in Subtree(t, c) ensures d in Subtree(t, a) {
      Transitive(t, a, c, d);
    }
    assert a in Subtree(t, a) && a !in Subtree(t, c);
  }

  /** The equation over whole subtrees holds everywhere exactly when the one-level equation does. */
  lemma LocalIsGlobal(s: Tables)
    requires Linked(s.folder) && Filed(s)
    ensures Balanced(s) <==> Consistent(s)
  {
    hide Slack, Under, Queue, Live, ChildStored, Total, Linked, Filed;
    if Balanced(s) {
      forall a | a in s.folder ensures Accounted(s, a) {
        forall u ensures Stored(s, a, u) + QueuedUnder(s, a, u) == Truth(s, a, u) {
          NoDefect(s, a, u);
        }
      }
    }
    if Consistent(s) {
      forall a, u | a in s.folder ensures Slack(s, a, u) == 0 {
        DefectSplit(s, a, u);
        forall c | c in s.folder && s.folder[c].parent == Some(a) ensures Defect(s, c, u) == 0 {
          assert Accounted(s, c);
        }
        Zeros(ChildDefects(s, a, u));
        assert Accounted(s, a);
      }
    }
  }
}
