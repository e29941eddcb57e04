/** Folder moves and drains: the two kinds of step that change which totals a change belongs to. */
module Moves {
  import opened Common
  import opened Totals
  import opened FolderTree
  import opened Rollup
  import opened SlackMoves
  import opened Steps

  // ------------------------------------------------------------------ hanging a subtree elsewhere

  ghost predicate NameFree(t: Tree, p: nat, key: string, x: nat) {
    forall c :: c in t && c != x && t[c].parent == Some(p) ==> t[c].key != key
  }

  /** A non-root folder may be hung under any folder it does not contain, under a name free there. */
  ghost predicate CanHang(t: Tree, x: nat, p: nat, name: string, key: string) {
    x in t && p in t && t[x].parent.Some? && !Above(t, x, p) && name != "" && NameFree(t, p, key, x)
  }

  lemma HangRoots(t: Tree, x: nat, p: nat, name: string, key: string)
    requires Linked(t) && OneRoot(t) && RootsUnnamed(t) && CanHang(t, x, p, name, key)
    ensures OneRoot(Hang(t, x, p, name, key)) && RootsUnnamed(Hang(t, x, p, name, key))
  {
    var u := Hang(t, x, p, name, key);
    forall f | f in t ensures u[f].parent == None ==> t[f] == u[f] {
    }
  }

  lemma HangSiblings(t: Tree, x: nat, p: nat, name: string, key: string)
    requires SiblingsDiffer(t) && CanHang(t, x, p, name, key)
    ensures SiblingsDiffer(Hang(t, x, p, name, key))
  {
    var u := Hang(t, x, p, name, key);
    assert Above(t, x, x);
    forall f, g | f in u && g in u && u[f].parent.Some? && u[f].parent == u[g].parent && u[f].key == u[g].key
      ensures f == g
    {
      assert f != x ==> u[f].parent == t[f].parent && u[f].key == t[f].key;
      assert g != x ==> u[g].parent == t[g].parent && u[g].key == t[g].key;
    }
  }

  lemma HangKeeps(t: Tree, x: nat, p: nat, name: string, key: string)
    requires WellFormed(t) && CanHang(t, x, p, name, key)
    ensures WellFormed(Hang(t, x, p, name, key))
  {
    hide Linked, OneRoot, SiblingsDiffer, RootsUnnamed, NameFree;
    HangLinked(t, x, p, name, key);
    HangRoots(t, x, p, name, key);
    HangSiblings(t, x, p, name, key);
  }

  lemma CarryFiled(s: Tables, x: nat, p: nat, name: string, key: string)
    requires Filed(s) && x in s.folder && p in s.folder
    ensures Filed(Carry(s, x, p, name, key))
  {
  }

  lemma CarrySound(s: Tables, x: nat, p: nat, name: string, key: string)
    requires Sound(s) && CanHang(s.folder, x, p, name, key)
    ensures Sound(Carry(s, x, p, name, key))
  {
    hide WellFormed, Filed, Countable, NameFree;
    HangKeeps(s.folder, x, p, name, key);
    CarryFiled(s, x, p, name, key);
  }

  /** One child's stored total changes parents; no other term of the equation moves. */
  lemma CarryMoves(s: Tables, x: nat, p: nat, name: string, key: string, a: nat, u: Unit)
    requires x in s.folder && p in s.folder
    ensures Slack(Carry(s, x, p, name, key), a, u) == Slack(s, a, u)
      + (if s.folder[x].parent == Some(a) then Stored(s, x, u) else 0)
      - (if p == a then Stored(s, x, u) else 0)
  {
    hide Slack;
    var t := Hang(s.folder, x, p, name, key);
    assert Above(s.folder, x, x);
    Reparent(s, t, x, a, u);
    CarrySameQueue(s, x, p, name, key, u);
    SameRows(s.(folder := t), Carry(s, x, p, name, key), a, u);
  }

  lemma CarryNumbered(s: Tables, x: nat, p: nat, name: string, key: string)
    requires Numbered(s) && x in s.folder && p in s.folder
    ensures Numbered(Carry(s, x, p, name, key))
  {
  }

  lemma CarrySameQueue(s: Tables, x: nat, p: nat, name: string, key: string, u: Unit)
    requires x in s.folder && p in s.folder
    ensures var t := s.(folder := Hang(s.folder, x, p, name, key));
      Queue(Carry(s, x, p, name, key), u) == Queue(t, u) && Live(Carry(s, x, p, name, key), u) == Live(t, u)
  {
  }

  lemma MoveAllowedHangs(s: Tables, x: nat, p: nat, name: string, key: string)
    requires SiblingsDiffer(s.folder) && x in s.folder && p in s.folder && name != "" && MoveAllowed(s, x, p, key)
    ensures CanHang(s.folder, x, p, name, key)
  {
  }

  /** What leaves the old chain is what joins the new one: each of the four writes cancels another. */
  lemma ShiftBalances(s: Tables, x: nat, p: nat, name: string, key: string, a: nat, u: Unit)
    requires Numbered(s) && x in s.folder && p in s.folder && x in s.aggregate
    requires MoveAllowed(s, x, p, key) && s.folder[x].parent.Some?
    ensures Slack(MoveFolder(s, x, p, name, key), a, u) == Slack(s, a, u)
  {
    hide Slack, MoveAllowed, Hang;
    var from, total := s.folder[x].parent.value, s.aggregate[x];
    var s1 := Carry(s, x, p, name, key);
    var s2 := Record(s1, s.folder[x].workspace, from, -total.files, -total.bytes);
    CarryNumbered(s, x, p, name, key);
    CarryMoves(s, x, p, name, key, a, u);
    RecordMoves(s1, s.folder[x].workspace, from, -total.files, -total.bytes, a, u);
    RecordMoves(s2, s.folder[p].workspace, p, total.files, total.bytes, a, u);
  }

  lemma ShiftSound(s: Tables, x: nat, p: nat, name: string, key: string)
    requires Sound(s) && x in s.folder && p in s.folder && name != ""
    ensures Sound(MoveFolder(s, x, p, name, key))
  {
    hide Linked, OneRoot, SiblingsDiffer, RootsUnnamed, LiveNamesDiffer, Countable, CanHang, Filed, Numbered, Hang,
      NameFree;
    if MoveAllowed(s, x, p, key) {
      var from, total := s.folder[x].parent.value, s.aggregate[x];
      var s1 := Carry(s, x, p, name, key);
      MoveAllowedHangs(s, x, p, name, key);
      CarrySound(s, x, p, name, key);
      OldParentStays(s.folder, x, p, name, key);
      assert from in s1.folder && s1.folder[from].workspace == s.folder[x].workspace
        && s1.folder[p].workspace == s.folder[p].workspace;
      RecordSound(s1, s.folder[x].workspace, from, -total.files, -total.bytes);
      RecordSound(Record(s1, s.folder[x].workspace, from, -total.files, -total.bytes), s.folder[p].workspace, p,
        total.files, total.bytes);
    }
  }

  lemma MoveFolderKeeps(s: Tables, x: nat, p: nat, name: string, key: string)
    requires Kept(s) && x in s.folder && p in s.folder && name != ""
    ensures Kept(MoveFolder(s, x, p, name, key))
  {
    hide WellFormed, LiveNamesDiffer, Slack, Countable, Filed, Hang, HasFile, HasChild;
    ShiftSound(s, x, p, name, key);
    if MoveAllowed(s, x, p, key) {
      forall a, u | a in s.folder ensures Slack(MoveFolder(s, x, p, name, key), a, u) == 0 {
        ShiftBalances(s, x, p, name, key, a, u);
      }
      assert forall a :: a in MoveFolder(s, x, p, name, key).folder ==> a in s.folder;
    }
  }

  /** Neither the old parent nor the new one is inside what moves, so neither changes workspace. */
  lemma OldParentStays(t: Tree, x: nat, p: nat, name: string, key: string)
    requires Linked(t) && CanHang(t, x, p, name, key)
    ensures var from := t[x].parent.value;
      from in t && Hang(t, x, p, name, key)[from].workspace == t[x].workspace
      && Hang(t, x, p, name, key)[p].workspace == t[p].workspace
  {
    ParentAbove(t, t[x].parent.value, x);
  }

  // ------------------------------------------------------------------ draining

  /** The `limit` smallest ids: `ORDER BY id LIMIT limit`. */
  ghost predicate Batch(ids: set<nat>, limit: nat, batch: set<nat>) {
    batch <= ids && |batch| <= limit && (|batch| < limit ==> batch == ids) &&
    (forall b, o :: b in batch && o in ids && o !in batch ==> b < o)
  }

  ghost function QueuedIn(s: Tables, workspace: nat): set<nat> {
    set k | k in s.delta && s.delta[k].workspace == workspace
  }

  /** The claimed rows expanded over the ancestors they have now and summed per ancestor. */
  ghost function Rolled(s: Tables, batch: set<nat>, a: nat, u: Unit): int {
    Total(Under(s.folder, Claimed(s, batch, u), a))
  }

  ghost function Claimed(s: Tables, batch: set<nat>, u: Unit): Ledger {
    map k | k in batch && k in s.delta :: Entry(s.delta[k].folder, s.delta[k].Of(u))
  }

  function Unclaimed(delta: map<nat, Delta>, batch: set<nat>): map<nat, Delta> {
    map k | k in delta && k !in batch :: delta[k]
  }

  ghost function Apply(s: Tables, batch: set<nat>): Tables {
    s.(aggregate := map a | a in s.aggregate ::
         Aggregate(s.aggregate[a].files + Rolled(s, batch, a, Files),
           s.aggregate[a].bytes + Rolled(s, batch, a, Bytes)),
       delta := Unclaimed(s.delta, batch))
  }

  /** One drain. A total that would become negative violates a check, and the statement changes nothing. */
  ghost function Drain(s: Tables, batch: set<nat>): Tables {
    if Countable(Apply(s, batch).aggregate) then Apply(s, batch) else s
  }

  lemma RolledMoves(s: Tables, batch: set<nat>, a: nat, u: Unit)
    ensures QueuedUnder(s, a, u) == QueuedUnder(Apply(s, batch), a, u) + Rolled(s, batch, a, u)
  {
    Join(Under(s.folder, Queue(Apply(s, batch), u), a), Under(s.folder, Claimed(s, batch, u), a),
      Under(s.folder, Queue(s, u), a));
  }

  /** Whatever batch is claimed, each total gains exactly what its queue loses. */
  lemma ApplyKeeps(s: Tables, batch: set<nat>, a: nat)
    requires Accounted(s, a) && a in s.aggregate
    ensures Accounted(Apply(s, batch), a)
  {
    hide QueuedUnder, Truth, Rolled, Apply;
    forall u
      ensures Stored(Apply(s, batch), a, u) + QueuedUnder(Apply(s, batch), a, u) == Truth(Apply(s, batch), a, u)
    {
      RolledMoves(s, batch, a, u);
      ApplyStored(s, batch, a, u);
    }
  }

  lemma ApplyStored(s: Tables, batch: set<nat>, a: nat, u: Unit)
    requires a in s.aggregate
    ensures Stored(Apply(s, batch), a, u) == Stored(s, a, u) + Rolled(s, batch, a, u)
    ensures Truth(Apply(s, batch), a, u) == Truth(s, a, u)
  {
    assert Live(Apply(s, batch), u) == Live(s, u);
  }

  lemma DrainKeeps(s: Tables, batch: set<nat>)
    requires Good(s)
    ensures Good(Drain(s, batch))
  {
    hide Linked, OneRoot, SiblingsDiffer, RootsUnnamed, LiveNamesDiffer, Accounted;
    forall a | a in s.folder ensures Accounted(Apply(s, batch), a) {
      ApplyKeeps(s, batch, a);
    }
  }

  // ------------------------------------------------------------------ an empty queue

  ghost predicate Pending(s: Tables, a: nat) {
    exists k :: k in s.delta && Above(s.folder, a, s.delta[k].folder)
  }

  /** With nothing queued beneath it a folder's cached total is the truth, so `verify` has nothing to correct. */
  lemma SettledIsExact(s: Tables, a: nat, u: Unit)
    requires Consistent(s) && a in s.folder && !Pending(s, a)
    ensures Stored(s, a, u) == Truth(s, a, u)
  {
    assert Under(s.folder, Queue(s, u), a) == map[];
    assert Accounted(s, a);
  }

  lemma TruthNotNegative(s: Tables, a: nat, u: Unit)
    ensures Truth(s, a, u) >= 0
  {
    NotNegative(Under(s.folder, Live(s, u), a));
  }

  /** A folder's queue holds only its own workspace's rows, so one workspace's drain can empty it. */
  lemma OwnQueue(s: Tables, a: nat, k: nat)
    requires Linked(s.folder) && Filed(s) && k in s.delta && Above(s.folder, a, s.delta[k].folder)
    ensures a in s.folder && s.delta[k].workspace == s.folder[a].workspace
  {
    Bounds(s.folder, a, s.delta[k].folder);
  }

  lemma OthersUntouched(s: Tables, workspace: nat, a: nat, u: Unit)
    requires Linked(s.folder) && Filed(s) && a in s.folder && s.folder[a].workspace != workspace
    ensures Rolled(s, QueuedIn(s, workspace), a, u) == 0
  {
    forall k | k in QueuedIn(s, workspace) ensures !Above(s.folder, a, s.delta[k].folder) {
      if Above(s.folder, a, s.delta[k].folder) {
        OwnQueue(s, a, k);
      }
    }
    assert Under(s.folder, Claimed(s, QueuedIn(s, workspace), u), a) == map[];
  }

  // ------------------------------------------------------------------ when a batch goes through

  /** What stays queued beneath some folder is more than the live files beneath it. */
  ghost predicate Exceeds(s: Tables, batch: set<nat>) {
    exists a, u :: a in s.folder && QueuedUnder(Apply(s, batch), a, u) > Truth(s, a, u)
  }

  /** A total after the batch is the live files beneath, less what stays queued there. */
  lemma StoredBeyond(s: Tables, batch: set<nat>, a: nat, u: Unit)
    requires Good(s) && a in s.folder
    ensures a in s.aggregate && Stored(Apply(s, batch), a, u) + QueuedUnder(Apply(s, batch), a, u) == Truth(s, a, u)
    ensures Stored(s, a, u) >= 0 && Stored(Apply(s, batch), a, u) == Stored(s, a, u) + Rolled(s, batch, a, u)
  {
    hide WellFormed, LiveNamesDiffer, Filed, Numbered, Apply, QueuedUnder, Truth, Rolled;
    assert Accounted(s, a);
    ApplyKeeps(s, batch, a);
    ApplyStored(s, batch, a, u);
  }

  /** A batch is refused exactly when what is left behind in the queue exceeds the live files beneath some folder. */
  lemma BatchGoesThrough(s: Tables, batch: set<nat>)
    requires Good(s)
    ensures Countable(Apply(s, batch).aggregate) <==> !Exceeds(s, batch)
  {
    hide WellFormed, LiveNamesDiffer, Filed, Numbered, Consistent, QueuedUnder, Truth, Rolled;
    var s' := Apply(s, batch);
    forall a, u | a in s.folder ensures Stored(s', a, u) + QueuedUnder(s', a, u) == Truth(s, a, u) {
      StoredBeyond(s, batch, a, u);
    }
    forall a | a in s'.aggregate
      ensures Stored(s', a, Files) == s'.aggregate[a].files && Stored(s', a, Bytes) == s'.aggregate[a].bytes
    {
    }
    if !Exceeds(s, batch) {
      forall a, u | a in s'.aggregate ensures Stored(s', a, u) >= 0 {
        assert QueuedUnder(s', a, u) <= Truth(s, a, u);
      }
    }
  }

  /** Draining everything queued for a workspace always goes through... */
  lemma FullDrainGoesThrough(s: Tables, workspace: nat)
    requires Good(s)
    ensures !Exceeds(s, QueuedIn(s, workspace)) && Countable(Apply(s, QueuedIn(s, workspace)).aggregate)
  {
    hide OneRoot, SiblingsDiffer, RootsUnnamed, LiveNamesDiffer, Linked, Filed, Consistent, Numbered, Rolled, Truth,
      QueuedIn, Apply, QueuedUnder;
    var batch := QueuedIn(s, workspace);
    forall a, u | a in s.folder ensures QueuedUnder(Apply(s, batch), a, u) <= Truth(s, a, u) {
      if s.folder[a].workspace == workspace {
        NothingLeftQueued(s, workspace, a, u);
        TruthNotNegative(s, a, u);
      } else {
        OthersUntouched(s, workspace, a, u);
        StoredBeyond(s, batch, a, u);
      }
    }
    BatchGoesThrough(s, batch);
  }

  lemma NothingLeftQueued(s: Tables, workspace: nat, a: nat, u: Unit)
    requires Linked(s.folder) && Filed(s) && a in s.folder && s.folder[a].workspace == workspace
    ensures QueuedUnder(Apply(s, QueuedIn(s, workspace)), a, u) == 0
  {
    var s' := Apply(s, QueuedIn(s, workspace));
    forall k | k in s'.delta ensures !Above(s.folder, a, s'.delta[k].folder) {
      if Above(s.folder, a, s.delta[k].folder) {
        OwnQueue(s, a, k);
      }
    }
    assert Under(s.folder, Queue(s', u), a) == map[];
  }

  /** ...and leaves every total of that workspace equal to its live files. */
  lemma FullDrainExact(s: Tables, workspace: nat, a: nat, u: Unit)
    requires Linked(s.folder) && Filed(s) && Consistent(s)
    requires a in s.folder && a in s.aggregate && s.folder[a].workspace == workspace
    ensures Stored(Apply(s, QueuedIn(s, workspace)), a, u) == Truth(s, a, u)
  {
    hide Apply, QueuedUnder, Truth, Linked, Filed, QueuedIn;
    assert Accounted(s, a);
    ApplyKeeps(s, QueuedIn(s, workspace), a);
    ApplyStored(s, QueuedIn(s, workspace), a, u);
    NothingLeftQueued(s, workspace, a, u);
  }
}
