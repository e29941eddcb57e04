/** What each transaction does, read off the rows and off the live files beneath a folder. */
module Effects {
  import opened Common
  import opened Totals
  import opened FolderTree
  import opened Rollup
  import opened Steps

  /** Only file rows and the queue were written. */
  predicate OnlyFiles(s: Tables, s': Tables) {
    s'.folder == s.folder && s'.aggregate == s.aggregate
  }

  /** One amount more is queued: so many files and bytes, owed to the folder. */
  predicate Owes(s: Tables, s': Tables, workspace: nat, folder: nat, files: int, bytes: int) {
    s'.delta == s.delta[s.nextDelta := Delta(workspace, folder, files, bytes)] && s'.nextDelta == s.nextDelta + 1
  }

  predicate OwesNothing(s: Tables, s': Tables) {
    s'.delta == s.delta && s'.nextDelta == s.nextDelta
  }

  /** There are so many files and bytes more, live, at the folder: beneath it and all above it, and nowhere else. */
  ghost predicate Gains(s: Tables, s': Tables, folder: nat, files: int, bytes: int) {
    forall a ::
      Truth(s', a, Files) == Truth(s, a, Files) + (if Above(s.folder, a, folder) then files else 0) &&
      Truth(s', a, Bytes) == Truth(s, a, Bytes) + (if Above(s.folder, a, folder) then bytes else 0)
  }

  /** Files are counted: as many as there are live rows at the folder or below. */
  lemma TruthCounts(s: Tables, a: nat, below: set<nat>)
    requires forall i :: i in below <==> i in s.file && s.file[i].live && Above(s.folder, a, s.file[i].folder)
    ensures Truth(s, a, Files) == |below|
  {
    var m := Under(s.folder, Live(s, Files), a);
    assert forall i :: i in m <==> i in s.file && Above(s.folder, a, s.file[i].folder);
    OnesAndZeros(m, below);
  }

  lemma {:induction false} OnesAndZeros(m: map<nat, int>, ones: set<nat>)
    requires ones <= m.Keys && forall k :: k in m ==> m[k] == if k in ones then 1 else 0
    ensures Total(m) == |ones|
    decreases |m|
  {
    if m != map[] {
      var k :| k in m;
      Pick(m, k);
      OnesAndZeros(m - {k}, ones - {k});
    }
  }

  ghost function Amount(row: File, u: Unit): int {
    if !row.live then 0 else if u == Files then 1 else row.size
  }

  lemma FilePut(s: Tables, s': Tables, i: nat, a: nat, u: Unit)
    requires i in s'.file && s'.file == s.file[i := s'.file[i]] && s'.folder == s.folder
    ensures Truth(s', a, u) == Truth(s, a, u)
      + (if Above(s.folder, a, s'.file[i].folder) then Amount(s'.file[i], u) else 0)
      - (if i in s.file && Above(s.folder, a, s.file[i].folder) then Amount(s.file[i], u) else 0)
  {
    hide Total, Above, Under;
    var bare, row := Live(s, u) - {i}, s'.file[i];
    assert Live(s', u) == bare[i := Entry(row.folder, row.Weight(u))];
    UnderPut(s.folder, bare, i, Entry(row.folder, row.Weight(u)), a);
    if i in s.file {
      assert Live(s, u) == bare[i := Entry(s.file[i].folder, s.file[i].Weight(u))];
      UnderPut(s.folder, bare, i, Entry(s.file[i].folder, s.file[i].Weight(u)), a);
    } else {
      assert Live(s, u) == bare;
    }
  }

  // ------------------------------------------------------------------ files

  /** A new live file, unless a live one holds its name; its folder is owed one file and its bytes. */
  lemma RegisterRows(s: Tables, f: nat, name: string, key: string, size: nat)
    requires Numbered(s) && f in s.folder
    ensures var s' := Register(s, f, name, key, size);
      if exists i :: i in s.file && s.file[i].live && s.file[i].folder == f && s.file[i].key == key then s' == s
      else
        OnlyFiles(s, s') && s.nextId !in s.file && s'.nextId == s.nextId + 1
        && s'.file == s.file[s.nextId := File(s.folder[f].workspace, f, name, key, true, size)]
        && Owes(s, s', s.folder[f].workspace, f, 1, size)
  {
  }

  lemma RegisterGains(s: Tables, f: nat, name: string, key: string, size: nat)
    requires Numbered(s) && f in s.folder
    requires forall i :: i in s.file && s.file[i].live ==> s.file[i].folder != f || s.file[i].key != key
    ensures Gains(s, Register(s, f, name, key, size), f, 1, size)
  {
    hide Numbered, Above, Truth, Register;
    RegisterRows(s, f, name, key, size);
    var s' := Register(s, f, name, key, size);
    forall a, u: Unit
      ensures Truth(s', a, u) == Truth(s, a, u) + if Above(s.folder, a, f) then (if u == Files then 1 else size) else 0
    {
      FilePut(s, s', s.nextId, a, u);
    }
  }

  /** The row has the new size, and a live one owes its folder the difference. */
  lemma AddVersionRows(s: Tables, i: nat, size: nat)
    requires i in s.file
    ensures var s', was := AddVersion(s, i, size), s.file[i];
      OnlyFiles(s, s') && s'.file == s.file[i := was.(size := size)] && s'.nextId == s.nextId &&
      if was.live && size != was.size then Owes(s, s', was.workspace, was.folder, 0, size - was.size) else OwesNothing(s, s')
  {
  }

  lemma AddVersionGains(s: Tables, i: nat, size: nat)
    requires i in s.file
    ensures Gains(s, AddVersion(s, i, size), s.file[i].folder, 0, if s.file[i].live then size - s.file[i].size else 0)
  {
    hide Above, Truth, AddVersion;
    AddVersionRows(s, i, size);
    var s', was := AddVersion(s, i, size), s.file[i];
    forall a, u: Unit
      ensures Truth(s', a, u) == Truth(s, a, u) +
        if Above(s.folder, a, was.folder) && u == Bytes && was.live then size - was.size else 0
    {
      FilePut(s, s', i, a, u);
    }
  }

  /** The row is filed under its new folder and name, unless it is live and a live one holds the name there. */
  lemma MoveFileRows(s: Tables, i: nat, f: nat, name: string, key: string)
    requires i in s.file && f in s.folder
    ensures var s', was := MoveFile(s, i, f, name, key), s.file[i];
      if was.live && exists j :: j in s.file && j != i && s.file[j].live && s.file[j].folder == f && s.file[j].key == key
      then s' == s
      else
        OnlyFiles(s, s') && s'.nextId == s.nextId
        && s'.file == s.file[i := File(s.folder[f].workspace, f, name, key, was.live, was.size)]
        && if was.live && f != was.folder then
             s'.nextDelta == s.nextDelta + 2
             && s'.delta == s.delta[s.nextDelta := Delta(was.workspace, was.folder, -1, 0 - was.size)]
                              [s.nextDelta + 1 := Delta(s.folder[f].workspace, f, 1, was.size)]
           else OwesNothing(s, s')
  {
  }

  /** What leaves one chain of folders joins the other. */
  lemma MoveFileShifts(s: Tables, i: nat, f: nat, name: string, key: string, a: nat, u: Unit)
    requires i in s.file && f in s.folder
    requires s.file[i].live ==>
      forall j :: j in s.file && j != i && s.file[j].live ==> s.file[j].folder != f || s.file[j].key != key
    ensures var was := s.file[i];
      var amount := if !was.live then 0 else if u == Files then 1 else was.size;
      Truth(MoveFile(s, i, f, name, key), a, u) == Truth(s, a, u)
        - (if Above(s.folder, a, was.folder) then amount else 0) + (if Above(s.folder, a, f) then amount else 0)
  {
    hide Above, Truth, MoveFile;
    MoveFileRows(s, i, f, name, key);
    FilePut(s, MoveFile(s, i, f, name, key), i, a, u);
  }

  /** A live row leaves the index and its folder is owed the loss; any other is left alone. */
  lemma TrashRows(s: Tables, i: nat)
    requires i in s.file
    ensures var s', was := Trash(s, i), s.file[i];
      if !was.live then s' == s
      else
        OnlyFiles(s, s') && s'.file == s.file[i := was.(live := false)] && s'.nextId == s.nextId
        && Owes(s, s', was.workspace, was.folder, -1, 0 - was.size)
  {
  }

  lemma TrashLoses(s: Tables, i: nat)
    requires i in s.file
    ensures var was := s.file[i]; Gains(s, Trash(s, i), was.folder, if was.live then -1 else 0, if was.live then 0 - was.size else 0)
  {
    hide Above, Truth, Trash;
    TrashRows(s, i);
    var s', was := Trash(s, i), s.file[i];
    forall a, u: Unit
      ensures Truth(s', a, u) == Truth(s, a, u) -
        if Above(s.folder, a, was.folder) && was.live then (if u == Files then 1 else was.size) else 0
    {
      if was.live {
        FilePut(s, s', i, a, u);
      }
    }
  }

  /** A trashed row comes back and its folder is owed the gain, unless a live one holds its name by now. */
  lemma ReactivateRows(s: Tables, i: nat)
    requires i in s.file
    ensures var s', was := Reactivate(s, i), s.file[i];
      if was.live || exists j :: j in s.file && j != i && s.file[j].live && s.file[j].folder == was.folder && s.file[j].key == was.key
      then s' == s
      else
        OnlyFiles(s, s') && s'.file == s.file[i := was.(live := true)] && s'.nextId == s.nextId
        && Owes(s, s', was.workspace, was.folder, 1, was.size)
  {
  }

  lemma ReactivateGains(s: Tables, i: nat)
    requires i in s.file && !s.file[i].live
    requires forall j :: j in s.file && s.file[j].live ==>
      s.file[j].folder != s.file[i].folder || s.file[j].key != s.file[i].key
    ensures Gains(s, Reactivate(s, i), s.file[i].folder, 1, s.file[i].size)
  {
    hide Above, Truth, Reactivate;
    ReactivateRows(s, i);
    var s', was := Reactivate(s, i), s.file[i];
    forall a, u: Unit
      ensures Truth(s', a, u) == Truth(s, a, u) +
        if Above(s.folder, a, was.folder) then (if u == Files then 1 else was.size) else 0
    {
      FilePut(s, s', i, a, u);
    }
  }

  // ------------------------------------------------------------------ folders

  /** One folder more, with a total of nothing. */
  predicate Gets(s: Tables, s': Tables, row: Folder) {
    s' == s.(folder := s.folder[s.nextId := row], aggregate := s.aggregate[s.nextId := Aggregate(0, 0)], nextId := s.nextId + 1)
  }

  /** One root per workspace. */
  lemma CreateRootRows(s: Tables, workspace: nat, key: string)
    ensures var s' := CreateRoot(s, workspace, key);
      if exists f :: f in s.folder && s.folder[f].parent == None && s.folder[f].workspace == workspace then s' == s
      else Gets(s, s', Folder(workspace, None, "", key, 0))
  {
  }

  /** One child per name, and none where a file of any state holds the name. */
  lemma CreateChildRows(s: Tables, parent: nat, name: string, key: string)
    requires parent in s.folder
    ensures var s' := CreateChild(s, parent, name, key);
      if (exists c :: c in s.folder && s.folder[c].parent == Some(parent) && s.folder[c].key == key) ||
         (exists i :: i in s.file && s.file[i].folder == parent && s.file[i].key == key)
      then s' == s
      else Gets(s, s', Folder(s.folder[parent].workspace, Some(parent), name, key, s.folder[parent].depth + 1))
  {
  }

  /** What a move of a folder writes: the subtree hung elsewhere, and its rows re-tagged. */
  lemma MoveFolderRows(s: Tables, x: nat, p: nat, name: string, key: string)
    requires x in s.folder && p in s.folder && x in s.aggregate && MoveAllowed(s, x, p, key)
    ensures var s' := MoveFolder(s, x, p, name, key);
      s'.folder == Hang(s.folder, x, p, name, key) && s'.aggregate == s.aggregate && s'.file.Keys == s.file.Keys &&
      forall i :: i in s.file ==> s'.file[i] == s.file[i].(workspace :=
        if Above(s.folder, x, s.file[i].folder) then s.folder[p].workspace else s.file[i].workspace)
  {
    hide Hang, Above, MoveAllowed;
  }

  /** And queues: what was owed in the subtree goes with it, and the stored total leaves one chain and joins the other. */
  lemma MoveFolderOwes(s: Tables, x: nat, p: nat, name: string, key: string)
    requires x in s.folder && p in s.folder && x in s.aggregate && MoveAllowed(s, x, p, key)
    ensures var s', total, from := MoveFolder(s, x, p, name, key), s.aggregate[x], s.folder[x].parent.value;
      (forall k :: k in s.delta && k < s.nextDelta ==> k in s'.delta && s'.delta[k] == s.delta[k].(workspace :=
        if Above(s.folder, x, s.delta[k].folder) then s.folder[p].workspace else s.delta[k].workspace)) &&
      if total == Aggregate(0, 0) then s'.nextDelta == s.nextDelta
      else
        s'.nextDelta == s.nextDelta + 2 && s.nextDelta in s'.delta && s.nextDelta + 1 in s'.delta
        && s'.delta[s.nextDelta] == Delta(s.folder[x].workspace, from, -total.files, -total.bytes)
        && s'.delta[s.nextDelta + 1] == Delta(s.folder[p].workspace, p, total.files, total.bytes)
  {
    hide Hang, Above, MoveAllowed;
  }

  /** Everything live beneath the folder leaves the chain it hung under and joins the one it hangs under now. */
  lemma MoveFolderShifts(s: Tables, x: nat, p: nat, name: string, key: string, a: nat, u: Unit)
    requires Linked(s.folder) && x in s.folder && p in s.folder && x in s.aggregate && MoveAllowed(s, x, p, key)
    ensures var s' := MoveFolder(s, x, p, name, key);
      Truth(s', a, u) == if Above(s.folder, x, a) then Truth(s, a, u)
        else Truth(s, a, u) - (if Above(s.folder, a, x) then Truth(s, x, u) else 0) + (if Above(s.folder, a, p) then Truth(s, x, u) else 0)
  {
    hide Total, Linked, Above, MoveFolder, Hang, MoveAllowed;
    MoveFolderRows(s, x, p, name, key);
    var s' := MoveFolder(s, x, p, name, key);
    assert Live(s', u) == Live(s, u);
    MoveAllowedOutside(s, x, p, key);
    forall d: nat
      ensures Above(s'.folder, a, d) <==>
        if Above(s.folder, x, a) || !Above(s.folder, x, d) then Above(s.folder, a, d) else Above(s.folder, a, p)
      ensures !Above(s.folder, x, a) && Above(s.folder, x, d) ==> (Above(s.folder, a, d) <==> Above(s.folder, a, x))
    {
      UnderMoved(s.folder, x, p, name, key, a, d);
    }
    if Above(s.folder, x, a) {
      assert Under(s'.folder, Live(s, u), a) == Under(s.folder, Live(s, u), a);
    } else {
      SplitUnder(s.folder, s.folder, Live(s, u), x, a, Above(s.folder, a, x));
      SplitUnder(s.folder, s'.folder, Live(s, u), x, a, Above(s.folder, a, p));
    }
  }

  lemma MoveAllowedOutside(s: Tables, x: nat, p: nat, key: string)
    requires x in s.folder && p in s.folder && MoveAllowed(s, x, p, key)
    ensures !Above(s.folder, x, p)
  {
  }

  /** Beneath `a`, but not beneath `x`. */
  ghost function Outside(t: Tree, e: Ledger, x: nat, a: nat): map<nat, int> {
    map k | k in e && Above(t, a, e[k].folder) && !Above(t, x, e[k].folder) :: e[k].value
  }

  lemma SplitUnder(t: Tree, t': Tree, e: Ledger, x: nat, a: nat, with: bool)
    requires forall d: nat :: Above(t', a, d) <==> if Above(t, x, d) then with else Above(t, a, d)
    ensures Total(Under(t', e, a)) == Total(Outside(t, e, x, a)) + if with then Total(Under(t, e, x)) else 0
  {
    hide Above, Total;
    if with {
      Join(Outside(t, e, x, a), Under(t, e, x), Under(t', e, a));
    } else {
      assert Under(t', e, a) == Outside(t, e, x, a);
    }
  }

  /** What lies beneath a folder once the subtree hangs elsewhere. */
  lemma UnderMoved(t: Tree, x: nat, p: nat, name: string, key: string, a: nat, d: nat)
    requires Linked(t) && x in t && p in t && !Above(t, x, p)
    ensures Above(Hang(t, x, p, name, key), a, d) <==>
      if Above(t, x, a) || !Above(t, x, d) then Above(t, a, d) else Above(t, a, p)
    ensures !Above(t, x, a) && Above(t, x, d) ==> (Above(t, a, d) <==> Above(t, a, x))
  {
    hide Above, Linked, Hang;
    HangAbove(t, x, p, name, key, a, d);
    if Above(t, x, a) && Above(t, a, p) {
      Transitive(t, x, a, p);
    }
    if Above(t, x, a) && Above(t, a, d) {
      Transitive(t, x, a, d);
    }
    if Above(t, a, x) && Above(t, x, d) {
      Transitive(t, a, x, d);
    }
    if Above(t, a, d) && Above(t, x, d) {
      Chain(t, a, x, d);
    }
  }
}
