/**
 The transactions that touch folders, files and totals, each as one step on the tables, and the proof
 that no interleaving of them breaks the rollup's equation.
*/
module Steps {
  import opened Common
  import opened Totals
  import opened FolderTree
  import opened Rollup
  import opened SlackMoves

  // ------------------------------------------------------------------ what the tables keep

  predicate SamePlace(a: File, b: File) {
    a.folder == b.folder && a.key == b.key
  }

  ghost predicate LiveNamesDiffer(file: map<nat, File>) {
    forall i, j :: i in file && j in file && file[i].live && file[j].live && SamePlace(file[i], file[j]) ==> i == j
  }

  ghost predicate Numbered(s: Tables) {
    (forall f :: f in s.folder ==> f < s.nextId) && (forall i :: i in s.file ==> i < s.nextId) &&
    (forall k :: k in s.delta ==> k < s.nextDelta)
  }

  ghost predicate Countable(aggregate: map<nat, Aggregate>) {
    forall a :: a in aggregate ==> aggregate[a].files >= 0 && aggregate[a].bytes >= 0
  }

  /** Constraints and foreign keys, all of which every step keeps. */
  ghost predicate Sound(s: Tables) {
    WellFormed(s.folder) && Filed(s) && LiveNamesDiffer(s.file) && Numbered(s) && Countable(s.aggregate) &&
    (forall f :: f in s.folder <==> f in s.aggregate)
  }

  /** What every committed transaction leaves behind. */
  ghost predicate Good(s: Tables) {
    Sound(s) && Consistent(s)
  }

  /** The same, spelled with the one-level equation the proofs work on. */
  ghost predicate Kept(s: Tables) {
    Sound(s) && Balanced(s)
  }

  lemma KeptIsGood(s: Tables)
    ensures Kept(s) <==> Good(s)
  {
    hide Linked, OneRoot, SiblingsDiffer, RootsUnnamed, LiveNamesDiffer, Filed, Balanced, Consistent, Countable,
      Numbered;
    if Sound(s) {
      LocalIsGlobal(s);
    }
  }

  const EMPTY := Tables(map[], map[], map[], map[], 0, 0)

  // ------------------------------------------------------------------ names already taken

  ghost predicate HasChild(s: Tables, parent: nat, key: string) {
    exists c :: c in s.folder && s.folder[c].parent == Some(parent) && s.folder[c].key == key
  }

  /** A file of any state holds the name: trashed rows count here. */
  ghost predicate HasFile(s: Tables, parent: nat, key: string) {
    exists i :: i in s.file && s.file[i].folder == parent && s.file[i].key == key
  }

  /** The partial unique index on live names, with `except` left out of the comparison. */
  ghost predicate LiveClash(s: Tables, folder: nat, key: string, except: nat) {
    exists i :: i in s.file && i != except && s.file[i].live && s.file[i].folder == folder && s.file[i].key == key
  }

  // ------------------------------------------------------------------ the steps

  /** `aggregates.record`: an amount owed, or nothing at all when both numbers are zero. */
  ghost function Record(s: Tables, workspace: nat, folder: nat, files: int, bytes: int): Tables {
    if files == 0 && bytes == 0 then s
    else s.(delta := s.delta[s.nextDelta := Delta(workspace, folder, files, bytes)], nextDelta := s.nextDelta + 1)
  }

  ghost function AddRow(s: Tables, row: Folder): Tables {
    s.(folder := s.folder[s.nextId := row], aggregate := s.aggregate[s.nextId := Aggregate(0, 0)], nextId := s.nextId + 1)
  }

  ghost function CreateRoot(s: Tables, workspace: nat, key: string): Tables {
    if exists f :: f in s.folder && s.folder[f].parent == None && s.folder[f].workspace == workspace then s
    else AddRow(s, Folder(workspace, None, "", key, 0))
  }

  ghost function CreateChild(s: Tables, parent: nat, name: string, key: string): Tables
    requires parent in s.folder
  {
    if HasFile(s, parent, key) || HasChild(s, parent, key) then s
    else AddRow(s, Folder(s.folder[parent].workspace, Some(parent), name, key, s.folder[parent].depth + 1))
  }

  ghost function Register(s: Tables, folder: nat, name: string, key: string, size: nat): Tables
    requires folder in s.folder
  {
    if LiveClash(s, folder, key, s.nextId) then s
    else
      var row := File(s.folder[folder].workspace, folder, name, key, true, size);
      Record(s.(file := s.file[s.nextId := row], nextId := s.nextId + 1), row.workspace, folder, 1, size)
  }

  /** New content: the folder owes the difference in size, and only while the file is live. */
  ghost function AddVersion(s: Tables, i: nat, size: nat): Tables
    requires i in s.file
  {
    var was := s.file[i];
    var s1 := s.(file := s.file[i := was.(size := size)]);
    if was.live then Record(s1, was.workspace, was.folder, 0, size - was.size) else s1
  }

  ghost function MoveFile(s: Tables, i: nat, folder: nat, name: string, key: string): Tables
    requires i in s.file && folder in s.folder
  {
    var was := s.file[i];
    if was.live && LiveClash(s, folder, key, i) then s
    else
      var row := was.(workspace := s.folder[folder].workspace, folder := folder, name := name, key := key);
      var s1 := s.(file := s.file[i := row]);
      if folder == was.folder || !was.live then s1
      else Record(Record(s1, was.workspace, was.folder, -1, 0 - was.size), row.workspace, folder, 1, was.size)
  }

  ghost function Trash(s: Tables, i: nat): Tables
    requires i in s.file
  {
    var was := s.file[i];
    if !was.live then s
    else Record(s.(file := s.file[i := was.(live := false)]), was.workspace, was.folder, -1, 0 - was.size)
  }

  ghost function Reactivate(s: Tables, i: nat): Tables
    requires i in s.file
  {
    var was := s.file[i];
    if was.live || LiveClash(s, was.folder, was.key, i) then s
    else
      var row := was.(live := true);
      Record(s.(file := s.file[i := row]), was.workspace, was.folder, 1, was.size)
  }

  /** The rows a folder move leaves, before its totals are shifted. */
  ghost function Carry(s: Tables, x: nat, p: nat, name: string, key: string): Tables
    requires x in s.folder && p in s.folder
  {
    var workspace := s.folder[p].workspace;
    s.(folder := Hang(s.folder, x, p, name, key),
       file := map i | i in s.file ::
         if Above(s.folder, x, s.file[i].folder) then s.file[i].(workspace := workspace) else s.file[i],
       delta := map k | k in s.delta ::
         if Above(s.folder, x, s.delta[k].folder) then s.delta[k].(workspace := workspace) else s.delta[k])
  }

  ghost predicate MoveAllowed(s: Tables, x: nat, p: nat, key: string)
    requires x in s.folder && p in s.folder
  {
    s.folder[x].parent.Some? && !Above(s.folder, x, p) &&
    ((s.folder[x].parent == Some(p) && s.folder[x].key == key) || (!HasChild(s, p, key) && !HasFile(s, p, key)))
  }

  /** `folders.relocate`: the stored total, and not the truth, leaves one chain and joins the other. */
  ghost function MoveFolder(s: Tables, x: nat, p: nat, name: string, key: string): Tables
    requires x in s.folder && p in s.folder && x in s.aggregate
  {
    if !MoveAllowed(s, x, p, key) then s
    else
      var from := s.folder[x].parent.value;
      var workspace := s.folder[x].workspace;
      var total := s.aggregate[x];
      Record(Record(Carry(s, x, p, name, key), workspace, from, -total.files, -total.bytes),
        s.folder[p].workspace, p, total.files, total.bytes)
  }

  // ------------------------------------------------------------------ one-step lemmas

  ghost function Of(files: int, bytes: int, u: Unit): int {
    if u == Files then files else bytes
  }

  lemma RecordMoves(s: Tables, workspace: nat, folder: nat, files: int, bytes: int, a: nat, u: Unit)
    requires Numbered(s)
    ensures Slack(Record(s, workspace, folder, files, bytes), a, u)
         == Slack(s, a, u) + (if a == folder then Of(files, bytes, u) else 0)
  {
    if files != 0 || bytes != 0 {
      var d := Delta(workspace, folder, files, bytes);
      PutDelta(s, s.nextDelta, d, a, u);
      SameRows(s.(delta := s.delta[s.nextDelta := d]), Record(s, workspace, folder, files, bytes), a, u);
    }
  }

  /** Counters and names take no part in the equation. */
  lemma SameRows(s: Tables, s': Tables, a: nat, u: Unit)
    requires s'.aggregate == s.aggregate && Queue(s', u) == Queue(s, u) && Live(s', u) == Live(s, u)
    requires s'.folder.Keys == s.folder.Keys && forall f :: f in s.folder ==> s'.folder[f].parent == s.folder[f].parent
    ensures Slack(s', a, u) == Slack(s, a, u)
  {
    assert ChildStored(s', a, u) == ChildStored(s, a, u);
  }

  // ------------------------------------------------------------------ each step keeps the tables sound

  lemma RecordSound(s: Tables, workspace: nat, folder: nat, files: int, bytes: int)
    requires Sound(s) && folder in s.folder && workspace == s.folder[folder].workspace
    ensures Sound(Record(s, workspace, folder, files, bytes))
  {
    hide WellFormed, LiveNamesDiffer, Countable;
  }

  lemma AddRowSound(s: Tables, row: Folder)
    requires Sound(s) && WellFormed(s.folder[s.nextId := row])
    ensures Sound(AddRow(s, row))
  {
    hide WellFormed, LiveNamesDiffer;
  }

  lemma FileSound(s: Tables, i: nat, row: File)
    requires Sound(s) && i < s.nextId && LiveNamesDiffer(s.file[i := row])
    requires row.folder in s.folder && row.workspace == s.folder[row.folder].workspace
    ensures Sound(s.(file := s.file[i := row]))
  {
    hide WellFormed, LiveNamesDiffer, Countable;
  }

  /** A live row may be written where no other live row holds its name. */
  lemma NoClash(file: map<nat, File>, s: Tables, i: nat, row: File)
    requires file == s.file && LiveNamesDiffer(file)
    requires row.live ==> !LiveClash(s, row.folder, row.key, i)
    ensures LiveNamesDiffer(file[i := row])
  {
  }

  // ------------------------------------------------------------------ each step keeps the equation

  lemma AddRowKeeps(s: Tables, row: Folder)
    requires Kept(s) && WellFormed(s.folder[s.nextId := row]) && row.parent != Some(s.nextId)
    ensures Kept(AddRow(s, row))
  {
    hide Linked, OneRoot, SiblingsDiffer, RootsUnnamed, LiveNamesDiffer, Filed, Slack, Countable;
    var s' := AddRow(s, row);
    AddRowSound(s, row);
    forall a, u | a in s'.folder ensures Slack(s', a, u) == 0 {
      var bare := s.(folder := s.folder[s.nextId := row], aggregate := s.aggregate[s.nextId := Aggregate(0, 0)]);
      SameRows(bare, s', a, u);
      if a == s.nextId {
        NewFolder(s, s.nextId, row, u);
      } else {
        AddFolder(s, s.nextId, row, a, u);
      }
    }
  }

  lemma CreateRootKeeps(s: Tables, workspace: nat, key: string)
    requires Kept(s)
    ensures Kept(CreateRoot(s, workspace, key))
  {
    hide Balanced, LiveNamesDiffer, Filed, Countable, Linked, OneRoot, SiblingsDiffer, RootsUnnamed;
    if CreateRoot(s, workspace, key) != s {
      RootFits(s.folder, s.nextId, workspace, key);
      AddRowKeeps(s, Folder(workspace, None, "", key, 0));
    }
  }

  lemma RootFits(t: Tree, f: nat, workspace: nat, key: string)
    requires WellFormed(t) && f !in t
    requires !exists g :: g in t && t[g].parent == None && t[g].workspace == workspace
    ensures WellFormed(t[f := Folder(workspace, None, "", key, 0)])
  {
  }

  lemma ChildFits(t: Tree, f: nat, p: nat, name: string, key: string)
    requires WellFormed(t) && f !in t && p in t && name != ""
    requires !exists c :: c in t && t[c].parent == Some(p) && t[c].key == key
    ensures WellFormed(t[f := Folder(t[p].workspace, Some(p), name, key, t[p].depth + 1)])
  {
    hide SiblingsDiffer, RootsUnnamed, OneRoot, Linked;
    var row := Folder(t[p].workspace, Some(p), name, key, t[p].depth + 1);
    RowLinked(t, f, row);
    RowDiffers(t, f, row);
  }

  lemma RowLinked(t: Tree, f: nat, row: Folder)
    requires Linked(t) && f !in t && row.parent.Some? && row.parent.value in t
    requires row.depth == t[row.parent.value].depth + 1 && row.workspace == t[row.parent.value].workspace
    ensures Linked(t[f := row])
  {
    assert t[row.parent.value].parent == t[row.parent.value].parent;
  }

  lemma RowDiffers(t: Tree, f: nat, row: Folder)
    requires SiblingsDiffer(t) && RootsUnnamed(t) && OneRoot(t) && f !in t && row.parent.Some? && row.name != ""
    requires !exists c :: c in t && t[c].parent == row.parent && t[c].key == row.key
    ensures SiblingsDiffer(t[f := row]) && RootsUnnamed(t[f := row]) && OneRoot(t[f := row])
  {
  }

  lemma CreateChildKeeps(s: Tables, parent: nat, name: string, key: string)
    requires Kept(s) && parent in s.folder && name != ""
    ensures Kept(CreateChild(s, parent, name, key))
  {
    hide Balanced, LiveNamesDiffer, Filed, Countable, Linked, OneRoot, SiblingsDiffer, RootsUnnamed;
    if !HasFile(s, parent, key) && !HasChild(s, parent, key) {
      ChildFits(s.folder, s.nextId, parent, name, key);
      AddRowKeeps(s, Folder(s.folder[parent].workspace, Some(parent), name, key, s.folder[parent].depth + 1));
    }
  }

  lemma FileWrittenKeeps(s: Tables, i: nat, row: File, files: int, bytes: int)
    requires Kept(s) && i in s.file && row.folder == s.file[i].folder && row.workspace == s.file[i].workspace
    requires forall u :: Of(files, bytes, u) == row.Weight(u) - s.file[i].Weight(u)
    requires LiveNamesDiffer(s.file[i := row])
    ensures Kept(Record(s.(file := s.file[i := row]), row.workspace, row.folder, files, bytes))
  {
    hide WellFormed, LiveNamesDiffer, Slack, Countable;
    var s1 := s.(file := s.file[i := row]);
    var s' := Record(s1, row.workspace, row.folder, files, bytes);
    FileSound(s, i, row);
    RecordSound(s1, row.workspace, row.folder, files, bytes);
    forall a, u | a in s'.folder ensures Slack(s', a, u) == 0 {
      PutFile(s, i, row, a, u);
      RecordMoves(s1, row.workspace, row.folder, files, bytes, a, u);
    }
  }

  lemma RegisterKeeps(s: Tables, folder: nat, name: string, key: string, size: nat)
    requires Kept(s) && folder in s.folder
    ensures Kept(Register(s, folder, name, key, size))
  {
    hide WellFormed, LiveNamesDiffer, Slack, Countable, LiveClash;
    if !LiveClash(s, folder, key, s.nextId) {
      var row := File(s.folder[folder].workspace, folder, name, key, true, size);
      var s0 := s.(nextId := s.nextId + 1);
      var s1 := s0.(file := s.file[s.nextId := row]);
      var s' := Record(s1, row.workspace, folder, 1, size);
      NoClash(s.file, s, s.nextId, row);
      FileSound(s0, s.nextId, row);
      RecordSound(s1, row.workspace, folder, 1, size);
      forall a, u | a in s'.folder ensures Slack(s', a, u) == 0 {
        SameRows(s, s0, a, u);
        AddFile(s0, s.nextId, row, a, u);
        RecordMoves(s1, row.workspace, folder, 1, size, a, u);
      }
    }
  }

  lemma AddVersionKeeps(s: Tables, i: nat, size: nat)
    requires Kept(s) && i in s.file
    ensures Kept(AddVersion(s, i, size))
  {
    hide WellFormed, Filed, Balanced, Countable;
    var was := s.file[i];
    FileWrittenKeeps(s, i, was.(size := size), 0, if was.live then size - was.size else 0);
  }

  lemma TrashKeeps(s: Tables, i: nat)
    requires Kept(s) && i in s.file
    ensures Kept(Trash(s, i))
  {
    hide WellFormed, Filed, Balanced, Countable;
    if s.file[i].live {
      FileWrittenKeeps(s, i, s.file[i].(live := false), -1, 0 - s.file[i].size);
    }
  }

  lemma ReactivateKeeps(s: Tables, i: nat)
    requires Kept(s) && i in s.file
    ensures Kept(Reactivate(s, i))
  {
    hide WellFormed, Filed, Balanced, Countable, LiveClash, LiveNamesDiffer;
    var was := s.file[i];
    if !was.live && !LiveClash(s, was.folder, was.key, i) {
      NoClash(s.file, s, i, was.(live := true));
      FileWrittenKeeps(s, i, was.(live := true), 1, was.size);
    }
  }

  lemma MovedFileSlack(s: Tables, i: nat, row: File, a: nat, u: Unit)
    requires Numbered(s) && i in s.file && s.file[i].live && row.live && row.size == s.file[i].size
    ensures var was, s1 := s.file[i], s.(file := s.file[i := row]);
      Slack(Record(Record(s1, was.workspace, was.folder, -1, 0 - was.size), row.workspace, row.folder, 1, was.size), a,
        u) == Slack(s, a, u)
  {
    hide Slack;
    var was, s1 := s.file[i], s.(file := s.file[i := row]);
    var s2 := Record(s1, was.workspace, was.folder, -1, 0 - was.size);
    PutFile(s, i, row, a, u);
    RecordMoves(s1, was.workspace, was.folder, -1, 0 - was.size, a, u);
    RecordMoves(s2, row.workspace, row.folder, 1, was.size, a, u);
  }

  lemma MoveFileKeeps(s: Tables, i: nat, folder: nat, name: string, key: string)
    requires Kept(s) && i in s.file && folder in s.folder
    ensures Kept(MoveFile(s, i, folder, name, key))
  {
    hide WellFormed, LiveNamesDiffer, Balanced, Countable, LiveClash, Record;
    var was := s.file[i];
    if !(was.live && LiveClash(s, folder, key, i)) {
      var row := was.(workspace := s.folder[folder].workspace, folder := folder, name := name, key := key);
      NoClash(s.file, s, i, row);
      FileSound(s, i, row);
      if folder != was.folder && was.live {
        RefiledKeeps(s, i, row);
      } else {
        RenamedKeeps(s, i, row);
      }
    }
  }

  lemma RefiledKeeps(s: Tables, i: nat, row: File)
    requires Kept(s) && i in s.file && s.file[i].live && row.live && row.size == s.file[i].size
    requires Sound(s.(file := s.file[i := row]))
    ensures var was, s1 := s.file[i], s.(file := s.file[i := row]);
      Kept(Record(Record(s1, was.workspace, was.folder, -1, 0 - was.size), row.workspace, row.folder, 1, was.size))
  {
    hide WellFormed, LiveNamesDiffer, Countable, Slack, Filed, Numbered, Record;
    var was, s1 := s.file[i], s.(file := s.file[i := row]);
    var s2 := Record(s1, was.workspace, was.folder, -1, 0 - was.size);
    var s' := Record(s2, row.workspace, row.folder, 1, was.size);
    FiledRow(s, i);
    FiledRow(s1, i);
    RecordSound(s1, was.workspace, was.folder, -1, 0 - was.size);
    RecordFolders(s1, was.workspace, was.folder, -1, 0 - was.size);
    RecordSound(s2, row.workspace, row.folder, 1, was.size);
    RecordFolders(s2, row.workspace, row.folder, 1, was.size);
    forall a, u | a in s'.folder ensures Slack(s', a, u) == 0 {
      MovedFileSlack(s, i, row, a, u);
    }
  }

  lemma FiledRow(s: Tables, i: nat)
    requires Filed(s) && i in s.file
    ensures s.file[i].folder in s.folder && s.folder[s.file[i].folder].workspace == s.file[i].workspace
  {
  }

  lemma RecordFolders(s: Tables, workspace: nat, folder: nat, files: int, bytes: int)
    ensures Record(s, workspace, folder, files, bytes).folder == s.folder
  {
  }

  lemma RenamedKeeps(s: Tables, i: nat, row: File)
    requires Kept(s) && i in s.file && row.live == s.file[i].live && row.size == s.file[i].size
    requires Sound(s.(file := s.file[i := row]))
    requires row.folder == s.file[i].folder || !row.live
    ensures Kept(s.(file := s.file[i := row]))
  {
    hide WellFormed, LiveNamesDiffer, Countable, Slack, Filed, Numbered;
    var s1 := s.(file := s.file[i := row]);
    forall a, u | a in s1.folder ensures Slack(s1, a, u) == 0 {
      PutFile(s, i, row, a, u);
    }
  }
}
