/** `reconcile._transfer`: an external rename recognised, and exactly when the totals come out right. */
module Renaming {
  import opened Common
  import opened Totals
  import opened FolderTree
  import opened Rollup
  import opened SlackMoves
  import opened Steps
  import opened Moves
  import opened Relinking
  import opened Expansion
  import opened Merging
  import opened Absorbing
  import opened Transferring
  import opened DatabaseModel

  /** Moving a folder inside its own parent is a change of name alone. */
  lemma RenameRows(t: Tree, x: nat, p: nat, name: string, key: string)
    requires Linked(t) && x in t && t[x].parent == Some(p)
    ensures p in t && Hang(t, x, p, name, key) == t[x := t[x].(name := name, key := key)]
  {
    assert t[x].parent.Some?;
    forall f | f in t && Above(t, x, f) ensures t[f].workspace == t[p].workspace {
      Bounds(t, x, f);
    }
  }

  lemma SameAncestry(c: Closure, t: Tree, u: Tree)
    requires Linked(t) && Linked(u) && Exact(c, t)
    requires t.Keys == u.Keys && forall f :: f in t ==> t[f].parent == u[f].parent && t[f].depth == u[f].depth
    ensures Exact(c, u)
  {
    forall a: nat, d: nat ensures Above(t, a, d) <==> Above(u, a, d) {
      SameAbove(t, u, a, d);
    }
  }

  lemma {:induction false} SameAbove(t: Tree, u: Tree, a: nat, d: nat)
    requires Linked(t) && t.Keys == u.Keys
    requires forall f :: f in t ==> t[f].parent == u[f].parent && t[f].depth == u[f].depth
    ensures Above(t, a, d) <==> Above(u, a, d)
    decreases if d in t then t[d].depth + 1 else 0
  {
    if d in t && t[d].parent.Some? {
      SameAbove(t, u, a, t[d].parent.value);
    }
  }

  /** `folders.reposition`: the rows go where the directory already is; the disk is not touched. */
  method Reposition(db: Database, x: nat, p: nat, name: string, key: string)
    requires db.Valid() && CanHang(db.folder, x, p, name, key) && db.folder[x].workspace == db.folder[p].workspace
    modifies db`folder, db`closure
    ensures db.Valid() && db.folder == Hang(old(db.folder), x, p, name, key)
  {
    hide OneRoot, SiblingsDiffer, RootsUnnamed, LiveNamesDiffer, Filed, Countable, Numbered, Exact, NameFree, Above,
      Hang;
    ghost var t := db.folder;
    HangSound(db.Rows(), x, p, name, key);
    if db.folder[x].parent != Some(p) {
      db.Rehang(x, p, name, key);
    } else {
      RenameRows(t, x, p, name, key);
      var row := db.folder[x];
      db.folder := db.folder[x := row.(name := name, key := key)];
      SameAncestry(db.closure, t, db.folder);
    }
  }

  // ------------------------------------------------------------------ the transfer

  /** Keys stay, and a survivor writes its name as the row it took over did. */
  ghost predicate SpellingsFollow(t: Tree, u: Tree, source: nat, m: Handover) {
    (forall f {:trigger u[f].key} :: f in u && f in t && f != source ==> u[f].key == t[f].key) &&
    (forall f {:trigger u[f].name} :: f in u && f in t && f != source && f !in m.Values ==> u[f].name == t[f].name) &&
    (forall g :: g in m && g in t && m[g] in u && m[g] != source ==> u[m[g]].name == t[g].name)
  }

  /** Everything but the totals: the stand-in's rows live on in the survivor, which has its place and name. */
  ghost predicate Transferred(s0: Tables, s: Tables, source: nat, destination: nat, m: Handover)
    requires source in s0.folder && destination in s0.folder
  {
    var all := m[destination := source];
    var parent := s0.folder[destination].parent;
    Within(s0.folder, source, destination, m) && Paired(s0.folder, source, destination, m) &&
    FilesFollow(s0.file, s.file, all) && TotalsFollow(s0.aggregate, s.aggregate, all) &&
    (forall f :: f in s.folder <==> f in s0.folder && f !in all) &&
    (forall f {:trigger s.folder[f].workspace} :: f in s.folder ==> s.folder[f].workspace == s0.folder[f].workspace) &&
    (forall f {:trigger s.folder[f].parent} :: f in s.folder ==>
      s.folder[f].parent == if f == source then parent else ViaParent(all, s0.folder[f].parent)) &&
    source in s.folder && s.folder[source].name == s0.folder[destination].name
    && s.folder[source].key == s0.folder[destination].key &&
    SpellingsFollow(s0.folder, s.folder, source, m) &&
    (forall k :: k in s0.delta ==> k in s.delta && s.delta[k] == s0.delta[k].(folder := Via(all, s0.delta[k].folder)))
  }

  /** The rows before anything is merged: the stand-in's queue and applied totals are handed over. */
  ghost function HandedFirst(s: Tables, source: nat, destination: nat): Tables
    requires source in s.aggregate && destination in s.aggregate
  {
    s.(delta := Repointed(s.delta, destination, source), aggregate := Inherited(s.aggregate, source, destination))
  }

  lemma HandedFirstMoves(s: Tables, source: nat, destination: nat, a: nat, u: Unit)
    requires source in s.folder && source in s.aggregate && destination in s.aggregate && source != destination
    ensures var q := Total(At(Queue(s, u), destination));
      Slack(HandedFirst(s, source, destination), a, u) == Slack(s, a, u)
        + (if a == source then q + Stored(s, destination, u) else 0) - (if a == destination then q else 0)
        - (if s.folder[source].parent == Some(a) then Stored(s, destination, u) else 0)
  {
    hide Slack;
    RepointMoves(s, destination, source, a, u);
    InheritMoves(s.(delta := Repointed(s.delta, destination, source)), source, destination, a, u);
  }

  /** Neither parent lies inside what is merged. */
  lemma ParentsOutside(t: Tree, source: nat, destination: nat, p0: nat, p: nat)
    requires Linked(t) && Apart(t, source, destination) && t[source].parent == Some(p0)
    requires t[destination].parent == Some(p)
    ensures p0 in t && p in t && !Inner(t, source, destination, p0) && !Inner(t, source, destination, p)
    ensures p0 != source && p0 != destination && p != source && p != destination
    ensures !Above(t, source, p) && !Above(t, destination, p0) && !Above(t, source, p0) && !Above(t, destination, p)
  {
    assert t[source].parent.Some? && t[destination].parent.Some?;
    ParentAbove(t, p0, source);
    ParentAbove(t, p, destination);
    if Above(t, source, p) { Transitive(t, source, p, destination); }
    if Above(t, destination, p0) { Transitive(t, destination, p0, source); }
    assert Above(t, source, source) && Above(t, destination, destination);
  }

  lemma HandedFirstQuiet(s: Tables, source: nat, destination: nat, p0: nat, p: nat)
    requires Linked(s.folder) && Balanced(s) && Apart(s.folder, source, destination)
    requires s.folder[source].parent == Some(p0) && s.folder[destination].parent == Some(p)
    requires source in s.aggregate && destination in s.aggregate
    ensures Quiet(HandedFirst(s, source, destination), source, destination)
  {
    hide Slack, Linked;
    ParentsOutside(s.folder, source, destination, p0, p);
    ApartDiffer(s.folder, source, destination);
    forall a, u | Inner(s.folder, source, destination, a)
      ensures Slack(HandedFirst(s, source, destination), a, u) == 0
    {
      HandedFirstMoves(s, source, destination, a, u);
      InnerIn(s.folder, source, destination, a);
    }
  }

  lemma InnerIn(t: Tree, into: nat, gone: nat, a: nat)
    requires Inner(t, into, gone, a)
    ensures a in t
  {
  }

  /** The last two writes of the transfer, as one step: the row moves, and differing parents are compensated. */
  ghost function Settled(s: Tables, source: nat, destination: nat, p0: nat, p: nat, name: string, key: string,
                         workspace: nat, files: int, bytes: int): Tables
    requires source in s.folder && p in s.folder && source != destination && p != destination
  {
    var s4 := s.(folder := s.folder - {destination}, aggregate := s.aggregate - {destination});
    var s5 := s4.(folder := Hang(s4.folder, source, p, name, key));
    if p0 == p then s5 else Record(Record(s5, workspace, p0, files, bytes), workspace, p, -files, -bytes)
  }

  lemma SettledMoves(s: Tables, source: nat, destination: nat, p0: nat, p: nat, name: string, key: string,
                     workspace: nat, files: int, bytes: int,
                     a: nat, u: Unit)
    requires Numbered(s) && source in s.folder && p in s.folder && destination in s.folder && source != destination
    requires p != destination
    requires s.folder[source].parent == Some(p0) && s.folder[destination].parent == Some(p) && a != destination
    ensures Slack(Settled(s, source, destination, p0, p, name, key, workspace, files, bytes), a, u) == Slack(s, a, u)
      + (if a == p then Stored(s, destination, u) - Stored(s, source, u) else 0)
      + (if a == p0 then Stored(s, source, u) else 0)
      + (if p0 != p && a == p0 then Of(files, bytes, u) else 0) - (if p0 != p && a == p then Of(files, bytes, u) else 0)
  {
    hide Slack, Hang;
    var s4 := s.(folder := s.folder - {destination}, aggregate := s.aggregate - {destination});
    var s5 := s4.(folder := Hang(s4.folder, source, p, name, key));
    DropFolder(s, destination, a, u);
    HangParents(s4.folder, source, p, name, key);
    Reparent(s4, s5.folder, source, a, u);
    assert Stored(s4, source, u) == Stored(s, source, u);
    if p0 != p {
      assert Numbered(s5) by { HangNumbered(s4, source, p, name, key); }
      RecordMoves(s5, workspace, p0, files, bytes, a, u);
      RecordMoves(Record(s5, workspace, p0, files, bytes), workspace, p, -files, -bytes, a, u);
    }
  }

  lemma HangNumbered(s: Tables, x: nat, p: nat, name: string, key: string)
    requires Numbered(s) && x in s.folder && p in s.folder
    ensures Numbered(s.(folder := Hang(s.folder, x, p, name, key)))
  {
  }

  /** What the emptied stand-in still carries into its deletion. */
  lemma StandInLeft(s0: Tables, s2: Tables, s3: Tables, source: nat, destination: nat, m: Handover, u: Unit)
    requires Linked(s2.folder) && Apart(s2.folder, source, destination) && MergedInto(s2, s3, source, destination, m)
    requires destination in s2.aggregate && source in s2.aggregate
    requires forall k :: k in s2.delta ==> s2.delta[k].folder != destination
    ensures Slack(s3, destination, u) == Stored(s2, destination, u)
    ensures Stored(s3, destination, u) == Stored(s2, destination, u)
    ensures Stored(s3, source, u) == Stored(s2, source, u)
    ensures forall k :: k in s3.delta ==> s3.delta[k].folder != destination
  {
    hide Linked, Above, Apart, Carried, Quiet, FoldersFollow, NamesFollow, FilesFollow, Slack, Within;
    ValuesWithin(s2.folder, source, destination, m);
    assert forall g :: g in m ==> m[g] in m.Values;
    EmptiedSlack(s3, destination, u);
  }

  /** The equation after the whole transfer, folder by folder: only the two parents can be off, by the same amount. */
  lemma TransferSlack(s0: Tables, s3: Tables, source: nat, destination: nat, m: Handover, p0: nat, p: nat,
                      name: string, key: string, workspace: nat, files: int, bytes: int, a: nat, u: Unit)
    requires Linked(s0.folder) && Balanced(s0) && Apart(s0.folder, source, destination) && source in s0.aggregate
    requires destination in s0.aggregate
    requires s0.folder[source].parent == Some(p0) && s0.folder[destination].parent == Some(p)
    requires MergedInto(HandedFirst(s0, source, destination), s3, source, destination, m) && Numbered(s3)
    requires source in s3.folder && destination in s3.folder && p in s3.folder && source != destination
    requires p != destination
    requires s3.folder[source].parent == Some(p0) && s3.folder[destination].parent == Some(p)
    requires Of(files, bytes, u) == QueuedUnder(s0, source, u)
    requires a in s3.folder && a != destination
    ensures Slack(Settled(s3, source, destination, p0, p, name, key, workspace, files, bytes), a, u) ==
      if p0 == p then 0
      else if a == p0 then Stored(s0, source, u) + QueuedUnder(s0, source, u)
      else if a == p then -(Stored(s0, source, u) + QueuedUnder(s0, source, u))
      else 0
  {
    hide Slack, Linked, Settled, Inner, Apart, Quotient, Within, Emptied, QueuedUnder;
    var s2 := HandedFirst(s0, source, destination);
    ApartRows(s0.folder, source, destination);
    ParentsOutside(s0.folder, source, destination, p0, p);
    HandedFirstQuiet(s0, source, destination, p0, p);
    HandedFirstMoves(s0, source, destination, a, u);
    HandedFirstMoves(s0, source, destination, source, u);
    HandedFirstMoves(s0, source, destination, destination, u);
    NothingLeft(s0, source, destination);
    StandInLeft(s0, s2, s3, source, destination, m, u);
    InheritedTotals(s0, source, destination, u);
    SettledMoves(s3, source, destination, p0, p, name, key, workspace, files, bytes, a, u);
    SurvivorsIn(s0, s2, s3, source, destination, m, a);
    assert Slack(s0, source, u) == 0 && Slack(s0, destination, u) == 0 && Slack(s0, a, u) == 0;
  }

  lemma NothingLeft(s: Tables, source: nat, destination: nat)
    requires source in s.aggregate && destination in s.aggregate && source != destination
    ensures forall k :: k in HandedFirst(s, source, destination).delta ==>
      HandedFirst(s, source, destination).delta[k].folder != destination
  {
  }

  lemma InheritedTotals(s: Tables, source: nat, destination: nat, u: Unit)
    requires source in s.aggregate && destination in s.aggregate && source != destination
    ensures Stored(HandedFirst(s, source, destination), source, u) == Stored(s, source, u) + Stored(s, destination, u)
    ensures Stored(HandedFirst(s, source, destination), destination, u) == Stored(s, destination, u)
  {
  }

  lemma SurvivorsIn(s0: Tables, s2: Tables, s3: Tables, source: nat, destination: nat, m: Handover, a: nat)
    requires s2.folder == s0.folder && MergedInto(s2, s3, source, destination, m) && a in s3.folder
    ensures a in s0.folder
  {
  }

  /** The survivor may be hung where the stand-in was: its parent is outside and its name is free. */
  lemma PlaceFree(s2: Tables, s3: Tables, source: nat, destination: nat, m: Handover, p0: nat, p: nat)
    requires WellFormed(s2.folder) && Linked(s3.folder) && Apart(s2.folder, source, destination)
    requires s2.folder[source].parent == Some(p0) && s2.folder[destination].parent == Some(p)
    requires MergedInto(s2, s3, source, destination, m)
    ensures source in s3.folder && destination in s3.folder && p in s3.folder && source != destination
    ensures p != destination
    ensures s3.folder[source].parent == Some(p0) && s3.folder[destination].parent == Some(p)
    ensures s3.folder[destination].name == s2.folder[destination].name
    ensures s3.folder[destination].key == s2.folder[destination].key
    ensures s3.folder[source].workspace == s3.folder[p].workspace == s2.folder[source].workspace
    ensures CanHang(s3.folder - {destination}, source, p, s2.folder[destination].name, s2.folder[destination].key)
    ensures !Above(s3.folder - {destination}, source, p)
  {
    hide Linked, Above, OneRoot, Carried, Quiet, FilesFollow, DeltasFollow, TotalsFollow, Emptied, Within, Apart,
      SiblingsDiffer;
    var t, u := s2.folder, s3.folder;
    var all := m[destination := source];
    ApartRows(t, source, destination);
    ApartDiffer(t, source, destination);
    ValuesWithin(t, source, destination, m);
    ParentsOutside(t, source, destination, p0, p);
    ParentsKept(t, source, destination, m, p0, p);
    assert forall g :: g in m ==> m[g] in m.Values;
    ParentShares(t, p, destination);
    NothingAbove(t, u, source, destination, m, p);
    LeafOff(u, destination, source, p) by { EmptiedRows(s3, destination); }
    forall c | c in u && c != source && c != destination && u[c].parent == Some(p)
      ensures u[c].key != t[destination].key
    {
      OnlyStandIn(t, u, source, destination, m, p, c);
    }
  }

  lemma EmptiedRows(s: Tables, f: nat)
    requires Emptied(s, f)
    ensures forall c :: c in s.folder ==> s.folder[c].parent != Some(f)
  {
  }

  /** No parent of the two folders is handed over, nor taken over for. */
  lemma ParentsKept(t: Tree, source: nat, destination: nat, m: Handover, p0: nat, p: nat)
    requires Linked(t) && Apart(t, source, destination) && Within(t, source, destination, m)
    requires !Above(t, destination, p0) && !Above(t, destination, p) && !Above(t, source, p)
    ensures p0 !in m[destination := source] && p !in m[destination := source]
    ensures p != source && forall g :: g in m ==> m[g] != p
  {
    assert Above(t, destination, destination) && Above(t, source, source);
  }

  lemma NothingAbove(t: Tree, u: Tree, source: nat, destination: nat, m: Handover, p: nat)
    requires Linked(t) && Linked(u) && FoldersFollow(t, u, m, m[destination := source])
    requires Within(t, source, destination, m)
    requires p in t && p !in m && !Above(t, source, p) && !Above(t, destination, p) && Apart(t, source, destination)
    requires t[destination].parent == Some(p)
    ensures !Above(u, source, p)
  {
    hide FoldersFollow;
    forall g | g in m[destination := source] ensures !StrictlyAbove(t, g, p) {
      if g in m && Above(t, g, p) {
        Transitive(t, destination, g, p);
      }
    }
    ChainUntouched(t, u, m, m[destination := source], source, p);
  }

  lemma OnlyStandIn(t: Tree, u: Tree, source: nat, destination: nat, m: Handover, p: nat, c: nat)
    requires SiblingsDiffer(t) && FoldersFollow(t, u, m, m[destination := source]) && destination in t
    requires p != source && (forall g :: g in m ==> m[g] != p) && t[destination].parent == Some(p)
    requires c in u && c != destination && u[c].parent == Some(p)
    ensures u[c].key != t[destination].key
  {
    assert u[c].parent == ViaParent(m[destination := source], t[c].parent);
    assert t[c].parent == Some(p);
  }

  lemma SettledIsTransferred(s0: Tables, s3: Tables, source: nat, destination: nat, m: Handover, p0: nat, p: nat,
                             workspace: nat, files: int, bytes: int)
    requires Apart(s0.folder, source, destination) && source in s0.aggregate && destination in s0.aggregate
    requires s0.folder[source].parent == Some(p0) && s0.folder[destination].parent == Some(p)
    requires MergedInto(HandedFirst(s0, source, destination), s3, source, destination, m) && Numbered(s3)
    requires source in s3.folder && p in s3.folder && source != destination && p != destination
    requires Linked(s3.folder) && s3.folder[source].workspace == s3.folder[p].workspace
    requires destination !in m && destination !in m.Values && source !in m && source !in m.Values
    ensures var s6 := Settled(s3, source, destination, p0, p, s0.folder[destination].name, s0.folder[destination].key, workspace, files, bytes);
      Transferred(s0, s6, source, destination, m)
  {
    hide Above, Carried, Quiet, Within, Apart, Emptied, Numbered, Quotient, Settled, Hang, HandedFirst, FoldersFollow,
      FilesFollow, TotalsFollow,
      SpellingsFollow;
    ApartRows(s0.folder, source, destination);
    var s2 := HandedFirst(s0, source, destination);
    var all := m[destination := source];
    var name, key := s0.folder[destination].name, s0.folder[destination].key;
    var s6 := Settled(s3, source, destination, p0, p, name, key, workspace, files, bytes);
    HandedFirstShape(s0, source, destination);
    SettledShape(s3, source, destination, p0, p, name, key, workspace, files, bytes);
    TransferredFolders(s0, s2, s3, source, destination, m, p, name, key);
    TransferredSpellings(s0, s2, s3, source, destination, m, p, name, key);
    TransferredDeltas(s0, s2, s3, s6, source, destination, m, p0, p, name, key, workspace, files, bytes);
    QuotientParts(s2, s3, m, all);
    TransferredTotals(s0.aggregate, s3.aggregate, m, source, destination);
  }

  lemma HandedFirstShape(s: Tables, source: nat, destination: nat)
    requires source in s.aggregate && destination in s.aggregate
    ensures var h := HandedFirst(s, source, destination);
      h.folder == s.folder && h.file == s.file && h.aggregate == Inherited(s.aggregate, source, destination)
  {
  }

  lemma SettledShape(s: Tables, source: nat, destination: nat, p0: nat, p: nat, name: string, key: string,
                     workspace: nat, files: int, bytes: int)
    requires source in s.folder && p in s.folder && source != destination && p != destination
    ensures var e := Settled(s, source, destination, p0, p, name, key, workspace, files, bytes);
      e.folder == Hang(s.folder - {destination}, source, p, name, key) && e.file == s.file
        && e.aggregate == s.aggregate - {destination}
  {
  }

  lemma QuotientParts(s: Tables, s': Tables, m: Handover, moved: Handover)
    requires Quotient(s, s', m, moved)
    ensures FoldersFollow(s.folder, s'.folder, m, moved) && FilesFollow(s.file, s'.file, moved)
    ensures DeltasFollow(s.delta, s'.delta, m) && TotalsFollow(s.aggregate, s'.aggregate, m)
  {
  }

  lemma TransferredFolders(s0: Tables, s2: Tables, s3: Tables, source: nat, destination: nat, m: Handover, p: nat,
                           name: string, key: string)
    requires s2.folder == s0.folder && Quotient(s2, s3, m, m[destination := source])
    requires source in s3.folder && p in s3.folder && source != destination && p != destination && destination !in m
    requires Linked(s3.folder) && s3.folder[source].workspace == s3.folder[p].workspace
    ensures var v := Hang(s3.folder - {destination}, source, p, name, key);
      forall f {:trigger v[f].workspace} :: f in v ==> v[f].workspace == s0.folder[f].workspace
    ensures var all, v := m[destination := source], Hang(s3.folder - {destination}, source, p, name, key);
      (forall f :: f in v <==> f in s0.folder && f !in all) && v[source].name == name && v[source].key == key &&
      (forall f {:trigger v[f].parent} :: f in v ==>
        v[f].parent == if f == source then Some(p) else ViaParent(all, s0.folder[f].parent))
  {
    hide NamesFollow, FilesFollow, DeltasFollow, TotalsFollow;
    var t := s3.folder - {destination};
    assert Above(t, source, source);
    forall f | f in t && Above(t, source, f) ensures t[f].workspace == t[p].workspace {
      InnerWorkspace(s3.folder, t, source, f);
    }
  }

  lemma TransferredSpellings(s0: Tables, s2: Tables, s3: Tables, source: nat, destination: nat, m: Handover, p: nat,
                             name: string, key: string)
    requires s2.folder == s0.folder && Quotient(s2, s3, m, m[destination := source])
    requires source in s3.folder && p in s3.folder && source != destination && p != destination
    ensures SpellingsFollow(s0.folder, Hang(s3.folder - {destination}, source, p, name, key), source, m)
  {
    hide FilesFollow, DeltasFollow, TotalsFollow, Above;
  }

  lemma {:induction false} InnerWorkspace(t: Tree, u: Tree, a: nat, f: nat)
    requires Linked(t) && (forall g :: g in u ==> g in t && u[g] == t[g]) && Above(u, a, f)
    ensures a in u && u[f].workspace == u[a].workspace
    decreases u[f].depth
  {
    if a != f {
      InnerWorkspace(t, u, a, u[f].parent.value);
    }
  }

  lemma TransferredDeltas(s0: Tables, s2: Tables, s3: Tables, s6: Tables, source: nat, destination: nat, m: Handover,
                          p0: nat, p: nat,
                          name: string, key: string, workspace: nat, files: int, bytes: int)
    requires source in s0.aggregate && destination in s0.aggregate && s2 == HandedFirst(s0, source, destination)
    requires Numbered(s3)
    requires Quotient(s2, s3, m, m[destination := source])
    requires source in s3.folder && p in s3.folder && source != destination && p != destination && source !in m
    requires destination !in m
    requires s6 == Settled(s3, source, destination, p0, p, name, key, workspace, files, bytes)
    ensures forall k :: k in s0.delta ==>
      k in s6.delta && s6.delta[k] == s0.delta[k].(folder := Via(m[destination := source], s0.delta[k].folder))
  {
    hide FoldersFollow, NamesFollow, FilesFollow, TotalsFollow, Hang;
    forall k | k in s0.delta ensures k in s6.delta && s6.delta[k] == s3.delta[k] {
      assert k in s2.delta && k in s3.delta && k < s3.nextDelta;
    }
  }

  lemma TransferredTotals(a: map<nat, Aggregate>, c: map<nat, Aggregate>, m: Handover, source: nat, destination: nat)
    requires source in a && destination in a && source != destination
    requires TotalsFollow(Inherited(a, source, destination), c, m)
    requires destination !in m && destination !in m.Values && source !in m && source !in m.Values
    ensures TotalsFollow(a, c - {destination}, m[destination := source])
  {
    var all, b := m[destination := source], Inherited(a, source, destination);
    assert all[destination] == source;
    forall g | g in m ensures m[g] != source && m[g] != destination {
      assert m[g] in m.Values;
    }
    forall f | f in m.Values ensures f in all.Values {
      var g :| g in m && m[g] == f;
      assert all[g] == f;
    }
    assert c[source] == b[source];
  }

  /** The equation survives the transfer exactly when the row did not change parents or carried no live file. */
  lemma TransferVerdict(s0: Tables, s3: Tables, s6: Tables, source: nat, destination: nat, m: Handover, p0: nat, p: nat,
                        name: string, key: string, workspace: nat, queued: Aggregate)
    requires Sound(s0) && Consistent(s0) && Apart(s0.folder, source, destination)
    requires s0.folder[source].parent == Some(p0) && s0.folder[destination].parent == Some(p)
    requires MergedInto(HandedFirst(s0, source, destination), s3, source, destination, m) && Sound(s3)
    requires source in s3.folder && destination in s3.folder && p in s3.folder && source != destination
    requires p != destination
    requires s3.folder[source].parent == Some(p0) && s3.folder[destination].parent == Some(p)
    requires forall u :: queued.Of(u) == QueuedUnder(s0, source, u)
    requires s6 == Settled(s3, source, destination, p0, p, name, key, workspace, queued.files, queued.bytes)
    requires Sound(s6)
    ensures Consistent(s6) <==> (p0 == p || forall u :: Truth(s0, source, u) == 0)
  {
    hide OneRoot, SiblingsDiffer, RootsUnnamed, LiveNamesDiffer, Countable, Slack, Linked, Filed, Apart, MergedInto,
      HandedFirst,
      QueuedUnder, Truth, Consistent, Balanced, Settled, Above;
    LocalIsGlobal(s0);
    LocalIsGlobal(s6);
    ApartRows(s0.folder, source, destination);
    assert forall u :: Of(queued.files, queued.bytes, u) == queued.Of(u);
    SettledFolders(s3, s6, source, destination, p0, p, name, key, workspace, queued.files, queued.bytes);
    forall a, u | a in s6.folder
      ensures Slack(s6, a, u) == if p0 == p then 0 else if a == p0 then Truth(s0, source, u)
        else if a == p then -Truth(s0, source, u) else 0
    {
      TransferSlack(s0, s3, source, destination, m, p0, p, name, key, workspace, queued.files, queued.bytes, a, u);
      SourceAccounted(s0, source, u);
    }
    BalancedVerdict(s0, s6, source, p0, p);
  }

  lemma SettledFolders(s3: Tables, s6: Tables, source: nat, destination: nat, p0: nat, p: nat, name: string,
                       key: string, workspace: nat, files: int, bytes: int)
    requires source in s3.folder && p in s3.folder && source != destination && p != destination
    requires s6 == Settled(s3, source, destination, p0, p, name, key, workspace, files, bytes)
    ensures p in s6.folder && forall a :: a in s6.folder ==> a in s3.folder && a != destination
  {
  }

  lemma SourceAccounted(s: Tables, source: nat, u: Unit)
    requires Consistent(s) && source in s.folder
    ensures Stored(s, source, u) + QueuedUnder(s, source, u) == Truth(s, source, u)
  {
    assert Accounted(s, source);
  }

  lemma BalancedVerdict(s0: Tables, s6: Tables, source: nat, p0: nat, p: nat)
    requires p in s6.folder
    requires forall a, u :: a in s6.folder ==>
      Slack(s6, a, u) == if p0 == p then 0 else if a == p0 then Truth(s0, source, u)
        else if a == p then -Truth(s0, source, u) else 0
    ensures Balanced(s6) <==> (p0 == p || forall u :: Truth(s0, source, u) == 0)
  {
    hide Slack, Truth;
    if Balanced(s6) && p0 != p {
      forall u ensures Truth(s0, source, u) == 0 {
        assert Slack(s6, p, u) == -Truth(s0, source, u);
      }
    }
  }

  /**
   Give the vanished folder its directory's new place. Queue and totals are handed over first, then the
   children merged, the stand-in deleted, the survivor moved, and differing parents compensated by what was
   queued under the survivor before anything moved. A stand-in that contains the vanished folder is refused
   by the closure; a refusal undoes everything.
  */
  method Transfer(db: Database, source: nat, destination: nat) returns (ok: bool, merged: Handover)
    requires db.Valid() && Mergeable(db.folder, source, destination)
    requires db.folder[source].parent.Some? && db.folder[destination].parent.Some?
    modifies db
    ensures db.Valid()
    ensures ok ==>
      Apart(old(db.folder), source, destination) && Transferred(old(db.Rows()), db.Rows(), source, destination, merged)
    ensures ok && Consistent(old(db.Rows())) ==>
      (Consistent(db.Rows()) <==>
        (old(db.folder)[source].parent == old(db.folder)[destination].parent || !LiveBelow(old(db.Rows()), source)))
    ensures !ok ==> db.Rows() == old(db.Rows()) && db.closure == old(db.closure)
    ensures !ok ==> BothLive(old(db.Rows()), source, destination) || Above(old(db.folder), destination, source)
  {
    hide OneRoot, SiblingsDiffer, RootsUnnamed, LiveNamesDiffer, Filed, Countable, Exact, Linked, Above, Apart,
      Mergeable, MergedInto,
      Transferred, Consistent, CanHang, Truth, Rollup.QueuedUnder, LiveBelow, Emptied, Hang;
    ghost var s0 := db.Rows();
    MergeableRows(db.folder, source, destination);
    var p0, p := db.folder[source].parent.value, db.folder[destination].parent.value;
    var name, key, workspace := db.folder[destination].name, db.folder[destination].key, db.folder[source].workspace;
    var saved := (db.folder, db.closure, db.file, db.delta, db.aggregate);
    var queued := db.QueuedUnder(source);
    RepointSound(db.Rows(), destination, source);
    db.delta := Repointed(db.delta, destination, source);
    InheritSound(db.Rows(), source, destination);
    db.aggregate := Inherited(db.aggregate, source, destination);
    ghost var s2 := db.Rows();
    ok, merged := MergeInto(db, source, destination);
    if !ok {
      SameLive(s0, s2, source);
      SameLive(s0, s2, destination);
      db.folder, db.closure, db.file, db.delta, db.aggregate := saved.0, saved.1, saved.2, saved.3, saved.4;
      return;
    }
    Settle(db, s0, s2, source, destination, merged, p0, p, name, key, workspace, queued);
  }

  /** What was queued under the survivor stays owed to the old chain, and the new one gives it back. */
  method Compensate(db: Database, workspace: nat, p0: nat, p: nat, queued: Aggregate)
    requires db.Valid() && p0 in db.folder && p in db.folder && db.folder[p0].workspace == workspace
    requires db.folder[p].workspace == workspace
    modifies db`delta, db`nextDelta
    ensures db.Valid()
    ensures db.Rows() == if p0 == p then old(db.Rows())
      else Steps.Record(Steps.Record(old(db.Rows()), workspace, p0, queued.files, queued.bytes), workspace, p, -queued.files, -queued.bytes)
  {
    hide WellFormed, LiveNamesDiffer, Filed, Countable, Exact;
    if p0 != p {
      ghost var was := db.Rows();
      RecordSound(was, workspace, p0, queued.files, queued.bytes);
      RecordFolders(was, workspace, p0, queued.files, queued.bytes);
      db.Record(workspace, p0, queued.files, queued.bytes);
      RecordSound(db.Rows(), workspace, p, -queued.files, -queued.bytes);
      db.Record(workspace, p, -queued.files, -queued.bytes);
    }
  }

  /**
   The part of a transfer after the merge: the emptied stand-in goes, the survivor moves, the two chains are
   compensated.
  */
  method Settle(db: Database, ghost s0: Tables, ghost s2: Tables, source: nat, destination: nat, ghost merged: Handover,
                p0: nat, p: nat,
                name: string, key: string, workspace: nat, queued: Aggregate)
    requires Sound(s0) && Sound(s2) && db.Valid() && Apart(s0.folder, source, destination)
    requires s0.folder[source].parent == Some(p0) && s0.folder[destination].parent == Some(p)
    requires source in s0.aggregate && destination in s0.aggregate && s2 == HandedFirst(s0, source, destination)
    requires MergedInto(s2, db.Rows(), source, destination, merged)
    requires name == s0.folder[destination].name && key == s0.folder[destination].key
    requires workspace == s0.folder[source].workspace
    requires forall u :: queued.Of(u) == QueuedUnder(s0, source, u)
    modifies db
    ensures db.Valid() && Transferred(s0, db.Rows(), source, destination, merged)
    ensures Consistent(s0) ==> (Consistent(db.Rows()) <==> (p0 == p || !LiveBelow(s0, source)))
  {
    hide OneRoot, SiblingsDiffer, RootsUnnamed, LiveNamesDiffer, Filed, Countable, Exact, Linked, Above, Apart,
      MergedInto, HandedFirst,
      Transferred, Consistent, CanHang, Truth, Rollup.QueuedUnder, LiveBelow, Emptied, Hang, Steps.Record;
    ghost var s3 := db.Rows();
    ApartDiffer(s0.folder, source, destination);
    HandedFirstShape(s0, source, destination);
    ParentsOutside(s0.folder, source, destination, p0, p);
    PlaceFree(s2, s3, source, destination, merged, p0, p);
    StandInEmpty(s0, s2, s3, source, destination, merged);
    Discard(db, destination);
    Reposition(db, source, p, name, key);
    OldParentFiled(s0, s3, db.Rows(), source, destination, merged, p0, p);
    Compensate(db, workspace, p0, p, queued);
    SettledIsTransferred(s0, s3, source, destination, merged, p0, p, workspace, queued.files, queued.bytes);
    if Consistent(s0) {
      LiveCounts(s0, source);
      TransferVerdict(s0, s3, db.Rows(), source, destination, merged, p0, p, name, key, workspace, queued);
    }
  }

  /** A subtree's truth is zero in both units exactly when no live file lies in it. */
  lemma LiveCounts(s: Tables, a: nat)
    ensures (forall u :: Truth(s, a, u) == 0) <==> !LiveBelow(s, a)
  {
    hide Above;
    if i :| i in s.file && s.file[i].live && Above(s.folder, a, s.file[i].folder) {
      var under := Under(s.folder, Live(s, Files), a);
      Pick(under, i);
      NotNegative(under - {i});
      assert Truth(s, a, Files) >= 1;
    } else {
      forall u ensures Truth(s, a, u) == 0 {
        Zeros(Under(s.folder, Live(s, u), a));
      }
    }
  }

  lemma SameLive(s: Tables, s': Tables, a: nat)
    requires s'.file == s.file && s'.folder == s.folder
    ensures LiveBelow(s', a) ==> LiveBelow(s, a)
  {
  }

  lemma StandInEmpty(s0: Tables, s2: Tables, s3: Tables, source: nat, destination: nat, m: Handover)
    requires source in s0.aggregate && destination in s0.aggregate && source != destination
    requires s2 == HandedFirst(s0, source, destination)
    requires Linked(s2.folder) && Apart(s2.folder, source, destination) && MergedInto(s2, s3, source, destination, m)
    ensures Emptied(s3, destination) && forall k :: k in s3.delta ==> s3.delta[k].folder != destination
    ensures source !in m && destination !in m && source !in m.Values && destination !in m.Values
  {
    hide Linked, Above, Apart, Within, Carried, Quiet, FoldersFollow, NamesFollow, FilesFollow, TotalsFollow, Emptied;
    ValuesWithin(s2.folder, source, destination, m);
    assert forall g :: g in m ==> m[g] in m.Values;
  }

  lemma OldParentFiled(s0: Tables, s3: Tables, s5: Tables, source: nat, destination: nat, m: Handover, p0: nat, p: nat)
    requires WellFormed(s0.folder) && source in s3.folder && destination in s3.folder && p in s3.folder
    requires source != destination && p != destination
    requires Linked(s3.folder) && s3.folder[source].parent == Some(p0) && s3.folder[destination].parent == Some(p)
    requires s3.folder[source].workspace == s3.folder[p].workspace && p0 != destination
    requires exists name, key :: s5.folder == Hang(s3.folder - {destination}, source, p, name, key)
    requires !Above(s3.folder - {destination}, source, p)
    ensures p0 in s5.folder && s5.folder[p0].workspace == s3.folder[source].workspace
    ensures p in s5.folder && s5.folder[p].workspace == s3.folder[source].workspace
  {
  }
}
