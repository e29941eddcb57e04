/**
 The identity transfer of an external rename (reconcile.py): merging the stand-in into the vanished
 folder, namesake children first, and moving the survivor to where its directory is.
*/
module Transferring {
  import opened Common
  import opened Totals
  import opened FolderTree
  import opened Rollup
  import opened SlackMoves
  import opened Steps
  import opened Moves
  import opened Relinking
  import opened Expansion
  import opened Merging
  import opened Absorbing
  import opened DatabaseModel

  // ------------------------------------------------------------------ discarding an emptied row

  function Unlinked(c: Closure, f: nat): Closure {
    map k | k in c && k.0 != f && k.1 != f :: c[k]
  }

  lemma {:induction false} LeafOff(t: Tree, f: nat, a: nat, d: nat)
    requires Linked(t) && (forall c :: c in t ==> t[c].parent != Some(f)) && d != f
    ensures Above(t - {f}, a, d) <==> Above(t, a, d) && a != f
    decreases if d in t then t[d].depth + 1 else 0
  {
    if d in t && t[d].parent.Some? {
      assert t[d].parent != Some(f);
      LeafOff(t, f, a, t[d].parent.value);
    }
  }

  lemma UnlinkedExact(c: Closure, t: Tree, f: nat)
    requires Linked(t) && Exact(c, t) && (forall d :: d in t ==> t[d].parent != Some(f))
    ensures Exact(Unlinked(c, f), t - {f})
  {
    hide Above, Linked;
    forall a: nat, d: nat ensures (a, d) in Unlinked(c, f) <==> Above(t - {f}, a, d) {
      if d != f {
        LeafOff(t, f, a, d);
      } else {
        NotIn(t - {f}, a, f);
      }
    }
  }

  lemma NotIn(t: Tree, a: nat, d: nat)
    requires d !in t
    ensures !Above(t, a, d)
  {
  }

  lemma DropRow(t: Tree, f: nat)
    requires WellFormed(t) && forall c :: c in t ==> t[c].parent != Some(f)
    ensures WellFormed(t - {f})
  {
    var u := t - {f};
    assert Linked(u) by {
      forall g | g in u && u[g].parent.Some? ensures u[g].parent.value in u {
        assert t[g].parent != Some(f);
      }
    }
  }

  lemma DropSound(s: Tables, f: nat)
    requires Sound(s) && (forall c :: c in s.folder ==> s.folder[c].parent != Some(f))
    requires forall i :: i in s.file ==> s.file[i].folder != f
    requires forall k :: k in s.delta ==> s.delta[k].folder != f
    ensures Sound(s.(folder := s.folder - {f}, aggregate := s.aggregate - {f}))
  {
    hide LiveNamesDiffer, WellFormed;
    DropRow(s.folder, f);
  }

  lemma RepointSound(s: Tables, from: nat, to: nat)
    requires Sound(s) && from in s.folder && to in s.folder && s.folder[from].workspace == s.folder[to].workspace
    ensures Sound(s.(delta := Repointed(s.delta, from, to)))
  {
    hide WellFormed, LiveNamesDiffer, Countable;
  }

  lemma InheritSound(s: Tables, heir: nat, from: nat)
    requires Sound(s) && heir in s.aggregate && from in s.aggregate
    ensures Sound(s.(aggregate := Inherited(s.aggregate, heir, from)))
  {
    hide WellFormed, LiveNamesDiffer;
  }

  /** Delete a folder row whose children, files and queued rows have all gone elsewhere. */
  method Discard(db: Database, f: nat)
    requires db.Valid() && f in db.folder && Emptied(db.Rows(), f)
    requires forall k :: k in db.delta ==> db.delta[k].folder != f
    modifies db`folder, db`closure, db`aggregate
    ensures db.Valid()
    ensures db.Rows() == old(db.Rows()).(folder := old(db.folder) - {f}, aggregate := old(db.aggregate) - {f})
  {
    hide OneRoot, SiblingsDiffer, RootsUnnamed, LiveNamesDiffer, Filed, Countable, Numbered, Exact, Unlinked;
    DropSound(db.Rows(), f);
    UnlinkedExact(db.closure, db.folder, f);
    db.closure := Unlinked(db.closure, f);
    db.aggregate := db.aggregate - {f};
    db.folder := db.folder - {f};
  }

  // ------------------------------------------------------------------ handing a namesake's row over

  /** Giving a folder the other spelling of its own name moves nothing. */
  lemma RespellRows(t: Tree, x: nat, p: nat, name: string)
    requires Linked(t) && x in t && t[x].parent == Some(p)
    ensures p in t && Hang(t, x, p, name, t[x].key) == t[x := t[x].(name := name)]
  {
    assert t[x].parent.Some?;
    forall f | f in t && Above(t, x, f) ensures t[f].workspace == t[p].workspace {
      Bounds(t, x, f);
    }
  }

  lemma RespellHangs(t: Tree, x: nat, p: nat, name: string)
    requires Linked(t) && SiblingsDiffer(t) && x in t && t[x].parent == Some(p) && name != ""
    ensures CanHang(t, x, p, name, t[x].key)
  {
    assert t[x].parent.Some?;
    ParentAbove(t, p, x);
  }

  lemma RespellSound(s: Tables, x: nat, p: nat, name: string)
    requires Sound(s) && x in s.folder && s.folder[x].parent == Some(p) && name != ""
    ensures Sound(s.(folder := s.folder[x := s.folder[x].(name := name)]))
  {
    hide LiveNamesDiffer, Filed, Countable, Numbered, OneRoot, RootsUnnamed;
    RespellHangs(s.folder, x, p, name);
    assert s.folder[x].parent.Some?;
    RespellRows(s.folder, x, p, name);
    HangSound(s, x, p, name, s.folder[x].key);
  }

  lemma RespellMoves(s: Tables, x: nat, name: string, a: nat, u: Unit)
    requires x in s.folder
    ensures Slack(s.(folder := s.folder[x := s.folder[x].(name := name)]), a, u) == Slack(s, a, u)
  {
    SameRows(s, s.(folder := s.folder[x := s.folder[x].(name := name)]), a, u);
  }

  ghost predicate HandedOver(s: Tables, s': Tables, keeper: nat, twin: nat)
    requires keeper in s.folder && twin in s.folder && keeper in s.aggregate && twin in s.aggregate && keeper != twin
  {
    s' == Folded(s, keeper, twin).(folder := Folded(s, keeper, twin).folder[keeper := s.folder[keeper].(name := s.folder[twin].name)])
  }

  /** Queue, totals, row, and the disk's spelling of the name: what a merged pair hands over, in the source's order. */
  method HandOver(db: Database, keeper: nat, twin: nat, into: nat, ghost gone: nat)
    requires db.Valid() && Twins(db.folder, into, gone, keeper, twin) && keeper != twin && Emptied(db.Rows(), twin)
    requires db.folder[keeper].workspace == db.folder[twin].workspace && keeper in db.aggregate && twin in db.aggregate
    requires db.folder[keeper].parent != Some(twin)
    modifies db`folder, db`closure, db`delta, db`aggregate
    ensures db.Valid() && HandedOver(old(db.Rows()), db.Rows(), keeper, twin)
  {
    hide OneRoot, SiblingsDiffer, LiveNamesDiffer, Filed, Countable, Numbered, Exact, CanHang, Hang, Linked;
    ghost var was := db.Rows();
    var name := db.folder[twin].name;
    assert name != "" by { assert db.folder[twin].parent != None; }
    RepointSound(db.Rows(), twin, keeper);
    db.delta := Repointed(db.delta, twin, keeper);
    InheritSound(db.Rows(), keeper, twin);
    db.aggregate := Inherited(db.aggregate, keeper, twin);
    Discard(db, twin);
    assert db.Rows() == Folded(was, keeper, twin);
    if db.folder[keeper].name != name {
      RespellHangs(db.folder, keeper, into, name);
      RespellRows(db.folder, keeper, into, name);
      RespellSound(db.Rows(), keeper, into, name);
      db.Rehang(keeper, into, name, db.folder[keeper].key);
    } else {
      assert db.folder[keeper := db.folder[keeper].(name := name)] == db.folder;
    }
  }

  // ------------------------------------------------------------------ merging namesakes, deepest first

  /** What a merge has done once the pairs outside `todo` are settled. */
  ghost predicate Progress(s0: Tables, s: Tables, into: nat, gone: nat, m: Handover, todo: set<(nat, nat)>) {
    Within(s0.folder, into, gone, m) && Paired(s0.folder, into, gone, m) && Quotient(s0, s, m, m) &&
    (forall k: nat, c: nat :: (k, c) in todo ==>
      Twins(s0.folder, into, gone, k, c) && Untouched(s0.folder, m, k) && Untouched(s0.folder, m, c)) &&
    (forall k: nat, c: nat :: Twins(s0.folder, into, gone, k, c) ==> (k, c) in todo || c in m) &&
    (Quiet(s0, into, gone) ==> Carried(s0, s, into, gone))
  }

  lemma NoProgressYet(s: Tables, into: nat, gone: nat, todo: set<(nat, nat)>)
    requires forall k: nat, c: nat :: Twins(s.folder, into, gone, k, c) <==> (k, c) in todo
    ensures Progress(s, s, into, gone, map[], todo)
  {
    hide Slack, Quiet, Carried;
    if Quiet(s, into, gone) {
      NothingCarried(s, into, gone);
    }
  }

  /** The pairs still to do are disjoint from the pair just settled. */
  lemma OthersUntouched(t: Tree, into: nat, gone: nat, m: Handover, keeper: nat, twin: nat, n: Handover, k: nat, c: nat)
    requires Linked(t) && SiblingsDiffer(t) && Apart(t, into, gone) && Twins(t, into, gone, keeper, twin)
    requires Twins(t, into, gone, k, c)
    requires Spans(t, keeper, twin, n) && c != twin && Untouched(t, m, k) && Untouched(t, m, c)
    ensures Untouched(t, m + n, k) && Untouched(t, m + n, c)
  {
    ChildrenApart(t, into, gone, k, twin);
    ChildrenApart(t, into, gone, keeper, c);
    assert t[c].key != t[twin].key;
    SiblingsApart(t, into, k, keeper);
    SiblingsApart(t, gone, c, twin);
    forall g | g in n ensures !Above(t, k, g) && !Above(t, k, n[g]) && !Above(t, c, g) && !Above(t, c, n[g]) {
      Disjoint(t, k, twin, g);
      Disjoint(t, k, keeper, n[g]);
      Disjoint(t, c, twin, g);
      Disjoint(t, c, keeper, n[g]);
    }
  }

  /** One settled pair carries the bookkeeping of the merge one step further. */
  lemma RoundRows(s0: Tables, s1: Tables, s2: Tables, s3: Tables, into: nat, gone: nat, m: Handover, keeper: nat,
                  twin: nat, n: Handover)
    requires Linked(s0.folder) && Linked(s1.folder) && Apart(s0.folder, into, gone)
    requires Twins(s0.folder, into, gone, keeper, twin)
    requires Within(s0.folder, into, gone, m) && Quotient(s0, s1, m, m) && Untouched(s0.folder, m, keeper)
    requires Untouched(s0.folder, m, twin)
    requires Within(s1.folder, keeper, twin, n) && Quotient(s1, s2, n, n[twin := keeper])
    requires Paired(s0.folder, into, gone, m) && Paired(s1.folder, keeper, twin, n)
    requires keeper in s2.folder && twin in s2.folder && keeper in s2.aggregate && twin in s2.aggregate
    requires keeper != twin
    requires HandedOver(s2, s3, keeper, twin) && forall f :: f in s1.folder <==> f in s1.aggregate
    ensures Within(s0.folder, into, gone, m + n[twin := keeper])
    ensures Quotient(s0, s3, m + n[twin := keeper], m + n[twin := keeper])
    ensures Spans(s0.folder, keeper, twin, n[twin := keeper]) && Paired(s0.folder, into, gone, m + n[twin := keeper])
  {
    hide Linked, Quotient, Untouched, Above, Within, Paired;
    assert FoldersFollow(s0.folder, s1.folder, m, m) by { QuotientFolders(s0, s1, m, m); }
    PairStands(s0.folder, s1.folder, into, gone, m, keeper, twin);
    RoundWithin(s0.folder, s1.folder, into, gone, m, keeper, twin, n);
    RoundPaired(s0.folder, s1.folder, into, gone, m, keeper, twin, n);
    ValuesWithin(s1.folder, keeper, twin, n);
    FoldQuotient(s1, s2, s3, n, keeper, twin);
    UnrelatedAggregates(s1, m, n[twin := keeper]);
    ComposeQuotient(s0, s1, s3, m, n[twin := keeper]);
  }

  lemma QuotientFolders(s: Tables, s': Tables, m: Handover, moved: Handover)
    requires Quotient(s, s', m, moved)
    ensures FoldersFollow(s.folder, s'.folder, m, moved)
  {
  }

  lemma UnrelatedAggregates(s: Tables, m: Handover, n: Handover)
    requires Unrelated(s.folder, m, n) && forall f :: f in s.folder <==> f in s.aggregate
    ensures forall g :: g in n ==> g in s.aggregate
  {
  }

  lemma RoundCarried(s0: Tables, s1: Tables, s2: Tables, s3: Tables, into: nat, gone: nat, m: Handover, keeper: nat,
                     twin: nat, n: Handover)
    requires Linked(s0.folder) && Linked(s1.folder) && Linked(s2.folder) && Apart(s0.folder, into, gone)
    requires Apart(s1.folder, into, gone)
    requires Within(s0.folder, into, gone, m) && FoldersFollow(s0.folder, s1.folder, m, m)
    requires Twins(s0.folder, into, gone, keeper, twin) && Untouched(s0.folder, m, keeper)
    requires Untouched(s0.folder, m, twin)
    requires Carried(s0, s1, into, gone) && (Quiet(s1, keeper, twin) ==> Carried(s1, s2, keeper, twin))
    requires Twins(s2.folder, into, gone, keeper, twin) && Emptied(s2, twin) && Within(s1.folder, keeper, twin, n)
    requires keeper in s2.aggregate && twin in s2.aggregate && keeper != twin
    requires FoldersFollow(s1.folder, s2.folder, n, n[twin := keeper])
    requires HandedOver(s2, s3, keeper, twin)
    ensures Carried(s0, s3, into, gone)
  {
    hide Slack, Quiet, Inner, Untouched, Above, Within, Emptied, Linked;
    PairStands(s0.folder, s1.folder, into, gone, m, keeper, twin);
    PairQuiet(s0, s1, into, gone, keeper, twin);
    ChildrenApart(s0.folder, into, gone, keeper, twin);
    NotInsidePair(s1.folder, into, gone, keeper, twin);
    ApartDiffer(s0.folder, into, gone);
    ValuesWithin(s1.folder, keeper, twin, n);
    forall a, u | a in s3.folder || a == into || a == gone
      ensures a != into && a != gone ==>
        Slack(s3, a, u) == if Inner(s0.folder, into, gone, a) then 0 else Slack(s0, a, u)
      ensures a == into ==> Slack(s3, a, u) == Slack(s1, into, u) - Stored(s2, twin, u)
      ensures a == gone ==> Slack(s3, a, u) == Slack(s1, gone, u) + Stored(s2, twin, u)
    {
      HandedOverMoves(s2, s3, keeper, twin, a, u);
      InnerPair(s0.folder, s1.folder, into, gone, keeper, twin, a);
      CarriedRound(s0, s1, s2, s3, into, gone, keeper, twin, a, u);
    }
  }

  lemma HandedOverMoves(s2: Tables, s3: Tables, keeper: nat, twin: nat, a: nat, u: Unit)
    requires keeper in s2.folder && twin in s2.folder && keeper in s2.aggregate && twin in s2.aggregate
    requires keeper != twin
    requires HandedOver(s2, s3, keeper, twin)
    ensures Slack(s3, a, u) == Slack(Folded(s2, keeper, twin), a, u)
  {
    hide Slack;
    RespellMoves(Folded(s2, keeper, twin), keeper, s2.folder[twin].name, a, u);
  }

  lemma ApartDiffer(t: Tree, a: nat, b: nat)
    requires Apart(t, a, b)
    ensures a != b
  {
    assert Above(t, a, a);
  }

  lemma NotInsidePair(t: Tree, into: nat, gone: nat, keeper: nat, twin: nat)
    requires Linked(t) && Apart(t, into, gone) && Twins(t, into, gone, keeper, twin)
    ensures !Inner(t, keeper, twin, into) && !Inner(t, keeper, twin, gone)
    ensures keeper != into && keeper != gone && twin != into && twin != gone
  {
    ChildrenApart(t, into, gone, keeper, twin);
    ParentAbove(t, into, keeper);
    ParentAbove(t, gone, twin);
  }

  lemma InnerPair(t: Tree, u: Tree, into: nat, gone: nat, keeper: nat, twin: nat, a: nat)
    requires Linked(t) && Apart(t, into, gone) && Twins(t, into, gone, keeper, twin)
    requires forall d :: Above(u, keeper, d) <==> Above(t, keeper, d)
    requires forall d :: Above(u, twin, d) <==> Above(t, twin, d)
    ensures Inner(u, keeper, twin, a) || a == keeper ==> Inner(t, into, gone, a)
  {
    hide Linked, Apart;
    if Inner(u, keeper, twin, a) || a == keeper {
      PairInside(t, into, gone, keeper, twin, a);
    }
  }

  ghost predicate LiveBelow(s: Tables, a: nat) {
    exists i :: i in s.file && s.file[i].live && Above(s.folder, a, s.file[i].folder)
  }

  /** A live file met half-way through under a child not merged yet was under its parent to begin with. */
  lemma LiveBelowBefore(s0: Tables, s1: Tables, p: nat, m: Handover, x: nat)
    requires Linked(s0.folder) && Above(s0.folder, p, x) && FilesFollow(s0.file, s1.file, m)
    requires Untouched(s0.folder, m, x)
    requires (forall d :: Above(s1.folder, x, d) <==> Above(s0.folder, x, d)) && LiveBelow(s1, x)
    ensures LiveBelow(s0, p)
  {
    var i :| i in s1.file && s1.file[i].live && Above(s1.folder, x, s1.file[i].folder);
    assert s1.file[i].folder == Via(m, s0.file[i].folder);
    Transitive(s0.folder, p, x, s0.file[i].folder);
  }

  lemma LiveAtBefore(s0: Tables, s1: Tables, f: nat, m: Handover)
    requires f in s0.folder && f !in m.Values && FilesFollow(s0.file, s1.file, m) && LiveIn(s1.file, f)
    ensures LiveBelow(s0, f)
  {
    var j :| j in s1.file && s1.file[j].live && s1.file[j].folder == f;
    assert forall g :: g in m ==> m[g] in m.Values;
    assert Above(s0.folder, f, f);
  }

  /** Both of two folders hold a live file somewhere below. */
  ghost predicate BothLive(s: Tables, into: nat, gone: nat) {
    LiveBelow(s, into) && LiveBelow(s, gone)
  }

  ghost predicate MergedInto(s0: Tables, s: Tables, into: nat, gone: nat, m: Handover) {
    Within(s0.folder, into, gone, m) && Paired(s0.folder, into, gone, m) && Quotient(s0, s, m, m[gone := into])
    && Emptied(s, gone) && Apart(s.folder, into, gone) &&
    (Quiet(s0, into, gone) ==> Carried(s0, s, into, gone))
  }

  lemma ApartStays(t: Tree, u: Tree, into: nat, gone: nat, m: Handover)
    requires Linked(t) && Linked(u) && Apart(t, into, gone) && Within(t, into, gone, m) && FoldersFollow(t, u, m, m)
    ensures Apart(u, into, gone)
  {
    hide Linked, Above;
    ValuesWithin(t, into, gone, m);
    ChainUntouched(t, u, m, m, into, gone);
    ChainUntouched(t, u, m, m, gone, into);
  }

  /** The next pair may be merged: it stands, apart, and its twin's subtree is smaller. */
  lemma PairReady(s0: Tables, s: Tables, into: nat, gone: nat, m: Handover, todo: set<(nat, nat)>, keeper: nat,
                  twin: nat)
    requires Linked(s0.folder) && Linked(s.folder) && Apart(s0.folder, into, gone)
    requires Progress(s0, s, into, gone, m, todo)
    requires (keeper, twin) in todo
    ensures Twins(s.folder, into, gone, keeper, twin) && Apart(s.folder, keeper, twin) && keeper != twin
    ensures Subtree(s.folder, twin) < Subtree(s0.folder, gone)
  {
    hide Linked, Above, Quotient, Within, Paired, Untouched, Carried, Quiet;
    assert FoldersFollow(s0.folder, s.folder, m, m) by { QuotientFolders(s0, s, m, m); }
    PairStands(s0.folder, s.folder, into, gone, m, keeper, twin);
    ApartDiffer(s.folder, keeper, twin);
    SmallerSubtree(s0.folder, gone, twin);
    SameSubtree(s0.folder, s.folder, twin);
  }

  lemma SameSubtree(t: Tree, u: Tree, x: nat)
    requires forall d :: Above(u, x, d) <==> Above(t, x, d)
    ensures Subtree(u, x) == Subtree(t, x)
  {
    forall d ensures d in Subtree(u, x) <==> d in Subtree(t, x) {
      if Above(t, x, d) { assert d in t; }
      if Above(u, x, d) { assert d in u; }
    }
  }

  /** After the pair's own merge its two rows still hang where they did. */
  lemma PairRemains(s1: Tables, s2: Tables, into: nat, gone: nat, keeper: nat, twin: nat, n: Handover)
    requires Linked(s1.folder) && Sound(s2) && Mergeable(s1.folder, into, gone)
    requires Twins(s1.folder, into, gone, keeper, twin)
    requires Apart(s1.folder, keeper, twin) && MergedInto(s1, s2, keeper, twin, n)
    ensures Twins(s2.folder, into, gone, keeper, twin) && keeper in s2.aggregate && twin in s2.aggregate
    ensures keeper != twin
    ensures s2.folder[keeper].workspace == s2.folder[twin].workspace && s2.folder[keeper].parent != Some(twin)
    ensures Emptied(s2, twin)
  {
    hide Linked, Above, Carried, Quiet, LiveNamesDiffer, WellFormed, Filed, Countable, Numbered;
    ApartDiffer(s1.folder, keeper, twin);
    ValuesWithin(s1.folder, keeper, twin, n);
    IntoNotHandedOver(s1.folder, into, gone, keeper, twin, n);
    QuotientFolders(s1, s2, n, n[twin := keeper]);
  }

  lemma IntoNotHandedOver(t: Tree, into: nat, gone: nat, keeper: nat, twin: nat, n: Handover)
    requires Linked(t) && Mergeable(t, into, gone) && Twins(t, into, gone, keeper, twin) && Apart(t, keeper, twin)
    requires Within(t, keeper, twin, n)
    ensures into !in n[twin := keeper] && gone !in n[twin := keeper]
  {
    ParentAbove(t, gone, twin);
    if Above(t, twin, into) {
      ParentAbove(t, into, keeper);
      Transitive(t, twin, into, keeper);
    }
    assert Above(t, twin, twin);
  }

  // ------------------------------------------------------------------ merging a folder into one below it

  /** Half-way through a merge of a folder into one below it: still below it, and nothing came in from outside. */
  ghost predicate Entangled(t: Tree, u: Tree, into: nat, gone: nat, todo: set<(nat, nat)>) {
    Mergeable(u, into, gone) && Above(u, gone, into) && Subtree(u, gone) <= Subtree(t, gone) &&
    forall k: nat, c: nat :: Twins(u, into, gone, k, c) <==> (k, c) in todo
  }

  /** The next pair may be merged, or is itself a folder and one below it. */
  lemma PairEntangled(t: Tree, u: Tree, into: nat, gone: nat, todo: set<(nat, nat)>, keeper: nat, twin: nat)
    requires Linked(u) && Entangled(t, u, into, gone, todo) && (keeper, twin) in todo
    ensures Twins(u, into, gone, keeper, twin) && Mergeable(u, keeper, twin) && Subtree(u, twin) < Subtree(t, gone)
  {
    hide Linked;
    assert u[keeper].parent.Some? && u[twin].parent.Some?;
    ParentAbove(u, into, keeper);
    ParentAbove(u, gone, twin);
    ParentShares(u, into, keeper);
    ParentShares(u, gone, twin);
    Transitive(u, gone, into, keeper);
    if Above(u, keeper, twin) {
      NotPastParent(u, keeper, gone, twin);
    }
    SmallerSubtree(u, gone, twin);
  }

  /** Whoever is above a child and is not that child is above its parent. */
  lemma NotPastParent(u: Tree, a: nat, p: nat, c: nat)
    requires Linked(u) && c in u && u[c].parent == Some(p) && Above(u, p, a) && p != a
    ensures Above(u, a, c) ==> a == c
  {
    if Above(u, a, c) && a != c {
      Antisymmetric(u, a, p);
    }
  }

  lemma ParentShares(t: Tree, p: nat, c: nat)
    requires Linked(t) && c in t && t[c].parent == Some(p)
    ensures p in t && t[p].workspace == t[c].workspace
  {
    assert t[c].parent.Some?;
  }

  lemma {:induction false} NothingCameIn(u: Tree, v: Tree, m: Handover, x: nat, d: nat)
    requires Linked(u) && Linked(v) && FoldersFollow(u, v, m, m) && Above(v, x, d)
    requires forall g :: g in m ==> StrictlyAbove(u, x, g) && Above(u, x, m[g])
    ensures Above(u, x, d)
    decreases v[d].depth
  {
    if x != d {
      NothingCameIn(u, v, m, x, v[d].parent.value);
      assert u[d].parent.Some?;
    }
  }

  /** One settled pair leaves the two folders as entangled as they were. */
  lemma EntangledFolders(t: Tree, u: Tree, v: Tree, into: nat, gone: nat, todo: set<(nat, nat)>, keeper: nat, twin: nat,
                         n: Handover)
    requires Linked(u) && SiblingsDiffer(u) && Linked(v) && Entangled(t, u, into, gone, todo) && (keeper, twin) in todo
    requires Apart(u, keeper, twin) && Within(u, keeper, twin, n)
    requires FoldersFollow(u, v, n[twin := keeper], n[twin := keeper])
    ensures Entangled(t, v, into, gone, todo - {(keeper, twin)})
  {
    hide FoldersFollow, Within, Linked, Above, SiblingsDiffer, Apart;
    var m := n[twin := keeper];
    IntoNotHandedOver(u, into, gone, keeper, twin, n);
    PairWithin(u, into, gone, keeper, twin, n);
    EntangledWayUp(u, v, into, gone, keeper, twin, n);
    forall d | d in v && Above(v, gone, d) ensures Above(u, gone, d) {
      assert forall g :: g in m ==> StrictlyAbove(u, gone, g) && Above(u, gone, m[g]) by {
        assert forall g :: g in m ==> Lies(u, into, gone, twin, m, g);
      }
      NothingCameIn(u, v, m, gone, d);
    }
    forall k: nat, c: nat ensures Twins(v, into, gone, k, c) <==> (k, c) in todo - {(keeper, twin)} {
      EntangledTwins(u, v, into, gone, keeper, twin, n, k, c);
    }
    AboveIn(u, v, gone);
  }

  lemma AboveIn(u: Tree, v: Tree, x: nat)
    requires forall d :: d in v && Above(v, x, d) ==> Above(u, x, d)
    ensures Subtree(v, x) <= Subtree(u, x)
  {
    forall d | d in Subtree(v, x) ensures d in Subtree(u, x) {
      Known(u, x, d);
    }
  }

  lemma Known(u: Tree, x: nat, d: nat)
    requires Above(u, x, d)
    ensures d in u
  {
  }

  ghost predicate Lies(u: Tree, into: nat, gone: nat, twin: nat, m: Handover, g: nat) {
    g in m && Above(u, twin, g) && StrictlyAbove(u, gone, g) && StrictlyAbove(u, into, m[g]) && Above(u, gone, m[g])
  }

  ghost predicate AllLie(u: Tree, into: nat, gone: nat, twin: nat, m: Handover) {
    forall g :: g in m ==> Lies(u, into, gone, twin, m, g)
  }

  /** What the pair hands over lies below `gone`, and what takes it over below `into`, both below `gone`. */
  lemma PairWithin(u: Tree, into: nat, gone: nat, keeper: nat, twin: nat, n: Handover)
    requires Linked(u) && Twins(u, into, gone, keeper, twin) && Above(u, gone, into) && Within(u, keeper, twin, n)
    ensures AllLie(u, into, gone, twin, n[twin := keeper])
  {
    var m := n[twin := keeper];
    ParentAbove(u, into, keeper);
    ParentAbove(u, gone, twin);
    assert Above(u, twin, twin) && Above(u, keeper, keeper);
    forall g | g in m ensures Lies(u, into, gone, twin, m, g) {
      Transitive(u, gone, twin, g);
      Transitive(u, into, keeper, m[g]);
      Transitive(u, gone, into, m[g]);
      Bounds(u, twin, g);
      Bounds(u, keeper, m[g]);
      Bounds(u, gone, twin);
      Bounds(u, into, keeper);
    }
  }

  lemma EntangledWayUp(u: Tree, v: Tree, into: nat, gone: nat, keeper: nat, twin: nat, n: Handover)
    requires Linked(u) && Linked(v) && Mergeable(u, into, gone) && Above(u, gone, into)
    requires Twins(u, into, gone, keeper, twin)
    requires Apart(u, keeper, twin) && FoldersFollow(u, v, n[twin := keeper], n[twin := keeper])
    requires into !in n[twin := keeper] && gone !in n[twin := keeper]
    requires AllLie(u, into, gone, twin, n[twin := keeper])
    ensures Mergeable(v, into, gone) && Above(v, gone, into)
  {
    hide Linked, Above;
    var m := n[twin := keeper];
    ParentAbove(u, into, keeper);
    ParentAbove(u, gone, twin);
    forall g | g in m ensures !Above(u, g, into) && !StrictlyAbove(u, g, gone) {
      if Above(u, g, into) {
        Transitive(u, twin, g, into);
        Transitive(u, twin, into, keeper);
      }
      if Above(u, g, gone) {
        Transitive(u, twin, g, gone);
      }
    }
    ChainUntouched(u, v, m, m, gone, into);
    ChainUntouched(u, v, m, m, into, gone);
  }

  /** The other pairs stand, and there are no new ones. */
  lemma EntangledTwins(u: Tree, v: Tree, into: nat, gone: nat, keeper: nat, twin: nat, n: Handover, k: nat, c: nat)
    requires Linked(u) && SiblingsDiffer(u) && Mergeable(u, into, gone)
    requires FoldersFollow(u, v, n[twin := keeper], n[twin := keeper])
    requires Twins(u, into, gone, keeper, twin) && Apart(u, keeper, twin)
    requires into !in n[twin := keeper] && gone !in n[twin := keeper] && Above(u, gone, into)
    requires AllLie(u, into, gone, twin, n[twin := keeper])
    ensures Twins(v, into, gone, k, c) <==> Twins(u, into, gone, k, c) && (k, c) != (keeper, twin)
  {
    hide Above, Linked;
    var m := n[twin := keeper];
    forall g | g in m ensures m[g] != into && m[g] != gone {
      assert Lies(u, into, gone, twin, m, g);
    }
    if Twins(u, into, gone, k, c) && (k, c) != (keeper, twin) {
      if k in m {
        ParentAbove(u, into, k);
        NotInPair(u, into, keeper, twin, k);
      }
      TwinsUnique(u, into, gone, keeper, twin, k, c);
      SiblingsApart(u, gone, c, twin) by { ParentAbove(u, gone, c); }
      assert k !in m && c !in m;
    }
  }

  lemma NotInPair(u: Tree, into: nat, keeper: nat, twin: nat, k: nat)
    requires Linked(u) && Apart(u, keeper, twin) && keeper in u && u[keeper].parent == Some(into) && k in u
    requires u[k].parent == Some(into)
    ensures Above(u, twin, k) ==> k == twin
  {
    if Above(u, twin, k) && k != twin {
      ParentAbove(u, into, keeper);
      Transitive(u, twin, into, keeper);
    }
  }

  lemma EntangledRound(s0: Tables, s1: Tables, s2: Tables, s3: Tables, into: nat, gone: nat, todo: set<(nat, nat)>,
                       keeper: nat, twin: nat, n: Handover)
    requires Sound(s1) && Sound(s3) && Entangled(s0.folder, s1.folder, into, gone, todo) && (keeper, twin) in todo
    requires Apart(s1.folder, keeper, twin) && MergedInto(s1, s2, keeper, twin, n)
    requires keeper in s2.folder && twin in s2.folder && keeper in s2.aggregate && twin in s2.aggregate
    requires keeper != twin
    requires HandedOver(s2, s3, keeper, twin) && keeper in s1.folder && twin in s1.folder
    ensures Entangled(s0.folder, s3.folder, into, gone, todo - {(keeper, twin)})
  {
    hide Linked, Above, Within, Paired, Carried, Quiet, LiveNamesDiffer, OneRoot, SiblingsDiffer, RootsUnnamed, Filed,
      Countable,
      Numbered, Emptied, Apart, Entangled, FoldersFollow, FilesFollow, DeltasFollow, TotalsFollow, NamesFollow;
    ValuesWithin(s1.folder, keeper, twin, n);
    FoldQuotient(s1, s2, s3, n, keeper, twin);
    QuotientFolders(s1, s3, n[twin := keeper], n[twin := keeper]);
    EntangledFolders(s0.folder, s1.folder, s3.folder, into, gone, todo, keeper, twin, n);
  }

  /** The whole round: merge of the pair, handover, and the bookkeeping one pair further. */
  lemma Round(s0: Tables, s1: Tables, s2: Tables, s3: Tables, into: nat, gone: nat, m: Handover, todo: set<(nat, nat)>,
              keeper: nat, twin: nat, n: Handover)
    requires Sound(s0) && Sound(s1) && Sound(s2) && Sound(s3) && Apart(s0.folder, into, gone)
    requires Apart(s1.folder, into, gone)
    requires Progress(s0, s1, into, gone, m, todo) && (keeper, twin) in todo
    requires MergedInto(s1, s2, keeper, twin, n)
    requires Twins(s2.folder, into, gone, keeper, twin) && keeper in s2.aggregate && twin in s2.aggregate
    requires keeper != twin
    requires HandedOver(s2, s3, keeper, twin)
    ensures Progress(s0, s3, into, gone, m + n[twin := keeper], todo - {(keeper, twin)}) && Apart(s3.folder, into, gone)
  {
    hide Linked, Above, Within, Paired, Untouched, Carried, Quiet, LiveNamesDiffer, OneRoot, SiblingsDiffer,
      RootsUnnamed, Filed, Countable,
      Numbered, Emptied, HandedOver, Apart, NamesFollow, FilesFollow, DeltasFollow, TotalsFollow, FoldersFollow;
    var m' := m + n[twin := keeper];
    RoundRows(s0, s1, s2, s3, into, gone, m, keeper, twin, n);
    QuotientFolders(s0, s3, m', m');
    ApartStays(s0.folder, s3.folder, into, gone, m');
    forall k: nat, c: nat | (k, c) in todo - {(keeper, twin)}
      ensures Untouched(s0.folder, m', k) && Untouched(s0.folder, m', c)
    {
      TwinsUnique(s0.folder, into, gone, keeper, twin, k, c);
      OthersUntouched(s0.folder, into, gone, m, keeper, twin, n[twin := keeper], k, c);
    }
    if Quiet(s0, into, gone) {
      RoundCarried(s0, s1, s2, s3, into, gone, m, keeper, twin, n);
    }
  }

  lemma TwinsUnique(t: Tree, into: nat, gone: nat, k: nat, c: nat, k': nat, c': nat)
    requires SiblingsDiffer(t) && Twins(t, into, gone, k, c) && Twins(t, into, gone, k', c') && (k, c) != (k', c')
    ensures c != c'
  {
    assert k != k' ==> t[k].key != t[k'].key;
  }

  /** Where a merge stands once the pairs outside `todo` are settled, whether or not the two folders are apart. */
  ghost predicate Underway(s0: Tables, s: Tables, into: nat, gone: nat, m: Handover, todo: set<(nat, nat)>) {
    if Above(s0.folder, gone, into) then Entangled(s0.folder, s.folder, into, gone, todo)
    else Apart(s0.folder, into, gone) && Apart(s.folder, into, gone) && Progress(s0, s, into, gone, m, todo)
  }

  lemma NotUnderwayYet(s: Tables, into: nat, gone: nat, todo: set<(nat, nat)>)
    requires Mergeable(s.folder, into, gone)
    requires forall k: nat, c: nat :: Twins(s.folder, into, gone, k, c) <==> (k, c) in todo
    ensures Underway(s, s, into, gone, map[], todo)
  {
    MergeableApart(s.folder, into, gone);
    if !Above(s.folder, gone, into) {
      NoProgressYet(s, into, gone, todo);
    }
  }

  lemma NextPair(s0: Tables, s: Tables, into: nat, gone: nat, m: Handover, todo: set<(nat, nat)>, keeper: nat,
                 twin: nat)
    requires Linked(s0.folder) && Linked(s.folder) && Underway(s0, s, into, gone, m, todo) && (keeper, twin) in todo
    ensures Twins(s.folder, into, gone, keeper, twin) && Mergeable(s.folder, keeper, twin)
    ensures Mergeable(s.folder, into, gone)
    ensures Subtree(s.folder, twin) < Subtree(s0.folder, gone)
    ensures !Above(s0.folder, gone, into) ==> Apart(s.folder, keeper, twin)
  {
    hide Linked, Above, Apart, Mergeable, Progress;
    if Above(s0.folder, gone, into) {
      EntangledMergeable(s0.folder, s.folder, into, gone, todo);
      PairEntangled(s0.folder, s.folder, into, gone, todo, keeper, twin);
    } else {
      PairReady(s0, s, into, gone, m, todo, keeper, twin);
      MergeableApart(s.folder, keeper, twin);
      MergeableApart(s.folder, into, gone);
    }
  }

  lemma EntangledMergeable(t: Tree, u: Tree, into: nat, gone: nat, todo: set<(nat, nat)>)
    requires Entangled(t, u, into, gone, todo)
    ensures Mergeable(u, into, gone)
  {
  }

  lemma NextRound(s0: Tables, s1: Tables, s2: Tables, s3: Tables, into: nat, gone: nat, m: Handover,
                  todo: set<(nat, nat)>,
                  keeper: nat, twin: nat, n: Handover)
    requires Sound(s0) && Sound(s1) && Sound(s2) && Sound(s3) && Underway(s0, s1, into, gone, m, todo)
    requires (keeper, twin) in todo
    requires Apart(s1.folder, keeper, twin) && MergedInto(s1, s2, keeper, twin, n)
    requires Twins(s1.folder, into, gone, keeper, twin)
    requires Twins(s2.folder, into, gone, keeper, twin) && keeper in s2.aggregate && twin in s2.aggregate
    requires keeper != twin
    requires HandedOver(s2, s3, keeper, twin)
    ensures Underway(s0, s3, into, gone, m + n[twin := keeper], todo - {(keeper, twin)})
  {
    hide Above, WellFormed, Filed, LiveNamesDiffer, Numbered, Countable, Apart, Entangled, Progress, MergedInto,
      HandedOver;
    if Above(s0.folder, gone, into) {
      EntangledRound(s0, s1, s2, s3, into, gone, todo, keeper, twin, n);
    } else {
      Round(s0, s1, s2, s3, into, gone, m, todo, keeper, twin, n);
    }
  }

  /** A pair's refusal is a refusal here, for the same two reasons. */
  lemma PairRefused(s0: Tables, s: Tables, into: nat, gone: nat, m: Handover, todo: set<(nat, nat)>, keeper: nat,
                    twin: nat)
    requires Linked(s0.folder) && Linked(s.folder) && Underway(s0, s, into, gone, m, todo) && (keeper, twin) in todo
    requires BothLive(s, keeper, twin) || Above(s.folder, twin, keeper)
    ensures BothLive(s0, into, gone) || Above(s0.folder, gone, into)
  {
    hide Linked, Above, Apart, BothLive, Progress;
    if !Above(s0.folder, gone, into) {
      PairReady(s0, s, into, gone, m, todo, keeper, twin);
      MergeableApart(s.folder, keeper, twin);
      RefusedBelow(s0, s, into, gone, m, todo, keeper, twin);
    }
  }

  /** With every pair settled the two folders have no namesakes left, so the rest may be poured. */
  lemma PairsSettled(s0: Tables, s: Tables, into: nat, gone: nat, m: Handover)
    requires Linked(s0.folder) && Underway(s0, s, into, gone, m, {})
    ensures NoTwins(s.folder, into, gone) && Mergeable(s.folder, into, gone)
    ensures Above(s.folder, gone, into) <==> Above(s0.folder, gone, into)
  {
    hide Linked, Above, Progress;
    if !Above(s0.folder, gone, into) {
      NoneLeft(s0, s, into, gone, m);
      MergeableApart(s.folder, into, gone);
    }
  }

  lemma Completed(s0: Tables, s: Tables, s': Tables, into: nat, gone: nat, m: Handover)
    requires Linked(s0.folder) && Underway(s0, s, into, gone, m, {}) && !Above(s0.folder, gone, into)
    requires Quotient(s, s', map[], map[gone := into]) && Emptied(s', gone) && Apart(s'.folder, into, gone)
    requires Poured(s, s', into, gone)
    ensures Apart(s0.folder, into, gone) && MergedInto(s0, s', into, gone, m)
  {
    hide Linked, Above, Apart, Progress, Quotient, Emptied, Poured, MergedInto;
    Merged(s0, s, s', into, gone, m);
  }

  lemma PourRefused(s0: Tables, s: Tables, into: nat, gone: nat, m: Handover)
    requires Linked(s0.folder) && Underway(s0, s, into, gone, m, {})
    requires Above(s0.folder, gone, into) || (LiveIn(s.file, into) && LiveIn(s.file, gone))
    ensures BothLive(s0, into, gone) || Above(s0.folder, gone, into)
  {
    hide Linked, Above, Apart, BothLive, Progress;
    if !Above(s0.folder, gone, into) {
      RefusedAt(s0, s, into, gone, m);
    }
  }

  /**
   `reconcile._absorb`: children of both folders that share a key are one directory each, so they are
   merged first and recursively, and then whatever is left of `gone` is poured into `into`.
   A live name held on both sides refuses the merge, and so does `gone` lying above `into`, however many
   namesakes are merged before that shows; the caller's transaction is then undone.
  */
  method MergeInto(db: Database, into: nat, gone: nat) returns (ok: bool, merged: Handover)
    requires db.Valid() && Mergeable(db.folder, into, gone)
    modifies db`folder, db`closure, db`file, db`delta, db`aggregate
    ensures ok ==>
      db.Valid() && Apart(old(db.folder), into, gone) && MergedInto(old(db.Rows()), db.Rows(), into, gone, merged)
    ensures !ok ==> BothLive(old(db.Rows()), into, gone) || Above(old(db.folder), gone, into)
    decreases Subtree(db.folder, gone)
  {
    hide OneRoot, SiblingsDiffer, RootsUnnamed, LiveNamesDiffer, Filed, Countable, Numbered, Exact, Linked, Above,
      Apart, Mergeable,
      Within, Quotient, Emptied, BothLive, LiveIn, Subtree, Underway, MergedInto, HandedOver, Twins, NoTwins, Poured;
    ghost var was := db.Rows();
    merged, ok := map[], true;
    var todo: set<(nat, nat)> := set k, c | k in db.folder && c in db.folder && Twins(db.folder, into, gone, k, c) ::
      (k, c);
    AllPairs(db.folder, into, gone, todo);
    NotUnderwayYet(was, into, gone, todo);
    while todo != {}
      invariant db.Valid() && Underway(was, db.Rows(), into, gone, merged, todo)
      decreases todo
    {
      var pair: (nat, nat) :| pair in todo;
      var keeper, twin := pair.0, pair.1;
      ghost var before := db.Rows();
      NextPair(was, before, into, gone, merged, todo, keeper, twin);
      var done, inner := MergeInto(db, keeper, twin);
      if !done {
        PairRefused(was, before, into, gone, merged, todo, keeper, twin);
        return false, merged;
      }
      ghost var between := db.Rows();
      PairRemains(before, between, into, gone, keeper, twin, inner);
      HandOver(db, keeper, twin, into, gone);
      NextRound(was, before, between, db.Rows(), into, gone, merged, todo, keeper, twin, inner);
      merged := merged + inner[twin := keeper];
      todo := todo - {pair};
    }
    ghost var left := db.Rows();
    PairsSettled(was, left, into, gone, merged);
    ok := Absorb(db, into, gone);
    if ok {
      MergeableApart(left.folder, into, gone);
      Completed(was, left, db.Rows(), into, gone, merged);
    } else {
      PourRefused(was, left, into, gone, merged);
    }
  }

  lemma AllPairs(t: Tree, into: nat, gone: nat, todo: set<(nat, nat)>)
    requires todo == set k, c | k in t && c in t && Twins(t, into, gone, k, c) :: (k, c)
    ensures forall k: nat, c: nat :: Twins(t, into, gone, k, c) <==> (k, c) in todo
  {
  }

  lemma RefusedBelow(s0: Tables, s: Tables, into: nat, gone: nat, m: Handover, todo: set<(nat, nat)>, keeper: nat,
                     twin: nat)
    requires Linked(s0.folder) && Linked(s.folder) && Apart(s0.folder, into, gone)
    requires Progress(s0, s, into, gone, m, todo)
    requires (keeper, twin) in todo && BothLive(s, keeper, twin)
    ensures BothLive(s0, into, gone)
  {
    hide Linked, Above, Within, Paired, Untouched, Carried, Quiet, LiveBelow, Apart, FoldersFollow, NamesFollow,
      FilesFollow, DeltasFollow, TotalsFollow;
    PairStands(s0.folder, s.folder, into, gone, m, keeper, twin);
    ChildrenApart(s0.folder, into, gone, keeper, twin);
    LiveBelowBefore(s0, s, into, m, keeper);
    LiveBelowBefore(s0, s, gone, m, twin);
  }

  lemma RefusedAt(s0: Tables, s: Tables, into: nat, gone: nat, m: Handover)
    requires Linked(s0.folder) && Apart(s0.folder, into, gone) && Progress(s0, s, into, gone, m, {})
    requires LiveIn(s.file, into) && LiveIn(s.file, gone)
    ensures BothLive(s0, into, gone)
  {
    hide Linked, Above, Within, Paired, Untouched, Carried, Quiet, LiveBelow, Apart, FoldersFollow, NamesFollow,
      FilesFollow, DeltasFollow, TotalsFollow;
    ApartRows(s0.folder, into, gone);
    ValuesWithin(s0.folder, into, gone, m);
    LiveAtBefore(s0, s, into, m);
    LiveAtBefore(s0, s, gone, m);
  }

  /** With every pair settled the two folders have no namesakes left, so the rest may be poured. */
  lemma NoneLeft(s0: Tables, s: Tables, into: nat, gone: nat, m: Handover)
    requires Linked(s0.folder) && Apart(s0.folder, into, gone) && Progress(s0, s, into, gone, m, {})
    ensures NoTwins(s.folder, into, gone) && into != gone
  {
    hide Linked, Above, Apart, Paired, Carried, Quiet, NamesFollow, FilesFollow, DeltasFollow, TotalsFollow;
    ApartDiffer(s0.folder, into, gone);
    ValuesWithin(s0.folder, into, gone, m);
    assert forall g :: g in m ==> m[g] in m.Values;
    forall k, c ensures !Twins(s.folder, into, gone, k, c) {
      assert Twins(s0.folder, into, gone, k, c) ==> c in m;
      if k in s.folder && c in s.folder {
        assert s.folder[k].parent == ViaParent(m, s0.folder[k].parent)
          && s.folder[c].parent == ViaParent(m, s0.folder[c].parent);
      }
    }
  }

  lemma Merged(s0: Tables, s: Tables, s': Tables, into: nat, gone: nat, m: Handover)
    requires Linked(s0.folder) && Apart(s0.folder, into, gone) && Progress(s0, s, into, gone, m, {})
    requires Quotient(s, s', map[], map[gone := into]) && Emptied(s', gone) && Apart(s'.folder, into, gone)
    requires Poured(s, s', into, gone)
    ensures MergedInto(s0, s', into, gone, m)
  {
    hide Linked, Above, Apart, Emptied, FoldersFollow, NamesFollow, FilesFollow, DeltasFollow, TotalsFollow, Within,
      Paired, Untouched, Twins;
    ValuesWithin(s0.folder, into, gone, m);
    PourQuotient(s0, s, s', m, into, gone);
    if Quiet(s0, into, gone) {
      MergedCarried(s0, s, s', into, gone);
    }
  }

  lemma MergedCarried(s0: Tables, s: Tables, s': Tables, into: nat, gone: nat)
    requires Carried(s0, s, into, gone) && Poured(s, s', into, gone)
    requires FoldersFollow(s.folder, s'.folder, map[], map[gone := into])
    ensures Carried(s0, s', into, gone)
  {
    hide Slack, Inner;
  }
}
