/** `folders.absorb`: everything one folder holds moves into another, child by child. */
module Absorbing {
  import opened Common
  import opened Totals
  import opened FolderTree
  import opened Rollup
  import opened SlackMoves
  import opened Steps
  import opened Moves
  import opened Relinking
  import opened Expansion
  import opened Merging
  import opened DatabaseModel

  /** After the children in `done` were rehung from `gone` to `into`. */
  ghost predicate Rehung(t: Tree, u: Tree, into: nat, gone: nat, done: set<nat>) {
    (forall f :: f in u <==> f in t) &&
    (forall f {:trigger u[f].parent} {:trigger u[f].key} {:trigger u[f].workspace} {:trigger u[f].name} :: f in t ==>
      u[f].parent == (if f in done then Some(into) else t[f].parent)
      && u[f].key == t[f].key && u[f].workspace == t[f].workspace && u[f].name == t[f].name)
  }

  /** No child of one folder has a namesake among the other's. */
  ghost predicate NoTwins(t: Tree, into: nat, gone: nat) {
    forall k, c :: !Twins(t, into, gone, k, c)
  }

  ghost predicate ChildOf(t: Tree, gone: nat, c: nat) {
    c in t && t[c].parent == Some(gone)
  }

  lemma CanRehang(t: Tree, u: Tree, into: nat, gone: nat, done: set<nat>, c: nat)
    requires WellFormed(t) && WellFormed(u) && Rehung(t, u, into, gone, done) && NoTwins(t, into, gone)
    requires (forall d :: d in done ==> ChildOf(t, gone, d)) && ChildOf(t, gone, c) && c !in done && into in u
    requires !Above(u, c, into)
    ensures CanHang(u, c, into, u[c].name, u[c].key)
  {
    forall d | d in u && d != c && u[d].parent == Some(into) ensures u[d].key != u[c].key {
      if d !in done && u[d].key == u[c].key {
        assert Twins(t, into, gone, d, c);
      }
    }
  }

  /** The way up from `into` is what it was; `into` still does not contain `gone`. */
  ghost predicate SameWayUp(t: Tree, u: Tree, into: nat, gone: nat) {
    (forall a: nat :: Above(u, a, into) <==> Above(t, a, into)) && Mergeable(u, into, gone)
  }

  lemma RehungOne(t: Tree, u: Tree, into: nat, gone: nat, done: set<nat>, c: nat)
    requires Linked(u) && Rehung(t, u, into, gone, done) && SameWayUp(t, u, into, gone) && c in u
    requires u[c].parent == Some(gone)
    requires !Above(u, c, into)
    ensures var v := Hang(u, c, into, u[c].name, u[c].key);
      Rehung(t, v, into, gone, done + {c}) && SameWayUp(t, v, into, gone)
  {
    hide Hang, Above, Linked, Rehung, OneLink;
    var v := Hang(u, c, into, u[c].name, u[c].key);
    RehungWayUp(u, into, gone, c);
    RehungRows(u, into, gone, c);
    RehungStep(t, u, v, into, gone, done, c);
  }

  ghost predicate OneLink(u: Tree, v: Tree, into: nat, c: nat)
    requires c in u
  {
    (forall f :: f in v <==> f in u) && v[c].parent == Some(into) &&
    forall f {:trigger v[f].parent} {:trigger v[f].key} {:trigger v[f].workspace} {:trigger v[f].name} :: f in u ==>
      (f != c ==> v[f].parent == u[f].parent) && v[f].key == u[f].key && v[f].workspace == u[f].workspace
        && v[f].name == u[f].name
  }

  lemma RehungStep(t: Tree, u: Tree, v: Tree, into: nat, gone: nat, done: set<nat>, c: nat)
    requires c in u && Rehung(t, u, into, gone, done) && OneLink(u, v, into, c)
    ensures Rehung(t, v, into, gone, done + {c})
  {
  }

  lemma RehungWayUp(u: Tree, into: nat, gone: nat, c: nat)
    requires Linked(u) && Mergeable(u, into, gone) && c in u && u[c].parent == Some(gone) && !Above(u, c, into)
    ensures SameWayUp(u, Hang(u, c, into, u[c].name, u[c].key), into, gone)
  {
    var v := Hang(u, c, into, u[c].name, u[c].key);
    ParentAbove(u, gone, c);
    forall a: nat ensures Above(v, a, into) <==> Above(u, a, into) {
      HangAbove(u, c, into, u[c].name, u[c].key, a, into);
    }
    HangAbove(u, c, into, u[c].name, u[c].key, into, gone);
    Bounds(u, gone, c);
  }

  /** Hanging a child elsewhere in its workspace changes one link, and depths. */
  lemma RehungRows(u: Tree, into: nat, gone: nat, c: nat)
    requires Linked(u) && Mergeable(u, into, gone) && c in u && u[c].parent == Some(gone) && !Above(u, c, into)
    ensures OneLink(u, Hang(u, c, into, u[c].name, u[c].key), into, c)
  {
    assert Above(u, c, c);
    ParentAbove(u, gone, c);
    Bounds(u, gone, c);
    forall f | f in u && Above(u, c, f) ensures u[f].workspace == u[into].workspace {
      Bounds(u, c, f);
    }
  }

  lemma AllRehung(s: Tables, s': Tables, into: nat, gone: nat, done: set<nat>)
    requires Rehung(s.folder, s'.folder, into, gone, done) && forall c :: c in done <==> ChildOf(s.folder, gone, c)
    requires s'.file == Refiled(s.file, gone, into) && s' == s.(folder := s'.folder, file := s'.file)
    requires into != gone
    ensures Quotient(s, s', map[], map[gone := into])
  {
    hide Rehung, FoldersFollow, NamesFollow, Refiled;
    RehungFollow(s.folder, s'.folder, into, gone, done);
    RefiledFollow(s.file, into, gone);
    assert TotalsFollow(s.aggregate, s'.aggregate, map[]);
  }

  lemma RehungFollow(t: Tree, u: Tree, into: nat, gone: nat, done: set<nat>)
    requires Rehung(t, u, into, gone, done) && forall c :: c in done <==> ChildOf(t, gone, c)
    ensures FoldersFollow(t, u, map[], map[gone := into]) && NamesFollow(t, u, map[])
  {
  }

  lemma RefiledFollow(file: map<nat, File>, into: nat, gone: nat)
    ensures FilesFollow(file, Refiled(file, gone, into), map[gone := into])
  {
  }

  /** Between the two folders the equation is conserved; everywhere else it does not move. */
  ghost predicate Poured(s: Tables, s': Tables, into: nat, gone: nat) {
    (forall a, u :: a != into && a != gone ==> Slack(s', a, u) == Slack(s, a, u)) &&
    (forall u :: Slack(s', into, u) + Slack(s', gone, u) == Slack(s, into, u) + Slack(s, gone, u))
  }

  lemma PouredFiles(s: Tables, into: nat, gone: nat)
    requires into != gone
    ensures Poured(s, s.(file := Refiled(s.file, gone, into)), into, gone)
  {
    hide Slack;
    forall a, u {
      RefileMoves(s, gone, into, a, u);
    }
  }

  lemma PouredChild(s: Tables, s1: Tables, into: nat, gone: nat, c: nat, name: string, key: string)
    requires Poured(s, s1, into, gone) && c in s1.folder && into in s1.folder && s1.folder[c].parent == Some(gone)
    requires into != gone
    ensures Poured(s, s1.(folder := Hang(s1.folder, c, into, name, key)), into, gone)
  {
    hide Slack, Hang;
    var t := Hang(s1.folder, c, into, name, key);
    HangParents(s1.folder, c, into, name, key);
    forall a, u {
      Reparent(s1, t, c, a, u);
    }
  }

  lemma HangParents(t: Tree, x: nat, p: nat, name: string, key: string)
    requires x in t && p in t
    ensures var u := Hang(t, x, p, name, key);
      u.Keys == t.Keys && u[x].parent == Some(p) && forall f :: f in t && f != x ==> u[f].parent == t[f].parent
  {
    assert Above(t, x, x);
  }

  ghost predicate LiveIn(file: map<nat, File>, f: nat) {
    exists i :: i in file && file[i].live && file[i].folder == f
  }

  /** A live file on either side has the same name. */
  ghost predicate TwoLive(file: map<nat, File>, into: nat, gone: nat) {
    exists i, j :: i in file && j in file && file[i].live && file[j].live && file[i].folder == gone
      && file[j].folder == into && file[i].key == file[j].key
  }

  predicate Collide(a: File, b: File, gone: nat, into: nat) {
    a.live && b.live && a.folder == gone && b.folder == into && a.key == b.key
  }

  lemma RefiledSound(s: Tables, into: nat, gone: nat)
    requires Sound(s) && into in s.folder && gone in s.folder && s.folder[into].workspace == s.folder[gone].workspace
    requires forall i, j :: i in s.file && j in s.file ==> !Collide(s.file[i], s.file[j], gone, into)
    ensures Sound(s.(file := Refiled(s.file, gone, into)))
  {
    hide WellFormed, Countable;
  }

  lemma HangSound(s: Tables, x: nat, p: nat, name: string, key: string)
    requires Sound(s) && CanHang(s.folder, x, p, name, key) && s.folder[x].workspace == s.folder[p].workspace
    ensures Sound(s.(folder := Hang(s.folder, x, p, name, key)))
  {
    hide OneRoot, SiblingsDiffer, RootsUnnamed, LiveNamesDiffer, Countable, NameFree, Numbered;
    CarrySound(s, x, p, name, key);
    CarryWithin(s, x, p, name, key);
    CarryShape(s, x, p, name, key);
  }

  /**
   The unique index on live names refuses the re-filing, and the closure's primary key refuses the child that `into`
   lies under, which is there exactly when `gone` contains `into`. The caller's transaction is then undone.
  */
  method Absorb(db: Database, into: nat, gone: nat) returns (ok: bool)
    requires db.Valid() && Mergeable(db.folder, into, gone) && NoTwins(db.folder, into, gone)
    modifies db`folder, db`closure, db`file
    ensures ok ==> db.Valid() && Quotient(old(db.Rows()), db.Rows(), map[], map[gone := into])
    ensures ok ==> Emptied(db.Rows(), gone) && Apart(old(db.folder), into, gone) && Apart(db.folder, into, gone)
    ensures ok ==> Poured(old(db.Rows()), db.Rows(), into, gone)
    ensures !ok <==> Above(old(db.folder), gone, into) || TwoLive(old(db.file), into, gone)
    ensures !ok ==> Above(old(db.folder), gone, into) || (LiveIn(old(db.file), into) && LiveIn(old(db.file), gone))
  {
    hide WellFormed, LiveNamesDiffer, Filed, Countable, Numbered, Exact, Slack, NoTwins, Poured, Rehung, Mergeable,
      Apart, CanHang, Quotient,
      Clashes, SameWayUp, Above;
    ghost var was := db.Rows();
    if exists i, j :: i in db.file && j in db.file && Collide(db.file[i], db.file[j], gone, into) {
      return false;
    }
    MergeableRows(was.folder, into, gone);
    RefiledSound(was, into, gone);
    PouredFiles(was, into, gone);
    RehungNone(was.folder, into, gone);
    db.file := Refiled(db.file, gone, into);
    var children := set c | c in db.folder && db.folder[c].parent == Some(gone);
    var rest := children;
    ghost var done: set<nat> := {};
    while rest != {}
      invariant done + rest == children && done !! rest
      invariant db.Valid() && db.Rows() == was.(folder := db.folder, file := db.file)
      invariant db.file == Refiled(was.file, gone, into)
      invariant Rehung(was.folder, db.folder, into, gone, done) && SameWayUp(was.folder, db.folder, into, gone)
      invariant Poured(was, db.Rows(), into, gone) && forall c :: c in done ==> !Above(was.folder, c, into)
      decreases rest
    {
      var c :| c in rest;
      var row := db.folder[c];
      RefusedOnTheWay(was, db.Rows(), db.closure, into, gone, done, c);
      if Clashes(db.closure, c, into) {
        return false;
      }
      RehangRound(was, db.Rows(), into, gone, done, c);
      db.Rehang(c, into, row.name, row.key);
      done, rest := done + {c}, rest - {c};
    }
    NoneOnTheWay(was.folder, db.folder, into, gone, done);
    AllRehung(was, db.Rows(), into, gone, done);
    AllGone(was, db.Rows(), into, gone, done);
    ok := true;
  }

  /** The attach of one child is refused exactly when it contains `into`, and then `gone` does. */
  lemma RefusedOnTheWay(was: Tables, s: Tables, closure: Closure, into: nat, gone: nat, done: set<nat>, c: nat)
    requires Sound(was) && Sound(s) && Exact(closure, s.folder) && Rehung(was.folder, s.folder, into, gone, done)
    requires SameWayUp(was.folder, s.folder, into, gone) && ChildOf(was.folder, gone, c) && c !in done
    requires gone in was.folder
    ensures c in s.folder && into in s.folder && (Clashes(closure, c, into) <==> Above(s.folder, c, into))
    ensures Above(s.folder, c, into) <==> Above(was.folder, c, into)
    ensures Above(was.folder, c, into) ==> Above(was.folder, gone, into)
  {
    hide Clashes, Exact;
    AttachClashes(closure, s.folder, c, into);
    if Above(was.folder, c, into) {
      ParentAbove(was.folder, gone, c);
      Transitive(was.folder, gone, c, into);
    }
  }

  /** Nothing below `gone` leads to `into`: the two are apart, before and after. */
  lemma NoneOnTheWay(t: Tree, u: Tree, into: nat, gone: nat, done: set<nat>)
    requires WellFormed(t) && Mergeable(t, into, gone) && SameWayUp(t, u, into, gone)
    requires (forall c :: ChildOf(t, gone, c) ==> c in done) && forall c :: c in done ==> !Above(t, c, into)
    ensures Apart(t, into, gone) && Apart(u, into, gone)
  {
    MergeableApart(t, into, gone);
    MergeableApart(u, into, gone);
    if Above(t, gone, into) {
      var c := Toward(t, gone, into);
      assert ChildOf(t, gone, c);
    }
  }

  lemma MergeableRows(t: Tree, into: nat, gone: nat)
    requires Mergeable(t, into, gone)
    ensures into in t && gone in t && t[into].workspace == t[gone].workspace && into != gone
    ensures SameWayUp(t, t, into, gone)
  {
    MergeableApart(t, into, gone);
  }

  lemma ApartRows(t: Tree, into: nat, gone: nat)
    requires Apart(t, into, gone)
    ensures into in t && gone in t && t[into].workspace == t[gone].workspace
  {
  }

  lemma RehungNone(t: Tree, into: nat, gone: nat)
    ensures Rehung(t, t, into, gone, {})
  {
  }

  /** One child rehung: allowed, sound, and neutral outside the two folders. */
  lemma RehangRound(was: Tables, s: Tables, into: nat, gone: nat, done: set<nat>, c: nat)
    requires Sound(was) && Sound(s) && Rehung(was.folder, s.folder, into, gone, done)
    requires SameWayUp(was.folder, s.folder, into, gone)
    requires NoTwins(was.folder, into, gone) && Poured(was, s, into, gone) && into != gone && c in s.folder
    requires !Above(s.folder, c, into)
    requires (forall d :: d in done ==> ChildOf(was.folder, gone, d)) && ChildOf(was.folder, gone, c) && c !in done
    requires into in s.folder
    ensures CanHang(s.folder, c, into, s.folder[c].name, s.folder[c].key)
    ensures var t := Hang(s.folder, c, into, s.folder[c].name, s.folder[c].key);
      Sound(s.(folder := t)) && Rehung(was.folder, t, into, gone, done + {c})
        && SameWayUp(was.folder, t, into, gone) && Poured(was, s.(folder := t), into, gone)
  {
    hide OneRoot, SiblingsDiffer, RootsUnnamed, LiveNamesDiffer, Filed, Countable, Numbered, NoTwins, Hang, NameFree,
      Poured, SameWayUp, Above, Linked;
    CanRehang(was.folder, s.folder, into, gone, done, c);
    RehungOne(was.folder, s.folder, into, gone, done, c);
    ChildShares(s.folder, into, gone, c) by { RehungChild(was.folder, s.folder, into, gone, done, c); }
    HangSound(s, c, into, s.folder[c].name, s.folder[c].key);
    PouredChild(was, s, into, gone, c, s.folder[c].name, s.folder[c].key) by { RehungChild(was.folder, s.folder, into, gone, done, c); }
  }

  lemma RehungChild(t: Tree, u: Tree, into: nat, gone: nat, done: set<nat>, c: nat)
    requires Rehung(t, u, into, gone, done) && SameWayUp(t, u, into, gone) && ChildOf(t, gone, c) && c !in done
    ensures c in u && u[c].parent == Some(gone) && Mergeable(u, into, gone)
  {
  }

  lemma ChildShares(t: Tree, into: nat, gone: nat, c: nat)
    requires Linked(t) && Mergeable(t, into, gone) && c in t && t[c].parent == Some(gone)
    ensures t[c].workspace == t[into].workspace
  {
    assert t[c].parent.Some?;
  }

  lemma AllGone(s: Tables, s': Tables, into: nat, gone: nat, done: set<nat>)
    requires Rehung(s.folder, s'.folder, into, gone, done) && (forall c :: c in done <==> ChildOf(s.folder, gone, c))
    requires s'.file == Refiled(s.file, gone, into) && into != gone
    ensures Emptied(s', gone)
  {
    forall c | c in s'.folder ensures s'.folder[c].parent != Some(gone) {
      assert c in done || !ChildOf(s.folder, gone, c);
    }
  }
}
