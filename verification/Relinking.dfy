/** The two closure rewrites, `_detach` and `_attach`, and why together they leave it exact. */
module Relinking {
  import opened Common
  import opened FolderTree

  /** Cut every link that reaches into the subtree of `x` from outside it. */
  function Detached(c: Closure, x: nat): Closure {
    map k | k in c && ((x, k.1) !in c || (x, k.0) in c) :: c[k]
  }

  /** Pair every ancestor of `p` with every folder under `x`. */
  function Attached(c: Closure, x: nat, p: nat): Closure {
    c + Crossed(c, x, p)
  }

  function Crossed(c: Closure, x: nat, p: nat): Closure {
    var above := set k | k in c && k.1 == p :: k.0;
    var below := set k | k in c && k.0 == x :: k.1;
    map a, d | a in above && d in below && (a, p) in c && (x, d) in c :: (a, d) := c[(a, p)] + c[(x, d)] + 1
  }

  /** Linking a new leaf: itself at depth zero, and its parent's ancestors one level further up. */
  function WithLeaf(c: Closure, f: nat, parent: Option<nat>): Closure {
    var above := match parent
      case None => {}
      case Some(p) => set k | k in c && k.1 == p :: (k.0, f);
    c + map k | k in above + {(f, f)} ::
      if parent.Some? && (k.0, parent.value) in c then c[(k.0, parent.value)] + 1 else 0
  }

  lemma CrossedRows(c: Closure, x: nat, p: nat, a: nat, d: nat)
    ensures (a, d) in Crossed(c, x, p) <==> (a, p) in c && (x, d) in c
    ensures (a, d) in Crossed(c, x, p) ==> Crossed(c, x, p)[(a, d)] == c[(a, p)] + c[(x, d)] + 1
  {
    if (a, p) in c && (x, d) in c {
      assert (a, p).0 == a && (x, d).1 == d;
    }
  }

  /** Which rows the rewritten closure holds, and with which lengths. */
  lemma RelinkedRows(c: Closure, t: Tree, x: nat, p: nat, a: nat, d: nat)
    requires Exact(c, t) && !Above(t, x, p)
    ensures (a, d) in Attached(Detached(c, x), x, p) <==>
      (if Above(t, x, d) then (Above(t, x, a) && Above(t, a, d)) || Above(t, a, p) else Above(t, a, d))
    ensures Above(t, x, d) && Above(t, a, p) ==>
      Attached(Detached(c, x), x, p)[(a, d)] == c[(a, p)] + c[(x, d)] + 1
    ensures !(Above(t, x, d) && Above(t, a, p)) && (a, d) in Attached(Detached(c, x), x, p) ==>
      (a, d) in c && Attached(Detached(c, x), x, p)[(a, d)] == c[(a, d)]
  {
    hide Above;
    var cut := Detached(c, x);
    CrossedRows(cut, x, p, a, d);
    assert (x, p) !in c;
    assert (a, p) in cut <==> (a, p) in c;
    assert (x, d) in c ==> (x, x) in c by { SelfAbove(t, x, d); }
    assert (x, d) in cut <==> (x, d) in c;
  }

  lemma {:induction false} SelfAbove(t: Tree, x: nat, d: nat)
    ensures Above(t, x, d) ==> x in t && Above(t, x, x)
    decreases if d in t && t[d].depth > 0 then t[d].depth else 0
  {
    if Above(t, x, d) && x != d {
      SelfAbove(t, x, t[d].parent.value);
    }
  }

  /** Detach then attach turns the closure of a tree into the closure of the moved tree. */
  lemma RelinkExact(c: Closure, t: Tree, x: nat, p: nat, name: string, key: string)
    requires Linked(t) && Exact(c, t) && x in t && p in t && !Above(t, x, p)
    ensures Exact(Attached(Detached(c, x), x, p), Hang(t, x, p, name, key))
  {
    hide Hang, Detached, Attached, Linked;
    var c', u := Attached(Detached(c, x), x, p), Hang(t, x, p, name, key);
    forall a: nat, d: nat
      ensures (a, d) in c' <==> Above(u, a, d)
      ensures (a, d) in c' ==> a in u && d in u && c'[(a, d)] == u[d].depth - u[a].depth
    {
      RelinkedRows(c, t, x, p, a, d);
      HangAbove(t, x, p, name, key, a, d);
      if (a, d) in c' {
        HangDepths(t, x, p, name, key, a, d);
      }
    }
  }

  /** The insert of `_attach` writes a row that `_detach` left in place: the primary key refuses it. */
  predicate Clashes(c: Closure, x: nat, p: nat) {
    exists k :: k in Detached(c, x) && k in Crossed(Detached(c, x), x, p)
  }

  /** Attaching a detached subtree is refused exactly when the new parent lies inside it. */
  lemma AttachClashes(c: Closure, t: Tree, x: nat, p: nat)
    requires Linked(t) && Exact(c, t)
    ensures Clashes(c, x, p) <==> Above(t, x, p)
  {
    hide Detached, Crossed;
    if Above(t, x, p) {
      SelfAbove(t, x, p);
      CrossedRows(Detached(c, x), x, p, x, x);
      DetachedRows(c, x, (x, p));
      DetachedRows(c, x, (x, x));
    }
    if Clashes(c, x, p) {
      var k :| k in Detached(c, x) && k in Crossed(Detached(c, x), x, p);
      CrossedRows(Detached(c, x), x, p, k.0, k.1);
      DetachedRows(c, x, k);
      DetachedRows(c, x, (k.0, p));
      DetachedRows(c, x, (x, k.1));
      Transitive(t, x, k.0, p);
    }
  }

  lemma DetachedRows(c: Closure, x: nat, k: (nat, nat))
    ensures k in Detached(c, x) <==> k in c && ((x, k.1) !in c || (x, k.0) in c)
  {
  }

  /** How far apart two linked folders are after the move. */
  lemma HangDepths(t: Tree, x: nat, p: nat, name: string, key: string, a: nat, d: nat)
    requires Linked(t) && x in t && p in t && !Above(t, x, p)
    requires if Above(t, x, d) then (Above(t, x, a) && Above(t, a, d)) || Above(t, a, p) else Above(t, a, d)
    ensures var u := Hang(t, x, p, name, key);
      a in u && d in u && u[d].depth - u[a].depth ==
        (if Above(t, x, d) && Above(t, a, p) then (t[p].depth - t[a].depth) + (t[d].depth - t[x].depth) + 1
         else t[d].depth - t[a].depth)
  {
    if Above(t, x, d) && Above(t, a, p) {
      Bounds(t, a, p);
      if Above(t, x, a) {
        Transitive(t, x, a, p);
      }
    } else {
      Bounds(t, a, d);
      if !Above(t, x, d) && Above(t, x, a) {
        Transitive(t, x, a, d);
      }
    }
  }

  lemma LeafAbove(t: Tree, f: nat, row: Folder, a: nat, d: nat)
    requires Linked(t) && f !in t && (row.parent.Some? ==> row.parent.value in t && row.parent.value != f)
    requires row.depth == if row.parent.Some? then t[row.parent.value].depth + 1 else 0
    ensures Above(t[f := row], a, d) <==>
      (if d == f then a == f || (row.parent.Some? && Above(t, a, row.parent.value)) else Above(t, a, d))
    decreases if d in t then t[d].depth else if d == f then row.depth + 1 else 0
  {
    var u := t[f := row];
    if d in t && t[d].parent.Some? {
      LeafAbove(t, f, row, a, t[d].parent.value);
    } else if d == f && row.parent.Some? {
      LeafAbove(t, f, row, a, row.parent.value);
    }
  }

  lemma NoLinks(c: Closure, t: Tree, f: nat)
    requires Linked(t) && Exact(c, t) && f !in t
    ensures forall a: nat :: (a, f) !in c && (f, a) !in c
  {
  }

  lemma LeafRows(c: Closure, f: nat, parent: Option<nat>, a: nat, d: nat)
    requires forall b: nat :: (b, f) !in c && (f, b) !in c
    requires parent != Some(f)
    ensures (a, d) in WithLeaf(c, f, parent) <==>
      (if d == f then a == f || (parent.Some? && (a, parent.value) in c) else (a, d) in c)
    ensures (a, d) in WithLeaf(c, f, parent) ==>
      WithLeaf(c, f, parent)[(a, d)] == (if d != f then c[(a, d)] else if a == f then 0 else c[(a, parent.value)] + 1)
  {
    if parent.Some? {
      assert (f, parent.value) !in c;
      if d == f && a != f && (a, parent.value) in c {
        assert (a, parent.value).0 == a && (a, f).0 == a;
      }
    }
  }

  /** The closure insert of a new folder keeps the closure exact. */
  lemma LeafExact(c: Closure, t: Tree, f: nat, row: Folder)
    requires Linked(t) && Exact(c, t) && f !in t
    requires row.parent.Some? ==> row.parent.value in t
    requires row.depth == if row.parent.Some? then t[row.parent.value].depth + 1 else 0
    ensures Exact(WithLeaf(c, f, row.parent), t[f := row])
  {
    hide WithLeaf, Linked;
    NoLinks(c, t, f);
    var u := t[f := row];
    forall a: nat, d: nat
      ensures (a, d) in WithLeaf(c, f, row.parent) <==> Above(u, a, d)
      ensures (a, d) in WithLeaf(c, f, row.parent) ==>
        a in u && d in u && WithLeaf(c, f, row.parent)[(a, d)] == u[d].depth - u[a].depth
    {
      LeafRows(c, f, row.parent, a, d);
      LeafAbove(t, f, row, a, d);
    }
  }
}
