/**
 The `folder` table read as a tree: parent links, the redundant `depth` column, ancestry, and
 what hanging a subtree under another folder does to ancestry.
*/
module FolderTree {
  import opened Common

  /** One `folder` row. `key` is the comparison key its name was stored with. */
  datatype Folder = Folder(workspace: nat, parent: Option<nat>, name: string, key: string, depth: int)

  type Tree = map<nat, Folder>

  /** Every parent link resolves inside the workspace and the depth column counts the links. */
  ghost predicate Linked(t: Tree) {
    forall f {:trigger t[f].parent} :: f in t ==>
      match t[f].parent
      case None => t[f].depth == 0
      case Some(p) => p in t && t[p].depth >= 0 && t[f].depth == t[p].depth + 1 && t[f].workspace == t[p].workspace
  }

  ghost predicate OneRoot(t: Tree) {
    forall f, g :: f in t && g in t && t[f].parent == None && t[g].parent == None && t[f].workspace == t[g].workspace
      ==> f == g
  }

  ghost predicate SiblingsDiffer(t: Tree) {
    forall f, g :: f in t && g in t && t[f].parent.Some? && t[f].parent == t[g].parent && t[f].key == t[g].key ==>
      f == g
  }

  /** The root folder is the workspace directory itself, so it alone has no name. */
  ghost predicate RootsUnnamed(t: Tree) {
    forall f :: f in t ==> (t[f].parent == None <==> t[f].name == "")
  }

  /** Everything the `folder` table's constraints and writers keep true of it. */
  ghost predicate WellFormed(t: Tree) {
    Linked(t) && OneRoot(t) && SiblingsDiffer(t) && RootsUnnamed(t)
  }

  /** Reflexive ancestry: `a` is `d` or is met walking up from it. */
  predicate Above(t: Tree, a: nat, d: nat)
    decreases if d in t && t[d].depth > 0 then t[d].depth else 0
  {
    d in t && (a == d || (t[d].parent.Some? && var p := t[d].parent.value;
      p in t && 0 <= t[p].depth < t[d].depth && Above(t, a, p)))
  }

  /** The folders at or under `a`. */
  ghost function Subtree(t: Tree, a: nat): set<nat> {
    set d | d in t && Above(t, a, d)
  }

  lemma {:induction false} Bounds(t: Tree, a: nat, d: nat)
    requires Linked(t) && Above(t, a, d)
    ensures a in t && d in t && 0 <= t[a].depth <= t[d].depth && t[a].workspace == t[d].workspace
    ensures t[a].depth == t[d].depth ==> a == d
    decreases t[d].depth
  {
    if a != d {
      Bounds(t, a, t[d].parent.value);
    }
  }

  lemma {:induction false} Transitive(t: Tree, a: nat, b: nat, d: nat)
    requires Linked(t) && Above(t, a, b) && Above(t, b, d)
    ensures Above(t, a, d)
    decreases t[d].depth
  {
    if b != d {
      Transitive(t, a, b, t[d].parent.value);
    }
  }

  /** The ancestors of one folder form a chain. */
  lemma {:induction false} Chain(t: Tree, a: nat, b: nat, d: nat)
    requires Linked(t) && Above(t, a, d) && Above(t, b, d)
    ensures Above(t, a, b) || Above(t, b, a)
    decreases t[d].depth
  {
    if a != d && b != d {
      Chain(t, a, b, t[d].parent.value);
    }
  }

  lemma Antisymmetric(t: Tree, a: nat, b: nat)
    requires Linked(t) && Above(t, a, b) && Above(t, b, a)
    ensures a == b
  {
    Bounds(t, a, b);
    Bounds(t, b, a);
  }

  /** The child of `a` on the way down to a strict descendant, and its uniqueness. */
  lemma {:induction false} Toward(t: Tree, a: nat, d: nat) returns (c: nat)
    requires Linked(t) && Above(t, a, d) && a != d
    ensures c in t && t[c].parent == Some(a) && Above(t, c, d)
    ensures forall e :: e in t && t[e].parent == Some(a) && Above(t, e, d) ==> e == c
    decreases t[d].depth
  {
    var p := t[d].parent.value;
    if p == a {
      c := d;
      forall e | e in t && t[e].parent == Some(a) && Above(t, e, d) ensures e == c {
        Bounds(t, e, d);
      }
    } else {
      c := Toward(t, a, p);
    }
  }

  lemma ParentAbove(t: Tree, a: nat, c: nat)
    requires Linked(t) && a in t && c in t && t[c].parent == Some(a)
    ensures Above(t, a, c) && !Above(t, c, a) && a != c
  {
    if Above(t, c, a) {
      Bounds(t, c, a);
    }
  }

  // ------------------------------------------------------------------ walks, the plain reading

  /** A walk down the tree: each folder is the parent of the next. */
  ghost predicate Walk(t: Tree, w: seq<nat>) {
    |w| > 0 && (forall i :: 0 <= i < |w| ==> w[i] in t) &&
    (forall i :: 0 < i < |w| ==> t[w[i]].parent == Some(w[i - 1]))
  }

  /** Every walk from `a` to `d` witnesses ancestry and has exactly the length the depths say. */
  lemma {:induction false} WalkIsAncestry(t: Tree, w: seq<nat>)
    requires Linked(t) && Walk(t, w)
    ensures Above(t, w[0], w[|w| - 1])
    ensures |w| - 1 == t[w[|w| - 1]].depth - t[w[0]].depth
  {
    if |w| > 1 {
      var up := w[..|w| - 1];
      assert Walk(t, up);
      WalkIsAncestry(t, up);
    }
  }

  lemma {:induction false} AncestryIsWalk(t: Tree, a: nat, d: nat) returns (w: seq<nat>)
    requires Linked(t) && Above(t, a, d)
    ensures Walk(t, w) && w[0] == a && w[|w| - 1] == d
    decreases t[d].depth
  {
    if a == d {
      w := [a];
    } else {
      var up := AncestryIsWalk(t, a, t[d].parent.value);
      w := up + [d];
    }
  }

  // ------------------------------------------------------------------ the closure table

  type Closure = map<(nat, nat), int>

  /** `folder_closure` is exactly the reflexive-transitive closure, with exact path lengths. */
  ghost predicate Exact(c: Closure, t: Tree) {
    (forall a: nat, d: nat :: (a, d) in c <==> Above(t, a, d)) &&
    (forall a: nat, d: nat :: (a, d) in c ==> a in t && d in t && c[(a, d)] == t[d].depth - t[a].depth)
  }

  /** What exactness means without the depth column: a row per pair joined by a walk, holding its length. */
  lemma ExactIsWalks(c: Closure, t: Tree, a: nat, d: nat, n: int)
    requires Linked(t) && Exact(c, t)
    ensures ((a, d) in c && c[(a, d)] == n) <==>
      (exists w :: Walk(t, w) && w[0] == a && w[|w| - 1] == d && |w| == n + 1)
  {
    if (a, d) in c && c[(a, d)] == n {
      var w := AncestryIsWalk(t, a, d);
      WalkIsAncestry(t, w);
    }
    if w :| Walk(t, w) && w[0] == a && w[|w| - 1] == d && |w| == n + 1 {
      WalkIsAncestry(t, w);
    }
  }

  // ------------------------------------------------------------------ hanging a subtree elsewhere

  /** The rows after `x` and everything under it is hung under `p` as `name`. */
  ghost function Hang(t: Tree, x: nat, p: nat, name: string, key: string): Tree
    requires x in t && p in t
  {
    map f | f in t ::
      if !Above(t, x, f) then t[f]
      else if f == x then Folder(t[p].workspace, Some(p), name, key, t[p].depth + 1)
      else t[f].(depth := t[f].depth + t[p].depth + 1 - t[x].depth, workspace := t[p].workspace)
  }

  lemma HangLinked(t: Tree, x: nat, p: nat, name: string, key: string)
    requires Linked(t) && x in t && p in t && !Above(t, x, p)
    ensures Linked(Hang(t, x, p, name, key))
  {
    var u := Hang(t, x, p, name, key);
    forall f | f in u && u[f].parent.Some?
      ensures var q := u[f].parent.value;
        q in u && u[q].depth >= 0 && u[f].depth == u[q].depth + 1 && u[f].workspace == u[q].workspace
    {
      if Above(t, x, f) && f != x {
        Bounds(t, x, t[f].parent.value);
      } else if !Above(t, x, f) {
        assert !Above(t, x, t[f].parent.value);
      }
    }
  }

  /** Ancestry afterwards: outside untouched; inside, the old inner links plus the new parent's chain. */
  lemma {:induction false} HangAbove(t: Tree, x: nat, p: nat, name: string, key: string, a: nat, d: nat)
    requires Linked(t) && x in t && p in t && !Above(t, x, p)
    ensures Above(Hang(t, x, p, name, key), a, d) <==>
      (if Above(t, x, d) then (Above(t, x, a) && Above(t, a, d)) || Above(t, a, p) else Above(t, a, d))
    decreases if d in t && Linked(t) then (if Above(t, x, d) then 1 else 0) else 0, if d in t then t[d].depth else 0
  {
    HangLinked(t, x, p, name, key);
    var u := Hang(t, x, p, name, key);
    if d in t && a != d {
      if Above(t, x, d) {
        if d == x {
          HangAbove(t, x, p, name, key, a, p);
          if Above(t, x, a) && Above(t, a, x) {
            Antisymmetric(t, x, a);
          }
        } else {
          HangAbove(t, x, p, name, key, a, t[d].parent.value);
        }
      } else if t[d].parent.Some? {
        assert !Above(t, x, t[d].parent.value);
        HangAbove(t, x, p, name, key, a, t[d].parent.value);
      }
    }
  }
}
