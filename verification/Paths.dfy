/** Derived paths (folders.py `path_of`, `resolve`) and what a folder move does to them. */
module Paths {
  import opened Common
  import opened FolderTree
  import opened Rollup
  import opened DatabaseModel
  import opened Steps
  import opened Moves

  /** The names from the workspace root down; the root itself has none. */
  function PathOf(t: Tree, f: nat): seq<string>
    decreases if f in t && t[f].depth > 0 then t[f].depth else 0
  {
    if f !in t || t[f].parent == None then []
    else
      var p := t[f].parent.value;
      if p in t && 0 <= t[p].depth < t[f].depth then PathOf(t, p) + [t[f].name] else []
  }

  lemma {:induction false} PathLength(t: Tree, f: nat)
    requires Linked(t) && f in t
    ensures |PathOf(t, f)| == t[f].depth
    decreases t[f].depth
  {
    if t[f].parent.Some? {
      PathLength(t, t[f].parent.value);
    }
  }

  /** An ancestor's path is the beginning of the descendant's. */
  lemma {:induction false} AncestorPrefix(t: Tree, a: nat, f: nat)
    requires Linked(t) && Above(t, a, f)
    ensures a in t && f in t && t[a].depth <= |PathOf(t, f)| && PathOf(t, a) == PathOf(t, f)[..t[a].depth]
    decreases t[f].depth
  {
    Bounds(t, a, f);
    PathLength(t, a);
    PathLength(t, f);
    if a != f {
      AncestorPrefix(t, a, t[f].parent.value);
      PathLength(t, t[f].parent.value);
    }
  }

  // ------------------------------------------------------------------ looking a path up

  /** Keys were computed from names by one function, whatever it folds together. */
  ghost predicate Keyed(t: Tree, key: string -> string) {
    forall f :: f in t ==> t[f].key == key(t[f].name)
  }

  ghost predicate Child(t: Tree, p: nat, key: string, c: nat) {
    c in t && t[c].parent == Some(p) && t[c].key == key
  }

  ghost function ChildByKey(t: Tree, p: nat, key: string): Option<nat> {
    if c :| Child(t, p, key, c) then Some(c) else None
  }

  /** `resolve`: from a folder down, one comparison key at a time. */
  ghost function Resolve(t: Tree, from: Option<nat>, segments: seq<string>, key: string -> string): Option<nat>
    decreases |segments|
  {
    if segments == [] then from
    else
      match from
      case None => None
      case Some(p) => Resolve(t, ChildByKey(t, p, key(segments[0])), segments[1..], key)
  }

  lemma {:induction false} ResolveLast(t: Tree, from: Option<nat>, segments: seq<string>, last: string,
                                       key: string -> string)
    ensures Resolve(t, from, segments + [last], key) ==
      match Resolve(t, from, segments, key)
      case None => None
      case Some(p) => ChildByKey(t, p, key(last))
    decreases |segments|
  {
    if segments == [] {
      assert segments + [last] == [last];
    } else if from.Some? {
      assert (segments + [last])[1..] == segments[1..] + [last];
      ResolveLast(t, ChildByKey(t, from.value, key(segments[0])), segments[1..], last, key);
    }
  }

  lemma TheChild(t: Tree, p: nat, k: string, c: nat)
    requires SiblingsDiffer(t)
    ensures ChildByKey(t, p, k) == Some(c) <==> Child(t, p, k, c)
  {
  }

  /** The segments spell the path from `a` down to `f`, up to the comparison key. */
  ghost predicate Spells(t: Tree, a: nat, f: nat, segments: seq<string>, key: string -> string) {
    a in t && Above(t, a, f) && |segments| == t[f].depth - t[a].depth && |PathOf(t, f)| == t[f].depth
      && t[a].depth >= 0 &&
    forall i :: 0 <= i < |segments| ==> key(segments[i]) == key(PathOf(t, f)[t[a].depth + i])
  }

  /** A lookup finds exactly the folder whose path it spells: sibling keys leave no second answer. */
  lemma {:induction false} ResolveIsPath(t: Tree, a: nat, segments: seq<string>, key: string -> string, f: nat)
    requires Linked(t) && SiblingsDiffer(t) && Keyed(t, key) && a in t
    ensures Resolve(t, Some(a), segments, key) == Some(f) <==> Spells(t, a, f, segments, key)
    decreases |segments|
  {
    hide SiblingsDiffer;
    if segments == [] {
      if Above(t, a, f) {
        Bounds(t, a, f);
        PathLength(t, f);
      }
      if a == f {
        PathLength(t, f);
      }
    } else {
      var most, last := segments[..|segments| - 1], segments[|segments| - 1];
      assert segments == most + [last];
      ResolveLast(t, Some(a), most, last, key);
      if f in t && t[f].parent.Some? {
        var p := t[f].parent.value;
        ResolveIsPath(t, a, most, key, p);
        TheChild(t, p, key(last), f);
        SpellsStep(t, a, p, f, most, last, key);
      }
      match Resolve(t, Some(a), most, key) {
        case None =>
        case Some(q) =>
          TheChild(t, q, key(last), f);
      }
      if Spells(t, a, f, segments, key) {
        Bounds(t, a, f);
      }
    }
  }

  lemma SpellsStep(t: Tree, a: nat, p: nat, f: nat, most: seq<string>, last: string, key: string -> string)
    requires Linked(t) && Keyed(t, key) && f in t && t[f].parent == Some(p)
    ensures Spells(t, a, f, most + [last], key) <==> Spells(t, a, p, most, key) && key(last) == t[f].key
  {
    assert t[f].parent.Some?;
    PathLength(t, f);
    PathLength(t, p);
    assert PathOf(t, f) == PathOf(t, p) + [t[f].name];
    if Above(t, a, f) {
      Bounds(t, a, f);
    }
    if Above(t, a, p) {
      Bounds(t, a, p);
      assert (most + [last])[|most|] == last;
      assert forall i :: 0 <= i < |most| ==> (most + [last])[i] == most[i];
      assert forall i :: 0 <= i < t[p].depth ==> PathOf(t, f)[i] == PathOf(t, p)[i];
    }
  }

  /** Looking a folder's own path up from its workspace root gives the folder back. */
  lemma PathResolves(t: Tree, root: nat, f: nat, key: string -> string)
    requires WellFormed(t) && Keyed(t, key) && root in t && t[root].parent == None && f in t
    requires t[f].workspace == t[root].workspace
    ensures Resolve(t, Some(root), PathOf(t, f), key) == Some(f)
  {
    RootAbove(t, root, f);
    PathLength(t, f);
    ResolveIsPath(t, root, PathOf(t, f), key, f);
  }

  lemma {:induction false} RootAbove(t: Tree, root: nat, f: nat)
    requires Linked(t) && OneRoot(t) && root in t && t[root].parent == None && f in t
    requires t[f].workspace == t[root].workspace
    ensures Above(t, root, f)
    decreases t[f].depth
  {
    if t[f].parent.Some? {
      RootAbove(t, root, t[f].parent.value);
    }
  }

  // ------------------------------------------------------------------ a folder move is the rename on disk

  /** Where a folder's directory is: which workspace, and its path under that root. */
  datatype Location = Location(workspace: nat, path: seq<string>)

  ghost function Place(t: Tree, f: nat): Location
    requires f in t
  {
    Location(t[f].workspace, PathOf(t, f))
  }

  /** One rename: everything at or under the old location is now at or under the new one. */
  function Renamed(l: Location, from: Location, to: Location): Location {
    if l.workspace == from.workspace && from.path <= l.path then Location(to.workspace, to.path + l.path[|from.path|..]) else l
  }

  /** Prefixes are ancestors: no other folder's path starts with this one's. */
  lemma PrefixIsAbove(t: Tree, x: nat, f: nat, key: string -> string)
    requires WellFormed(t) && Keyed(t, key) && x in t && f in t
    ensures Above(t, x, f) <==> t[x].workspace == t[f].workspace && PathOf(t, x) <= PathOf(t, f)
  {
    if Above(t, x, f) {
      Bounds(t, x, f);
      AncestorPrefix(t, x, f);
    } else if t[x].workspace == t[f].workspace && PathOf(t, x) <= PathOf(t, f) {
      PathLength(t, x);
      PathLength(t, f);
      var a := AncestorAt(t, f, t[x].depth);
      AncestorPrefix(t, a, f);
      assert PathOf(t, a) == PathOf(t, x);
      Bounds(t, a, f);
      SamePathSame(t, a, x, key);
    }
  }

  lemma {:induction false} AncestorAt(t: Tree, f: nat, n: int) returns (a: nat)
    requires Linked(t) && f in t && 0 <= n <= t[f].depth
    ensures Above(t, a, f) && a in t && t[a].depth == n
    decreases t[f].depth
  {
    if t[f].depth == n {
      a := f;
    } else {
      a := AncestorAt(t, t[f].parent.value, n);
    }
  }

  lemma {:induction false} SamePathSame(t: Tree, a: nat, b: nat, key: string -> string)
    requires WellFormed(t) && Keyed(t, key) && a in t && b in t && t[a].workspace == t[b].workspace
    requires PathOf(t, a) == PathOf(t, b)
    ensures a == b
    decreases t[a].depth
  {
    PathLength(t, a);
    PathLength(t, b);
    if t[a].parent.Some? {
      assert t[b].parent.Some?;
      var p, q := t[a].parent.value, t[b].parent.value;
      assert PathOf(t, p) == PathOf(t, a)[..|PathOf(t, a)| - 1] == PathOf(t, q);
      SamePathSame(t, p, q, key);
      assert t[a].key == t[b].key;
    }
  }

  function Rest(path: seq<string>, n: nat): seq<string> {
    if n <= |path| then path[n..] else []
  }

  /** In the moved subtree every path has its old beginning replaced; no other path changes. */
  lemma {:induction false} MovedPath(t: Tree, x: nat, p: nat, name: string, k: string, f: nat)
    requires Linked(t) && x in t && p in t && !Above(t, x, p) && f in t
    ensures PathOf(Hang(t, x, p, name, k), f) ==
      if Above(t, x, f) then PathOf(t, p) + [name] + Rest(PathOf(t, f), |PathOf(t, x)|) else PathOf(t, f)
    decreases if Above(t, x, f) then 1 else 0, t[f].depth
  {
    hide Linked, Hang, PathOf, Rest;
    var u := Hang(t, x, p, name, k);
    HangLinked(t, x, p, name, k);
    HungRow(t, x, p, name, k, f);
    PathStep(u, f);
    PathStep(t, f);
    if Above(t, x, f) {
      if f == x {
        MovedPath(t, x, p, name, k, p);
        RestAt(t, x, x);
      } else {
        MovedPath(t, x, p, name, k, t[f].parent.value);
        RestAt(t, x, f);
      }
    } else if t[f].parent.Some? {
      MovedPath(t, x, p, name, k, t[f].parent.value);
    }
  }

  /** One level of a path. */
  lemma PathStep(t: Tree, f: nat)
    requires Linked(t) && f in t
    ensures t[f].parent == None ==> PathOf(t, f) == []
    ensures t[f].parent.Some? ==> t[f].parent.value in t && 0 <= t[t[f].parent.value].depth < t[f].depth
    ensures t[f].parent.Some? ==> PathOf(t, f) == PathOf(t, t[f].parent.value) + [t[f].name]
  {
  }

  /** The row of one folder after the move. */
  lemma HungRow(t: Tree, x: nat, p: nat, name: string, k: string, f: nat)
    requires Linked(t) && x in t && p in t && f in t
    ensures var u := Hang(t, x, p, name, k);
      f in u && u[f].parent == (if f == x then Some(p) else t[f].parent) && u[f].name == if f == x then name
        else t[f].name
    ensures Above(t, x, x) && (Above(t, x, f) && f != x ==> t[f].parent.Some? && Above(t, x, t[f].parent.value))
    ensures t[f].parent.Some? && !Above(t, x, f) ==> !Above(t, x, t[f].parent.value)
  {
  }

  /** Below x, what is left of a path without that of x grows by the folder's own name. */
  lemma RestAt(t: Tree, x: nat, f: nat)
    requires Linked(t) && Above(t, x, f)
    ensures f == x ==> Rest(PathOf(t, f), |PathOf(t, x)|) == []
    ensures f != x ==> t[f].parent.Some? && t[f].parent.value in t && Above(t, x, t[f].parent.value)
    ensures f != x ==>
      Rest(PathOf(t, f), |PathOf(t, x)|) == Rest(PathOf(t, t[f].parent.value), |PathOf(t, x)|) + [t[f].name]
  {
    AncestorPrefix(t, x, f);
    PathLength(t, x);
    PathLength(t, f);
    if f != x {
      var q := t[f].parent.value;
      PathLength(t, q);
      Bounds(t, x, q);
      assert PathOf(t, f)[|PathOf(t, x)|..] == PathOf(t, q)[|PathOf(t, x)|..] + [t[f].name];
    }
  }

  /** Relocating the rows and renaming the directory commute, across workspaces too. */
  lemma RelocationIsRename(t: Tree, x: nat, p: nat, name: string, key: string -> string, f: nat)
    requires WellFormed(t) && Keyed(t, key) && x in t && p in t && !Above(t, x, p) && f in t
    ensures Place(Hang(t, x, p, name, key(name)), f)
         == Renamed(Place(t, f), Place(t, x), Location(t[p].workspace, PathOf(t, p) + [name]))
  {
    MovedPath(t, x, p, name, key(name), f);
    PrefixIsAbove(t, x, f, key);
  }

  /** The part of a path an ancestor's chain has spelled out, root first. */
  ghost function Upto(t: Tree, f: nat, depth: int): seq<string> {
    if depth < 0 then [] else if depth <= |PathOf(t, f)| then PathOf(t, f)[..depth] else PathOf(t, f)
  }

  lemma UptoStep(t: Tree, f: nat, a: nat)
    requires Linked(t) && RootsUnnamed(t) && Above(t, a, f)
    ensures a in t
    ensures Upto(t, f, t[a].depth) == Upto(t, f, t[a].depth - 1) + (if t[a].name != "" then [t[a].name] else [])
  {
    Bounds(t, a, f);
    AncestorPrefix(t, a, f);
    if t[a].parent.Some? {
      assert PathOf(t, a)[t[a].depth - 1] == t[a].name by { PathLength(t, a); }
    }
  }

  lemma UptoRow(c: Closure, t: Tree, f: nat, a: nat, d: int)
    requires Linked(t) && RootsUnnamed(t) && Exact(c, t) && (a, f) in c && c[(a, f)] == d
    ensures a in t && f in t
    ensures Upto(t, f, t[f].depth - d) == Upto(t, f, t[f].depth - d - 1) + (if t[a].name != "" then [t[a].name] else [])
  {
    hide Upto, PathOf, Above, Exact, Linked, RootsUnnamed;
    ExactRow(c, t, f, a);
    UptoStep(t, f, a);
  }

  lemma ExactRow(c: Closure, t: Tree, f: nat, a: nat)
    requires Exact(c, t) && (a, f) in c
    ensures Above(t, a, f) && a in t && f in t && c[(a, f)] == t[f].depth - t[a].depth
  {
    hide Above;
  }

  lemma NextAncestor(c: Closure, t: Tree, f: nat, d: int) returns (a: nat)
    requires Linked(t) && Exact(c, t) && f in t && 0 <= d <= t[f].depth
    ensures a in t && (a, f) in c && c[(a, f)] == d
  {
    a := AncestorAt(t, f, t[f].depth - d);
  }

  /** `path_of` reads the chain out of the closure, longest link first, and skips the nameless root. */
  method DerivePath(db: Database, f: nat) returns (path: seq<string>)
    requires db.Valid() && f in db.folder
    ensures path == PathOf(db.folder, f)
  {
    hide LiveNamesDiffer, Filed, Countable, Numbered, OneRoot, SiblingsDiffer, RootsUnnamed, Upto, PathOf, Above,
      Exact, Linked;
    ghost var t := db.folder;
    path := [];
    var d := db.folder[f].depth;
    UptoEnds(t, f);
    while d >= 0
      invariant -1 <= d <= t[f].depth && path == Upto(t, f, t[f].depth - d - 1)
    {
      ghost var next := NextAncestor(db.closure, t, f, d);
      var a :| a in db.folder && (a, f) in db.closure && db.closure[(a, f)] == d;
      UptoRow(db.closure, t, f, a, d);
      if db.folder[a].name != "" {
        path := path + [db.folder[a].name];
      }
      d := d - 1;
    }
  }

  lemma UptoEnds(t: Tree, f: nat)
    requires Linked(t) && f in t
    ensures Upto(t, f, -1) == [] && t[f].depth >= 0 && Upto(t, f, t[f].depth) == PathOf(t, f)
  {
    PathLength(t, f);
  }

  // ------------------------------------------------------------------ the written form

  /** `"/".join(segments)`. */
  function Joined(segments: seq<string>): string {
    if segments == [] then "" else if |segments| == 1 then segments[0] else segments[0] + "/" + Joined(segments[1..])
  }

  /** `path.split("/")`: the empty string is one empty segment. */
  function Split(path: string): seq<string>
    decreases |path|
  {
    if path == [] then [""]
    else if path[0] == '/' then [""] + Split(path[1..])
    else
      var rest := Split(path[1..]);
      if rest == [] then [path] else [[path[0]] + rest[0]] + rest[1..]
  }

  lemma {:induction false} SplitHead(segment: string, rest: string)
    requires '/' !in segment
    ensures Split(segment + "/" + rest) == [segment] + Split(rest)
    decreases |segment|
  {
    if segment == [] {
      assert segment + "/" + rest == "/" + rest;
    } else {
      var whole := segment + "/" + rest;
      assert whole[1..] == segment[1..] + "/" + rest;
      SplitHead(segment[1..], rest);
      assert whole[0] == segment[0];
      assert [segment[0]] + segment[1..] == segment;
    }
  }

  lemma {:induction false} SplitPlain(segment: string)
    requires '/' !in segment
    ensures Split(segment) == [segment]
    decreases |segment|
  {
    if segment != [] {
      SplitPlain(segment[1..]);
      assert [segment[0]] + segment[1..] == segment;
    }
  }

  /** Names carry no slash, so a written path splits back into the names it was joined from. */
  lemma {:induction false} SplitJoined(segments: seq<string>)
    requires segments != [] && forall n :: n in segments ==> '/' !in n
    ensures Split(Joined(segments)) == segments
    decreases |segments|
  {
    if |segments| == 1 {
      SplitPlain(segments[0]);
    } else {
      SplitHead(segments[0], Joined(segments[1..]));
      SplitJoined(segments[1..]);
    }
  }
}
