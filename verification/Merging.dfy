/**
 Pouring one folder into another (reconcile.py `_absorb`, folders.py `absorb`): the relation between
 the tables before and after a set of folders was discarded in favour of others.
*/
module Merging {
  import opened Common
  import opened Totals
  import opened FolderTree
  import opened Rollup
  import opened SlackMoves
  import opened Steps
  import opened Moves

  /** Discarded folder to the survivor that describes the same directory. */
  type Handover = map<nat, nat>

  function Via(m: Handover, f: nat): nat {
    if f in m then m[f] else f
  }

  function ViaParent(m: Handover, p: Option<nat>): Option<nat> {
    match p
    case None => None
    case Some(f) => Some(Via(m, f))
  }

  ghost predicate OneEach(m: Handover) {
    forall g, h :: g in m && h in m && m[g] == m[h] ==> g == h
  }

  /** Every surviving row keeps its key and workspace and follows its parent's handover. */
  ghost predicate FoldersFollow(t: Tree, u: Tree, m: Handover, moved: Handover) {
    (forall f :: f in u <==> f in t && f !in m) &&
    (forall f {:trigger u[f].parent} {:trigger u[f].key} {:trigger u[f].workspace} :: f in u ==>
      u[f].parent == ViaParent(moved, t[f].parent) && u[f].key == t[f].key && u[f].workspace == t[f].workspace)
  }

  /** A survivor that took a discarded row over writes its name the way the disk does; others keep theirs. */
  ghost predicate NamesFollow(t: Tree, u: Tree, m: Handover) {
    (forall f :: f in u && f in t && f !in m.Values ==> u[f].name == t[f].name) &&
    (forall g :: g in m && g in t && m[g] in u ==> u[m[g]].name == t[g].name)
  }

  ghost predicate FilesFollow(a: map<nat, File>, b: map<nat, File>, moved: Handover) {
    (forall i :: i in b <==> i in a) && (forall i :: i in a ==> b[i] == a[i].(folder := Via(moved, a[i].folder)))
  }

  ghost predicate DeltasFollow(a: map<nat, Delta>, b: map<nat, Delta>, m: Handover) {
    (forall k :: k in b <==> k in a) && (forall k :: k in a ==> b[k] == a[k].(folder := Via(m, a[k].folder)))
  }

  /** A survivor's stored total is its own plus what the row it took over held. */
  ghost predicate TotalsFollow(a: map<nat, Aggregate>, b: map<nat, Aggregate>, m: Handover) {
    (forall f :: f in b <==> f in a && f !in m) &&
    (forall f :: f in b && f !in m.Values ==> b[f] == a[f]) &&
    (forall g, u: Unit {:trigger b[m[g]].Of(u)} :: g in m && g in a && m[g] in b && m[g] in a ==>
      b[m[g]].Of(u) == a[m[g]].Of(u) + a[g].Of(u))
  }

  ghost predicate Quotient(s: Tables, s': Tables, m: Handover, moved: Handover) {
    FoldersFollow(s.folder, s'.folder, m, moved) && NamesFollow(s.folder, s'.folder, m) &&
    FilesFollow(s.file, s'.file, moved) && DeltasFollow(s.delta, s'.delta, m) &&
    TotalsFollow(s.aggregate, s'.aggregate, m) && s'.nextId == s.nextId && s'.nextDelta == s.nextDelta
  }

  ghost predicate StrictlyAbove(t: Tree, a: nat, d: nat) {
    Above(t, a, d) && a != d
  }

  /** Discarded folders lie below `gone`, survivors below `into`. */
  ghost predicate Within(t: Tree, into: nat, gone: nat, m: Handover) {
    OneEach(m) && (forall g :: g in m ==> StrictlyAbove(t, gone, g))
    && (forall g :: g in m ==> StrictlyAbove(t, into, m[g]))
  }

  /** A discarded row and its survivor have one key, and hang under a pair that is itself one folder in the end. */
  ghost predicate PairedAt(t: Tree, into: nat, gone: nat, m: Handover, g: nat) {
    g in m && g in t && m[g] in t && t[g].key == t[m[g]].key && t[g].parent.Some?
    && t[m[g]].parent == Some(Via(m[gone := into], t[g].parent.value))
  }

  ghost predicate Paired(t: Tree, into: nat, gone: nat, m: Handover) {
    forall g :: g in m ==> PairedAt(t, into, gone, m, g)
  }

  /** Two folders of one workspace, neither inside the other. */
  ghost predicate Apart(t: Tree, into: nat, gone: nat) {
    into in t && gone in t && t[into].workspace == t[gone].workspace && !Above(t, into, gone) && !Above(t, gone, into)
  }

  /** What the identity pass checks before it merges `gone` into `into`: only that `into` does not contain `gone`. */
  ghost predicate Mergeable(t: Tree, into: nat, gone: nat) {
    into in t && gone in t && t[into].workspace == t[gone].workspace && !Above(t, into, gone)
  }

  lemma MergeableApart(t: Tree, into: nat, gone: nat)
    ensures Apart(t, into, gone) <==> Mergeable(t, into, gone) && !Above(t, gone, into)
    ensures Mergeable(t, into, gone) ==> into != gone
  {
  }

  /** Subtrees of two folders apart share nothing. */
  lemma Disjoint(t: Tree, a: nat, b: nat, d: nat)
    requires Linked(t) && !Above(t, a, b) && !Above(t, b, a)
    ensures !(Above(t, a, d) && Above(t, b, d))
  {
    if Above(t, a, d) && Above(t, b, d) {
      Chain(t, a, b, d);
    }
  }

  lemma SiblingsApart(t: Tree, p: nat, a: nat, b: nat)
    requires Linked(t) && p in t && a in t && b in t && t[a].parent == Some(p) && t[b].parent == Some(p) && a != b
    ensures !Above(t, a, b) && !Above(t, b, a)
  {
    if Above(t, a, b) { Bounds(t, a, b); }
    if Above(t, b, a) { Bounds(t, b, a); }
  }

  lemma ChildrenApart(t: Tree, into: nat, gone: nat, keeper: nat, twin: nat)
    requires Linked(t) && Apart(t, into, gone)
    requires keeper in t && twin in t && t[keeper].parent == Some(into) && t[twin].parent == Some(gone)
    ensures Apart(t, keeper, twin) && !Above(t, keeper, gone) && !Above(t, twin, into) && keeper != twin
    ensures StrictlyAbove(t, into, keeper) && StrictlyAbove(t, gone, twin)
  {
    ParentAbove(t, into, keeper);
    ParentAbove(t, gone, twin);
    if Above(t, keeper, gone) { Transitive(t, into, keeper, gone); }
    if Above(t, twin, into) { Transitive(t, gone, twin, into); }
    if Above(t, keeper, twin) { Transitive(t, into, keeper, twin); Disjoint(t, into, gone, twin); }
    if Above(t, twin, keeper) { Transitive(t, gone, twin, keeper); Disjoint(t, into, gone, keeper); }
  }

  /** A subtree that neither lost nor gained a row is the same subtree afterwards. */
  lemma {:induction false} SubtreeUntouched(t: Tree, u: Tree, m: Handover, moved: Handover, x: nat, d: nat)
    requires Linked(t) && Linked(u) && FoldersFollow(t, u, m, moved) && x in t
    requires forall g :: g in moved || g in m ==> !Above(t, x, g)
    requires forall g :: g in moved ==> !Above(t, x, moved[g])
    ensures Above(u, x, d) <==> Above(t, x, d)
    decreases if d in u then u[d].depth + 1 else 0
  {
    assert Above(t, x, x);
    if d in u && d != x && u[d].parent.Some? {
      SubtreeUntouched(t, u, m, moved, x, u[d].parent.value);
    }
  }

  /** The way up from a folder none of whose strict ancestors is handed over is unchanged. */
  lemma {:induction false} ChainUntouched(t: Tree, u: Tree, m: Handover, moved: Handover, a: nat, d: nat)
    requires Linked(t) && Linked(u) && FoldersFollow(t, u, m, moved) && d in t && d !in m
    requires forall g :: g in moved || g in m ==> !StrictlyAbove(t, g, d)
    ensures Above(u, a, d) <==> Above(t, a, d)
    decreases t[d].depth
  {
    if t[d].parent.Some? {
      var p := t[d].parent.value;
      ParentAbove(t, p, d);
      forall g | g in moved || g in m ensures !StrictlyAbove(t, g, p) {
        if Above(t, g, p) {
          Transitive(t, g, p, d);
          Bounds(t, g, p);
        }
      }
      ChainUntouched(t, u, m, moved, a, p);
    }
  }

  // ------------------------------------------------------------------ the single writes

  ghost function Refoldered(e: Ledger, from: nat, to: nat): Ledger {
    map k | k in e :: if e[k].folder == from then Entry(to, e[k].value) else e[k]
  }

  lemma AtRefoldered(e: Ledger, from: nat, to: nat, a: nat)
    requires from != to
    ensures Total(At(Refoldered(e, from, to), a)) == Total(At(e, a))
      + (if a == to then Total(At(e, from)) else 0) - (if a == from then Total(At(e, from)) else 0)
  {
    var e' := Refoldered(e, from, to);
    if a == to {
      Join(At(e, to), At(e, from), At(e', to));
    } else if a == from {
      assert At(e', from) == map[];
    } else {
      assert At(e', a) == At(e, a);
    }
  }

  /** `repoint`: the queued rows of a folder about to disappear are handed over. */
  function Repointed(delta: map<nat, Delta>, from: nat, to: nat): map<nat, Delta> {
    map k | k in delta :: if delta[k].folder == from then delta[k].(folder := to) else delta[k]
  }

  lemma RepointMoves(s: Tables, from: nat, to: nat, a: nat, u: Unit)
    requires from != to
    ensures var q := Total(At(Queue(s, u), from));
      Slack(s.(delta := Repointed(s.delta, from, to)), a, u) == Slack(s, a, u) + (if a == to then q
        else 0) - (if a == from then q else 0)
  {
    hide Total, At;
    var s' := s.(delta := Repointed(s.delta, from, to));
    assert Queue(s', u) == Refoldered(Queue(s, u), from, to);
    AtRefoldered(Queue(s, u), from, to, a);
    assert Live(s', u) == Live(s, u);
    assert ChildStored(s', a, u) == ChildStored(s, a, u);
  }

  function Refiled(file: map<nat, File>, from: nat, to: nat): map<nat, File> {
    map i | i in file :: if file[i].folder == from then file[i].(folder := to) else file[i]
  }

  lemma RefileMoves(s: Tables, from: nat, to: nat, a: nat, u: Unit)
    requires from != to
    ensures var l := Total(At(Live(s, u), from));
      Slack(s.(file := Refiled(s.file, from, to)), a, u) == Slack(s, a, u) - (if a == to then l
        else 0) + (if a == from then l else 0)
  {
    hide Total, At;
    var s' := s.(file := Refiled(s.file, from, to));
    assert Live(s', u) == Refoldered(Live(s, u), from, to);
    AtRefoldered(Live(s, u), from, to, a);
    assert Queue(s', u) == Queue(s, u);
    assert ChildStored(s', a, u) == ChildStored(s, a, u);
  }

  /** `inherit`: addition, because the heir's own number is not zero but minus what it has queued. */
  function Inherited(aggregate: map<nat, Aggregate>, heir: nat, from: nat): map<nat, Aggregate>
    requires heir in aggregate && from in aggregate
  {
    aggregate[heir := Aggregate(aggregate[heir].files + aggregate[from].files, aggregate[heir].bytes + aggregate[from].bytes)]
  }

  lemma InheritMoves(s: Tables, heir: nat, from: nat, a: nat, u: Unit)
    requires heir in s.folder && heir in s.aggregate && from in s.aggregate
    ensures Slack(s.(aggregate := Inherited(s.aggregate, heir, from)), a, u) == Slack(s, a, u)
      + (if a == heir then Stored(s, from, u)
        else 0) - (if s.folder[heir].parent == Some(a) then Stored(s, from, u) else 0)
  {
    PutAggregate(s, heir, Inherited(s.aggregate, heir, from)[heir], a, u);
  }

  /** A folder nothing names any more explains exactly its stored total. */
  lemma EmptiedSlack(s: Tables, f: nat, u: Unit)
    requires forall c :: c in s.folder ==> s.folder[c].parent != Some(f)
    requires forall i :: i in s.file ==> s.file[i].folder != f
    requires forall k :: k in s.delta ==> s.delta[k].folder != f
    ensures Slack(s, f, u) == Stored(s, f, u)
  {
    assert At(Queue(s, u), f) == map[] && At(Live(s, u), f) == map[] && ChildStored(s, f, u) == map[];
  }

  // ------------------------------------------------------------------ handing one emptied row over

  ghost function Folded(s: Tables, keeper: nat, twin: nat): Tables
    requires keeper in s.aggregate && twin in s.aggregate
  {
    s.(delta := Repointed(s.delta, twin, keeper), aggregate := Inherited(s.aggregate, keeper, twin) - {twin}, folder := s.folder - {twin})
  }

  ghost predicate Emptied(s: Tables, f: nat) {
    (forall c :: c in s.folder ==> s.folder[c].parent != Some(f)) && (forall i :: i in s.file ==> s.file[i].folder != f)
  }

  lemma FoldMoves(s: Tables, keeper: nat, twin: nat, a: nat, u: Unit)
    requires keeper in s.folder && twin in s.folder && keeper in s.aggregate && twin in s.aggregate && keeper != twin
    requires a != twin
    requires Emptied(s, twin) && s.folder[keeper].parent != Some(twin)
    ensures Slack(Folded(s, keeper, twin), a, u) == Slack(s, a, u)
      + (if a == keeper then Slack(s, twin, u) else 0)
      - (if s.folder[keeper].parent == Some(a) then Stored(s, twin, u) else 0)
      + (if s.folder[twin].parent == Some(a) then Stored(s, twin, u) else 0)
  {
    hide Slack, Emptied;
    var s1 := s.(delta := Repointed(s.delta, twin, keeper));
    var s2 := s1.(aggregate := Inherited(s.aggregate, keeper, twin));
    RepointMoves(s, twin, keeper, a, u);
    RepointMoves(s, twin, keeper, twin, u);
    InheritMoves(s1, keeper, twin, a, u);
    DropFolder(s2, twin, a, u);
    assert Folded(s, keeper, twin) == s2.(folder := s2.folder - {twin}, aggregate := s2.aggregate - {twin});
    EmptiedSlack(s1, twin, u) by {
      EmptiedStays(s, keeper, twin);
    }
    assert Stored(s2, twin, u) == Stored(s, twin, u);
  }

  lemma EmptiedStays(s: Tables, keeper: nat, twin: nat)
    requires Emptied(s, twin) && keeper != twin
    ensures var s1 := s.(delta := Repointed(s.delta, twin, keeper));
      (forall c :: c in s1.folder ==> s1.folder[c].parent != Some(twin)) && (forall i :: i in s1.file ==>
        s1.file[i].folder != twin)
      && forall k :: k in s1.delta ==> s1.delta[k].folder != twin
  {
  }

  lemma FoldFolders(t: Tree, u: Tree, v: Tree, n: Handover, keeper: nat, twin: nat)
    requires FoldersFollow(t, u, n, n[twin := keeper]) && NamesFollow(t, u, n)
    requires keeper !in n.Values && twin !in n.Values && keeper !in n && twin !in n && keeper in t && twin in t
    requires keeper != twin
    requires v == (u - {twin})[keeper := u[keeper].(name := u[twin].name)]
    ensures FoldersFollow(t, v, n[twin := keeper], n[twin := keeper])
    ensures NamesFollow(t, v, n[twin := keeper])
  {
    assert forall f: nat :: f in n[twin := keeper].Values ==> f == keeper || f in n.Values;
    assert n[twin := keeper][twin] == keeper;
    forall g | g in n ensures n[g] != keeper && n[g] != twin {
      assert n[g] in n.Values;
    }
    forall f | f in n.Values && f != keeper ensures f in n[twin := keeper].Values {
      var g :| g in n && n[g] == f;
      assert n[twin := keeper][g] == f;
    }
  }

  lemma FoldDeltas(a: map<nat, Delta>, b: map<nat, Delta>, n: Handover, keeper: nat, twin: nat)
    requires DeltasFollow(a, b, n) && twin !in n && twin !in n.Values
    ensures DeltasFollow(a, Repointed(b, twin, keeper), n[twin := keeper])
  {
    forall g | g in n ensures n[g] != twin {
      assert n[g] in n.Values;
    }
  }

  lemma FoldTotals(a: map<nat, Aggregate>, b: map<nat, Aggregate>, n: Handover, keeper: nat, twin: nat)
    requires TotalsFollow(a, b, n)
    requires keeper !in n.Values && twin !in n.Values && keeper !in n && twin !in n && keeper in a && twin in a
    requires keeper != twin
    ensures keeper in b && twin in b && TotalsFollow(a, Inherited(b, keeper, twin) - {twin}, n[twin := keeper])
  {
    var m, c := n[twin := keeper], Inherited(b, keeper, twin) - {twin};
    forall g | g in n ensures n[g] != keeper && n[g] != twin {
      assert n[g] in n.Values;
    }
    assert m[twin] == keeper;
    forall f | f in n.Values ensures f in m.Values {
      var g :| g in n && n[g] == f;
      assert m[g] == f;
    }
    assert b[keeper] == a[keeper] && b[twin] == a[twin];
  }

  /** After its children and files are gone, handing the twin's row over completes the quotient by one pair. */
  lemma FoldQuotient(s: Tables, s': Tables, s'': Tables, n: Handover, keeper: nat, twin: nat)
    requires Quotient(s, s', n, n[twin := keeper])
    requires keeper !in n.Values && twin !in n.Values && keeper !in n && twin !in n && keeper != twin
    requires keeper in s.folder && twin in s.folder && keeper in s.aggregate && twin in s.aggregate
    requires keeper in s'.folder && twin in s'.folder && keeper in s'.aggregate && twin in s'.aggregate
    requires s''.folder == Folded(s', keeper, twin).folder[keeper := s'.folder[keeper].(name := s'.folder[twin].name)]
    requires s'' == Folded(s', keeper, twin).(folder := s''.folder)
    ensures Quotient(s, s'', n[twin := keeper], n[twin := keeper])
  {
    hide FoldersFollow, NamesFollow, FilesFollow, DeltasFollow, TotalsFollow;
    FoldFolders(s.folder, s'.folder, s''.folder, n, keeper, twin);
    FoldDeltas(s.delta, s'.delta, n, keeper, twin);
    FoldTotals(s.aggregate, s'.aggregate, n, keeper, twin);
  }

  // ------------------------------------------------------------------ one quotient after another

  lemma ComposeFolders(t: Tree, u: Tree, v: Tree, m: Handover, n: Handover)
    requires FoldersFollow(t, u, m, m) && FoldersFollow(u, v, n, n)
    requires (forall g :: g in n ==> g in u) && (forall g :: g in m ==> m[g] !in n)
    ensures FoldersFollow(t, v, m + n, m + n)
  {
  }

  lemma ComposeNames(t: Tree, u: Tree, v: Tree, m: Handover, n: Handover)
    requires FoldersFollow(t, u, m, m) && FoldersFollow(u, v, n, n) && NamesFollow(t, u, m) && NamesFollow(u, v, n)
    requires forall g :: g in n ==> g in u && g !in m && g !in m.Values && n[g] !in m.Values
    requires forall g :: g in m ==> m[g] !in n && m[g] !in n.Values
    ensures NamesFollow(t, v, m + n)
  {
    var mn := m + n;
    forall f | f in m.Values || f in n.Values ensures f in mn.Values {
      if f in n.Values {
        var g :| g in n && n[g] == f;
        assert mn[g] == f;
      } else {
        var g :| g in m && m[g] == f;
        assert mn[g] == f;
      }
    }
    forall g | g in mn && g in t && mn[g] in v ensures v[mn[g]].name == t[g].name {
      if g in n {
        assert n[g] in n.Values;
        assert u[g].name == t[g].name;
      } else {
        assert m[g] in m.Values;
      }
    }
  }

  lemma ComposeRows(s: Tables, s': Tables, s'': Tables, m: Handover, n: Handover)
    requires FilesFollow(s.file, s'.file, m) && FilesFollow(s'.file, s''.file, n)
    requires DeltasFollow(s.delta, s'.delta, m) && DeltasFollow(s'.delta, s''.delta, n)
    requires (forall g :: g in m ==> m[g] !in n) && (forall g :: g in n ==> g !in m)
    ensures FilesFollow(s.file, s''.file, m + n) && DeltasFollow(s.delta, s''.delta, m + n)
  {
  }

  lemma ComposeTotals(a: map<nat, Aggregate>, b: map<nat, Aggregate>, c: map<nat, Aggregate>, m: Handover, n: Handover)
    requires TotalsFollow(a, b, m) && TotalsFollow(b, c, n)
    requires forall g :: g in n ==> g in b && g !in m && g !in m.Values && n[g] !in m.Values
    requires forall g :: g in m ==> m[g] !in n && m[g] !in n.Values
    ensures TotalsFollow(a, c, m + n)
  {
    var mn := m + n;
    forall f | f in m.Values || f in n.Values ensures f in mn.Values {
      if f in n.Values {
        var g :| g in n && n[g] == f;
        assert mn[g] == f;
      } else {
        var g :| g in m && m[g] == f;
        assert mn[g] == f;
      }
    }
    forall g, u: Unit | g in mn && g in a && mn[g] in c && mn[g] in a
      ensures c[mn[g]].Of(u) == a[mn[g]].Of(u) + a[g].Of(u)
    {
      if g in n {
        assert n[g] in n.Values;
      } else {
        assert m[g] in m.Values;
      }
    }
  }

  /** One round of a merge: the pairs settled so far, then one more pair with everything beneath it. */
  lemma ComposeQuotient(s: Tables, s': Tables, s'': Tables, m: Handover, n: Handover)
    requires Quotient(s, s', m, m) && Quotient(s', s'', n, n)
    requires Unrelated(s'.folder, m, n) && forall g :: g in n ==> g in s'.aggregate
    ensures Quotient(s, s'', m + n, m + n)
  {
    hide FoldersFollow, NamesFollow, FilesFollow, DeltasFollow, TotalsFollow;
    ComposeFolders(s.folder, s'.folder, s''.folder, m, n);
    ComposeNames(s.folder, s'.folder, s''.folder, m, n);
    ComposeRows(s, s', s'', m, n);
    ComposeTotals(s.aggregate, s'.aggregate, s''.aggregate, m, n);
  }

  /** Pouring the rest of `gone` into `into` after its namesake children were merged away. */
  lemma PourQuotient(s: Tables, s': Tables, s'': Tables, m: Handover, into: nat, gone: nat)
    requires Quotient(s, s', m, m) && Quotient(s', s'', map[], map[gone := into])
    requires gone !in m && gone !in m.Values
    ensures Quotient(s, s'', m, m[gone := into])
  {
    hide FoldersFollow, NamesFollow, FilesFollow, DeltasFollow, TotalsFollow;
    forall g | g in m ensures m[g] != gone {
      assert m[g] in m.Values;
    }
    PourFolders(s.folder, s'.folder, s''.folder, m, into, gone);
    PourRows(s, s', s'', m, into, gone);
    PourTotals(s.aggregate, s'.aggregate, s''.aggregate, m);
  }

  lemma PourFolders(t: Tree, u: Tree, v: Tree, m: Handover, into: nat, gone: nat)
    requires FoldersFollow(t, u, m, m) && FoldersFollow(u, v, map[], map[gone := into])
    requires NamesFollow(t, u, m) && NamesFollow(u, v, map[])
    requires gone !in m && forall g :: g in m ==> m[g] != gone
    ensures FoldersFollow(t, v, m, m[gone := into]) && NamesFollow(t, v, m)
  {
  }

  lemma PourRows(s: Tables, s': Tables, s'': Tables, m: Handover, into: nat, gone: nat)
    requires FilesFollow(s.file, s'.file, m) && FilesFollow(s'.file, s''.file, map[gone := into])
    requires DeltasFollow(s.delta, s'.delta, m) && DeltasFollow(s'.delta, s''.delta, map[])
    requires gone !in m && forall g :: g in m ==> m[g] != gone
    ensures FilesFollow(s.file, s''.file, m[gone := into]) && DeltasFollow(s.delta, s''.delta, m)
  {
  }

  lemma PourTotals(a: map<nat, Aggregate>, b: map<nat, Aggregate>, c: map<nat, Aggregate>, m: Handover)
    requires TotalsFollow(a, b, m) && TotalsFollow(b, c, map[])
    ensures TotalsFollow(a, c, m)
  {
  }

  // ------------------------------------------------------------------ where the pairs of one round lie

  /** No pair settled so far touches the subtree of `x`. */
  ghost predicate Untouched(t: Tree, m: Handover, x: nat) {
    forall g :: g in m ==> !Above(t, x, g) && !Above(t, x, m[g])
  }

  /** A namesake pair: children of the two folders under one key. */
  predicate Twins(t: Tree, into: nat, gone: nat, keeper: nat, twin: nat) {
    keeper in t && twin in t && t[keeper].parent == Some(into) && t[twin].parent == Some(gone)
    && t[keeper].key == t[twin].key
  }

  lemma ValuesWithin(t: Tree, into: nat, gone: nat, m: Handover)
    requires Linked(t) && Apart(t, into, gone) && Within(t, into, gone, m)
    ensures gone !in m && gone !in m.Values && into !in m && into !in m.Values
    ensures forall g :: g in m ==> g !in m.Values && m[g] !in m
    ensures forall g :: g in m ==> !StrictlyAbove(t, g, gone) && !StrictlyAbove(t, g, into)
  {
    forall g | g in m ensures m[g] !in m && m[g] != gone && g != into && !Above(t, g, gone) && !Above(t, g, into) {
      Disjoint(t, into, gone, m[g]);
      Disjoint(t, into, gone, g);
      if Above(t, g, gone) { Antisymmetric(t, g, gone); }
      if Above(t, g, into) { Transitive(t, gone, g, into); }
    }
  }

  /** An unsettled pair still stands as it did, with the same two subtrees. */
  lemma PairStands(t: Tree, u: Tree, into: nat, gone: nat, m: Handover, keeper: nat, twin: nat)
    requires Linked(t) && Linked(u) && Apart(t, into, gone) && Within(t, into, gone, m) && FoldersFollow(t, u, m, m)
    requires Twins(t, into, gone, keeper, twin) && Untouched(t, m, keeper) && Untouched(t, m, twin)
    ensures Twins(u, into, gone, keeper, twin) && Apart(u, keeper, twin) && into in u && gone in u
    ensures forall d :: Above(u, keeper, d) <==> Above(t, keeper, d)
    ensures forall d :: Above(u, twin, d) <==> Above(t, twin, d)
    ensures Apart(t, keeper, twin)
  {
    hide Linked, FoldersFollow, Apart, Within, Above;
    ChildrenApart(t, into, gone, keeper, twin);
    forall d ensures Above(u, keeper, d) <==> Above(t, keeper, d) {
      SubtreeUntouched(t, u, m, m, keeper, d);
    }
    forall d ensures Above(u, twin, d) <==> Above(t, twin, d) {
      SubtreeUntouched(t, u, m, m, twin, d);
    }
    PairRows(t, u, into, gone, m, keeper, twin);
  }

  lemma PairRows(t: Tree, u: Tree, into: nat, gone: nat, m: Handover, keeper: nat, twin: nat)
    requires Linked(t) && Linked(u) && Apart(t, into, gone) && Within(t, into, gone, m) && FoldersFollow(t, u, m, m)
    requires Twins(t, into, gone, keeper, twin) && Untouched(t, m, keeper) && Untouched(t, m, twin)
    requires Apart(t, keeper, twin)
    requires forall d :: Above(u, keeper, d) <==> Above(t, keeper, d)
    requires forall d :: Above(u, twin, d) <==> Above(t, twin, d)
    ensures Twins(u, into, gone, keeper, twin) && Apart(u, keeper, twin) && into in u && gone in u
  {
    ValuesWithin(t, into, gone, m);
    assert Above(t, keeper, keeper) && Above(t, twin, twin);
    assert keeper !in m && twin !in m;
  }

  /** A later handover concerns surviving folders only, and none an earlier one took anything over for. */
  ghost predicate Unrelated(u: Tree, m: Handover, n: Handover) {
    (forall g :: g in n ==> g in u && g !in m && g !in m.Values && n[g] !in m.Values) &&
    (forall g :: g in m ==> m[g] !in n && m[g] !in n.Values)
  }

  ghost predicate Spans(t: Tree, keeper: nat, twin: nat, n: Handover) {
    forall g :: g in n ==> Above(t, twin, g) && Above(t, keeper, n[g])
  }

  /** What a pair's own merge hands over lies inside the two folders being merged. */
  lemma RoundWithin(t: Tree, u: Tree, into: nat, gone: nat, m: Handover, keeper: nat, twin: nat, n: Handover)
    requires Linked(t) && Apart(t, into, gone) && Within(t, into, gone, m) && FoldersFollow(t, u, m, m)
    requires Twins(t, into, gone, keeper, twin) && Untouched(t, m, keeper) && Untouched(t, m, twin)
    requires forall d :: Above(u, keeper, d) <==> Above(t, keeper, d)
    requires forall d :: Above(u, twin, d) <==> Above(t, twin, d)
    requires Within(u, keeper, twin, n)
    ensures Within(t, into, gone, m + n[twin := keeper])
    ensures Unrelated(u, m, n[twin := keeper]) && Spans(t, keeper, twin, n[twin := keeper])
  {
    hide FoldersFollow, Linked, Above, Apart;
    var n1 := n[twin := keeper];
    ChildrenApart(t, into, gone, keeper, twin);
    assert Above(t, keeper, keeper) && Above(t, twin, twin) by { Itself(t, keeper); Itself(t, twin); }
    forall g | g in n1
      ensures Above(t, twin, g) && Above(t, keeper, n1[g]) && StrictlyAbove(t, gone, g) && StrictlyAbove(t, into, n1[g])
    {
      BelowStrictly(t, gone, twin, g);
      BelowStrictly(t, into, keeper, n1[g]);
    }
    forall g, h | g in m && h in n1 ensures m[g] != n1[h] && m[g] != h && h != g {
      assert !Above(t, keeper, m[g]) && !Above(t, twin, m[g]) && !Above(t, twin, g);
    }
    forall h | h in n1 ensures h in u && h !in m {
      StillThere(t, u, m, keeper, twin, h);
    }
  }

  lemma Itself(t: Tree, f: nat)
    requires f in t
    ensures Above(t, f, f)
  {
  }

  lemma BelowStrictly(t: Tree, a: nat, b: nat, d: nat)
    requires Linked(t) && StrictlyAbove(t, a, b) && Above(t, b, d)
    ensures StrictlyAbove(t, a, d)
  {
    Transitive(t, a, b, d);
    Bounds(t, b, d);
    Bounds(t, a, b);
  }

  lemma StillThere(t: Tree, u: Tree, m: Handover, keeper: nat, twin: nat, h: nat)
    requires FoldersFollow(t, u, m, m) && Untouched(t, m, twin) && Above(t, twin, h)
    ensures h in u && h !in m
  {
  }

  lemma RoundPaired(t: Tree, u: Tree, into: nat, gone: nat, m: Handover, keeper: nat, twin: nat, n: Handover)
    requires Linked(t) && Apart(t, into, gone) && FoldersFollow(t, u, m, m) && Paired(t, into, gone, m)
    requires Paired(u, keeper, twin, n)
    requires Twins(t, into, gone, keeper, twin) && Untouched(t, m, keeper) && Untouched(t, m, twin)
    requires forall d :: Above(u, keeper, d) <==> Above(t, keeper, d)
    requires forall d :: Above(u, twin, d) <==> Above(t, twin, d)
    requires Within(u, keeper, twin, n)
    ensures Paired(t, into, gone, m + n[twin := keeper])
  {
    hide Linked, Apart, Paired, Above, FoldersFollow;
    var all := m + n[twin := keeper];
    forall g | g in all ensures PairedAt(t, into, gone, all, g) {
      if g == twin {
        NotIn(t, into, gone, keeper, twin, n, u);
      } else if g in n {
        InnerPaired(t, u, into, gone, m, keeper, twin, n, g);
      } else {
        OuterPaired(t, u, into, gone, m, keeper, twin, n, g);
      }
    }
    PairedEach(t, into, gone, all);
  }

  lemma PairedEach(t: Tree, into: nat, gone: nat, m: Handover)
    requires forall g :: g in m ==> PairedAt(t, into, gone, m, g)
    ensures Paired(t, into, gone, m)
  {
  }

  lemma NotIn(t: Tree, into: nat, gone: nat, keeper: nat, twin: nat, n: Handover, u: Tree)
    requires Linked(t) && Apart(t, into, gone) && Twins(t, into, gone, keeper, twin)
    ensures gone != twin && twin in t && keeper in t
  {
    ParentAbove(t, gone, twin);
  }

  lemma InnerParent(t: Tree, keeper: nat, twin: nat, m: Handover, g: nat, h: nat)
    requires Linked(t) && Above(t, twin, g) && g != twin && Above(t, keeper, h) && h != keeper
    requires Untouched(t, m, keeper) && Untouched(t, m, twin)
    ensures g in t && h in t && t[g].parent.Some? && t[h].parent.Some?
    ensures Above(t, twin, t[g].parent.value) && t[g].parent.value !in m && t[h].parent.value !in m
  {
  }

  /** Inside the pair: parents there were not handed over before. */
  lemma InnerPaired(t: Tree, u: Tree, into: nat, gone: nat, m: Handover, keeper: nat, twin: nat, n: Handover, g: nat)
    requires Linked(t) && Apart(t, into, gone) && FoldersFollow(t, u, m, m) && Paired(u, keeper, twin, n)
    requires Twins(t, into, gone, keeper, twin) && Untouched(t, m, keeper) && Untouched(t, m, twin)
    requires forall d :: Above(u, keeper, d) <==> Above(t, keeper, d)
    requires forall d :: Above(u, twin, d) <==> Above(t, twin, d)
    requires Within(u, keeper, twin, n) && g in n && g != twin
    ensures g in t && n[g] in t && t[g].key == t[n[g]].key && t[g].parent.Some?
    ensures t[n[g]].parent == Some(Via((m + n[twin := keeper])[gone := into], t[g].parent.value))
  {
    hide Linked, Untouched, Above;
    ParentAbove(t, gone, twin);
    assert PairedAt(u, keeper, twin, n, g);
    assert StrictlyAbove(u, twin, g) && StrictlyAbove(u, keeper, n[g]);
    assert Above(t, twin, g) && Above(t, keeper, n[g]);
    InnerParent(t, keeper, twin, m, g, n[g]);
    assert u[g].parent == ViaParent(m, t[g].parent) && u[n[g]].parent == ViaParent(m, t[n[g]].parent);
    var p := t[g].parent.value;
    assert p != gone by {
      if p == gone {
        Antisymmetric(t, twin, gone);
      }
    }
  }

  /** Outside it: no parent there is handed over now. */
  lemma OuterPaired(t: Tree, u: Tree, into: nat, gone: nat, m: Handover, keeper: nat, twin: nat, n: Handover, g: nat)
    requires Linked(t) && Apart(t, into, gone) && Paired(t, into, gone, m) && g in m && g !in n && g != twin
    requires Twins(t, into, gone, keeper, twin) && Untouched(t, m, keeper) && Untouched(t, m, twin)
    requires forall d :: Above(u, twin, d) <==> Above(t, twin, d)
    requires Within(u, keeper, twin, n)
    ensures g in t && m[g] in t && t[g].key == t[m[g]].key && t[g].parent.Some?
    ensures t[m[g]].parent == Some(Via((m + n[twin := keeper])[gone := into], t[g].parent.value))
  {
    assert PairedAt(t, into, gone, m, g);
    var p := t[g].parent.value;
    assert !Above(t, twin, g);
    ParentStep(t, twin, g);
    assert p in n ==> StrictlyAbove(u, twin, p);
    assert Above(t, twin, twin);
  }

  lemma ParentStep(t: Tree, a: nat, d: nat)
    requires Linked(t) && d in t && t[d].parent.Some?
    ensures Above(t, a, t[d].parent.value) ==> Above(t, a, d)
  {
  }

  // ------------------------------------------------------------------ the equation through a merge

  ghost predicate Inner(t: Tree, into: nat, gone: nat, a: nat) {
    StrictlyAbove(t, into, a) || StrictlyAbove(t, gone, a)
  }

  ghost predicate Quiet(s: Tables, into: nat, gone: nat) {
    forall a, u :: Inner(s.folder, into, gone, a) ==> Slack(s, a, u) == 0
  }

  /** Below the two folders the equation still balances, outside nothing moved, and between the two it is conserved. */
  ghost predicate Carried(s: Tables, s': Tables, into: nat, gone: nat) {
    (forall a, u :: a in s'.folder && a != into && a != gone ==>
      Slack(s', a, u) == if Inner(s.folder, into, gone, a) then 0 else Slack(s, a, u)) &&
    (forall u :: Slack(s', into, u) + Slack(s', gone, u) == Slack(s, into, u) + Slack(s, gone, u))
  }

  lemma NothingCarried(s: Tables, into: nat, gone: nat)
    requires Quiet(s, into, gone)
    ensures Carried(s, s, into, gone)
  {
    hide Slack, Inner;
  }

  /** A pair inside two quiet folders is quiet itself, at any point of the merge. */
  lemma PairQuiet(s: Tables, s': Tables, into: nat, gone: nat, keeper: nat, twin: nat)
    requires Linked(s.folder) && Linked(s'.folder) && Carried(s, s', into, gone) && Apart(s.folder, into, gone)
    requires Twins(s.folder, into, gone, keeper, twin) && Twins(s'.folder, into, gone, keeper, twin)
    requires forall d :: Above(s'.folder, keeper, d) <==> Above(s.folder, keeper, d)
    requires forall d :: Above(s'.folder, twin, d) <==> Above(s.folder, twin, d)
    ensures Quiet(s', keeper, twin)
    ensures forall u :: Slack(s', keeper, u) == 0 && Slack(s', twin, u) == 0
    ensures Inner(s.folder, into, gone, keeper)
  {
    hide Slack, Linked;
    ChildrenApart(s.folder, into, gone, keeper, twin);
    forall a | Inner(s'.folder, keeper, twin, a) || a == keeper || a == twin
      ensures Inner(s.folder, into, gone, a) && a != into && a != gone
    {
      PairInside(s.folder, into, gone, keeper, twin, a);
    }
  }

  lemma PairInside(t: Tree, into: nat, gone: nat, keeper: nat, twin: nat, a: nat)
    requires Linked(t) && Apart(t, into, gone) && Twins(t, into, gone, keeper, twin)
    requires Above(t, keeper, a) || Above(t, twin, a) || a == keeper || a == twin
    ensures Inner(t, into, gone, a) && a != into && a != gone
  {
    ChildrenApart(t, into, gone, keeper, twin);
    assert Above(t, keeper, keeper) && Above(t, twin, twin);
    if Above(t, keeper, a) {
      Transitive(t, into, keeper, a);
      Bounds(t, keeper, a);
      Bounds(t, into, keeper);
    } else {
      Transitive(t, gone, twin, a);
      Bounds(t, twin, a);
      Bounds(t, gone, twin);
    }
  }

  /** One round: the pair's own merge, then its row handed over, then possibly a respelling. */
  lemma CarriedRound(s: Tables, s1: Tables, s2: Tables, s3: Tables, into: nat, gone: nat, keeper: nat, twin: nat,
                     a: nat, u: Unit)
    requires Carried(s, s1, into, gone) && Carried(s1, s2, keeper, twin)
    requires Twins(s2.folder, into, gone, keeper, twin) && Emptied(s2, twin)
    requires keeper in s2.aggregate && twin in s2.aggregate && keeper != twin && into != gone
    requires keeper != into && keeper != gone && twin != into && twin != gone
    requires keeper in s1.folder && twin in s1.folder && into in s1.folder && gone in s1.folder
    requires Slack(s1, keeper, u) == 0 && Slack(s1, twin, u) == 0
    requires Slack(s3, a, u) == Slack(Folded(s2, keeper, twin), a, u)
    requires a != twin && a in s2.folder && a in s1.folder && into in s2.folder && gone in s2.folder
    requires Inner(s1.folder, keeper, twin, a) || a == keeper ==> Inner(s.folder, into, gone, a)
    requires !Inner(s1.folder, keeper, twin, into) && !Inner(s1.folder, keeper, twin, gone)
    ensures a != into && a != gone ==> Slack(s3, a, u) == if Inner(s.folder, into, gone, a) then 0 else Slack(s, a, u)
    ensures a == into ==> Slack(s3, a, u) == Slack(s1, into, u) - Stored(s2, twin, u)
    ensures a == gone ==> Slack(s3, a, u) == Slack(s1, gone, u) + Stored(s2, twin, u)
  {
    hide Slack, Inner, Emptied;
    FoldMoves(s2, keeper, twin, a, u);
  }
}
