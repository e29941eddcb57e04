/**
 When a claim's destination can come to lie above its source (reconcile.py `_claim`, `identities`). No claim is like
 that when the pass begins: the code checks only that the source does not contain the destination, because a directory
 that appeared holds nothing that went. But a transfer hangs the vanished folder, and the vanished folders still under
 it, where its directory is now, and that place may be under another directory that appeared.
*/
module Crossing {
  import opened Common
  import opened FolderTree
  import opened Rollup
  import opened Merging
  import opened Absorbing
  import opened Transferring
  import opened Renaming

  // ------------------------------------------------------------------ ancestry through one transfer

  /** From a discarded row up to the stand-in every row is discarded, so what is above one is above the other. */
  lemma {:induction false} AboveDiscarded(t: Tree, source: nat, destination: nat, m: Handover, n: nat, g: nat)
    requires Linked(t) && Apart(t, source, destination) && Within(t, source, destination, m)
    requires Paired(t, source, destination, m)
    requires g in m[destination := source] && n !in m[destination := source]
    ensures Above(t, n, g) <==> StrictlyAbove(t, n, destination)
    decreases if g in t then t[g].depth else 0
  {
    if g != destination {
      assert PairedAt(t, source, destination, m, g);
      assert StrictlyAbove(t, destination, g) && StrictlyAbove(t, source, m[g]);
      var p := t[g].parent.value;
      if p !in m[destination := source] {
        assert t[m[g]].parent == Some(p);
        assert Above(t, destination, p) && Above(t, source, p);
        Disjoint(t, source, destination, p);
      } else {
        AboveDiscarded(t, source, destination, m, n, p);
      }
    }
  }

  /**
   What a transfer does to ancestry, for every folder left that is not under the one that moved: it is above what it
   was above, except that of the moved subtree it is now above all or nothing, as it was above the stand-in.
  */
  lemma {:induction false} AboveTransferred(s0: Tables, s: Tables, source: nat, destination: nat, m: Handover, n: nat,
                                            d: nat)
    requires Linked(s0.folder) && Linked(s.folder) && Apart(s0.folder, source, destination)
    requires Transferred(s0, s, source, destination, m)
    requires s0.folder[source].parent.Some? && s0.folder[destination].parent.Some? && n in s.folder
    requires !Above(s0.folder, source, n) && d in s.folder
    ensures Above(s.folder, n, d) <==>
      if Above(s0.folder, source, d) then StrictlyAbove(s0.folder, n, destination) else Above(s0.folder, n, d)
    decreases s.folder[d].depth
  {
    hide Paired, Within, FilesFollow, TotalsFollow, Apart;
    ApartRows(s0.folder, source, destination);
    var t, u, all := s0.folder, s.folder, m[destination := source];
    assert source in t && destination in t;
    if n != d && t[d].parent.Some? {
      if d == source {
        PlaceOutside(t, source, destination, m);
        AboveTransferred(s0, s, source, destination, m, n, t[destination].parent.value);
      } else {
        var q := t[d].parent.value;
        AboveTransferred(s0, s, source, destination, m, n, u[d].parent.value);
        if q in all {
          AboveDiscarded(t, source, destination, m, n, q);
          HeirInside(t, source, destination, m, q);
          Disjointly(t, source, destination, m, q, d);
        }
      }
    }
  }

  lemma PlaceOutside(t: Tree, source: nat, destination: nat, m: Handover)
    requires Linked(t) && Apart(t, source, destination) && Within(t, source, destination, m)
    requires t[destination].parent.Some?
    ensures var p := t[destination].parent.value; p in t && !Above(t, source, p) && p !in m[destination := source]
    ensures Above(t, source, source)
  {
    ParentAbove(t, t[destination].parent.value, destination);
  }

  lemma HeirInside(t: Tree, source: nat, destination: nat, m: Handover, g: nat)
    requires Apart(t, source, destination) && Within(t, source, destination, m) && g in m[destination := source]
    ensures Above(t, source, m[destination := source][g])
  {
  }

  lemma Disjointly(t: Tree, source: nat, destination: nat, m: Handover, g: nat, d: nat)
    requires Linked(t) && Apart(t, source, destination) && Within(t, source, destination, m)
    requires g in m[destination := source]
    requires d in t && t[d].parent == Some(g)
    ensures !Above(t, source, d)
  {
    assert Above(t, destination, g);
    assert Above(t, destination, d);
    Disjoint(t, source, destination, d);
  }

  // ------------------------------------------------------------------ the run-start tree

  /** Of the folders at or above `f` when the pass began, the nearest one transferred since. */
  function Nearest(t0: Tree, hung: map<nat, nat>, f: nat): (b: Option<nat>)
    ensures b.Some? ==> b.value in hung
    decreases if f in t0 && t0[f].depth > 0 then t0[f].depth else 0
  {
    if f in hung then Some(f)
    else if f in t0 && t0[f].parent.Some? && t0[f].parent.value in t0 && 0 <= t0[t0[f].parent.value].depth < t0[f].depth
    then Nearest(t0, hung, t0[f].parent.value)
    else None
  }

  /** `f` went along with a transfer to a directory inside `n`, both read off the tree the pass began with. */
  ghost predicate Crosses(t0: Tree, hung: map<nat, nat>, f: nat, n: nat) {
    Nearest(t0, hung, f).Some? && StrictlyAbove(t0, n, hung[Nearest(t0, hung, f).value])
  }

  lemma {:induction false} NearestIs(t0: Tree, hung: map<nat, nat>, f: nat)
    requires Linked(t0) && f in t0
    ensures Nearest(t0, hung, f).Some? ==>
      Nearest(t0, hung, f).value in hung && Above(t0, Nearest(t0, hung, f).value, f)
    decreases t0[f].depth
  {
    if f !in hung && t0[f].parent.Some? {
      NearestIs(t0, hung, t0[f].parent.value);
    }
  }

  lemma {:induction false} NearestOther(t0: Tree, hung: map<nat, nat>, b: nat, m: nat, f: nat)
    requires Linked(t0) && b !in hung && Nearest(t0, hung[b := m], f) != Some(b)
    ensures Nearest(t0, hung[b := m], f) == Nearest(t0, hung, f)
    decreases if f in t0 then t0[f].depth else 0
  {
    if f !in hung && f in t0 && t0[f].parent.Some? {
      NearestOther(t0, hung, b, m, t0[f].parent.value);
    }
  }

  // ------------------------------------------------------------------ what a pass keeps of it

  /** Everything at or under a folder registered since the run began is accounted for by it. */
  ghost predicate YoungSettled(t: Tree, accounted: set<nat>, young: set<nat>) {
    forall n, f :: n in young && Above(t, n, f) ==> f in accounted
  }

  ghost predicate YoungSeen(t: Tree, accounted: set<nat>, young: set<nat>) {
    forall n :: n in young && n in t ==> n in accounted
  }

  /** Accounted for, or merged away. */
  predicate Done(t: Tree, accounted: set<nat>, f: nat) {
    f in accounted || f !in t
  }

  /**
   The parent of one undecided folder is the one it had, or its way up meets an accounted folder sooner or later both
   ways.
  */
  ghost predicate HungAsBefore(t0: Tree, t: Tree, accounted: set<nat>, f: nat)
    requires f in t0 && f in t
  {
    t[f].parent == t0[f].parent ||
    (t[f].parent.Some? && t[f].parent.value in accounted && t0[f].parent.Some?
      && Done(t, accounted, t0[f].parent.value))
  }

  ghost predicate UndecidedStand(t0: Tree, t: Tree, accounted: set<nat>, hung: map<nat, nat>) {
    forall f :: f in t && f !in accounted ==> f in t0 && f !in hung && HungAsBefore(t0, t, accounted, f)
  }

  /** Who was above a folder that is done with is done with, up to the next transferred folder. */
  ghost predicate DoneAbove(t0: Tree, t: Tree, accounted: set<nat>, hung: map<nat, nat>) {
    forall f {:trigger t0[f].parent} :: f in t0 && f !in hung && Done(t, accounted, f) && t0[f].parent.Some? ==>
      Done(t, accounted, t0[f].parent.value)
  }

  /** Directories that appeared stand to each other as they did. */
  ghost predicate YoungStand(t0: Tree, t: Tree, young: set<nat>) {
    (forall n :: n in young && n in t ==>
      n in t0 && (t[n].parent == t0[n].parent || (t[n].parent.Some? && t[n].parent.value !in young))) &&
    forall n, d :: n in young && d in young && n in t && d in t ==> (StrictlyAbove(t, n, d) <==>
      StrictlyAbove(t0, n, d))
  }

  /** Which directories that appeared an undecided folder lies under. */
  ghost predicate UnderYoung(t0: Tree, t: Tree, accounted: set<nat>, young: set<nat>, hung: map<nat, nat>) {
    forall f, n :: f in t && f !in accounted && n in young && n in t ==> (Above(t, n, f) <==> Crosses(t0, hung, f, n))
  }

  ghost predicate Tracked(t0: Tree, t: Tree, accounted: set<nat>, young: set<nat>, hung: map<nat, nat>) {
    YoungSeen(t, accounted, young) && UndecidedStand(t0, t, accounted, hung) && DoneAbove(t0, t, accounted, hung)
    && YoungStand(t0, t, young) && UnderYoung(t0, t, accounted, young, hung)
  }

  ghost predicate UpClosed(t: Tree, accounted: set<nat>) {
    forall f {:trigger t[f].parent} :: f in t && f in accounted && t[f].parent.Some? ==> t[f].parent.value in accounted
  }

  lemma TrackedFirst(t: Tree, accounted: set<nat>, young: set<nat>)
    requires Linked(t) && UpClosed(t, accounted) && YoungSettled(t, accounted, young)
    ensures Tracked(t, t, accounted, young, map[])
  {
    hide Above, UpClosed, Linked;
    forall n | n in young && n in t ensures n in accounted {
      SelfAbove(t, n);
    }
    forall f | f in t ensures !exists n :: Crosses(t, map[], f, n) {
      NoneYet(t, f);
    }
    assert DoneAbove(t, t, accounted, map[]) by {
      ParentsDone(t, accounted);
    }
  }

  lemma ParentsDone(t: Tree, accounted: set<nat>)
    requires Linked(t) && UpClosed(t, accounted)
    ensures DoneAbove(t, t, accounted, map[])
  {
  }

  lemma SelfAbove(t: Tree, n: nat)
    requires n in t
    ensures Above(t, n, n)
  {
  }

  lemma {:induction false} NoneYet(t: Tree, f: nat)
    ensures Nearest(t, map[], f) == None
    decreases if f in t && t[f].depth > 0 then t[f].depth else 0
  {
    if f in t && t[f].parent.Some? && t[f].parent.value in t && 0 <= t[t[f].parent.value].depth < t[f].depth {
      NoneYet(t, t[f].parent.value);
    }
  }

  // ------------------------------------------------------------------ one transfer

  lemma {:induction false} NearestBelow(t0: Tree, t: Tree, accounted: set<nat>, hung: map<nat, nat>, b: nat, m: nat,
                                        f: nat)
    requires Linked(t0) && Linked(t) && UpClosed(t, accounted) && UndecidedStand(t0, t, accounted, hung)
    requires b in t && b !in accounted && f in t && f !in accounted && Above(t, b, f)
    ensures Nearest(t0, hung[b := m], f) == Some(b)
    decreases t[f].depth
  {
    assert f in t0 && HungAsBefore(t0, t, accounted, f);
    if f != b {
      var q := t[f].parent.value;
      if q in accounted {
        AccountedUp(t, accounted, b, q);
      }
      NearestBelow(t0, t, accounted, hung, b, m, q);
    }
  }

  lemma {:induction false} AccountedUp(t: Tree, accounted: set<nat>, x: nat, f: nat)
    requires Linked(t) && UpClosed(t, accounted) && Above(t, x, f) && f in accounted
    ensures x in accounted
    decreases t[f].depth
  {
    if x != f {
      AccountedUp(t, accounted, x, t[f].parent.value);
    }
  }

  /** Only what lies under the folder that moved is nearest to it. */
  lemma {:induction false} NearestOnly(t0: Tree, t: Tree, accounted: set<nat>, hung: map<nat, nat>, b: nat, m: nat,
                                       f: nat)
    requires Linked(t0) && Linked(t) && UndecidedStand(t0, t, accounted, hung) && DoneAbove(t0, t, accounted, hung)
    requires b in t && b !in accounted && Nearest(t0, hung[b := m], f) == Some(b)
    ensures f in t && f !in accounted && Above(t, b, f)
    decreases if f in t0 then t0[f].depth else 0
  {
    if f != b {
      assert f !in hung && f in t0 && t0[f].parent.Some?;
      NearestOnly(t0, t, accounted, hung, b, m, t0[f].parent.value);
      assert !Done(t, accounted, t0[f].parent.value);
      assert HungAsBefore(t0, t, accounted, f);
    }
  }

  /** The transfer of `source`, with everything it accounts for. */
  ghost predicate Turn(t0: Tree, s0: Tables, s: Tables, source: nat, destination: nat, m: Handover, accounted: set<nat>,
                       young: set<nat>, hung: map<nat, nat>) {
    Linked(t0) && Linked(s0.folder) && Linked(s.folder) && Apart(s0.folder, source, destination)
    && Transferred(s0, s, source, destination, m)
    && s0.folder[source].parent.Some? && s0.folder[destination].parent.Some? && UpClosed(s0.folder, accounted)
    && source !in accounted && destination in young && Tracked(t0, s0.folder, accounted, young, hung)
  }

  /** Survivors and heirs lie in the subtree that vanished, where nothing was accounted for. */
  lemma HeirsUndecided(t: Tree, source: nat, destination: nat, m: Handover, accounted: set<nat>, g: nat)
    requires Linked(t) && Apart(t, source, destination) && Within(t, source, destination, m) && UpClosed(t, accounted)
    requires source !in accounted
    requires g in m[destination := source]
    ensures m[destination := source][g] in t && m[destination := source][g] !in accounted
  {
    HeirInside(t, source, destination, m, g);
    if m[destination := source][g] in accounted {
      AccountedUp(t, accounted, source, m[destination := source][g]);
    }
  }

  lemma StandNext(t0: Tree, s0: Tables, s: Tables, source: nat, destination: nat, m: Handover, accounted: set<nat>,
                  young: set<nat>, hung: map<nat, nat>)
    requires Turn(t0, s0, s, source, destination, m, accounted, young, hung)
    ensures UndecidedStand(t0, s.folder, accounted + {source} + m.Values, hung[source := destination])
  {
    hide Above, Linked, UpClosed, DoneAbove, YoungStand, UnderYoung, YoungSeen, Within, Paired, FilesFollow,
      TotalsFollow, Apart;
    var more, all := accounted + {source} + m.Values, m[destination := source];
    forall f | f in s.folder && f !in more
      ensures f in t0 && f !in hung[source := destination] && HungAsBefore(t0, s.folder, more, f)
    {
      assert f in s0.folder && f !in accounted;
      if s0.folder[f].parent.Some? && s0.folder[f].parent.value in all {
        assert all[s0.folder[f].parent.value] in more;
      }
    }
  }

  lemma DoneNext(t0: Tree, s0: Tables, s: Tables, source: nat, destination: nat, m: Handover, accounted: set<nat>,
                 young: set<nat>, hung: map<nat, nat>)
    requires Turn(t0, s0, s, source, destination, m, accounted, young, hung)
    ensures DoneAbove(t0, s.folder, accounted + {source} + m.Values, hung[source := destination])
  {
    hide Above, Linked, UpClosed, YoungStand, UnderYoung, FilesFollow, TotalsFollow, Apart;
    var more, all := accounted + {source} + m.Values, m[destination := source];
    forall f {:trigger t0[f].parent} | f in t0 && f !in hung[source := destination] && Done(s.folder, more, f)
      && t0[f].parent.Some?
      ensures Done(s.folder, more, t0[f].parent.value)
    {
      if !Done(s0.folder, accounted, f) {
        assert f in s0.folder && HungAsBefore(t0, s0.folder, accounted, f);
        if f in m.Values {
          var g :| g in m && m[g] == f;
          HeirParent(s0.folder, source, destination, m, g);
        } else {
          assert f in all;
          assert f != destination;
          assert PairedAt(s0.folder, source, destination, m, f);
          DiscardedParent(s0.folder, source, destination, m, f);
        }
      }
    }
  }

  /** An heir hangs under the survivor, or under another heir. */
  lemma HeirParent(t: Tree, source: nat, destination: nat, m: Handover, g: nat)
    requires Linked(t) && Apart(t, source, destination) && Within(t, source, destination, m)
    requires Paired(t, source, destination, m) && g in m
    ensures m[g] in t && t[m[g]].parent.Some? && t[m[g]].parent.value in m.Values + {source}
  {
    DiscardedParent(t, source, destination, m, g);
    assert PairedAt(t, source, destination, m, g);
  }

  lemma DiscardedParent(t: Tree, source: nat, destination: nat, m: Handover, g: nat)
    requires Linked(t) && Apart(t, source, destination) && Within(t, source, destination, m)
    requires Paired(t, source, destination, m) && g in m
    ensures g in t && t[g].parent.Some? && t[g].parent.value in m[destination := source]
  {
    assert PairedAt(t, source, destination, m, g);
    assert StrictlyAbove(t, destination, g) && StrictlyAbove(t, source, m[g]);
    var p := t[g].parent.value;
    if p !in m[destination := source] {
      assert t[m[g]].parent == Some(p);
      assert Above(t, destination, p) && Above(t, source, p);
      Disjoint(t, source, destination, p);
    }
  }

  lemma YoungNext(t0: Tree, s0: Tables, s: Tables, source: nat, destination: nat, m: Handover, accounted: set<nat>,
                  young: set<nat>, hung: map<nat, nat>)
    requires Turn(t0, s0, s, source, destination, m, accounted, young, hung)
    ensures YoungStand(t0, s.folder, young) && YoungSeen(s.folder, accounted + {source} + m.Values, young)
  {
    hide Above, Linked, UpClosed, DoneAbove, UnderYoung, UndecidedStand, Within, Paired, FilesFollow, TotalsFollow,
      Apart;
    var t, u, all := s0.folder, s.folder, m[destination := source];
    forall n | n in young && n in u ensures n in t && n in accounted && !Above(t, source, n) && n != source {
      if Above(t, source, n) {
        AccountedUp(t, accounted, source, n);
      }
    }
    forall n | n in young && n in u
      ensures n in t0 && (u[n].parent == t0[n].parent || (u[n].parent.Some? && u[n].parent.value !in young))
    {
      if t[n].parent.Some? && t[n].parent.value in all {
        HeirsUndecided(t, source, destination, m, accounted, t[n].parent.value);
      }
    }
    forall n, d | n in young && d in young && n in u && d in u
      ensures StrictlyAbove(u, n, d) <==> StrictlyAbove(t0, n, d)
    {
      AboveTransferred(s0, s, source, destination, m, n, d);
    }
  }

  lemma UnderNext(t0: Tree, s0: Tables, s: Tables, source: nat, destination: nat, m: Handover, accounted: set<nat>,
                  young: set<nat>, hung: map<nat, nat>)
    requires Turn(t0, s0, s, source, destination, m, accounted, young, hung)
    ensures UnderYoung(t0, s.folder, accounted + {source} + m.Values, young, hung[source := destination])
  {
    hide Above, Linked, UpClosed, Within, Paired, FilesFollow, TotalsFollow, Apart, HungAsBefore, Nearest;
    var t, u, more, hung' := s0.folder, s.folder, accounted + {source} + m.Values, hung[source := destination];
    forall f, n | f in u && f !in more && n in young && n in u ensures Above(u, n, f) <==> Crosses(t0, hung', f, n) {
      if Above(t, source, n) {
        AccountedUp(t, accounted, source, n);
      }
      AboveTransferred(s0, s, source, destination, m, n, f);
      ApartRows(t, source, destination);
      CrossesNext(t0, t, source, destination, accounted, young, hung, f, n);
    }
  }

  lemma CrossesNext(t0: Tree, t: Tree, source: nat, destination: nat, accounted: set<nat>, young: set<nat>,
                    hung: map<nat, nat>, f: nat, n: nat)
    requires Linked(t0) && Linked(t) && UpClosed(t, accounted) && Tracked(t0, t, accounted, young, hung)
    requires source in t && source !in accounted && destination in young && destination in t
    requires f in t && f !in accounted && n in young && n in t
    ensures Crosses(t0, hung[source := destination], f, n) <==>
      if Above(t, source, f) then StrictlyAbove(t, n, destination) else Above(t, n, f)
  {
    hide Above, Linked, UpClosed, HungAsBefore, Nearest, DoneAbove, StrictlyAbove;
    var hung' := hung[source := destination];
    if Above(t, source, f) {
      NearestBelow(t0, t, accounted, hung, source, destination, f);
    } else {
      if Nearest(t0, hung', f) == Some(source) {
        NearestOnly(t0, t, accounted, hung, source, destination, f);
      }
      NearestOther(t0, hung, source, destination, f);
      assert Crosses(t0, hung', f, n) <==> Crosses(t0, hung, f, n);
    }
  }

  /** A transfer keeps track of which undecided folders lie under which directories that appeared. */
  lemma TrackedNext(t0: Tree, s0: Tables, s: Tables, source: nat, destination: nat, m: Handover, accounted: set<nat>,
                    young: set<nat>, hung: map<nat, nat>)
    requires Turn(t0, s0, s, source, destination, m, accounted, young, hung)
    ensures Tracked(t0, s.folder, accounted + {source} + m.Values, young, hung[source := destination])
  {
    hide Turn, YoungSeen, UndecidedStand, DoneAbove, YoungStand, UnderYoung;
    StandNext(t0, s0, s, source, destination, m, accounted, young, hung);
    DoneNext(t0, s0, s, source, destination, m, accounted, young, hung);
    YoungNext(t0, s0, s, source, destination, m, accounted, young, hung);
    UnderNext(t0, s0, s, source, destination, m, accounted, young, hung);
  }

  // ------------------------------------------------------------------ a condition on the run's own evidence

  /** Both ends of a piece of evidence raised by the same number of levels. */
  predicate Raised(t0: Tree, c: nat, d: nat, a: nat, n: nat)
    decreases if c in t0 && t0[c].depth > 0 then t0[c].depth else 0
  {
    (c == a && d == n) ||
    (c in t0 && d in t0 && t0[c].parent.Some? && t0[d].parent.Some? && t0[c].parent.value in t0
     && 0 <= t0[t0[c].parent.value].depth < t0[c].depth && Raised(t0, t0[c].parent.value, t0[d].parent.value, a, n))
  }

  /**
   A claim the pass may come to consider: evidence it began with, or what a chain of transfers makes of it one level up.
  */
  ghost predicate Possible(t0: Tree, evidence: set<(nat, nat)>, a: nat, n: nat) {
    exists c: nat, d: nat :: (c, d) in evidence && Raised(t0, c, d, a, n)
  }

  ghost predicate Able(t0: Tree, evidence: set<(nat, nat)>, accounted: set<nat>, young: set<nat>, a: nat, n: nat) {
    a !in accounted && n in young && Possible(t0, evidence, a, n)
  }

  /**
   No vanished folder could move to a directory that lies inside the one a vanished folder below it could move to:
   of two renames one inside the other, the inner one does not end up outside.
  */
  ghost predicate Straight(t0: Tree, evidence: set<(nat, nat)>, accounted: set<nat>, young: set<nat>) {
    forall b, m, c, n :: Able(t0, evidence, accounted, young, b, m) && Able(t0, evidence, accounted, young, c, n)
      && StrictlyAbove(t0, b, c)
      ==> !StrictlyAbove(t0, n, m)
  }

  lemma {:induction false} RaisedOnce(t0: Tree, c: nat, d: nat, a: nat, n: nat)
    requires Linked(t0) && Raised(t0, c, d, a, n) && a in t0 && n in t0 && t0[a].parent.Some? && t0[n].parent.Some?
    ensures Raised(t0, c, d, t0[a].parent.value, t0[n].parent.value)
    decreases if c in t0 then t0[c].depth else 0
  {
    if c != a || d != n {
      RaisedOnce(t0, t0[c].parent.value, t0[d].parent.value, a, n);
    }
  }

  lemma PossibleOnce(t0: Tree, evidence: set<(nat, nat)>, a: nat, n: nat)
    requires Linked(t0) && Possible(t0, evidence, a, n) && a in t0 && n in t0 && t0[a].parent.Some?
    requires t0[n].parent.Some?
    ensures Possible(t0, evidence, t0[a].parent.value, t0[n].parent.value)
  {
    var c: nat, d: nat :| (c, d) in evidence && Raised(t0, c, d, a, n);
    RaisedOnce(t0, c, d, a, n);
  }

  /** All evidence of an undecided folder, and every transfer made, was possible from the start. */
  ghost predicate Foreseen(t0: Tree, evidence: set<(nat, nat)>, now: set<(nat, nat)>, first: set<nat>,
                           accounted: set<nat>, young: set<nat>,
                           hung: map<nat, nat>) {
    first <= accounted &&
    (forall a: nat, n: nat :: (a, n) in now && a !in accounted && n in young ==> Possible(t0, evidence, a, n)) &&
    forall b :: b in hung ==> b !in first && hung[b] in young && Possible(t0, evidence, b, hung[b])
  }

  lemma ForeseenFirst(t0: Tree, evidence: set<(nat, nat)>, accounted: set<nat>, young: set<nat>)
    ensures Foreseen(t0, evidence, evidence, accounted, accounted, young, map[])
  {
    forall a: nat, n: nat | (a, n) in evidence ensures Possible(t0, evidence, a, n) {
      assert Raised(t0, a, n, a, n);
    }
  }

  lemma ForeseenNext(t0: Tree, s0: Tables, s: Tables, source: nat, destination: nat, m: Handover, accounted: set<nat>,
                     young: set<nat>,
                     hung: map<nat, nat>, evidence: set<(nat, nat)>, now: set<(nat, nat)>, next: set<(nat, nat)>,
                       first: set<nat>)
    requires Turn(t0, s0, s, source, destination, m, accounted, young, hung)
    requires Foreseen(t0, evidence, now, first, accounted, young, hung)
    requires (source, destination) in now
    requires forall p :: p in next ==>
      p in now || p == (s0.folder[source].parent.value, s0.folder[destination].parent.value)
    ensures Foreseen(t0, evidence, next, first, accounted + {source} + m.Values, young, hung[source := destination])
  {
    hide Above, Linked, UpClosed, DoneAbove, UnderYoung, Within, Paired, FilesFollow, TotalsFollow, Apart, Possible;
    var t, more := s0.folder, accounted + {source} + m.Values;
    ApartRows(t, source, destination);
    var before, after := t[source].parent.value, t[destination].parent.value;
    assert Possible(t0, evidence, source, destination);
    if before !in more && after in young {
      assert HungAsBefore(t0, t, accounted, source);
      assert t0[source].parent == Some(before) && t0[destination].parent == Some(after);
      PossibleOnce(t0, evidence, source, destination);
    }
  }

  /** With straight evidence nothing undecided ever lies under a directory its content turned up in. */
  lemma StraightNeverCrosses(t0: Tree, evidence: set<(nat, nat)>, now: set<(nat, nat)>, first: set<nat>,
                             accounted: set<nat>, young: set<nat>,
                             hung: map<nat, nat>, c: nat, n: nat)
    requires Linked(t0) && Foreseen(t0, evidence, now, first, accounted, young, hung)
    requires Straight(t0, evidence, first, young)
    requires (c, n) in now && c !in accounted && c in t0 && c !in hung && n in young
    ensures !Crosses(t0, hung, c, n)
  {
    hide Possible, Nearest, Above;
    NearestIs(t0, hung, c);
    if Nearest(t0, hung, c).Some? {
      var b := Nearest(t0, hung, c).value;
      assert Able(t0, evidence, first, young, b, hung[b]) && Able(t0, evidence, first, young, c, n);
      assert StrictlyAbove(t0, b, c);
    }
  }
}
