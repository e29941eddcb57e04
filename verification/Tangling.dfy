/**
 Content scattered over two directories, one inside the other, that appeared: a rename whose evidence leads out of the
 rename it lies in. The family of states in which the identity pass meets a claim it cannot carry out, and one of them.
*/
module Tangling {
  import opened Common
  import opened FolderTree
  import opened Rollup
  import opened Steps
  import opened Merging
  import opened Absorbing
  import opened Transferring
  import opened Renaming
  import opened Crossing
  import opened DatabaseModel
  import opened Identity

  /** `c` lies under `b`; half of what it held turned up in `n`, and half in `m` inside `n`, where `b` is going. */
  ghost predicate Scattered(v: View, b: nat, m: nat, c: nat, n: nat, half: nat) {
    Linked(v.folder) && UpClosed(v.folder, v.accounted) && b in v.folder && v.folder[b].parent.Some?
    && b !in v.accounted && m in v.folder && {m, n} <= v.accounted
    && !Above(v.folder, m, b) && StrictlyAbove(v.folder, b, c) && StrictlyAbove(v.folder, n, m)
    && c !in v.accounted && c !in v.young && n in v.young
    && (forall f :: f in v.folder ==> v.folder[f].parent != Some(m))
    && ToBoth(v.relocation, c, m, n, half) && half > FilesStayed(v.file, v.known, c)
  }

  ghost predicate ToBoth(relocation: map<(nat, nat), Evidence>, c: nat, m: nat, n: nat, half: nat) {
    (forall d: nat :: (c, d) in relocation <==> d == m || d == n) && relocation[(c, m)] == Evidence(half, 0)
    && relocation[(c, n)] == Evidence(half, 0)
  }

  /** Neither half is a majority, so there is no claim as long as both directories are there. */
  lemma NoClaimYet(v: View, b: nat, m: nat, c: nat, n: nat, half: nat)
    requires Scattered(v, b, m, c, n, half)
    ensures forall d: nat :: !ClaimsIn(v, c, d)
  {
    hide Above, Wins, SumFiles, SumFolders, ToBoth, MovesIn, Linked, UpClosed;
    forall d: nat ensures !ClaimsIn(v, c, d) {
      if ClaimsIn(v, c, d) {
        var moves :| MovesIn(v.relocation, c, moves) && ClaimedIn(v, c, d, moves);
        HalfIsNoMajority(v.relocation, moves, c, m, n, half, d, FilesStayed(v.file, v.known, c),
          FoldersStayed(v.folder, v.young, c));
      }
    }
  }

  lemma HalfIsNoMajority(pairs: map<(nat, nat), Evidence>, moves: seq<Move>, c: nat, m: nat, n: nat, half: nat, d: nat,
                         stayed: nat, more: nat)
    requires MovesIn(pairs, c, moves) && ToBoth(pairs, c, m, n, half) && m != n
    ensures !Wins(moves, d, stayed + SumFiles(moves), more + SumFolders(moves))
  {
    var x :| x in moves && x.to == m;
    var y :| y in moves && y.to == n;
    var i :| 0 <= i < |moves| && moves[i] == x;
    var j :| 0 <= j < |moves| && moves[j] == y;
    if i < j {
      PairOfSum(moves, i, j);
    } else {
      PairOfSum(moves, j, i);
    }
    assert SumFiles(moves) >= half + half;
    forall z | z in moves ensures !MostFiles(z, stayed + SumFiles(moves)) && !MostFolders(z, more + SumFolders(moves)) {
      assert (c, z.to) in pairs;
    }
  }

  /** Where the four folders are when the turn begins. */
  ghost predicate Places(t: Tree, accounted: set<nat>, b: nat, m: nat, c: nat, n: nat) {
    Linked(t) && b in t && m in t && c in t && n in t && t[b].parent.Some? && t[m].parent.Some?
    && StrictlyAbove(t, b, c) && StrictlyAbove(t, n, m) && !Above(t, b, n) && c != m && t[b].parent != Some(c)
    && (forall f :: f in t ==> t[f].parent != Some(m)) && b !in accounted && c !in accounted && n in accounted
  }

  lemma PlacesFirst(v: View, b: nat, m: nat, c: nat, n: nat, half: nat)
    requires Scattered(v, b, m, c, n, half)
    ensures Places(v.folder, v.accounted, b, m, c, n) && b != m
  {
    var t := v.folder;
    Bounds(t, b, c);
    Bounds(t, n, m);
    if Above(t, b, n) {
      AccountedUp(t, v.accounted, b, n);
    }
    if t[b].parent == Some(c) {
      ParentAbove(t, c, b);
    }
  }

  lemma NothingMerged(s0: Tables, s: Tables, b: nat, m: nat, handover: Handover)
    requires Linked(s0.folder) && b in s0.folder && m in s0.folder && Transferred(s0, s, b, m, handover)
    requires forall f :: f in s0.folder ==> s0.folder[f].parent != Some(m)
    ensures handover == map[]
  {
    if g :| g in handover {
      var f := Toward(s0.folder, m, g);
    }
  }

  /** Of the evidence of `c`, the half that named the deleted row is gone. */
  lemma EvidenceLeft(t: Tree, u: Tree, accounted: set<nat>, pairs: map<(nat, nat), Evidence>, b: nat, m: nat, c: nat,
                     n: nat, half: nat)
    requires Places(t, accounted, b, m, c, n) && m !in u && c in u && n in u && ToBoth(pairs, c, m, n, half) && b != m
    ensures var left := Evidenced(pairs, u, t[b].parent, t[m].parent);
      (forall d: nat :: (c, d) in left <==> d == n) && left[(c, n)] == Evidence(half, 0)
  {
    hide Above, Linked;
  }

  lemma StayedPut(s0: Tables, s: Tables, known: set<nat>, b: nat, m: nat, c: nat)
    requires b in s0.folder && m in s0.folder && Transferred(s0, s, b, m, map[]) && c != b && c != m
    ensures FilesStayed(s.file, known, c) == FilesStayed(s0.file, known, c)
  {
    assert (set i | i in s.file && i in known && s.file[i].folder == c) == (set i | i in s0.file && i in known
      && s0.file[i].folder == c);
  }

  /** All the evidence of a folder in one directory, and less than that left where it was. */
  lemma MoreThanHalf(v: View, c: nat, n: nat)
    requires c in v.folder && v.folder[c].parent.Some? && c !in v.accounted && c !in v.young
    requires n in v.folder && n in v.young && !Above(v.folder, c, n)
    requires forall d: nat :: (c, d) in v.relocation <==> d == n
    requires v.relocation[(c, n)].files > FilesStayed(v.file, v.known, c)
    ensures ClaimsIn(v, c, n)
  {
    var only := Move(n, v.relocation[(c, n)].files, v.relocation[(c, n)].folders);
    var moves := [only];
    assert only in moves && SumFiles(moves[..0]) == 0 && SumFiles(moves) == only.files;
    assert MostFiles(only, FilesStayed(v.file, v.known, c) + SumFiles(moves));
    assert MovesIn(v.relocation, c, moves) && ClaimedIn(v, c, n, moves);
  }

  /** Where they are afterwards. */
  lemma PlacesAfter(s0: Tables, s: Tables, accounted: set<nat>, b: nat, m: nat, c: nat, n: nat)
    requires Places(s0.folder, accounted, b, m, c, n) && Apart(s0.folder, b, m) && Transferred(s0, s, b, m, map[])
    requires Linked(s.folder) && UpClosed(s.folder, accounted + {b})
    ensures m !in s.folder && c in s.folder && n in s.folder && Above(s.folder, n, c) && !Above(s.folder, c, n)
    ensures s.folder[c].parent.Some? && c != b
  {
    hide Linked, UpClosed, FilesFollow, TotalsFollow, Above;
    assert map[m := b].Keys == {m};
    AboveTransferred(s0, s, b, m, map[], n, c);
    if Above(s.folder, c, n) {
      AccountedUp(s.folder, accounted + {b}, c, n);
    }
    NotTop(s.folder, n, c);
  }

  lemma NotTop(t: Tree, n: nat, c: nat)
    requires c in t && (Above(t, n, c) ==> !Above(t, c, n))
    ensures Above(t, n, c) ==> t[c].parent.Some?
  {
  }

  /** What is left once `b` has taken the place of `m`. */
  ghost predicate Knotted(v: View, v': View, b: nat, m: nat, c: nat, n: nat) {
    ClaimsIn(v', c, n) && Above(v'.folder, n, c) && m !in v'.folder && v'.accounted == v.accounted + {b}
    && b in v.folder && m in v.folder
    && v'.relocation == Evidenced(v.relocation, v'.folder, v.folder[b].parent, v.folder[m].parent)
  }

  /** Once `b` has taken the place of `m`, what is left of the evidence claims `n` for `c`, and `c` lies in it. */
  lemma Entangle(v: View, v': View, b: nat, m: nat, c: nat, n: nat, half: nat)
    requires Scattered(v, b, m, c, n, half) && CarriedOver(v, v', b, m)
    ensures Knotted(v, v', b, m, c, n)
  {
    hide Above, Linked, UpClosed, Transferred, Apart, Places, Evidenced, ClaimsIn, FilesStayed;
    var s0, s, handover :| Passed(v, v', s0, s, b, m, handover);
    PlacesFirst(v, b, m, c, n, half);
    PlacesParts(v.folder, v.accounted, b, m, c, n);
    NothingMerged(s0, s, b, m, handover);
    assert v'.accounted == v.accounted + {b};
    PlacesAfter(s0, s, v.accounted, b, m, c, n);
    EvidenceLeft(v.folder, v'.folder, v.accounted, v.relocation, b, m, c, n, half);
    StayedPut(s0, s, v.known, b, m, c);
    MoreThanHalf(v', c, n);
  }

  lemma PlacesParts(t: Tree, accounted: set<nat>, b: nat, m: nat, c: nat, n: nat)
    requires Places(t, accounted, b, m, c, n)
    ensures Linked(t) && (forall f :: f in t ==> t[f].parent != Some(m)) && c != m && c != b && m != n && m in t
    ensures b in t
  {
  }

  // ------------------------------------------------------------------ nothing else to decide

  /** There is no other evidence, and what `b` held is in `m`. */
  ghost predicate Alone(v: View, b: nat, m: nat, c: nat, n: nat) {
    v.relocation.Keys == {(b, m), (c, n), (c, m)} && v.relocation[(b, m)].files > FilesStayed(v.file, v.known, b)
    && b !in v.young && m in v.young
    && b in v.folder && m in v.folder && !Above(v.folder, b, m) && v.folder[b].parent.Some?
    && v.folder[b].parent.value in v.accounted
  }

  lemma ClaimRests(v: View, source: nat, destination: nat)
    requires ClaimsIn(v, source, destination)
    ensures (source, destination) in v.relocation && source !in v.accounted
  {
    var moves: seq<Move> :| MovesIn(v.relocation, source, moves) && ClaimedIn(v, source, destination, moves);
    var m: Move :| m in moves && m.to == destination;
  }

  lemma OnlyFirst(v: View, b: nat, m: nat, c: nat, n: nat, half: nat)
    requires Scattered(v, b, m, c, n, half) && Alone(v, b, m, c, n)
    ensures ClaimsIn(v, b, m) && forall s: nat, d: nat :: ClaimsIn(v, s, d) ==> s == b && d == m
  {
    hide ClaimsIn, Above, Linked, UpClosed, FilesStayed;
    PlacesFirst(v, b, m, c, n, half);
    PlacesParts(v.folder, v.accounted, b, m, c, n);
    NoClaimYet(v, b, m, c, n, half);
    forall s: nat, d: nat | ClaimsIn(v, s, d) ensures s == b && d == m {
      ClaimRests(v, s, d);
      assert (s, d) in v.relocation.Keys;
    }
    assert forall d: nat :: (b, d) in v.relocation <==> (b, d) in v.relocation.Keys;
    MoreThanHalf(v, b, m);
  }

  lemma OnlySecond(v: View, v': View, b: nat, m: nat, c: nat, n: nat)
    requires Alone(v, b, m, c, n) && Knotted(v, v', b, m, c, n)
    ensures forall s: nat, d: nat :: ClaimsIn(v', s, d) ==> s == c && d == n
  {
    hide ClaimsIn, Above, FilesStayed;
    forall s: nat, d: nat | ClaimsIn(v', s, d) ensures s == c && d == n {
      ClaimRests(v', s, d);
      assert (s, d) in v.relocation.Keys;
    }
  }

  /** The first turn can only be the transfer of `b`. */
  lemma FirstTurn(v: View, turns: seq<Decision>, now: View, b: nat, m: nat)
    requires Course(v, turns, now) && turns != [] && forall s: nat, d: nat :: ClaimsIn(v, s, d) ==> s == b && d == m
    ensures turns[0].source == b && turns[0].destination == m
    ensures CarriedOver(v, if |turns| == 1 then now else turns[1].view, b, m)
  {
    hide ClaimsIn, CarriedOver, NotDeeper;
    assert Deliberate(turns, 0);
    assert |turns| > 1 ==> LeadsOn(v, turns, 0);
  }

  /** The second would have to transfer `c` into what contains it. */
  lemma NoSecondTurn(v: View, turns: seq<Decision>, now: View, b: nat, m: nat, c: nat, n: nat)
    requires Course(v, turns, now) && |turns| > 1 && turns[0].destination == m && m != n
    requires forall s: nat, d: nat :: ClaimsIn(v, s, d) ==> s == b && d == m
    requires forall s: nat, d: nat :: ClaimsIn(turns[1].view, s, d) ==> s == c && d == n
    ensures !Above(turns[1].view.folder, n, c)
  {
    hide ClaimsIn, CarriedOver, NotDeeper, Above;
    assert Deliberate(turns, 1);
    assert |turns| > 2 ==> LeadsOn(v, turns, 1);
    CarriedApart(turns[1].view, if |turns| == 2 then now else turns[2].view, c, n);
  }

  lemma CarriedApart(v: View, v': View, source: nat, destination: nat)
    requires CarriedOver(v, v', source, destination)
    ensures !Above(v.folder, destination, source)
  {
  }

  /** No course of turns ends with every claim considered: the pass cannot but be refused. */
  lemma NeverThrough(v: View, turns: seq<Decision>, now: View, b: nat, m: nat, c: nat, n: nat, half: nat)
    requires Scattered(v, b, m, c, n, half) && Alone(v, b, m, c, n) && Course(v, turns, now)
    ensures exists s: nat, d: nat :: ClaimsIn(now, s, d) && !Considered(turns, |turns|, s)
  {
    hide ClaimsIn, Scattered, Alone, CarriedOver, Above, Evidenced;
    OnlyFirst(v, b, m, c, n, half);
    PlacesFirst(v, b, m, c, n, half);
    PlacesParts(v.folder, v.accounted, b, m, c, n);
    if turns == [] {
      assert ClaimsIn(now, b, m) && !Considered(turns, |turns|, b);
    } else {
      FirstTurn(v, turns, now, b, m);
      var next := if |turns| == 1 then now else turns[1].view;
      Entangle(v, next, b, m, c, n, half);
      OnlySecond(v, next, b, m, c, n);
      if |turns| > 1 {
        NoSecondTurn(v, turns, now, b, m, c, n);
      }
      assert ClaimsIn(now, c, n) && !Considered(turns, |turns|, c);
    }
  }

  /** And it is refused at the second turn, after the transfer of `b`. */
  lemma SecondRefused(v: View, turns: seq<Decision>, b: nat, m: nat, c: nat, n: nat, half: nat)
    requires Scattered(v, b, m, c, n, half) && Alone(v, b, m, c, n) && Refused(v, turns)
    ensures |turns| == 2 && turns[0].source == b && turns[0].destination == m && CarriedOver(v, turns[1].view, b, m)
    ensures turns[1].source == c && turns[1].destination == n && ClaimsIn(turns[1].view, c, n)
    ensures Above(turns[1].view.folder, n, c)
  {
    hide ClaimsIn, Scattered, Alone, CarriedOver, Above, Evidenced, NotDeeper;
    OnlyFirst(v, b, m, c, n, half);
    PlacesFirst(v, b, m, c, n, half);
    PlacesParts(v.folder, v.accounted, b, m, c, n);
    ScatteredUpright(v, b, m, c, n, half);
    var last := |turns| - 1;
    var before, view := turns[..last], turns[last].view;
    assert last > 0;
    FirstTurn(v, before, view, b, m);
    var next := if last == 1 then view else before[1].view;
    Entangle(v, next, b, m, c, n, half);
    OnlySecond(v, next, b, m, c, n);
    if last > 1 {
      NoSecondTurn(v, before, view, b, m, c, n);
    }
  }

  lemma ScatteredUpright(v: View, b: nat, m: nat, c: nat, n: nat, half: nat)
    requires Scattered(v, b, m, c, n, half)
    ensures !Above(v.folder, m, b)
  {
  }
}
