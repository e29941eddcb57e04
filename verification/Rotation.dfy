/**
 The rotating drift check (aggregates.py `verify`): which folders a run looks at, and when every folder comes around.
*/
module Rotation {
  import opened Common
  import opened FolderTree
  import opened Rollup
  import opened Steps
  import opened Moves
  import opened Batching
  import opened DatabaseModel
  import opened Paths
  import opened Lifetimes

  /** When a folder's total was last compared; a new one has no entry. */
  type Stamps = map<nat, int>

  // ------------------------------------------------------------------ the order

  /** Never verified first, then least recently verified, then by id. */
  predicate Sooner(stamps: Stamps, a: nat, b: nat) {
    if a in stamps && b in stamps then stamps[a] < stamps[b] || (stamps[a] == stamps[b] && a < b)
    else if a in stamps || b in stamps then b in stamps
    else a < b
  }

  function Ahead(stamps: Stamps, ids: set<nat>, a: nat): set<nat> {
    set f | f in ids && Sooner(stamps, f, a)
  }

  /** The first `limit` of the ids in that order. */
  ghost predicate Soonest(stamps: Stamps, ids: set<nat>, limit: nat, chosen: set<nat>) {
    chosen <= ids && |chosen| <= limit && (chosen == ids || |chosen| == limit)
    && forall a, b :: a in chosen && b in ids - chosen ==> Sooner(stamps, a, b)
  }

  function Restamped(stamps: Stamps, chosen: set<nat>, now: int): Stamps {
    map f | f in stamps.Keys + chosen :: if f in chosen then now else stamps[f]
  }

  lemma SoonerOrders(stamps: Stamps, a: nat, b: nat)
    ensures !(Sooner(stamps, a, b) && Sooner(stamps, b, a)) && (a != b ==> Sooner(stamps, a, b) || Sooner(stamps, b, a))
    ensures forall c :: Sooner(stamps, a, b) && Sooner(stamps, b, c) ==> Sooner(stamps, a, c)
  {
  }

  /** A folder's turn has come exactly when fewer than the limit are ahead of it. */
  lemma ChosenExactly(stamps: Stamps, ids: set<nat>, limit: nat, chosen: set<nat>, a: nat)
    requires Soonest(stamps, ids, limit, chosen) && a in ids
    ensures a in chosen <==> |Ahead(stamps, ids, a)| < limit
    ensures a !in chosen ==> chosen <= Ahead(stamps, ids, a) && |chosen| == limit
  {
    hide Sooner;
    var ahead := Ahead(stamps, ids, a);
    if a in chosen {
      forall f | f in ahead ensures f in chosen - {a} {
        SoonerOrders(stamps, f, a);
      }
      Fewer(ahead, chosen - {a});
    } else {
      forall f | f in chosen ensures f in ahead {
        assert a in ids - chosen;
      }
      Fewer(chosen, ahead);
    }
  }

  // ------------------------------------------------------------------ one check

  ghost function Checkable(s: Tables, workspace: nat): set<nat> {
    set a | a in s.folder && s.folder[a].workspace == workspace && !Pending(s, a)
  }

  function InWorkspace(s: Tables, workspace: nat): set<nat> {
    set a | a in s.folder && s.folder[a].workspace == workspace
  }

  predicate HasQueued(closure: Closure, delta: map<nat, Delta>, a: nat) {
    exists k :: k in delta && (a, delta[k].folder) in closure
  }

  class Rota {
    const db: Database
    var verified: Stamps

    constructor (db: Database)
      ensures this.db == db && verified == map[]
    {
      this.db, verified := db, map[];
    }

    method First(ids: set<nat>) returns (first: nat)
      requires ids != {}
      ensures first in ids && forall b :: b in ids - {first} ==> Sooner(verified, first, b)
    {
      hide Sooner;
      first :| first in ids;
      var left := ids - {first};
      while left != {}
        invariant left <= ids && first in ids && forall b :: b in ids - left - {first} ==> Sooner(verified, first, b)
        decreases left
      {
        var b :| b in left;
        left := left - {b};
        SoonerOrders(verified, b, first);
        if Sooner(verified, b, first) {
          first := b;
        }
      }
    }

    method Candidates(ids: set<nat>, limit: nat) returns (chosen: seq<nat>, all: set<nat>)
      ensures Soonest(verified, ids, limit, all) && forall a :: a in chosen <==> a in all
    {
      chosen, all := [], {};
      var left := ids;
      while |chosen| < limit && left != {}
        invariant left == ids - all && all <= ids && |all| == |chosen| <= limit && forall a :: a in chosen <==> a in all
        invariant forall a, b :: a in all && b in left ==> Sooner(verified, a, b)
        decreases left
      {
        var a := First(left);
        chosen, all, left := chosen + [a], all + {a}, left - {a};
      }
    }

    /**
     Compare the folders that waited longest, among those with nothing pending, with ground truth; correct and report
     what disagrees, and send all of them to the back.
    */
    method Verify(workspace: nat, limit: nat, now: int) returns (drifted: seq<nat>, checked: set<nat>)
      requires db.Valid()
      modifies this`verified, db`aggregate
      ensures db.Valid() && db.Rows() == old(db.Rows()).(aggregate := db.aggregate)
      ensures Soonest(old(verified), Checkable(old(db.Rows()), workspace), limit, checked)
      ensures verified == Restamped(old(verified), checked, now)
      ensures forall a, u :: a in checked ==> Stored(db.Rows(), a, u) == Truth(db.Rows(), a, u)
      ensures forall a :: a in drifted ==> a in checked && db.aggregate[a] != old(db.aggregate)[a]
      ensures forall a :: a in db.folder && a !in drifted ==> db.aggregate[a] == old(db.aggregate)[a]
      ensures Consistent(old(db.Rows())) ==> drifted == [] && db.Rows() == old(db.Rows())
    {
      hide Sound, Exact, Consistent, Pending, Soonest, Truth, Stored, HasQueued, Checkable;
      var ids := set a | a in db.folder && db.folder[a].workspace == workspace && !HasQueued(db.closure, db.delta, a);
      CheckableAre(db, ids, workspace);
      var chosen;
      chosen, checked := Candidates(ids, limit);
      assert checked <= ids by { SoonestWithin(verified, ids, limit, checked); }
      drifted := db.Verify(chosen);
      verified := Restamped(verified, checked, now);
    }
  }

  lemma SoonestWithin(stamps: Stamps, ids: set<nat>, limit: nat, chosen: set<nat>)
    requires Soonest(stamps, ids, limit, chosen)
    ensures chosen <= ids
  {
  }

  lemma CheckableAre(db: Database, ids: set<nat>, workspace: nat)
    requires db.Valid()
    requires ids == set a | a in db.folder && db.folder[a].workspace == workspace && !HasQueued(db.closure, db.delta, a)
    ensures ids == Checkable(db.Rows(), workspace) && forall a :: a in ids ==> a in db.folder && !Pending(db.Rows(), a)
  {
    hide Above, Sound;
  }

  // ------------------------------------------------------------------ check after check

  /** One check: the workspace's folders, those with nothing pending, their stamps, and which were taken. */
  datatype Round = Round(present: set<nat>, settled: set<nat>, stamps: Stamps, chosen: set<nat>, now: int)

  ghost predicate Taken(limit: nat, r: Round) {
    r.settled <= r.present && Soonest(r.stamps, r.settled, limit, r.chosen)
  }

  /** Between two checks folders come and go; who stays keeps the stamp. */
  ghost predicate Then(r: Round, r': Round) {
    var after := Restamped(r.stamps, r.chosen, r.now);
    forall f :: f in r.present && f in r'.present ==> (f in r'.stamps <==> f in after) && (f in after ==>
      r'.stamps[f] == after[f])
  }

  ghost predicate Rounds(limit: nat, rounds: seq<Round>) {
    (forall i :: 0 <= i < |rounds| ==> Taken(limit, rounds[i]))
    && forall i :: 0 < i < |rounds| ==> Then(rounds[i - 1], rounds[i])
  }

  /** Nothing is ever pending beneath the folder, and time passes. */
  ghost predicate Waits(r: Round, a: nat) {
    a in r.settled && (a in r.stamps ==> r.stamps[a] < r.now)
  }

  /** Folders that appeared since the last check and go before `a`. */
  function Came(r: Round, r': Round, a: nat): set<nat> {
    Ahead(r'.stamps, r'.present - r.present, a)
  }

  function Newcomers(rounds: seq<Round>, a: nat): nat {
    if |rounds| <= 1 then 0
      else Newcomers(rounds[..|rounds| - 1], a) + |Came(rounds[|rounds| - 2], rounds[|rounds| - 1], a)|
  }

  /** Whoever was taken goes behind. */
  lemma Onward(limit: nat, r: Round, r': Round, a: nat)
    requires Taken(limit, r) && Then(r, r') && Waits(r, a) && a !in r.chosen && a in r'.present
    ensures |Ahead(r'.stamps, r'.present, a)| + limit <= |Ahead(r.stamps, r.present, a)| + |Came(r, r', a)|
  {
    hide Soonest;
    var before, after, came := Ahead(r.stamps, r.present, a), Ahead(r'.stamps, r'.present, a), Came(r, r', a);
    ChosenExactly(r.stamps, r.settled, limit, r.chosen, a);
    assert r.chosen <= before && after <= (before - r.chosen) + came;
    Fewer(after, (before - r.chosen) + came);
    assert |before| == |before - r.chosen| + |r.chosen|;
  }

  lemma {:induction false} StillAhead(limit: nat, rounds: seq<Round>, a: nat)
    requires rounds != [] && Rounds(limit, rounds)
    requires forall i :: 0 <= i < |rounds| ==> Waits(rounds[i], a) && a !in rounds[i].chosen
    ensures var last := rounds[|rounds| - 1];
      |Ahead(last.stamps, last.present, a)| + (|rounds| - 1) * limit <= |Ahead(rounds[0].stamps, rounds[0].present, a)| + Newcomers(rounds, a)
  {
    hide Soonest, Ahead, Then;
    var n := |rounds|;
    if n > 1 {
      StillAhead(limit, rounds[..n - 1], a);
      assert Then(rounds[n - 2], rounds[n - 1]);
      Onward(limit, rounds[n - 2], rounds[n - 1], a);
    }
  }

  /**
   A folder with nothing pending is looked at before the checks could have taken as many as were ahead of it and came to
   be ahead of it since.
  */
  lemma ComesAround(limit: nat, rounds: seq<Round>, a: nat)
    requires rounds != [] && Rounds(limit, rounds) && forall i :: 0 <= i < |rounds| ==> Waits(rounds[i], a)
    requires |rounds| * limit > |Ahead(rounds[0].stamps, rounds[0].present, a)| + Newcomers(rounds, a)
    ensures exists i :: 0 <= i < |rounds| && a in rounds[i].chosen
  {
    hide Soonest, Ahead;
    if forall i :: 0 <= i < |rounds| ==> a !in rounds[i].chosen {
      StillAhead(limit, rounds, a);
      var last := rounds[|rounds| - 1];
      ChosenExactly(last.stamps, last.settled, limit, last.chosen, a);
      Fewer(Ahead(last.stamps, last.settled, a), Ahead(last.stamps, last.present, a)) by { AheadGrows(last.stamps, last.settled, last.present, a); }
    }
  }

  lemma AheadGrows(stamps: Stamps, ids: set<nat>, more: set<nat>, a: nat)
    requires ids <= more
    ensures Ahead(stamps, ids, a) <= Ahead(stamps, more, a)
  {
  }

  // ------------------------------------------------------------------ crowded out

  /**
   The workspace has as many new folders as a check looks at, and `a` waited longest of all others: only they are ahead
   of it.
  */
  lemma CrowdedOut(stamps: Stamps, came: set<nat>, a: nat, chosen: set<nat>)
    requires a in stamps && came !! stamps.Keys && forall f :: f in stamps && f != a ==> stamps[f] > stamps[a]
    requires Soonest(stamps, stamps.Keys + came, |came|, chosen)
    ensures Ahead(stamps, stamps.Keys + came, a) == came && Ahead(stamps, came, a) == came && chosen == came
  {
    var all := stamps.Keys + came;
    ChosenExactly(stamps, all, |came|, chosen, a);
    assert Ahead(stamps, all, a) == came;
    Fewer(came - chosen, came);
    if chosen != came {
      Fewer(chosen, came);
    }
  }

  lemma MoreRounds(limit: nat, rounds: seq<Round>, r: Round)
    requires Rounds(limit, rounds) && Taken(limit, r) && (rounds != [] ==> Then(rounds[|rounds| - 1], r))
    ensures Rounds(limit, rounds + [r])
  {
    hide Taken, Then;
  }

  lemma MoreNewcomers(rounds: seq<Round>, r: Round, a: nat)
    ensures Newcomers(rounds + [r], a) == if rounds == [] then 0
      else Newcomers(rounds, a) + |Came(rounds[|rounds| - 1], r, a)|
  {
    hide Came;
    var more := rounds + [r];
    assert more[..|more| - 1] == rounds;
    assert rounds != [] ==> more[|more| - 2] == rounds[|rounds| - 1];
  }

  /** So far no check took `a`, and ahead of it was just what came since the check before. */
  ghost predicate Crowding(limit: nat, rounds: seq<Round>, stamps: Stamps, a: nat) {
    Rounds(limit, rounds) && a in stamps && stamps[a] == 0 && (forall f :: f in stamps && f != a ==> stamps[f] > 0) &&
    (forall i :: 0 <= i < |rounds| ==> Waits(rounds[i], a) && a !in rounds[i].chosen) &&
    (rounds != [] ==>
      var last := rounds[|rounds| - 1];
      last.present == stamps.Keys && stamps == Restamped(last.stamps, last.chosen, last.now) &&
      |Ahead(rounds[0].stamps, rounds[0].present, a)| + Newcomers(rounds, a) == |rounds| * limit)
  }

  lemma CrowdingOn(limit: nat, rounds: seq<Round>, stamps: Stamps, came: set<nat>, a: nat, r: Round)
    requires Crowding(limit, rounds, stamps, a) && came !! stamps.Keys && |came| == limit
    requires Soonest(stamps, stamps.Keys + came, limit, r.chosen)
    requires r.present == r.settled == stamps.Keys + came && r.stamps == stamps && r.now > 0
    ensures Crowding(limit, rounds + [r], Restamped(stamps, r.chosen, r.now), a)
    ensures Restamped(stamps, r.chosen, r.now).Keys == stamps.Keys + came
  {
    hide Soonest, Newcomers, Ahead, Rounds;
    CrowdedOut(stamps, came, a, r.chosen);
    MoreRounds(limit, rounds, r);
    MoreNewcomers(rounds, r, a);
    var more := rounds + [r];
    assert more[0] == if rounds == [] then r else rounds[0];
    assert rounds != [] ==> r.present - rounds[|rounds| - 1].present == came;
    assert |more| * limit == |rounds| * limit + limit;
    assert rounds == [] ==> |rounds| * limit == 0;
  }

  // ------------------------------------------------------------------ as an instance lives

  /** What a check at this moment works on. */
  ghost predicate Recorded(s: Tables, workspace: nat, r: Round) {
    r.present == InWorkspace(s, workspace) && r.settled == Checkable(s, workspace)
  }

  /** The stamps a check leaves. */
  function After(r: Round): Stamps {
    Restamped(r.stamps, r.chosen, r.now)
  }

  /** Checks of one workspace, each of the rows and stamps the one before left and other transactions made of them. */
  ghost predicate Series(limit: nat, workspace: nat, rounds: seq<Round>, seen: seq<Tables>,
                         meanwhile: seq<seq<Transaction>>, key: string -> string) {
    |rounds| == |seen| <= |meanwhile| && Rounds(limit, rounds)
    && (forall i :: 0 <= i < |rounds| ==> Recorded(seen[i], workspace, rounds[i])) &&
    forall i :: 0 < i < |rounds| ==>
      Leads(seen[i - 1], seen[i], meanwhile[i - 1], key) && rounds[i].stamps == After(rounds[i - 1])
  }

  /** The next check is of what was left. */
  ghost predicate Following(s: Tables, stamps: Stamps, rounds: seq<Round>, seen: seq<Tables>,
                            meanwhile: seq<seq<Transaction>>, key: string -> string)
    requires 0 < |rounds| == |seen| <= |meanwhile|
  {
    var last := |rounds| - 1;
    Leads(seen[last], s, meanwhile[last], key) && stamps == After(rounds[last])
  }

  lemma SeriesOn(limit: nat, workspace: nat, rounds: seq<Round>, seen: seq<Tables>, meanwhile: seq<seq<Transaction>>,
                 key: string -> string,
                 s: Tables, r: Round)
    requires Series(limit, workspace, rounds, seen, meanwhile, key) && |rounds| < |meanwhile|
    requires Recorded(s, workspace, r) && Taken(limit, r)
    requires rounds != [] ==> Following(s, r.stamps, rounds, seen, meanwhile, key)
    ensures Series(limit, workspace, rounds + [r], seen + [s], meanwhile, key)
  {
    hide Leads, Recorded, Taken, Restamped;
    if rounds != [] {
      assert Then(rounds[|rounds| - 1], r);
    }
    MoreRounds(limit, rounds, r);
  }

  /** Checks at the times of the clock, with any transactions between them. */
  method Rotate(rota: Rota, workspace: nat, limit: nat, clock: seq<int>, meanwhile: seq<seq<Transaction>>)
    returns (ghost rounds: seq<Round>, ghost seen: seq<Tables>)
    requires Whole(rota.db) && 0 < |clock| == |meanwhile|
    modifies rota, rota.db
    ensures Whole(rota.db) && |rounds| == |clock|
    ensures Series(limit, workspace, rounds, seen, meanwhile, rota.db.comparisonKey)
    ensures forall i :: 0 <= i < |clock| ==> rounds[i].now == clock[i]
    ensures seen[0] == old(rota.db.Rows()) && rounds[0].stamps == old(rota.verified)
    ensures Following(rota.db.Rows(), rota.verified, rounds, seen, meanwhile, rota.db.comparisonKey)
  {
    hide Sound, Exact, Consistent, Soonest, Keyed, Checkable, InWorkspace, Leads, Series, Lived, Restamped;
    ghost var key := rota.db.comparisonKey;
    rounds, seen := [], [];
    assert Series(limit, workspace, [], [], meanwhile, key) by { NoSeriesYet(limit, workspace, meanwhile, key); }
    var n := 0;
    while n < |clock|
      invariant Whole(rota.db) && |rounds| == |seen| == n <= |clock|
      invariant Series(limit, workspace, rounds, seen, meanwhile, key)
      invariant forall i :: 0 <= i < n ==> rounds[i].now == clock[i]
      invariant if n == 0 then rota.db.Rows() == old(rota.db.Rows()) && rota.verified == old(rota.verified)
                else seen[0] == old(rota.db.Rows()) && rounds[0].stamps == old(rota.verified)
                     && Following(rota.db.Rows(), rota.verified, rounds, seen, meanwhile, key)
    {
      ghost var was, stamps := rota.db.Rows(), rota.verified;
      var drifted, checked := rota.Verify(workspace, limit, clock[n]);
      CheckableInside(was, workspace);
      ghost var round := Round(InWorkspace(was, workspace), Checkable(was, workspace), stamps, checked, clock[n]);
      SeriesOn(limit, workspace, rounds, seen, meanwhile, key, was, round);
      ghost var states := Through(rota.db, meanwhile[n]);
      LeadsBy(states, meanwhile[n], key);
      rounds, seen := rounds + [round], seen + [was];
      n := n + 1;
    }
  }

  lemma NoSeriesYet(limit: nat, workspace: nat, meanwhile: seq<seq<Transaction>>, key: string -> string)
    ensures Series(limit, workspace, [], [], meanwhile, key)
  {
  }

  lemma CheckableInside(s: Tables, workspace: nat)
    ensures Checkable(s, workspace) <= InWorkspace(s, workspace)
  {
  }
}
