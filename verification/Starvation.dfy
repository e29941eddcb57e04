/** A folder the drift check never looks at again: as many new folders between two checks as one looks at. */
module Starvation {
  import opened Common
  import opened FolderTree
  import opened Rollup
  import opened Steps
  import opened Interleavings
  import opened DatabaseModel
  import opened Lifetimes
  import opened Rotation
  import opened Instances

  /** Nothing queued and no files, every folder of one workspace, names no longer than so many. */
  ghost predicate Growing(s: Tables, root: nat, count: nat) {
    Good(s) && root in s.folder && s.delta == map[] && s.file == map[] &&
    forall f :: f in s.folder ==> s.folder[f].workspace == 0 && (f != root ==> |s.folder[f].key| <= count)
  }

  /** So many new folders in the root, of names not used before. */
  function Additions(root: nat, from: nat, limit: nat): seq<Transaction> {
    if limit == 0 then []
      else Additions(root, from, limit - 1) + [Transaction.CreateChild(root, Repeated(from + limit - 1))]
  }

  lemma {:induction false} AdditionsSize(root: nat, from: nat, limit: nat)
    ensures |Additions(root, from, limit)| == limit
  {
    if limit > 0 {
      AdditionsSize(root, from, limit - 1);
    }
  }

  /** How many names were used before the n-th check. */
  function NamesUsed(limit: nat, n: nat): nat {
    n * limit
  }

  lemma NamesMore(limit: nat, n: nat)
    requires n > 0
    ensures NamesUsed(limit, n) == NamesUsed(limit, n - 1) + limit
  {
  }

  lemma GrowsOn(s: Tables, s': Tables, root: nat, count: nat, more: nat, key: string -> string)
    requires more == count + 1
    requires Growing(s, root, count) && key(Repeated(count)) == Repeated(count)
    requires Stepped(s, s', ChildCreated(root, Repeated(count), key(Repeated(count))))
    ensures Growing(s', root, more) && s.nextId !in s.folder && s'.folder.Keys == s.folder.Keys + {s.nextId}
  {
    hide Sound, Consistent;
    var name := Repeated(count);
    assert !HasFile(s, root, name) && !HasChild(s, root, name) by { RootUnlisted(s, root, count); }
    NextIsNew(s);
    StepKeeps(s, ChildCreated(root, name, name));
  }

  lemma NextIsNew(s: Tables)
    requires Sound(s)
    ensures s.nextId !in s.folder
  {
  }

  lemma RootUnlisted(s: Tables, root: nat, count: nat)
    requires Growing(s, root, count)
    ensures forall c :: c in s.folder && s.folder[c].parent == Some(root) ==> s.folder[c].key != Repeated(count)
  {
    hide OneRoot, SiblingsDiffer, RootsUnnamed, LiveNamesDiffer, Countable, Consistent, Filed;
    assert s.folder[root].parent != Some(root);
  }

  /** As many folders more, and none of them there before. */
  ghost predicate Grew(s: Tables, s': Tables, root: nat, count: nat, limit: nat, came: set<nat>) {
    Growing(s', root, count) && |came| == limit && came !! s.folder.Keys && s'.folder.Keys == s.folder.Keys + came
  }

  lemma NothingGrew(s: Tables, root: nat, count: nat)
    requires Growing(s, root, count)
    ensures Grew(s, s, root, count, 0, {})
  {
    hide Growing;
  }

  lemma GrewMore(s: Tables, mid: Tables, s': Tables, root: nat, most: nat, sofar: nat, came: set<nat>,
                 key: string -> string)
    returns (count: nat)
    requires Grew(s, mid, root, sofar, most, came) && forall name :: key(name) == name
    requires var name := Repeated(sofar); Stepped(mid, s', ChildCreated(root, name, key(name)))
    ensures count == sofar + 1 && Grew(s, s', root, count, most + 1, came + {mid.nextId})
  {
    hide Growing, Repeated, Stepped;
    count := sofar + 1;
    GrowsOn(mid, s', root, sofar, count, key);
    OneCame(s.folder.Keys, mid.folder.Keys, s'.folder.Keys, came, mid.nextId);
  }

  lemma OneCame(keys: set<nat>, before: set<nat>, after: set<nat>, came: set<nat>, id: nat)
    requires before == keys + came && came !! keys && id !in before && after == before + {id}
    ensures |came + {id}| == |came| + 1 && came + {id} !! keys && after == keys + (came + {id})
  {
  }

  lemma {:induction false} LivesGrowing(states: seq<Tables>, root: nat, from: nat, limit: nat, key: string -> string)
    returns (came: set<nat>, count: nat)
    requires Lived(states, Additions(root, from, limit), key) && Growing(states[0], root, from)
    requires forall name :: key(name) == name
    ensures |states| == limit + 1 && count == from + limit && Grew(states[0], states[limit], root, count, limit, came)
  {
    hide Growing, Grew, Repeated, Stepped, Additions, Lived;
    AdditionsSize(root, from, limit);
    LivedSize(states, Additions(root, from, limit), key);
    came, count := {}, from;
    if limit == 0 {
      NothingGrew(states[0], root, from);
    } else {
      var most := limit - 1;
      assert most + 1 == limit;
      var used := from + most;
      OneLess(states, root, from, most, used, key);
      var before := states[..limit];
      assert before[0] == states[0] && before[most] == states[most];
      var others, sofar := LivesGrowing(before, root, from, most, key);
      assert sofar == used;
      count := GrewMore(states[0], states[most], states[limit], root, most, used, others, key);
      came := others + {states[most].nextId};
    }
  }

  lemma OneLess(states: seq<Tables>, root: nat, from: nat, most: nat, used: nat, key: string -> string)
    requires Lived(states, Additions(root, from, most + 1), key) && used == from + most
    ensures |states| == most + 2 && Lived(states[..most + 1], Additions(root, from, most), key)
    ensures var name := Repeated(used); Stepped(states[most], states[most + 1], ChildCreated(root, name, key(name)))
  {
    hide Repeated, Stepped;
    AdditionsSize(root, from, most + 1);
    AdditionsSize(root, from, most);
    var life := Additions(root, from, most + 1);
    assert life[..most] == Additions(root, from, most)
      && life[most] == Transaction.CreateChild(root, Repeated(used));
    LivedBefore(states, life, key, most);
    assert Performed(states[most], states[most + 1], life[most], key);
  }

  lemma LivedBefore(states: seq<Tables>, life: seq<Transaction>, key: string -> string, n: nat)
    requires Lived(states, life, key) && n <= |life|
    ensures Lived(states[..n + 1], life[..n], key)
  {
    hide Performed;
    forall k | 0 <= k < n ensures Performed(states[..n + 1][k], states[..n + 1][k + 1], life[..n][k], key) {
      assert Performed(states[k], states[k + 1], life[k], key);
    }
  }

  lemma AllCheckable(s: Tables, root: nat, count: nat)
    requires Growing(s, root, count)
    ensures Checkable(s, 0) == s.folder.Keys == InWorkspace(s, 0)
  {
  }

  /** What the checks come to when between two of them as many folders appear as one looks at. */
  ghost predicate Starving(limit: nat, rounds: seq<Round>, seen: seq<Tables>, root: nat, key: string -> string) {
    (forall name :: key(name) == name) && 0 < |rounds| == |seen| && Rounds(limit, rounds) &&
    (forall i :: 0 <= i < |rounds| ==> Recorded(seen[i], 0, rounds[i]) && rounds[i].now == i) &&
    (forall i :: 0 < i < |rounds| ==>
      rounds[i].stamps == After(rounds[i - 1])
        && Leads(seen[i - 1], seen[i], Additions(root, NamesUsed(limit, i - 1), limit), key)) &&
    Growing(seen[0], root, 0) && seen[0].folder.Keys == {root} && rounds[0].stamps == map[]
  }

  /** After the n-th check. */
  ghost predicate StarvedAt(limit: nat, rounds: seq<Round>, seen: seq<Tables>, root: nat, n: nat)
    requires n < |rounds| == |seen|
  {
    Growing(seen[n], root, NamesUsed(limit, n)) && Crowding(limit, rounds[1..n + 1], After(rounds[n]), root)
    && After(rounds[n]).Keys == seen[n].folder.Keys
  }

  lemma FirstTakesRoot(limit: nat, rounds: seq<Round>, seen: seq<Tables>, root: nat, key: string -> string)
    requires limit > 0 && Starving(limit, rounds, seen, root, key)
    ensures rounds[0].chosen == {root} && StarvedAt(limit, rounds, seen, root, 0)
  {
    hide Growing, Leads, Checkable, InWorkspace;
    AllCheckable(seen[0], root, 0);
    assert Taken(limit, rounds[0]) && Recorded(seen[0], 0, rounds[0]);
    assert rounds[0].settled == {root};
    assert rounds[1..1] == [];
  }

  lemma RoundsTaken(limit: nat, rounds: seq<Round>)
    requires Rounds(limit, rounds)
    ensures forall i :: 0 <= i < |rounds| ==> Taken(limit, rounds[i])
  {
    hide Taken;
  }

  lemma StarvingParts(limit: nat, rounds: seq<Round>, seen: seq<Tables>, root: nat, key: string -> string, n: nat)
    requires Starving(limit, rounds, seen, root, key)
    ensures (forall name :: key(name) == name) && |rounds| == |seen| > 0
    ensures n < |rounds| ==> Taken(limit, rounds[n]) && Recorded(seen[n], 0, rounds[n]) && rounds[n].now == n
    ensures 0 < n < |rounds| ==>
      rounds[n].stamps == After(rounds[n - 1])
        && Leads(seen[n - 1], seen[n], Additions(root, NamesUsed(limit, n - 1), limit), key)
  {
    hide Growing, Leads, Recorded, Taken, Restamped, Additions, NamesUsed, Rounds;
    assert n < |rounds| ==> Taken(limit, rounds[n]) by { RoundsTaken(limit, rounds); }
  }

  lemma {:induction false} StarvesOn(limit: nat, rounds: seq<Round>, seen: seq<Tables>, root: nat,
                                     key: string -> string, n: nat)
    requires limit > 0 && Starving(limit, rounds, seen, root, key) && n < |rounds|
    ensures StarvedAt(limit, rounds, seen, root, n)
  {
    hide Starving, StarvedAt;
    StarvingParts(limit, rounds, seen, root, key, n);
    if n == 0 {
      FirstTakesRoot(limit, rounds, seen, root, key);
    } else {
      StarvesOn(limit, rounds, seen, root, key, n - 1);
      NextStarves(limit, rounds, seen, root, key, n);
    }
  }

  lemma NextStarves(limit: nat, rounds: seq<Round>, seen: seq<Tables>, root: nat, key: string -> string, n: nat)
    requires Starving(limit, rounds, seen, root, key) && 0 < n < |rounds| == |seen|
    requires StarvedAt(limit, rounds, seen, root, n - 1)
    ensures StarvedAt(limit, rounds, seen, root, n)
  {
    hide Growing, Leads, Crowding, Checkable, InWorkspace, Soonest, Restamped, Starving, NamesUsed, Additions;
    StarvingParts(limit, rounds, seen, root, key, n);
    NamesMore(limit, n);
    var came, count := CameBetween(seen[n - 1], seen[n], root, NamesUsed(limit, n - 1), limit, key);
    assert count == NamesUsed(limit, n);
    AllCheckable(seen[n], root, count);
    assert rounds[1..n + 1] == rounds[1..n] + [rounds[n]];
    CrowdingOn(limit, rounds[1..n], After(rounds[n - 1]), came, root, rounds[n]);
  }

  lemma CameBetween(s: Tables, s': Tables, root: nat, count: nat, limit: nat, key: string -> string)
    returns (came: set<nat>, more: nat)
    requires Leads(s, s', Additions(root, count, limit), key) && Growing(s, root, count)
    requires forall name :: key(name) == name
    ensures more == count + limit && Growing(s', root, more) && |came| == limit && came !! s.folder.Keys
    ensures s'.folder.Keys == s.folder.Keys + came
  {
    hide Growing, Additions;
    AdditionsSize(root, count, limit);
    var states :| Lived(states, Additions(root, count, limit), key) && states[0] == s
      && states[|Additions(root, count, limit)|] == s';
    came, more := LivesGrowing(states, root, count, limit, key);
  }

  /**
   However many checks there are, only the first looks at the root; the others could have taken just what came ahead of
   it.
  */
  lemma StarvedForGood(limit: nat, rounds: seq<Round>, seen: seq<Tables>, root: nat, key: string -> string)
    requires limit > 0 && Starving(limit, rounds, seen, root, key)
    ensures root in rounds[0].chosen
    ensures forall i :: 0 < i < |rounds| ==> Waits(rounds[i], root) && root !in rounds[i].chosen
    ensures var rest := rounds[1..];
      rest != [] ==> |rest| * limit == |Ahead(rest[0].stamps, rest[0].present, root)| + Newcomers(rest, root)
  {
    hide Growing, Leads, Starving, Newcomers, Ahead, Waits, Restamped, Rounds;
    FirstTakesRoot(limit, rounds, seen, root, key);
    assert rounds != [] by { StarvingParts(limit, rounds, seen, root, key, 0); }
    var n := |rounds| - 1;
    StarvesOn(limit, rounds, seen, root, key, n);
    var rest := rounds[1..];
    assert rounds[1..n + 1] == rest;
    forall i | 0 < i < |rounds| ensures Waits(rounds[i], root) && root !in rounds[i].chosen {
      assert rest[i - 1] == rounds[i];
    }
  }

  /**
   A root compared once, and before every later check as many new folders as one looks at: however many checks there
   are, none looks at the root again.
  */
  method Starved(limit: nat, checks: nat)
    returns (rota: Rota, root: nat, ghost rounds: seq<Round>, ghost seen: seq<Tables>)
    requires limit > 0
    ensures |rounds| == |seen| == checks + 1 && Reached(seen[0])
    ensures Starving(limit, rounds, seen, root, rota.db.comparisonKey)
    ensures rota.verified == After(rounds[checks]) && rota.db.Rows() == seen[checks]
    ensures root in rounds[0].chosen
    ensures forall i :: 0 < i <= checks ==> Waits(rounds[i], root) && root !in rounds[i].chosen
    ensures var rest := rounds[1..];
      rest != [] ==> |rest| * limit == |Ahead(rest[0].stamps, rest[0].present, root)| + Newcomers(rest, root)
  {
    hide Sound, Exact, Consistent, Reached, Series, Starving, Growing, Waits, Newcomers, Ahead, Leads, Restamped,
      Additions, Lived;
    var db := new Database(name => name);
    root := AddRoot(db);
    rota := new Rota(db);
    ReachedGood(db.Rows());
    ghost var first := db.Rows();
    RootGrows(first, root);
    var meanwhile := seq(checks + 1, i requires 0 <= i => if i < checks then Additions(root, NamesUsed(limit, i), limit) else []);
    rounds, seen := Rotate(rota, 0, limit, seq(checks + 1, i => i), meanwhile);
    assert |seen| == checks + 1 by { SeriesSize(limit, rounds, seen, meanwhile, db.comparisonKey); }
    LedNowhere(seen[checks], db.Rows(), db.comparisonKey);
    SeriesStarves(limit, rounds, seen, meanwhile, root, checks, db.comparisonKey);
    StarvedForGood(limit, rounds, seen, root, db.comparisonKey);
  }

  lemma RootGrows(s: Tables, root: nat)
    requires Good(s) && s.folder.Keys == {root} && s.folder[root].workspace == 0 && s.file == map[] && s.delta == map[]
    ensures Growing(s, root, 0)
  {
    hide Sound, Consistent;
  }

  lemma SeriesSize(limit: nat, rounds: seq<Round>, seen: seq<Tables>, meanwhile: seq<seq<Transaction>>,
                   key: string -> string)
    requires Series(limit, 0, rounds, seen, meanwhile, key)
    ensures |seen| == |rounds|
  {
  }

  lemma LedNowhere(s: Tables, s': Tables, key: string -> string)
    requires Leads(s, s', [], key)
    ensures s' == s
  {
  }

  lemma SeriesStarves(limit: nat, rounds: seq<Round>, seen: seq<Tables>, meanwhile: seq<seq<Transaction>>, root: nat,
                      checks: nat, key: string -> string)
    requires Series(limit, 0, rounds, seen, meanwhile, key) && |rounds| == |meanwhile| == checks + 1
    requires forall i :: 0 <= i < checks ==> meanwhile[i] == Additions(root, NamesUsed(limit, i), limit)
    requires forall i :: 0 <= i <= checks ==> rounds[i].now == i
    requires (forall name :: key(name) == name) && Growing(seen[0], root, 0) && seen[0].folder.Keys == {root}
    requires rounds[0].stamps == map[]
    ensures Starving(limit, rounds, seen, root, key)
  {
    hide Growing, Leads, Rounds, Recorded, Restamped, Additions;
  }
}
