/** Which vanished folder is which new directory (reconcile.py `_majority`, `_claim`, `identities`). */
module Identity {
  import opened Common
  import opened Totals
  import opened FolderTree
  import opened Rollup
  import opened Steps
  import opened Merging
  import opened Absorbing
  import opened Transferring
  import opened Renaming
  import opened Crossing
  import opened DatabaseModel

  /** How much of one folder's content this run found under another. */
  datatype Move = Move(to: nat, files: nat, folders: nat)

  datatype Verdict = Verdict(to: nat, byFiles: bool, matched: nat, known: nat)

  // ------------------------------------------------------------------ a strict majority

  function SumFiles(moves: seq<Move>): nat {
    if moves == [] then 0 else SumFiles(moves[..|moves| - 1]) + moves[|moves| - 1].files
  }

  function SumFolders(moves: seq<Move>): nat {
    if moves == [] then 0 else SumFolders(moves[..|moves| - 1]) + moves[|moves| - 1].folders
  }

  ghost predicate Distinct(moves: seq<Move>) {
    forall i, j :: 0 <= i < j < |moves| ==> moves[i].to != moves[j].to
  }

  predicate MostFiles(m: Move, known: nat) {
    known > 0 && m.files * 2 > known
  }

  predicate MostFolders(m: Move, known: nat) {
    known > 0 && m.folders * 2 > known
  }

  /** The verdict names the evidence it rests on. */
  ghost predicate Evident(moves: seq<Move>, v: Verdict, knownFiles: nat, knownFolders: nat) {
    exists m :: m in moves && m.to == v.to &&
      if v.byFiles then MostFiles(m, knownFiles) && v.matched == m.files && v.known == knownFiles
      else MostFolders(m, knownFolders) && v.matched == m.folders && v.known == knownFolders
  }

  /** The first move with most of the files, and the first with most of the folders; disagreement is no answer. */
  method Majority(moves: seq<Move>, knownFiles: nat, knownFolders: nat) returns (verdict: Option<Verdict>)
    requires SumFiles(moves) <= knownFiles && SumFolders(moves) <= knownFolders && Distinct(moves)
    ensures verdict == None ==> forall m :: m in moves ==> !Wins(moves, m.to, knownFiles, knownFolders)
    ensures verdict.Some? ==> Wins(moves, verdict.value.to, knownFiles, knownFolders)
    ensures verdict.Some? ==> Evident(moves, verdict.value, knownFiles, knownFolders)
  {
    var byFiles, byFolders: Option<Move> := None, None;
    var n := 0;
    while n < |moves|
      invariant 0 <= n <= |moves|
      invariant byFiles == None ==> forall i :: 0 <= i < n ==> !MostFiles(moves[i], knownFiles)
      invariant byFolders == None ==> forall i :: 0 <= i < n ==> !MostFolders(moves[i], knownFolders)
      invariant byFiles.Some? ==> byFiles.value in moves && MostFiles(byFiles.value, knownFiles)
      invariant byFolders.Some? ==> byFolders.value in moves && MostFolders(byFolders.value, knownFolders)
    {
      if byFiles == None && MostFiles(moves[n], knownFiles) {
        byFiles := Some(moves[n]);
      }
      if byFolders == None && MostFolders(moves[n], knownFolders) {
        byFolders := Some(moves[n]);
      }
      n := n + 1;
    }
    assert byFiles == None ==> forall m :: m in moves ==> !MostFiles(m, knownFiles);
    assert byFolders == None ==> forall m :: m in moves ==> !MostFolders(m, knownFolders);
    if byFiles.Some? {
      forall m | m in moves && MostFiles(m, knownFiles) ensures m == byFiles.value {
        OneMajority(moves, m, byFiles.value, knownFiles, knownFolders);
      }
    }
    if byFolders.Some? {
      forall m | m in moves && MostFolders(m, knownFolders) ensures m == byFolders.value {
        OneMajority(moves, m, byFolders.value, knownFiles, knownFolders);
      }
    }
    if byFiles.Some? && byFolders.Some? && byFiles.value.to != byFolders.value.to {
      return None;
    }
    if byFiles.Some? {
      return Some(Verdict(byFiles.value.to, true, byFiles.value.files, knownFiles));
    }
    if byFolders.Some? {
      return Some(Verdict(byFolders.value.to, false, byFolders.value.folders, knownFolders));
    }
    return None;
  }

  /** A destination wins when it holds a majority of one kind and no other destination holds one of the other kind. */
  ghost predicate Wins(moves: seq<Move>, to: nat, knownFiles: nat, knownFolders: nat) {
    (exists m :: m in moves && m.to == to && (MostFiles(m, knownFiles) || MostFolders(m, knownFolders))) &&
    (forall m :: m in moves && (MostFiles(m, knownFiles) || MostFolders(m, knownFolders)) ==> m.to == to)
  }

  lemma {:induction false} PartOfSum(moves: seq<Move>, i: nat)
    requires i < |moves|
    ensures moves[i].files <= SumFiles(moves) && moves[i].folders <= SumFolders(moves)
  {
    if i < |moves| - 1 {
      PartOfSum(moves[..|moves| - 1], i);
    }
  }

  lemma {:induction false} PairOfSum(moves: seq<Move>, i: nat, j: nat)
    requires i < j < |moves|
    ensures moves[i].files + moves[j].files <= SumFiles(moves)
    ensures moves[i].folders + moves[j].folders <= SumFolders(moves)
  {
    var front := moves[..|moves| - 1];
    if j < |moves| - 1 {
      PairOfSum(front, i, j);
    } else {
      PartOfSum(front, i);
      assert front[i] == moves[i];
    }
  }

  /** What is known includes what moved, so two destinations cannot both hold more than half of it. */
  lemma OneMajority(moves: seq<Move>, a: Move, b: Move, knownFiles: nat, knownFolders: nat)
    requires SumFiles(moves) <= knownFiles && SumFolders(moves) <= knownFolders && Distinct(moves) && a in moves
    requires b in moves
    ensures MostFiles(a, knownFiles) && MostFiles(b, knownFiles) ==> a == b
    ensures MostFolders(a, knownFolders) && MostFolders(b, knownFolders) ==> a == b
  {
    var i :| 0 <= i < |moves| && moves[i] == a;
    var j :| 0 <= j < |moves| && moves[j] == b;
    if i < j {
      PairOfSum(moves, i, j);
    } else if j < i {
      PairOfSum(moves, j, i);
    }
  }

  lemma {:induction false} SumWithout(moves: seq<Move>, i: nat)
    requires i < |moves|
    ensures var rest := moves[..i] + moves[i + 1..];
            SumFiles(moves) == SumFiles(rest) + moves[i].files
              && SumFolders(moves) == SumFolders(rest) + moves[i].folders
  {
    var n := |moves| - 1;
    var rest := moves[..i] + moves[i + 1..];
    if i < n {
      SumWithout(moves[..n], i);
      assert rest[..|rest| - 1] == moves[..n][..i] + moves[..n][i + 1..];
      assert rest[|rest| - 1] == moves[n];
    } else {
      assert rest == moves[..n];
    }
  }

  lemma SomeIn(moves: seq<Move>)
    requires moves != []
    ensures exists m :: m in moves
  {
    assert moves[0] in moves;
  }

  /** The verdict depends on the moves, not on the order they are read in. */
  lemma {:induction false} SameInAnyOrder(moves: seq<Move>, again: seq<Move>)
    requires Distinct(moves) && Distinct(again) && forall m :: m in moves <==> m in again
    ensures SumFiles(moves) == SumFiles(again) && SumFolders(moves) == SumFolders(again)
    ensures forall to: nat, knownFiles: nat, knownFolders: nat ::
      Wins(moves, to, knownFiles, knownFolders) <==> Wins(again, to, knownFiles, knownFolders)
    decreases |moves|
  {
    hide MostFiles, MostFolders;
    if moves == [] {
      if again != [] {
        SomeIn(again);
      }
    } else {
      var n := |moves| - 1;
      assert moves[n] in moves;
      var i :| 0 <= i < |again| && again[i] == moves[n];
      var rest := again[..i] + again[i + 1..];
      SumWithout(again, i);
      forall m ensures m in moves[..n] <==> m in rest {
        if m in moves[..n] {
          var k :| 0 <= k < n && moves[k] == m;
          assert moves[k].to != moves[n].to && m in again;
        }
        if m in rest {
          var k :| 0 <= k < |again| && again[k] == m && k != i;
          assert m in moves && m != moves[n];
        }
      }
      SameInAnyOrder(moves[..n], rest);
    }
  }

  // ------------------------------------------------------------------ who is accounted for

  /** What the sweep leaves: no live file lies in a folder the run does not account for. */
  ghost predicate LiveAccounted(file: map<nat, File>, accounted: set<nat>) {
    forall i :: i in file && file[i].live ==> file[i].folder in accounted
  }

  /** Nothing alive lies anywhere below a folder the run does not account for. */
  lemma NothingLiveBelow(s: Tables, accounted: set<nat>, x: nat)
    requires Linked(s.folder) && UpClosed(s.folder, accounted) && LiveAccounted(s.file, accounted) && x !in accounted
    ensures !LiveBelow(s, x)
  {
    if LiveBelow(s, x) {
      var i :| i in s.file && s.file[i].live && Above(s.folder, x, s.file[i].folder);
      AccountedUp(s.folder, accounted, x, s.file[i].folder);
    }
  }

  /** A merged survivor hangs under the survivor, or the heir, of its twin's parent. */
  lemma SurvivorsParent(t: Tree, source: nat, destination: nat, m: Handover, g: nat)
    requires Linked(t) && Apart(t, source, destination) && Within(t, source, destination, m)
    requires Paired(t, source, destination, m) && g in m
    ensures m[g] in t && t[m[g]].parent.Some?
    ensures t[m[g]].parent.value in m.Values + {source} && t[m[g]].parent.value !in m[destination := source]
  {
    HeirParent(t, source, destination, m, g);
    ValuesWithin(t, source, destination, m);
    ApartDiffer(t, source, destination);
    if h :| h in m && m[h] == t[m[g]].parent.value {
      assert m[h] !in m;
    }
  }

  /** A transfer accounts for the folders it stamps, and everyone stays accounted for. */
  lemma StillAccounted(s0: Tables, s: Tables, source: nat, destination: nat, m: Handover, accounted: set<nat>)
    requires Linked(s0.folder) && Apart(s0.folder, source, destination) && Transferred(s0, s, source, destination, m)
    requires UpClosed(s0.folder, accounted) && LiveAccounted(s0.file, accounted) && destination in accounted
    requires s0.folder[destination].parent.Some? && s0.folder[source].parent.Some?
    ensures UpClosed(s.folder, accounted + {source} + m.Values)
    ensures LiveAccounted(s.file, accounted + {source} + m.Values)
    ensures forall f :: f in s.folder ==> f in s0.folder
  {
    hide TotalsFollow, SpellingsFollow;
    var all, more := m[destination := source], accounted + {source} + m.Values;
    forall g | g in all ensures all[g] in more {
      assert g in m ==> m[g] in m.Values;
    }
    forall f {:trigger s.folder[f].parent} | f in s.folder && f in more && s.folder[f].parent.Some?
      ensures s.folder[f].parent.value in more
    {
      if f != source && f !in accounted {
        var g :| g in m && m[g] == f;
        SurvivorsParent(s0.folder, source, destination, m, g);
      }
    }
  }

  // ------------------------------------------------------------------ the pass

  /** The order of the pass: deeper is later in it, then the larger id. */
  predicate NotDeeper(t: Tree, a: nat, b: nat) {
    a in t && b in t && (t[a].depth < t[b].depth || (t[a].depth == t[b].depth && a <= b))
  }

  datatype Evidence = Evidence(files: nat, folders: nat)

  /** The evidence names existing folders of one workspace, and lands where the run has been. */
  ghost predicate PairsIn(t: Tree, accounted: set<nat>, relocation: map<(nat, nat), Evidence>) {
    forall a: nat, b: nat :: (a, b) in relocation ==>
      a in t && b in t && b in accounted && a != b && t[a].workspace == t[b].workspace
  }

  ghost predicate YoungHang(t: Tree, young: set<nat>) {
    forall f {:trigger t[f].parent} :: f in young && f in t ==> t[f].parent.Some?
  }

  lemma SoundIsLinked(s: Tables)
    requires Sound(s)
    ensures Linked(s.folder)
  {
  }

  /** What the sweep hands the identity pass, and every transfer keeps. */
  ghost predicate Prepared(s: Tables, closure: Closure, accounted: set<nat>, young: set<nat>,
                           relocation: map<(nat, nat), Evidence>) {
    Sound(s) && Exact(closure, s.folder) && UpClosed(s.folder, accounted) && LiveAccounted(s.file, accounted) &&
    YoungHang(s.folder, young) && PairsIn(s.folder, accounted, relocation)
  }

  // ------------------------------------------------------------------ what the pass looks at

  /**
   Everything a claim is read from. `known` are the files registered before the run began that are live, or that its
   sweep trashed.
  */
  datatype View = View(
    folder: Tree, file: map<nat, File>, accounted: set<nat>, young: set<nat>, known: set<nat>, relocation: map<(nat,
      nat), Evidence>)

  ghost predicate MovesIn(relocation: map<(nat, nat), Evidence>, source: nat, moves: seq<Move>) {
    Distinct(moves)
    && (forall m :: m in moves ==> (source, m.to) in relocation && m.files == relocation[(source, m.to)].files && m.folders == relocation[(source, m.to)].folders)
    && forall b: nat :: (source, b) in relocation ==> exists m :: m in moves && m.to == b
  }

  /** Files the folder held when the run began and still does; child folders likewise. */
  function FilesStayed(file: map<nat, File>, known: set<nat>, source: nat): nat {
    |set i | i in file && i in known && file[i].folder == source|
  }

  function FoldersStayed(t: Tree, young: set<nat>, source: nat): nat {
    |set f | f in t && t[f].parent == Some(source) && f !in young|
  }

  /** A vanished folder whose content vouches for a directory that appeared, and is not inside it. */
  ghost predicate ClaimedIn(v: View, source: nat, destination: nat, moves: seq<Move>) {
    source in v.folder && v.folder[source].parent.Some? && source !in v.accounted && source !in v.young
    && destination in v.folder && destination in v.young && !Above(v.folder, source, destination)
    && Wins(moves, destination, FilesStayed(v.file, v.known, source) + SumFiles(moves), FoldersStayed(v.folder, v.young, source) + SumFolders(moves))
  }

  ghost predicate ClaimsIn(v: View, source: nat, destination: nat) {
    exists moves :: MovesIn(v.relocation, source, moves) && ClaimedIn(v, source, destination, moves)
  }

  ghost predicate DisputedIn(v: View, destination: nat) {
    exists a: nat, b: nat :: a != b && ClaimsIn(v, a, destination) && ClaimsIn(v, b, destination)
  }

  // ------------------------------------------------------------------ what a claim rests on

  /** Trashing files, the ones the sweep trashed among them, changes no claim: they were there when the run began. */
  lemma TrashedStillCount(v: View, swept: map<nat, File>)
    requires swept.Keys == v.file.Keys && forall i :: i in swept ==> swept[i] == v.file[i].(live := swept[i].live)
    ensures forall s: nat, d: nat :: ClaimsIn(v, s, d) <==> ClaimsIn(v.(file := swept), s, d)
  {
    hide MovesIn, Wins, Above;
    var v' := v.(file := swept);
    forall s: nat ensures FilesStayed(swept, v.known, s) == FilesStayed(v.file, v.known, s) {
      assert (set i | i in swept && i in v.known && swept[i].folder == s)
        == (set i | i in v.file && i in v.known && v.file[i].folder == s);
    }
    assert forall s: nat, d: nat, moves :: ClaimedIn(v, s, d, moves) <==> ClaimedIn(v', s, d, moves);
  }

  /** Where content of the folder was found. */
  function Destinations(relocation: map<(nat, nat), Evidence>, source: nat): set<nat> {
    set pair: (nat, nat) | pair in relocation && pair.0 == source :: pair.1
  }

  /** How much of it, destination by destination, but for one of them. */
  ghost function FilesElsewhere(relocation: map<(nat, nat), Evidence>, source: nat, d: nat): map<nat, int> {
    map b | b in Destinations(relocation, source) && b != d :: relocation[(source, b)].files
  }

  ghost function FoldersElsewhere(relocation: map<(nat, nat), Evidence>, source: nat, d: nat): map<nat, int> {
    map b | b in Destinations(relocation, source) && b != d :: relocation[(source, b)].folders
  }

  /** More of the folder's files, or of its child folders, are in `d` than stayed and than are anywhere else, together. */
  ghost predicate MostIn(v: View, source: nat, d: nat, stayed: set<nat>, children: set<nat>) {
    (source, d) in v.relocation &&
    (v.relocation[(source, d)].files > |stayed| + Total(FilesElsewhere(v.relocation, source, d))
    || v.relocation[(source, d)].folders > |children| + Total(FoldersElsewhere(v.relocation, source, d)))
  }

  /**
   A claim, by the rows: most of one kind of the folder's content is in the directory, and most of the other kind nowhere
   else. What stayed are the known files still filed at the folder, live or trashed, and the child folders that are not
   new.
  */
  lemma ClaimExactly(v: View, source: nat, d: nat, stayed: set<nat>, children: set<nat>)
    requires forall i :: i in stayed <==> i in v.file && i in v.known && v.file[i].folder == source
    requires forall f :: f in children <==> f in v.folder && v.folder[f].parent == Some(source) && f !in v.young
    ensures ClaimsIn(v, source, d) <==>
      Renamable(v, source, d) && MostIn(v, source, d, stayed, children) &&
      forall b: nat :: MostIn(v, source, b, stayed, children) ==> b == d
  {
    hide ClaimedIn, Renamable, MostIn, MovesIn, Total;
    forall moves | MovesIn(v.relocation, source, moves)
      ensures ClaimedIn(v, source, d, moves) <==>
        Renamable(v, source, d) && MostIn(v, source, d, stayed, children) &&
        forall b: nat :: MostIn(v, source, b, stayed, children) ==> b == d
    {
      ClaimWith(v, source, d, moves, stayed, children);
    }
    var moves := SomeMoves(v.relocation, source);
  }

  /** A folder that is there, is no root and is unaccounted for; a directory that appeared, and not below it. */
  ghost predicate Renamable(v: View, source: nat, d: nat) {
    source in v.folder && v.folder[source].parent.Some? && source !in v.accounted && source !in v.young &&
    d in v.folder && d in v.young && !Above(v.folder, source, d)
  }

  lemma ClaimWith(v: View, source: nat, d: nat, moves: seq<Move>, stayed: set<nat>, children: set<nat>)
    requires forall i :: i in stayed <==> i in v.file && i in v.known && v.file[i].folder == source
    requires forall f :: f in children <==> f in v.folder && v.folder[f].parent == Some(source) && f !in v.young
    requires MovesIn(v.relocation, source, moves)
    ensures ClaimedIn(v, source, d, moves) <==>
      Renamable(v, source, d) && MostIn(v, source, d, stayed, children) &&
      forall b: nat :: MostIn(v, source, b, stayed, children) ==> b == d
  {
    hide Above, MostIn, Wins, MovesIn, Total;
    assert stayed == set i | i in v.file && i in v.known && v.file[i].folder == source;
    assert children == set f | f in v.folder && v.folder[f].parent == Some(source) && f !in v.young;
    WinsIsMost(v, source, d, stayed, children, moves);
  }

  lemma SomeMoves(relocation: map<(nat, nat), Evidence>, source: nat) returns (moves: seq<Move>)
    ensures MovesIn(relocation, source, moves)
  {
    moves := MovesTo(relocation, source, Destinations(relocation, source));
    forall b: nat | (source, b) in relocation ensures exists m :: m in moves && m.to == b {
      assert b in Destinations(relocation, source) by { assert (source, b).1 == b; }
    }
  }

  lemma {:induction false} MovesTo(relocation: map<(nat, nat), Evidence>, source: nat, some: set<nat>) returns (moves: seq<Move>)
    requires forall b :: b in some ==> (source, b) in relocation
    ensures Distinct(moves) && (forall m :: m in moves ==> m.to in some)
    ensures forall m :: m in moves ==>
      m.files == relocation[(source, m.to)].files && m.folders == relocation[(source, m.to)].folders
    ensures forall b :: b in some ==> exists m :: m in moves && m.to == b
    decreases some
  {
    moves := [];
    if some != {} {
      var b :| b in some;
      var most := MovesTo(relocation, source, some - {b});
      var last := Move(b, relocation[(source, b)].files, relocation[(source, b)].folders);
      moves := most + [last];
      forall x | x in some ensures exists m :: m in moves && m.to == x {
        if x == b {
          assert last in moves;
        } else {
          assert x in some - {b};
          var m :| m in most && m.to == x;
          assert m in moves;
        }
      }
    }
  }

  lemma WinsIsMost(v: View, source: nat, d: nat, stayed: set<nat>, children: set<nat>, moves: seq<Move>)
    requires MovesIn(v.relocation, source, moves)
    ensures Wins(moves, d, |stayed| + SumFiles(moves), |children| + SumFolders(moves)) <==>
      MostIn(v, source, d, stayed, children) && forall b: nat :: MostIn(v, source, b, stayed, children) ==> b == d
  {
    hide Total, SumFiles, SumFolders, FilesElsewhere, FoldersElsewhere;
    var files, folders := |stayed| + SumFiles(moves), |children| + SumFolders(moves);
    forall m | m in moves
      ensures MostIn(v, source, m.to, stayed, children) <==> MostFiles(m, files) || MostFolders(m, folders)
    {
      SumsSplit(v.relocation, source, moves, m);
    }
    forall b: nat | MostIn(v, source, b, stayed, children)
      ensures exists m :: m in moves && m.to == b && (MostFiles(m, files) || MostFolders(m, folders))
    {
      var m :| m in moves && m.to == b;
    }
  }

  /** What was found is what was found there and what was found elsewhere. */
  lemma SumsSplit(relocation: map<(nat, nat), Evidence>, source: nat, moves: seq<Move>, m: Move)
    requires MovesIn(relocation, source, moves) && m in moves
    ensures SumFiles(moves) == m.files + Total(FilesElsewhere(relocation, source, m.to))
    ensures SumFolders(moves) == m.folders + Total(FoldersElsewhere(relocation, source, m.to))
    ensures Total(FilesElsewhere(relocation, source, m.to)) >= 0 && Total(FoldersElsewhere(relocation, source, m.to)) >= 0
  {
    hide Total, SumFiles, SumFolders;
    var i :| 0 <= i < |moves| && moves[i] == m;
    var rest := moves[..i] + moves[i + 1..];
    SumWithout(moves, i);
    forall b ensures b in Destinations(relocation, source) && b != m.to <==> exists x :: x in rest && x.to == b {
      RestOf(relocation, source, moves, i, b);
    }
    forall x | x in rest ensures x in moves && x.to != m.to {
      InRest(moves, i, x);
    }
    assert Distinct(rest);
    SumIsTotal(rest, FilesElsewhere(relocation, source, m.to), FoldersElsewhere(relocation, source, m.to));
  }

  lemma InRest(moves: seq<Move>, i: nat, x: Move)
    requires i < |moves| && Distinct(moves) && x in moves[..i] + moves[i + 1..]
    ensures x in moves && x.to != moves[i].to
  {
    var rest := moves[..i] + moves[i + 1..];
    var k :| 0 <= k < |rest| && rest[k] == x;
    assert rest[k] == if k < i then moves[k] else moves[k + 1];
  }

  lemma RestOf(relocation: map<(nat, nat), Evidence>, source: nat, moves: seq<Move>, i: nat, b: nat)
    requires MovesIn(relocation, source, moves) && i < |moves|
    ensures b in Destinations(relocation, source) && b != moves[i].to <==>
      exists x :: x in moves[..i] + moves[i + 1..] && x.to == b
  {
    var rest := moves[..i] + moves[i + 1..];
    if b in Destinations(relocation, source) && b != moves[i].to {
      var x :| x in moves && x.to == b;
      var k :| 0 <= k < |moves| && moves[k] == x;
      assert k < i ==> rest[k] == x;
      assert k > i ==> rest[k - 1] == x;
    }
    if x :| x in rest && x.to == b {
      InRest(moves, i, x);
      assert (source, b).1 == b;
    }
  }

  lemma FrontOf(moves: seq<Move>, files: map<nat, int>)
    requires Distinct(moves) && moves != [] && forall b :: b in files <==> exists m :: m in moves && m.to == b
    ensures var front, last := moves[..|moves| - 1], moves[|moves| - 1];
      Distinct(front) && (forall m :: m in front ==> m in moves && m.to != last.to) &&
      forall b :: b in files - {last.to} <==> exists m :: m in front && m.to == b
  {
    var front, last := moves[..|moves| - 1], moves[|moves| - 1];
    forall m | m in front ensures m in moves && m.to != last.to {
      var k :| 0 <= k < |front| && front[k] == m;
      assert moves[k] == m;
    }
    forall b | b in files && b != last.to ensures exists m :: m in front && m.to == b {
      var m :| m in moves && m.to == b;
      assert m in front;
    }
  }

  lemma {:induction false} SumIsTotal(moves: seq<Move>, files: map<nat, int>, folders: map<nat, int>)
    requires Distinct(moves) && files.Keys == folders.Keys && forall b :: b in files <==>
      exists m :: m in moves && m.to == b
    requires forall m :: m in moves ==> m.to in files && files[m.to] == m.files && folders[m.to] == m.folders
    ensures SumFiles(moves) == Total(files) && SumFolders(moves) == Total(folders)
  {
    if moves == [] {
      assert files == map[] && folders == map[];
    } else {
      var front, last := moves[..|moves| - 1], moves[|moves| - 1];
      Pick(files, last.to);
      Pick(folders, last.to);
      FrontOf(moves, files);
      SumIsTotal(front, files - {last.to}, folders - {last.to});
    }
  }

  // ------------------------------------------------------------------ the course of a pass

  /** One turn: what was seen, and the claim considered. */
  datatype Decision = Decision(view: View, source: nat, destination: nat)

  ghost predicate Considered(turns: seq<Decision>, i: nat, source: nat) {
    exists j :: 0 <= j < i && j < |turns| && turns[j].source == source
  }

  /** Claimed by two from the start, or considered as a destination before. */
  ghost predicate Spoken(first: View, turns: seq<Decision>, i: nat, destination: nat) {
    DisputedIn(first, destination) || exists j :: 0 <= j < i && j < |turns| && turns[j].destination == destination
  }

  /** The turn takes the deepest claim of a source not considered before. */
  ghost predicate Deliberate(turns: seq<Decision>, i: nat)
    requires i < |turns|
  {
    var d := turns[i];
    ClaimsIn(d.view, d.source, d.destination) && !Considered(turns, i, d.source) &&
    forall s: nat, e: nat :: ClaimsIn(d.view, s, e) && !Considered(turns, i, s) ==>
      NotDeeper(d.view.folder, s, d.source)
  }

  /** Inner renames first: no folder with a claim of its own, and not considered yet, lies below the one considered. */
  lemma InnerFirst(turns: seq<Decision>, i: nat, s: nat, e: nat)
    requires i < |turns| && Deliberate(turns, i) && Linked(turns[i].view.folder)
    requires ClaimsIn(turns[i].view, s, e) && !Considered(turns, i, s)
    ensures !StrictlyAbove(turns[i].view.folder, turns[i].source, s)
    ensures var t, source := turns[i].view.folder, turns[i].source;
      s in t && source in t && (t[s].depth < t[source].depth || (t[s].depth == t[source].depth && s <= source))
  {
    hide ClaimsIn, Linked, Above, Considered;
    var t := turns[i].view.folder;
    if StrictlyAbove(t, turns[i].source, s) {
      Bounds(t, turns[i].source, s);
    }
  }

  ghost predicate Passed(v: View, v': View, rows: Tables, rows': Tables, source: nat, destination: nat, m: Handover) {
    rows.folder == v.folder && rows.file == v.file && rows'.folder == v'.folder && rows'.file == v'.file
    && Apart(v.folder, source, destination) && Transferred(rows, rows', source, destination, m)
    && Linked(v'.folder) && UpClosed(v'.folder, v'.accounted)
    && v'.accounted == v.accounted + {source} + m.Values && v'.young == v.young && v'.known == v.known
    && v'.relocation == Evidenced(v.relocation, v'.folder, v.folder[source].parent, v.folder[destination].parent)
  }

  /** One transfer, by what it leaves to be seen. */
  ghost predicate CarriedOver(v: View, v': View, source: nat, destination: nat) {
    exists rows, rows', m :: Passed(v, v', rows, rows', source, destination, m)
  }

  /** A claim on a destination already spoken for changes nothing; any other is carried out. */
  ghost predicate Leads(first: View, turns: seq<Decision>, i: nat, next: View)
    requires i < |turns|
  {
    var d := turns[i];
    if Spoken(first, turns, i, d.destination) then next == d.view
      else CarriedOver(d.view, next, d.source, d.destination)
  }

  ghost predicate LeadsOn(first: View, turns: seq<Decision>, i: nat) {
    i + 1 < |turns| && Leads(first, turns, i, turns[i + 1].view)
  }

  /** Turn by turn from what was seen first to what is seen now. */
  ghost predicate Course(first: View, turns: seq<Decision>, now: View) {
    (if turns == [] then now == first else turns[0].view == first && Leads(first, turns, |turns| - 1, now)) &&
    (forall i :: 0 <= i < |turns| ==> Deliberate(turns, i)) &&
    forall i :: 0 <= i < |turns| - 1 ==> LeadsOn(first, turns, i)
  }

  /** The last turn asked for a transfer into a directory that contains its source. */
  ghost predicate Refused(first: View, turns: seq<Decision>) {
    turns != [] && var n := |turns| - 1;
    Course(first, turns[..n], turns[n].view) && Deliberate(turns, n) && !Spoken(first, turns, n, turns[n].destination)
    && Above(turns[n].view.folder, turns[n].destination, turns[n].source)
  }

  /** The transfers asked for: the claims considered whose destination was not spoken for. */
  ghost function Attempted(first: View, turns: seq<Decision>): seq<(nat, nat)> {
    if turns == [] then []
    else
      var n := |turns| - 1;
      Attempted(first, turns[..n]) + if Spoken(first, turns, n, turns[n].destination) then []
        else [(turns[n].source, turns[n].destination)]
  }

  lemma AttemptedOn(first: View, turns: seq<Decision>, d: Decision)
    ensures Attempted(first, turns + [d]) ==
      Attempted(first, turns) + if Spoken(first, turns + [d], |turns|, d.destination) then []
        else [(d.source, d.destination)]
  {
    hide Spoken;
    assert (turns + [d])[..|turns|] == turns;
  }

  lemma SameBefore(turns: seq<Decision>, more: seq<Decision>, first: View)
    requires turns <= more
    ensures forall i: nat, s: nat :: i <= |turns| ==> (Considered(turns, i, s) <==> Considered(more, i, s))
    ensures forall i: nat, d: nat :: i <= |turns| ==> (Spoken(first, turns, i, d) <==> Spoken(first, more, i, d))
  {
    hide ClaimsIn, DisputedIn;
  }

  /** One more turn on the course. */
  lemma CourseOn(first: View, turns: seq<Decision>, d: Decision, next: View)
    requires Course(first, turns, d.view) && Deliberate(turns + [d], |turns|)
    requires Leads(first, turns + [d], |turns|, next)
    ensures Course(first, turns + [d], next)
  {
    hide ClaimsIn, DisputedIn, CarriedOver, Considered, Spoken;
    var more := turns + [d];
    SameBefore(turns, more, first);
    forall i | 0 <= i < |turns| ensures Deliberate(more, i) && more[i] == turns[i] {
      assert Deliberate(turns, i);
    }
    forall i | 0 <= i < |more| - 1 ensures LeadsOn(first, more, i) {
      if i < |turns| - 1 {
        assert LeadsOn(first, turns, i);
      } else {
        assert Leads(first, turns, |turns| - 1, d.view);
      }
    }
  }

  class Pass {
    const db: Database
    /** Evidence per (from, to), counted by the traversal and by transfers. */
    var relocation: map<(nat, nat), Evidence>
    /** Folders seen by this run, under a directory it could not read, or outside its root. */
    var accounted: set<nat>
    /** Folders registered since the run began. */
    const young: set<nat>
    /** Files registered before the run began that are live, or that its sweep trashed. */
    const known: set<nat>

    ghost predicate Ready()
      reads this, db
    {
      Prepared(db.Rows(), db.closure, accounted, young, relocation)
    }

    constructor (db: Database, relocation: map<(nat, nat), Evidence>, accounted: set<nat>, young: set<nat>,
                 known: set<nat>)
      ensures this.db == db && this.relocation == relocation && this.accounted == accounted && this.young == young
      ensures this.known == known
    {
      this.db, this.relocation, this.accounted, this.young, this.known := db, relocation, accounted, young, known;
    }

    ghost function Sees(): View
      reads this, db
    {
      View(db.folder, db.file, accounted, young, known, relocation)
    }

    ghost predicate MovesAre(source: nat, moves: seq<Move>)
      reads this
    {
      MovesIn(relocation, source, moves)
    }

    method MovesOf(source: nat) returns (moves: seq<Move>)
      ensures MovesAre(source, moves)
    {
      moves := [];
      var left := set pair: (nat, nat) | pair in relocation && pair.0 == source :: pair.1;
      while left != {}
        invariant forall b :: b in left ==> (source, b) in relocation
        invariant Distinct(moves) && forall m :: m in moves ==> (source, m.to) in relocation && m.to !in left
        invariant forall m :: m in moves ==>
          m.files == relocation[(source, m.to)].files && m.folders == relocation[(source, m.to)].folders
        invariant forall b: nat :: (source, b) in relocation && b !in left ==> exists m :: m in moves && m.to == b
        decreases left
      {
        var b :| b in left;
        left := left - {b};
        var move := Move(b, relocation[(source, b)].files, relocation[(source, b)].folders);
        ghost var before := moves;
        moves := moves + [move];
        assert move in moves && forall m :: m in before ==> m in moves;
      }
    }

    lemma MovesDistinct(source: nat, moves: seq<Move>)
      requires MovesAre(source, moves)
      ensures Distinct(moves)
    {
    }

    function StayedFiles(source: nat): nat
      reads this, db
    {
      FilesStayed(db.file, known, source)
    }

    function StayedFolders(source: nat): nat
      reads this, db
    {
      FoldersStayed(db.folder, young, source)
    }

    ghost predicate Claimed(source: nat, destination: nat, moves: seq<Move>)
      reads this, db
    {
      ClaimedIn(Sees(), source, destination, moves)
    }

    /** A claim by the evidence, in whatever order it is read. */
    ghost predicate Claims(source: nat, destination: nat)
      reads this, db
    {
      exists moves :: MovesAre(source, moves) && Claimed(source, destination, moves)
    }

    lemma ClaimsAre()
      ensures forall s: nat, d: nat :: Claims(s, d) <==> ClaimsIn(Sees(), s, d)
    {
      hide ClaimedIn, MovesIn;
      forall s: nat, d: nat ensures Claims(s, d) <==> ClaimsIn(Sees(), s, d) {
        if Claims(s, d) {
          var moves :| MovesAre(s, moves) && Claimed(s, d, moves);
          assert MovesIn(relocation, s, moves) && ClaimedIn(Sees(), s, d, moves);
        }
        if ClaimsIn(Sees(), s, d) {
          var moves :| MovesIn(relocation, s, moves) && ClaimedIn(Sees(), s, d, moves);
          assert MovesAre(s, moves) && Claimed(s, d, moves);
        }
      }
    }

    lemma ClaimsAnyOrder(source: nat, moves: seq<Move>)
      requires MovesAre(source, moves)
      ensures forall d: nat :: Claims(source, d) <==> Claimed(source, d, moves)
    {
      hide Claimed, Wins, SumFiles, SumFolders, Above, MovesAre;
      forall d: nat ensures Claims(source, d) <==> Claimed(source, d, moves) {
        if Claims(source, d) {
          var again :| MovesAre(source, again) && Claimed(source, d, again);
          forall m ensures m in moves <==> m in again {
            if m in moves {
              SameEvidence(source, moves, again, m);
            }
            if m in again {
              SameEvidence(source, again, moves, m);
            }
          }
          MovesDistinct(source, moves);
          MovesDistinct(source, again);
          SameInAnyOrder(moves, again);
          SameClaim(source, d, moves, again);
        }
      }
    }

    lemma SameClaim(source: nat, destination: nat, moves: seq<Move>, again: seq<Move>)
      requires SumFiles(moves) == SumFiles(again) && SumFolders(moves) == SumFolders(again)
      requires forall to: nat, knownFiles: nat, knownFolders: nat ::
        Wins(moves, to, knownFiles, knownFolders) <==> Wins(again, to, knownFiles, knownFolders)
      ensures Claimed(source, destination, moves) <==> Claimed(source, destination, again)
    {
      hide Wins, SumFiles, SumFolders, Above;
    }

    lemma SameEvidence(source: nat, moves: seq<Move>, again: seq<Move>, m: Move)
      requires MovesAre(source, moves) && MovesAre(source, again) && m in moves
      ensures m in again
    {
      var n :| n in again && n.to == m.to;
    }

    lemma VanishedFirst(source: nat)
      ensures source !in db.folder || db.folder[source].parent == None || source in accounted || source in young
        ==> forall d: nat :: !Claims(source, d)
    {
    }

    /** The destination, or none: every refusal is a rule. */
    method Claim(source: nat) returns (destination: Option<nat>)
      requires Ready()
      ensures forall d: nat :: destination == Some(d) <==> Claims(source, d)
    {
      VanishedFirst(source);
      if source !in db.folder || db.folder[source].parent == None || source in accounted || source in young {
        return None;
      }
      var moves;
      destination, moves := Weigh(source);
      ClaimsAnyOrder(source, moves);
    }

    method Weigh(source: nat) returns (destination: Option<nat>, moves: seq<Move>)
      requires Ready() && source in db.folder && db.folder[source].parent.Some? && source !in accounted
      requires source !in young
      ensures MovesAre(source, moves) && forall d: nat :: destination == Some(d) <==> Claimed(source, d, moves)
    {
      hide UpClosed, LiveAccounted, Above, Wins, Evident, Sound, PairsIn, MovesAre, FilesStayed, FoldersStayed,
        SumFiles, SumFolders;
      moves := MovesOf(source);
      MovesDistinct(source, moves);
      var knownFiles, knownFolders := StayedFiles(source) + SumFiles(moves), StayedFolders(source) + SumFolders(moves);
      var verdict := Majority(moves, knownFiles, knownFolders);
      OneWinner(moves, knownFiles, knownFolders);
      NoneWin(moves, knownFiles, knownFolders);
      if verdict == None || verdict.value.to !in db.folder || verdict.value.to !in young || (source, verdict.value.to) in db.closure {
        return None, moves;
      }
      return Some(verdict.value.to), moves;
    }

    /** Among the sources not decided yet, the deepest with a claim; ties go to the larger id. */
    method Deepest(handled: set<nat>) returns (chosen: Option<(nat, nat)>)
      requires Ready()
      ensures chosen.Some? ==>
        chosen.value.0 !in handled && Claims(chosen.value.0, chosen.value.1) && chosen.value.0 in db.folder
      ensures chosen.Some? ==>
        forall s: nat, d: nat :: s !in handled && Claims(s, d) ==> NotDeeper(db.folder, s, chosen.value.0)
      ensures chosen == None ==> forall s: nat, d: nat :: s !in handled ==> !Claims(s, d)
    {
      hide Ready, Claims, PairsIn;
      chosen := None;
      ghost var sources := set pair: (nat, nat) | pair in relocation :: pair.0;
      var left := (set pair: (nat, nat) | pair in relocation :: pair.0) - handled;
      while left != {}
        invariant left <= sources - handled
        invariant chosen.Some? ==>
          chosen.value.0 !in handled && chosen.value.0 in db.folder && Claims(chosen.value.0, chosen.value.1)
        invariant forall s: nat, d: nat :: s in sources - handled - left && Claims(s, d) ==>
          chosen.Some? && NotDeeper(db.folder, s, chosen.value.0)
        decreases left
      {
        var source :| source in left;
        left := left - {source};
        var destination := Claim(source);
        if destination.Some? {
          ClaimIs(source, destination.value);
          if chosen == None || NotDeeper(db.folder, chosen.value.0, source) {
            chosen := Some((source, destination.value));
          }
        }
      }
      forall s: nat, d: nat | Claims(s, d) ensures s in sources {
        ClaimIs(s, d);
        assert (s, d) in relocation;
      }
    }

    /** A claim the pass may act on. */
    ghost predicate Chosen(source: nat, destination: nat)
      reads this, db
    {
      source in db.folder && destination in db.folder && db.folder[source].parent.Some? && source !in accounted
      && destination in young && (source, destination) in relocation && !Above(db.folder, source, destination)
    }

    lemma ClaimIs(source: nat, destination: nat)
      requires Claims(source, destination)
      ensures Chosen(source, destination)
    {
      var moves: seq<Move> :| MovesAre(source, moves) && Claimed(source, destination, moves);
      var m: Move :| m in moves && m.to == destination;
    }

    ghost predicate Disputed(destination: nat)
      reads this, db
    {
      exists a: nat, b: nat :: a != b && Claims(a, destination) && Claims(b, destination)
    }

    lemma Dispute(a: nat, b: nat, destination: nat)
      requires a != b && Claims(a, destination) && Claims(b, destination)
      ensures Disputed(destination)
    {
    }

    /** Destinations that two vanished folders claim from the start: a merge, which gives neither the identity. */
    method Contested() returns (contested: set<nat>)
      requires Ready()
      ensures forall d: nat :: d in contested <==> Disputed(d)
    {
      hide Ready, Claims, PairsIn, Disputed;
      contested := {};
      var claimed: map<nat, nat> := map[];
      ghost var sources := set pair: (nat, nat) | pair in relocation :: pair.0;
      var left := set pair: (nat, nat) | pair in relocation :: pair.0;
      while left != {}
        invariant left <= sources
        invariant forall d :: d in claimed ==> claimed[d] in sources - left && Claims(claimed[d], d)
        invariant forall d: nat, s: nat :: s in sources - left && Claims(s, d) ==> d in claimed
        invariant forall d :: d in contested ==> Disputed(d)
        invariant forall d: nat, s: nat :: s in sources - left && Claims(s, d) && d !in contested ==> claimed[d] == s
        decreases left
      {
        var source :| source in left;
        left := left - {source};
        var destination := Claim(source);
        if destination.Some? {
          if destination.value in claimed {
            Dispute(claimed[destination.value], source, destination.value);
            contested := contested + {destination.value};
          }
          claimed := claimed[destination.value := source];
        }
      }
      forall s: nat, d: nat | Claims(s, d) ensures s in sources {
        ClaimIs(s, d);
        assert (s, d) in relocation;
      }
      forall d: nat | Disputed(d) ensures d in contested {
        TwoClaimants(d);
      }
    }

    lemma TwoClaimants(destination: nat)
      requires Disputed(destination)
      ensures exists a: nat, b: nat :: a != b && Claims(a, destination) && Claims(b, destination)
    {
    }

    /** All but so many folders were considered, and none of the others has a claim. */
    ghost predicate Decided(count: nat)
      reads this, db
    {
      exists handled: set<nat> :: |handled| == count && forall s: nat, d: nat :: s !in handled ==> !Claims(s, d)
    }

    lemma AllDecided(handled: set<nat>)
      requires forall s: nat, d: nat :: s !in handled ==> !Claims(s, d)
      ensures Decided(|handled|)
    {
    }

    /** The tables, the evidence and the stamps: everything the pass writes. */
    ghost predicate Untouched(rows: Tables, closure: Closure, relocation: map<(nat, nat), Evidence>,
                              accounted: set<nat>)
      reads this, db
    {
      db.Rows() == rows && db.closure == closure && this.relocation == relocation && this.accounted == accounted
    }

    /**
     Transfer, deepest first, until no undecided source has a claim. It ends: every turn decides one of the folders the
     pass began with. And it keeps the rollup exact, because what vanished holds no live file by then. `log` holds the
     transfers attempted. One whose destination contains its source is refused by the closure, and with it the whole
     pass is undone. In terms of the run-start tree that is the first attempt that crosses an earlier one, and with
     straight evidence there is none.
    */
    method Identities()
      returns (transferred: nat, ambiguous: nat, undone: bool, ghost log: seq<(nat, nat)>, ghost turns: seq<Decision>)
      requires Ready()
      modifies this, db
      ensures !undone ==>
        Course(old(Sees()), turns, Sees()) && forall s: nat, d: nat :: Claims(s, d) ==> Considered(turns, |turns|, s)
      ensures undone ==> Refused(old(Sees()), turns)
      ensures log == Attempted(old(Sees()), turns)
      ensures Ready() && (Consistent(old(db.Rows())) ==> Consistent(db.Rows()))
      ensures forall i, j :: 0 <= i < j < |log| ==> log[i].0 != log[j].0 && log[i].1 != log[j].1
      ensures forall f :: f in db.folder ==> f in old(db.folder)
      ensures !undone ==> transferred == |log| && Decided(transferred + ambiguous)
      ensures undone ==> |log| > 0 && Untouched(old(db.Rows()), old(db.closure), old(relocation), old(accounted))
      ensures YoungSettled(old(db.folder), old(accounted), young) ==>
        forall i :: 0 <= i < |log| ==> (CrossesAt(old(db.folder), log, i) <==> undone && i == |log| - 1)
      ensures YoungSettled(old(db.folder), old(accounted), young)
        && Straight(old(db.folder), old(relocation).Keys, old(accounted), young)
        ==> !undone
    {
      hide Prepared, Above, Consistent, Straight, CrossesAt, Decided, YoungSettled, Followed, Course, Refused,
        Considered, Attempted;
      var saved := (db.folder, db.closure, db.file, db.delta, db.aggregate, db.nextId, db.nextDelta);
      var stamps := (relocation, accounted);
      FollowedFirst();
      transferred, ambiguous, undone, log, turns := Transfers(db.folder, relocation.Keys, accounted);
      if undone {
        db.folder, db.closure, db.file, db.delta, db.aggregate, db.nextId, db.nextDelta :=
          saved.0, saved.1, saved.2, saved.3, saved.4, saved.5, saved.6;
        relocation, accounted := stamps.0, stamps.1;
      }
    }

    method Transfers(ghost t0: Tree, ghost evidence: set<(nat, nat)>, ghost first: set<nat>)
      returns (transferred: nat, ambiguous: nat, undone: bool, ghost log: seq<(nat, nat)>, ghost turns: seq<Decision>)
      requires Ready()
      modifies this, db
      ensures !undone ==>
        Course(old(Sees()), turns, Sees()) && forall s: nat, d: nat :: Claims(s, d) ==> Considered(turns, |turns|, s)
      ensures undone ==> Refused(old(Sees()), turns)
      ensures log == Attempted(old(Sees()), turns)
      ensures Ready() && (Consistent(old(db.Rows())) ==> Consistent(db.Rows())) && db.folder.Keys <= old(db.folder).Keys
      ensures forall i, j :: 0 <= i < j < |log| ==> log[i].0 != log[j].0 && log[i].1 != log[j].1
      ensures if undone then |log| > 0 else transferred == |log| && Decided(transferred + ambiguous)
      ensures old(Followed(t0, evidence, first, [])) ==>
        forall i :: 0 <= i < |log| ==> (CrossesAt(t0, log, i) <==> undone && i == |log| - 1)
      ensures old(Followed(t0, evidence, first, [])) && Straight(t0, evidence, first, young) ==> !undone
    {
      hide Above, Consistent, Claims, Prepared, Followed, Straight, Chosen, CrossesAt, HungBy, Decided, Untouched,
        Handed, Disputed, NotDeeper,
        Course, Refused, Considered, Spoken, Deliberate, Leads, CarriedOver, Attempted, Told;
      transferred, ambiguous, undone, log, turns := 0, 0, false, [], [];
      ghost var first0 := Sees();
      ghost var follows, start := Followed(t0, evidence, first, []), db.folder.Keys;
      var contested := Contested();
      var handled := {};
      NoTurnsYet(contested);
      while true
        invariant Told(first0, turns, Sees(), handled, contested, log)
        invariant Ready() && (Consistent(old(db.Rows())) ==> Consistent(db.Rows()))
        invariant transferred == |log| && (forall i :: 0 <= i < |log| ==> log[i].0 in handled && log[i].1 in contested)
        invariant forall i, j :: 0 <= i < j < |log| ==> log[i].0 != log[j].0 && log[i].1 != log[j].1
        invariant db.folder.Keys <= start && |handled| == transferred + ambiguous
        invariant follows ==> Followed(t0, evidence, first, log)
        invariant follows ==> forall i :: 0 <= i < |log| ==> !CrossesAt(t0, log, i)
        decreases start - handled
      {
        var chosen := Deepest(handled);
        if chosen == None {
          AllDecided(handled);
          ToldAll(first0, turns, handled, contested, log);
          return;
        }
        var (source, destination) := chosen.value;
        ClaimIs(source, destination);
        KnownSource(source, destination);
        ghost var view, before := Sees(), turns;
        NextTurn(first0, turns, handled, contested, log, source, destination);
        turns := turns + [Decision(view, source, destination)];
        ToldOn(first0, before, view, handled, contested, log, source, destination);
        handled := handled + {source};
        if destination in contested {
          ambiguous := ambiguous + 1;
          continue;
        }
        ghost var now := log;
        log := log + [(source, destination)];
        CrossingTurn(t0, evidence, first, now, source, destination);
        ghost var rows := db.Rows();
        var ok, merged := Hand(source, destination, t0, evidence, first, now);
        if !ok {
          undone := true;
          return;
        }
        HandedOn(view, rows, source, destination, merged);
        contested := contested + {destination};
        transferred := transferred + 1;
      }
    }

    lemma KnownSource(source: nat, destination: nat)
      requires Chosen(source, destination)
      ensures source in db.folder.Keys
    {
    }

    lemma NoTurnsYet(contested: set<nat>)
      requires forall d: nat :: d in contested <==> Disputed(d)
      ensures Told(Sees(), [], Sees(), {}, contested, [])
    {
      hide Claims, ClaimsIn;
      ClaimsAre();
    }

    /** The claim chosen is the deepest of the sources not considered. */
    lemma NextTurn(first: View, turns: seq<Decision>, handled: set<nat>, contested: set<nat>, log: seq<(nat, nat)>,
                   source: nat, destination: nat)
      requires Told(first, turns, Sees(), handled, contested, log) && source !in handled && Claims(source, destination)
      requires forall s: nat, d: nat :: s !in handled && Claims(s, d) ==> NotDeeper(db.folder, s, source)
      ensures Deliberate(turns + [Decision(Sees(), source, destination)], |turns|)
    {
      hide Claims, ClaimsIn, NotDeeper, Considered, Course, Spoken;
      ClaimsAre();
      SameBefore(turns, turns + [Decision(Sees(), source, destination)], Sees());
    }

    /** What is followed through a pass that began with `t0` and transferred what `log` lists. */
    ghost predicate Followed(t0: Tree, evidence: set<(nat, nat)>, first: set<nat>, log: seq<(nat, nat)>)
      reads this, db
    {
      Linked(t0) && Tracked(t0, db.folder, accounted, young, HungBy(log))
      && Foreseen(t0, evidence, relocation.Keys, first, accounted, young, HungBy(log))
    }

    lemma FollowedParts(t0: Tree, evidence: set<(nat, nat)>, first: set<nat>, log: seq<(nat, nat)>)
      requires Followed(t0, evidence, first, log)
      ensures Linked(t0) && Tracked(t0, db.folder, accounted, young, HungBy(log))
      ensures Foreseen(t0, evidence, relocation.Keys, first, accounted, young, HungBy(log))
    {
    }

    lemma FollowedFirst()
      requires Ready()
      ensures YoungSettled(db.folder, accounted, young) ==> Followed(db.folder, relocation.Keys, accounted, [])
    {
      hide Above, Tracked;
      if YoungSettled(db.folder, accounted, young) {
        TrackedFirst(db.folder, accounted, young);
        ForeseenFirst(db.folder, relocation.Keys, accounted, young);
      }
    }

    /**
     A claim's destination contains its source exactly when it crosses an earlier transfer, and never on straight
     evidence.
    */
    lemma CrossingTurn(t0: Tree, evidence: set<(nat, nat)>, first: set<nat>, log: seq<(nat, nat)>, source: nat,
                       destination: nat)
      requires Ready() && Chosen(source, destination)
      ensures var more := log + [(source, destination)];
        (forall i :: 0 <= i < |log| ==> (CrossesAt(t0, more, i) <==> CrossesAt(t0, log, i))) &&
        (Followed(t0, evidence, first, log) ==> (CrossesAt(t0, more, |log|) <==> Above(db.folder, destination, source)))
      ensures Followed(t0, evidence, first, log) && Straight(t0, evidence, first, young) ==>
        !Above(db.folder, destination, source)
    {
      hide Above, Straight, Foreseen, Crosses, YoungSeen, DoneAbove, YoungStand;
      var more := log + [(source, destination)];
      assert more[..|log|] == log;
      assert forall i :: 0 <= i < |log| ==> more[..i] == log[..i];
      if Followed(t0, evidence, first, log) && Straight(t0, evidence, first, young) {
        StraightNeverCrosses(t0, evidence, relocation.Keys, first, accounted, young, HungBy(log), source, destination);
      }
    }

    lemma ClaimIsMergeable(source: nat, destination: nat)
      requires Ready() && Chosen(source, destination)
      ensures Mergeable(db.folder, source, destination) && destination in accounted
      ensures db.folder[destination].parent.Some? && db.folder[source].parent.Some? && Linked(db.folder)
    {
    }

    /** What one transfer leaves of the rows, the stamps and the evidence. */
    ghost predicate Handed(s0: Tables, was: set<nat>, pairs: map<(nat, nat), Evidence>, source: nat, destination: nat,
                           m: Handover)
      requires source in s0.folder && destination in s0.folder
      reads this, db
    {
      Apart(s0.folder, source, destination) && Transferred(s0, db.Rows(), source, destination, m)
      && accounted == was + {source} + m.Values &&
      relocation == Evidenced(pairs, db.folder, s0.folder[source].parent, s0.folder[destination].parent)
    }

    /** A transfer carried out, in terms of what is seen. */
    lemma HandedOn(view: View, rows: Tables, source: nat, destination: nat, m: Handover)
      requires view == View(rows.folder, rows.file, view.accounted, young, known, view.relocation)
      requires source in rows.folder && destination in rows.folder
      requires Handed(rows, view.accounted, view.relocation, source, destination, m) && Ready()
      ensures CarriedOver(view, Sees(), source, destination)
    {
      hide Transferred, Apart, Evidenced, UpClosed, Linked, Sound;
      SoundIsLinked(db.Rows());
      assert Passed(view, Sees(), rows, db.Rows(), source, destination, m);
    }

    lemma ToldAll(first: View, turns: seq<Decision>, handled: set<nat>, contested: set<nat>, log: seq<(nat, nat)>)
      requires Told(first, turns, Sees(), handled, contested, log)
      requires forall s: nat, d: nat :: s !in handled ==> !Claims(s, d)
      ensures Course(first, turns, Sees()) && log == Attempted(first, turns)
      ensures forall s: nat, d: nat :: Claims(s, d) ==> Considered(turns, |turns|, s)
    {
      hide Claims, Course, Considered, Spoken, Attempted;
    }

    /** One transfer, and what it proves about the folder above the one that moved. */
    method Hand(source: nat, destination: nat, ghost t0: Tree, ghost evidence: set<(nat, nat)>, ghost first: set<nat>,
                ghost log: seq<(nat, nat)>)
      returns (ok: bool, ghost merged: Handover)
      requires Ready() && Chosen(source, destination)
      modifies this, db
      ensures ok ==> Handed(old(db.Rows()), old(accounted), old(relocation), source, destination, merged)
      ensures Ready() && (Consistent(old(db.Rows())) ==> Consistent(db.Rows()))
      ensures forall f :: f in db.folder ==> f in old(db.folder)
      ensures ok <==> !Above(old(db.folder), destination, source)
      ensures !ok ==> Untouched(old(db.Rows()), old(db.closure), old(relocation), old(accounted))
      ensures ok && old(Followed(t0, evidence, first, log)) ==>
        Followed(t0, evidence, first, log + [(source, destination)])
    {
      hide UpClosed, LiveAccounted, Above, Consistent, LiveBelow, Sound, Exact, Transferred, Apart, Mergeable, PairsIn,
        YoungHang, Linked, Followed,
        Tracked, Foreseen, HungBy;
      ghost var s0, was, pairs := db.Rows(), accounted, relocation;
      ClaimIsMergeable(source, destination);
      MergeableApart(db.folder, source, destination);
      NothingLiveBelow(s0, accounted, source);
      var before, after := db.folder[source].parent.value, db.folder[destination].parent.value;
      ghost var follows := Followed(t0, evidence, first, log);
      if follows {
        FollowedParts(t0, evidence, first, log);
      }
      var handover;
      ok, handover := Transfer(db, source, destination);
      merged := handover;
      if !ok {
        return;
      }
      accounted := accounted + {source} + handover.Values;
      StillAccounted(s0, db.Rows(), source, destination, merged, was);
      relocation := Cascaded(relocation, db.folder);
      if before != after {
        relocation := Counted(relocation, before, after);
      }
      PairsStand(s0, db.Rows(), source, destination, merged, before, after, pairs, was, young);
      if follows {
        SoundIsLinked(db.Rows());
        FollowedNext(s0, was, pairs.Keys, source, destination, merged, t0, evidence, first, log);
      }
    }

    lemma FollowedNext(s0: Tables, was: set<nat>, now: set<(nat, nat)>, source: nat, destination: nat, m: Handover,
                       t0: Tree, evidence: set<(nat, nat)>, first: set<nat>, log: seq<(nat, nat)>)
      requires Linked(s0.folder) && Linked(db.folder) && Apart(s0.folder, source, destination)
      requires Transferred(s0, db.Rows(), source, destination, m)
      requires s0.folder[source].parent.Some? && s0.folder[destination].parent.Some? && UpClosed(s0.folder, was)
      requires source !in was && destination in young && (source, destination) in now
      requires Linked(t0) && Tracked(t0, s0.folder, was, young, HungBy(log))
      requires Foreseen(t0, evidence, now, first, was, young, HungBy(log))
      requires accounted == was + {source} + m.Values
      requires forall p :: p in relocation ==>
        p in now || p == (s0.folder[source].parent.value, s0.folder[destination].parent.value)
      ensures Followed(t0, evidence, first, log + [(source, destination)])
    {
      hide Above, Linked, UpClosed, Tracked, Foreseen, Transferred, Apart;
      var more := log + [(source, destination)];
      assert more[..|more| - 1] == log;
      assert Turn(t0, s0, db.Rows(), source, destination, m, was, young, HungBy(log));
      TrackedNext(t0, s0, db.Rows(), source, destination, m, was, young, HungBy(log));
      ForeseenNext(t0, s0, db.Rows(), source, destination, m, was, young, HungBy(log), evidence, now, relocation.Keys,
        first);
    }
  }

  lemma MoreConsidered(first: View, turns: seq<Decision>, more: seq<Decision>, handled: set<nat>, contested: set<nat>,
                       source: nat, destination: nat)
    requires |more| == |turns| + 1 && turns <= more && more[|turns|].source == source
    requires more[|turns|].destination == destination
    requires forall s: nat :: s in handled <==> Considered(turns, |turns|, s)
    requires forall d: nat :: d in contested <==> Spoken(first, turns, |turns|, d)
    ensures forall s: nat :: s in handled + {source} <==> Considered(more, |more|, s)
    ensures forall d: nat :: d in contested + {destination} <==> Spoken(first, more, |more|, d)
    ensures destination in contested <==> Spoken(first, more, |turns|, destination)
  {
    hide DisputedIn;
    SameBefore(turns, more, first);
    assert more[|turns|] == more[|more| - 1];
    forall s: nat ensures s in handled + {source} <==> Considered(more, |more|, s) {
      if s in handled {
        assert Considered(turns, |turns|, s);
      }
    }
    forall d: nat ensures d in contested + {destination} <==> Spoken(first, more, |more|, d) {
      if d in contested {
        assert Spoken(first, turns, |turns|, d);
      }
    }
  }

  /** What is kept of the turns: who was considered, what was spoken for, which transfers were asked for. */
  ghost predicate Told(first: View, turns: seq<Decision>, now: View, handled: set<nat>, contested: set<nat>,
                       log: seq<(nat, nat)>) {
    Course(first, turns, now) && log == Attempted(first, turns) &&
    (forall s: nat :: s in handled <==> Considered(turns, |turns|, s))
    && forall d: nat :: d in contested <==> Spoken(first, turns, |turns|, d)
  }

  /** One more turn: left alone, carried out, or refused. */
  lemma ToldOn(first: View, turns: seq<Decision>, view: View, handled: set<nat>, contested: set<nat>,
               log: seq<(nat, nat)>, source: nat, destination: nat)
    requires Told(first, turns, view, handled, contested, log)
    requires Deliberate(turns + [Decision(view, source, destination)], |turns|)
    ensures var more := turns + [Decision(view, source, destination)];
      if destination in contested then Told(first, more, view, handled + {source}, contested, log)
      else (forall next :: CarriedOver(view, next, source, destination) ==>
              Told(first, more, next, handled + {source}, contested + {destination}, log + [(source, destination)])) &&
           (Above(view.folder, destination, source) ==>
             Refused(first, more) && Attempted(first, more) == log + [(source, destination)])
  {
    hide Course, Deliberate, Considered, Spoken, CarriedOver, Above, Attempted;
    var d := Decision(view, source, destination);
    var more := turns + [d];
    assert more[..|turns|] == turns;
    MoreConsidered(first, turns, more, handled, contested, source, destination);
    AttemptedOn(first, turns, d);
    if destination in contested {
      assert contested + {destination} == contested;
      CourseOn(first, turns, d, view);
    } else {
      forall next | CarriedOver(view, next, source, destination)
        ensures Told(first, more, next, handled + {source}, contested + {destination}, log + [(source, destination)])
      {
        CourseOn(first, turns, d, next);
      }
    }
  }

  /** The transfers of a log, as source to destination. */
  function HungBy(log: seq<(nat, nat)>): map<nat, nat> {
    if log == [] then map[] else HungBy(log[..|log| - 1])[log[|log| - 1].0 := log[|log| - 1].1]
  }

  /** The attempt crosses a transfer made before it. */
  ghost predicate CrossesAt(t0: Tree, log: seq<(nat, nat)>, i: nat)
    requires i < |log|
  {
    Crosses(t0, HungBy(log[..i]), log[i].0, log[i].1)
  }

  /** Evidence goes with the folder rows it names. */
  function Cascaded(relocation: map<(nat, nat), Evidence>, t: Tree): map<(nat, nat), Evidence> {
    map pair | pair in relocation && pair.0 in t && pair.1 in t :: relocation[pair]
  }

  function Counted(relocation: map<(nat, nat), Evidence>, from: nat, to: nat): map<(nat, nat), Evidence> {
    var e := if (from, to) in relocation then relocation[(from, to)] else Evidence(0, 0);
    relocation[(from, to) := Evidence(e.files, e.folders + 1)]
  }

  /** The stand-ins' evidence goes with them; a child of one folder is now a child of another. */
  function Evidenced(relocation: map<(nat, nat), Evidence>, t: Tree, before: Option<nat>,
                     after: Option<nat>): map<(nat, nat), Evidence> {
    var left := Cascaded(relocation, t);
    if before.Some? && after.Some? && before != after then Counted(left, before.value, after.value) else left
  }

  /** Evidence of two folders that are still there stays, and that of the parents grows by one folder found elsewhere. */
  lemma EvidenceMoves(pairs: map<(nat, nat), Evidence>, t: Tree, before: Option<nat>, after: Option<nat>, a: nat,
                      b: nat)
    ensures var left, same := Evidenced(pairs, t, before, after), (a, b) in pairs && a in t && b in t;
      if before == Some(a) && after == Some(b) && a != b then
        (a, b) in left && left[(a, b)].files == (if same then pairs[(a, b)].files else 0)
        && left[(a, b)].folders == (if same then pairs[(a, b)].folders else 0) + 1
      else ((a, b) in left <==> same) && (same ==> left[(a, b)] == pairs[(a, b)])
  {
  }

  lemma OneWinner(moves: seq<Move>, knownFiles: nat, knownFolders: nat)
    ensures forall a, b :: Wins(moves, a, knownFiles, knownFolders) && Wins(moves, b, knownFiles, knownFolders) ==>
      a == b
  {
  }

  lemma NoneWin(moves: seq<Move>, knownFiles: nat, knownFolders: nat)
    ensures (forall m :: m in moves ==> !Wins(moves, m.to, knownFiles, knownFolders)) ==>
      forall a :: !Wins(moves, a, knownFiles, knownFolders)
  {
  }

  /** What is left of the evidence after the stand-ins' rows went, and the one piece gained. */
  lemma PairsStand(s0: Tables, s: Tables, source: nat, destination: nat, m: Handover, before: nat, after: nat,
                   pairs: map<(nat, nat), Evidence>, accounted: set<nat>, young: set<nat>)
    requires Linked(s0.folder) && Apart(s0.folder, source, destination) && Transferred(s0, s, source, destination, m)
    requires s0.folder[source].parent == Some(before) && s0.folder[destination].parent == Some(after)
    requires UpClosed(s0.folder, accounted) && destination in accounted && PairsIn(s0.folder, accounted, pairs)
    requires YoungHang(s0.folder, young)
    ensures PairsIn(s.folder, accounted + {source} + m.Values, Evidenced(pairs, s.folder, Some(before), Some(after)))
    ensures YoungHang(s.folder, young)
  {
    hide Transferred, PairsIn, YoungHang, Evidenced, Linked, Above, Apart, UpClosed;
    ApartRows(s0.folder, source, destination);
    SameWorkspaces(s0, s, source, destination, m);
    ParentsLeft(s0, s, source, destination, m, before, after, accounted);
    PairsKept(s0.folder, s.folder, accounted, accounted + {source} + m.Values, pairs, before, after);
    YoungStillHang(s0, s, source, destination, m, young);
  }

  lemma SameWorkspaces(s0: Tables, s: Tables, source: nat, destination: nat, m: Handover)
    requires source in s0.folder && destination in s0.folder && Transferred(s0, s, source, destination, m)
    ensures forall f :: f in s.folder ==> f in s0.folder && s.folder[f].workspace == s0.folder[f].workspace
  {
    hide Within, Paired, FilesFollow, TotalsFollow, SpellingsFollow;
  }

  lemma ParentsLeft(s0: Tables, s: Tables, source: nat, destination: nat, m: Handover, before: nat, after: nat,
                    accounted: set<nat>)
    requires Linked(s0.folder) && Apart(s0.folder, source, destination) && Transferred(s0, s, source, destination, m)
    requires s0.folder[source].parent == Some(before) && s0.folder[destination].parent == Some(after)
    requires UpClosed(s0.folder, accounted) && destination in accounted
    ensures before in s.folder && after in s.folder && after in accounted
    ensures before in s0.folder && after in s0.folder && s0.folder[before].workspace == s0.folder[after].workspace
  {
    hide FilesFollow, TotalsFollow, Paired, SpellingsFollow, Above;
    ParentsOutside(s0.folder, source, destination, before, after);
    ParentShares(s0.folder, before, source);
    ParentShares(s0.folder, after, destination);
    var all := m[destination := source];
    forall g | g in all ensures g != before && g != after {
      if g in m {
        assert StrictlyAbove(s0.folder, destination, g);
      }
    }
  }

  lemma PairsKept(t: Tree, u: Tree, accounted: set<nat>, more: set<nat>, pairs: map<(nat, nat), Evidence>, before: nat,
                  after: nat)
    requires PairsIn(t, accounted, pairs) && accounted <= more
    requires forall f :: f in u ==> f in t && u[f].workspace == t[f].workspace
    requires before in u && after in u && after in more && t[before].workspace == t[after].workspace
    ensures PairsIn(u, more, Evidenced(pairs, u, Some(before), Some(after)))
  {
  }

  lemma YoungStillHang(s0: Tables, s: Tables, source: nat, destination: nat, m: Handover, young: set<nat>)
    requires source in s0.folder && destination in s0.folder && Transferred(s0, s, source, destination, m)
    requires s0.folder[destination].parent.Some? && YoungHang(s0.folder, young)
    ensures YoungHang(s.folder, young)
  {
    hide Within, Paired, FilesFollow, TotalsFollow, SpellingsFollow;
  }
}
