/** The move heuristic (reconcile.py `moved_from`, files.py `candidates_with_content`). */
module Matching {
  import opened Common
  import opened FolderTree
  import opened Paths
  import opened ScanSafety
  import opened Reconciling

  /** How many same-content candidates a move is willing to consider. */
  const CANDIDATE_LIMIT := 32

  predicate SameContent(run: Run, rows: Files, hash: nat, i: nat) {
    i in rows && rows[i].live && !Stamped(run, rows[i]) && rows[i].hash == hash
  }

  /** Registered before, ties broken by id. */
  predicate Older(rows: Files, i: nat, j: nat)
    requires i in rows && j in rows
  {
    rows[i].created < rows[j].created || (rows[i].created == rows[j].created && i < j)
  }

  /** The query: live rows with this content the run has not stamped, oldest first, up to the limit. */
  ghost predicate OldestFirst(run: Run, rows: Files, hash: nat, c: seq<nat>) {
    |c| <= CANDIDATE_LIMIT && (forall n :: 0 <= n < |c| ==> SameContent(run, rows, hash, c[n])) &&
    (forall m, n :: 0 <= m < n < |c| ==> Older(rows, c[m], c[n])) &&
    (forall i :: SameContent(run, rows, hash, i) && i !in c ==> |c| == CANDIDATE_LIMIT && forall n :: 0 <= n < |c| ==>
      Older(rows, c[n], i))
  }

  /** Those whose own path is gone, in the same order. */
  function Absent(t: Tree, disk: Disk, rows: Files, c: seq<nat>): seq<nat> {
    if c == [] then []
    else Absent(t, disk, rows, c[..|c| - 1]) + (var i := c[|c| - 1]; if i in rows && GoneFrom(t, disk, rows[i]) then [i] else [])
  }

  function Namesakes(key: string -> string, rows: Files, name: string, c: seq<nat>): seq<nat> {
    if c == [] then []
    else Namesakes(key, rows, name, c[..|c| - 1]) + (var i := c[|c| - 1]; if i in rows && key(rows[i].name) == key(name) then [i] else [])
  }

  /** Hash alone when it is unambiguous, then hash and name, then the oldest registration. */
  function Choice(key: string -> string, rows: Files, name: string, absent: seq<nat>): Option<nat> {
    if absent == [] then None
    else if |absent| == 1 then Some(absent[0])
    else
      var same := Namesakes(key, rows, name, absent);
      if |same| == 1 then Some(same[0]) else if same != [] then Some(same[0]) else Some(absent[0])
  }

  lemma {:induction false} AbsentAre(t: Tree, disk: Disk, rows: Files, c: seq<nat>, i: nat)
    ensures i in Absent(t, disk, rows, c) <==> i in c && i in rows && GoneFrom(t, disk, rows[i])
  {
    if c != [] {
      AbsentAre(t, disk, rows, c[..|c| - 1], i);
      assert c == c[..|c| - 1] + [c[|c| - 1]];
    }
  }

  lemma {:induction false} NamesakesAre(key: string -> string, rows: Files, name: string, c: seq<nat>, i: nat)
    ensures i in Namesakes(key, rows, name, c) <==> i in c && i in rows && key(rows[i].name) == key(name)
  {
    if c != [] {
      NamesakesAre(key, rows, name, c[..|c| - 1], i);
      assert c == c[..|c| - 1] + [c[|c| - 1]];
    }
  }

  lemma {:induction false} FirstIsOldest(key: string -> string, rows: Files, name: string, c: seq<nat>)
    requires forall n :: 0 <= n < |c| ==> c[n] in rows
    requires forall m, n :: 0 <= m < n < |c| ==> Older(rows, c[m], c[n])
    ensures var same := Namesakes(key, rows, name, c);
            same != [] ==> same[0] in c && same[0] in rows && forall i :: i in same && i != same[0] ==>
              i in rows && Older(rows, same[0], i)
  {
    if c != [] {
      var front := c[..|c| - 1];
      FirstIsOldest(key, rows, name, front);
      var same := Namesakes(key, rows, name, front);
      forall i | i in c ensures i in rows {
      }
      if same != [] {
        NamesakesAre(key, rows, name, front, same[0]);
        var m :| 0 <= m < |front| && front[m] == same[0];
        assert Older(rows, c[m], c[|c| - 1]);
      }
    }
  }

  /**
   What the choice promises: some absent candidate when there is one, and never one with another name, nor a younger
   one, in place of the oldest that kept its name. So a directory renamed on the storage takes its files back one by
   one, however many of them share content.
  */
  lemma ChoiceKeepsNames(key: string -> string, rows: Files, name: string, absent: seq<nat>)
    requires forall n :: 0 <= n < |absent| ==> absent[n] in rows
    requires forall m, n :: 0 <= m < n < |absent| ==> Older(rows, absent[m], absent[n])
    ensures Choice(key, rows, name, absent) == None <==> absent == []
    ensures absent != [] ==> var i := Choice(key, rows, name, absent).value;
            i in absent && forall j :: j in absent && j != i ==>
              (key(rows[j].name) == key(name) ==> key(rows[i].name) == key(name) && Older(rows, i, j))
              && (key(rows[i].name) != key(name) ==> Older(rows, i, j))
  {
    if |absent| > 1 {
      FirstIsOldest(key, rows, name, absent);
      forall j
        ensures j in Namesakes(key, rows, name, absent) <==> j in absent && j in rows && key(rows[j].name) == key(name)
      {
        NamesakesAre(key, rows, name, absent, j);
      }
    }
  }

  ghost predicate Sorted(rows: Files, c: seq<nat>) {
    (forall n :: 0 <= n < |c| ==> c[n] in rows) && forall m, n :: 0 <= m < n < |c| ==> Older(rows, c[m], c[n])
  }

  lemma SortedMore(rows: Files, c: seq<nat>, last: nat)
    requires Sorted(rows, c) && last in rows && forall n :: 0 <= n < |c| ==> Older(rows, c[n], last)
    ensures Sorted(rows, c + [last])
  {
  }

  lemma {:induction false} AbsentSorted(t: Tree, disk: Disk, rows: Files, c: seq<nat>)
    requires Sorted(rows, c)
    ensures forall n :: 0 <= n < |Absent(t, disk, rows, c)| ==> Absent(t, disk, rows, c)[n] in c
    ensures Sorted(rows, Absent(t, disk, rows, c))
  {
    hide GoneFrom;
    if c != [] {
      var front, last := c[..|c| - 1], c[|c| - 1];
      AbsentSorted(t, disk, rows, front);
      forall i | i in front ensures i in rows && i in c && Older(rows, i, last) {
        var m :| 0 <= m < |front| && front[m] == i;
        assert c[m] == i;
      }
      var absent := Absent(t, disk, rows, front);
      forall n | 0 <= n < |absent| ensures absent[n] in front {
      }
      SortedMore(rows, absent, last);
    }
  }

  /** As many rows of this content as a move considers come before this one. */
  ghost predicate Crowded(run: Run, rows: Files, hash: nat, j: nat) {
    exists c: seq<nat> :: |c| == 32 && (forall m, n :: 0 <= m < n < 32 ==> c[m] != c[n]) && forall n :: 0 <= n < 32 ==>
      c[n] != j && c[n] in rows && rows[c[n]].live && rows[c[n]].hash == hash && !Stamped(run, rows[c[n]])
      && j in rows && rows[c[n]].created <= rows[j].created
  }

  ghost predicate NotBefore(run: Run, key: string -> string, rows: Files, e: Entry, i: nat, j: nat)
    requires i in rows && j in rows
  {
    var (same, kept) := (key(rows[i].name) == key(rows[j].name), key(rows[i].name) == key(e.name));
    (same || !kept ==> rows[i].created <= rows[j].created)
    && (!kept && key(rows[j].name) == key(e.name) ==> Crowded(run, rows, e.hash, j))
  }

  /**
   What a move makes of a row that content may have moved away from. It is passed over for good reason: a row taken
   under another name is older than every one, no younger row is taken before one of the same name, a row of the
   entry's name is passed over for another name only when too many rows come before it, and so is any when none is taken.
  */
  ghost predicate PassedOver(run: Run, key: string -> string, rows: Files, e: Entry, source: Option<nat>, j: nat) {
    match source
    case None => Crowded(run, rows, e.hash, j)
    case Some(i) => i in rows && j in rows && NotBefore(run, key, rows, e, i, j)
  }

  /** A live row of this content, not seen since the run began, whose path is not there. */
  ghost predicate MovedAway(run: Run, t: Tree, disk: Disk, rows: Files, e: Entry, i: nat) {
    i in rows && rows[i].live && rows[i].hash == e.hash && (rows[i].seen == None || rows[i].seen.value < run.start)
    && (PathOf(t, rows[i].folder) !in disk || rows[i].name !in disk[PathOf(t, rows[i].folder)].names)
  }

  lemma CandidateIs(run: Run, t: Tree, disk: Disk, rows: Files, e: Entry, i: nat)
    ensures Candidate(run, t, disk, rows, e, i) <==> MovedAway(run, t, disk, rows, e, i)
  {
    hide PathOf;
  }

  lemma LeftOutCrowded(run: Run, rows: Files, hash: nat, c: seq<nat>, j: nat)
    requires OldestFirst(run, rows, hash, c) && SameContent(run, rows, hash, j) && j !in c
    ensures Crowded(run, rows, hash, j)
  {
  }

  lemma MovedForReason(run: Run, key: string -> string, t: Tree, disk: Disk, rows: Files, e: Entry, c: seq<nat>, j: nat)
    requires OldestFirst(run, rows, e.hash, c) && Candidate(run, t, disk, rows, e, j)
    ensures PassedOver(run, key, rows, e, Choice(key, rows, e.name, Absent(t, disk, rows, c)), j)
  {
    hide GoneFrom, Choice, Absent, Crowded;
    var absent := Absent(t, disk, rows, c);
    AbsentSorted(t, disk, rows, c);
    AbsentAre(t, disk, rows, c, j);
    ChoiceKeepsNames(key, rows, e.name, absent);
    if j !in c {
      LeftOutCrowded(run, rows, e.hash, c, j);
    }
  }
}
