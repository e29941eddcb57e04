/** Sorting one directory's entries (scanning.py `classify`) into what to register, recurse into, and only mention. */
module Classifying {
  import opened Reconciling

  datatype Kind = IsDirectory | IsFile | IsOther | Unreadable

  /** One name as the filesystem gave it; `stat` and `hash` matter for readable files only. */
  datatype Raw = Raw(name: string, symlink: bool, kind: Kind, stat: nat, hash: nat)

  /** The name policy: the comparison key, which names may be stored, and the key reserved at a workspace root. */
  datatype Policy = Policy(key: string -> string, valid: string -> bool, control: string)

  predicate Ours(y: Policy, atRoot: bool, e: Raw) {
    atRoot && y.key(e.name) == y.control
  }

  /** Everything that is there is mentioned, links included; only the app's own directory is not. */
  predicate Mentions(y: Policy, atRoot: bool, e: Raw) {
    e.symlink || !Ours(y, atRoot, e)
  }

  /** An entry that takes its comparison key for itself, whatever it then turns out to be. */
  predicate Claims(y: Policy, atRoot: bool, e: Raw) {
    !e.symlink && !Ours(y, atRoot, e) && y.valid(e.name)
  }

  /** The first of the entries that claim its key: in traversal order, the one that registers. */
  ghost predicate First(y: Policy, atRoot: bool, entries: seq<Raw>, j: nat) {
    j < |entries| && Claims(y, atRoot, entries[j]) &&
    forall i :: 0 <= i < j && Claims(y, atRoot, entries[i]) ==> y.key(entries[i].name) != y.key(entries[j].name)
  }

  function AsEntry(e: Raw): Entry {
    Entry(e.name, e.stat, e.hash)
  }

  /** The listing of the first n entries. */
  ghost predicate Sorted(y: Policy, atRoot: bool, entries: seq<Raw>, n: nat, l: Listing)
    requires n <= |entries|
  {
    (forall m :: m in l.names <==> exists j :: 0 <= j < n && entries[j].name == m) &&
    (forall k :: k in l.mentioned <==> exists j ::
      0 <= j < n && Mentions(y, atRoot, entries[j]) && y.key(entries[j].name) == k) &&
    (forall d :: d in l.directories <==> exists j ::
      0 <= j < n && First(y, atRoot, entries, j) && entries[j].kind == IsDirectory && entries[j].name == d) &&
    (forall f :: f in l.files <==> exists j ::
      0 <= j < n && First(y, atRoot, entries, j) && entries[j].kind == IsFile && AsEntry(entries[j]) == f)
  }

  /** The keys the first n entries have claimed. */
  ghost predicate Claimed(y: Policy, atRoot: bool, entries: seq<Raw>, n: nat, claimed: map<string, string>)
    requires n <= |entries|
  {
    forall k :: k in claimed <==> exists j :: 0 <= j < n && Claims(y, atRoot, entries[j]) && y.key(entries[j].name) == k
  }

  ghost predicate Took(y: Policy, l: Listing, claimed: map<string, string>) {
    (forall d :: d in l.directories ==> y.key(d) in claimed) && (forall f :: f in l.files ==> y.key(f.name) in claimed)
  }

  /** An entry whose key another has claimed before it. */
  ghost predicate Late(y: Policy, atRoot: bool, entries: seq<Raw>, j: nat) {
    j < |entries| && Claims(y, atRoot, entries[j]) && !First(y, atRoot, entries, j)
  }

  /** An entry nothing is made of: a link, a name that cannot be stored, or neither a file nor a directory. */
  ghost predicate Skips(y: Policy, atRoot: bool, entries: seq<Raw>, j: nat) {
    j < |entries| && (entries[j].symlink || (!Ours(y, atRoot, entries[j]) && !y.valid(entries[j].name))
                      || (First(y, atRoot, entries, j) && entries[j].kind in {IsOther, Unreadable}))
  }

  ghost function Lates(y: Policy, atRoot: bool, entries: seq<Raw>, n: nat): set<nat> {
    set j: nat | j < n && Late(y, atRoot, entries, j)
  }

  ghost function Skipped(y: Policy, atRoot: bool, entries: seq<Raw>, n: nat): set<nat> {
    set j: nat | j < n && Skips(y, atRoot, entries, j)
  }

  /** The two counters over the first n entries. */
  ghost predicate Told(y: Policy, atRoot: bool, entries: seq<Raw>, n: nat, conflicts: nat, skipped: nat) {
    conflicts == |Lates(y, atRoot, entries, n)| && skipped == |Skipped(y, atRoot, entries, n)|
  }

  lemma ToldNothing(y: Policy, atRoot: bool, entries: seq<Raw>)
    ensures Told(y, atRoot, entries, 0, 0, 0)
  {
    assert Lates(y, atRoot, entries, 0) == {} && Skipped(y, atRoot, entries, 0) == {};
  }

  /** Nothing is made of the entry, given the keys claimed before it. */
  predicate PassedBy(y: Policy, atRoot: bool, e: Raw, had: map<string, string>) {
    e.symlink ||
    (!Ours(y, atRoot, e) && (!y.valid(e.name) || (y.key(e.name) !in had && e.kind in {IsOther, Unreadable})))
  }

  lemma FirstIs(y: Policy, atRoot: bool, entries: seq<Raw>, n: nat, had: map<string, string>)
    requires n < |entries| && Claimed(y, atRoot, entries, n, had)
    ensures Late(y, atRoot, entries, n) <==> Claims(y, atRoot, entries[n]) && y.key(entries[n].name) in had
    ensures Skips(y, atRoot, entries, n) <==> PassedBy(y, atRoot, entries[n], had)
  {
  }

  lemma LatesStep(y: Policy, atRoot: bool, entries: seq<Raw>, n: nat)
    ensures |Lates(y, atRoot, entries, n + 1)| == |Lates(y, atRoot, entries, n)| + if Late(y, atRoot, entries, n) then 1 else 0
  {
    hide Late;
    var lates := Lates(y, atRoot, entries, n);
    assert Lates(y, atRoot, entries, n + 1) == if Late(y, atRoot, entries, n) then lates + {n} else lates;
  }

  lemma SkipsStep(y: Policy, atRoot: bool, entries: seq<Raw>, n: nat)
    ensures |Skipped(y, atRoot, entries, n + 1)| == |Skipped(y, atRoot, entries, n)| + if Skips(y, atRoot, entries, n) then 1 else 0
  {
    hide Skips;
    var skips := Skipped(y, atRoot, entries, n);
    assert Skipped(y, atRoot, entries, n + 1) == if Skips(y, atRoot, entries, n) then skips + {n} else skips;
  }

  lemma ToldStep(y: Policy, atRoot: bool, entries: seq<Raw>, n: nat, conflicts: nat, skipped: nat, conflicts': nat,
                 skipped': nat)
    requires n < |entries| && Told(y, atRoot, entries, n, conflicts, skipped)
    requires conflicts' == conflicts + if Late(y, atRoot, entries, n) then 1 else 0
    requires skipped' == skipped + if Skips(y, atRoot, entries, n) then 1 else 0
    ensures Told(y, atRoot, entries, n + 1, conflicts', skipped')
  {
    hide Late, Skips, Lates, Skipped;
    LatesStep(y, atRoot, entries, n);
    SkipsStep(y, atRoot, entries, n);
  }

  /** An entry may be registered: no link, not the app's own directory, and its name can be stored. */
  predicate Usable(y: Policy, atRoot: bool, e: Raw) {
    !e.symlink && !(atRoot && y.key(e.name) == y.control) && y.valid(e.name)
  }

  /**
   What becomes of each entry: everything but the app's own directory is mentioned, and of the usable ones of each key
   the first is registered for what it is, with its stat and hash, and no other.
  */
  lemma SortedRules(y: Policy, atRoot: bool, entries: seq<Raw>, l: Listing, j: nat)
    requires Sorted(y, atRoot, entries, |entries|, l) && ListingFits(y.key, l) && j < |entries|
    ensures entries[j].name in l.names
    ensures entries[j].symlink || !(atRoot && y.key(entries[j].name) == y.control) ==>
      y.key(entries[j].name) in l.mentioned
    ensures Unclaimed(y, atRoot, entries, j) && entries[j].kind == IsDirectory ==> entries[j].name in l.directories
    ensures Unclaimed(y, atRoot, entries, j) && entries[j].kind == IsFile ==>
      Entry(entries[j].name, entries[j].stat, entries[j].hash) in l.files
  {
    assert forall i :: 0 <= i < |entries| ==> Claims(y, atRoot, entries[i]) == Usable(y, atRoot, entries[i]);
    assert Unclaimed(y, atRoot, entries, j) ==> First(y, atRoot, entries, j);
    if First(y, atRoot, entries, j) && entries[j].kind == IsFile {
      assert AsEntry(entries[j]) in l.files;
    }
  }

  /** And nothing else is listed. */
  lemma SortedOnly(y: Policy, atRoot: bool, entries: seq<Raw>, l: Listing, k: string, d: string, f: Entry)
    requires Sorted(y, atRoot, entries, |entries|, l)
    ensures k in l.mentioned ==> exists j :: 0 <= j < |entries| && IsMentioned(y, atRoot, entries[j], k)
    ensures d in l.directories ==>
      exists j :: 0 <= j < |entries| && Unclaimed(y, atRoot, entries, j) && entries[j].kind == IsDirectory && entries[j].name == d
    ensures f in l.files ==>
      exists j :: 0 <= j < |entries| && Unclaimed(y, atRoot, entries, j) && IsFound(entries[j], f)
  {
    assert forall i :: 0 <= i < |entries| ==> Claims(y, atRoot, entries[i]) == Usable(y, atRoot, entries[i]);
    if k in l.mentioned {
      var j :| 0 <= j < |entries| && Mentions(y, atRoot, entries[j]) && y.key(entries[j].name) == k;
      assert IsMentioned(y, atRoot, entries[j], k);
    }
    if d in l.directories {
      var j :| 0 <= j < |entries| && First(y, atRoot, entries, j) && entries[j].kind == IsDirectory && entries[j].name == d;
      assert Unclaimed(y, atRoot, entries, j);
    }
    if f in l.files {
      var j :| 0 <= j < |entries| && First(y, atRoot, entries, j) && entries[j].kind == IsFile && AsEntry(entries[j]) == f;
      assert Unclaimed(y, atRoot, entries, j) && IsFound(entries[j], f);
    }
  }

  predicate IsMentioned(y: Policy, atRoot: bool, e: Raw, k: string) {
    y.key(e.name) == k && (e.symlink || !(atRoot && k == y.control))
  }

  predicate IsFound(e: Raw, f: Entry) {
    e.kind == IsFile && f == Entry(e.name, e.stat, e.hash)
  }

  /** The first usable entry of its key. */
  ghost predicate Unclaimed(y: Policy, atRoot: bool, entries: seq<Raw>, j: nat) {
    j < |entries| && Usable(y, atRoot, entries[j]) &&
    forall i :: 0 <= i < j && Usable(y, atRoot, entries[i]) ==> y.key(entries[i].name) != y.key(entries[j].name)
  }

  datatype Progress = Progress(l: Listing, claimed: map<string, string>, conflicts: nat, skipped: nat)

  /** What one entry adds. */
  ghost predicate Entered(y: Policy, atRoot: bool, e: Raw, was: Progress, now: Progress) {
    var key := y.key(e.name);
    var takes := Claims(y, atRoot, e) && key !in was.claimed;
    now.l.names == was.l.names + {e.name}
    && now.l.mentioned == was.l.mentioned + (if Mentions(y, atRoot, e) then {key} else {})
    && now.l.directories == (if takes && e.kind == IsDirectory then was.l.directories + [e.name] else was.l.directories)
    && now.l.files == (if takes && e.kind == IsFile then was.l.files + [AsEntry(e)] else was.l.files)
    && now.claimed.Keys == was.claimed.Keys + (if Claims(y, atRoot, e) then {key} else {})
    && now.conflicts == was.conflicts + (if Claims(y, atRoot, e) && key in was.claimed then 1 else 0)
    && now.skipped == was.skipped + if PassedBy(y, atRoot, e, was.claimed) then 1 else 0
  }

  ghost predicate SortedSoFar(y: Policy, atRoot: bool, entries: seq<Raw>, n: nat, p: Progress) {
    n <= |entries| && Sorted(y, atRoot, entries, n, p.l) && ListingFits(y.key, p.l)
    && Claimed(y, atRoot, entries, n, p.claimed) && Took(y, p.l, p.claimed)
    && Told(y, atRoot, entries, n, p.conflicts, p.skipped)
  }

  lemma SortedStart(y: Policy, atRoot: bool, entries: seq<Raw>)
    ensures SortedSoFar(y, atRoot, entries, 0, Progress(Listing({}, [], [], {}), map[], 0, 0))
  {
    hide Told, Sorted, ListingFits, Claimed, Took;
    NothingSorted(y, atRoot, entries);
    ToldNothing(y, atRoot, entries);
  }

  lemma SortedOn(y: Policy, atRoot: bool, entries: seq<Raw>, n: nat, was: Progress, now: Progress)
    requires n < |entries| && SortedSoFar(y, atRoot, entries, n, was) && Entered(y, atRoot, entries[n], was, now)
    ensures SortedSoFar(y, atRoot, entries, n + 1, now)
  {
    hide Told, Sorted, ListingFits, Claimed, Took, Claims, PassedBy, Late, First, Skips;
    FirstIs(y, atRoot, entries, n, was.claimed);
    ToldStep(y, atRoot, entries, n, was.conflicts, was.skipped, now.conflicts, now.skipped);
    ClaimedStep(y, atRoot, entries, n, was.claimed, now.claimed);
    SortedStep(y, atRoot, entries, n, was.l, now.l, was.claimed);
    FitsStep(y, atRoot, entries[n], was.l, now.l, was.claimed, now.claimed);
  }

  /**
   Every name is accounted for, no two registered names share a key, and each registered one was first to claim it.
  */
  method Classify(y: Policy, atRoot: bool, entries: seq<Raw>) returns (l: Listing, conflicts: nat, skipped: nat)
    ensures Sorted(y, atRoot, entries, |entries|, l) && ListingFits(y.key, l)
    ensures Told(y, atRoot, entries, |entries|, conflicts, skipped)
  {
    hide Sorted, ListingFits, Claimed, Took, Told;
    l := Listing({}, [], [], {});
    conflicts, skipped := 0, 0;
    var claimed: map<string, string> := map[];
    SortedStart(y, atRoot, entries);
    var n := 0;
    while n < |entries|
      invariant 0 <= n <= |entries| && SortedSoFar(y, atRoot, entries, n, Progress(l, claimed, conflicts, skipped))
    {
      var e := entries[n];
      var key := y.key(e.name);
      ghost var was := Progress(l, claimed, conflicts, skipped);
      l := l.(names := l.names + {e.name});
      n := n + 1;
      if e.symlink {
        l := l.(mentioned := l.mentioned + {key});
        skipped := skipped + 1;
      } else if atRoot && key == y.control {
      } else {
        l := l.(mentioned := l.mentioned + {key});
        if !y.valid(e.name) {
          skipped := skipped + 1;
        } else if key in claimed {
          conflicts := conflicts + 1;
        } else {
          claimed := claimed[key := e.name];
          match e.kind {
            case IsDirectory => l := l.(directories := l.directories + [e.name]);
            case IsFile => l := l.(files := l.files + [AsEntry(e)]);
            case _ => skipped := skipped + 1;
          }
        }
      }
      SortedOn(y, atRoot, entries, n - 1, was, Progress(l, claimed, conflicts, skipped));
    }
    assert SortedSoFar(y, atRoot, entries, |entries|, Progress(l, claimed, conflicts, skipped));
  }

  lemma ClaimedStep(y: Policy, atRoot: bool, entries: seq<Raw>, n: nat, had: map<string, string>,
                    claimed: map<string, string>)
    requires n < |entries|
    requires Claimed(y, atRoot, entries, n, had)
    requires claimed.Keys == had.Keys + (if Claims(y, atRoot, entries[n]) then {y.key(entries[n].name)} else {})
    ensures Claimed(y, atRoot, entries, n + 1, claimed)
  {
    forall k
      ensures k in claimed <==>
        exists j :: 0 <= j < n + 1 && Claims(y, atRoot, entries[j]) && y.key(entries[j].name) == k
    {
      if k in had {
        var j :| 0 <= j < n && Claims(y, atRoot, entries[j]) && y.key(entries[j].name) == k;
        assert j < n + 1;
      }
    }
  }

  lemma SortedStep(y: Policy, atRoot: bool, entries: seq<Raw>, n: nat, was: Listing, l: Listing,
                   had: map<string, string>)
    requires n < |entries| && Sorted(y, atRoot, entries, n, was)
    requires Claimed(y, atRoot, entries, n, had)
    requires l.names == was.names + {entries[n].name}
    requires l.mentioned == was.mentioned + (if Mentions(y, atRoot, entries[n]) then {y.key(entries[n].name)} else {})
    requires l.directories == if Claims(y, atRoot, entries[n]) && y.key(entries[n].name) !in had && entries[n].kind == IsDirectory then was.directories + [entries[n].name] else was.directories
    requires l.files == if Claims(y, atRoot, entries[n]) && y.key(entries[n].name) !in had && entries[n].kind == IsFile then was.files + [AsEntry(entries[n])] else was.files
    ensures Sorted(y, atRoot, entries, n + 1, l)
  {
    assert First(y, atRoot, entries, n) <==> Claims(y, atRoot, entries[n]) && y.key(entries[n].name) !in had;
  }

  lemma NothingSorted(y: Policy, atRoot: bool, entries: seq<Raw>)
    ensures var l := Listing({}, [], [], {});
            Sorted(y, atRoot, entries, 0, l) && ListingFits(y.key, l) && Claimed(y, atRoot, entries, 0, map[])
              && Took(y, l, map[])
  {
  }

  lemma FitsStep(y: Policy, atRoot: bool, e: Raw, was: Listing, l: Listing, had: map<string, string>,
                 claimed: map<string, string>)
    requires ListingFits(y.key, was) && Took(y, was, had)
    requires claimed.Keys == had.Keys + (if Claims(y, atRoot, e) then {y.key(e.name)} else {})
    requires l.mentioned == was.mentioned + (if Mentions(y, atRoot, e) then {y.key(e.name)} else {})
    requires l.directories == if Claims(y, atRoot, e) && y.key(e.name) !in had && e.kind == IsDirectory then was.directories + [e.name] else was.directories
    requires l.files == if Claims(y, atRoot, e) && y.key(e.name) !in had && e.kind == IsFile then was.files + [AsEntry(e)] else was.files
    ensures ListingFits(y.key, l) && Took(y, l, claimed)
  {
    assert forall d :: d in l.directories ==> d in was.directories || d == e.name;
    assert forall f :: f in l.files ==> f in was.files || f == AsEntry(e);
  }
}
