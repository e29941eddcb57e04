/** The steps of a write or a move, and what each keeps of what a power cut can show. */
module WriteSteps {
  import opened Common
  import opened DiskModel
  import opened Durability

  predicate Upto(q: Path, p: Path) {
    q == p || Over(q, p)
  }

  /** Something on the way to p is a file. */
  ghost predicate Blocked(d: Disk, p: Path) {
    exists q: Path :: Upto(q, p) && At(d, q).Regular?
  }

  function Flat(chunks: seq<Bytes>): Bytes {
    if chunks == [] then [] else Flat(chunks[..|chunks| - 1]) + chunks[|chunks| - 1]
  }

  // ------------------------------------------------------------------ directories only ever appear

  ghost predicate GrownAt(d: Disk, d': Disk, path: Path, q: Path) {
    (forall e :: e in May(d', q) ==> e in May(d, q) || (e == Directory && Upto(q, path))) &&
    (At(d', q) == At(d, q) || (At(d, q) == Absent && At(d', q) == Directory && Upto(q, path)))
  }

  /** From d to d' nothing happened but directories on the way to `path` appearing, and entries becoming firm. */
  ghost predicate Grown(d: Disk, d': Disk, path: Path) {
    d'.data == d.data && d'.firm == d.firm && d'.next == d.next && forall q: Path :: GrownAt(d, d', path, q)
  }

  lemma GrownOnward(d: Disk, d': Disk, d'': Disk, path: Path)
    requires Grown(d, d', path) && Grown(d', d'', path)
    ensures Grown(d, d'', path)
  {
    forall q: Path ensures GrownAt(d, d'', path, q) {
      assert GrownAt(d, d', path, q) && GrownAt(d', d'', path, q);
    }
  }

  lemma GrownSelf(d: Disk, path: Path)
    ensures Grown(d, d, path)
  {
  }

  lemma BlockedBy(d: Disk, q: Path, p: Path)
    requires Upto(q, p) && At(d, q).Regular?
    ensures Blocked(d, p)
  {
  }

  lemma MkdirGrows(d: Disk, x: Path, path: Path)
    requires Upto(x, path) && x != [] && At(d, x) == Absent
    ensures Grown(d, Mkdir(d, x), path)
  {
  }

  lemma SyncDirGrows(d: Disk, x: Path, path: Path)
    requires Wf(d)
    ensures Grown(d, SyncDir(d, x), path)
  {
    forall q: Path ensures GrownAt(d, SyncDir(d, x), path, q) {
      assert PathWf(d, q);
    }
  }

  // ------------------------------------------------------------------ each step keeps what a cut can show

  lemma GrownBetween(was: Disk, d: Disk, d': Disk, path: Path, p: Path, bytes: Bytes)
    requires Between(was, d, p, bytes) && Grown(d, d', path) && !Upto(p, path)
    ensures Between(was, d', p, bytes)
    ensures Read(d', p) == Read(d, p)
  {
    assert GrownAt(d, d', path, p);
    forall q: Path, e | Over(q, p) && e in May(d', q) ensures e in May(was, q) || e == Directory {
      assert GrownAt(d, d', path, q);
    }
  }

  lemma SyncDirBetween(was: Disk, d: Disk, x: Path, p: Path, bytes: Bytes)
    requires Between(was, d, p, bytes) && Wf(d)
    ensures Between(was, SyncDir(d, x), p, bytes)
    ensures Read(SyncDir(d, x), p) == Read(d, p)
  {
    assert PathWf(d, p);
    forall q: Path, e | Over(q, p) && e in May(SyncDir(d, x), q) ensures e in May(was, q) || e == Directory {
      assert PathWf(d, q);
    }
  }

  /** A file that p may never have named. */
  ghost predicate Strange(was: Disk, d: Disk, p: Path, i: nat) {
    Regular(i) !in May(was, p) && Regular(i) !in May(d, p)
  }

  lemma OpenBetween(was: Disk, d: Disk, s: Path, p: Path, bytes: Bytes)
    requires Between(was, d, p, bytes) && Wf(d) && Wf(was) && s != p && !Over(s, p) && s != []
    requires At(d, s).Regular? ==> Strange(was, d, p, At(d, s).inode)
    ensures Between(was, Open(d, s), p, bytes)
    ensures Strange(was, Open(d, s), p, At(Open(d, s), s).inode)
    ensures Read(Open(d, s), p) == Read(d, p)
  {
    hide Wf, Between, PathWf;
    WfAt(d, p);
    WfAt(was, p);
    if At(d, s).Regular? {
      EmptiedBetween(was, d, s, p, bytes);
    } else {
      CreatedBetween(was, d, s, p, bytes);
    }
  }

  lemma WfAt(d: Disk, p: Path)
    requires Wf(d)
    ensures PathWf(d, p) && d.next !in d.data
  {
  }

  lemma EmptiedBetween(was: Disk, d: Disk, s: Path, p: Path, bytes: Bytes)
    requires Between(was, d, p, bytes) && PathWf(d, p) && At(d, s).Regular? && Strange(was, d, p, At(d, s).inode)
    ensures Between(was, Open(d, s), p, bytes) && Strange(was, Open(d, s), p, At(Open(d, s), s).inode)
    ensures Read(Open(d, s), p) == Read(d, p)
  {
  }

  lemma CreatedBetween(was: Disk, d: Disk, s: Path, p: Path, bytes: Bytes)
    requires Between(was, d, p, bytes) && d.next !in d.data && PathWf(d, p) && PathWf(was, p) && s != p && !Over(s, p)
    requires s != [] && !At(d, s).Regular?
    ensures Between(was, Open(d, s), p, bytes) && Strange(was, Open(d, s), p, At(Open(d, s), s).inode)
    ensures Read(Open(d, s), p) == Read(d, p)
  {
    var d' := Open(d, s);
    assert d'.firm == d.firm && d'.data == d.data[d.next := []] && At(d', s) == Regular(d.next);
    forall q: Path | q != s ensures May(d', q) == May(d, q) && At(d', q) == At(d, q) {
    }
    NewFileBetween(was, d, d', s, p, bytes);
  }

  lemma NewFileBetween(was: Disk, d: Disk, d': Disk, s: Path, p: Path, bytes: Bytes)
    requires Between(was, d, p, bytes) && d.next !in d.data && PathWf(d, p) && PathWf(was, p) && s != p && !Over(s, p)
    requires p != s
    requires d'.firm == d.firm && d'.data == d.data[d.next := []]
    requires forall q: Path :: q != s ==> May(d', q) == May(d, q) && At(d', q) == At(d, q)
    ensures Between(was, d', p, bytes) && Strange(was, d', p, d.next) && Read(d', p) == Read(d, p)
  {
    hide May, At, Over;
  }

  lemma AppendBetween(was: Disk, d: Disk, i: nat, chunk: Bytes, p: Path, bytes: Bytes)
    requires Between(was, d, p, bytes) && Wf(d) && i in d.data && Strange(was, d, p, i)
    ensures Between(was, Append(d, i, chunk), p, bytes)
    ensures Read(Append(d, i, chunk), p) == Read(d, p)
  {
    assert PathWf(d, p);
  }

  lemma RenameBetween(was: Disk, d: Disk, s: Path, p: Path, bytes: Bytes)
    requires Between(was, d, p, bytes) && s != p && !Over(s, p) && s != [] && p != []
    requires At(d, s).Regular? && At(d, s).inode in d.firm && At(d, s).inode in d.data
    requires d.data[At(d, s).inode] == bytes
    ensures Between(was, Rename(d, s, p), p, bytes)
    ensures Read(Rename(d, s, p), p) == Some(bytes)
  {
  }

  lemma UnlinkBetween(was: Disk, d: Disk, x: Path, p: Path, bytes: Bytes)
    requires Between(was, d, p, bytes) && x != p && !Over(x, p) && x != []
    ensures Between(was, Unlink(d, x), p, bytes)
    ensures Read(Unlink(d, x), p) == Read(d, p)
  {
  }

  lemma RenameElsewhere(was: Disk, d: Disk, s: Path, t: Path, p: Path, bytes: Bytes)
    requires Between(was, d, p, bytes) && s != p && t != p && !Over(s, p) && !Over(t, p) && s != [] && t != []
    ensures Between(was, Rename(d, s, t), p, bytes)
    ensures Read(Rename(d, s, t), p) == Read(d, p)
  {
  }

  /** What is not a directory stands over nothing that could be there. */
  lemma StandsOverNothing(d: Disk, s: Path, p: Path)
    requires Wf(d) && p != [] && At(d, s) != Directory && At(d, Parent(p)) == Directory
    ensures !Over(s, p)
  {
    if Over(s, p) && s != Parent(p) {
      assert Parent(p)[..|s|] == s;
      NothingBelow(d, Parent(p), |s|);
    }
  }

  lemma ParentsOfDirectories(d: Disk, p: Path)
    requires Wf(d) && At(d, p) == Directory
    ensures !Blocked(d, p) && forall q: Path :: Upto(q, p) ==> At(d, q) == Directory
  {
    forall q: Path | Over(q, p) ensures At(d, q) == Directory {
      if At(d, q) != Directory {
        NothingBelow(d, p, |q|);
      }
    }
  }

  /** The first n levels of the path are directories: as they were, or new and firm. The rest is as it was. */
  ghost predicate Made(was: Disk, d: Disk, path: Path, n: int) {
    (forall q: Path :: Upto(q, path) && |q| <= n ==>
      At(d, q) == Directory && May(d, q) == if At(was, q) == Directory then May(was, q) else {Directory}) &&
    (forall q: Path :: Upto(q, path) && |q| <= n ==> At(was, q) in {Absent, Directory}) &&
    (forall q: Path :: Upto(q, path) && |q| > n ==> At(d, q) == At(was, q))
  }

  ghost predicate Levels(d: Disk, path: Path, missing: seq<Path>) {
    |missing| <= |path| && Made(d, d, path, |path| - |missing|) &&
    forall j :: 0 <= j < |missing| ==> missing[j] == path[..|path| - j] && At(d, missing[j]) != Directory
  }

  lemma MadeAlready(d: Disk, path: Path, q: Path)
    requires Wf(d) && Upto(q, path) && At(d, q) == Directory
    ensures Made(d, d, path, |q|)
  {
    ParentsOfDirectories(d, q);
    forall x: Path | Upto(x, path) && |x| <= |q| ensures At(d, x) == Directory {
      assert Upto(x, q);
    }
  }

  lemma NextLevel(was: Disk, d: Disk, path: Path, missing: seq<Path>, left: nat)
    requires Levels(was, path, missing) && left < |missing| && Made(was, d, path, |path| - left - 1)
    ensures Upto(missing[left], path) && missing[left] != [] && |missing[left]| == |path| - left
    ensures At(d, missing[left]) == At(was, missing[left]) != Directory
    ensures At(d, Parent(missing[left])) == Directory
  {
    assert Upto(Parent(missing[left]), path);
  }

  lemma MadeOneMore(was: Disk, d: Disk, d': Disk, path: Path, n: nat)
    requires 1 <= n <= |path| && Made(was, d, path, n - 1) && At(d, path[..n]) == Absent
    requires At(d', path[..n]) == Directory && May(d', path[..n]) == {Directory}
    requires forall q: Path :: q != path[..n] ==> At(d', q) == At(d, q)
    requires forall q: Path :: q != [] && |q| != n ==> May(d', q) == May(d, q)
    ensures Made(was, d', path, n)
  {
    assert Upto(path[..n], path);
    assert At(was, path[..n]) == Absent;
  }

  /** The directory q shares its parent with a level of the path that was missing: making that level syncs q too. */
  predicate Beside(d: Disk, path: Path, q: Path, n: int) {
    q != [] && |q| <= n && |q| <= |path| && At(d, path[..|q|]) != Directory && Parent(q) == path[..|q| - 1]
  }

  /** Of the directories there were, those beside a level made are firm now, and no others were touched. */
  ghost predicate SyncedBeside(was: Disk, d: Disk, path: Path, n: int) {
    forall q: Path :: At(was, q) == Directory ==>
      May(d, q) == if Beside(was, path, q, n) then {Directory} else May(was, q)
  }

  lemma NothingBeside(d: Disk, path: Path, n: nat)
    requires Made(d, d, path, n)
    ensures SyncedBeside(d, d, path, n)
  {
    forall q: Path ensures !Beside(d, path, q, n) {
      if q != [] && |q| <= n && |q| <= |path| {
        assert Upto(path[..|q|], path);
      }
    }
  }

  lemma LevelsStart(d: Disk, path: Path, missing: seq<Path>)
    requires Levels(d, path, missing)
    ensures |missing| <= |path| && Made(d, d, path, |path| - |missing|) && SyncedBeside(d, d, path, |path| - |missing|)
  {
    NothingBeside(d, path, |path| - |missing|);
  }

  /** Every directory in `parent` is firm, and nothing else about directories changed. */
  ghost predicate SyncedIn(d: Disk, d': Disk, parent: Path) {
    forall q: Path :: q != [] && At(d, q) == Directory ==>
      May(d', q) == if Parent(q) == parent then {Directory} else May(d, q)
  }

  lemma MakingSyncs(d: Disk, x: Path)
    requires Wf(d) && x != [] && At(d, x) == Absent && At(d, Parent(x)) == Directory
    ensures SyncedIn(d, SyncDir(Mkdir(d, x), Parent(x)), Parent(x))
  {
    var made := Mkdir(d, x);
    MkdirWf(d, x);
    SyncDirWf(made, Parent(x));
    forall q: Path | q != [] && At(d, q) == Directory
      ensures May(SyncDir(made, Parent(x)), q) == if Parent(q) == Parent(x) then {Directory} else May(d, q)
    {
      assert PathWf(d, q);
      assert q in d.maybe;
    }
  }

  lemma BesideOneMore(was: Disk, d: Disk, d': Disk, path: Path, n: nat)
    requires 1 <= n <= |path| && SyncedBeside(was, d, path, n - 1) && At(was, path[..n]) != Directory
    requires Grown(was, d, path)
    requires SyncedIn(d, d', path[..n - 1])
    ensures SyncedBeside(was, d', path, n)
  {
    forall q: Path | At(was, q) == Directory
      ensures May(d', q) == if Beside(was, path, q, n) then {Directory} else May(was, q)
    {
      assert GrownAt(was, d, path, q);
      if q != [] && Parent(q) == path[..n - 1] {
        assert |q| == n;
      }
    }
  }

  /** One level made: mkdir, then the sync of the directory that now holds it. */
  ghost predicate LevelMade(d: Disk, d': Disk, x: Path)
    requires x != []
  {
    At(d', x) == Directory && May(d', x) == {Directory} && (forall q: Path :: q != x ==> At(d', q) == At(d, q)) &&
    (forall q: Path :: q != [] && |q| != |x| ==> May(d', q) == May(d, q)) && SyncedIn(d, d', Parent(x))
  }

  lemma OneMoreLevel(was: Disk, d: Disk, d': Disk, path: Path, missing: seq<Path>, left: nat)
    requires Levels(was, path, missing) && left < |missing| && Grown(was, d, path) && missing[left] != []
    requires LevelMade(d, d', missing[left])
    requires Made(was, d, path, |path| - left - 1) && SyncedBeside(was, d, path, |path| - left - 1)
    requires At(d, missing[left]) == Absent
    ensures Made(was, d', path, |path| - left) && SyncedBeside(was, d', path, |path| - left)
  {
    hide Made, SyncedBeside, Grown, SyncedIn;
    assert Parent(missing[left]) == path[..|path| - left - 1];
    MadeOneMore(was, d, d', path, |path| - left);
    BesideOneMore(was, d, d', path, |path| - left);
  }

  lemma NotBlocked(was: Disk, d: Disk, path: Path)
    requires Made(was, d, path, |path|)
    ensures !Blocked(was, path)
  {
  }

  // ------------------------------------------------------------------ points in a run

  /** A point at which power can fail: reading p shows the old file or the new, now and after any cut. */
  ghost predicate Point(was: Disk, d: Disk, p: Path, bytes: Bytes) {
    Wf(d) && Between(was, d, p, bytes) && (Read(d, p) == Read(was, p) || Read(d, p) == Some(bytes))
  }

  ghost predicate Points(was: Disk, trail: seq<Disk>, from: nat, watch: set<Path>, bytes: Bytes) {
    forall k, p :: from <= k < |trail| && p in watch ==> Point(was, trail[k], p, bytes)
  }

  ghost predicate Housed(d: Disk, staging: Path, watch: set<Path>) {
    forall p :: p in watch ==> p != [] && p != staging && At(d, Parent(p)) == Directory
  }

  /** Every watched path has its directory, and nothing it may name is what `staging` names. */
  ghost predicate Clear(was: Disk, d: Disk, staging: Path, watch: set<Path>) {
    staging != [] && Housed(d, staging, watch) &&
    (At(d, staging).Regular? ==> forall p :: p in watch ==> Strange(was, d, p, At(d, staging).inode))
  }

  ghost predicate AllPoint(was: Disk, d: Disk, watch: set<Path>, bytes: Bytes) {
    forall p :: p in watch ==> Point(was, d, p, bytes)
  }

  /** From d to d' only `staging` changed, and it is a file nothing watched may name. */
  ghost predicate OnlyStaged(was: Disk, d: Disk, d': Disk, staging: Path, watch: set<Path>) {
    (forall q: Path :: q != staging ==> At(d', q) == At(d, q) && May(d', q) == May(d, q)) &&
    At(d', staging).Regular? && At(d', staging).inode in d'.data
    && (forall p :: p in watch ==> Strange(was, d', p, At(d', staging).inode))
  }

  lemma OpenPoints(was: Disk, d: Disk, staging: Path, watch: set<Path>, bytes: Bytes)
    requires Wf(was) && Wf(d) && At(d, staging) != Directory && Clear(was, d, staging, watch)
    requires AllPoint(was, d, watch, bytes)
    requires At(d, Parent(staging)) == Directory
    ensures AllPoint(was, Open(d, staging), watch, bytes) && OnlyStaged(was, d, Open(d, staging), staging, watch)
    ensures Wf(Open(d, staging))
  {
    OpenWf(d, staging);
    assert PathWf(d, staging);
    forall p | p in watch
      ensures Point(was, Open(d, staging), p, bytes) && Strange(was, Open(d, staging), p, At(Open(d, staging), staging).inode)
    {
      assert Point(was, d, p, bytes);
      StandsOverNothing(d, staging, p);
      OpenBetween(was, d, staging, p, bytes);
    }
  }

  lemma AppendPoints(was: Disk, first: Disk, d: Disk, staging: Path, chunk: Bytes, watch: set<Path>, bytes: Bytes)
    requires Wf(d) && OnlyStaged(was, first, d, staging, watch) && AllPoint(was, d, watch, bytes)
    ensures var d' := Append(d, At(d, staging).inode, chunk);
            Wf(d') && AllPoint(was, d', watch, bytes) && OnlyStaged(was, first, d', staging, watch)
  {
    var i := At(d, staging).inode;
    var d' := Append(d, i, chunk);
    forall x: Path ensures PathWf(d', x) {
      assert PathWf(d, x);
    }
    forall p | p in watch ensures Point(was, d', p, bytes) {
      assert Point(was, d, p, bytes) && Strange(was, d, p, i);
      AppendBetween(was, d, i, chunk, p, bytes);
    }
  }

  lemma SyncFilePoints(was: Disk, first: Disk, d: Disk, staging: Path, watch: set<Path>, bytes: Bytes)
    requires Wf(d) && OnlyStaged(was, first, d, staging, watch) && AllPoint(was, d, watch, bytes)
    ensures var d' := SyncFile(d, At(d, staging).inode);
            Wf(d') && AllPoint(was, d', watch, bytes) && OnlyStaged(was, first, d', staging, watch)
  {
    var i := At(d, staging).inode;
    var d' := SyncFile(d, i);
    assert PathWf(d, staging);
    forall x: Path ensures PathWf(d', x) {
      assert PathWf(d, x);
    }
    forall p | p in watch ensures Point(was, d', p, bytes) {
      assert Point(was, d, p, bytes);
    }
  }

  lemma RenamePoints(was: Disk, d: Disk, s: Path, t: Path, watch: set<Path>, bytes: Bytes)
    requires Wf(d) && s != [] && t != [] && s != t && AllPoint(was, d, watch, bytes) && Housed(d, s, watch)
    requires At(d, s).Regular? && At(d, s).inode in d.firm && Read(d, s) == Some(bytes) && At(d, t) != Directory
    requires At(d, Parent(t)) == Directory
    ensures Wf(Rename(d, s, t)) && AllPoint(was, Rename(d, s, t), watch, bytes)
  {
    RenameWf(d, s, t);
    forall p | p in watch ensures Point(was, Rename(d, s, t), p, bytes) {
      assert Point(was, d, p, bytes);
      StandsOverNothing(d, s, p);
      StandsOverNothing(d, t, p);
      if p == t {
        RenameBetween(was, d, s, p, bytes);
      } else {
        RenameElsewhere(was, d, s, t, p, bytes);
      }
    }
  }

  lemma SyncDirPoints(was: Disk, d: Disk, x: Path, watch: set<Path>, bytes: Bytes)
    requires Wf(d) && AllPoint(was, d, watch, bytes)
    ensures Wf(SyncDir(d, x)) && AllPoint(was, SyncDir(d, x), watch, bytes)
  {
    SyncDirWf(d, x);
    forall p | p in watch ensures Point(was, SyncDir(d, x), p, bytes) {
      assert Point(was, d, p, bytes);
      SyncDirBetween(was, d, x, p, bytes);
    }
  }

  lemma GrownPoints(was: Disk, d: Disk, d': Disk, path: Path, watch: set<Path>, bytes: Bytes)
    requires Wf(d') && Grown(d, d', path) && AllPoint(was, d, watch, bytes) && forall p :: p in watch ==> !Upto(p, path)
    ensures AllPoint(was, d', watch, bytes) && forall p :: p in watch ==> Read(d', p) == Read(d, p)
  {
    forall p | p in watch ensures Point(was, d', p, bytes) && Read(d', p) == Read(d, p) {
      assert Point(was, d, p, bytes);
      GrownBetween(was, d, d', path, p, bytes);
    }
  }

  /** Renamed onto `t` and nothing else: the entry holds the new bytes for good once its directory is synced. */
  ghost predicate Committed(d: Disk, d': Disk, s: Path, t: Path) {
    At(d', s) == Absent && At(d', t) == At(d, s) && forall q: Path :: q != s && q != t ==> At(d', q) == At(d, q)
  }

  lemma RenameCommits(d: Disk, s: Path, t: Path)
    requires Wf(d) && s != [] && t != [] && s != t && At(d, s).Regular? && At(d, Parent(t)) == Directory
    requires At(d, t) != Directory
    ensures var d' := SyncDir(Rename(d, s, t), Parent(t));
            Committed(d, Rename(d, s, t), s, t) && Committed(d, d', s, t) && May(d', t) == {At(d, s)}
    ensures forall q: Path :: Over(q, t) ==> May(SyncDir(Rename(d, s, t), Parent(t)), q) == May(d, q)
  {
    hide Wf, SyncDir, Over, May;
    StandsOverNothing(d, s, t);
    RenameWf(d, s, t);
    SyncDirWf(Rename(d, s, t), Parent(t));
    var d' := SyncDir(Rename(d, s, t), Parent(t));
    forall q: Path | Over(q, t) ensures May(d', q) == May(d, q) {
      RenamedAbove(d, s, t, q);
    }
    assert t in Rename(d, s, t).maybe;
  }

  lemma RenamedAbove(d: Disk, s: Path, t: Path, q: Path)
    requires Over(q, t) && !Over(s, t) && s != t && s != []
    ensures May(Rename(d, s, t), q) == May(d, q) && (q != [] ==> Parent(q) != Parent(t))
  {
  }

  // ------------------------------------------------------------------ what stops a write, and what makes it last

  /** Nothing is in the way of writing `destination` by way of `staging`. */
  ghost predicate Unobstructed(d: Disk, staging: Path, destination: Path)
    requires staging != [] && destination != []
  {
    !Blocked(d, Parent(staging)) && !Blocked(d, Parent(destination)) && At(d, staging) != Directory
    && At(d, destination) != Directory
    && !Over(staging, destination)
  }

  lemma GrownBlocked(d: Disk, d': Disk, path: Path, p: Path)
    requires Grown(d, d', path)
    ensures Blocked(d', p) <==> Blocked(d, p)
  {
    forall q: Path ensures At(d', q).Regular? <==> At(d, q).Regular? {
      assert GrownAt(d, d', path, q);
    }
  }

  lemma UptoParent(q: Path, p: Path)
    requires p != []
    ensures Upto(q, Parent(p)) <==> Over(q, p)
  {
    assert |q| < |p| ==> Parent(p)[..|q|] == p[..|q|];
  }

  /** After both directories are made, what stands where. */
  lemma DirectoriesMade(was: Disk, d1: Disk, d2: Disk, staging: Path, destination: Path)
    requires staging != [] && destination != [] && staging != destination && !Over(destination, staging)
    requires Grown(was, d1, Parent(staging)) && Made(was, d1, Parent(staging), |staging| - 1)
    requires Grown(d1, d2, Parent(destination)) && Made(d1, d2, Parent(destination), |destination| - 1)
    ensures At(d2, destination) == At(was, destination) && May(d2, destination) <= May(was, destination)
    ensures At(d2, staging) == Directory <==> At(was, staging) == Directory || Over(staging, destination)
    ensures At(d2, staging).Regular? ==> At(d2, staging) == At(was, staging)
    ensures At(d2, Parent(staging)) == Directory && At(d2, Parent(destination)) == Directory
  {
    UptoParent(destination, staging);
    UptoParent(staging, destination);
    assert GrownAt(was, d1, Parent(staging), destination) && GrownAt(d1, d2, Parent(destination), destination);
    assert GrownAt(was, d1, Parent(staging), staging) && GrownAt(d1, d2, Parent(destination), staging);
    assert Upto(Parent(staging), Parent(staging)) && Upto(Parent(destination), Parent(destination));
    assert GrownAt(d1, d2, Parent(destination), Parent(staging));
    if Over(staging, destination) {
      assert Upto(staging, Parent(destination));
    }
  }

  /**
   Every existing directory on the way is firm already, or is synced along with a level the staging directory lacks.
  */
  ghost predicate ChainLasts(d: Disk, staging: Path, destination: Path)
    requires staging != []
  {
    forall q: Path :: Over(q, destination) && At(d, q) == Directory ==>
      May(d, q) == {Directory} || Beside(d, Parent(staging), q, |staging| - 1)
  }

  lemma FirmLasts(d: Disk, staging: Path, destination: Path)
    requires staging != [] && ChainFirm(d, destination)
    ensures ChainLasts(d, staging, destination)
  {
  }

  /** With the staging directory in place nothing else is synced on the way. */
  lemma LastsIsFirm(d: Disk, staging: Path, destination: Path)
    requires Wf(d) && staging != [] && At(d, Parent(staging)) == Directory && ChainLasts(d, staging, destination)
    ensures ChainFirm(d, destination)
  {
    ParentsOfDirectories(d, Parent(staging));
    forall q: Path | Over(q, destination) && At(d, q) == Directory ensures May(d, q) == {Directory} {
      assert |q| < |staging| ==> Upto(Parent(staging)[..|q|], Parent(staging));
    }
  }

  /**
   After both directories are made, the way to the destination is firm in every level exactly if the way there was
   lasts.
  */
  lemma ChainExactly(was: Disk, d1: Disk, d2: Disk, staging: Path, destination: Path)
    requires staging != [] && destination != [] && Prepared(was, d1, d2, staging, destination)
    ensures (forall q: Path :: Over(q, destination) ==> May(d2, q) == {Directory}) <==>
      ChainLasts(was, staging, destination)
  {
    hide Beside, Wf;
    forall q: Path | Over(q, destination)
      ensures May(d2, q) == if At(was, q) == Directory && !Beside(was, Parent(staging), q, |staging| - 1) then May(was, q) else {Directory}
    {
      UptoParent(q, destination);
      assert Upto(q, Parent(destination)) && GrownAt(was, d1, Parent(staging), q);
    }
  }

  /** Committed files survive exactly when everything above them does. */
  lemma CommittedSurvives(d: Disk, p: Path, bytes: Bytes)
    requires Wf(d) && p != [] && At(d, p).Regular? && May(d, p) == {At(d, p)} && At(d, p).inode in d.firm
    requires Read(d, p) == Some(bytes)
    ensures Survives(d, p, bytes) <==> forall q: Path :: Over(q, p) ==> May(d, q) == {Directory}
  {
    SurvivesExactly(d, p, bytes);
  }

  ghost predicate Prepared(was: Disk, made: Disk, d: Disk, staging: Path, destination: Path)
    requires staging != [] && destination != []
  {
    Wf(made) && Grown(was, made, Parent(staging)) && Made(was, made, Parent(staging), |staging| - 1)
    && SyncedBeside(was, made, Parent(staging), |staging| - 1)
    && Grown(made, d, Parent(destination)) && Made(made, d, Parent(destination), |destination| - 1)
  }

  lemma PointSelf(d: Disk, p: Path, bytes: Bytes)
    requires Wf(d)
    ensures Point(d, d, p, bytes)
  {
  }

  lemma NotOver(p: Path)
    ensures !Over(p, p)
  {
  }

  /** Reading p shows the old file or the new one, whether the process dies here or the power does. */
  ghost predicate OldOrNewSeen(was: Disk, d: Disk, p: Path, bytes: Bytes) {
    Wf(d) && OldOrNew(was, d, p, bytes) && (Read(d, p) == Read(was, p) || Read(d, p) == Some(bytes))
  }

  lemma PointsAreOldOrNew(was: Disk, trail: seq<Disk>, from: nat, p: Path, bytes: Bytes)
    requires Wf(was) && p != [] && Points(was, trail, from, {p}, bytes)
    ensures forall k :: from <= k < |trail| ==> OldOrNewSeen(was, trail[k], p, bytes)
  {
    forall k | from <= k < |trail| ensures OldOrNewSeen(was, trail[k], p, bytes) {
      assert Point(was, trail[k], p, bytes);
      BetweenIsOldOrNew(was, trail[k], p, bytes);
    }
  }

  lemma GrownTrail(was: Disk, d: Disk, trail: seq<Disk>, from: nat, path: Path, watch: set<Path>, bytes: Bytes)
    requires AllPoint(was, d, watch, bytes) && forall p :: p in watch ==> !Upto(p, path)
    requires forall k :: from <= k < |trail| ==> Wf(trail[k]) && Grown(d, trail[k], path)
    ensures Points(was, trail, from, watch, bytes)
  {
    forall k, p | from <= k < |trail| && p in watch ensures Point(was, trail[k], p, bytes) {
      GrownPoints(was, d, trail[k], path, watch, bytes);
    }
  }

  /** A process killed between mkdir and fsync leaves a level that later writes take as they find it. */
  lemma KilledMkdirStaysLoose(d: Disk, x: Path, staging: Path, destination: Path)
    requires x != [] && Over(x, destination) && At(d, x) == Absent && At(d, Parent(x)) == Directory && Wf(d)
    requires staging != [] && At(d, Parent(staging)) == Directory
    ensures !ChainLasts(Mkdir(d, x), staging, destination)
  {
    MkdirWf(d, x);
    assert PathWf(d, x);
    assert Absent in May(Mkdir(d, x), x);
    if ChainLasts(Mkdir(d, x), staging, destination) {
      LastsIsFirm(Mkdir(d, x), staging, destination);
    }
  }

  lemma MkdirUnobstructed(d: Disk, x: Path, staging: Path, destination: Path)
    requires Wf(d) && x != [] && Over(x, destination) && At(d, x) == Absent && staging != [] && destination != []
    requires staging != x
    requires Unobstructed(d, staging, destination)
    ensures Unobstructed(Mkdir(d, x), staging, destination)
    ensures At(Mkdir(d, x), staging) == At(d, staging) && May(Mkdir(d, x), destination) == May(d, destination)
  {
    NotOver(destination);
    forall q: Path ensures At(Mkdir(d, x), q).Regular? <==> At(d, q).Regular? {
    }
  }

  // ------------------------------------------------------------------ moving between filesystems

  /** Nothing changed but directories appearing above the two paths. */
  ghost predicate SproutedAt(d: Disk, d': Disk, s: Path, t: Path, q: Path) {
    (At(d', q) == At(d, q) || (At(d, q) == Absent && At(d', q) == Directory && (Over(q, s) || Over(q, t)))) &&
    forall e :: e in May(d', q) ==> e in May(d, q) || e == Directory
  }

  ghost predicate Sprouted(d: Disk, d': Disk, s: Path, t: Path) {
    Wf(d') && d'.data == d.data && forall q: Path :: SproutedAt(d, d', s, t, q)
  }

  lemma GrownSprouts(d: Disk, d1: Disk, d': Disk, path: Path, s: Path, t: Path)
    requires Sprouted(d, d1, s, t) && Grown(d1, d', path) && Wf(d') && s != [] && t != []
    requires path in {Parent(s), Parent(t)}
    ensures Sprouted(d, d', s, t)
  {
    forall q: Path ensures SproutedAt(d, d', s, t, q) {
      assert SproutedAt(d, d1, s, t, q) && GrownAt(d1, d', path, q);
      UptoParent(q, s);
      UptoParent(q, t);
    }
  }

  lemma SproutedSelf(d: Disk, s: Path, t: Path)
    requires Wf(d)
    ensures Sprouted(d, d, s, t)
  {
  }

  lemma SproutedTrail(was: Disk, d: Disk, trail: seq<Disk>, from: nat, path: Path, s: Path, t: Path)
    requires Sprouted(was, d, s, t) && s != [] && t != [] && path in {Parent(s), Parent(t)}
    requires forall k :: from <= k < |trail| ==> Wf(trail[k]) && Grown(d, trail[k], path)
    ensures forall k :: from <= k < |trail| ==> Sprouted(was, trail[k], s, t)
  {
    forall k | from <= k < |trail| ensures Sprouted(was, trail[k], s, t) {
      GrownSprouts(was, d, trail[k], path, s, t);
    }
  }

  /**
   A move that can go through: the source is a file, nothing is in the way, and staging is no second name for either.
  */
  ghost predicate Movable(d: Disk, source: Path, destination: Path, staging: Path)
    requires staging != [] && destination != []
  {
    At(d, source).Regular? && Unobstructed(d, staging, destination) &&
    (At(d, staging).Regular? ==> At(d, staging) !in May(d, source) && At(d, staging) !in May(d, destination))
  }

  lemma SproutedMovable(d: Disk, d': Disk, source: Path, destination: Path, staging: Path)
    requires staging != [] && destination != [] && !Over(destination, staging) && destination != staging
    requires Movable(d, source, destination, staging) && Sprouted(d, d', staging, destination)
    ensures Movable(d', source, destination, staging)
  {
    forall q: Path ensures At(d', q).Regular? <==> At(d, q).Regular? {
      assert SproutedAt(d, d', staging, destination, q);
    }
    assert SproutedAt(d, d', staging, destination, source) && SproutedAt(d, d', staging, destination, destination);
    assert SproutedAt(d, d', staging, destination, staging);
  }

  lemma StagedMovable(was: Disk, d: Disk, d': Disk, source: Path, destination: Path, staging: Path)
    requires staging != [] && destination != [] && destination != staging && source != staging
    requires Movable(d, source, destination, staging) && OnlyStaged(was, d, d', staging, {source, destination})
    ensures Movable(d', source, destination, staging)
  {
    UnblockedStill(d, d', Parent(staging), staging);
    UptoParent(staging, staging);
    UptoParent(staging, destination);
    UnblockedStill(d, d', Parent(destination), staging);
    assert Strange(was, d', source, At(d', staging).inode) && Strange(was, d', destination, At(d', staging).inode);
  }

  lemma UnblockedStill(d: Disk, d': Disk, p: Path, s: Path)
    requires !Blocked(d, p) && !Upto(s, p) && forall q: Path :: q != s ==> At(d', q) == At(d, q) || !At(d', q).Regular?
    ensures !Blocked(d', p)
  {
    forall q: Path | Upto(q, p) ensures !At(d', q).Regular? {
    }
  }

  lemma CommittedMovable(d: Disk, d': Disk, source: Path, destination: Path, staging: Path)
    requires staging != [] && destination != [] && destination != staging && source != staging && source != destination
    requires !Over(destination, staging) && Movable(d, source, destination, staging)
    requires Committed(d, d', staging, destination) && At(d, staging).Regular?
    ensures Movable(d', source, destination, staging)
  {
    UptoParent(destination, staging);
    UptoParent(destination, destination);
    UnblockedStill(d, d', Parent(staging), destination);
    UnblockedStill(d, d', Parent(destination), destination);
  }

  /** The old bytes are at one place or the other, and no cut loses both. */
  ghost predicate NeitherLost(d: Disk, source: Path, destination: Path, bytes: Bytes) {
    forall after :: Cut(d, after) ==> Read(after, source) == Some(bytes) || Read(after, destination) == Some(bytes)
  }

  lemma BetweenDurable(was: Disk, d: Disk, p: Path, bytes: Bytes)
    requires Point(was, d, p, bytes) && Durable(was, p, bytes)
    ensures Durable(d, p, bytes)
  {
    forall q: Path | Over(q, p) ensures May(d, q) == {Directory} {
      assert PathWf(d, q);
    }
  }

  lemma SourceHolds(was: Disk, trail: seq<Disk>, from: nat, source: Path, destination: Path, bytes: Bytes)
    requires source != [] && Points(was, trail, from, {source, destination}, bytes) && Durable(was, source, bytes)
    ensures forall k :: from <= k < |trail| ==> NeitherLost(trail[k], source, destination, bytes)
  {
    forall k | from <= k < |trail| ensures NeitherLost(trail[k], source, destination, bytes) {
      assert Point(was, trail[k], source, bytes);
      BetweenDurable(was, trail[k], source, bytes);
      DurableSurvives(trail[k], source, bytes);
    }
  }

  /**
   Finishing early trusts what is there: a power cut can then lose both copies exactly when the one found was not
   durable.
  */
  lemma ShortcutLosesExactly(d: Disk, source: Path, destination: Path, bytes: Bytes)
    requires Wf(d) && source != [] && destination != [] && source != destination && At(d, source).Regular?
    ensures NeitherLost(Unlink(d, source), source, destination, bytes) <==>
      Durable(Unlink(d, source), destination, bytes)
  {
    var d' := Unlink(d, source);
    UnlinkWf(d, source);
    SurvivesExactly(d', destination, bytes);
    if !Survives(d', destination, bytes) {
      var after :| Cut(d', after) && Read(after, destination) != Some(bytes);
      assert PathWf(d', source);
      WithoutSource(d', after, source, destination, bytes);
    }
  }

  lemma WithoutSource(d: Disk, after: Disk, source: Path, destination: Path, bytes: Bytes)
    requires PathWf(d, source) && Cut(d, after) && source != [] && source != destination && At(d, source) == Absent
    requires Read(after, destination) != Some(bytes)
    ensures !NeitherLost(d, source, destination, bytes)
  {
    hide PathWf, Cut;
    var less := after.(entry := after.entry[source := Absent], maybe := after.maybe[source := {Absent}]);
    CutWithout(d, after, less, source);
    assert Cut(d, less) && Read(less, source) == None && Read(less, destination) == Read(after, destination);
  }

  /** A power cut that kept the source may as well have lost it, once it was unlinked. */
  lemma CutWithout(d: Disk, after: Disk, less: Disk, source: Path)
    requires PathWf(d, source) && Cut(d, after) && source != [] && At(d, source) == Absent
    requires less == after.(entry := after.entry[source := Absent], maybe := after.maybe[source := {Absent}])
    ensures Cut(d, less)
  {
    assert At(after, source) != Directory && Absent in May(d, source) by {
      assert At(after, source) in May(d, source) || At(after, source) == Absent;
    }
    hide PathWf;
    forall p: Path | p != []
      ensures if At(less, Parent(p)) == Directory then At(less, p) in May(d, p) else At(less, p) == Absent
    {
      assert At(less, Parent(p)) == Directory <==> At(after, Parent(p)) == Directory;
    }
    forall p: Path ensures May(less, p) == {At(less, p)} {
      assert May(after, p) == {At(after, p)};
    }
  }

  lemma SproutedSource(d: Disk, d': Disk, source: Path, s: Path, t: Path)
    requires Sprouted(d, d', s, t) && At(d, source).Regular?
    ensures At(d', source) == At(d, source)
  {
    assert SproutedAt(d, d', s, t, source);
  }

  lemma SproutedMovables(was: Disk, trail: seq<Disk>, from: nat, source: Path, destination: Path, staging: Path)
    requires staging != [] && destination != [] && !Over(destination, staging) && destination != staging
    requires forall k :: from <= k < |trail| ==> Sprouted(was, trail[k], staging, destination)
    ensures Movable(was, source, destination, staging) ==>
      forall k :: from <= k < |trail| ==> Movable(trail[k], source, destination, staging)
  {
    if Movable(was, source, destination, staging) {
      forall k | from <= k < |trail| ensures Movable(trail[k], source, destination, staging) {
        SproutedMovable(was, trail[k], source, destination, staging);
      }
    }
  }

  lemma StagedMovables(was: Disk, d: Disk, trail: seq<Disk>, from: nat, source: Path, destination: Path, staging: Path)
    requires staging != [] && destination != [] && destination != staging && source != staging
    requires forall k :: from <= k < |trail| ==> OnlyStaged(was, d, trail[k], staging, {source, destination})
    ensures Movable(d, source, destination, staging) ==>
      forall k :: from <= k < |trail| ==> Movable(trail[k], source, destination, staging)
  {
    if Movable(d, source, destination, staging) {
      forall k | from <= k < |trail| ensures Movable(trail[k], source, destination, staging) {
        StagedMovable(was, d, trail[k], source, destination, staging);
      }
    }
  }

  lemma CommittedMovables(d: Disk, trail: seq<Disk>, from: nat, source: Path, destination: Path, staging: Path)
    requires staging != [] && destination != [] && destination != staging && source != staging && source != destination
    requires !Over(destination, staging) && At(d, staging).Regular?
    requires forall k :: from <= k < |trail| ==> Committed(d, trail[k], staging, destination)
    ensures Movable(d, source, destination, staging) ==>
      forall k :: from <= k < |trail| ==> Movable(trail[k], source, destination, staging)
  {
    if Movable(d, source, destination, staging) {
      forall k | from <= k < |trail| ensures Movable(trail[k], source, destination, staging) {
        CommittedMovable(d, trail[k], source, destination, staging);
      }
    }
  }

  lemma UnstagedMovable(was: Disk, first: Disk, d: Disk, source: Path, destination: Path, staging: Path)
    requires staging != [] && destination != [] && destination != staging && source != staging
    requires OnlyStaged(was, first, d, staging, {source, destination})
    ensures Movable(first, source, destination, staging) ==> Movable(Unlink(d, staging), source, destination, staging)
  {
    if Movable(first, source, destination, staging) {
      StagedMovable(was, first, d, source, destination, staging);
      UnblockedStill(d, Unlink(d, staging), Parent(staging), staging);
      UnblockedStill(d, Unlink(d, staging), Parent(destination), staging);
    }
  }

  lemma UnlinkPoints(was: Disk, d: Disk, x: Path, watch: set<Path>, bytes: Bytes)
    requires Wf(d) && x != [] && At(d, x).Regular? && AllPoint(was, d, watch, bytes) && Housed(d, x, watch)
    ensures Wf(Unlink(d, x)) && AllPoint(was, Unlink(d, x), watch, bytes)
  {
    UnlinkWf(d, x);
    forall p | p in watch ensures Point(was, Unlink(d, x), p, bytes) {
      assert Point(was, d, p, bytes);
      StandsOverNothing(d, x, p);
      UnlinkBetween(was, d, x, p, bytes);
    }
  }

  lemma ClearForMove(was: Disk, d: Disk, source: Path, destination: Path, staging: Path)
    requires Sprouted(was, d, staging, destination) && source != [] && destination != [] && staging != []
    requires source != staging && destination != staging && At(d, source).Regular?
    requires At(d, Parent(destination)) == Directory
    requires At(was, staging).Regular? ==>
      At(was, staging) !in May(was, source) && At(was, staging) !in May(was, destination)
    ensures Clear(was, d, staging, {source, destination})
  {
    assert PathWf(d, source);
    assert SproutedAt(was, d, staging, destination, source) && SproutedAt(was, d, staging, destination, destination);
    assert SproutedAt(was, d, staging, destination, staging);
  }

  lemma SourceReads(d: Disk, p: Path)
    requires Wf(d)
    ensures Read(d, p).Some? <==> At(d, p).Regular?
  {
    assert PathWf(d, p);
  }

  lemma SourceStill(was: Disk, d: Disk, source: Path, watch: set<Path>, bytes: Bytes)
    requires AllPoint(was, d, watch, bytes) && source in watch && Read(was, source) == Some(bytes)
    ensures Read(d, source) == Some(bytes)
  {
    assert Point(was, d, source, bytes);
  }

  lemma ChainStays(was: Disk, made: Disk, ready: Disk, d: Disk, staging: Path, destination: Path, bytes: Bytes)
    requires Wf(was) && Wf(d) && staging != [] && destination != [] && Prepared(was, made, ready, staging, destination)
    requires forall q: Path :: Over(q, destination) ==> May(d, q) == May(ready, q)
    requires At(d, destination).Regular? && May(d, destination) == {At(d, destination)}
    requires At(d, destination).inode in d.firm && Read(d, destination) == Some(bytes)
    ensures Durable(d, destination, bytes) <==> ChainLasts(was, staging, destination)
  {
    hide Wf, Prepared, ChainLasts;
    ChainExactly(was, made, ready, staging, destination);
  }

  datatype MoveOutcome = Raised | Moved(copied: bool)

  /**
   When a move goes through: it was already done but for the last step, or nothing is in the way and the copy is whole.
  */
  ghost predicate Moves(d: Disk, source: Path, destination: Path, staging: Path, copied: seq<Bytes>)
    requires staging != [] && destination != []
  {
    Read(d, source).Some? &&
    (Read(d, destination) == Read(d, source) ||
      (Unobstructed(d, staging, destination) && Some(Flat(copied)) == Read(d, source)))
  }

  ghost predicate KeepsBytes(was: Disk, d: Disk, source: Path, destination: Path, bytes: Bytes) {
    (Read(d, source) == Some(bytes) || Read(d, destination) == Some(bytes)) && OldOrNewSeen(was, d, destination, bytes)
  }

  /** What a move needs to keep the bytes through a power cut: everything it trusts is durable. */
  ghost predicate CutProof(d: Disk, source: Path, destination: Path, bytes: Bytes) {
    Durable(d, source, bytes) && ChainFirm(d, destination)
    && (Read(d, destination) == Some(bytes) ==> Durable(d, destination, bytes))
  }

  lemma MoveKeeps(was: Disk, trail: seq<Disk>, from: nat, source: Path, destination: Path, bytes: Bytes)
    requires Wf(was) && source != [] && destination != [] && Read(was, source) == Some(bytes)
    requires Points(was, trail, from, {source, destination}, bytes)
    ensures forall k :: from <= k < |trail| ==> KeepsBytes(was, trail[k], source, destination, bytes)
    ensures Durable(was, source, bytes) ==>
      forall k :: from <= k < |trail| ==> NeitherLost(trail[k], source, destination, bytes)
  {
    hide Between, Durable, NeitherLost;
    forall k | from <= k < |trail| ensures KeepsBytes(was, trail[k], source, destination, bytes) {
      assert Point(was, trail[k], source, bytes) && Point(was, trail[k], destination, bytes);
      BetweenIsOldOrNew(was, trail[k], destination, bytes);
    }
    if Durable(was, source, bytes) {
      SourceHolds(was, trail, from, source, destination, bytes);
    }
  }

  /** Unlinking the source: the destination has it by now. */
  lemma LastStep(was: Disk, d: Disk, source: Path, destination: Path, bytes: Bytes)
    requires Wf(was) && Wf(d) && source != [] && destination != [] && source != destination
    requires !Over(source, destination)
    requires At(d, source).Regular? && Read(d, destination) == Some(bytes)
    requires d == was || Point(was, d, destination, bytes)
    ensures Wf(Unlink(d, source)) && KeepsBytes(was, Unlink(d, source), source, destination, bytes)
    ensures Read(Unlink(d, source), destination) == Some(bytes)
    ensures Durable(d, destination, bytes) ==> NeitherLost(Unlink(d, source), source, destination, bytes)
  {
    UnlinkWf(d, source);
    UnlinkBetween(was, d, source, destination, bytes);
    BetweenIsOldOrNew(was, Unlink(d, source), destination, bytes);
    if Durable(d, destination, bytes) {
      assert Durable(Unlink(d, source), destination, bytes);
      DurableSurvives(Unlink(d, source), destination, bytes);
    }
  }
}
