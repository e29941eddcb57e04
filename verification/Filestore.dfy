/** The write protocol of filestore.py: every step is one a power cut may follow. */
module Filestore {
  import opened Common
  import opened DiskModel
  import opened Durability
  import opened WriteSteps

  class FileSystem {
    var disk: Disk
    /** The disk after every step so far: the points at which power can fail. */
    ghost var trail: seq<Disk>

    /** The trail ends in the disk, and every disk on it is one system call after the one before. */
    ghost predicate Tracked()
      reads this
    {
      trail != [] && trail[|trail| - 1] == disk && forall k :: 0 < k < |trail| ==> Call(trail[k - 1], trail[k])
    }

    constructor ()
      ensures Tracked() && Wf(disk) && trail == [disk] && disk.entry == map[] && disk.maybe == map[]
    {
      disk := Disk(map[], map[], map[], {}, 0);
      trail := [Disk(map[], map[], map[], {}, 0)];
    }

    method Step(next: Disk)
      requires Tracked() && Call(disk, next)
      modifies this
      ensures Tracked() && disk == next && trail == old(trail) + [next]
    {
      hide Call;
      disk := next;
      trail := trail + [next];
    }

    // ---------------------------------------------------------------- system calls

    method MakeOne(path: Path)
      requires Tracked()
      modifies this
      ensures Tracked() && disk == Mkdir(old(disk), path) && trail == old(trail) + [disk]
    {
      Step(Mkdir(disk, path));
    }

    method SyncDirectory(path: Path)
      requires Tracked()
      modifies this
      ensures Tracked() && disk == SyncDir(old(disk), path) && trail == old(trail) + [disk]
    {
      Step(SyncDir(disk, path));
    }

    method OpenNew(path: Path)
      requires Tracked()
      modifies this
      ensures Tracked() && disk == Open(old(disk), path) && trail == old(trail) + [disk]
    {
      Step(Open(disk, path));
    }

    method Write(i: nat, chunk: Bytes)
      requires Tracked() && i in disk.data
      modifies this
      ensures Tracked() && disk == Append(old(disk), i, chunk) && trail == old(trail) + [disk]
    {
      Step(Append(disk, i, chunk));
    }

    method SyncBytes(i: nat)
      requires Tracked()
      modifies this
      ensures Tracked() && disk == SyncFile(old(disk), i) && trail == old(trail) + [disk]
    {
      Step(SyncFile(disk, i));
    }

    method Replace(source: Path, target: Path)
      requires Tracked()
      modifies this
      ensures Tracked() && disk == Rename(old(disk), source, target) && trail == old(trail) + [disk]
    {
      Step(Rename(disk, source, target));
    }

    method Remove(path: Path)
      requires Tracked()
      modifies this
      ensures Tracked() && disk == Unlink(old(disk), path) && trail == old(trail) + [disk]
    {
      Step(Unlink(disk, path));
    }

    // ---------------------------------------------------------------- writing

    /** Create a directory and sync every level created into its parent. False when a file is in the way. */
    method EnsureDirectory(path: Path) returns (ok: bool)
      requires Tracked()
      requires Wf(disk)
      modifies this
      ensures Tracked()
      ensures Wf(disk) && Grown(old(disk), disk, path) && old(trail) <= trail
      ensures forall k :: |old(trail)| <= k < |trail| ==> Wf(trail[k]) && Grown(old(disk), trail[k], path)
      ensures ok <==> !Blocked(old(disk), path)
      ensures ok ==> Made(old(disk), disk, path, |path|) && SyncedBeside(old(disk), disk, path, |path|)
      ensures At(old(disk), path) == Directory ==> disk == old(disk) && trail == old(trail)
    {
      hide Wf, Grown, PathWf, Blocked, Made, SyncedBeside, Call, Tracked;
      GrownSelf(disk, path);
      if At(disk, path) == Directory {
        ParentsOfDirectories(disk, path);
        MadeAlready(disk, path, path);
        NothingBeside(disk, path, |path|);
        return true;
      }
      var missing := Missing(path);
      ok := MakeAll(path, missing);
    }

    /** The levels that are not there, deepest first. */
    method Missing(path: Path) returns (missing: seq<Path>)
      requires Wf(disk)
      ensures Levels(disk, path, missing)
    {
      missing := [];
      var candidate := path;
      while At(disk, candidate) != Directory
        invariant |missing| + |candidate| == |path| && candidate == path[..|candidate|]
        invariant forall j :: 0 <= j < |missing| ==>
          missing[j] == path[..|path| - j] && At(disk, missing[j]) != Directory
        decreases |candidate|
      {
        missing := missing + [candidate];
        assert Parent(candidate) == path[..|candidate| - 1];
        candidate := Parent(candidate);
      }
      MadeAlready(disk, path, candidate);
    }

    /** Shallowest first, so each mkdir has a parent that exists. */
    method MakeAll(path: Path, missing: seq<Path>) returns (ok: bool)
      requires Tracked()
      requires Wf(disk) && Levels(disk, path, missing)
      modifies this
      ensures Tracked()
      ensures Wf(disk) && Grown(old(disk), disk, path) && old(trail) <= trail
      ensures forall k :: |old(trail)| <= k < |trail| ==> Wf(trail[k]) && Grown(old(disk), trail[k], path)
      ensures ok <==> !Blocked(old(disk), path)
      ensures ok ==> Made(old(disk), disk, path, |path|) && SyncedBeside(old(disk), disk, path, |path|)
    {
      hide Wf, Grown, PathWf, Blocked, Made, SyncedBeside, LevelMade, Levels, Upto, Call, Tracked;
      ghost var was := disk;
      GrownSelf(was, path);
      LevelsStart(was, path, missing);
      var left := |missing|;
      while left > 0
        invariant Tracked() && 0 <= left <= |missing|
        invariant Wf(disk) && Grown(was, disk, path) && old(trail) <= trail
        invariant forall k :: |old(trail)| <= k < |trail| ==> Wf(trail[k]) && Grown(was, trail[k], path)
        invariant Made(was, disk, path, |path| - left) && SyncedBeside(was, disk, path, |path| - left)
      {
        left := left - 1;
        var directory := missing[left];
        NextLevel(was, disk, path, missing, left);
        if At(disk, directory).Regular? {
          BlockedBy(was, directory, path);
          return false;
        }
        ghost var here := disk;
        MakeFirm(was, directory, path);
        OneMoreLevel(was, here, disk, path, missing, left);
      }
      NotBlocked(was, disk, path);
      return true;
    }

    /** One level: mkdir, then fsync of the directory that now holds its entry. */
    method MakeFirm(ghost was: Disk, directory: Path, ghost path: Path)
      requires Tracked()
      requires Wf(disk) && Grown(was, disk, path) && directory != [] && Upto(directory, path)
      requires At(disk, directory) == Absent && At(disk, Parent(directory)) == Directory
      modifies this
      ensures Tracked()
      ensures Wf(disk) && Grown(was, disk, path) && |trail| == |old(trail)| + 2 && old(trail) <= trail
      ensures forall k :: |old(trail)| <= k < |trail| ==> Wf(trail[k]) && Grown(was, trail[k], path)
      ensures LevelMade(old(disk), disk, directory)
    {
      hide Wf, Grown, SyncedIn, Upto, Call, Tracked;
      MakingSyncs(disk, directory);
      MkdirWf(disk, directory);
      MkdirGrows(disk, directory, path);
      GrownOnward(was, disk, Mkdir(disk, directory), path);
      MakeOne(directory);
      SyncDirWf(disk, Parent(directory));
      SyncDirGrows(disk, Parent(directory), path);
      GrownOnward(was, disk, SyncDir(disk, Parent(directory)), path);
      SyncDirectory(Parent(directory));
    }

    /** Write the staging file and sync it: nothing anybody watches can tell. */
    method Stage(staging: Path, chunks: seq<Bytes>, ghost was: Disk, ghost watch: set<Path>, ghost bytes: Bytes)
      requires Tracked()
      requires Wf(was) && Wf(disk) && At(disk, staging) != Directory && Clear(was, disk, staging, watch)
      requires AllPoint(was, disk, watch, bytes)
      requires At(disk, Parent(staging)) == Directory
      modifies this
      ensures Tracked()
      ensures Wf(disk) && AllPoint(was, disk, watch, bytes) && OnlyStaged(was, old(disk), disk, staging, watch)
      ensures At(disk, staging).inode in disk.firm && Read(disk, staging) == Some(Flat(chunks))
      ensures old(trail) <= trail && Points(was, trail, |old(trail)|, watch, bytes)
      ensures forall k :: |old(trail)| <= k < |trail| ==> OnlyStaged(was, old(disk), trail[k], staging, watch)
    {
      hide Wf, Point, Between, Clear, Over, Call, Tracked;
      ghost var first := disk;
      OpenPoints(was, disk, staging, watch, bytes);
      OpenNew(staging);
      var i := At(disk, staging).inode;
      var n := 0;
      while n < |chunks|
        invariant Tracked() && 0 <= n <= |chunks|
        invariant Wf(disk) && AllPoint(was, disk, watch, bytes) && OnlyStaged(was, first, disk, staging, watch)
        invariant At(disk, staging) == Regular(i) && disk.data[i] == Flat(chunks[..n])
        invariant old(trail) <= trail && Points(was, trail, |old(trail)|, watch, bytes)
        invariant forall k :: |old(trail)| <= k < |trail| ==> OnlyStaged(was, first, trail[k], staging, watch)
      {
        AppendPoints(was, first, disk, staging, chunks[n], watch, bytes);
        Write(i, chunks[n]);
        n := n + 1;
        assert chunks[..n][..n - 1] == chunks[..n - 1];
      }
      assert chunks[..n] == chunks;
      SyncFilePoints(was, first, disk, staging, watch, bytes);
      SyncBytes(i);
    }

    /** Move a synced staging file onto its destination, and sync the directory. */
    method CommitStaged(staging: Path, destination: Path, ghost was: Disk, ghost watch: set<Path>, ghost bytes: Bytes)
      requires Tracked()
      requires Wf(disk) && staging != [] && destination != [] && staging != destination && Housed(disk, staging, watch)
      requires At(disk, staging).Regular? && At(disk, staging).inode in disk.firm && Read(disk, staging) == Some(bytes)
      requires At(disk, destination) != Directory && At(disk, Parent(destination)) == Directory
      requires AllPoint(was, disk, watch, bytes)
      modifies this
      ensures Tracked()
      ensures Wf(disk) && AllPoint(was, disk, watch, bytes) && Committed(old(disk), disk, staging, destination)
      ensures Read(disk, destination) == Some(bytes) && At(disk, destination).inode in disk.firm
      ensures May(disk, destination) == {At(disk, destination)}
      ensures forall q: Path :: Over(q, destination) ==> May(disk, q) == May(old(disk), q)
      ensures old(trail) <= trail && Points(was, trail, |old(trail)|, watch, bytes)
      ensures forall k :: |old(trail)| <= k < |trail| ==> Committed(old(disk), trail[k], staging, destination)
    {
      hide Wf, Point, Between, Over, Committed, Call, Tracked;
      RenameCommits(disk, staging, destination);
      RenamePoints(was, disk, staging, destination, watch, bytes);
      Replace(staging, destination);
      SyncDirPoints(was, disk, Parent(destination), watch, bytes);
      SyncDirectory(Parent(destination));
    }

    /** Both directories, in the order the write makes them; `made` is the disk in between. */
    method Prepare(staging: Path, destination: Path, ghost watch: set<Path>, ghost bytes: Bytes)
      returns (ok: bool, ghost made: Disk)
      requires Tracked()
      requires Wf(disk) && staging != [] && destination != [] && staging != destination && !Over(destination, staging)
      requires forall p :: p in watch ==> p != [] && !Over(p, staging) && !Over(p, destination)
      modifies this
      ensures Tracked()
      ensures Wf(disk) && AllPoint(old(disk), disk, watch, bytes)
      ensures old(trail) <= trail && Points(old(disk), trail, |old(trail)|, watch, bytes)
      ensures ok <==> !Blocked(old(disk), Parent(staging)) && !Blocked(old(disk), Parent(destination))
      ensures ok ==> Prepared(old(disk), made, disk, staging, destination)
      ensures forall p :: p in watch ==> Read(disk, p) == Read(old(disk), p)
      ensures Sprouted(old(disk), disk, staging, destination)
      ensures forall k :: |old(trail)| <= k < |trail| ==> Sprouted(old(disk), trail[k], staging, destination)
    {
      hide Wf, Read, Point, Between, Over, Grown, Made, Blocked, Sprouted, Call, Tracked;
      ghost var was := disk;
      SproutedSelf(was, staging, destination);
      forall p | p in watch
        ensures Point(was, was, p, bytes) && !Upto(p, Parent(staging)) && !Upto(p, Parent(destination))
      {
        PointSelf(was, p, bytes);
        UptoParent(p, staging);
        UptoParent(p, destination);
      }
      var first := EnsureDirectory(Parent(staging));
      GrownTrail(was, was, trail, |old(trail)|, Parent(staging), watch, bytes);
      GrownPoints(was, was, disk, Parent(staging), watch, bytes);
      SproutedTrail(was, was, trail, |old(trail)|, Parent(staging), staging, destination);
      GrownSprouts(was, was, disk, Parent(staging), staging, destination);
      made := disk;
      if !first {
        return false, made;
      }
      ghost var t1 := trail;
      GrownBlocked(was, made, Parent(staging), Parent(destination));
      ok := EnsureDirectory(Parent(destination));
      GrownTrail(was, made, trail, |t1|, Parent(destination), watch, bytes);
      GrownPoints(was, made, disk, Parent(destination), watch, bytes);
      SproutedTrail(was, made, trail, |t1|, Parent(destination), staging, destination);
      GrownSprouts(was, made, disk, Parent(destination), staging, destination);
    }

    /**
     Write, sync, rename, sync the directory. A power cut at any point shows the old file or the whole new one, and
     once this returns the new one stays exactly if the directories it found on the way were synced themselves, or
     were synced along when the staging directory was made beside them.
    */
    method StagedWrite(destination: Path, staging: Path, chunks: seq<Bytes>) returns (ok: bool)
      requires Tracked()
      requires Wf(disk) && destination != [] && staging != [] && destination != staging && !Over(destination, staging)
      requires At(disk, staging).Regular? ==> At(disk, staging) !in May(disk, destination)
      modifies this
      ensures Tracked()
      ensures Wf(disk) && old(trail) <= trail
      ensures ok <==> Unobstructed(old(disk), staging, destination)
      ensures ok ==> Read(disk, destination) == Some(Flat(chunks)) && At(disk, staging) == Absent
      ensures !ok ==> Read(disk, destination) == Read(old(disk), destination)
      ensures forall k :: |old(trail)| <= k < |trail| ==> OldOrNewSeen(old(disk), trail[k], destination, Flat(chunks))
      ensures ok ==> (Survives(disk, destination, Flat(chunks)) <==> ChainLasts(old(disk), staging, destination))
    {
      hide Wf, Between, Over, Grown, Made, Blocked, Survives, ChainLasts, OldOrNewSeen, Point, SyncedBeside, Call,
        Tracked;
      ghost var was, bytes, watch := disk, Flat(chunks), {destination};
      ghost var made;
      NotOver(destination);
      ok, made := Prepare(staging, destination, watch, bytes);
      PointsAreOldOrNew(was, trail, |old(trail)|, destination, bytes);
      if !ok {
        return;
      }
      ghost var ready := disk;
      DirectoriesMade(was, made, disk, staging, destination);
      if At(disk, staging) == Directory {
        return false;
      }
      Stage(staging, chunks, was, watch, bytes);
      PointsAreOldOrNew(was, trail, |old(trail)|, destination, bytes);
      if At(disk, destination) == Directory {
        return false;
      }
      CommitStaged(staging, destination, was, watch, bytes);
      PointsAreOldOrNew(was, trail, |old(trail)|, destination, bytes);
      CommittedSurvives(disk, destination, bytes);
      assert forall q: Path :: Over(q, destination) ==> May(disk, q) == May(ready, q);
      ChainExactly(was, made, ready, staging, destination);
    }

    /**
     A write killed right after its first mkdir, and the retry: it finds the directory in place, does not sync it,
     returns as usual, and a power cut may still take everything.
    */
    method WriteAfterKill(x: Path, destination: Path, staging: Path, chunks: seq<Bytes>) returns (ok: bool)
      requires Tracked()
      requires Wf(disk) && x != [] && Over(x, destination) && At(disk, x) == Absent && At(disk, Parent(x)) == Directory
      requires staging != [] && At(disk, Parent(staging)) == Directory && staging != x && destination != staging
      requires !Over(destination, staging)
      requires destination != [] && Unobstructed(disk, staging, destination)
      requires At(disk, staging).Regular? ==> At(disk, staging) !in May(disk, destination)
      modifies this
      ensures Tracked()
      ensures ok && Read(disk, destination) == Some(Flat(chunks)) && !Survives(disk, destination, Flat(chunks))
    {
      hide Wf, Over, Unobstructed, ChainLasts, Survives, Call, Tracked;
      MkdirWf(disk, x);
      MkdirUnobstructed(disk, x, staging, destination);
      KilledMkdirStaysLoose(disk, x, staging, destination);
      MakeOne(x);
      ok := StagedWrite(destination, staging, chunks);
    }

    /** Copy into staging, verify, commit. False when something is in the way or the copy lost bytes. */
    method CopyAcross(source: Path, destination: Path, staging: Path, copied: seq<Bytes>) returns (ok: bool)
      requires Tracked()
      requires Wf(disk) && destination != [] && staging != [] && source != []
      requires source != destination && source != staging && destination != staging
      requires !Over(source, destination) && !Over(source, staging) && !Over(destination, staging)
      requires Read(disk, source).Some? && At(disk, destination) != Directory
      requires At(disk, staging).Regular? ==>
        At(disk, staging) !in May(disk, source) && At(disk, staging) !in May(disk, destination)
      modifies this
      ensures Tracked()
      ensures Wf(disk) && old(trail) <= trail
      ensures AllPoint(old(disk), disk, {source, destination}, Read(old(disk), source).value)
      ensures Points(old(disk), trail, |old(trail)|, {source, destination}, Read(old(disk), source).value)
      ensures Movable(old(disk), source, destination, staging)
        ==> forall k :: |old(trail)| <= k < |trail| ==> Movable(trail[k], source, destination, staging)
      ensures ok <==> Unobstructed(old(disk), staging, destination) && Some(Flat(copied)) == Read(old(disk), source)
      ensures At(disk, source) == At(old(disk), source)
      ensures !ok && Unobstructed(old(disk), staging, destination) ==> At(disk, staging) == Absent
      ensures ok ==> Read(disk, destination) == Read(old(disk), source)
      ensures ok ==> (Durable(disk, destination, Flat(copied)) <==> ChainLasts(old(disk), staging, destination))
    {
      hide Wf, Between, Over, Grown, Made, Blocked, ChainLasts, Point, Sprouted, Movable, Durable, SyncedBeside, May,
        Strange, Call, Tracked;
      ghost var was, bytes, watch := disk, Read(disk, source).value, {source, destination};
      ghost var made;
      NotOver(destination);
      ok, made := Prepare(staging, destination, watch, bytes);
      SproutedMovables(was, trail, |old(trail)|, source, destination, staging);
      if !ok {
        SproutedSource(was, disk, source, staging, destination);
        return;
      }
      ghost var ready, t1 := disk, trail;
      DirectoriesMade(was, made, ready, staging, destination);
      SproutedSource(was, disk, source, staging, destination);
      if At(disk, staging) == Directory {
        return false;
      }
      if Movable(was, source, destination, staging) {
        SproutedMovable(was, ready, source, destination, staging);
      }
      ClearForMove(was, ready, source, destination, staging);
      Stage(staging, copied, was, watch, bytes);
      StagedMovables(was, ready, trail, |t1|, source, destination, staging);
      SourceStill(was, disk, source, watch, bytes);
      if Some(Flat(copied)) != Read(disk, source) {
        UnlinkPoints(was, disk, staging, watch, bytes);
        UnstagedMovable(was, ready, disk, source, destination, staging);
        Remove(staging);
        return false;
      }
      ghost var staged, t2 := disk, trail;
      if Movable(ready, source, destination, staging) {
        StagedMovable(was, ready, staged, source, destination, staging);
      }
      CommitStaged(staging, destination, was, watch, bytes);
      CommittedMovables(staged, trail, |t2|, source, destination, staging);
      ChainStays(was, made, ready, disk, staging, destination, bytes);
    }

    /**
     Copy, verify, commit, and only then unlink. The old bytes are at the source or the destination at every step,
     and the destination is never partial. `copied` is what the copy wrote: a copy that lost bytes is refused.
    */
    method JournaledMove(source: Path, destination: Path, staging: Path, copied: seq<Bytes>)
      returns (outcome: MoveOutcome)
      requires Tracked()
      requires Wf(disk) && source != [] && destination != [] && staging != []
      requires source != destination && source != staging && destination != staging
      requires !Over(source, destination) && !Over(source, staging) && !Over(destination, staging)
      requires At(disk, staging).Regular? ==>
        At(disk, staging) !in May(disk, source) && At(disk, staging) !in May(disk, destination)
      modifies this
      ensures Tracked()
      ensures Wf(disk) && old(trail) <= trail
      ensures outcome.Moved? <==> Moves(old(disk), source, destination, staging, copied)
      ensures outcome.Moved? ==> Read(disk, destination) == Read(old(disk), source) && At(disk, source) == Absent
      ensures Read(old(disk), source).Some? ==>
        (forall k :: |old(trail)| <= k < |trail| ==>
          KeepsBytes(old(disk), trail[k], source, destination, Read(old(disk), source).value))
      ensures Read(old(disk), source).Some? && CutProof(old(disk), source, destination, Read(old(disk), source).value)
        ==> (forall k :: |old(trail)| <= k < |trail| ==>
          NeitherLost(trail[k], source, destination, Read(old(disk), source).value))
      ensures Movable(old(disk), source, destination, staging)
        ==> (forall k :: |old(trail)| <= k < |trail| && At(trail[k], source).Regular? ==>
          Movable(trail[k], source, destination, staging))
    {
      hide Wf, Between, Over, ChainFirm, Point, Movable, Durable, OldOrNewSeen, KeepsBytes, NeitherLost, Call, Tracked;
      ghost var was := disk;
      SourceReads(disk, source);
      if At(disk, destination) != Absent {
        if At(disk, destination) == Directory || !At(disk, source).Regular? {
          return Raised;
        }
        if Read(disk, destination) == Read(disk, source) {
          LastStep(was, was, source, destination, Read(was, source).value);
          Remove(source);
          return Moved(false);
        }
      }
      if !At(disk, source).Regular? {
        return Raised;
      }
      ghost var bytes := Read(disk, source).value;
      var ok := CopyAcross(source, destination, staging, copied);
      MoveKeeps(was, trail, |old(trail)|, source, destination, bytes);
      if !ok {
        return Raised;
      }
      if ChainFirm(was, destination) {
        FirmLasts(was, staging, destination);
      }
      LastStep(was, disk, source, destination, bytes);
      Remove(source);
      return Moved(true);
    }
  }

  /** The smallest such write: the file `f` in a new directory `a`, on an empty disk. */
  method LostWrite() returns (fs: FileSystem, ok: bool)
    ensures ok && Read(fs.disk, ["a", "f"]) == Some([1]) && !Survives(fs.disk, ["a", "f"], [1])
  {
    fs := new FileSystem();
    var x, destination, staging: Path := ["a"], ["a", "f"], ["s"];
    EmptyIsClear(fs.disk, x, destination, staging);
    assert Flat([[1]]) == [1];
    ok := fs.WriteAfterKill(x, destination, staging, [[1]]);
  }

  lemma EmptyIsClear(d: Disk, x: Path, destination: Path, staging: Path)
    requires d.entry == map[] && d.maybe == map[] && x == ["a"] && destination == ["a", "f"] && staging == ["s"]
    ensures Over(x, destination) && Parent(x) == [] && Parent(staging) == [] && staging != x
    ensures !Over(destination, staging)
    ensures Unobstructed(d, staging, destination)
  {
    assert destination[..1] == x;
    assert staging[0] != destination[0];
  }
}
