/** What a power cut can and cannot lose, path by path. */
module Durability {
  import opened Common
  import opened DiskModel

  /** Every directory above is firm, and whatever the entry may be left as holds these bytes, synced. */
  ghost predicate Durable(d: Disk, p: Path, bytes: Bytes) {
    (forall q: Path :: Over(q, p) ==> May(d, q) == {Directory}) &&
    (forall e :: e in May(d, p) ==> e.Regular? && e.inode in d.firm && e.inode in d.data && d.data[e.inode] == bytes)
  }

  lemma {:induction false} ChainKept(d: Disk, after: Disk, p: Path, k: nat)
    requires Cut(d, after) && (forall q: Path :: Over(q, p) ==> May(d, q) == {Directory}) && k < |p|
    ensures At(after, p[..k]) == Directory
  {
    if k > 0 {
      ChainKept(d, after, p, k - 1);
      assert Parent(p[..k]) == p[..k - 1];
      assert Over(p[..k], p);
    }
  }

  lemma DurableSurvives(d: Disk, p: Path, bytes: Bytes)
    requires p != [] && Durable(d, p, bytes)
    ensures Survives(d, p, bytes)
  {
    forall after | Cut(d, after) ensures Read(after, p) == Some(bytes) {
      ChainKept(d, after, p, |p| - 1);
      assert At(after, p) in May(d, p);
    }
  }

  /** The cut that leaves one entry as told. */
  lemma CutAt(d: Disk, q: Path, e: Entry, data: map<nat, Bytes>) returns (after: Disk)
    requires Wf(d) && q != [] && e in May(d, q)
    requires data.Keys == d.data.Keys && forall i :: i in d.data && i in d.firm ==> data[i] == d.data[i]
    ensures Cut(d, after) && after.data == data
    ensures forall p: Path :: Over(q, p) && e != Directory ==> At(after, p) == Absent
    ensures (forall x: Path :: Over(x, q) ==> At(d, x) == Directory) ==> At(after, q) == e
  {
    hide Cut, Wf, Left, May;
    var pick := map[q := e];
    LeftIsCut(d, pick, data);
    after := Left(d, pick, data);
    forall p: Path | Over(q, p) && e != Directory ensures At(after, p) == Absent {
      assert Picked(d, pick, p[..|q|]) == e;
    }
    if forall x: Path :: Over(x, q) ==> At(d, x) == Directory {
      assert forall k :: 0 <= k < |q| ==> Over(q[..k], q);
    }
  }

  /** Exactly the durable files survive. */
  lemma SurvivesExactly(d: Disk, p: Path, bytes: Bytes)
    requires Wf(d) && p != []
    ensures Survives(d, p, bytes) <==> Durable(d, p, bytes)
  {
    if Durable(d, p, bytes) {
      DurableSurvives(d, p, bytes);
    }
    if Survives(d, p, bytes) {
      forall q: Path | Over(q, p) ensures May(d, q) == {Directory} {
        SurvivorsChain(d, p, q, bytes);
      }
      forall e | e in May(d, p)
        ensures e.Regular? && e.inode in d.firm && e.inode in d.data && d.data[e.inode] == bytes
      {
        SurvivorsEntry(d, p, e, bytes);
      }
    }
  }

  lemma LooseAboveLoses(d: Disk, p: Path, q: Path, e: Entry, bytes: Bytes)
    requires Wf(d) && Over(q, p) && q != [] && e in May(d, q) && e != Directory
    ensures !Survives(d, p, bytes)
  {
    var after := CutAt(d, q, e, d.data);
    assert Cut(d, after) && Read(after, p) == None;
  }

  lemma SurvivorsChain(d: Disk, p: Path, q: Path, bytes: Bytes)
    requires Wf(d) && Survives(d, p, bytes) && Over(q, p)
    ensures May(d, q) == {Directory}
  {
    if q != [] {
      assert PathWf(d, q);
      forall e | e in May(d, q) ensures e == Directory {
        if e != Directory {
          LooseAboveLoses(d, p, q, e, bytes);
        }
      }
    }
  }

  lemma SurvivorsEntry(d: Disk, p: Path, e: Entry, bytes: Bytes)
    requires Wf(d) && p != [] && Survives(d, p, bytes) && e in May(d, p)
    ensures e.Regular? && e.inode in d.firm && e.inode in d.data && d.data[e.inode] == bytes
  {
    forall x: Path | Over(x, p) ensures At(d, x) == Directory {
      SurvivorsChain(d, p, x, bytes);
      assert PathWf(d, x);
    }
    assert PathWf(d, p);
    var after := CutAt(d, p, e, d.data);
    if e.inode !in d.firm {
      TornLoses(d, p, e, bytes);
    }
  }

  lemma TornLoses(d: Disk, p: Path, e: Entry, bytes: Bytes)
    requires Wf(d) && p != [] && e in May(d, p) && e.Regular? && e.inode in d.data && e.inode !in d.firm
    requires forall x: Path :: Over(x, p) ==> At(d, x) == Directory
    ensures !Survives(d, p, bytes)
  {
    var torn := CutAt(d, p, e, d.data[e.inode := bytes + [0]]);
    assert Read(torn, p) == Some(bytes + [0]);
  }

  // ------------------------------------------------------------------ on the way

  /**
   Since `was`, the entry at p gained at most files holding the new bytes firmly, and the way to it only directories.
  */
  ghost predicate Between(was: Disk, d: Disk, p: Path, bytes: Bytes) {
    (forall e :: e in May(d, p) ==>
      e in May(was, p) || (e.Regular? && e.inode in d.firm && e.inode in d.data && d.data[e.inode] == bytes)) &&
    (forall q: Path, e :: Over(q, p) && e in May(d, q) ==> e in May(was, q) || e == Directory) &&
    was.data.Keys <= d.data.Keys &&
    (forall e :: e in May(was, p) && e.Regular? && e.inode in was.firm && e.inode in was.data ==>
      e.inode in d.firm && d.data[e.inode] == was.data[e.inode])
  }

  /** A power cut on the way shows the old file or the new one. */
  lemma BetweenIsOldOrNew(was: Disk, d: Disk, p: Path, bytes: Bytes)
    requires Wf(was) && p != [] && Between(was, d, p, bytes)
    ensures OldOrNew(was, d, p, bytes)
  {
    forall after | Cut(d, after) && Read(after, p) != Some(bytes)
      ensures exists before :: Cut(was, before) && Read(before, p) == Read(after, p)
    {
      var before := Rollback(was, d, p, bytes, after);
    }
  }

  function Reverted(was: Disk, after: Disk, p: Path): map<Path, Entry> {
    map k | 1 <= k <= |p| && At(after, p[..k]) in May(was, p[..k]) :: p[..k] := At(after, p[..k])
  }

  function RevertedData(was: Disk, after: Disk): map<nat, Bytes> {
    map i | i in was.data :: if i in was.firm || i !in after.data then was.data[i] else after.data[i]
  }

  lemma {:induction false} ChainBroken(d: Disk, after: Disk, p: Path, k: nat)
    requires Cut(d, after) && k < |p| && At(after, p[..k]) != Directory
    ensures At(after, p) == Absent
    decreases |p|
  {
    if k < |p| - 1 {
      assert Parent(p)[..k] == p[..k];
      ChainBroken(d, after, Parent(p), k);
    } else {
      assert Parent(p) == p[..k];
    }
  }

  /** The cut before the write that shows the same at p. */
  lemma Rollback(was: Disk, d: Disk, p: Path, bytes: Bytes, after: Disk) returns (before: Disk)
    requires Wf(was) && p != [] && Between(was, d, p, bytes) && Cut(d, after) && Read(after, p) != Some(bytes)
    ensures Cut(was, before) && Read(before, p) == Read(after, p)
  {
    var pick := Reverted(was, after, p);
    var data := RevertedData(was, after);
    LeftIsCut(was, pick, data);
    before := Left(was, pick, data);
    assert p[..|p|] == p;
    if forall k :: 0 <= k < |p| ==> At(after, p[..k]) == Directory {
      ReadsAlike(was, d, p, bytes, after, before, pick, data);
    } else {
      var k :| 0 <= k < |p| && At(after, p[..k]) != Directory;
      ChainBroken(d, after, p, k);
      BrokenBefore(was, d, p, bytes, after, before, pick, k);
    }
  }

  lemma {:induction false} BrokenBefore(was: Disk, d: Disk, p: Path, bytes: Bytes, after: Disk, before: Disk,
                                        pick: map<Path, Entry>, k: nat)
    requires Wf(was) && Between(was, d, p, bytes) && Cut(d, after) && k < |p| && At(after, p[..k]) != Directory
    requires pick == Reverted(was, after, p)
    requires forall x: Path :: x != [] ==> At(before, x) == if Whole(was, pick, x) then Picked(was, pick, x) else Absent
    ensures Read(before, p) == None
    decreases k
  {
    if At(after, p[..k - 1]) != Directory {
      BrokenBefore(was, d, p, bytes, after, before, pick, k - 1);
    } else {
      assert Parent(p[..k]) == p[..k - 1] && Over(p[..k], p);
      assert At(after, p[..k]) in May(d, p[..k]);
      assert p[..k] in pick;
      assert Picked(was, pick, p[..k]) != Directory;
    }
  }

  lemma ReadsAlike(was: Disk, d: Disk, p: Path, bytes: Bytes, after: Disk, before: Disk, pick: map<Path, Entry>,
                   data: map<nat, Bytes>)
    requires Wf(was) && p != [] && Between(was, d, p, bytes) && Cut(d, after) && Read(after, p) != Some(bytes)
    requires forall k :: 0 <= k < |p| ==> At(after, p[..k]) == Directory
    requires pick == Reverted(was, after, p) && data == RevertedData(was, after) && before.data == data
    requires forall x: Path :: x != [] ==> At(before, x) == if Whole(was, pick, x) then Picked(was, pick, x) else Absent
    ensures Read(before, p) == Read(after, p)
  {
    hide Between, Cut;
    assert p[..|p|] == p && Parent(p) == p[..|p| - 1];
    OldEntry(was, d, p, bytes, after);
    assert PathWf(was, p);
    assert p in pick;
    if !Whole(was, pick, p) {
      BrokenChain(was, p, pick);
    }
    if At(after, p).Regular? {
      SameBytes(was, d, p, bytes, after, At(after, p));
    }
  }

  /** What shows at p is an entry p had before the write. */
  lemma OldEntry(was: Disk, d: Disk, p: Path, bytes: Bytes, after: Disk)
    requires p != [] && Between(was, d, p, bytes) && Cut(d, after) && Read(after, p) != Some(bytes)
    requires At(after, Parent(p)) == Directory
    ensures At(after, p) in May(was, p) && At(after, p) in May(d, p)
  {
  }

  lemma BrokenChain(was: Disk, p: Path, pick: map<Path, Entry>)
    requires Wf(was) && p != [] && !Whole(was, pick, p)
    requires forall k :: 1 <= k < |p| && p[..k] in pick ==> pick[p[..k]] == Directory
    ensures May(was, p) == {Absent}
  {
    var k :| 0 <= k < |p| && Picked(was, pick, p[..k]) != Directory;
    assert k > 0 && p[..k] !in pick;
    assert PathWf(was, p[..k]);
    NothingBelow(was, p, k);
    assert PathWf(was, p);
  }

  lemma SameBytes(was: Disk, d: Disk, p: Path, bytes: Bytes, after: Disk, e: Entry)
    requires PathWf(was, p) && Between(was, d, p, bytes) && Cut(d, after) && e in May(was, p) && e.Regular?
    ensures e.inode in was.data && e.inode in after.data && RevertedData(was, after)[e.inode] == after.data[e.inode]
  {
  }

  /** Below what is not a directory there is nothing. */
  lemma {:induction false} NothingBelow(d: Disk, p: Path, k: nat)
    requires Wf(d) && k < |p| && At(d, p[..k]) != Directory
    ensures May(d, p) == {Absent} && At(d, p) == Absent
    decreases |p|
  {
    assert PathWf(d, p);
    if k < |p| - 1 {
      assert Parent(p)[..k] == p[..k];
      NothingBelow(d, Parent(p), k);
    } else {
      assert Parent(p) == p[..k];
    }
  }
}
