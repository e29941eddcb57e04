/**
 A file system that can lose power. Every entry of a directory has its current value and the values it has had since
 that directory was last synced; a power cut keeps any one of these, entry by entry. A file's bytes are kept when the
 file has been synced since its last write, and are arbitrary otherwise.
*/
module DiskModel {
  import opened Common

  type Path = seq<string>
  type Bytes = seq<nat>

  datatype Entry = Absent | Directory | Regular(inode: nat)

  datatype Disk = Disk(entry: map<Path, Entry>, maybe: map<Path, set<Entry>>, data: map<nat, Bytes>, firm: set<nat>,
    next: nat)

  function Parent(p: Path): Path
    requires p != []
  {
    p[..|p| - 1]
  }

  /** q is a directory on the way to p. */
  predicate Over(q: Path, p: Path) {
    |q| < |p| && q == p[..|q|]
  }

  /** What a path names now. */
  function At(d: Disk, p: Path): Entry {
    if p == [] then Directory else if p in d.entry then d.entry[p] else Absent
  }

  /** What a power cut may leave a path naming. */
  function May(d: Disk, p: Path): set<Entry> {
    if p == [] then {Directory} else if p in d.maybe then d.maybe[p] else {Absent}
  }

  /** Nothing hangs below what is not a directory, no directory is on its way out, and every inode in sight is known. */
  ghost predicate PathWf(d: Disk, p: Path) {
    At(d, p) in May(d, p) && (Directory in May(d, p) ==> At(d, p) == Directory) &&
    (p != [] && At(d, Parent(p)) != Directory ==> May(d, p) == {Absent}) &&
    (forall e :: e in May(d, p) && e.Regular? ==> e.inode in d.data && e.inode < d.next)
  }

  ghost predicate Wf(d: Disk) {
    (forall p: Path :: PathWf(d, p)) && (forall i :: i in d.firm ==> i < d.next)
    && (forall i :: i in d.data ==> i < d.next)
  }

  function Read(d: Disk, p: Path): Option<Bytes> {
    if At(d, p).Regular? && At(d, p).inode in d.data then Some(d.data[At(d, p).inode]) else None
  }

  // ------------------------------------------------------------------ steps

  function Mkdir(d: Disk, p: Path): Disk {
    d.(entry := d.entry[p := Directory], maybe := d.maybe[p := May(d, p) + {Directory}])
  }

  function Settle(d: Disk, q: Path): map<Path, set<Entry>> {
    map p | p in d.maybe :: if p != [] && Parent(p) == q then {At(d, p)} else d.maybe[p]
  }

  /** fsync of a directory: its entries are now what they are. */
  function SyncDir(d: Disk, q: Path): Disk {
    d.(maybe := Settle(d, q))
  }

  /** Opening for writing: a fresh file, or the one already there, emptied. */
  function Open(d: Disk, p: Path): Disk {
    if At(d, p).Regular? then d.(data := d.data[At(d, p).inode := []], firm := d.firm - {At(d, p).inode})
    else Disk(d.entry[p := Regular(d.next)], d.maybe[p := May(d, p) + {Regular(d.next)}], d.data[d.next := []], d.firm, d.next + 1)
  }

  function Append(d: Disk, i: nat, chunk: Bytes): Disk
    requires i in d.data
  {
    d.(data := d.data[i := d.data[i] + chunk], firm := d.firm - {i})
  }

  function SyncFile(d: Disk, i: nat): Disk {
    d.(firm := d.firm + {i})
  }

  /** os.replace: both entries change at once, and neither is durable yet. */
  function Rename(d: Disk, s: Path, t: Path): Disk {
    d.(entry := d.entry[t := At(d, s)][s := Absent], maybe := d.maybe[t := May(d, t) + {At(d, s)}][s := May(d, s) + {Absent}])
  }

  function Unlink(d: Disk, p: Path): Disk {
    d.(entry := d.entry[p := Absent], maybe := d.maybe[p := May(d, p) + {Absent}])
  }

  /** One system call. */
  ghost predicate Call(d: Disk, d': Disk) {
    (exists p: Path :: d' == Mkdir(d, p)) || (exists q: Path :: d' == SyncDir(d, q)) || (exists p: Path ::
      d' == Open(d, p)) ||
    (exists i: nat, chunk: Bytes :: i in d.data && d' == Append(d, i, chunk)) || (exists i: nat ::
      d' == SyncFile(d, i)) ||
    (exists s: Path, t: Path :: d' == Rename(d, s, t)) || exists p: Path :: d' == Unlink(d, p)
  }

  // ------------------------------------------------------------------ steps keep a disk well formed

  lemma MkdirWf(d: Disk, p: Path)
    requires Wf(d) && p != [] && At(d, p) == Absent && At(d, Parent(p)) == Directory
    ensures Wf(Mkdir(d, p))
  {
    forall x: Path ensures PathWf(Mkdir(d, p), x) {
      assert PathWf(d, x);
    }
  }

  lemma SyncDirWf(d: Disk, q: Path)
    requires Wf(d)
    ensures Wf(SyncDir(d, q))
    ensures forall p: Path :: At(SyncDir(d, q), p) == At(d, p)
    ensures forall p: Path ::
      May(SyncDir(d, q), p) == if p != [] && p in d.maybe && Parent(p) == q then {At(d, p)} else May(d, p)
  {
    forall x: Path ensures PathWf(SyncDir(d, q), x) {
      assert PathWf(d, x);
    }
  }

  lemma OpenWf(d: Disk, p: Path)
    requires Wf(d) && p != [] && At(d, p) != Directory && At(d, Parent(p)) == Directory
    ensures Wf(Open(d, p)) && At(Open(d, p), p).Regular?
  {
    assert PathWf(d, p);
    forall x: Path ensures PathWf(Open(d, p), x) {
      assert PathWf(d, x);
    }
  }

  lemma RenameWf(d: Disk, s: Path, t: Path)
    requires Wf(d) && s != t && s != [] && t != [] && At(d, s).Regular? && At(d, t) != Directory
    requires At(d, Parent(t)) == Directory
    ensures Wf(Rename(d, s, t))
  {
    assert PathWf(d, s);
    forall x: Path ensures PathWf(Rename(d, s, t), x) {
      assert PathWf(d, x);
    }
  }

  lemma UnlinkWf(d: Disk, p: Path)
    requires Wf(d) && p != [] && At(d, p).Regular?
    ensures Wf(Unlink(d, p))
  {
    forall x: Path ensures PathWf(Unlink(d, p), x) {
      assert PathWf(d, x);
    }
  }

  // ------------------------------------------------------------------ power cuts

  /**
   `after` is a disk a power cut may leave. Whatever lost the directory above it is gone; nothing is pending any more.
  */
  ghost predicate Cut(d: Disk, after: Disk) {
    (forall p: Path :: p != [] ==>
      if At(after, Parent(p)) == Directory then At(after, p) in May(d, p) else At(after, p) == Absent) &&
    after.data.Keys == d.data.Keys && (forall i :: i in d.data && i in d.firm ==> after.data[i] == d.data[i]) &&
    (forall p: Path :: May(after, p) == {At(after, p)}) && after.next == d.next && after.firm == d.firm
  }

  /** No power cut can lose these bytes at this path. */
  ghost predicate Survives(d: Disk, p: Path, bytes: Bytes) {
    forall after :: Cut(d, after) ==> Read(after, p) == Some(bytes)
  }

  /** Every power cut shows the new bytes, or what a power cut before the write could have shown. */
  ghost predicate OldOrNew(was: Disk, d: Disk, p: Path, bytes: Bytes) {
    forall after :: Cut(d, after) ==> Read(after, p) == Some(bytes) || exists before ::
      Cut(was, before) && Read(before, p) == Read(after, p)
  }

  /** Every existing directory on the way to p has been synced into its parent. */
  ghost predicate ChainFirm(d: Disk, p: Path) {
    forall q: Path :: Over(q, p) && At(d, q) == Directory ==> May(d, q) == {Directory}
  }

  /** A power cut leaves a well-formed disk on which every directory is firm. */
  lemma CutIsFirm(d: Disk, after: Disk, p: Path)
    requires Wf(d) && Cut(d, after)
    ensures Wf(after) && ChainFirm(after, p)
  {
    forall x: Path ensures PathWf(after, x) {
      assert PathWf(d, x);
      assert May(after, x) == {At(after, x)};
    }
  }

  // ------------------------------------------------------------------ building a power cut

  /** The cut that keeps `pick` where its directories are kept. */
  predicate Whole(d: Disk, pick: map<Path, Entry>, p: Path) {
    forall k :: 0 <= k < |p| ==> Picked(d, pick, p[..k]) == Directory
  }

  function Picked(d: Disk, pick: map<Path, Entry>, p: Path): Entry {
    if p == [] then Directory else if p in pick then pick[p] else At(d, p)
  }

  ghost function Left(d: Disk, pick: map<Path, Entry>, data: map<nat, Bytes>): Disk {
    var keys := d.entry.Keys + pick.Keys;
    var entry := map p | p in keys :: if Whole(d, pick, p) then Picked(d, pick, p) else Absent;
    Disk(entry, map p | p in keys :: {entry[p]}, data, d.firm, d.next)
  }

  lemma LeftIsCut(d: Disk, pick: map<Path, Entry>, data: map<nat, Bytes>)
    requires Wf(d) && forall p :: p in pick ==> p != [] && pick[p] in May(d, p)
    requires data.Keys == d.data.Keys && forall i :: i in d.data && i in d.firm ==> data[i] == d.data[i]
    ensures Cut(d, Left(d, pick, data)) && Left(d, pick, data).data == data
    ensures forall p: Path :: p != [] ==>
      At(Left(d, pick, data), p) == if Whole(d, pick, p) then Picked(d, pick, p) else Absent
  {
    var a := Left(d, pick, data);
    forall p: Path | p != [] ensures At(a, p) == if Whole(d, pick, p) then Picked(d, pick, p) else Absent {
    }
    forall p: Path | p != []
      ensures if At(a, Parent(p)) == Directory then At(a, p) in May(d, p) else At(a, p) == Absent
    {
      WholeStep(d, pick, p);
      assert PathWf(d, p);
      assert Parent(p) != [] ==>
        At(a, Parent(p)) == if Whole(d, pick, Parent(p)) then Picked(d, pick, Parent(p)) else Absent;
    }
  }

  lemma WholeStep(d: Disk, pick: map<Path, Entry>, p: Path)
    requires p != []
    ensures Whole(d, pick, p) <==> Whole(d, pick, Parent(p)) && Picked(d, pick, Parent(p)) == Directory
  {
    assert forall k :: 0 <= k < |p| - 1 ==> Parent(p)[..k] == p[..k];
    assert p[..|p| - 1] == Parent(p);
  }
}
