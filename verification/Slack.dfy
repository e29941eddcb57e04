/** How each single-row write moves the one-level equation. Every operation is a few of these. */
module SlackMoves {
  import opened Common
  import opened Totals
  import opened FolderTree
  import opened Rollup

  ghost function Share(row: File, a: nat, u: Unit): int {
    if row.folder == a then row.Weight(u) else 0
  }

  lemma PutDelta(s: Tables, k: nat, d: Delta, a: nat, u: Unit)
    requires k !in s.delta
    ensures Slack(s.(delta := s.delta[k := d]), a, u) == Slack(s, a, u) + (if a == d.folder then d.Of(u) else 0)
  {
    hide Total, At;
    var s' := s.(delta := s.delta[k := d]);
    assert Queue(s', u) == Queue(s, u)[k := Entry(d.folder, d.Of(u))];
    AtPut(Queue(s, u), k, Entry(d.folder, d.Of(u)), a);
    assert Live(s', u) == Live(s, u);
    assert ChildStored(s', a, u) == ChildStored(s, a, u);
  }

  lemma AddFile(s: Tables, i: nat, row: File, a: nat, u: Unit)
    requires i !in s.file
    ensures Slack(s.(file := s.file[i := row]), a, u) == Slack(s, a, u) - Share(row, a, u)
  {
    hide Total, At;
    var s' := s.(file := s.file[i := row]);
    assert Live(s', u) == Live(s, u)[i := Entry(row.folder, row.Weight(u))];
    AtPut(Live(s, u), i, Entry(row.folder, row.Weight(u)), a);
    assert Queue(s', u) == Queue(s, u);
    assert ChildStored(s', a, u) == ChildStored(s, a, u);
  }

  lemma PutFile(s: Tables, i: nat, row: File, a: nat, u: Unit)
    requires i in s.file
    ensures Slack(s.(file := s.file[i := row]), a, u) == Slack(s, a, u) + Share(s.file[i], a, u) - Share(row, a, u)
  {
    var bare := s.(file := s.file - {i});
    assert bare.file[i := s.file[i]] == s.file;
    assert bare.file[i := row] == s.file[i := row];
    AddFile(bare, i, s.file[i], a, u);
    AddFile(bare, i, row, a, u);
  }

  lemma PutAggregate(s: Tables, f: nat, v: Aggregate, a: nat, u: Unit)
    requires f in s.folder && f in s.aggregate
    ensures var gain := v.Of(u) - s.aggregate[f].Of(u);
      Slack(s.(aggregate := s.aggregate[f := v]), a, u)
      == Slack(s, a, u) + (if a == f then gain else 0) - (if s.folder[f].parent == Some(a) then gain else 0)
  {
    var s' := s.(aggregate := s.aggregate[f := v]);
    assert Live(s', u) == Live(s, u);
    assert Queue(s', u) == Queue(s, u);
    Bump(ChildStored(s, a, u), ChildStored(s', a, u), if s.folder[f].parent == Some(a) then Some(f) else None,
         v.Of(u) - s.aggregate[f].Of(u));
  }

  lemma SameLedgers(s: Tables, s': Tables, u: Unit)
    requires s'.file == s.file && s'.delta == s.delta
    ensures Live(s', u) == Live(s, u) && Queue(s', u) == Queue(s, u)
  {
  }

  /** A new folder explains itself... */
  lemma NewFolder(s: Tables, f: nat, row: Folder, u: Unit)
    requires Linked(s.folder) && Filed(s) && f !in s.folder && row.parent != Some(f)
    ensures Slack(s.(folder := s.folder[f := row], aggregate := s.aggregate[f := Aggregate(0, 0)]), f, u) == 0
  {
    var s' := s.(folder := s.folder[f := row], aggregate := s.aggregate[f := Aggregate(0, 0)]);
    assert At(Live(s', u), f) == map[];
    assert At(Queue(s', u), f) == map[];
    assert ChildStored(s', f, u) == map[];
  }

  /** ...and adds nothing to what its parent has to explain. */
  lemma AddFolder(s: Tables, f: nat, row: Folder, a: nat, u: Unit)
    requires f !in s.folder && a in s.folder
    ensures Slack(s.(folder := s.folder[f := row], aggregate := s.aggregate[f := Aggregate(0, 0)]), a, u) == Slack(s, a, u)
  {
    hide Total, Live, Queue, At;
    var s' := s.(folder := s.folder[f := row], aggregate := s.aggregate[f := Aggregate(0, 0)]);
    SameLedgers(s, s', u);
    var before, after := ChildStored(s, a, u), ChildStored(s', a, u);
    Less(after, f);
    assert after - {f} == before;
  }

  /** Deleting the row of an emptied folder: its parent no longer counts its total. */
  lemma DropFolder(s: Tables, f: nat, a: nat, u: Unit)
    requires f in s.folder && a != f
    ensures var s' := s.(folder := s.folder - {f}, aggregate := s.aggregate - {f});
      Slack(s', a, u) == Slack(s, a, u) + (if s.folder[f].parent == Some(a) then Stored(s, f, u) else 0)
  {
    hide Total, Live, Queue, At;
    var s' := s.(folder := s.folder - {f}, aggregate := s.aggregate - {f});
    SameLedgers(s, s', u);
    if s.folder[f].parent == Some(a) {
      Pick(ChildStored(s, a, u), f);
      assert ChildStored(s', a, u) == ChildStored(s, a, u) - {f};
    } else {
      assert ChildStored(s', a, u) == ChildStored(s, a, u);
    }
  }

  lemma SameOtherChildren(s: Tables, t: Tree, x: nat, a: nat, u: Unit)
    requires t.Keys == s.folder.Keys
    requires forall f :: f in t && f != x ==> t[f].parent == s.folder[f].parent
    ensures ChildStored(s, a, u) - {x} == ChildStored(s.(folder := t), a, u) - {x}
  {
    assert forall c :: c in t <==> c in s.folder;
  }

  /** Only who is whose child matters, so a change of one parent link moves one child's total. */
  lemma Reparent(s: Tables, t: Tree, x: nat, a: nat, u: Unit)
    requires x in s.folder && t.Keys == s.folder.Keys
    requires forall f :: f in t && f != x ==> t[f].parent == s.folder[f].parent
    ensures Slack(s.(folder := t), a, u) == Slack(s, a, u)
      + (if s.folder[x].parent == Some(a) then Stored(s, x, u) else 0)
      - (if t[x].parent == Some(a) then Stored(s, x, u) else 0)
  {
    hide Total, Live, Queue, At;
    var s' := s.(folder := t);
    SameLedgers(s, s', u);
    SameOtherChildren(s, t, x, a, u);
    Less(ChildStored(s, a, u), x);
    Less(ChildStored(s', a, u), x);
  }
}
