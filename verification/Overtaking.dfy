/**
 A folder move overtaking a backlog: the deltas it queues are the youngest, while the older ones in the subtree it
 carries travel with the closure and are expanded over the new parent in an earlier batch.
*/
module Overtaking {
  import opened Common
  import opened Totals
  import opened FolderTree
  import opened Rollup
  import opened Steps
  import opened Moves
  import opened Batching
  import opened Expansion

  /** A move inside one workspace that brings something new under its new parent. */
  ghost predicate Brings(s: Tables, x: nat, q: nat, name: string, key: string) {
    x in s.folder && q in s.folder && name != "" && MoveAllowed(s, x, q, key)
    && s.folder[x].workspace == s.folder[q].workspace
    && !Above(s.folder, q, x)
  }

  /** The rows afterwards: the tree hung, the old deltas as they were, at most two new ones. */
  lemma BroughtRows(s: Tables, x: nat, q: nat, name: string, key: string)
    requires Good(s) && Brings(s, x, q, name, key)
    ensures x in s.aggregate
    ensures var s' := MoveFolder(s, x, q, name, key);
      s'.folder == Hang(s.folder, x, q, name, key) && s'.aggregate == s.aggregate && s'.nextDelta >= s.nextDelta &&
      (forall k :: k in s.delta ==> k in s'.delta && s'.delta[k] == s.delta[k]) &&
      (forall k :: k in s'.delta && k !in s.delta ==> k >= s.nextDelta)
  {
    hide OneRoot, SiblingsDiffer, RootsUnnamed, LiveNamesDiffer, Countable, Consistent, Carry;
    CarryWithin(s, x, q, name, key);
    CarryShape(s, x, q, name, key);
    MoveFolderShape(s, x, q, name, key);
  }

  /** What an older batch does to the new parent: what it did there before, and what it did to the folder brought in. */
  lemma RolledBrought(s: Tables, x: nat, q: nat, name: string, key: string, batch: set<nat>, u: Unit)
    requires Good(s) && Brings(s, x, q, name, key) && forall k :: k in batch ==> k in s.delta
    ensures x in s.aggregate
    ensures Rolled(MoveFolder(s, x, q, name, key), batch, q, u) == Rolled(s, batch, q, u) + Rolled(s, batch, x, u)
  {
    hide OneRoot, SiblingsDiffer, RootsUnnamed, LiveNamesDiffer, Countable, Consistent, Filed, Numbered, Total,
      MoveFolder, Hang, Linked, Above;
    BroughtRows(s, x, q, name, key);
    var s' := MoveFolder(s, x, q, name, key);
    assert Claimed(s', batch, u) == Claimed(s, batch, u);
    forall d: nat ensures Above(s'.folder, q, d) <==> Above(s.folder, q, d) || Above(s.folder, x, d) {
      BroughtUnder(s, x, q, name, key, d);
    }
    forall d: nat ensures !(Above(s.folder, q, d) && Above(s.folder, x, d)) {
      NotBoth(s, x, q, key, d);
    }
    Join(Under(s.folder, Claimed(s, batch, u), q), Under(s.folder, Claimed(s, batch, u), x),
      Under(s'.folder, Claimed(s', batch, u), q));
  }

  lemma BroughtUnder(s: Tables, x: nat, q: nat, name: string, key: string, d: nat)
    requires Linked(s.folder) && Brings(s, x, q, name, key)
    ensures Above(Hang(s.folder, x, q, name, key), q, d) <==> Above(s.folder, q, d) || Above(s.folder, x, d)
  {
    HangAbove(s.folder, x, q, name, key, q, d);
    if Above(s.folder, x, d) {
      assert Above(s.folder, q, q);
    }
  }

  lemma NotBoth(s: Tables, x: nat, q: nat, key: string, d: nat)
    requires Linked(s.folder) && x in s.folder && q in s.folder && MoveAllowed(s, x, q, key) && !Above(s.folder, q, x)
    ensures !(Above(s.folder, q, d) && Above(s.folder, x, d))
  {
    if Above(s.folder, q, d) && Above(s.folder, x, d) {
      Chain(s.folder, q, x, d);
    }
  }

  /** The oldest rows are the same rows after the move. */
  lemma SameFirst(s: Tables, x: nat, q: nat, name: string, key: string, workspace: nat, n: nat, batch: set<nat>)
    requires Good(s) && Brings(s, x, q, name, key) && Batch(QueuedIn(s, workspace), n, batch) && |batch| == n
    ensures x in s.aggregate && Batch(QueuedIn(MoveFolder(s, x, q, name, key), workspace), n, batch)
  {
    hide WellFormed, LiveNamesDiffer, Countable, Consistent, Filed, MoveFolder, Hang, Brings;
    BroughtRows(s, x, q, name, key);
  }

  /**
   If the oldest batch takes more from under the folder moved and its new parent together than the new parent stores,
   the rollup is stuck after the move, at this batch and on every retry: the amount that would cover it is queued
   behind.
  */
  lemma Overtaken(s: Tables, x: nat, q: nat, name: string, key: string, batch: set<nat>, u: Unit)
    requires Good(s) && Brings(s, x, q, name, key) && Batch(QueuedIn(s, s.folder[q].workspace), BATCH, batch)
    requires |batch| == BATCH
    requires Stored(s, q, u) + Rolled(s, batch, q, u) + Rolled(s, batch, x, u) < 0
    ensures x in s.aggregate
    ensures var s' := MoveFolder(s, x, q, name, key);
      Good(s') && Stuck(s', s.folder[q].workspace) && Drain(s', batch) == s' && Pending(s', q)
  {
    hide OneRoot, SiblingsDiffer, RootsUnnamed, LiveNamesDiffer, Linked, Filed, Consistent, Numbered, Rolled,
      MoveFolder, QueuedIn, Batch,
      Hang, Exceeds, FirstIds, Pending, Brings;
    BroughtRows(s, x, q, name, key);
    BringsRows(s, x, q, name, key);
    var s', workspace := MoveFolder(s, x, q, name, key), s.folder[q].workspace;
    KeptIsGood(s);
    MoveFolderKeeps(s, x, q, name, key);
    KeptIsGood(s');
    assert forall k :: k in batch ==> k in s.delta by { BatchQueued(s, workspace, BATCH, batch); }
    RolledBrought(s, x, q, name, key, batch, u);
    SameFirst(s, x, q, name, key, workspace, BATCH, batch);
    StuckMeans(s', workspace, batch);
    assert q in Apply(s', batch).aggregate && Stored(Apply(s', batch), q, u) < 0 by { StoredBeyond(s', batch, q, u); }
    NegativeRefused(Apply(s', batch), q, u);
    OwedPending(s', batch, q, u);
  }

  lemma BringsRows(s: Tables, x: nat, q: nat, name: string, key: string)
    requires Brings(s, x, q, name, key)
    ensures x in s.folder && q in s.folder && name != "" && q in Hang(s.folder, x, q, name, key)
  {
  }

  lemma NegativeRefused(s: Tables, a: nat, u: Unit)
    requires a in s.aggregate && Stored(s, a, u) < 0
    ensures !Countable(s.aggregate)
  {
  }

  /** A batch can only overdraw a folder that has something queued beneath it: the drift check passes it over. */
  lemma OwedPending(s: Tables, batch: set<nat>, a: nat, u: Unit)
    requires Good(s) && a in s.folder && Stored(Apply(s, batch), a, u) < 0
    ensures Pending(s, a)
  {
    hide WellFormed, LiveNamesDiffer, Filed, Numbered, Countable, Apply, Pending, Rolled;
    StoredBeyond(s, batch, a, u);
    NothingRolled(s, batch, a, u);
  }

  lemma NothingRolled(s: Tables, batch: set<nat>, a: nat, u: Unit)
    ensures !Pending(s, a) ==> Rolled(s, batch, a, u) == 0
  {
    if !Pending(s, a) {
      assert Under(s.folder, Claimed(s, batch, u), a) == map[];
    }
  }
}
