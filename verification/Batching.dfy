/**
 A rollup by batches (aggregates.py `roll_up`): which rows each batch takes, and when one of them is refused for good.
*/
module Batching {
  import opened Common
  import opened Totals
  import opened FolderTree
  import opened Rollup
  import opened Steps
  import opened Moves

  /** Deltas claimed per statement. */
  const BATCH := 1000

  /** Batches per run. */
  const BATCHES_PER_RUN := 50

  // ------------------------------------------------------------------ the smallest ids

  function Before(ids: set<nat>, k: nat): set<nat> {
    set o | o in ids && o < k
  }

  /** The `n` smallest. */
  function FirstIds(ids: set<nat>, n: nat): set<nat> {
    set k | k in ids && |Before(ids, k)| < n
  }

  lemma Fewer(a: set<nat>, b: set<nat>)
    requires a <= b
    ensures |a| <= |b| && (a != b ==> |a| < |b|)
  {
    assert b == a + (b - a) && a !! (b - a);
    if a != b {
      var x :| x in b - a;
      assert |b - a| >= 1;
    }
  }

  function Range(from: nat, n: nat): (range: set<nat>)
    ensures |range| == n && forall k: nat :: k in range <==> from <= k < from + n
  {
    if n == 0 then {} else Range(from, n - 1) + {from + n - 1}
  }

  lemma RangeSize(from: nat, n: nat, range: set<nat>)
    requires forall k: nat :: k in range <==> from <= k < from + n
    ensures |range| == n
  {
    assert range == Range(from, n);
  }

  /** What a limited, ordered claim takes is determined. */
  lemma BatchIsFirst(ids: set<nat>, n: nat, batch: set<nat>)
    requires Batch(ids, n, batch)
    ensures batch == FirstIds(ids, n)
  {
    forall k | k in ids ensures k in batch <==> |Before(ids, k)| < n {
      if k in batch {
        assert Before(ids, k) <= batch - {k};
        Fewer(Before(ids, k), batch - {k});
      } else {
        assert batch <= Before(ids, k);
        Fewer(batch, Before(ids, k));
      }
    }
  }

  lemma FirstIsAll(ids: set<nat>, n: nat)
    requires |ids| <= n
    ensures FirstIds(ids, n) == ids
  {
    forall k | k in ids ensures |Before(ids, k)| < n {
      Fewer(Before(ids, k), ids);
    }
  }

  /** A batch after a batch is a longer batch. */
  lemma BatchOnward(ids: set<nat>, m: nat, taken: set<nat>, n: nat, batch: set<nat>)
    requires Batch(ids, m, taken) && Batch(ids - taken, n, batch)
    ensures Batch(ids, m + n, taken + batch) && taken !! batch
  {
    assert |taken + batch| == |taken| + |batch|;
    if |taken + batch| < m + n {
      assert taken + batch == ids;
    }
  }

  /** As long as something is left a batch is full. */
  lemma FullBatch(ids: set<nat>, m: nat, taken: set<nat>)
    requires Batch(ids, m, taken) && taken != ids
    ensures |taken| == m < |ids|
  {
    Fewer(taken, ids);
  }

  // ------------------------------------------------------------------ one batch after another

  lemma ApplyNone(s: Tables)
    requires forall a :: a in s.folder <==> a in s.aggregate
    ensures Apply(s, {}) == s
  {
    forall a, u ensures Rolled(s, {}, a, u) == 0 {
      assert Under(s.folder, Claimed(s, {}, u), a) == map[];
    }
    assert Unclaimed(s.delta, {}) == s.delta;
    assert Apply(s, {}).aggregate == s.aggregate;
  }

  lemma RolledTwice(s: Tables, taken: set<nat>, batch: set<nat>, a: nat, u: Unit)
    requires taken !! batch
    ensures Rolled(s, taken + batch, a, u) == Rolled(s, taken, a, u) + Rolled(Apply(s, taken), batch, a, u)
  {
    hide Total;
    assert Claimed(Apply(s, taken), batch, u) == Claimed(s, batch, u);
    Join(Under(s.folder, Claimed(s, taken, u), a), Under(s.folder, Claimed(s, batch, u), a),
      Under(s.folder, Claimed(s, taken + batch, u), a));
  }

  lemma ApplyTwice(s: Tables, taken: set<nat>, batch: set<nat>)
    requires taken !! batch
    ensures Apply(Apply(s, taken), batch) == Apply(s, taken + batch)
  {
    hide Rolled;
    var twice, once := Apply(Apply(s, taken), batch), Apply(s, taken + batch);
    forall a | a in s.aggregate ensures twice.aggregate[a] == once.aggregate[a] {
      RolledTwice(s, taken, batch, a, Files);
      RolledTwice(s, taken, batch, a, Bytes);
    }
    assert twice.delta == once.delta;
  }

  lemma LeftQueued(s: Tables, workspace: nat, taken: set<nat>)
    ensures QueuedIn(Apply(s, taken), workspace) == QueuedIn(s, workspace) - taken
  {
  }

  /** The live files beneath a folder are no concern of the queue. */
  lemma ExceedsOnward(s: Tables, taken: set<nat>, batch: set<nat>)
    requires taken !! batch
    ensures Exceeds(Apply(s, taken), batch) <==> Exceeds(s, taken + batch)
  {
    hide QueuedUnder, Truth, Apply;
    ApplyTwice(s, taken, batch);
    SameFolders(s, taken);
    forall a, u ensures Truth(Apply(s, taken), a, u) == Truth(s, a, u) {
      SameLive(s, taken, a, u);
    }
  }

  lemma SameFolders(s: Tables, taken: set<nat>)
    ensures Apply(s, taken).folder == s.folder
  {
  }

  lemma SameLive(s: Tables, taken: set<nat>, a: nat, u: Unit)
    ensures Truth(Apply(s, taken), a, u) == Truth(s, a, u)
  {
    assert Live(Apply(s, taken), u) == Live(s, u);
  }

  // ------------------------------------------------------------------ refused for good

  /** Beyond the first k + 1 batches queued for the workspace there is more, beneath some folder, than live files. */
  ghost predicate BlockedAt(s: Tables, workspace: nat, k: nat) {
    Exceeds(s, FirstIds(QueuedIn(s, workspace), (k + 1) * BATCH))
  }

  /**
   The next batch is refused, and so is every retry: a refused batch changes nothing, so the same rows are claimed
   again.
  */
  ghost predicate Stuck(s: Tables, workspace: nat) {
    BlockedAt(s, workspace, 0)
  }

  lemma StuckMeans(s: Tables, workspace: nat, batch: set<nat>)
    requires Good(s) && Batch(QueuedIn(s, workspace), BATCH, batch)
    ensures Stuck(s, workspace) <==> !Countable(Apply(s, batch).aggregate)
    ensures Stuck(s, workspace) ==> Drain(s, batch) == s
  {
    hide Good, Exceeds, Apply, Countable, QueuedIn;
    BatchIsFirst(QueuedIn(s, workspace), BATCH, batch);
    BatchGoesThrough(s, batch);
  }

  lemma AllGoThrough(s: Tables, workspace: nat, k: nat)
    requires Good(s) && |QueuedIn(s, workspace)| <= (k + 1) * BATCH
    ensures !BlockedAt(s, workspace, k)
  {
    hide Good, Exceeds, Apply, QueuedIn;
    FirstIsAll(QueuedIn(s, workspace), (k + 1) * BATCH);
    FullDrainGoesThrough(s, workspace);
  }

  // ------------------------------------------------------------------ a rollup under way

  /** So many batches of the queue a rollup began with went through, and they took these rows. */
  ghost predicate RolledTo(s: Tables, workspace: nat, batches: nat, taken: set<nat>) {
    var ids := QueuedIn(s, workspace);
    Batch(ids, batches * BATCH, taken) && (forall k: nat :: k < batches ==> !BlockedAt(s, workspace, k)) &&
    (batches == 0 || |ids| > (batches - 1) * BATCH)
  }

  lemma RollUpStarts(s: Tables, workspace: nat)
    requires Sound(s)
    ensures Apply(s, {}) == s && RolledTo(s, workspace, 0, {})
  {
    hide WellFormed, LiveNamesDiffer, Filed, Numbered, Countable, Apply, QueuedIn, BlockedAt;
    ApplyNone(s);
  }

  /** The next batch, as a longer batch of the queue the rollup began with. */
  lemma NextBatch(s: Tables, workspace: nat, batches: nat, taken: set<nat>, claimed: set<nat>)
    requires Good(s) && Good(Apply(s, taken)) && RolledTo(s, workspace, batches, taken)
    requires Batch(QueuedIn(Apply(s, taken), workspace), BATCH, claimed)
    ensures var failed := !Countable(Apply(Apply(s, taken), claimed).aggregate);
      (failed <==> BlockedAt(s, workspace, batches)) && (failed <==> Stuck(Apply(s, taken), workspace)) &&
      (!failed && claimed != {} ==> RolledTo(s, workspace, batches + 1, taken + claimed))
    ensures taken !! claimed
    ensures claimed == {} ==> QueuedIn(Apply(s, taken), workspace) == {} && taken == QueuedIn(s, workspace)
  {
    hide Good, Countable, Apply, QueuedIn, Exceeds, FirstIds, BlockedAt, Batch;
    var ids := QueuedIn(s, workspace);
    LeftQueued(s, workspace, taken);
    BatchOnward(ids, batches * BATCH, taken, BATCH, claimed);
    BlockedIs(s, workspace, batches, taken + claimed);
    BatchGoesThrough(Apply(s, taken), claimed);
    ExceedsOnward(s, taken, claimed);
    StuckMeans(Apply(s, taken), workspace, claimed);
    if claimed != {} {
      SomeLeft(ids, taken, claimed, BATCH);
      FullBatch(ids, batches * BATCH, taken);
    } else {
      NoneLeft(ids - taken, BATCH);
      assert Batch(ids, batches * BATCH, taken) ==> taken <= ids by { Taking(ids, batches * BATCH, taken); }
    }
  }

  lemma BlockedIs(s: Tables, workspace: nat, k: nat, batch: set<nat>)
    requires Batch(QueuedIn(s, workspace), (k + 1) * BATCH, batch)
    ensures BlockedAt(s, workspace, k) <==> Exceeds(s, batch)
  {
    hide Exceeds, QueuedIn, FirstIds, Batch;
    BatchIsFirst(QueuedIn(s, workspace), (k + 1) * BATCH, batch);
  }

  lemma Taking(ids: set<nat>, n: nat, batch: set<nat>)
    requires Batch(ids, n, batch)
    ensures batch <= ids
  {
  }

  lemma SomeLeft(ids: set<nat>, taken: set<nat>, claimed: set<nat>, n: nat)
    requires Batch(ids - taken, n, claimed) && claimed != {}
    ensures taken != ids
  {
  }

  lemma NoneLeft(ids: set<nat>, n: nat)
    requires Batch(ids, n, {}) && n > 0
    ensures ids == {}
  {
  }

  /** Refused after so many batches: where, and what it says about the queue. */
  lemma RolledRefused(s: Tables, workspace: nat, batches: nat, taken: set<nat>)
    requires Good(s) && RolledTo(s, workspace, batches, taken) && BlockedAt(s, workspace, batches)
    ensures taken == FirstIds(QueuedIn(s, workspace), batches * BATCH)
    ensures forall k: nat :: k < batches ==> !BlockedAt(s, workspace, k)
    ensures Stuck(s, workspace) ==> batches == 0 && taken == {}
    ensures |QueuedIn(s, workspace)| > BATCH
  {
    hide Good, QueuedIn, BlockedAt, FirstIds;
    BatchIsFirst(QueuedIn(s, workspace), batches * BATCH, taken);
    if |QueuedIn(s, workspace)| <= (batches + 1) * BATCH {
      AllGoThrough(s, workspace, batches);
    }
  }

  /** Nothing left after so many batches. */
  lemma RolledDry(s: Tables, workspace: nat, batches: nat, taken: set<nat>)
    requires Good(s) && RolledTo(s, workspace, batches, taken) && taken == QueuedIn(s, workspace)
    requires batches < BATCHES_PER_RUN
    ensures taken == FirstIds(QueuedIn(s, workspace), batches * BATCH) && (forall k: nat :: !BlockedAt(s, workspace, k))
    ensures |QueuedIn(s, workspace)| <= (BATCHES_PER_RUN - 1) * BATCH
  {
    hide Good, QueuedIn, BlockedAt, FirstIds;
    BatchIsFirst(QueuedIn(s, workspace), batches * BATCH, taken);
    forall k: nat ensures !BlockedAt(s, workspace, k) {
      if k >= batches {
        assert |QueuedIn(s, workspace)| <= batches * BATCH <= (k + 1) * BATCH;
        AllGoThrough(s, workspace, k);
      }
    }
  }

  /** As many batches as a run may take. */
  lemma RolledOut(s: Tables, workspace: nat, taken: set<nat>)
    requires RolledTo(s, workspace, BATCHES_PER_RUN, taken)
    ensures taken == FirstIds(QueuedIn(s, workspace), BATCHES_PER_RUN * BATCH)
    ensures forall k: nat :: k < BATCHES_PER_RUN ==> !BlockedAt(s, workspace, k)
    ensures |QueuedIn(s, workspace)| > (BATCHES_PER_RUN - 1) * BATCH
  {
    hide QueuedIn, BlockedAt, FirstIds;
    BatchIsFirst(QueuedIn(s, workspace), BATCHES_PER_RUN * BATCH, taken);
  }
}
