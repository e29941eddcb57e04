/**
 Blobs, the rows that reference them, and sweeps that collect what nothing references: writers and janitors
 interleave freely, within delays that are parameters. Times are readings of one clock.
*/
module Retention {
  import opened Common

  type Digest = nat

  /**
   commit: from a blob's put to the commit of the row pointing at it; stage: from the last write of a staged file to
   its rename into the store, which keeps the older timestamp; sweep: from a janitor's reference snapshot to the
   reading of the clock that its cutoff counts back from; grace: how far back.
  */
  datatype Delays = Delays(commit: nat, stage: nat, sweep: nat, grace: nat)

  datatype Put = Put(digest: Digest, at: int)
  datatype Sweep = Sweep(seen: set<Digest>, at: int, cutoff: Option<int>)

  /**
   Timestamps of the stored blobs, puts whose rows have not committed, committed restorable rows, sweeps under way.
  */
  datatype Store = Store(now: int, blobs: map<Digest, int>, pending: map<nat, Put>, rows: map<nat, Digest>,
    sweeps: map<nat, Sweep>)

  datatype Step =
    | Wait(until: int)
    | Freshen(id: nat, digest: Digest)
    | Write(id: nat, digest: Digest, stamp: int)
    | Commit(id: nat)
    | Hold(id: nat, digest: Digest)
    | Abandon(id: nat)
    | Drop(id: nat)
    | Snapshot(janitor: nat)
    | Cutoff(janitor: nat)
    | Remove(janitor: nat, digest: Digest)

  ghost predicate Unused(s: Store, id: nat) {
    id !in s.pending && id !in s.rows
  }

  /** The youngest timestamp a sweep that has taken its snapshot may still come to collect, less one. */
  function Reach(w: Delays, sweep: Sweep): int {
    if sweep.cutoff.Some? then sweep.cutoff.value else sweep.at + w.sweep - w.grace
  }

  /** No sweep under way can take the blob: each has seen a row of it, or it is too young for each. */
  ghost predicate OutOfReach(w: Delays, s: Store, d: Digest) {
    forall j :: j in s.sweeps ==> d in s.sweeps[j].seen || (d in s.blobs && s.blobs[d] >= Reach(w, s.sweeps[j]))
  }

  /**
   Time stops at no deadline: a put commits or is given up, and a sweep takes its cutoff, within their delays. A row
   that begins to hold bytes found by a mere look, without making them young, commits while they are there and out of
   reach.
  */
  ghost predicate Enabled(w: Delays, s: Store, step: Step) {
    match step
    case Wait(until) => s.now <= until && (forall id :: id in s.pending ==> until <= s.pending[id].at + w.commit)
      && (forall j :: j in s.sweeps && s.sweeps[j].cutoff == None ==> until <= s.sweeps[j].at + w.sweep)
    case Freshen(id, d) => Unused(s, id) && d in s.blobs
    case Write(id, _, stamp) => Unused(s, id) && s.now - w.stage <= stamp <= s.now
    case Commit(id) => id in s.pending
    case Hold(id, d) => Unused(s, id) && d in s.blobs && OutOfReach(w, s, d)
    case Abandon(id) => id in s.pending
    case Drop(id) => id in s.rows
    case Snapshot(_) => true
    case Cutoff(j) => j in s.sweeps && s.sweeps[j].cutoff == None
    // The age check and the unlink are one step.
    case Remove(j, d) => j in s.sweeps && s.sweeps[j].cutoff.Some? && d in s.blobs && d !in s.sweeps[j].seen && s.blobs[d] < s.sweeps[j].cutoff.value
  }

  /** The row of a superseded version, or of a file swept away, says the store holds its bytes. */
  function Held(s: Store, id: nat, d: Digest): Store {
    s.(rows := s.rows[id := d])
  }

  ghost function Next(w: Delays, s: Store, step: Step): Store
    requires Enabled(w, s, step)
  {
    match step
    case Wait(until) => s.(now := until)
    case Freshen(id, d) => s.(blobs := s.blobs[d := s.now], pending := s.pending[id := Put(d, s.now)])
    case Write(id, d, stamp) => s.(blobs := s.blobs[d := stamp], pending := s.pending[id := Put(d, s.now)])
    case Commit(id) => s.(rows := s.rows[id := s.pending[id].digest], pending := s.pending - {id})
    case Hold(id, d) => Held(s, id, d)
    case Abandon(id) => s.(pending := s.pending - {id})
    case Drop(id) => s.(rows := s.rows - {id})
    case Snapshot(j) => s.(sweeps := s.sweeps[j := Sweep(s.rows.Values, s.now, None)])
    case Cutoff(j) => s.(sweeps := s.sweeps[j := s.sweeps[j].(cutoff := Some(s.now - w.grace))])
    case Remove(_, d) => s.(blobs := s.blobs - {d})
  }

  ghost predicate History(w: Delays, s: Store, steps: seq<Step>, end: Store)
    decreases |steps|
  {
    if steps == [] then end == s else Enabled(w, s, steps[0]) && History(w, Next(w, s, steps[0]), steps[1..], end)
  }

  const START := Store(0, map[], map[], map[], map[])

  /** Every committed restorable row finds its blob. */
  ghost predicate Retained(s: Store) {
    forall id :: id in s.rows ==> s.rows[id] in s.blobs
  }

  // ------------------------------------------------------------------ why it holds

  ghost predicate PendingYoung(w: Delays, s: Store) {
    forall id :: id in s.pending ==> var p := s.pending[id];
      p.digest in s.blobs && p.at <= s.now <= p.at + w.commit && s.blobs[p.digest] >= p.at - w.stage
  }

  /** A row a sweep has not seen is younger than anything the sweep may take. */
  ghost predicate RowsYoung(w: Delays, s: Store) {
    forall id, j :: id in s.rows && j in s.sweeps && s.rows[id] in s.blobs ==>
      s.rows[id] in s.sweeps[j].seen || s.blobs[s.rows[id]] >= Reach(w, s.sweeps[j])
  }

  ghost predicate Timed(w: Delays, now: int, sweep: Sweep) {
    sweep.at <= now && (sweep.cutoff == None ==> now <= sweep.at + w.sweep)
    && (sweep.cutoff.Some? ==> sweep.cutoff.value <= sweep.at + w.sweep - w.grace)
  }

  ghost predicate SweepsTimed(w: Delays, s: Store) {
    forall j :: j in s.sweeps ==> Timed(w, s.now, s.sweeps[j])
  }

  ghost predicate Inv(w: Delays, s: Store) {
    Retained(s) && PendingYoung(w, s) && RowsYoung(w, s) && SweepsTimed(w, s)
  }

  ghost predicate Fits(w: Delays) {
    w.commit + w.stage + w.sweep <= w.grace
  }

  lemma StepRetains(w: Delays, s: Store, step: Step)
    requires Fits(w) && Inv(w, s) && Enabled(w, s, step)
    ensures Retained(Next(w, s, step))
  {
    if step.Remove? {
      assert Timed(w, s.now, s.sweeps[step.janitor]);
    }
  }

  lemma StepPending(w: Delays, s: Store, step: Step)
    requires Fits(w) && Inv(w, s) && Enabled(w, s, step)
    ensures PendingYoung(w, Next(w, s, step))
  {
    hide RowsYoung, Retained;
    if step.Remove? {
      assert Timed(w, s.now, s.sweeps[step.janitor]);
    }
  }

  lemma StepRows(w: Delays, s: Store, step: Step)
    requires Fits(w) && Inv(w, s) && Enabled(w, s, step)
    ensures RowsYoung(w, Next(w, s, step))
  {
    var s' := Next(w, s, step);
    forall id, j | id in s'.rows && j in s'.sweeps && s'.rows[id] in s'.blobs
      ensures s'.rows[id] in s'.sweeps[j].seen || s'.blobs[s'.rows[id]] >= Reach(w, s'.sweeps[j])
    {
      if !step.Snapshot? {
        assert Timed(w, s.now, s.sweeps[j]);
      } else if id in s.rows {
        assert s.rows[id] in s.rows.Values;
      }
    }
  }

  lemma StepSweeps(w: Delays, s: Store, step: Step)
    requires Inv(w, s) && Enabled(w, s, step)
    ensures SweepsTimed(w, Next(w, s, step))
  {
    hide RowsYoung, Retained, PendingYoung;
    forall j | j in Next(w, s, step).sweeps ensures Timed(w, Next(w, s, step).now, Next(w, s, step).sweeps[j]) {
      assert j in s.sweeps ==> Timed(w, s.now, s.sweeps[j]);
    }
  }

  lemma StepKeeps(w: Delays, s: Store, step: Step)
    requires Fits(w) && Inv(w, s) && Enabled(w, s, step)
    ensures Inv(w, Next(w, s, step))
  {
    hide Enabled, Next, Retained, PendingYoung, RowsYoung, SweepsTimed, Fits;
    StepRetains(w, s, step);
    StepPending(w, s, step);
    StepRows(w, s, step);
    StepSweeps(w, s, step);
  }

  lemma {:induction false} HistoryKeeps(w: Delays, s: Store, steps: seq<Step>, end: Store)
    requires Fits(w) && Inv(w, s) && History(w, s, steps, end)
    ensures Inv(w, end)
    decreases |steps|
  {
    hide Inv, Enabled, Next;
    if steps != [] {
      StepKeeps(w, s, steps[0]);
      HistoryKeeps(w, Next(w, s, steps[0]), steps[1..], end);
    }
  }

  // ------------------------------------------------------------------ why it needs to

  lemma First(w: Delays, s: Store, step: Step, rest: seq<Step>, end: Store)
    requires Enabled(w, s, step) && History(w, Next(w, s, step), rest, end)
    ensures History(w, s, [step] + rest, end)
  {
    assert ([step] + rest)[1..] == rest;
  }

  /** Put, let a sweep look, commit just in time, let the sweep decide just in time. */
  lemma Unlucky(w: Delays) returns (steps: seq<Step>, end: Store)
    requires !Fits(w)
    ensures History(w, START, steps, end) && !Retained(end)
  {
    hide History;
    var s1 := Next(w, START, Write(0, 0, 0 - w.stage));
    var s2 := Next(w, s1, Wait(w.commit));
    var s3 := Next(w, s2, Snapshot(0));
    var s4 := Next(w, s3, Commit(0));
    assert s2.rows.Values == {};
    assert s3.sweeps == map[0 := Sweep({}, w.commit, None)];
    steps, end := TooLate(w, s4);
    First(w, s3, Commit(0), steps, end);
    First(w, s2, Snapshot(0), [Commit(0)] + steps, end);
    First(w, s1, Wait(w.commit), [Snapshot(0)] + ([Commit(0)] + steps), end);
    First(w, START, Write(0, 0, 0 - w.stage), [Wait(w.commit)] + ([Snapshot(0)] + ([Commit(0)] + steps)), end);
    steps := [Write(0, 0, 0 - w.stage)] + ([Wait(w.commit)] + ([Snapshot(0)] + ([Commit(0)] + steps)));
  }

  /** A sweep that looked before the commit, and reads its clock as late as it may. */
  lemma TooLate(w: Delays, s: Store) returns (steps: seq<Step>, end: Store)
    requires !Fits(w) && s.now == w.commit && s.pending == map[] && s.rows == map[0 := 0]
    requires s.blobs == map[0 := 0 - w.stage] && s.sweeps == map[0 := Sweep({}, w.commit, None)]
    ensures History(w, s, steps, end) && !Retained(end)
  {
    var s5 := Next(w, s, Wait(w.commit + w.sweep));
    var s6 := Next(w, s5, Cutoff(0));
    end := Next(w, s6, Remove(0, 0));
    assert History(w, end, [], end);
    First(w, s6, Remove(0, 0), [], end);
    First(w, s5, Cutoff(0), [Remove(0, 0)] + [], end);
    First(w, s, Wait(w.commit + w.sweep), [Cutoff(0)] + ([Remove(0, 0)] + []), end);
    steps := [Wait(w.commit + w.sweep)] + ([Cutoff(0)] + ([Remove(0, 0)] + []));
    assert 0 in end.rows && end.rows[0] == 0;
  }

  ghost predicate RetainedForGood(w: Delays, s: Store) {
    forall steps, end :: History(w, s, steps, end) ==> Retained(end)
  }

  /** No interleaving ever collects a referenced blob exactly when the delays together fit in the grace window. */
  lemma RetentionExactly(w: Delays)
    ensures RetainedForGood(w, START) <==> w.commit + w.stage + w.sweep <= w.grace
  {
    if Fits(w) {
      forall steps, end | History(w, START, steps, end) ensures Retained(end) {
        HistoryKeeps(w, START, steps, end);
      }
    } else {
      var steps, end := Unlucky(w);
      assert History(w, START, steps, end) && !Retained(end);
    }
  }

  // ------------------------------------------------------------------ a row that holds bytes nobody made young

  lemma {:induction false} Append(w: Delays, s: Store, steps: seq<Step>, mid: Store, more: seq<Step>, end: Store)
    requires History(w, s, steps, mid) && History(w, mid, more, end)
    ensures History(w, s, steps + more, end)
    decreases |steps|
  {
    hide Enabled, Next;
    if steps == [] {
      assert steps + more == more;
    } else {
      Append(w, Next(w, s, steps[0]), steps[1..], mid, more, end);
      assert (steps + more)[1..] == steps[1..] + more;
    }
  }

  /** The same blobs and rows, and sweep `j` as it was. */
  ghost predicate Same(s: Store, s': Store, j: nat) {
    s'.now == s.now && s'.blobs == s.blobs && s'.rows == s.rows && j in s'.sweeps && j in s.sweeps
    && s'.sweeps[j] == s.sweeps[j]
  }

  lemma {:induction false} GiveUp(w: Delays, s: Store, j: nat) returns (steps: seq<Step>, end: Store)
    requires j in s.sweeps
    ensures History(w, s, steps, end) && Same(s, end, j) && end.sweeps == s.sweeps && end.pending == map[]
    decreases |s.pending|
  {
    steps, end := [], s;
    if id :| id in s.pending {
      hide History;
      var next := Next(w, s, Abandon(id));
      Fewer(s.pending, id);
      steps, end := GiveUp(w, next, j);
      First(w, s, Abandon(id), steps, end);
      steps := [Abandon(id)] + steps;
    }
  }

  lemma Fewer(pending: map<nat, Put>, id: nat)
    requires id in pending
    ensures |pending - {id}| < |pending|
  {
    assert (pending - {id}).Keys == pending.Keys - {id};
    assert |pending.Keys| == |pending| && |(pending - {id}).Keys| == |pending - {id}|;
  }

  /** The sweeps that have not taken their cutoff. */
  function Open(s: Store): set<nat> {
    set k | k in s.sweeps && s.sweeps[k].cutoff == None
  }

  lemma {:induction false} CutOthers(w: Delays, s: Store, j: nat) returns (steps: seq<Step>, end: Store)
    requires j in s.sweeps && s.pending == map[]
    ensures History(w, s, steps, end) && Same(s, end, j) && end.pending == map[] && Open(end) <= {j}
    decreases |Open(s)|
  {
    steps, end := [], s;
    if k :| k in Open(s) && k != j {
      hide History;
      var next := Next(w, s, Cutoff(k));
      assert Open(next) == Open(s) - {k};
      steps, end := CutOthers(w, next, j);
      First(w, s, Cutoff(k), steps, end);
      steps := [Cutoff(k)] + steps;
    }
  }

  /** Every put gives up, and every other sweep takes its cutoff at once. */
  lemma Quieten(w: Delays, s: Store, j: nat) returns (steps: seq<Step>, end: Store)
    requires j in s.sweeps
    ensures History(w, s, steps, end) && Same(s, end, j) && end.pending == map[]
    ensures forall k :: k in end.sweeps && end.sweeps[k].cutoff == None ==> k == j
  {
    hide History;
    var one, mid := GiveUp(w, s, j);
    var two, last := CutOthers(w, mid, j);
    Append(w, s, one, mid, two, last);
    steps, end := one + two, last;
    assert forall k :: k in end.sweeps && end.sweeps[k].cutoff == None ==> k in Open(end);
  }

  /** A sweep that may still come to take a referenced blob can do so. */
  lemma Taken(w: Delays, s: Store, id: nat, j: nat) returns (steps: seq<Step>, end: Store)
    requires id in s.rows && s.rows[id] in s.blobs && j in s.sweeps && Timed(w, s.now, s.sweeps[j])
    requires s.rows[id] !in s.sweeps[j].seen && s.blobs[s.rows[id]] < Reach(w, s.sweeps[j])
    ensures History(w, s, steps, end) && !Retained(end)
  {
    var d := s.rows[id];
    if s.sweeps[j].cutoff.Some? {
      end := Next(w, s, Remove(j, d));
      First(w, s, Remove(j, d), [], end);
      steps := [Remove(j, d)] + [];
    } else {
      var first, quiet := Quieten(w, s, j);
      var until := quiet.sweeps[j].at + w.sweep;
      var late := Next(w, quiet, Wait(until));
      var cut := Next(w, late, Cutoff(j));
      end := Next(w, cut, Remove(j, d));
      First(w, cut, Remove(j, d), [], end);
      First(w, late, Cutoff(j), [Remove(j, d)] + [], end);
      First(w, quiet, Wait(until), [Cutoff(j)] + ([Remove(j, d)] + []), end);
      Append(w, s, first, quiet, [Wait(until)] + ([Cutoff(j)] + ([Remove(j, d)] + [])), end);
      steps := first + ([Wait(until)] + ([Cutoff(j)] + ([Remove(j, d)] + [])));
    }
    assert id in end.rows && end.rows[id] !in end.blobs;
  }

  /**
   Saying that the store holds these bytes, on the strength of a look alone, is harmless in every future exactly if they
   are still there and no sweep under way can take them: an aged blob nobody referenced when a sweep took its snapshot
   can be lost, whatever the grace window.
  */
  lemma HoldExactly(w: Delays, s: Store, id: nat, d: Digest)
    requires Fits(w) && Inv(w, s) && Unused(s, id)
    ensures RetainedForGood(w, Held(s, id, d)) <==> d in s.blobs && OutOfReach(w, s, d)
  {
    hide Enabled, Next, History, Inv, Retained;
    var held := Held(s, id, d);
    if d in s.blobs && OutOfReach(w, s, d) {
      assert Enabled(w, s, Hold(id, d)) && Next(w, s, Hold(id, d)) == held by { HoldIs(w, s, id, d); }
      StepKeeps(w, s, Hold(id, d));
      forall steps, end | History(w, held, steps, end) ensures Retained(end) {
        HistoryKeeps(w, held, steps, end);
        InvRetains(w, end);
      }
    } else {
      var steps, end := Loss(w, s, id, d);
      assert History(w, held, steps, end) && !Retained(end);
    }
  }

  lemma Loss(w: Delays, s: Store, id: nat, d: Digest) returns (steps: seq<Step>, end: Store)
    requires Inv(w, s) && !(d in s.blobs && OutOfReach(w, s, d))
    ensures History(w, Held(s, id, d), steps, end) && !Retained(end)
  {
    var held := Held(s, id, d);
    if d !in s.blobs {
      steps, end := [], held;
      assert id in held.rows && held.rows[id] == d;
    } else {
      var j :| j in s.sweeps && d !in s.sweeps[j].seen && s.blobs[d] < Reach(w, s.sweeps[j]);
      assert Timed(w, s.now, s.sweeps[j]);
      steps, end := Taken(w, held, id, j);
    }
  }

  lemma HoldIs(w: Delays, s: Store, id: nat, d: Digest)
    requires Unused(s, id) && d in s.blobs && OutOfReach(w, s, d)
    ensures Enabled(w, s, Hold(id, d)) && Next(w, s, Hold(id, d)) == Held(s, id, d)
  {
  }

  lemma InvRetains(w: Delays, s: Store)
    requires Inv(w, s)
    ensures Retained(s)
  {
  }

  /** A blob whose put gave up, aged beyond the grace window, and a sweep that has just looked. */
  lemma Aged(w: Delays) returns (steps: seq<Step>, end: Store)
    ensures History(w, START, steps, end)
    ensures end == Store(w.grace + 1, map[0 := 0], map[], map[], map[0 := Sweep({}, w.grace + 1, None)])
  {
    hide History;
    var s1 := Next(w, START, Write(0, 0, 0));
    var s2 := Next(w, s1, Abandon(0));
    assert s2 == Store(0, map[0 := 0], map[], map[], map[]);
    steps, end := Looked(w, s2);
    First(w, s1, Abandon(0), steps, end);
    First(w, START, Write(0, 0, 0), [Abandon(0)] + steps, end);
    steps := [Write(0, 0, 0)] + ([Abandon(0)] + steps);
  }

  lemma Looked(w: Delays, s: Store) returns (steps: seq<Step>, end: Store)
    requires s == Store(0, map[0 := 0], map[], map[], map[])
    ensures History(w, s, steps, end)
    ensures end == Store(w.grace + 1, map[0 := 0], map[], map[], map[0 := Sweep({}, w.grace + 1, None)])
  {
    var s3 := Next(w, s, Wait(w.grace + 1));
    assert s3.rows.Values == {};
    end := Next(w, s3, Snapshot(0));
    steps := [Wait(w.grace + 1)] + ([Snapshot(0)] + []);
    First(w, s3, Snapshot(0), [], end);
    First(w, s, Wait(w.grace + 1), [Snapshot(0)] + [], end);
  }

  /**
   Such a store is reachable, however long the grace window: a put gives up and leaves its blob, the blob ages, a sweep
   takes its snapshot; then a row begins to hold the blob, and the sweep takes it.
  */
  lemma LostHold(w: Delays) returns (before: seq<Step>, s: Store, after: seq<Step>, end: Store)
    ensures History(w, START, before, s) && Unused(s, 0) && 0 in s.blobs && !OutOfReach(w, s, 0)
    ensures History(w, Held(s, 0, 0), after, end) && !Retained(end)
  {
    hide History;
    before, s := Aged(w);
    assert 0 in s.sweeps && 0 !in s.sweeps[0].seen && s.blobs[0] < Reach(w, s.sweeps[0]);
    after, end := Taken(w, Held(s, 0, 0), 0, 0);
  }

  // ------------------------------------------------------------------ one sweep on its own

  class BlobStore {
    var blobs: map<Digest, int>

    constructor ()
      ensures blobs == map[]
    {
      blobs := map[];
    }

    /** A reference to a stored blob makes it young again; one that is gone is written again. */
    method PutBytes(digest: Digest, now: int, stamp: int)
      modifies this
      ensures blobs == old(blobs)[digest := if digest in old(blobs) then now else stamp]
    {
      var fresh' := Freshen(digest, now);
      if !fresh' {
        blobs := blobs[digest := stamp];
      }
    }

    method Freshen(digest: Digest, now: int) returns (there: bool)
      modifies this
      ensures there <==> digest in old(blobs)
      ensures blobs == if there then old(blobs)[digest := now] else old(blobs)
    {
      there := digest in blobs;
      if there {
        blobs := blobs[digest := now];
      }
    }

    /** Unlink what is neither referenced nor within the grace window, and nothing else. */
    method CollectBlobs(referenced: set<Digest>, now: int, grace: nat) returns (removed: nat)
      modifies this
      ensures blobs.Keys == set d | d in old(blobs) && (d in referenced || old(blobs)[d] >= now - grace)
      ensures forall d :: d in blobs ==> blobs[d] == old(blobs)[d]
      ensures removed == |old(blobs)| - |blobs|
    {
      var cutoff := now - grace;
      removed := 0;
      var left := blobs.Keys;
      while left != {}
        invariant left <= old(blobs).Keys && blobs.Keys <= old(blobs).Keys && left <= blobs.Keys
        invariant forall d :: d in blobs ==> blobs[d] == old(blobs)[d]
        invariant forall d :: d in old(blobs) && d !in left ==>
          (d in blobs <==> d in referenced || old(blobs)[d] >= cutoff)
        invariant removed == |old(blobs)| - |blobs|
        decreases left
      {
        var digest :| digest in left;
        left := left - {digest};
        if digest in referenced || blobs[digest] >= cutoff {
          continue;
        }
        Removed(blobs, digest);
        blobs := blobs - {digest};
        removed := removed + 1;
      }
    }
  }

  lemma Removed(blobs: map<Digest, int>, digest: Digest)
    requires digest in blobs
    ensures |blobs - {digest}| == |blobs| - 1
  {
    assert (blobs - {digest}).Keys == blobs.Keys - {digest};
    assert |blobs.Keys| == |blobs| && |(blobs - {digest}).Keys| == |blobs - {digest}|;
  }

  // ------------------------------------------------------------------ the store's own calls are steps of the histories

  /** A put is a freshen or a write, and its row may commit from then on. */
  method PutStep(store: BlobStore, w: Delays, ghost s: Store, id: nat, digest: Digest, now: int, stamp: int)
    returns (ghost step: Step)
    requires store.blobs == s.blobs && now == s.now && Unused(s, id) && now - w.stage <= stamp <= now
    modifies store
    ensures Enabled(w, s, step) && store.blobs == Next(w, s, step).blobs
    ensures Next(w, s, step).pending == s.pending[id := Put(digest, now)] && Next(w, s, step).rows == s.rows
  {
    step := if digest in s.blobs then Freshen(id, digest) else Write(id, digest, stamp);
    store.PutBytes(digest, now, stamp);
  }

  /** An undisturbed collection is a snapshot of the references, a cutoff, and one removal after the other. */
  method CollectSteps(store: BlobStore, w: Delays, ghost s: Store, referenced: set<Digest>, j: nat, now: int)
    returns (removed: nat, ghost steps: seq<Step>, ghost end: Store)
    requires store.blobs == s.blobs && now == s.now && referenced == s.rows.Values
    modifies store
    ensures History(w, s, steps, end) && store.blobs == end.blobs
    ensures end.rows == s.rows && end.pending == s.pending && removed == |s.blobs| - |end.blobs|
  {
    hide History, Next, Enabled;
    removed := store.CollectBlobs(referenced, now, w.grace);
    steps, end := Collected(w, s, j, store.blobs);
  }

  lemma Collected(w: Delays, s: Store, j: nat, left: map<Digest, int>) returns (steps: seq<Step>, end: Store)
    requires left.Keys == set d | d in s.blobs && (d in s.rows.Values || s.blobs[d] >= s.now - w.grace)
    requires forall d :: d in left ==> left[d] == s.blobs[d]
    ensures History(w, s, steps, end) && end.blobs == left && end.rows == s.rows && end.pending == s.pending
  {
    hide History;
    var taken := Next(w, s, Snapshot(j));
    var ready := Next(w, taken, Cutoff(j));
    steps, end := RemoveAll(w, ready, j, s.blobs.Keys - left.Keys);
    First(w, taken, Cutoff(j), steps, end);
    First(w, s, Snapshot(j), [Cutoff(j)] + steps, end);
    steps := [Snapshot(j)] + ([Cutoff(j)] + steps);
  }

  lemma {:induction false} RemoveAll(w: Delays, s: Store, j: nat, gone: set<Digest>)
    returns (steps: seq<Step>, end: Store)
    requires j in s.sweeps && s.sweeps[j].cutoff.Some?
    requires forall d :: d in gone ==> d in s.blobs && d !in s.sweeps[j].seen && s.blobs[d] < s.sweeps[j].cutoff.value
    ensures History(w, s, steps, end) && end == s.(blobs := s.blobs - gone)
    decreases gone
  {
    steps, end := [], s;
    if d :| d in gone {
      hide History;
      var next := Next(w, s, Remove(j, d));
      steps, end := RemoveAll(w, next, j, gone - {d});
      First(w, s, Remove(j, d), steps, end);
      steps := [Remove(j, d)] + steps;
    }
    assert end.blobs == s.blobs - gone;
  }
}
