/**
 The record of extraction runs beside the queue, over every interleaving of workers: what a claim, a report or a release
 does to a job it does to the run in the same transaction, and reconciling may happen at any time.
*/
module Recording {
  import opened Common
  import opened Operations
  import opened Queueing
  import opened Mirroring
  import F = Fencing

  /** The queue with its workers, and the runs. */
  datatype Record = Record(world: F.World, run: Runs)

  datatype Event = Job(id: nat, row: Operation) | Queue(step: F.Step) | Reconcile(now: int)

  /** A job is created with its run; failures are reported when the answer is the state the job is left in. */
  ghost predicate Enabled(r: Record, e: Event) {
    match e
    case Job(id, row) => F.Fits(r.world.rows, id, row) && id !in r.run
    case Queue(Fail(c, retryable, at)) => F.Enabled(r.world, F.Step.Fail(c, retryable, at)) && Reported(r, c, retryable)
    case Queue(step) => F.Enabled(r.world, step)
    case Reconcile(_) => true
  }

  ghost predicate Reported(r: Record, c: Ticket, retryable: bool) {
    c.id in r.run && c.id in r.world.rows ==> Reportable(r.world.rows, c, retryable)
  }

  ghost function Written(run: Runs, id: nat, to: State): Runs {
    if id in run then run[id := to] else run
  }

  /** What the transaction of one step writes into the run. */
  ghost function Recorded(w: F.World, run: Runs, step: F.Step): Runs
    requires F.Enabled(w, step)
  {
    match step
    case Claim(id, worker, _, until) => if ClaimedRow(w.rows[id], worker, until).state == DeadLetter then run
      else Written(run, id, Running)
    case Succeed(c) => if Owns(w.rows, c) then Written(run, c.id, Succeeded) else run
    case Fail(c, retryable, _) => if FailAnswer(w.rows, c, retryable).Some? then Written(run, c.id, FailAnswer(w.rows, c, retryable).value) else run
    case Release(c, _) =>
      if Owns(w.rows, c) && w.rows[c.id].leasedBy == Some(c.worker) && !KeyHeld(w.rows, c.id) then Written(run, c.id, Queued) else run
    case _ => run
  }

  ghost function Next(r: Record, e: Event): Record
    requires Enabled(r, e)
  {
    match e
    case Job(id, row) => Record(F.Next(r.world, F.Step.Enqueue(id, row)), r.run[id := Queued])
    case Queue(step) => Record(F.Next(r.world, step), Recorded(r.world, r.run, step))
    case Reconcile(now) => r.(run := WaitingRuns(EndedRuns(r.run, r.world.rows), r.world.rows, now))
  }

  ghost predicate History(r: Record, events: seq<Event>, end: Record)
    decreases |events|
  {
    if events == [] then end == r else Enabled(r, events[0]) && History(Next(r, events[0]), events[1..], end)
  }

  ghost predicate Inv(r: Record) {
    F.Inv(r.world) && Truthful(r.run, r.world.rows) && forall id :: id in r.run ==> id in r.world.rows
  }

  const START := Record(F.START, map[])

  // ------------------------------------------------------------------ each event keeps the record truthful

  /** A run whose job did not change ends only as its job did. */
  lemma OneWritten(run: Runs, rows: Table, rows': Table, id: nat, to: State)
    requires Truthful(run, rows) && F.Gentle(rows, rows') && (forall i :: i in run ==> i in rows)
    requires id in run && Terminal(to) ==> id in rows' && rows'[id].state == to
    ensures Truthful(Written(run, id, to), rows') && forall i :: i in Written(run, id, to) ==> i in rows'
  {
    forall i | i in run ensures i in rows' && F.RowGentle(rows[i], rows'[i]) {
    }
  }

  lemma NoneWritten(run: Runs, rows: Table, rows': Table)
    requires Truthful(run, rows) && F.Gentle(rows, rows') && (forall i :: i in run ==> i in rows)
    ensures Truthful(run, rows') && forall i :: i in run ==> i in rows'
  {
    forall i | i in run ensures i in rows' && F.RowGentle(rows[i], rows'[i]) {
    }
  }

  lemma StepRecorded(r: Record, step: F.Step)
    requires Inv(r) && Enabled(r, Queue(step))
    ensures Inv(Next(r, Queue(step)))
  {
    hide F.Inv, F.Gentle, Truthful, F.Enabled, KeyHeld, Reportable;
    var rows, rows' := r.world.rows, F.Next(r.world, step).rows;
    F.StepKeeps(r.world, step);
    NoneWritten(r.run, rows, rows');
    match step {
      case Claim(id, _, _, _) => OneWritten(r.run, rows, rows', id, Running);
      case Succeed(c) =>
        if Owns(rows, c) {
          OneWritten(r.run, rows, rows', c.id, Succeeded);
        }
      case Release(c, _) => OneWritten(r.run, rows, rows', c.id, Queued);
      case Fail(c, retryable, at) =>
        if c.id in r.run && FailAnswer(rows, c, retryable).Some? {
          AbandonedTruth(r.run, rows, c, retryable, at);
          assert rows' == FailedRows(rows, c, retryable, at);
        }
      case _ =>
    }
  }

  lemma EventKeeps(r: Record, e: Event)
    requires Inv(r) && Enabled(r, e)
    ensures Inv(Next(r, e))
  {
    hide F.Inv, Truthful, F.Gentle;
    match e {
      case Queue(step) => StepRecorded(r, step);
      case Job(id, row) =>
        F.StepKeeps(r.world, F.Step.Enqueue(id, row));
        NoneWritten(r.run, r.world.rows, r.world.rows[id := row]);
        NewRun(r.run, r.world.rows[id := row], id);
      case Reconcile(now) => ReconciledKeeps(r, now);
    }
  }

  lemma NewRun(run: Runs, rows: Table, id: nat)
    requires Truthful(run, rows)
    ensures Truthful(run[id := Queued], rows)
  {
  }

  lemma ReconciledKeeps(r: Record, now: int)
    requires Inv(r)
    ensures Inv(Next(r, Reconcile(now))) && Agrees(Next(r, Reconcile(now)).run, r.world.rows, now)
  {
    hide F.OpenStand, F.HandedInOrder, F.EffectsMatch;
    var middle := EndedRuns(r.run, r.world.rows);
    Corrected(r.run, r.world.rows, now, set id | id in r.run && Ended(r.run, r.world.rows, id),
              set id | id in middle && WaitsAgain(middle, r.world.rows, now, id));
  }

  lemma {:induction false} HistoryKeeps(r: Record, events: seq<Event>, end: Record)
    requires Inv(r) && History(r, events, end)
    ensures Inv(end)
    decreases |events|
  {
    hide Inv, Enabled, Next;
    if events != [] {
      EventKeeps(r, events[0]);
      HistoryKeeps(Next(r, events[0]), events[1..], end);
    }
  }

  lemma StartsTruthful()
    ensures Inv(START)
  {
    F.StartInv();
  }

  // ------------------------------------------------------------------ what it comes to

  /**
   In every history a run that says it ended says what its job says, and reconciling at any point makes the two agree.
  */
  lemma RecordHolds(events: seq<Event>, end: Record, now: int)
    requires History(START, events, end)
    ensures Truthful(end.run, end.world.rows)
    ensures Agrees(Next(end, Reconcile(now)).run, end.world.rows, now)
    ensures Next(Next(end, Reconcile(now)), Reconcile(now)) == Next(end, Reconcile(now))
  {
    hide History, F.Inv;
    StartsTruthful();
    HistoryKeeps(START, events, end);
    ReconciledKeeps(end, now);
    ReconciledKeeps(Next(end, Reconcile(now)), now);
    NothingMore(Next(end, Reconcile(now)), now);
  }

  /** A second pass finds nothing to correct. */
  lemma NothingMore(r: Record, now: int)
    requires Inv(r) && Agrees(r.run, r.world.rows, now)
    ensures Next(r, Reconcile(now)).run == r.run
  {
    hide F.OpenStand, F.HandedInOrder, F.EffectsMatch;
    var middle := EndedRuns(r.run, r.world.rows);
    Corrected(r.run, r.world.rows, now, set id | id in r.run && Ended(r.run, r.world.rows, id),
              set id | id in middle && WaitsAgain(middle, r.world.rows, now, id));
  }

  /**
   When a claim still out may report its failure: always if it may be retried, and otherwise exactly if the claim is
   current or the job has failed already. A late permanent failure is answered as if it had been written.
  */
  lemma ReportableExactly(events: seq<Event>, end: Record, c: Ticket, retryable: bool)
    requires History(START, events, end) && c in end.world.open
    ensures c.id in end.world.rows
    ensures Reportable(end.world.rows, c, retryable) <==>
      retryable || Owns(end.world.rows, c) || end.world.rows[c.id].state == Failed
  {
    hide History, F.HandedInOrder, F.EffectsMatch, OneQueuedPerKey;
    StartsTruthful();
    HistoryKeeps(START, events, end);
    assert F.Standing(end.world.rows, c);
  }

  /**
   An input on which the answer is not the state: claimed by one worker, the lease run out, claimed by another, and then
   a permanent failure reported by the first. It is answered as failed while the job runs, and mirrored it would end the
   run.
  */
  lemma LateFailure(kind: string) returns (steps: seq<F.Step>, end: F.World, c: Ticket)
    ensures F.History(F.START, steps, end) && c in end.open && c.id in end.rows
    ensures FailAnswer(end.rows, c, false) == Some(Failed) && FailedRows(end.rows, c, false, 0) == end.rows
    ensures end.rows[c.id].state == Running
    ensures !Reportable(end.rows, c, false) && !Truthful(map[c.id := Failed], end.rows)
  {
    var row := NewRow(kind, 0, 2, 0, None);
    var w1 := F.Next(F.START, F.Step.Enqueue(0, row));
    var w2 := F.Next(w1, F.Step.Claim(0, 1, 0, 10));
    end := F.Next(w2, F.Step.Claim(0, 2, 11, 20));
    c := Ticket(0, 1, 2, 1);
    OneStep(F.START, F.Step.Enqueue(0, row), [F.Step.Claim(0, 1, 0, 10)] + ([F.Step.Claim(0, 2, 11, 20)] + []), end) by {
      OneStep(w1, F.Step.Claim(0, 1, 0, 10), [F.Step.Claim(0, 2, 11, 20)] + [], end) by {
        OneStep(w2, F.Step.Claim(0, 2, 11, 20), [], end);
      }
    }
    steps := [F.Step.Enqueue(0, row)] + ([F.Step.Claim(0, 1, 0, 10)] + ([F.Step.Claim(0, 2, 11, 20)] + []));
  }

  lemma OneStep(w: F.World, step: F.Step, rest: seq<F.Step>, end: F.World)
    requires F.Enabled(w, step) && F.History(F.Next(w, step), rest, end)
    ensures F.History(w, [step] + rest, end)
  {
    assert ([step] + rest)[1..] == rest;
  }
}
