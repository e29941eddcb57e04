/**
 What workers do at the queue and at the record beside it, call by call: each call is a step of the histories that
 `Fencing` and `Recording` speak of.
*/
module Working {
  import opened Common
  import opened Operations
  import opened Queueing
  import opened Mirroring
  import F = Fencing
  import R = Recording

  /** Nobody holds the key of a row that may be enqueued. */
  lemma NotYetThere(t: Table, id: nat, row: Operation)
    requires F.Fits(t, id, row)
    ensures row == NewRow(row.kind, row.priority, row.maxAttempts, row.dueAt, row.key)
    ensures row.key.Some? ==> !Held(t, row.key.value) && forall j :: !QueuedUnder(t, row.key.value, j)
    ensures row.key.Some? ==> forall j :: j in t && t[j].key == row.key ==> t[j].state != Queued
  {
  }

  /** With every other row locked, this is the one a claim takes. */
  lemma OnlyFree(t: Table, id: nat, now: int)
    requires id in t && Claimable(t[id], now)
    ensures forall i :: Free(t, None, t.Keys - {id}, now, i) <==> i == id
  {
  }

  lemma TakenIs(t: Table, t': Table, id: nat, locked: set<nat>, now: int, worker: nat, until: int, c: Option<Ticket>)
    requires id in t && (forall i :: Free(t, None, locked, now, i) <==> i == id)
    requires exists i :: Taken(t, t', None, locked, now, worker, until, i, c)
    ensures t' == t[id := ClaimedRow(t[id], worker, until)]
    ensures c == if t'[id].state == Running then Some(Ticket(id, t'[id].attempt, t'[id].maxAttempts, worker)) else None
  {
  }

  /** The call that takes the step. What is out, handed out and committed follows from what it answers. */
  method Perform(q: Queue, ghost w: F.World, s: F.Step) returns (ghost w': F.World)
    requires F.Inv(w) && F.Enabled(w, s) && q.rows == w.rows
    modifies q
    ensures q.rows == w'.rows && w' == F.Next(w, s) && F.Inv(w')
  {
    hide F.Inv, Sane, FailedRows, ReleasedRows, CancelAsked, Beaten, Finished;
    F.StepKeeps(w, s);
    F.InvSane(w);
    w' := w;
    match s {
      case Enqueue(id, row) =>
        var t := q.rows;
        NotYetThere(t, id, row);
        var others := [t, t, t, t, t, t, t];
        var got := q.Enqueue(id, row, false, others);
        assert row.key.Some? ==> !Churned(others, row.key.value, false, 0);
      case Claim(id, worker, now, until) =>
        var t, locked := q.rows, q.rows.Keys - {id};
        OnlyFree(t, id, now);
        assert Free(t, None, locked, now, id);
        var taken := q.Claim(worker, None, locked, now, until);
        TakenIs(t, q.rows, id, locked, now, worker, until, taken);
        if taken.Some? {
          w' := w.(open := w.open + {taken.value}, handed := w.handed + [taken.value]);
        }
      case Beat(c, until) =>
        var _, _ := q.Heartbeat(c, until);
      case Succeed(c) =>
        var done := q.Finish(c, Succeeded);
        w' := w.(open := w.open - {c}, effects := if done then w.effects + [c] else w.effects);
      case Fail(c, retryable, retryAt) =>
        var _ := q.Fail(c, retryable, retryAt);
        w' := w.(open := w.open - {c});
      case Release(c, now) =>
        var _ := q.Release(c, now);
        w' := w.(open := w.open - {c});
      case Stopped(c) =>
        var _ := q.Finish(c, Cancelled);
        w' := w.(open := w.open - {c});
      case Die(c) => w' := w.(open := w.open - {c});
      case RequestCancel(id) =>
        var _ := q.RequestCancel(id);
      case Expedite(id, now) =>
        var _ := q.Expedite(id, now);
    }
    w' := w'.(rows := q.rows);
  }

  /** Whole histories of workers and queue are what the queue does call by call. */
  method Serve(q: Queue, ghost w: F.World, steps: seq<F.Step>, ghost end: F.World)
    requires F.Inv(w) && F.History(w, steps, end) && q.rows == w.rows
    modifies q
    ensures q.rows == end.rows && F.Inv(end)
  {
    hide F.Inv, F.Next, F.Enabled;
    ghost var at := w;
    var n := 0;
    assert steps[n..] == steps;
    while n < |steps|
      invariant 0 <= n <= |steps| && F.Inv(at) && F.History(at, steps[n..], end) && q.rows == at.rows
    {
      assert steps[n..][0] == steps[n] && steps[n..][1..] == steps[n + 1..];
      at := Perform(q, at, steps[n]);
      n := n + 1;
    }
  }

  // ------------------------------------------------------------------ the record beside the queue

  datatype Call =
    | Create(id: nat, row: Operation)
    | Take(kind: string, worker: nat, locked: set<nat>, now: int, until: int)
    | Finish(ticket: Ticket)
    | Abandon(ticket: Ticket, retryable: bool, retryAt: int)
    | Release(ticket: Ticket, now: int)
    | Settle(now: int)

  /** Jobs are created once; only a claim still out reports, and a failure when the answer can be true. */
  ghost predicate Callable(r: R.Record, call: Call) {
    match call
    case Create(id, row) => F.Fits(r.world.rows, id, row) && id !in r.run
    case Finish(c) => c in r.world.open
    case Abandon(c, retryable, _) =>
      c in r.world.open && c.id in r.run && c.id in r.world.rows && Reportable(r.world.rows, c, retryable)
    case Release(c, _) => c in r.world.open
    case _ => true
  }

  lemma OneEvent(r: R.Record, e: R.Event)
    requires R.Inv(r) && R.Enabled(r, e)
    ensures R.History(r, [e], R.Next(r, e)) && R.Inv(R.Next(r, e))
  {
    hide R.Inv, R.Next, R.Enabled;
    R.EventKeeps(r, e);
    assert R.History(R.Next(r, e), [], R.Next(r, e));
  }

  lemma TwoEvents(r: R.Record, e: R.Event, e': R.Event)
    requires R.Inv(r) && R.Enabled(r, e) && R.Enabled(R.Next(r, e), e')
    ensures R.History(r, [e, e'], R.Next(R.Next(r, e), e')) && R.Inv(R.Next(R.Next(r, e), e'))
  {
    hide R.Inv, R.Next, R.Enabled;
    R.EventKeeps(r, e);
    OneEvent(R.Next(r, e), e');
    assert [e, e'][1..] == [e'];
  }

  lemma RecordValid(r: R.Record)
    requires R.Inv(r)
    ensures Sane(r.world.rows) && Truthful(r.run, r.world.rows) && F.Inv(r.world)
  {
  }

  /**
   Each call on the extraction record is one event of its histories, or two: an idle claim also settles the record, and a
   job without a run is claimed and fails on the spot.
  */
  method Record(x: Extraction, ghost r: R.Record, call: Call) returns (ghost events: seq<R.Event>, ghost r': R.Record)
    requires R.Inv(r) && Callable(r, call) && x.queue.rows == r.world.rows && x.run == r.run
    modifies x, x.queue
    ensures R.History(r, events, r') && R.Inv(r') && x.queue.rows == r'.world.rows && x.run == r'.run
  {
    hide R.Inv, R.History, Sane, Truthful, Agrees, FailedRows, ReleasedRows, Finished, WaitingRuns, EndedRuns, F.Inv,
      KeyHeld, Reportable, ClaimedFrom;
    RecordValid(r);
    match call {
      case Create(id, row) =>
        NotYetThere(r.world.rows, id, row);
        x.CreateJob(id, row);
        events := [R.Job(id, row)];
        OneEvent(r, events[0]);
        r' := R.Next(r, events[0]);
      case Take(kind, worker, locked, now, until) =>
        ghost var taken, job, claimed;
        taken, job, claimed := x.Claim(kind, worker, locked, now, until);
        events, r' := TakeEvents(r, kind, worker, locked, now, until, job, claimed, x.queue.rows, x.run);
      case Finish(c) =>
        var _ := x.Finish(c);
        events := [R.Event.Queue(F.Step.Succeed(c))];
        OneEvent(r, events[0]);
        r' := R.Next(r, events[0]);
      case Abandon(c, retryable, retryAt) =>
        var _ := x.Abandon(c, retryable, retryAt);
        events := [R.Event.Queue(F.Step.Fail(c, retryable, retryAt))];
        OneEvent(r, events[0]);
        r' := R.Next(r, events[0]);
      case Release(c, now) =>
        var _ := x.Release(c, now);
        events := [R.Event.Queue(F.Step.Release(c, now))];
        OneEvent(r, events[0]);
        r' := R.Next(r, events[0]);
      case Settle(now) =>
        var _ := x.ReconcileRuns(now);
        events := [R.Reconcile(now)];
        OneEvent(r, events[0]);
        r' := R.Next(r, events[0]);
    }
  }

  /** The events of a claim: the claim of what was free, if anything was, and what follows from it. */
  lemma TakeEvents(r: R.Record, kind: string, worker: nat, locked: set<nat>, now: int, until: int, job: Option<Ticket>,
                   claimed: Table, rows': Table, run': Runs)
    returns (events: seq<R.Event>, r': R.Record)
    requires R.Inv(r) && ClaimedFrom(r.world.rows, claimed, Some({kind}), locked, now, worker, until, job)
    requires job == None ==> rows' == claimed && run' == WaitingRuns(EndedRuns(r.run, claimed), claimed, now)
    requires job.Some? && job.value.id in r.run ==> rows' == claimed && run' == r.run[job.value.id := Running]
    requires job.Some? && job.value.id !in r.run ==> rows' == FailedRows(claimed, job.value, false, 0) && run' == r.run
    ensures R.History(r, events, r') && R.Inv(r') && rows' == r'.world.rows && run' == r'.run
  {
    hide R.Inv, R.History, FailedRows, WaitingRuns, EndedRuns, KeyHeld, Reportable;
    var t := r.world.rows;
    if forall j :: !Free(t, Some({kind}), locked, now, j) {
      OneEvent(r, R.Reconcile(now));
      return [R.Reconcile(now)], R.Next(r, R.Reconcile(now));
    }
    var i :| Taken(t, claimed, Some({kind}), locked, now, worker, until, i, job);
    var e := R.Event.Queue(F.Step.Claim(i, worker, now, until));
    var middle := R.Next(r, e);
    assert middle.world.rows == claimed;
    if job == None {
      TwoEvents(r, e, R.Reconcile(now));
      return [e, R.Reconcile(now)], R.Next(middle, R.Reconcile(now));
    }
    if i in r.run {
      OneEvent(r, e);
      return [e], middle;
    }
    var e' := R.Event.Queue(F.Step.Fail(job.value, false, 0));
    TwoEvents(r, e, e');
    return [e, e'], R.Next(middle, e');
  }
}
