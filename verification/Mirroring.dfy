/**
 Extraction runs beside the queue (extraction.py): the record a file's status is read from, and the queue that decides.
*/
module Mirroring {
  import opened Common
  import opened Operations
  import opened Queueing

  type Runs = map<nat, State>

  /** A run that says it ended says what its job says. A run without a job was reused and is nobody's mirror. */
  ghost predicate Truthful(run: Runs, rows: Table) {
    forall id :: id in run && id in rows && Terminal(run[id]) ==> rows[id].state == run[id]
  }

  /** The run ended as its job did, or neither has, and it runs only under a live lease. */
  predicate AgreesAt(state: State, o: Operation, now: int) {
    (Terminal(state) <==> Terminal(o.state)) && (Terminal(state) ==> state == o.state)
    && (state == Running ==> o.state == Running && o.leaseExpires.Some? && o.leaseExpires.value >= now)
  }

  /** What reconciling promises. */
  ghost predicate Agrees(run: Runs, rows: Table, now: int) {
    forall id :: id in run && id in rows ==> AgreesAt(run[id], rows[id], now)
  }

  predicate Ended(run: Runs, rows: Table, id: nat) {
    id in run && id in rows && !Terminal(run[id]) && Terminal(rows[id].state)
  }

  predicate WaitsAgain(run: Runs, rows: Table, now: int, id: nat) {
    id in run && id in rows && run[id] == Running &&
    (rows[id].state == Queued ||
      (rows[id].state == Running && rows[id].leaseExpires.Some? && rows[id].leaseExpires.value < now))
  }

  function EndedRuns(run: Runs, rows: Table): Runs {
    map id | id in run :: if Ended(run, rows, id) then rows[id].state else run[id]
  }

  function WaitingRuns(run: Runs, rows: Table, now: int): Runs {
    map id | id in run :: if WaitsAgain(run, rows, now, id) then Queued else run[id]
  }

  /** Rows keep ended states when the queue moves on. */
  ghost predicate EndedStay(rows: Table, rows': Table) {
    rows'.Keys == rows.Keys
    && forall id :: id in rows ==> id in rows' && (Terminal(rows[id].state) ==> rows'[id].state == rows[id].state)
  }

  /**
   When a failure report leaves the record truthful: the run gets the answer, so the answer has to be the job's state.
  */
  predicate Reportable(rows: Table, c: Ticket, retryable: bool)
    requires c.id in rows
  {
    Owns(rows, c) || (retryable && c.attempt < c.maxAttempts)
    || (if retryable then rows[c.id].state == DeadLetter || rows[c.id].attempt == c.attempt
      else rows[c.id].state == Failed)
  }

  lemma AbandonedTruth(run: Runs, rows: Table, c: Ticket, retryable: bool, retryAt: int)
    requires Truthful(run, rows) && c.id in run && c.id in rows && FailAnswer(rows, c, retryable).Some?
    ensures Truthful(run[c.id := FailAnswer(rows, c, retryable).value], FailedRows(rows, c, retryable, retryAt)) <==>
      Reportable(rows, c, retryable)
  {
    hide KeyHeld;
    AnswerIsState(rows, c, retryable, retryAt);
    var run', rows' := run[c.id := FailAnswer(rows, c, retryable).value], FailedRows(rows, c, retryable, retryAt);
    forall id | id != c.id && id in run && id in rows && Terminal(run[id]) ensures rows'[id].state == run[id] {
    }
  }

  class Extraction {
    const queue: Queue
    var run: Runs

    ghost predicate Valid()
      reads this, queue
    {
      Sane(queue.rows) && Truthful(run, queue.rows)
    }

    constructor (queue: Queue)
      requires Sane(queue.rows)
      ensures Valid() && this.queue == queue && run == map[]
    {
      this.queue := queue;
      run := map[];
    }

    /** A job and its run, in one transaction. */
    method CreateJob(id: nat, row: Operation)
      requires Valid() && id !in queue.rows && id !in run
      requires row == NewRow(row.kind, row.priority, row.maxAttempts, row.dueAt, row.key)
      requires row.maxAttempts > 0 && (row.key.Some? ==> forall j :: !QueuedUnder(queue.rows, row.key.value, j))
      modifies this, queue
      ensures Valid() && queue.rows == old(queue.rows)[id := row] && run == old(run)[id := Queued]
    {
      NewJobSane(queue.rows, id, row);
      queue.rows := queue.rows[id := row];
      run := run[id := Queued];
    }

    /** Claim one job of this kind. The idle path catches the record up; a job without a run fails on the spot. */
    method Claim(kind: string, worker: nat, locked: set<nat>, now: int, until: int)
      returns (taken: Option<Ticket>, ghost job: Option<Ticket>, ghost claimed: Table)
      requires Valid()
      modifies this, queue
      ensures Valid() && ClaimedFrom(old(queue.rows), claimed, Some({kind}), locked, now, worker, until, job)
      ensures job == None ==> taken == None && queue.rows == claimed && Agrees(run, queue.rows, now)
      ensures job == None ==> run == WaitingRuns(EndedRuns(old(run), claimed), claimed, now)
      ensures job.Some? && job.value.id in old(run) ==>
        taken == job && queue.rows == claimed && Owns(claimed, job.value) && run == old(run)[job.value.id := Running]
      ensures job.Some? && job.value.id !in old(run) ==>
        taken == None && queue.rows == FailedRows(claimed, job.value, false, 0) && run == old(run)
    {
      hide Sane, Truthful, Agrees, Claimable, EndedStay, ClaimedFrom, FailedRows, WaitingRuns, EndedRuns;
      ghost var rows := queue.rows;
      taken := queue.Claim(worker, Some({kind}), locked, now, until);
      job, claimed := taken, queue.rows;
      WasClaimed(rows, claimed, Some({kind}), locked, now, worker, until, taken);
      ClaimEnds(rows, queue.rows, Some({kind}), locked, now, worker, until, taken);
      TruthStays(run, rows, queue.rows);
      if taken == None {
        var _ := ReconcileRuns(now);
        return;
      }
      var c := taken.value;
      if c.id !in run {
        var _, _ := FailUnrunnable(c);
        taken := None;
        return;
      }
      RunningTruth(run, queue.rows, c.id);
      run := run[c.id := Running];
    }

    method FailUnrunnable(c: Ticket) returns (answer: Option<State>, ghost rows: Table)
      requires Valid() && c.id !in run
      modifies queue
      ensures Valid() && rows == old(queue.rows) && queue.rows == FailedRows(rows, c, false, 0)
    {
      rows := queue.rows;
      answer := queue.Fail(c, false, 0);
    }

    /** False when the lease was lost: nothing is written. */
    method Finish(c: Ticket) returns (done: bool)
      requires Valid()
      modifies this, queue
      ensures Valid() && (done <==> Owns(old(queue.rows), c)) && queue.rows == Finished(old(queue.rows), c, Succeeded)
      ensures run == if done && c.id in old(run) then old(run)[c.id := Succeeded] else old(run)
    {
      done := queue.Finish(c, Succeeded);
      if done && c.id in run {
        run := run[c.id := Succeeded];
      }
    }

    /** Record a failed attempt and mirror what the queue answered. Truthful exactly when the report could be. */
    method Abandon(c: Ticket, retryable: bool, retryAt: int) returns (answer: Option<State>)
      requires Valid() && c.id in run && c.id in queue.rows
      modifies this, queue
      ensures answer == FailAnswer(old(queue.rows), c, retryable)
      ensures queue.rows == FailedRows(old(queue.rows), c, retryable, retryAt)
      ensures run == if answer.Some? then old(run)[c.id := answer.value] else old(run)
      ensures answer.Some? ==> (Valid() <==> Reportable(old(queue.rows), c, retryable))
      ensures answer == None ==> Valid()
    {
      hide KeyHeld;
      ghost var rows, was := queue.rows, run;
      answer := queue.Fail(c, retryable, retryAt);
      if answer == None {
        return;
      }
      AbandonedTruth(was, rows, c, retryable, retryAt);
      run := run[c.id := answer.value];
    }

    method Release(c: Ticket, now: int) returns (answer: Option<bool>)
      requires Valid()
      modifies this, queue
      ensures Valid() && queue.rows == ReleasedRows(old(queue.rows), c, now)
      ensures run == if answer == Some(true) && c.id in old(run) then old(run)[c.id := Queued] else old(run)
      ensures answer == Some(true) <==>
        Owns(old(queue.rows), c) && old(queue.rows)[c.id].leasedBy == Some(c.worker) && !KeyHeld(old(queue.rows), c.id)
    {
      hide KeyHeld;
      answer := queue.Release(c, now);
      if answer == Some(true) && c.id in run {
        run := run[c.id := Queued];
      }
    }

    /** Ask whatever still works on these runs to stop; how many were asked. */
    method SupersedePending(runs: set<nat>) returns (asked: nat)
      requires Valid() && runs <= run.Keys
      modifies queue
      ensures Valid() && queue.rows.Keys == old(queue.rows).Keys
      ensures forall id :: id in old(queue.rows) ==>
        queue.rows[id] == if id in runs && !Terminal(run[id]) then AskedRow(old(queue.rows)[id])
          else old(queue.rows)[id]
      ensures asked == |set id | id in runs && StillAsked(run, old(queue.rows), id)|
    {
      asked := 0;
      hide Sane, Truthful, CancelAsked, AskedRow, AskedBut;
      ghost var rows, told := queue.rows, {};
      var left := set id | id in runs && !Terminal(run[id]);
      NoneAsked(runs, run, rows, left);
      while left != {}
        invariant Valid() && AskedBut(runs, run, rows, queue.rows, left, told) && asked == |told|
        decreases left
      {
        var id :| id in left;
        ghost var before := queue.rows;
        ToldOnce(runs, run, rows, before, left, told, id);
        var flagged := queue.RequestCancel(id);
        AskedTruth(run, before, queue.rows, id);
        AskedStep(runs, run, rows, before, queue.rows, left, told, id, flagged);
        left := left - {id};
        if flagged {
          asked := asked + 1;
          told := told + {id};
        }
      }
      AskedAll(runs, run, rows, queue.rows, told);
    }

    /**
     Mirror what the queue decided without a worker there to say it. Afterwards record and queue agree, exactly when
     no run claimed an end its job did not have; runs that agree are left alone, and a second call finds nothing to
     correct.
    */
    method ReconcileRuns(now: int) returns (corrected: nat)
      requires Sane(queue.rows)
      modifies this
      ensures run.Keys == old(run).Keys && (Agrees(run, queue.rows, now) <==> Truthful(old(run), queue.rows))
      ensures Truthful(old(run), queue.rows) ==> Valid()
      ensures run == WaitingRuns(EndedRuns(old(run), queue.rows), queue.rows, now)
      ensures forall id :: id in run && id in queue.rows && AgreesAt(old(run)[id], queue.rows[id], now) ==>
        run[id] == old(run)[id]
      ensures corrected == |Differing(old(run), run)|
      ensures corrected == 0 <==> run == old(run)
      ensures Agrees(old(run), queue.rows, now) ==> corrected == 0
      ensures forall id :: id in run && id !in queue.rows ==> run[id] == old(run)[id]
    {
      var ended := set id | id in run && Ended(run, queue.rows, id);
      run := EndedRuns(run, queue.rows);
      var waiting := set id | id in run && WaitsAgain(run, queue.rows, now, id);
      run := WaitingRuns(run, queue.rows, now);
      Corrected(old(run), queue.rows, now, ended, waiting);
      CorrectedAre(old(run), queue.rows, now, ended, waiting);
      corrected := |ended| + |waiting|;
    }
  }

  lemma NewJobSane(rows: Table, id: nat, row: Operation)
    requires Sane(rows) && id !in rows && row == NewRow(row.kind, row.priority, row.maxAttempts, row.dueAt, row.key)
    requires row.maxAttempts > 0 && (row.key.Some? ==> forall j :: !QueuedUnder(rows, row.key.value, j))
    ensures Sane(rows[id := row])
  {
    forall j | j in rows && rows[j].state == Queued && row.key.Some? ensures rows[j].key != row.key {
      assert !QueuedUnder(rows, row.key.value, j);
    }
  }

  predicate StillAsked(run: Runs, rows: Table, id: nat) {
    id in run && !Terminal(run[id]) && id in rows && !Terminal(rows[id].state)
  }

  /** Every unfinished run among `runs` but those in `left` was asked, and `told` are those that heard. */
  ghost predicate AskedBut(runs: set<nat>, run: Runs, rows: Table, now: Table, left: set<nat>, told: set<nat>) {
    now.Keys == rows.Keys && (forall id :: id in left ==> id in runs && id in run && !Terminal(run[id])) &&
    (forall id :: id in told <==> id in runs && id !in left && StillAsked(run, rows, id)) &&
    forall id :: id in rows ==>
      now[id] == if id in runs && id in run && !Terminal(run[id]) && id !in left then AskedRow(rows[id]) else rows[id]
  }

  lemma NoneAsked(runs: set<nat>, run: Runs, rows: Table, left: set<nat>)
    requires runs <= run.Keys && left == set id | id in runs && !Terminal(run[id])
    ensures AskedBut(runs, run, rows, rows, left, {})
  {
  }

  lemma ToldOnce(runs: set<nat>, run: Runs, rows: Table, now: Table, left: set<nat>, told: set<nat>, id: nat)
    requires AskedBut(runs, run, rows, now, left, told) && id in left
    ensures id !in told && (id in now <==> id in rows) && (id in rows ==> now[id] == rows[id])
  {
  }

  lemma AskedStep(runs: set<nat>, run: Runs, rows: Table, now: Table, next: Table, left: set<nat>, told: set<nat>,
                  id: nat, flagged: bool)
    requires AskedBut(runs, run, rows, now, left, told) && id in left && next == CancelAsked(now, id)
    requires flagged <==> id in now && !Terminal(now[id].state)
    ensures AskedBut(runs, run, rows, next, left - {id}, if flagged then told + {id} else told)
  {
    hide CancelAsked, AskedRow;
    AskedOne(now, id);
  }

  lemma AskedAll(runs: set<nat>, run: Runs, rows: Table, now: Table, told: set<nat>)
    requires AskedBut(runs, run, rows, now, {}, told) && runs <= run.Keys
    ensures now.Keys == rows.Keys && |told| == |set id | id in runs && StillAsked(run, rows, id)|
    ensures forall id :: id in rows ==>
      now[id] == if id in runs && !Terminal(run[id]) then AskedRow(rows[id]) else rows[id]
  {
    hide AskedRow;
    assert told == set id | id in runs && StillAsked(run, rows, id);
  }

  function AskedRow(o: Operation): Operation {
    if o.state == Queued then o.(state := Cancelled, cancelRequested := true)
    else if o.state == Running then o.(cancelRequested := true)
    else o
  }

  lemma AskedOne(rows: Table, id: nat)
    ensures CancelAsked(rows, id) == if id in rows then rows[id := AskedRow(rows[id])] else rows
  {
  }

  lemma RunningTruth(run: Runs, rows: Table, id: nat)
    requires Truthful(run, rows)
    ensures Truthful(run[id := Running], rows)
  {
  }

  lemma TruthStays(run: Runs, rows: Table, rows': Table)
    requires Truthful(run, rows) && EndedStay(rows, rows')
    ensures Truthful(run, rows')
  {
  }

  lemma AskedTruth(run: Runs, rows: Table, rows': Table, id: nat)
    requires Truthful(run, rows) && rows' == CancelAsked(rows, id)
    ensures Truthful(run, rows')
  {
  }

  lemma Corrected(run: Runs, rows: Table, now: int, ended: set<nat>, waiting: set<nat>)
    requires Sane(rows) && ended == (set id | id in run && Ended(run, rows, id))
    requires waiting == set id | id in EndedRuns(run, rows) && WaitsAgain(EndedRuns(run, rows), rows, now, id)
    ensures var run' := WaitingRuns(EndedRuns(run, rows), rows, now);
            (Agrees(run', rows, now) <==> Truthful(run, rows)) && (Truthful(run, rows) ==> Truthful(run', rows))
            && (|ended| + |waiting| == 0 <==> run' == run) && (Agrees(run, rows, now) ==> |ended| + |waiting| == 0)
  {
    var middle := EndedRuns(run, rows);
    var run' := WaitingRuns(middle, rows, now);
    forall id | id in run && id in rows ensures run'[id] == Settled(run[id], rows[id], now) {
    }
    forall id | id in run ensures run'[id] != run[id] <==> id in ended || id in waiting {
      assert id in ended <==> Ended(run, rows, id);
      assert id in waiting <==> WaitsAgain(middle, rows, now, id);
    }
    SomeOrNone(ended, waiting);
    if ended == {} && waiting == {} {
      assert forall id :: id in run ==> run'[id] == run[id];
      assert run' == run;
    }
    AgreesIsTruthful(run, run', rows, now);
  }

  ghost function Differing(run: Runs, run': Runs): set<nat> {
    set id | id in run && id in run' && run'[id] != run[id]
  }

  /** What is corrected: exactly the runs that change, none that agreed. */
  lemma CorrectedAre(run: Runs, rows: Table, now: int, ended: set<nat>, waiting: set<nat>)
    requires ended == (set id | id in run && Ended(run, rows, id))
    requires waiting == set id | id in EndedRuns(run, rows) && WaitsAgain(EndedRuns(run, rows), rows, now, id)
    ensures var run' := WaitingRuns(EndedRuns(run, rows), rows, now);
      |ended| + |waiting| == |Differing(run, run')|
    ensures var run' := WaitingRuns(EndedRuns(run, rows), rows, now);
      forall id :: id in run && id in rows && AgreesAt(run[id], rows[id], now) ==> run'[id] == run[id]
  {
    var middle := EndedRuns(run, rows);
    var run' := WaitingRuns(middle, rows, now);
    forall id | id in run ensures run'[id] != run[id] <==> id in ended || id in waiting {
      assert id in ended <==> Ended(run, rows, id);
      assert id in waiting <==> WaitsAgain(middle, rows, now, id);
    }
    forall id | id in ended ensures id !in waiting {
      assert Ended(run, rows, id);
    }
    SameAsBoth(Differing(run, run'), ended, waiting);
  }

  lemma SameAsBoth(all: set<nat>, some: set<nat>, others: set<nat>)
    requires some !! others && forall id :: id in all <==> id in some || id in others
    ensures |all| == |some| + |others|
  {
    assert all == some + others;
  }

  lemma SomeOrNone(a: set<nat>, b: set<nat>)
    ensures |a| + |b| == 0 <==> a == {} && b == {}
  {
  }

  /** One run after reconciling. */
  function Settled(state: State, o: Operation, now: int): State {
    if !Terminal(state) && Terminal(o.state) then o.state
    else if state == Running && (o.state == Queued || (o.state == Running && o.leaseExpires.Some? && o.leaseExpires.value < now)) then Queued
    else state
  }

  lemma AgreesIsTruthful(run: Runs, run': Runs, rows: Table, now: int)
    requires Sane(rows) && run'.Keys == run.Keys
    requires forall id :: id in run && id in rows ==> run'[id] == Settled(run[id], rows[id], now)
    ensures Agrees(run', rows, now) <==> Truthful(run, rows)
    ensures Truthful(run, rows) ==> Truthful(run', rows)
    ensures Agrees(run, rows, now) ==> forall id :: id in run && id in rows ==> run'[id] == run[id]
  {
    hide OneQueuedPerKey, Counted;
    forall id | id in run && id in rows
      ensures (Terminal(run[id]) ==> rows[id].state == run[id]) <==> AgreesAt(run'[id], rows[id], now)
    {
    }
  }

  /** What a claim of the queue gives: nothing when no row is free, and otherwise one of them, or its burial. */
  ghost predicate ClaimedFrom(rows: Table, rows': Table, kinds: Option<set<string>>, locked: set<nat>, now: int,
                              worker: nat, until: int,
                              taken: Option<Ticket>) {
    ((forall j :: !Free(rows, kinds, locked, now, j)) ==> taken == None && rows' == rows) &&
    ((exists j :: Free(rows, kinds, locked, now, j)) ==> exists i ::
      Taken(rows, rows', kinds, locked, now, worker, until, i, taken))
  }

  lemma WasClaimed(rows: Table, rows': Table, kinds: Option<set<string>>, locked: set<nat>, now: int, worker: nat,
                   until: int, taken: Option<Ticket>)
    requires (forall j :: !Free(rows, kinds, locked, now, j)) ==> taken == None && rows' == rows
    requires (exists j :: Free(rows, kinds, locked, now, j)) ==>
      exists i :: Taken(rows, rows', kinds, locked, now, worker, until, i, taken)
    ensures ClaimedFrom(rows, rows', kinds, locked, now, worker, until, taken)
  {
    hide Taken;
  }

  /** A claim that found attempts spent ends a job that had not ended. */
  lemma ClaimEnds(rows: Table, rows': Table, kinds: Option<set<string>>, locked: set<nat>, now: int, worker: nat,
                  until: int, taken: Option<Ticket>)
    requires (forall j :: !Free(rows, kinds, locked, now, j)) ==> taken == None && rows' == rows
    requires (exists j :: Free(rows, kinds, locked, now, j)) ==>
      exists i :: Taken(rows, rows', kinds, locked, now, worker, until, i, taken)
    ensures EndedStay(rows, rows')
    ensures taken.Some? ==> Owns(rows', taken.value) && taken.value.id in rows && !Terminal(rows[taken.value.id].state)
  {
    if exists j :: Free(rows, kinds, locked, now, j) {
      var i :| Taken(rows, rows', kinds, locked, now, worker, until, i, taken);
    }
  }
}
