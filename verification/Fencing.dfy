/**
 Workers and the queue together (runner.py over operations.py): any interleaving of claims, expiries,
 heartbeats, deaths and reports, where each claim reports at most one outcome.
*/
module Fencing {
  import opened Common
  import opened Operations

  /** The table, the claims still out, every claim ever handed out, and the handler effects that committed. */
  datatype World = World(rows: Table, open: set<Ticket>, handed: seq<Ticket>, effects: seq<Ticket>)

  datatype Step =
    | Enqueue(id: nat, row: Operation)
    | Claim(id: nat, worker: nat, now: int, until: int)
    | Beat(ticket: Ticket, until: int)
    | Succeed(ticket: Ticket)
    | Fail(ticket: Ticket, retryable: bool, retryAt: int)
    | Release(ticket: Ticket, now: int)
    | Stopped(ticket: Ticket)
    | Die(ticket: Ticket)
    | RequestCancel(id: nat)
    | Expedite(id: nat, now: int)

  ghost predicate Fits(t: Table, id: nat, row: Operation) {
    id !in t && row.state == Queued && row.attempt == 0 && row.maxAttempts > 0 && row.leasedBy == None
    && row.leaseExpires == None
    && !row.cancelRequested && (row.key.Some? ==> forall j :: j in t && t[j].state == Queued ==> t[j].key != row.key)
  }

  /** Only a claim still out may beat or report, and a report uses it up. Time never has to move forward. */
  ghost predicate Enabled(w: World, s: Step) {
    match s
    case Enqueue(id, row) => Fits(w.rows, id, row)
    case Claim(id, _, now, _) => id in w.rows && Claimable(w.rows[id], now)
    case Beat(c, _) => c in w.open
    case Succeed(c) => c in w.open
    case Fail(c, _, _) => c in w.open
    case Release(c, _) => c in w.open
    case Stopped(c) => c in w.open
    case Die(c) => c in w.open
    case RequestCancel(_) => true
    case Expedite(id, _) => id in w.rows && w.rows[id].state == Queued
  }

  ghost function Claimed(w: World, id: nat, worker: nat, until: int): World
    requires id in w.rows
  {
    var row := ClaimedRow(w.rows[id], worker, until);
    var rows := w.rows[id := row];
    if row.state == DeadLetter then w.(rows := rows)
    else
      var c := Ticket(id, row.attempt, row.maxAttempts, worker);
      w.(rows := rows, open := w.open + {c}, handed := w.handed + [c])
  }

  ghost function Next(w: World, s: Step): World
    requires Enabled(w, s)
  {
    match s
    case Enqueue(id, row) => w.(rows := w.rows[id := row])
    case Claim(id, worker, _, until) => Claimed(w, id, worker, until)
    case Beat(c, until) => w.(rows := Beaten(w.rows, c, until))
    // The handler's writes and the success transition are one transaction: lost together or kept together.
    case Succeed(c) => w.(rows := Finished(w.rows, c, Succeeded), open := w.open - {c},
                          effects := if Owns(w.rows, c) then w.effects + [c] else w.effects)
    case Fail(c, retryable, at) => w.(rows := FailedRows(w.rows, c, retryable, at), open := w.open - {c})
    case Release(c, now) => w.(rows := ReleasedRows(w.rows, c, now), open := w.open - {c})
    case Stopped(c) => w.(rows := Finished(w.rows, c, Cancelled), open := w.open - {c})
    case Die(c) => w.(open := w.open - {c})
    case RequestCancel(id) => w.(rows := CancelAsked(w.rows, id))
    case Expedite(id, now) => w.(rows := w.rows[id := w.rows[id].(dueAt := if now < w.rows[id].dueAt then now else w.rows[id].dueAt)])
  }

  // ------------------------------------------------------------------ the invariant

  /** A claim still out is on an earlier attempt, or its row is still running for it. */
  ghost predicate Standing(t: Table, c: Ticket) {
    c.id in t && c.maxAttempts == t[c.id].maxAttempts && 1 <= c.attempt <= t[c.id].attempt && c.attempt <= c.maxAttempts
    && (c.attempt == t[c.id].attempt ==> t[c.id].state == Running && t[c.id].leasedBy == Some(c.worker))
  }

  ghost predicate OpenStand(w: World) {
    forall c :: c in w.open ==> Standing(w.rows, c)
  }

  /** The attempts handed out for one operation are 1..max in increasing order, so no two are alike. */
  ghost predicate HandedInOrder(w: World) {
    (forall i :: 0 <= i < |w.handed| ==> Given(w.rows, w.handed[i])) &&
    (forall i, j :: 0 <= i < j < |w.handed| && w.handed[i].id == w.handed[j].id ==>
      w.handed[i].attempt < w.handed[j].attempt)
  }

  ghost predicate Given(t: Table, c: Ticket) {
    c.id in t && c.maxAttempts == t[c.id].maxAttempts && 1 <= c.attempt <= c.maxAttempts && c.attempt <= t[c.id].attempt
  }

  /** Effects committed exactly for the succeeded operations, once each, by the attempt the row still shows. */
  ghost predicate EffectsMatch(w: World) {
    (forall i :: 0 <= i < |w.effects| ==> Effective(w.rows, w.effects[i])) &&
    (forall i, j :: 0 <= i < j < |w.effects| ==> w.effects[i].id != w.effects[j].id) &&
    (forall id :: id in w.rows && w.rows[id].state == Succeeded ==> exists i ::
      0 <= i < |w.effects| && w.effects[i].id == id)
  }

  ghost predicate Effective(t: Table, c: Ticket) {
    c.id in t && t[c.id].state == Succeeded && t[c.id].attempt == c.attempt
  }

  ghost predicate Inv(w: World) {
    Sane(w.rows) && OpenStand(w) && HandedInOrder(w) && EffectsMatch(w)
  }

  lemma InvSane(w: World)
    requires Inv(w)
    ensures Sane(w.rows)
  {
  }

  /** No step touches a finished operation, and no attempt counter goes back. */
  ghost predicate Gentle(t: Table, t': Table) {
    forall id :: id in t ==> id in t' && RowGentle(t[id], t'[id])
  }

  ghost predicate RowGentle(o: Operation, o': Operation) {
    o'.maxAttempts == o.maxAttempts && o'.attempt >= o.attempt
    && (Terminal(o.state) ==> o'.state == o.state && o'.attempt == o.attempt)
  }

  /** What a report on a claim leaves: nothing, or a new row for a claim that was still current. */
  ghost predicate Report(t: Table, t': Table, c: Ticket) {
    t' == t || (c.id in t && t[c.id].attempt == c.attempt && c.id in t' && t' == t[c.id := t'[c.id]]
                && t'[c.id].attempt == c.attempt && t'[c.id].maxAttempts == t[c.id].maxAttempts)
  }

  lemma ReportsAre(t: Table, c: Ticket, at: int, retryable: bool)
    ensures Report(t, Finished(t, c, Succeeded), c) && Report(t, Finished(t, c, Cancelled), c)
    ensures Report(t, FailedRows(t, c, retryable, at), c) && Report(t, ReleasedRows(t, c, at), c)
  {
    hide KeyHeld;
  }

  /** Two claims of one operation on its current attempt are the same claim. */
  lemma OneCurrent(t: Table, c: Ticket, d: Ticket)
    requires Standing(t, c) && Standing(t, d) && c.id == d.id && c.attempt == d.attempt == t[c.id].attempt
    ensures c == d
  {
  }

  /** One report per claim: the others still out are not disturbed by it. */
  lemma ReportStands(w: World, t': Table, c: Ticket)
    requires OpenStand(w) && c in w.open && Report(w.rows, t', c)
    ensures forall d :: d in w.open && d != c ==> Standing(t', d)
    ensures Gentle(w.rows, t')
  {
    assert Standing(w.rows, c);
    forall d | d in w.open && d != c ensures Standing(t', d) {
      assert Standing(w.rows, d);
      if d.id == c.id && d.attempt == c.attempt && c.attempt == w.rows[c.id].attempt {
        OneCurrent(w.rows, c, d);
      }
    }
  }

  /** A row that keeps its owner keeps every claim standing. */
  lemma SameOwnerStands(w: World, id: nat, row: Operation)
    requires OpenStand(w) && id in w.rows && RowGentle(w.rows[id], row) && row.attempt == w.rows[id].attempt
    requires w.rows[id].state == Running ==> row.state == Running && row.leasedBy == w.rows[id].leasedBy
    ensures forall d :: d in w.open ==> Standing(w.rows[id := row], d)
    ensures Gentle(w.rows, w.rows[id := row])
  {
    forall d | d in w.open ensures Standing(w.rows[id := row], d) {
      assert Standing(w.rows, d);
    }
  }

  lemma ClaimStands(w: World, id: nat, worker: nat, until: int)
    requires OpenStand(w) && id in w.rows && !Terminal(w.rows[id].state)
    ensures OpenStand(Claimed(w, id, worker, until)) && Gentle(w.rows, Claimed(w, id, worker, until).rows)
  {
    var w' := Claimed(w, id, worker, until);
    forall d | d in w'.open ensures Standing(w'.rows, d) {
      if d in w.open {
        assert Standing(w.rows, d);
      }
    }
  }

  lemma StepStands(w: World, s: Step)
    requires Sane(w.rows) && OpenStand(w) && Enabled(w, s)
    ensures OpenStand(Next(w, s)) && Gentle(w.rows, Next(w, s).rows)
  {
    hide OneQueuedPerKey, KeyHeld, FailedRows, ReleasedRows, Finished, Report, Standing;
    match s {
      case Enqueue(id, row) => EnqueueStands(w, id, row);
      case Claim(id, worker, now, until) =>
        ClaimableExactly(w.rows[id], now);
        ClaimStands(w, id, worker, until);
      case Beat(c, until) =>
        if Owns(w.rows, c) {
          SameOwnerStands(w, c.id, w.rows[c.id].(leaseExpires := Some(until)));
        }
      case Succeed(c) =>
        ReportsAre(w.rows, c, 0, false);
        ReportStands(w, Next(w, s).rows, c);
      case Fail(c, retryable, at) =>
        ReportsAre(w.rows, c, at, retryable);
        ReportStands(w, Next(w, s).rows, c);
      case Release(c, now) =>
        ReportsAre(w.rows, c, now, false);
        ReportStands(w, Next(w, s).rows, c);
      case Stopped(c) =>
        ReportsAre(w.rows, c, 0, false);
        ReportStands(w, Next(w, s).rows, c);
      case Die(c) =>
      case RequestCancel(id) =>
        if id in w.rows {
          CancelStands(w, id);
        }
      case Expedite(id, now) => SameOwnerStands(w, id, Next(w, s).rows[id]);
    }
  }

  lemma EnqueueStands(w: World, id: nat, row: Operation)
    requires OpenStand(w) && id !in w.rows
    ensures forall d :: d in w.open ==> Standing(w.rows[id := row], d)
    ensures Gentle(w.rows, w.rows[id := row])
  {
    forall d | d in w.open ensures Standing(w.rows[id := row], d) {
      assert Standing(w.rows, d);
    }
  }

  lemma CancelStands(w: World, id: nat)
    requires OpenStand(w) && id in w.rows
    ensures forall d :: d in w.open ==> Standing(CancelAsked(w.rows, id), d)
    ensures Gentle(w.rows, CancelAsked(w.rows, id))
  {
    hide Standing;
    if w.rows[id].state == Queued {
      SameOwnerStands(w, id, w.rows[id].(state := Cancelled, cancelRequested := true));
    } else if w.rows[id].state == Running {
      SameOwnerStands(w, id, w.rows[id].(cancelRequested := true));
    }
  }

  // ------------------------------------------------------------------ claims and effects

  lemma StepHands(w: World, s: Step)
    requires Sane(w.rows) && OpenStand(w) && HandedInOrder(w) && Enabled(w, s)
    ensures HandedInOrder(Next(w, s))
  {
    hide OneQueuedPerKey, KeyHeld, FailedRows, ReleasedRows, Finished, Beaten, CancelAsked, OpenStand;
    StepStands(w, s);
    var w' := Next(w, s);
    forall i | 0 <= i < |w.handed| ensures Given(w'.rows, w.handed[i]) {
      assert Given(w.rows, w.handed[i]);
    }
    if s.Claim? && |w'.handed| > |w.handed| {
      assert w'.handed == w.handed + [w'.handed[|w.handed|]];
      forall i | 0 <= i < |w.handed| && w.handed[i].id == s.id
        ensures w.handed[i].attempt < w'.handed[|w.handed|].attempt
      {
        assert Given(w.rows, w.handed[i]);
      }
    }
  }

  /** A row newly succeeded is the one the success was reported for. */
  lemma NewSuccess(w: World, s: Step, id: nat)
    requires Enabled(w, s) && id in Next(w, s).rows && Next(w, s).rows[id].state == Succeeded
    ensures (id in w.rows && w.rows[id].state == Succeeded) || (s.Succeed? && Owns(w.rows, s.ticket)
      && id == s.ticket.id)
  {
    hide KeyHeld;
  }

  /** Only a success changes which rows are succeeded, and it brings its effects along. */
  lemma StepEffects(w: World, s: Step)
    requires Sane(w.rows) && OpenStand(w) && EffectsMatch(w) && Enabled(w, s)
    ensures EffectsMatch(Next(w, s))
  {
    hide OneQueuedPerKey, KeyHeld, OpenStand, FailedRows, ReleasedRows, Beaten, CancelAsked, Claimable, Enabled;
    StepStands(w, s);
    var w' := Next(w, s);
    forall i | 0 <= i < |w.effects| ensures Effective(w'.rows, w.effects[i]) {
      assert Effective(w.rows, w.effects[i]);
    }
    if s.Succeed? && Owns(w.rows, s.ticket) {
      forall i | 0 <= i < |w.effects| ensures w.effects[i].id != s.ticket.id {
        assert Effective(w.rows, w.effects[i]);
      }
      assert w'.effects[|w.effects|] == s.ticket;
    }
    forall id | id in w'.rows && w'.rows[id].state == Succeeded
      ensures exists i :: 0 <= i < |w'.effects| && w'.effects[i].id == id
    {
      NewSuccess(w, s, id);
      if id in w.rows && w.rows[id].state == Succeeded {
        var i :| 0 <= i < |w.effects| && w.effects[i].id == id;
        assert w'.effects[i].id == id;
      }
    }
  }

  lemma StepSane(w: World, s: Step)
    requires Inv(w) && Enabled(w, s)
    ensures Sane(Next(w, s).rows)
  {
    hide OpenStand, HandedInOrder, EffectsMatch;
    match s {
      case Enqueue(id, row) => EnqueueSane(w.rows, id, row);
      case Claim(id, worker, now, until) => ClaimSane(w.rows, id, worker, now, until);
      case Beat(c, until) => BeatenSane(w.rows, c, until);
      case Succeed(c) => FinishedSane(w.rows, c, Succeeded);
      case Fail(c, retryable, at) =>
        FinishedSane(w.rows, c, Failed);
        DeadLetteredSane(w.rows, c);
        RequeuedSane(w.rows, c, at);
      case Release(c, now) => RequeuedSane(w.rows, c, now);
      case Stopped(c) => FinishedSane(w.rows, c, Cancelled);
      case Die(_) =>
      case RequestCancel(id) => CancelAskedSane(w.rows, id);
      case Expedite(id, now) => RowSane(w.rows, id, Next(w, s).rows[id]);
    }
  }

  lemma EnqueueSane(t: Table, id: nat, row: Operation)
    requires Sane(t) && Fits(t, id, row)
    ensures Sane(t[id := row])
  {
  }

  lemma StepKeeps(w: World, s: Step)
    requires Inv(w) && Enabled(w, s)
    ensures Inv(Next(w, s)) && Gentle(w.rows, Next(w, s).rows)
  {
    hide Sane, OpenStand, HandedInOrder, EffectsMatch, Next, Enabled, Gentle;
    StepSane(w, s);
    StepStands(w, s);
    StepHands(w, s);
    StepEffects(w, s);
  }

  // ------------------------------------------------------------------ every history

  const START := World(map[], {}, [], [])

  ghost predicate History(w: World, steps: seq<Step>, end: World)
    decreases |steps|
  {
    if steps == [] then end == w
    else Enabled(w, steps[0]) && History(Next(w, steps[0]), steps[1..], end)
  }

  lemma {:induction false} HistoryKeeps(w: World, steps: seq<Step>, end: World)
    requires Inv(w) && History(w, steps, end)
    ensures Inv(end) && Gentle(w.rows, end.rows)
    decreases |steps|
  {
    hide Inv, Enabled, Next;
    if steps != [] {
      StepKeeps(w, steps[0]);
      HistoryKeeps(Next(w, steps[0]), steps[1..], end);
    } else {
      assert forall id :: id in w.rows ==> RowGentle(w.rows[id], w.rows[id]);
    }
  }

  lemma StartInv()
    ensures Inv(START)
  {
  }

  /**
   Fencing: however claims, expiries, revived heartbeats, late reports and deaths interleave, an operation's
   effects committed if and only if it is succeeded, then exactly once, and from the attempt the row shows.
  */
  lemma EffectsOnce(steps: seq<Step>, end: World, id: nat)
    requires History(START, steps, end) && id in end.rows
    ensures end.rows[id].state == Succeeded <==> exists i :: 0 <= i < |end.effects| && end.effects[i].id == id
    ensures forall i, j ::
      0 <= i < |end.effects| && 0 <= j < |end.effects| && end.effects[i].id == end.effects[j].id ==> i == j
    ensures forall i :: 0 <= i < |end.effects| && end.effects[i].id == id ==>
      end.effects[i].attempt == end.rows[id].attempt
  {
    hide History, Sane, OpenStand, HandedInOrder;
    StartInv();
    HistoryKeeps(START, steps, end);
    forall i | 0 <= i < |end.effects| ensures Effective(end.rows, end.effects[i]) {
    }
  }

  /** A finished operation stays exactly as it finished. */
  lemma FinishedForGood(before: seq<Step>, middle: World, after: seq<Step>, end: World, id: nat)
    requires History(START, before, middle) && History(middle, after, end) && id in middle.rows
    requires Terminal(middle.rows[id].state)
    ensures id in end.rows && end.rows[id].state == middle.rows[id].state
    ensures end.rows[id].attempt == middle.rows[id].attempt
  {
    hide History, Inv;
    StartInv();
    HistoryKeeps(START, before, middle);
    HistoryKeeps(middle, after, end);
  }

  /** Bounded retries: the claims handed out for one operation are distinct attempts between 1 and its limit. */
  lemma AttemptsBounded(steps: seq<Step>, end: World, i: nat, j: nat)
    requires History(START, steps, end) && i < j < |end.handed| && end.handed[i].id == end.handed[j].id
    ensures end.handed[i].id in end.rows
    ensures 1 <= end.handed[i].attempt < end.handed[j].attempt <= end.rows[end.handed[j].id].maxAttempts
  {
    hide History, Sane, OpenStand, EffectsMatch;
    StartInv();
    HistoryKeeps(START, steps, end);
    assert Given(end.rows, end.handed[i]) && Given(end.rows, end.handed[j]);
  }

  /** No stuck work: in every reachable state unfinished operations, and only those, become claimable with time. */
  lemma NeverStuck(steps: seq<Step>, end: World, id: nat, now: int)
    requires History(START, steps, end) && id in end.rows
    ensures Claimable(end.rows[id], now) <==> !Terminal(end.rows[id].state) && now >= TakenFrom(end.rows[id])
    ensures !Terminal(end.rows[id].state) ==> ClaimsLeft(end.rows[id]) >= 1
  {
    hide History, OneQueuedPerKey, OpenStand, EffectsMatch, HandedInOrder;
    StartInv();
    HistoryKeeps(START, steps, end);
    ClaimableExactly(end.rows[id], now);
  }

  /**
   Why one report per claim matters: giving up is guarded on the attempt alone, so a second report can undo an ending.
  */
  lemma SecondReportOverwrites(t: Table, c: Ticket)
    requires c.id in t && Terminal(t[c.id].state) && t[c.id].state != DeadLetter && c.maxAttempts <= c.attempt
    ensures FailedRows(t, c, true, 0) != t <==> t[c.id].attempt == c.attempt
  {
    if t[c.id].attempt == c.attempt {
      assert FailedRows(t, c, true, 0)[c.id].state == DeadLetter;
    }
  }
}
