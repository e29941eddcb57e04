/** The operation queue (operations.py): guarded transitions on one table, each a function of its rows. */
module Operations {
  import opened Common

  datatype State = Queued | Running | Succeeded | Failed | DeadLetter | Cancelled | Superseded

  predicate Terminal(s: State) {
    s != Queued && s != Running
  }

  datatype Operation = Operation(
    kind: string, state: State, priority: int, attempt: nat, maxAttempts: nat, dueAt: int,
    leasedBy: Option<nat>, leaseExpires: Option<int>, cancelRequested: bool, key: Option<string>)

  type Table = map<nat, Operation>

  /** What a worker leaves a claim with. `attempt` is its fencing token. */
  datatype Ticket = Ticket(id: nat, attempt: nat, maxAttempts: nat, worker: nat)

  // ------------------------------------------------------------------ constraints

  ghost predicate OneQueuedPerKey(t: Table) {
    forall i, j :: i in t && j in t && t[i].state == Queued && t[j].state == Queued && t[i].key.Some? && t[i].key == t[j].key ==> i == j
  }

  /** A running row is owned and its lease has an end; every other row has neither. */
  predicate LeaseFits(o: Operation) {
    (o.state == Running <==> o.leaseExpires.Some?) && (o.leaseExpires.Some? <==> o.leasedBy.Some?)
  }

  /** Attempts are counted on claim, and the one past the limit exists only as a dead letter. */
  predicate Counted(o: Operation) {
    o.maxAttempts > 0 && (o.state == Running ==> 1 <= o.attempt)
    && (o.state != DeadLetter ==> o.attempt <= o.maxAttempts)
    && o.attempt <= o.maxAttempts + 1
  }

  ghost predicate Sane(t: Table) {
    OneQueuedPerKey(t) && forall i :: i in t ==> LeaseFits(t[i]) && Counted(t[i])
  }

  // ------------------------------------------------------------------ transitions

  /** Queued and due, or running on a lease that has run out: the second half is the recovery path. */
  predicate Claimable(o: Operation, now: int) {
    (o.state == Queued && o.dueAt <= now) || (o.state == Running && o.leaseExpires.Some? && o.leaseExpires.value < now)
  }

  /** Best priority first, then longest due. */
  predicate NotAfter(a: Operation, b: Operation) {
    a.priority < b.priority || (a.priority == b.priority && a.dueAt <= b.dueAt)
  }

  function Buried(o: Operation): Operation {
    o.(state := DeadLetter, leasedBy := None, leaseExpires := None)
  }

  /** The row after a claim: one attempt more, and one too many dead-letters on the spot. */
  function ClaimedRow(o: Operation, worker: nat, until: int): Operation {
    var taken := o.(state := Running, leasedBy := Some(worker), leaseExpires := Some(until), attempt := o.attempt + 1);
    if taken.attempt > taken.maxAttempts then Buried(taken) else taken
  }

  /** The compare-and-swap of every terminal report. */
  predicate Owns(t: Table, c: Ticket) {
    c.id in t && t[c.id].state == Running && t[c.id].attempt == c.attempt
  }

  function Finished(t: Table, c: Ticket, to: State): Table {
    if Owns(t, c) then t[c.id := t[c.id].(state := to, leasedBy := None, leaseExpires := None)] else t
  }

  /** Guarded on the attempt alone, not on the state. */
  function DeadLettered(t: Table, c: Ticket): Table {
    if c.id in t && t[c.id].attempt == c.attempt then t[c.id := Buried(t[c.id])] else t
  }

  /** Another row queued under the same key: the partial unique index refuses to queue a second. */
  ghost predicate KeyHeld(t: Table, id: nat) {
    id in t && t[id].key.Some? && exists j :: j in t && j != id && t[j].state == Queued && t[j].key == t[id].key
  }

  ghost function Requeued(t: Table, c: Ticket, dueAt: int): Table {
    if Owns(t, c) && !KeyHeld(t, c.id) then t[c.id := t[c.id].(state := Queued, leasedBy := None, leaseExpires := None, dueAt := dueAt)] else t
  }

  /** `fail`: permanent, out of attempts, or queued again after a delay. */
  ghost function FailedRows(t: Table, c: Ticket, retryable: bool, retryAt: int): Table {
    if !retryable then Finished(t, c, Failed)
    else if c.maxAttempts <= c.attempt then DeadLettered(t, c)
    else Requeued(t, c, retryAt)
  }

  ghost function ReleasedRows(t: Table, c: Ticket, now: int): Table {
    if c.id in t && t[c.id].leasedBy == Some(c.worker) then Requeued(t, c, now) else t
  }

  function CancelAsked(t: Table, id: nat): Table {
    if id !in t then t
    else if t[id].state == Queued then t[id := t[id].(state := Cancelled, cancelRequested := true)]
    else if t[id].state == Running then t[id := t[id].(cancelRequested := true)]
    else t
  }

  function Beaten(t: Table, c: Ticket, until: int): Table {
    if Owns(t, c) && t[c.id].leasedBy == Some(c.worker) then t[c.id := t[c.id].(leaseExpires := Some(until))] else t
  }

  // ------------------------------------------------------------------ every transition keeps the constraints

  lemma RowSane(t: Table, id: nat, row: Operation)
    requires Sane(t) && id in t && LeaseFits(row) && Counted(row) && row.key == t[id].key
    requires row.state == Queued ==> t[id].state == Queued || !KeyHeld(t, id)
    ensures Sane(t[id := row])
  {
  }

  lemma FinishedSane(t: Table, c: Ticket, to: State)
    requires Sane(t) && Terminal(to)
    ensures Sane(Finished(t, c, to))
  {
    if Owns(t, c) {
      RowSane(t, c.id, t[c.id].(state := to, leasedBy := None, leaseExpires := None));
    }
  }

  lemma DeadLetteredSane(t: Table, c: Ticket)
    requires Sane(t)
    ensures Sane(DeadLettered(t, c))
  {
    if c.id in t && t[c.id].attempt == c.attempt {
      RowSane(t, c.id, Buried(t[c.id]));
    }
  }

  lemma RequeuedSane(t: Table, c: Ticket, dueAt: int)
    requires Sane(t)
    ensures Sane(Requeued(t, c, dueAt))
  {
    hide KeyHeld;
    if Owns(t, c) && !KeyHeld(t, c.id) {
      RowSane(t, c.id, t[c.id].(state := Queued, leasedBy := None, leaseExpires := None, dueAt := dueAt));
    }
  }

  lemma CancelAskedSane(t: Table, id: nat)
    requires Sane(t)
    ensures Sane(CancelAsked(t, id))
  {
    if id in t && t[id].state == Queued {
      RowSane(t, id, t[id].(state := Cancelled, cancelRequested := true));
    } else if id in t && t[id].state == Running {
      RowSane(t, id, t[id].(cancelRequested := true));
    }
  }

  lemma BeatenSane(t: Table, c: Ticket, until: int)
    requires Sane(t)
    ensures Sane(Beaten(t, c, until))
  {
    if Owns(t, c) && t[c.id].leasedBy == Some(c.worker) {
      RowSane(t, c.id, t[c.id].(leaseExpires := Some(until)));
    }
  }

  lemma ClaimSane(t: Table, id: nat, worker: nat, now: int, until: int)
    requires Sane(t) && id in t && Claimable(t[id], now)
    ensures Sane(t[id := ClaimedRow(t[id], worker, until)])
  {
    RowSane(t, id, ClaimedRow(t[id], worker, until));
  }

  // ------------------------------------------------------------------ what each transition leaves, column by column

  /** No row but this one is touched, and of this one no column but the state, the lease, the attempt and the due time. */
  ghost predicate OnlyRow(t: Table, t': Table, id: nat) {
    t'.Keys == t.Keys && (forall j :: j in t && j != id ==> t'[j] == t[j]) &&
    (id in t ==> SameIntent(t[id], t'[id]))
  }

  /** What was asked for, and whether it should stop. */
  predicate SameIntent(o: Operation, o': Operation) {
    o'.kind == o.kind && o'.priority == o.priority && o'.maxAttempts == o.maxAttempts && o'.key == o.key
    && o'.cancelRequested == o.cancelRequested
  }

  predicate Unleased(o: Operation) {
    o.leasedBy == None && o.leaseExpires == None
  }

  /** Nobody else takes the operation before the lease is over, and anybody may once it is. */
  ghost predicate LeasedUntil(o: Operation, worker: nat, until: int) {
    o.state == Running && o.leasedBy == Some(worker) && o.leaseExpires == Some(until)
    && forall now: int :: Claimable(o, now) <==> until < now
  }

  /** A claim counts one attempt, and either leases the operation to its worker until then or ends it for good. */
  lemma ClaimLeases(o: Operation, worker: nat, until: int)
    ensures var o' := ClaimedRow(o, worker, until);
      SameIntent(o, o') && o'.attempt == o.attempt + 1 && o'.dueAt == o.dueAt &&
      (o.attempt < o.maxAttempts ==> LeasedUntil(o', worker, until)) &&
      (o.attempt >= o.maxAttempts ==> o'.state == DeadLetter && Unleased(o') && forall now :: !Claimable(o', now))
  {
  }

  /** A beat of the claim's own worker moves the end of the lease and nothing else; any other changes nothing. */
  lemma BeatExtends(t: Table, c: Ticket, until: int)
    ensures var t' := Beaten(t, c, until);
      OnlyRow(t, t', c.id) && (c.id in t ==> t'[c.id].attempt == t[c.id].attempt && t'[c.id].dueAt == t[c.id].dueAt) &&
      if Owns(t, c) && t[c.id].leasedBy == Some(c.worker) then LeasedUntil(t'[c.id], c.worker, until) && Owns(t', c) else t' == t
  {
  }

  /** A terminal report of the current claim ends the operation in that state; a stale one changes nothing. */
  lemma FinishEnds(t: Table, c: Ticket, to: State)
    requires Terminal(to)
    ensures var t' := Finished(t, c, to);
      OnlyRow(t, t', c.id) &&
      if Owns(t, c) then t'[c.id].state == to && Unleased(t'[c.id]) && t'[c.id].attempt == c.attempt && !Owns(t', c) else t' == t
  {
  }

  /** Giving up ends whatever row has this attempt. */
  lemma DeadLetterEnds(t: Table, c: Ticket)
    ensures var t' := DeadLettered(t, c);
      OnlyRow(t, t', c.id) &&
      if c.id in t && t[c.id].attempt == c.attempt then
        t'[c.id].state == DeadLetter && Unleased(t'[c.id]) && t'[c.id].attempt == c.attempt
      else t' == t
  {
  }

  /** Queued again the operation keeps its attempts, has no lease, and is claimable from its due time on. */
  ghost predicate WaitsUntil(o: Operation, dueAt: int) {
    o.state == Queued && Unleased(o) && forall now: int :: Claimable(o, now) <==> dueAt <= now
  }

  lemma RequeueWaits(t: Table, c: Ticket, dueAt: int)
    ensures var t' := Requeued(t, c, dueAt);
      OnlyRow(t, t', c.id) &&
      if Owns(t, c) && !KeyHeld(t, c.id) then WaitsUntil(t'[c.id], dueAt) && t'[c.id].attempt == c.attempt && !Owns(t', c) else t' == t
  {
    hide KeyHeld;
  }

  /** What a reported failure leaves: ended, given up, or waiting out the delay with its attempts counted. */
  lemma FailureLeaves(t: Table, c: Ticket, retryable: bool, retryAt: int)
    requires Owns(t, c)
    ensures var t' := FailedRows(t, c, retryable, retryAt);
      OnlyRow(t, t', c.id) && t'[c.id].attempt == c.attempt &&
      (!retryable ==> t'[c.id].state == Failed && Unleased(t'[c.id])) &&
      (retryable && c.attempt >= c.maxAttempts ==> t'[c.id].state == DeadLetter && Unleased(t'[c.id])) &&
      (retryable && c.attempt < c.maxAttempts ==> if KeyHeld(t, c.id) then t' == t else WaitsUntil(t'[c.id], retryAt))
  {
    hide KeyHeld;
  }

  /** Given back the operation is due at once, and its attempt stays counted. */
  lemma ReleaseWaits(t: Table, c: Ticket, now: int)
    ensures var t' := ReleasedRows(t, c, now);
      OnlyRow(t, t', c.id) &&
      if Owns(t, c) && t[c.id].leasedBy == Some(c.worker) && !KeyHeld(t, c.id)
      then WaitsUntil(t'[c.id], now) && t'[c.id].attempt == c.attempt else t' == t
  {
    hide KeyHeld;
  }

  /** A queued operation is cancelled on the spot, a running one is told to stop and runs on, a finished one is left alone. */
  lemma CancelAsks(t: Table, id: nat)
    ensures var t' := CancelAsked(t, id);
      t'.Keys == t.Keys && (forall j :: j in t && j != id ==> t'[j] == t[j]) &&
      (id in t ==> t'[id].(state := t[id].state, cancelRequested := t[id].cancelRequested) == t[id]) &&
      (id in t && !Terminal(t[id].state) ==> t'[id].cancelRequested) &&
      (id in t && t[id].state == Queued ==> t'[id].state == Cancelled && forall now :: !Claimable(t'[id], now)) &&
      (id in t && t[id].state == Running ==> t'[id].state == Running) && (id in t && Terminal(t[id].state) ==> t'[id] == t[id])
  {
  }

  // ------------------------------------------------------------------ nothing gets stuck

  /** When a row that is not finished can be taken again, if nobody touches it before. */
  function TakenFrom(o: Operation): int {
    if o.state == Queued then o.dueAt else if o.leaseExpires.Some? then o.leaseExpires.value + 1 else 0
  }

  /** Unfinished work is claimable from its due time or its lease's end on; finished work never is. */
  lemma ClaimableExactly(o: Operation, now: int)
    requires LeaseFits(o)
    ensures Claimable(o, now) <==> !Terminal(o.state) && now >= TakenFrom(o)
  {
  }

  /** How many more claims a row can see. */
  function ClaimsLeft(o: Operation): int {
    o.maxAttempts + 1 - o.attempt
  }

  /** Every claim uses one up, and the last one ends the operation. */
  lemma ClaimUsesOne(o: Operation, worker: nat, now: int, until: int)
    requires LeaseFits(o) && Counted(o) && Claimable(o, now)
    ensures ClaimsLeft(o) >= 1 && ClaimsLeft(ClaimedRow(o, worker, until)) == ClaimsLeft(o) - 1
    ensures ClaimedRow(o, worker, until).state == if ClaimsLeft(o) == 1 then DeadLetter else Running
  {
  }

  /** A requeue the index refuses leaves the row running on its lease, so it is picked up when that ends. */
  lemma RefusedRequeueRecovers(t: Table, c: Ticket, retryAt: int, now: int)
    requires Sane(t) && Owns(t, c) && KeyHeld(t, c.id) && c.attempt < c.maxAttempts
    ensures FailedRows(t, c, true, retryAt) == t && (Claimable(t[c.id], now) <==> now >= TakenFrom(t[c.id]))
  {
    ClaimableExactly(t[c.id], now);
  }
}
