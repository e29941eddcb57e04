/** The operation table as the functions of operations.py leave it, statement by statement. */
module Queueing {
  import opened Common
  import opened Operations

  /** What a claim may take: wanted, and not locked by another claim in flight. */
  predicate Free(t: Table, kinds: Option<set<string>>, locked: set<nat>, now: int, i: nat) {
    i in t && Claimable(t[i], now) && (kinds.Some? ==> t[i].kind in kinds.value) && i !in locked
  }

  ghost predicate Best(t: Table, kinds: Option<set<string>>, locked: set<nat>, now: int, i: nat) {
    Free(t, kinds, locked, now, i) && forall j :: Free(t, kinds, locked, now, j) ==> NotAfter(t[i], t[j])
  }

  /** Nothing else free is more urgent, and of the equally urgent nothing is due for longer. */
  lemma BestIsFirst(t: Table, kinds: Option<set<string>>, locked: set<nat>, now: int, i: nat, j: nat)
    requires Best(t, kinds, locked, now, i) && j in t && j !in locked && (kinds == None || t[j].kind in kinds.value)
    requires (t[j].state == Queued && t[j].dueAt <= now) || (t[j].state == Running && t[j].leaseExpires.Some? && t[j].leaseExpires.value < now)
    ensures i in t && i !in locked && (kinds == None || t[i].kind in kinds.value)
    ensures t[i].priority <= t[j].priority && (t[i].priority == t[j].priority ==> t[i].dueAt <= t[j].dueAt)
  {
    assert Free(t, kinds, locked, now, j);
  }

  /** A queued row under the key: at most one exists. */
  predicate QueuedUnder(t: Table, key: string, i: nat) {
    i in t && t[i].state == Queued && t[i].key == Some(key)
  }

  predicate PendingUnder(t: Table, key: string, converge: bool, i: nat) {
    i in t && t[i].key == Some(key) && (t[i].state == Queued || (converge && t[i].state == Running))
  }

  ghost predicate Held(t: Table, key: string) {
    exists j :: QueuedUnder(t, key, j)
  }

  ghost predicate Vacant(t: Table, key: string, converge: bool) {
    forall j :: !PendingUnder(t, key, converge, j)
  }

  ghost predicate InFlight(t: Table, key: string) {
    exists j :: PendingUnder(t, key, true, j) && t[j].state == Running
  }

  ghost predicate Taken(t: Table, t': Table, kinds: Option<set<string>>, locked: set<nat>, now: int, worker: nat,
                        until: int, i: nat, c: Option<Ticket>) {
    Best(t, kinds, locked, now, i) && t' == t[i := ClaimedRow(t[i], worker, until)]
    && c == (if t'[i].state == Running then Some(Ticket(i, t'[i].attempt, t'[i].maxAttempts, worker)) else None)
  }

  /** Three rounds of insert and look-up, each statement on a table of its own. */
  const CONVERGE_ATTEMPTS := 3

  /** In round k the insert met a queued holder of the key, which was gone again by the look-up. */
  ghost predicate Churned(others: seq<Table>, key: string, converge: bool, k: nat)
    requires 2 * k + 2 < |others|
  {
    Held(others[2 * k + 1], key) && Vacant(others[2 * k + 2], key, converge)
  }

  /** A row that refuses an insert under the key. */
  lemma HeldExactly(t: Table, key: string)
    ensures Held(t, key) <==> exists j :: j in t && t[j].key == Some(key) && t[j].state == Queued
  {
    if j :| j in t && t[j].key == Some(key) && t[j].state == Queued {
      assert QueuedUnder(t, key, j);
    }
  }

  /** Nothing under the key to converge on: no queued row, and no running one if those count. */
  lemma VacantExactly(t: Table, key: string, converge: bool)
    ensures Vacant(t, key, converge) <==>
      forall j :: j in t && t[j].key == Some(key) ==> t[j].state != Queued && !(converge && t[j].state == Running)
  {
    if Vacant(t, key, converge) {
      forall j | j in t && t[j].key == Some(key) ensures t[j].state != Queued && !(converge && t[j].state == Running) {
        assert !PendingUnder(t, key, converge, j);
      }
    }
  }

  function NewRow(kind: string, priority: int, maxAttempts: nat, dueAt: int, key: Option<string>): Operation {
    Operation(kind, Queued, priority, 0, maxAttempts, dueAt, None, None, false, key)
  }

  class Queue {
    var rows: Table

    constructor ()
      ensures rows == map[] && Sane(rows)
    {
      rows := map[];
    }

    /** The best free row, or none: lowest priority number first, then the longest due. */
    method Candidate(kinds: Option<set<string>>, locked: set<nat>, now: int) returns (found: Option<nat>)
      ensures found.Some? ==> Best(rows, kinds, locked, now, found.value)
      ensures found.None? ==> forall j :: !Free(rows, kinds, locked, now, j)
    {
      found := None;
      var left := rows.Keys;
      while left != {}
        invariant left <= rows.Keys
        invariant found.Some? ==> Free(rows, kinds, locked, now, found.value)
        invariant forall j :: j !in left && Free(rows, kinds, locked, now, j) ==>
          found.Some? && NotAfter(rows[found.value], rows[j])
        decreases left
      {
        var i :| i in left;
        left := left - {i};
        if Free(rows, kinds, locked, now, i) && (found.None? || !NotAfter(rows[found.value], rows[i])) {
          found := Some(i);
        }
      }
    }

    /** One attempt is counted here, and one too many buries the row instead of handing it out. */
    method Claim(worker: nat, kinds: Option<set<string>>, locked: set<nat>, now: int, until: int)
      returns (taken: Option<Ticket>)
      requires Sane(rows)
      modifies this
      ensures Sane(rows)
      ensures (forall j :: !old(Free(rows, kinds, locked, now, j))) ==> taken == None && rows == old(rows)
      ensures (exists j :: old(Free(rows, kinds, locked, now, j)))
        ==> (exists i :: Taken(old(rows), rows, kinds, locked, now, worker, until, i, taken))
      ensures taken.Some? ==> taken.value.id in old(rows) && OnlyRow(old(rows), rows, taken.value.id)
      ensures taken.Some? ==> Owns(rows, taken.value) && LeasedUntil(rows[taken.value.id], worker, until)
    {
      var found := Candidate(kinds, locked, now);
      if found == None {
        return None;
      }
      var i := found.value;
      ClaimSane(rows, i, worker, now, until);
      ClaimLeases(rows[i], worker, until);
      var row := rows[i];
      row := row.(state := Running, leasedBy := Some(worker), leaseExpires := Some(until), attempt := row.attempt + 1);
      rows := rows[i := row];
      if row.attempt > row.maxAttempts {
        DeadLetter(Ticket(i, row.attempt, row.maxAttempts, worker));
        assert rows == old(rows)[i := ClaimedRow(old(rows)[i], worker, until)];
        assert Taken(old(rows), rows, kinds, locked, now, worker, until, i, None);
        return None;
      }
      taken := Some(Ticket(i, row.attempt, row.maxAttempts, worker));
      assert Taken(old(rows), rows, kinds, locked, now, worker, until, i, taken);
    }

    method DeadLetter(c: Ticket)
      modifies this
      ensures rows == DeadLettered(old(rows), c)
    {
      if c.id in rows && rows[c.id].attempt == c.attempt {
        rows := rows[c.id := rows[c.id].(state := State.DeadLetter, leasedBy := None, leaseExpires := None)];
      }
    }

    /** Whether the lease was extended, and whether to stop. A lease that ran out unclaimed is revived. */
    method Heartbeat(c: Ticket, until: int) returns (extended: bool, stop: bool)
      requires Sane(rows)
      modifies this
      ensures Sane(rows) && rows == Beaten(old(rows), c, until)
      ensures extended ==> OnlyRow(old(rows), rows, c.id) && Owns(rows, c) && LeasedUntil(rows[c.id], c.worker, until)
      ensures !extended ==> rows == old(rows)
      ensures extended <==> Owns(old(rows), c) && old(rows)[c.id].leasedBy == Some(c.worker)
      ensures !extended ==> stop
      ensures extended ==> stop == rows[c.id].cancelRequested
    {
      BeatenSane(rows, c, until);
      BeatExtends(rows, c, until);
      if Owns(rows, c) && rows[c.id].leasedBy == Some(c.worker) {
        rows := rows[c.id := rows[c.id].(leaseExpires := Some(until))];
        return true, rows[c.id].cancelRequested;
      }
      return false, true;
    }

    /** The compare-and-swap: false means the claim lost the race and must drop its work. */
    method Finish(c: Ticket, to: State) returns (changed: bool)
      requires Sane(rows) && Terminal(to)
      modifies this
      ensures Sane(rows) && rows == Finished(old(rows), c, to)
      ensures changed <==> Owns(old(rows), c)
      ensures changed ==> OnlyRow(old(rows), rows, c.id) && rows[c.id].state == to && Unleased(rows[c.id])
      ensures !changed ==> rows == old(rows)
    {
      FinishedSane(rows, c, to);
      FinishEnds(rows, c, to);
      changed := Owns(rows, c);
      if changed {
        rows := rows[c.id := rows[c.id].(state := to, leasedBy := None, leaseExpires := None)];
      }
    }

    /** Queue the row again, unless the claim is stale. The index refuses a second queued row per key. */
    method Requeue(c: Ticket, dueAt: int) returns (refused: bool)
      requires Sane(rows)
      modifies this
      ensures Sane(rows) && rows == Requeued(old(rows), c, dueAt)
      ensures refused <==> Owns(old(rows), c) && KeyHeld(old(rows), c.id)
    {
      RequeuedSane(rows, c, dueAt);
      if !Owns(rows, c) {
        return false;
      }
      if exists j :: j in rows && j != c.id && rows[j].state == Queued && rows[j].key == rows[c.id].key && rows[c.id].key.Some? {
        return true;
      }
      rows := rows[c.id := rows[c.id].(state := Queued, leasedBy := None, leaseExpires := None, dueAt := dueAt)];
      return false;
    }

    /** The state it answers with, or none when the index refused and the transaction rolled back. */
    method Fail(c: Ticket, retryable: bool, retryAt: int) returns (answer: Option<State>)
      requires Sane(rows)
      modifies this
      ensures Sane(rows) && rows == FailedRows(old(rows), c, retryable, retryAt)
      ensures answer == FailAnswer(old(rows), c, retryable)
      ensures OnlyRow(old(rows), rows, c.id)
      ensures old(Owns(rows, c)) && answer == Some(Failed) ==> rows[c.id].state == Failed && Unleased(rows[c.id])
      ensures old(Owns(rows, c)) && answer == Some(Queued) ==>
        WaitsUntil(rows[c.id], retryAt) && rows[c.id].attempt == c.attempt
      ensures answer == Some(State.DeadLetter) && c.id in old(rows) && old(rows)[c.id].attempt == c.attempt ==>
        rows[c.id].state == State.DeadLetter && Unleased(rows[c.id])
      ensures (answer == Some(Queued) && !old(Owns(rows, c))) || answer == None ==> rows == old(rows)
    {
      FailureChanges(rows, c, retryable, retryAt);
      if !retryable {
        var _ := Finish(c, Failed);
        return Some(Failed);
      }
      if c.maxAttempts <= c.attempt {
        DeadLetteredSane(rows, c);
        DeadLetter(c);
        return Some(State.DeadLetter);
      }
      var refused := Requeue(c, retryAt);
      return if refused then None else Some(Queued);
    }

    method Release(c: Ticket, now: int) returns (answer: Option<bool>)
      requires Sane(rows)
      modifies this
      ensures Sane(rows) && rows == ReleasedRows(old(rows), c, now)
      ensures answer == Some(true) ==>
        c.id in rows && rows[c.id].state == Queued && rows[c.id].dueAt == now && rows[c.id].attempt == c.attempt
      ensures answer == Some(false) <==> !(Owns(old(rows), c) && old(rows)[c.id].leasedBy == Some(c.worker))
      ensures answer == Some(true) <==>
        Owns(old(rows), c) && old(rows)[c.id].leasedBy == Some(c.worker) && !KeyHeld(old(rows), c.id)
    {
      if !Owns(rows, c) || rows[c.id].leasedBy != Some(c.worker) {
        return Some(false);
      }
      var refused := Requeue(c, now);
      return if refused then None else Some(true);
    }

    method RequestCancel(id: nat) returns (asked: bool)
      requires Sane(rows)
      modifies this
      ensures Sane(rows) && rows == CancelAsked(old(rows), id)
      ensures asked <==> id in old(rows) && !Terminal(old(rows)[id].state)
    {
      CancelAskedSane(rows, id);
      if id in rows && rows[id].state == Queued {
        rows := rows[id := rows[id].(state := Cancelled, cancelRequested := true)];
        return true;
      }
      if id in rows && rows[id].state == Running {
        rows := rows[id := rows[id].(cancelRequested := true)];
        return true;
      }
      return false;
    }

    /** One row matching, or none; a queued one wins over a running one. */
    method Pending(key: string, converge: bool) returns (found: Option<nat>)
      ensures found.Some? ==> PendingUnder(rows, key, converge, found.value)
      ensures found.Some? && rows[found.value].state == Running ==> forall j :: !QueuedUnder(rows, key, j)
      ensures found.None? ==> forall j :: !PendingUnder(rows, key, converge, j)
    {
      if j :| j in rows && QueuedUnder(rows, key, j) {
        return Some(j);
      }
      if j :| j in rows && PendingUnder(rows, key, converge, j) {
        return Some(j);
      }
      return None;
    }

    /**
     Record an intent, or converge on the one already pending. Other transactions commit between the statements:
     `others` lists the tables they leave, one before each statement. It gives up only when the key changed hands
     in all three rounds.
    */
    method Enqueue(id: nat, row: Operation, converge: bool, others: seq<Table>) returns (result: Option<nat>)
      requires |others| == 2 * CONVERGE_ATTEMPTS + 1
      requires forall k :: 0 <= k < |others| ==> Sane(others[k]) && id !in others[k]
      requires row == NewRow(row.kind, row.priority, row.maxAttempts, row.dueAt, row.key) && row.maxAttempts > 0
      modifies this
      ensures Sane(rows)
      ensures result.Some? ==> result.value in rows && rows[result.value].key == row.key
      ensures result.Some? ==> rows[result.value].state == Queued || (converge && rows[result.value].state == Running)
      ensures result == Some(id) ==> rows[id] == row && exists k :: 0 <= k < |others| && rows == others[k][id := row]
      ensures result != Some(id) ==> exists k :: 0 <= k < |others| && rows == others[k]
      ensures row.key.None? ==> result == Some(id)
      ensures result.None? <==> (row.key.Some? && !(converge && InFlight(others[0], row.key.value))
                                 && forall k :: 0 <= k < CONVERGE_ATTEMPTS ==>
                                   Churned(others, row.key.value, converge, k))
    {
      hide Sane, Held, Vacant;
      rows := others[0];
      if row.key == None {
        InsertedSane(rows, id, row);
        rows := rows[id := row];
        return Some(id);
      }
      var key := row.key.value;
      if converge {
        if j :| j in rows && rows[j].key == row.key && rows[j].state == Running {
          assert PendingUnder(others[0], key, true, j);
          return Some(j);
        }
      }
      var round := 0;
      while round < CONVERGE_ATTEMPTS
        invariant 0 <= round <= CONVERGE_ATTEMPTS
        invariant exists k :: 0 <= k < |others| && rows == others[k]
        invariant forall k :: 0 <= k < round ==> Churned(others, key, converge, k)
      {
        rows := others[2 * round + 1];
        if !exists j :: j in rows && QueuedUnder(rows, key, j) {
          HeldExactly(rows, key);
          assert !Churned(others, key, converge, round);
          InsertedSane(rows, id, row);
          rows := rows[id := row];
          return Some(id);
        }
        rows := others[2 * round + 2];
        var existing := Pending(key, converge);
        if existing.Some? {
          NotVacant(rows, key, converge, existing.value);
          assert !Churned(others, key, converge, round);
          return existing;
        }
        HeldExactly(others[2 * round + 1], key);
        VacantNow(rows, key, converge);
        round := round + 1;
      }
      return None;
    }

    /** Pull a queued row forward, never back. A row that is not queued is left alone. */
    method Expedite(id: nat, now: int) returns (moved: bool)
      requires Sane(rows)
      modifies this
      ensures Sane(rows) && (moved <==> id in old(rows) && old(rows)[id].state == Queued)
      ensures moved ==> id in rows && rows == old(rows)[id := old(rows)[id].(dueAt := rows[id].dueAt)]
      ensures moved ==>
        rows[id].dueAt <= now && rows[id].dueAt <= old(rows)[id].dueAt && rows[id].dueAt in {now, old(rows)[id].dueAt}
      ensures !moved ==> rows == old(rows)
    {
      if id !in rows || rows[id].state != Queued {
        return false;
      }
      var row := rows[id].(dueAt := if now < rows[id].dueAt then now else rows[id].dueAt);
      RowSane(rows, id, row);
      rows := rows[id := row];
      return true;
    }
  }

  // ------------------------------------------------------------------ what the answers mean

  /** What `fail` answers: the branch it took, which is not always what it changed. */
  ghost function FailAnswer(t: Table, c: Ticket, retryable: bool): Option<State> {
    if !retryable then Some(Failed)
    else if c.maxAttempts <= c.attempt then Some(DeadLetter)
    else if Owns(t, c) && KeyHeld(t, c.id) then None
    else Some(Queued)
  }

  lemma FailureChanges(t: Table, c: Ticket, retryable: bool, retryAt: int)
    ensures var t' := FailedRows(t, c, retryable, retryAt);
      OnlyRow(t, t', c.id) &&
      match FailAnswer(t, c, retryable)
      case None => t' == t
      case Some(Queued) => if Owns(t, c) then WaitsUntil(t'[c.id], retryAt) && t'[c.id].attempt == c.attempt else t' == t
      case Some(Failed) => Owns(t, c) ==> t'[c.id].state == Failed && Unleased(t'[c.id])
      case Some(_) =>
        c.id in t && t[c.id].attempt == c.attempt ==> t'[c.id].state == DeadLetter && Unleased(t'[c.id])
  {
    hide KeyHeld;
  }

  /** The answer is the state reached exactly when the claim could still write, or the row stood there already. */
  lemma AnswerIsState(t: Table, c: Ticket, retryable: bool, retryAt: int)
    requires c.id in t && FailAnswer(t, c, retryable).Some?
    ensures var s := FailAnswer(t, c, retryable).value;
            FailedRows(t, c, retryable, retryAt)[c.id].state == s
            <==> t[c.id].state == s || Owns(t, c) || (s == DeadLetter && t[c.id].attempt == c.attempt)
  {
  }

  /** A schedule keeps exactly one queued row: a convergence on queued rows only leaves one, whoever inserted it. */
  lemma OneScheduled(t: Table, key: string, i: nat, j: nat)
    requires Sane(t) && QueuedUnder(t, key, i)
    ensures QueuedUnder(t, key, j) <==> i == j
  {
  }

  lemma InsertedSane(t: Table, id: nat, row: Operation)
    requires Sane(t) && id !in t && row == NewRow(row.kind, row.priority, row.maxAttempts, row.dueAt, row.key)
    requires row.maxAttempts > 0
    requires row.key.Some? ==> forall j :: j in t ==> !QueuedUnder(t, row.key.value, j)
    ensures Sane(t[id := row])
  {
  }

  lemma NotVacant(t: Table, key: string, converge: bool, j: nat)
    requires PendingUnder(t, key, converge, j)
    ensures !Vacant(t, key, converge)
  {
  }

  lemma VacantNow(t: Table, key: string, converge: bool)
    requires forall j :: !PendingUnder(t, key, converge, j)
    ensures Vacant(t, key, converge)
  {
  }
}
