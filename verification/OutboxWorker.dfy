/** `OutboxWorker`: the loops of app/events/worker.py over the shared event table. */
module OutboxWorker {
  import opened Wrappers
  import opened EventStatus
  import opened Outbox

  class EventTable {
    var rows: Table

    constructor ()
      ensures rows == map[]
    {
      rows := map[];
    }
  }

  function Elements(q: seq<EventId>): set<EventId> {
    set e | e in q
  }

  ghost predicate Distinct(q: seq<EventId>) {
    forall i, j | 0 <= i < j < |q| :: q[i] != q[j]
  }

  // The claimed records of a query, in its order.
  function Claimed(rows: Table, due: seq<EventId>, w: WorkerId, at: int): seq<EventId>
    requires forall e | e in due :: e in rows
  {
    if due == [] then []
    else
      var e := due[|due| - 1];
      Claimed(rows, due[..|due| - 1], w, at) + (if ClaimRow(rows[e], w, at).status.Processing? then [e] else [])
  }

  lemma {:induction false} ClaimedAreTheLiveOnes(rows: Table, due: seq<EventId>, w: WorkerId, at: int)
    requires Distinct(due) && forall e | e in due :: e in rows
    ensures Distinct(Claimed(rows, due, w, at))
    ensures forall e :: e in Claimed(rows, due, w, at) <==> e in due && ClaimRow(rows[e], w, at).status.Processing?
  {
    if due != [] {
      var n := |due| - 1;
      ClaimedAreTheLiveOnes(rows, due[..n], w, at);
      assert due == due[..n] + [due[n]];
    }
  }

  lemma NextClaim(rows: Table, due: seq<EventId>, i: nat, w: WorkerId, at: int)
    requires i < |due| && Distinct(due) && forall e | e in due :: e in rows
    ensures ClaimRows(rows, Elements(due[..i]), w, at)[due[i]] == rows[due[i]]
    ensures ClaimRows(rows, Elements(due[..i + 1]), w, at)
         == ClaimRows(rows, Elements(due[..i]), w, at)[due[i] := ClaimRow(rows[due[i]], w, at)]
    ensures Claimed(rows, due[..i + 1], w, at)
         == Claimed(rows, due[..i], w, at) + (if ClaimRow(rows[due[i]], w, at).status.Processing? then [due[i]] else [])
  {
    assert due[..i + 1] == due[..i] + [due[i]] && due[..i + 1][..i] == due[..i];
    assert due[i] !in due[..i];
  }

  class Worker {
    const id: WorkerId
    const lease: nat
    const table: EventTable

    constructor (id: WorkerId, lease: nat, table: EventTable)
      ensures this.id == id && this.lease == lease && this.table == table
    {
      this.id, this.lease, this.table := id, lease, table;
    }

    /** Claims the records of the locked query `due`; an expired last attempt is dead-lettered instead. */
    method Claim(due: seq<EventId>, now: int) returns (claimed: seq<EventId>)
      requires Distinct(due) && forall e | e in due :: e in table.rows && Claimable(table.rows[e], now, lease)
      modifies table
      ensures table.rows == ClaimRows(old(table.rows), Elements(due), id, now)
      ensures claimed == Claimed(old(table.rows), due, id, now)
    {
      ghost var before := table.rows;
      claimed := [];
      for i := 0 to |due|
        invariant table.rows == ClaimRows(before, Elements(due[..i]), id, now)
        invariant claimed == Claimed(before, due[..i], id, now)
      {
        var e := due[i];
        NextClaim(before, due, i, id, now);
        var r := table.rows[e];
        var next := r.retries + 1;
        if r.status.Processing? && next >= r.maxAttempts {
          table.rows := table.rows[e := r.(status := DeadLetter, retries := next, lockedAt := None, lockedBy := None)];
        } else {
          if r.status.Processing? {
            r := r.(retries := next);
          }
          table.rows := table.rows[e := r.(status := Processing, lockedAt := Some(now), lockedBy := Some(id))];
          claimed := claimed + [e];
        }
      }
      assert due[..|due|] == due;
    }

    /** One beat of the lease heartbeat. */
    method RenewLeases(held: seq<EventId>, now: int)
      modifies table
      ensures table.rows == RenewRows(old(table.rows), Elements(held), id, now)
    {
      ghost var before := table.rows;
      for i := 0 to |held|
        invariant table.rows == RenewRows(before, Elements(held[..i]), id, now)
      {
        var e := held[i];
        assert held[..i + 1] == held[..i] + [e];
        if e in table.rows && table.rows[e].status.Processing? && table.rows[e].lockedBy == Some(id) {
          table.rows := table.rows[e := table.rows[e].(lockedAt := Some(now))];
        }
      }
      assert held[..|held|] == held;
    }

    /** The fenced completion write; `effective` is its row count. */
    method Complete(e: EventId, seen: Row, succeeded: bool, now: int) returns (effective: bool)
      modifies table
      ensures effective <==> e in old(table.rows) && Fence(old(table.rows)[e], id)
      ensures table.rows == if e in old(table.rows)
                            then old(table.rows)[e := CompleteRow(old(table.rows)[e], id, succeeded, seen, now)]
                            else old(table.rows)
    {
      if e !in table.rows {
        return false;
      }
      var r := table.rows[e];
      effective := r.status.Processing? && r.lockedBy == Some(id);
      if effective {
        if succeeded {
          r := r.(status := Processed, nextAttemptAt := None);
        } else {
          var next := seen.retries + 1;
          var last := next >= seen.maxAttempts;
          r := r.(status := if last then DeadLetter else Failed, retries := r.retries + 1,
                  nextAttemptAt := if last then seen.nextAttemptAt else Some(now + Backoff(next)));
        }
        table.rows := table.rows[e := r.(lockedAt := None, lockedBy := None)];
      } else {
        assert table.rows[e := r] == table.rows;
      }
    }

    // The next handler outcome of a batch; it counts when it is effective and successful.
    method CompleteNext(seen: Table, claimed: seq<EventId>, i: nat, succeeds: set<EventId>, now: int, before: nat) returns (processed: nat)
      requires i < |claimed| && Distinct(claimed) && forall e | e in claimed :: e in seen && Fence(seen[e], id)
      requires CompletedSoFar(table.rows, seen, claimed, i, id, succeeds, now, before)
      modifies table
      ensures CompletedSoFar(table.rows, seen, claimed, i + 1, id, succeeds, now, processed)
    {
      var e := claimed[i];
      NextElement(claimed, i, succeeds);
      StillFenced(seen, claimed, i, id, succeeds, now);
      NextCompletion(seen, claimed, i, id, succeeds, now);
      var effective := Complete(e, seen[e], e in succeeds, now);
      processed := if effective && e in succeeds then before + 1 else before;
    }

    // Runs the handlers of a claimed batch in order; the decisions use the records as they were claimed.
    method CompleteAll(claimed: seq<EventId>, succeeds: set<EventId>, now: int) returns (processed: nat)
      requires Distinct(claimed) && forall e | e in claimed :: e in table.rows && Fence(table.rows[e], id)
      modifies table
      ensures table.rows == CompleteRows(old(table.rows), Elements(claimed), id, succeeds, now)
      ensures processed == |Elements(claimed) * succeeds|
    {
      var seen := table.rows;
      processed := 0;
      NothingCompletedYet(seen, claimed, id, succeeds, now);
      for i := 0 to |claimed|
        invariant CompletedSoFar(table.rows, seen, claimed, i, id, succeeds, now, processed)
      {
        processed := CompleteNext(seen, claimed, i, succeeds, now, processed);
      }
      assert claimed[..|claimed|] == claimed;
    }

    /**
     One batch with no other worker in between: every claimed event is completed by its own handler outcome,
     nothing else changes, and the result counts the processed ones.
     */
    method ProcessBatch(due: seq<EventId>, succeeds: set<EventId>, now: int) returns (processed: nat)
      requires Distinct(due) && forall e | e in due :: e in table.rows && Claimable(table.rows[e], now, lease)
      modifies table
      ensures table.rows == SettleRows(old(table.rows), Elements(due), id, succeeds, now)
      ensures processed == |Elements(Claimed(old(table.rows), due, id, now)) * succeeds|
    {
      ghost var before := table.rows;
      var claimed := Claim(due, now);
      ClaimedAreTheLiveOnes(before, due, id, now);
      ClaimThenComplete(before, due, claimed, id, succeeds, now);
      processed := CompleteAll(claimed, succeeds, now);
    }
  }

  // The first `i` claimed events are completed, and so many of them processed.
  ghost predicate CompletedSoFar(rows: Table, seen: Table, claimed: seq<EventId>, i: nat, w: WorkerId, succeeds: set<EventId>, at: int, processed: nat)
    requires i <= |claimed|
  {
    && rows == CompleteRows(seen, Elements(claimed[..i]), w, succeeds, at)
    && processed == |Elements(claimed[..i]) * succeeds|
  }

  lemma NothingCompletedYet(seen: Table, claimed: seq<EventId>, w: WorkerId, succeeds: set<EventId>, at: int)
    ensures CompletedSoFar(seen, seen, claimed, 0, w, succeeds, at, 0)
  {
    assert Elements(claimed[..0]) == {};
    assert {} * succeeds == {};
  }

  lemma NextElement(q: seq<EventId>, i: nat, s: set<EventId>)
    requires i < |q| && q[i] !in q[..i]
    ensures Elements(q[..i + 1]) == Elements(q[..i]) + {q[i]}
    ensures |Elements(q[..i + 1]) * s| == |Elements(q[..i]) * s| + (if q[i] in s then 1 else 0)
  {
    assert q[..i + 1] == q[..i] + [q[i]];
    if q[i] in s {
      assert Elements(q[..i + 1]) * s == Elements(q[..i]) * s + {q[i]};
    } else {
      assert Elements(q[..i + 1]) * s == Elements(q[..i]) * s;
    }
  }

  function CompleteRows(rows: Table, done: set<EventId>, w: WorkerId, succeeds: set<EventId>, at: int): Table {
    map e | e in rows :: if e in done then CompleteRow(rows[e], w, e in succeeds, rows[e], at) else rows[e]
  }

  lemma StillFenced(rows: Table, q: seq<EventId>, i: nat, w: WorkerId, succeeds: set<EventId>, at: int)
    requires i < |q| && Distinct(q) && forall e | e in q :: e in rows && Fence(rows[e], w)
    ensures q[i] !in q[..i] && q[i] in rows && Fence(rows[q[i]], w)
    ensures CompleteRows(rows, Elements(q[..i]), w, succeeds, at)[q[i]] == rows[q[i]]
  {
    assert q[i] in q;
  }

  lemma NextCompletion(rows: Table, q: seq<EventId>, i: nat, w: WorkerId, succeeds: set<EventId>, at: int)
    requires i < |q| && q[i] !in q[..i] && q[i] in rows
    ensures CompleteRows(rows, Elements(q[..i]), w, succeeds, at)[q[i]] == rows[q[i]]
    ensures CompleteRows(rows, Elements(q[..i + 1]), w, succeeds, at)
         == CompleteRows(rows, Elements(q[..i]), w, succeeds, at)[q[i] := CompleteRow(rows[q[i]], w, q[i] in succeeds, rows[q[i]], at)]
  {
    assert q[..i + 1] == q[..i] + [q[i]];
  }

  function SettleRows(rows: Table, due: set<EventId>, w: WorkerId, succeeds: set<EventId>, at: int): Table {
    map e | e in rows :: SettledRow(rows[e], e in due, w, e in succeeds, at)
  }

  lemma ClaimThenComplete(before: Table, due: seq<EventId>, claimed: seq<EventId>, w: WorkerId, succeeds: set<EventId>, at: int)
    requires forall e :: e in claimed <==> e in due && e in before && ClaimRow(before[e], w, at).status.Processing?
    ensures CompleteRows(ClaimRows(before, Elements(due), w, at), Elements(claimed), w, succeeds, at)
         == SettleRows(before, Elements(due), w, succeeds, at)
  {
  }

  /** What one undisturbed batch makes of a row. */
  function SettledRow(r: Row, due: bool, w: WorkerId, succeeded: bool, at: int): Row {
    if !due then r
    else
      var c := ClaimRow(r, w, at);
      CompleteRow(c, w, succeeded, c, at)
  }

  // The table methods are the steps of the outbox system.
  lemma ClaimIsTheStep(s: State, w: WorkerId, due: seq<EventId>, at: int)
    requires Inv(s) && Distinct(due) && Enabled(s, Outbox.Claim(w, Elements(due), at))
    ensures var s' := Apply(s, Outbox.Claim(w, Elements(due), at));
      && s'.rows == ClaimRows(s.rows, Elements(due), w, at)
      && s'.batches[w].Keys == Elements(Claimed(s.rows, due, w, at))
      && forall e | e in Claimed(s.rows, due, w, at) :: s'.batches[w][e].seen == s'.rows[e]
  {
    ClaimedAreTheLiveOnes(s.rows, due, w, at);
  }
}
