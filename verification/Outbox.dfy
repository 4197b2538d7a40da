/**
 The transactional outbox (app/events/worker.py) as a step system: any number of workers claim, renew,
 complete and disappear at any commit. Row updates are the functions the worker's methods are proved against.
 */
module Outbox {
  import opened Wrappers
  import opened EventStatus

  type EventId = nat
  type WorkerId = nat

  datatype Row = Row(
    status: Status,
    retries: nat,
    maxAttempts: int,
    nextAttemptAt: Option<int>,
    lockedAt: Option<int>,
    lockedBy: Option<WorkerId>)

  const MAX_BACKOFF_SECONDS := 300

  function Power2(n: nat): nat {
    if n == 0 then 1 else 2 * Power2(n - 1)
  }

  function Backoff(retries: nat): nat {
    if Power2(retries) < MAX_BACKOFF_SECONDS then Power2(retries) else MAX_BACKOFF_SECONDS
  }

  /** The non-immediate `publish` row. */
  function Published(maxAttempts: int, at: int): Row {
    Row(Pending, 0, maxAttempts, Some(at), None, None)
  }

  /** `claim_condition`, with the clock read at `at`. */
  predicate Claimable(r: Row, at: int, lease: nat) {
    && r.status in {Pending, Failed, Processing}
    && (r.nextAttemptAt.Some? ==> r.nextAttemptAt.value <= at)
    && (r.lockedAt.Some? ==> r.lockedAt.value < at - lease)
  }

  /** An expired processing lease counts as a used attempt; the last one dead-letters instead of claiming. */
  function ClaimRow(r: Row, w: WorkerId, at: int): Row {
    if r.status.Processing? && r.retries + 1 >= r.maxAttempts then
      r.(status := DeadLetter, retries := r.retries + 1, lockedAt := None, lockedBy := None)
    else
      r.(status := Processing, retries := if r.status.Processing? then r.retries + 1 else r.retries,
         lockedAt := Some(at), lockedBy := Some(w))
  }

  predicate Fence(r: Row, w: WorkerId) {
    r.status.Processing? && r.lockedBy == Some(w)
  }

  function RenewRow(r: Row, w: WorkerId, at: int): Row {
    if Fence(r, w) then r.(lockedAt := Some(at)) else r
  }

  // `seen` is the worker's own copy of the record, loaded when it claimed; the stored counter is incremented in place.
  function CompleteRow(r: Row, w: WorkerId, succeeded: bool, seen: Row, at: int): Row {
    if !Fence(r, w) then r
    else if succeeded then
      r.(status := Processed, nextAttemptAt := None, lockedAt := None, lockedBy := None)
    else if seen.retries + 1 >= seen.maxAttempts then
      r.(status := DeadLetter, retries := r.retries + 1, nextAttemptAt := seen.nextAttemptAt, lockedAt := None, lockedBy := None)
    else
      r.(status := Failed, retries := r.retries + 1, nextAttemptAt := Some(at + Backoff(seen.retries + 1)), lockedAt := None, lockedBy := None)
  }

  type Table = map<EventId, Row>

  function ClaimRows(rows: Table, chosen: set<EventId>, w: WorkerId, at: int): Table {
    map e | e in rows :: if e in chosen then ClaimRow(rows[e], w, at) else rows[e]
  }

  function RenewRows(rows: Table, held: set<EventId>, w: WorkerId, at: int): Table {
    map e | e in rows :: if e in held then RenewRow(rows[e], w, at) else rows[e]
  }

  /// The step system.

  // `claim` numbers the claims of one event from 1; `seen` is the claimed record.
  datatype Ticket = Ticket(claim: nat, seen: Row)

  datatype State = State(
    now: int,
    lease: nat,
    rows: Table,
    batches: map<WorkerId, map<EventId, Ticket>>,   // workers in the middle of a batch
    claims: map<EventId, seq<WorkerId>>)            // history: who claimed each event, in order

  datatype Action =
    | Tick(to: int)
    | Publish(id: EventId, maxAttempts: int)
    | Claim(worker: WorkerId, chosen: set<EventId>, at: int)
    | Heartbeat(worker: WorkerId)
    | Complete(worker: WorkerId, id: EventId, succeeded: bool)
    | Leave(worker: WorkerId)   // the batch is over, or the worker crashed

  predicate Enabled(s: State, a: Action) {
    match a
    case Tick(to) => to >= s.now
    case Publish(e, _) => e !in s.rows
    case Claim(w, chosen, at) =>
      at <= s.now && w !in s.batches && forall e | e in chosen :: e in s.rows && Claimable(s.rows[e], at, s.lease)
    case Heartbeat(w) => w in s.batches
    case Complete(w, e, _) => w in s.batches && e in s.batches[w]
    case Leave(w) => w in s.batches
  }

  predicate Claims(rows: Table, chosen: set<EventId>, e: EventId, w: WorkerId, at: int)
    requires e in rows
  {
    e in chosen && ClaimRow(rows[e], w, at).status.Processing?
  }

  function Apply(s: State, a: Action): State
    requires Enabled(s, a) && s.rows.Keys <= s.claims.Keys
  {
    match a
    case Tick(to) => s.(now := to)
    case Publish(e, n) => s.(rows := s.rows[e := Published(n, s.now)], claims := s.claims[e := []])
    case Claim(w, chosen, at) =>
      var rows := ClaimRows(s.rows, chosen, w, at);
      var claims := map e | e in s.claims :: if e in s.rows && Claims(s.rows, chosen, e, w, at) then s.claims[e] + [w] else s.claims[e];
      s.(rows := rows, claims := claims,
         batches := s.batches[w := map e | e in s.rows && Claims(s.rows, chosen, e, w, at) :: Ticket(|claims[e]|, rows[e])])
    case Heartbeat(w) => s.(rows := RenewRows(s.rows, s.batches[w].Keys, w, s.now))
    case Complete(w, e, ok) =>
      if e in s.rows then s.(rows := s.rows[e := CompleteRow(s.rows[e], w, ok, s.batches[w][e].seen, s.now)]) else s
    case Leave(w) => s.(batches := s.batches - {w})
  }

  ghost predicate Initial(s: State) {
    s.rows == map[] && s.batches == map[] && s.claims == map[]
  }

  /** How often an event may be claimed: `max_attempts`, and once even when that is not positive. */
  function Allowance(r: Row): nat {
    if r.maxAttempts >= 1 then r.maxAttempts else 1
  }

  function Count(b: bool): nat {
    if b then 1 else 0
  }

  ghost predicate RowInv(r: Row, history: seq<WorkerId>) {
    && |history| == r.retries + Count(r.status in {Processing, Processed})
    && (if r.status.DeadLetter? then r.retries == Allowance(r) else r.retries < Allowance(r))
    && (if r.status.Processing? then r.lockedBy == Some(history[|history| - 1]) && r.lockedAt.Some?
        else r.lockedBy.None? && r.lockedAt.None?)
  }

  ghost predicate TicketInv(t: Ticket, w: WorkerId, r: Row, history: seq<WorkerId>) {
    && 1 <= t.claim <= |history| && history[t.claim - 1] == w
    && (history[|history| - 1] == w ==> t.claim == |history|)
    && t.seen.maxAttempts == r.maxAttempts
    && (Fence(r, w) ==> t.seen.retries == r.retries)
  }

  ghost predicate Inv(s: State) {
    && s.rows.Keys == s.claims.Keys
    && (forall e | e in s.rows :: RowInv(s.rows[e], s.claims[e]))
    && (forall w, e | w in s.batches && e in s.batches[w] ::
          e in s.rows && TicketInv(s.batches[w][e], w, s.rows[e], s.claims[e]))
  }

  lemma InvHoldsInitially(s: State)
    requires Initial(s)
    ensures Inv(s)
  {
  }

  lemma ClaimKeepsRow(r: Row, h: seq<WorkerId>, w: WorkerId, at: int, lease: nat)
    requires RowInv(r, h) && Claimable(r, at, lease)
    ensures RowInv(ClaimRow(r, w, at), if ClaimRow(r, w, at).status.Processing? then h + [w] else h)
  {
  }

  // The claimant's ticket is the latest; the tickets of other workers are not disturbed.
  lemma ClaimKeepsTickets(r: Row, h: seq<WorkerId>, w: WorkerId, at: int, v: WorkerId, t: Ticket)
    requires v != w && TicketInv(t, v, r, h)
    ensures TicketInv(t, v, ClaimRow(r, w, at), if ClaimRow(r, w, at).status.Processing? then h + [w] else h)
  {
  }

  lemma CompleteKeepsRow(r: Row, h: seq<WorkerId>, w: WorkerId, ok: bool, t: Ticket, at: int)
    requires RowInv(r, h) && TicketInv(t, w, r, h)
    ensures RowInv(CompleteRow(r, w, ok, t.seen, at), h)
    ensures forall v, u | TicketInv(u, v, r, h) :: TicketInv(u, v, CompleteRow(r, w, ok, t.seen, at), h)
  {
  }

  lemma ClaimKeepsInv(s: State, w: WorkerId, chosen: set<EventId>, at: int)
    requires Inv(s) && Enabled(s, Claim(w, chosen, at))
    ensures Inv(Apply(s, Claim(w, chosen, at)))
  {
    var s' := Apply(s, Claim(w, chosen, at));
    forall e | e in s'.rows ensures RowInv(s'.rows[e], s'.claims[e]) {
      if e in chosen {
        ClaimKeepsRow(s.rows[e], s.claims[e], w, at, s.lease);
      }
    }
    forall v, e | v in s'.batches && e in s'.batches[v]
      ensures e in s'.rows && TicketInv(s'.batches[v][e], v, s'.rows[e], s'.claims[e])
    {
      if v != w {
        assert v in s.batches && e in s.batches[v];
        if e in chosen {
          ClaimKeepsTickets(s.rows[e], s.claims[e], w, at, v, s.batches[v][e]);
        }
      }
    }
  }

  lemma CompleteKeepsInv(s: State, w: WorkerId, e: EventId, ok: bool)
    requires Inv(s) && Enabled(s, Complete(w, e, ok))
    ensures Inv(Apply(s, Complete(w, e, ok)))
  {
    var s' := Apply(s, Complete(w, e, ok));
    CompleteKeepsRow(s.rows[e], s.claims[e], w, ok, s.batches[w][e], s.now);
    forall d | d in s'.rows ensures RowInv(s'.rows[d], s'.claims[d]) {
      assert d in s.rows;
    }
    forall v, d | v in s'.batches && d in s'.batches[v]
      ensures d in s'.rows && TicketInv(s'.batches[v][d], v, s'.rows[d], s'.claims[d])
    {
      assert TicketInv(s.batches[v][d], v, s.rows[d], s.claims[d]);
    }
  }

  lemma HeartbeatKeepsInv(s: State, w: WorkerId)
    requires Inv(s) && Enabled(s, Heartbeat(w))
    ensures Inv(Apply(s, Heartbeat(w)))
  {
    var s' := Apply(s, Heartbeat(w));
    forall v, d | v in s'.batches && d in s'.batches[v]
      ensures d in s'.rows && TicketInv(s'.batches[v][d], v, s'.rows[d], s'.claims[d])
    {
      assert TicketInv(s.batches[v][d], v, s.rows[d], s.claims[d]);
    }
  }

  // What every step keeps, whoever takes it.
  lemma InvIsKept(s: State, a: Action)
    requires Inv(s) && Enabled(s, a)
    ensures Inv(Apply(s, a))
  {
    match a
    case Claim(w, chosen, at) => ClaimKeepsInv(s, w, chosen, at);
    case Complete(w, e, ok) => CompleteKeepsInv(s, w, e, ok);
    case Heartbeat(w) => HeartbeatKeepsInv(s, w);
    case _ =>
  }

  /// Runs.

  ghost predicate IsRun(s: State, actions: seq<Action>)
    requires Inv(s)
    decreases |actions|
  {
    actions == [] ||
    (Enabled(s, actions[0]) && (InvIsKept(s, actions[0]); IsRun(Apply(s, actions[0]), actions[1..])))
  }

  ghost function Run(s: State, actions: seq<Action>): (r: State)
    requires Inv(s) && IsRun(s, actions)
    ensures Inv(r)
    decreases |actions|
  {
    if actions == [] then s
    else (InvIsKept(s, actions[0]); Run(Apply(s, actions[0]), actions[1..]))
  }

  // The counting law of every reachable state.
  lemma ClaimsAreBounded(s0: State, actions: seq<Action>, e: EventId)
    requires Initial(s0) && IsRun(s0, actions)
    requires e in Run(s0, actions).rows
    ensures var s := Run(s0, actions); var r := s.rows[e];
         && e in s.claims
         && |s.claims[e]| == (if r.status == Processing || r.status == Processed then r.retries + 1 else r.retries)
         && |s.claims[e]| <= (if r.maxAttempts >= 1 then r.maxAttempts else 1)
         && (r.maxAttempts >= 1 && !r.status.DeadLetter? ==> r.retries < r.maxAttempts)
         && (r.status.DeadLetter? ==> (r.retries == r.maxAttempts <==> r.maxAttempts >= 1))
  {
    InvHoldsInitially(s0);
    var s := Run(s0, actions);
    assert RowInv(s.rows[e], s.claims[e]);
  }

  predicate Terminal(r: Row) {
    r.status in {Processed, DeadLetter}
  }

  // `processed` and `dead_letter` are never left, and such a row is never written again.
  lemma {:induction false} TerminalRowsStay(s: State, actions: seq<Action>, e: EventId)
    requires Inv(s) && IsRun(s, actions) && e in s.rows && (s.rows[e].status == Processed || s.rows[e].status == DeadLetter)
    ensures e in Run(s, actions).rows && Run(s, actions).rows[e] == s.rows[e]
    decreases |actions|
  {
    if actions != [] {
      InvIsKept(s, actions[0]);
      TerminalRowsStay(Apply(s, actions[0]), actions[1..], e);
    }
  }

  /// Every effective completion belongs to the latest claim.

  predicate Effective(s: State, a: Action, e: EventId) {
    && e in s.rows
    && match a
       case Claim(w, chosen, at) => e in chosen
       case Complete(w, d, ok) => d == e && Fence(s.rows[e], w)
       case _ => false
  }

  lemma CompletionBelongsToLatestClaim(s: State, w: WorkerId, e: EventId, ok: bool)
    requires Inv(s) && Enabled(s, Complete(w, e, ok))
    ensures Effective(s, Complete(w, e, ok), e) <==>
            s.batches[w][e].claim == |s.claims[e]| && s.rows[e].status.Processing?
    ensures !Effective(s, Complete(w, e, ok), e) ==> Apply(s, Complete(w, e, ok)) == s
  {
    var t := s.batches[w][e];
    assert RowInv(s.rows[e], s.claims[e]) && TicketInv(t, w, s.rows[e], s.claims[e]);
    if !Fence(s.rows[e], w) {
      assert s.rows[e := s.rows[e]] == s.rows;
    }
  }

  // The stale copy a worker decides by agrees with the stored row whenever its write takes effect.
  lemma DecisionUsesStoredCounter(s: State, w: WorkerId, e: EventId, ok: bool)
    requires Inv(s) && Enabled(s, Complete(w, e, ok)) && Effective(s, Complete(w, e, ok), e)
    ensures var r := s.rows[e]; var r' := Apply(s, Complete(w, e, ok)).rows[e];
      if ok then r'.status == Processed && r'.retries == r.retries
      else r'.retries == r.retries + 1 && (r'.status == DeadLetter <==> r.retries + 1 == Allowance(r))
           && (r'.status == Failed <==> r.retries + 1 < Allowance(r))
  {
    assert RowInv(s.rows[e], s.claims[e]) && TicketInv(s.batches[w][e], w, s.rows[e], s.claims[e]);
  }

  /// Refinement: a queue in which each event has at most one owner.

  datatype Phase = Queued | Owned(owner: WorkerId, claim: nat) | Done | Dead

  datatype Item = Item(phase: Phase, used: nat, allowance: nat)

  predicate Take(i: Item, w: WorkerId, i': Item) {
    i.phase.Queued? && i' == i.(phase := Owned(w, i.used + 1))
  }

  predicate Succeed(i: Item, w: WorkerId, i': Item) {
    i.phase == Owned(w, i.used + 1) && i' == i.(phase := Done)
  }

  // The attempt is used up, by its owner's failure or by the expiry of its lease.
  predicate UseUp(i: Item, i': Item) {
    i.phase.Owned? && i.phase.claim == i.used + 1 && i.used < i.allowance
    && i' == i.(used := i.used + 1, phase := if i.used + 1 < i.allowance then Queued else Dead)
  }

  function Freed(i: Item): Item {
    i.(used := i.used + 1, phase := Queued)
  }

  function Abstract(r: Row): Item {
    Item(match r.status
         case Processing => if r.lockedBy.Some? then Owned(r.lockedBy.value, r.retries + 1) else Queued
         case Processed => Done
         case DeadLetter => Dead
         case _ => Queued,
         r.retries, Allowance(r))
  }

  /** One event over one step of the system: nothing, or moves of the single-owner queue. */
  ghost predicate QueueMove(a: Action, e: EventId, i: Item, i': Item) {
    match a
    case Claim(w, _, _) =>
      || Take(i, w, i')
      || (UseUp(i, i') && i'.phase.Dead?)
      || (UseUp(i, Freed(i)) && Take(Freed(i), w, i'))
    case Complete(w, d, ok) =>
      d == e && i.phase.Owned? && i.phase.owner == w && (if ok then Succeed(i, w, i') else UseUp(i, i'))
    case _ => false
  }

  lemma ClaimMovesQueue(r: Row, h: seq<WorkerId>, w: WorkerId, chosen: set<EventId>, e: EventId, at: int, lease: nat)
    requires RowInv(r, h) && Claimable(r, at, lease)
    ensures QueueMove(Claim(w, chosen, at), e, Abstract(r), Abstract(ClaimRow(r, w, at)))
  {
  }

  lemma CompletionMovesQueue(r: Row, h: seq<WorkerId>, w: WorkerId, t: Ticket, e: EventId, ok: bool, at: int)
    requires RowInv(r, h) && TicketInv(t, w, r, h) && Fence(r, w)
    ensures QueueMove(Complete(w, e, ok), e, Abstract(r), Abstract(CompleteRow(r, w, ok, t.seen, at)))
  {
  }

  lemma RefinesSingleOwnerQueue(s: State, a: Action, e: EventId)
    requires Inv(s) && Enabled(s, a) && e in s.rows
    ensures e in Apply(s, a).rows
    ensures if Effective(s, a, e) then QueueMove(a, e, Abstract(s.rows[e]), Abstract(Apply(s, a).rows[e]))
            else Abstract(Apply(s, a).rows[e]) == Abstract(s.rows[e])
  {
    if Effective(s, a, e) {
      match a
      case Claim(w, chosen, at) =>
        ClaimMovesQueue(s.rows[e], s.claims[e], w, chosen, e, at, s.lease);
      case Complete(w, d, ok) =>
        CompletionMovesQueue(s.rows[e], s.claims[e], w, s.batches[w][e], e, ok, s.now);
    }
  }

  // The effective actions on one event, in order.
  ghost function Moves(s: State, actions: seq<Action>, e: EventId): seq<Action>
    requires Inv(s) && IsRun(s, actions)
    decreases |actions|
  {
    if actions == [] then []
    else (
      InvIsKept(s, actions[0]);
      var rest := Moves(Apply(s, actions[0]), actions[1..], e);
      if Effective(s, actions[0], e) then [actions[0]] + rest else rest)
  }

  // A run of the queue: each action is a move to the next item.
  ghost predicate QueueRun(i: Item, e: EventId, moves: seq<Action>, i': Item)
    decreases |moves|
  {
    if moves == [] then i' == i
    else exists mid: Item :: QueueMove(moves[0], e, i, mid) && QueueRun(mid, e, moves[1..], i')
  }

  /** Every run of the workers is, event by event, a run of the single-owner queue: late completions do not appear in it. */
  lemma {:induction false} RunRefinesQueue(s: State, actions: seq<Action>, e: EventId)
    requires Inv(s) && IsRun(s, actions) && e in s.rows
    ensures e in Run(s, actions).rows
    ensures QueueRun(Abstract(s.rows[e]), e, Moves(s, actions, e), Abstract(Run(s, actions).rows[e]))
    decreases |actions|
  {
    if actions != [] {
      var s' := Apply(s, actions[0]);
      InvIsKept(s, actions[0]);
      RefinesSingleOwnerQueue(s, actions[0], e);
      RunRefinesQueue(s', actions[1..], e);
      if Effective(s, actions[0], e) {
        PrependMove(Abstract(s.rows[e]), e, actions[0], Abstract(s'.rows[e]), Moves(s', actions[1..], e), Abstract(Run(s', actions[1..]).rows[e]));
      }
    }
  }

  lemma PrependMove(i: Item, e: EventId, a: Action, mid: Item, rest: seq<Action>, i': Item)
    requires QueueMove(a, e, i, mid) && QueueRun(mid, e, rest, i')
    ensures QueueRun(i, e, [a] + rest, i')
  {
    assert ([a] + rest)[1..] == rest;
  }

  /// A bound on the work one event can cause.

  function Potential(r: Row): nat {
    if Terminal(r) || r.retries >= Allowance(r) then 0
    else 2 * (Allowance(r) - r.retries) - Count(r.status.Processing?)
  }

  lemma EffectiveStepsUsePotential(s: State, a: Action, e: EventId)
    requires Inv(s) && Enabled(s, a) && e in s.rows
    ensures Potential(Apply(s, a).rows[e]) + Count(Effective(s, a, e)) <= Potential(s.rows[e])
    ensures Allowance(Apply(s, a).rows[e]) == Allowance(s.rows[e])
  {
    if Effective(s, a, e) {
      match a
      case Claim(w, chosen, at) => ClaimUsesPotential(s.rows[e], s.claims[e], w, at, s.lease);
      case Complete(w, d, ok) => CompletionUsesPotential(s.rows[e], s.claims[e], w, s.batches[w][e], ok, s.now);
    }
  }

  lemma ClaimUsesPotential(r: Row, h: seq<WorkerId>, w: WorkerId, at: int, lease: nat)
    requires RowInv(r, h) && Claimable(r, at, lease)
    ensures Potential(ClaimRow(r, w, at)) + 1 <= Potential(r) && Allowance(ClaimRow(r, w, at)) == Allowance(r)
  {
  }

  lemma CompletionUsesPotential(r: Row, h: seq<WorkerId>, w: WorkerId, t: Ticket, ok: bool, at: int)
    requires RowInv(r, h) && TicketInv(t, w, r, h) && Fence(r, w)
    ensures Potential(CompleteRow(r, w, ok, t.seen, at)) + 1 <= Potential(r) && Allowance(CompleteRow(r, w, ok, t.seen, at)) == Allowance(r)
  {
  }

  ghost function EffectiveSteps(s: State, actions: seq<Action>, e: EventId): nat
    requires Inv(s) && IsRun(s, actions)
    decreases |actions|
  {
    if actions == [] then 0
    else
      Count(Effective(s, actions[0], e))
      + (InvIsKept(s, actions[0]); EffectiveSteps(Apply(s, actions[0]), actions[1..], e))
  }

  // Claims, reclaims and completions of one event: never more than twice its allowance, over any run.
  lemma {:induction false} EffectiveStepsAreBounded(s: State, actions: seq<Action>, e: EventId)
    requires Inv(s) && IsRun(s, actions) && e in s.rows
    ensures EffectiveSteps(s, actions, e) <= Potential(s.rows[e])
    ensures EffectiveSteps(s, actions, e) <= (if s.rows[e].maxAttempts >= 1 then 2 * s.rows[e].maxAttempts else 2)
    decreases |actions|
  {
    if actions != [] {
      var s' := Apply(s, actions[0]);
      InvIsKept(s, actions[0]);
      EffectiveStepsUsePotential(s, actions[0], e);
      EffectiveStepsAreBounded(s', actions[1..], e);
      assert EffectiveSteps(s, actions, e) == Count(Effective(s, actions[0], e)) + EffectiveSteps(s', actions[1..], e);
    }
  }

  /// Leases and delays.

  // A new event can be claimed at once, a claimed one again exactly when the lease has passed since the claim.
  lemma ClaimableIff(s: State, a: Action, e: EventId, at: int)
    requires Inv(s) && Enabled(s, a)
    ensures a.Publish? && a.id == e ==> (Claimable(Apply(s, a).rows[e], at, s.lease) <==> at >= s.now)
    ensures a.Claim? && e in a.chosen && Apply(s, a).rows[e].status == Processing ==>
      (Claimable(Apply(s, a).rows[e], at, s.lease) <==> at > a.at + s.lease)
    ensures a.Complete? && a.id == e && Apply(s, a).rows[e].status in {Processed, DeadLetter} ==> !Claimable(Apply(s, a).rows[e], at, s.lease)
  {
  }

  ghost predicate CanBeSettled(s: State, e: EventId)
    requires Inv(s)
  {
    exists actions :: IsRun(s, actions) && e in Run(s, actions).rows && Run(s, actions).rows[e].status in {Processed, DeadLetter}
  }

  /** No event is ever stuck: in every reachable state an idle worker can still bring it to its end. */
  lemma EveryEventCanBeSettled(s: State, e: EventId, w: WorkerId)
    requires Inv(s) && e in s.rows && w !in s.batches
    ensures CanBeSettled(s, e)
  {
    var r := s.rows[e];
    if r.status in {Processed, DeadLetter} {
      assert IsRun(s, []) && Run(s, []) == s;
    } else {
      var due := if r.nextAttemptAt.Some? then r.nextAttemptAt.value else s.now;
      var freed := if r.lockedAt.Some? then r.lockedAt.value + s.lease + 1 else s.now;
      var to := Latest(s.now, Latest(due, freed));
      var tick, claim := Tick(to), Claim(w, {e}, to);
      InvIsKept(s, tick);
      var s1 := Apply(s, tick);
      InvIsKept(s1, claim);
      var s2 := Apply(s1, claim);
      assert RowInv(s1.rows[e], s1.claims[e]);
      if s2.rows[e].status.Processing? {
        var complete := Complete(w, e, true);
        assert e in s2.batches[w] && Enabled(s2, complete);
        InvIsKept(s2, complete);
        SettledNow(Apply(s2, complete), e);
        SettledAfter(s2, complete, e);
      } else {
        SettledNow(s2, e);
      }
      SettledAfter(s1, claim, e);
      SettledAfter(s, tick, e);
    }
  }

  function Latest(a: int, b: int): int { if a < b then b else a }

  lemma SettledNow(s: State, e: EventId)
    requires Inv(s) && e in s.rows && s.rows[e].status in {Processed, DeadLetter}
    ensures CanBeSettled(s, e)
  {
    assert IsRun(s, []) && Run(s, []) == s;
  }

  lemma SettledAfter(s: State, a: Action, e: EventId)
    requires Inv(s) && Enabled(s, a) && Inv(Apply(s, a)) && CanBeSettled(Apply(s, a), e)
    ensures CanBeSettled(s, e)
  {
    var actions :| IsRun(Apply(s, a), actions) && e in Run(Apply(s, a), actions).rows
                && Run(Apply(s, a), actions).rows[e].status in {Processed, DeadLetter};
    assert ([a] + actions)[1..] == actions;
    assert IsRun(s, [a] + actions) && Run(s, [a] + actions) == Run(Apply(s, a), actions);
  }

  // A claim or a heartbeat keeps every other worker out until the lease has passed since then.
  lemma LeaseKeepsOthersOut(s: State, a: Action, e: EventId, at: int)
    requires Inv(s) && Enabled(s, a) && e in s.rows
    requires (a.Heartbeat? && e in s.batches[a.worker] && Fence(s.rows[e], a.worker) && at <= s.now + s.lease)
          || (a.Claim? && e in a.chosen && at <= a.at + s.lease)
    ensures !Claimable(Apply(s, a).rows[e], at, s.lease)
  {
    assert RowInv(s.rows[e], s.claims[e]);
  }

  lemma {:induction false} BackoffGrows(m: nat, n: nat)
    requires m <= n
    ensures 1 <= Backoff(m) <= Backoff(n) <= MAX_BACKOFF_SECONDS
    ensures Backoff(0) == 1 && (n < 8 ==> Backoff(n + 1) == 2 * Backoff(n)) && (n >= 9 ==> Backoff(n) == 300)
    decreases n - m
  {
    PowerGrows(m, n);
    PowerGrows(0, m);
    if n >= 9 {
      PowerGrows(9, n);
    }
  }

  lemma {:induction false} PowerGrows(m: nat, n: nat)
    requires m <= n
    ensures Power2(m) <= Power2(n)
    decreases n - m
  {
    if m < n {
      PowerGrows(m, n - 1);
    }
  }

  // After a failure that is not the last one, the event can be taken again exactly when its delay has passed.
  lemma FailureDelaysRetry(s: State, w: WorkerId, e: EventId, at: int)
    requires Inv(s) && Enabled(s, Complete(w, e, false)) && Effective(s, Complete(w, e, false), e)
    ensures Claimable(Apply(s, Complete(w, e, false)).rows[e], at, s.lease) <==>
      s.rows[e].retries + 1 < s.rows[e].maxAttempts && at >= s.now + Backoff(s.rows[e].retries + 1)
  {
    assert RowInv(s.rows[e], s.claims[e]);
    assert TicketInv(s.batches[w][e], w, s.rows[e], s.claims[e]);
  }
}
