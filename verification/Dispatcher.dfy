/**
 The bridge from events to agent runs (app/events/dispatcher.py): any number of deliveries of an event, racing with each
 other, with stop requests and with the rest of the runtime, each losing its process at any commit.
 */
module Dispatcher {
  import opened Wrappers

  type EventId = nat
  type DeliveryId = nat

  // The run of an event has an id computed from the event's.
  datatype RunId = EventRun(event: EventId) | OtherRun(id: nat)

  datatype RunStatus = Running | WaitingForApproval | WaitingForConfirmation | Completed | Failed | Cancelled

  datatype RunRow = RunRow(session: string, parent: Option<RunId>, status: RunStatus, cancelRequested: bool, response: string)

  datatype Decision = Undecided | Approved | Edited | Rejected

  datatype Approval = Approval(run: RunId, decision: Decision)

  datatype Confirmation = Confirmation(root: RunId, execution: RunId, decision: Decision)

  datatype Message = Message(session: string, assistant: bool, run: Option<RunId>, content: string)

  datatype Tables = Tables(
    runs: map<RunId, RunRow>,
    approvals: map<nat, Approval>,
    confirmations: map<nat, Confirmation>,
    messages: map<nat, Message>)

  const CANCELLED_RESPONSE := "Run cancelled. An operation already in progress may have completed before AURA observed the request."

  /// Finalizing a cancelled run.

  // The run itself or one of its direct children.
  predicate InFamily(t: Tables, r: RunId, x: RunId) {
    x in t.runs && (x == r || t.runs[x].parent == Some(r))
  }

  predicate Concerns(t: Tables, r: RunId, c: Confirmation) {
    c.root == r || InFamily(t, r, c.execution)
  }

  predicate Answers(m: Message, session: string, r: RunId) {
    m.session == session && m.assistant && m.run == Some(r)
  }

  function CancelledTables(t: Tables, r: RunId, session: string): Tables
    requires r in t.runs
  {
    Tables(
      t.runs[r := t.runs[r].(status := Cancelled, response := CANCELLED_RESPONSE)],
      map a | a in t.approvals :: if InFamily(t, r, t.approvals[a].run) && t.approvals[a].decision.Undecided?
                                  then t.approvals[a].(decision := Rejected) else t.approvals[a],
      map c | c in t.confirmations :: if Concerns(t, r, t.confirmations[c]) && t.confirmations[c].decision.Undecided?
                                      then t.confirmations[c].(decision := Rejected) else t.confirmations[c],
      map m | m in t.messages :: if Answers(t.messages[m], session, r) then t.messages[m].(content := CANCELLED_RESPONSE) else t.messages[m])
  }

  ghost predicate NothingPending(t: Tables, r: RunId) {
    && (forall a | a in t.approvals && InFamily(t, r, t.approvals[a].run) :: !t.approvals[a].decision.Undecided?)
    && (forall c | c in t.confirmations && Concerns(t, r, t.confirmations[c]) :: !t.confirmations[c].decision.Undecided?)
  }

  // Decisions already taken, and everything that belongs to other runs, are left alone.
  ghost predicate OthersUntouched(t: Tables, t': Tables, r: RunId) {
    && t'.runs.Keys == t.runs.Keys && (forall x | x in t.runs && x != r :: t'.runs[x] == t.runs[x])
    && t'.approvals.Keys == t.approvals.Keys && t'.confirmations.Keys == t.confirmations.Keys
    && (forall a | a in t.approvals && (!InFamily(t, r, t.approvals[a].run) || !t.approvals[a].decision.Undecided?) :: t'.approvals[a] == t.approvals[a])
    && (forall c | c in t.confirmations && (!Concerns(t, r, t.confirmations[c]) || !t.confirmations[c].decision.Undecided?) ::
          t'.confirmations[c] == t.confirmations[c])
    && (forall a | a in t.approvals :: t'.approvals[a].decision in {t.approvals[a].decision, Rejected})
  }

  /** Finalizing a cancel leaves nothing pending for the run or its children and decides nothing else. */
  lemma CancelLeavesNothingPending(t: Tables, r: RunId, session: string)
    requires r in t.runs
    ensures NothingPending(CancelledTables(t, r, session), r) && OthersUntouched(t, CancelledTables(t, r, session), r)
    ensures CancelledTables(t, r, session).runs[r].status.Cancelled?
  {
    var t' := CancelledTables(t, r, session);
    forall x ensures InFamily(t', r, x) <==> InFamily(t, r, x) {
    }
  }

  // On the rows: what is pending for the run or a direct child is rejected, and the run's answer in its session is replaced.
  lemma CancelRejectsPending(t: Tables, r: RunId, session: string, n: nat)
    requires r in t.runs
    ensures var t' := CancelledTables(t, r, session);
      && t'.runs == t.runs[r := t.runs[r].(status := Cancelled, response := CANCELLED_RESPONSE)]
      && t'.approvals.Keys == t.approvals.Keys && t'.confirmations.Keys == t.confirmations.Keys && t'.messages.Keys == t.messages.Keys
      && (n in t.approvals ==>
            var a := t.approvals[n];
            t'.approvals[n] == if a.decision == Undecided && a.run in t.runs && (a.run == r || t.runs[a.run].parent == Some(r))
                               then a.(decision := Rejected) else a)
      && (n in t.confirmations ==>
            var c := t.confirmations[n];
            t'.confirmations[n] == if c.decision == Undecided && (c.root == r || (c.execution in t.runs && (c.execution == r || t.runs[c.execution].parent == Some(r))))
                                   then c.(decision := Rejected) else c)
      && (n in t.messages ==>
            var m := t.messages[n];
            t'.messages[n] == if m.session == session && m.assistant && m.run == Some(r) then m.(content := CANCELLED_RESPONSE) else m)
  {
  }

  /// The conditional finalization.

  // What the delivery writes at the end; `stopSeen` is whether its refresh saw a stop request.
  function FinalTables(t: Tables, r: RunId, session: string, stopSeen: bool, outcome: RunStatus, response: string): Tables
    requires r in t.runs
  {
    if stopSeen then CancelledTables(t, r, session)
    else if t.runs[r].status.Running? && !t.runs[r].cancelRequested then
      t.(runs := t.runs[r := t.runs[r].(status := outcome, response := response)])
    else if t.runs[r].cancelRequested then CancelledTables(t, r, session)
    else t
  }

  /** The conditional update decides the race: the stop wins if it was recorded first, and otherwise sees a final run. */
  lemma FinalizationDecidesRace(t: Tables, r: RunId, session: string, stopSeen: bool, outcome: RunStatus, response: string)
    requires r in t.runs && (stopSeen ==> t.runs[r].cancelRequested)
    ensures var run' := FinalTables(t, r, session, stopSeen, outcome, response).runs[r];
      && (t.runs[r].cancelRequested ==> run'.status.Cancelled?)
      && (!t.runs[r].cancelRequested && t.runs[r].status.Running? ==> run'.status == outcome && run'.response == response)
    ensures !t.runs[r].cancelRequested && !t.runs[r].status.Running? ==> FinalTables(t, r, session, stopSeen, outcome, response) == t
    ensures !t.runs[r].cancelRequested ==>
      var t' := FinalTables(t, r, session, stopSeen, outcome, response);
      && (forall x | x in t.runs && x != r :: x in t'.runs && t'.runs[x] == t.runs[x]) && t'.runs.Keys == t.runs.Keys
      && t'.approvals == t.approvals && t'.confirmations == t.confirmations && t'.messages == t.messages
  {
  }

  class Bridge {
    var tables: Tables

    constructor ()
      ensures tables == Tables(map[], map[], map[], map[])
    {
      tables := Tables(map[], map[], map[], map[]);
    }

    method FinalizeCancelledRun(r: RunId, session: string)
      requires r in tables.runs
      modifies this
      ensures tables == CancelledTables(old(tables), r, session)
      ensures NothingPending(tables, r) && OthersUntouched(old(tables), tables, r)
    {
      CancelLeavesNothingPending(tables, r, session);
      var approvals := map a | a in tables.approvals ::
        if InFamily(tables, r, tables.approvals[a].run) && tables.approvals[a].decision.Undecided?
        then tables.approvals[a].(decision := Rejected) else tables.approvals[a];
      var confirmations := map c | c in tables.confirmations ::
        if Concerns(tables, r, tables.confirmations[c]) && tables.confirmations[c].decision.Undecided?
        then tables.confirmations[c].(decision := Rejected) else tables.confirmations[c];
      var messages := map m | m in tables.messages ::
        if Answers(tables.messages[m], session, r) then tables.messages[m].(content := CANCELLED_RESPONSE) else tables.messages[m];
      var run := tables.runs[r].(status := Cancelled, response := CANCELLED_RESPONSE);
      tables := Tables(tables.runs[r := run], approvals, confirmations, messages);
    }

    /** The last transaction of a delivery. */
    method Finalize(r: RunId, session: string, stopSeen: bool, outcome: RunStatus, response: string)
      returns (status: RunStatus, answer: string)
      requires r in tables.runs
      modifies this
      ensures tables == FinalTables(old(tables), r, session, stopSeen, outcome, response)
      ensures status == tables.runs[r].status && answer == tables.runs[r].response
    {
      if stopSeen {
        FinalizeCancelledRun(r, session);
        return Cancelled, CANCELLED_RESPONSE;
      }
      if tables.runs[r].status.Running? && !tables.runs[r].cancelRequested {
        tables := tables.(runs := tables.runs[r := tables.runs[r].(status := outcome, response := response)]);
        return outcome, response;
      }
      if tables.runs[r].cancelRequested {
        FinalizeCancelledRun(r, session);
        return Cancelled, CANCELLED_RESPONSE;
      }
      return tables.runs[r].status, tables.runs[r].response;
    }
  }

  /// The step system.

  datatype Phase = Creating(session: string) | Executing | Refreshed(stopSeen: bool)

  datatype Delivery = Delivery(event: EventId, phase: Phase)

  datatype State = State(tables: Tables, deliveries: map<DeliveryId, Delivery>, created: seq<EventId>)   // `created` is history

  datatype Action =
    | Arrive(d: DeliveryId, event: EventId, session: string)
    | Create(d: DeliveryId)
    | Refresh(d: DeliveryId)
    | Finish(d: DeliveryId, outcome: RunStatus, response: string)
    | Crash(d: DeliveryId)
    | RequestStop(run: RunId)
    | Elsewhere(tables: Tables)   // the agent graph, people and the other routes

  predicate Final(s: RunStatus) {
    s in {Completed, Failed, Cancelled}
  }

  // A stop request is recorded on runs that are not final; the routes record it on running ones.
  predicate StopAllowed(t: Tables, r: RunId) {
    r in t.runs && !Final(t.runs[r].status) && !t.runs[r].cancelRequested
  }

  // The other writers keep every run, take no stop request back and complete no run that has one; they do not create event runs.
  ghost predicate Tolerable(t: Tables, t': Tables) {
    && t.runs.Keys <= t'.runs.Keys
    && (forall r | r in t.runs :: t'.runs[r].session == t.runs[r].session && t'.runs[r].cancelRequested == t.runs[r].cancelRequested)
    && (forall r | r in t.runs && t.runs[r].cancelRequested :: t'.runs[r].status == t.runs[r].status || t'.runs[r].status !in {Completed, Failed})
    && (forall r | r in t'.runs && r !in t.runs :: r.OtherRun? && !t'.runs[r].cancelRequested)
  }

  ghost predicate Enabled(s: State, a: Action) {
    match a
    case Arrive(d, _, _) => d !in s.deliveries
    case Create(d) => d in s.deliveries && s.deliveries[d].phase.Creating?
    case Refresh(d) => d in s.deliveries && s.deliveries[d].phase.Executing? && EventRun(s.deliveries[d].event) in s.tables.runs
    case Finish(d, _, _) => d in s.deliveries && s.deliveries[d].phase.Refreshed? && EventRun(s.deliveries[d].event) in s.tables.runs
    case Crash(d) => d in s.deliveries
    case RequestStop(r) => StopAllowed(s.tables, r)
    case Elsewhere(t) => Tolerable(s.tables, t)
  }

  function NewRun(session: string): RunRow {
    RunRow(session, None, Running, false, "")
  }

  ghost function Apply(s: State, a: Action): State
    requires Enabled(s, a)
  {
    match a
    case Arrive(d, e, session) =>
      var r := EventRun(e);
      if r !in s.tables.runs then s.(deliveries := s.deliveries[d := Delivery(e, Creating(session))])
      else if s.tables.runs[r].status.Running? then s.(deliveries := s.deliveries[d := Delivery(e, Executing)])
      else s
    case Create(d) =>
      var r := EventRun(s.deliveries[d].event);
      if r in s.tables.runs then s.(deliveries := s.deliveries - {d})   // the primary key refuses the insert
      else State(s.tables.(runs := s.tables.runs[r := NewRun(s.deliveries[d].phase.session)]),
                 s.deliveries[d := s.deliveries[d].(phase := Executing)],
                 s.created + [s.deliveries[d].event])
    case Refresh(d) =>
      s.(deliveries := s.deliveries[d := s.deliveries[d].(phase := Refreshed(s.tables.runs[EventRun(s.deliveries[d].event)].cancelRequested))])
    case Finish(d, outcome, response) =>
      var r := EventRun(s.deliveries[d].event);
      State(FinalTables(s.tables, r, s.tables.runs[r].session, s.deliveries[d].phase.stopSeen, outcome, response), s.deliveries - {d}, s.created)
    case Crash(d) => s.(deliveries := s.deliveries - {d})
    case RequestStop(r) => s.(tables := s.tables.(runs := s.tables.runs[r := s.tables.runs[r].(cancelRequested := true)]))
    case Elsewhere(t) => s.(tables := t)
  }

  ghost predicate Initial(s: State) {
    s.deliveries == map[] && s.created == [] && s.tables.runs == map[]
  }

  ghost predicate IsRun(s: State, actions: seq<Action>)
    decreases |actions|
  {
    actions == [] || (Enabled(s, actions[0]) && IsRun(Apply(s, actions[0]), actions[1..]))
  }

  ghost function Run(s: State, actions: seq<Action>): State
    requires IsRun(s, actions)
    decreases |actions|
  {
    if actions == [] then s else Run(Apply(s, actions[0]), actions[1..])
  }

  ghost predicate StopHonoured(run: RunRow) {
    run.cancelRequested ==> run.status !in {Completed, Failed}
  }

  ghost predicate DeliveryOk(t: Tables, d: Delivery) {
    !d.phase.Creating? ==>
      (EventRun(d.event) in t.runs && (d.phase == Refreshed(true) ==> t.runs[EventRun(d.event)].cancelRequested))
  }

  ghost predicate Distinct(q: seq<EventId>) {
    forall i, j | 0 <= i < j < |q| :: q[i] != q[j]
  }

  ghost predicate Inv(s: State) {
    && (forall r | r in s.tables.runs :: StopHonoured(s.tables.runs[r]))
    && (forall d | d in s.deliveries :: DeliveryOk(s.tables, s.deliveries[d]))
    && Distinct(s.created)
    && (forall e :: e in s.created <==> EventRun(e) in s.tables.runs)
  }

  // Every step keeps the runs there are, and no step withdraws a stop request.
  lemma StepKeepsRuns(s: State, a: Action)
    requires Inv(s) && Enabled(s, a)
    ensures s.tables.runs.Keys <= Apply(s, a).tables.runs.Keys
    ensures forall r | r in s.tables.runs :: s.tables.runs[r].cancelRequested ==> Apply(s, a).tables.runs[r].cancelRequested
  {
  }

  lemma StepHonoursStops(s: State, a: Action)
    requires Inv(s) && Enabled(s, a)
    ensures forall r | r in Apply(s, a).tables.runs :: StopHonoured(Apply(s, a).tables.runs[r])
  {
    forall r | r in Apply(s, a).tables.runs ensures StopHonoured(Apply(s, a).tables.runs[r]) {
      if a.Finish? {
        assert DeliveryOk(s.tables, s.deliveries[a.d]);
      }
      assert r in s.tables.runs ==> StopHonoured(s.tables.runs[r]);
    }
  }

  lemma InvIsKept(s: State, a: Action)
    requires Inv(s) && Enabled(s, a)
    ensures Inv(Apply(s, a))
  {
    StepKeepsRuns(s, a);
    StepHonoursStops(s, a);
    var s' := Apply(s, a);
    forall d | d in s'.deliveries ensures DeliveryOk(s'.tables, s'.deliveries[d]) {
      assert d in s.deliveries ==> DeliveryOk(s.tables, s.deliveries[d]);
    }
  }

  lemma {:induction false} RunKeepsInv(s: State, actions: seq<Action>)
    requires Inv(s) && IsRun(s, actions)
    ensures Inv(Run(s, actions)) && s.tables.runs.Keys <= Run(s, actions).tables.runs.Keys
    ensures forall r | r in s.tables.runs :: s.tables.runs[r].cancelRequested ==> Run(s, actions).tables.runs[r].cancelRequested
    decreases |actions|
  {
    if actions != [] {
      InvIsKept(s, actions[0]);
      StepKeepsRuns(s, actions[0]);
      RunKeepsInv(Apply(s, actions[0]), actions[1..]);
    }
  }

  /** Any number of deliveries of an event creates at most one run, and exactly the created runs exist. */
  lemma OneRunPerEvent(s: State, actions: seq<Action>, e: EventId)
    requires Initial(s) && IsRun(s, actions)
    ensures forall i, j | 0 <= i < j < |Run(s, actions).created| :: Run(s, actions).created[i] != Run(s, actions).created[j]
    ensures e in Run(s, actions).created <==> EventRun(e) in Run(s, actions).tables.runs
  {
    RunKeepsInv(s, actions);
  }

  /** Any run that is not over can be asked to stop, and from then on it is never completed or failed in any later state. */
  lemma StopIsFinal(s: State, before: seq<Action>, after: seq<Action>, r: RunId)
    requires Initial(s) && IsRun(s, before) && r in Run(s, before).tables.runs
    requires Run(s, before).tables.runs[r].status !in {Completed, Failed, Cancelled} && !Run(s, before).tables.runs[r].cancelRequested
    ensures Enabled(Run(s, before), RequestStop(r))
    ensures IsRun(Apply(Run(s, before), RequestStop(r)), after) ==>
      var t := Run(Apply(Run(s, before), RequestStop(r)), after).tables; r in t.runs && t.runs[r].status !in {Completed, Failed}
  {
    RunKeepsInv(s, before);
    var asked := Apply(Run(s, before), RequestStop(r));
    InvIsKept(Run(s, before), RequestStop(r));
    if IsRun(asked, after) {
      RunKeepsInv(asked, after);
      assert asked.tables.runs[r].cancelRequested;
      assert StopHonoured(Run(asked, after).tables.runs[r]);
    }
  }

  /// What a delivery achieves.

  // A delivery nobody disturbs creates the run of its event, or takes up the one that is still running, and writes its outcome.
  lemma UndisturbedDelivery(s: State, d: DeliveryId, e: EventId, session: string, outcome: RunStatus, response: string)
    requires Inv(s) && d !in s.deliveries
    requires EventRun(e) in s.tables.runs ==> s.tables.runs[EventRun(e)].status == Running && !s.tables.runs[EventRun(e)].cancelRequested
    ensures exists actions ::
      && IsRun(s, actions) && EventRun(e) in Run(s, actions).tables.runs
      && Run(s, actions).tables.runs[EventRun(e)].status == outcome && Run(s, actions).tables.runs[EventRun(e)].response == response
      && (EventRun(e) !in s.tables.runs ==> Run(s, actions).created == s.created + [e] && Run(s, actions).tables.runs[EventRun(e)].session == session)
  {
    var r, arrive, create, refresh, finish := EventRun(e), Arrive(d, e, session), Create(d), Refresh(d), Finish(d, outcome, response);
    var s1 := Apply(s, arrive);
    if r in s.tables.runs {
      FinishDelivery(s1, d, e, outcome, response);
      assert [arrive, refresh, finish][1..] == [refresh, finish];
      assert IsRun(s, [arrive, refresh, finish]) && Run(s, [arrive, refresh, finish]) == Run(s1, [refresh, finish]);
    } else {
      var s2 := Apply(s1, create);
      FinishDelivery(s2, d, e, outcome, response);
      assert [create, refresh, finish][1..] == [refresh, finish] && [arrive, create, refresh, finish][1..] == [create, refresh, finish];
      assert IsRun(s1, [create, refresh, finish]) && Run(s1, [create, refresh, finish]) == Run(s2, [refresh, finish]);
      assert IsRun(s, [arrive, create, refresh, finish]) && Run(s, [arrive, create, refresh, finish]) == Run(s2, [refresh, finish]);
    }
  }

  lemma FinishDelivery(s: State, d: DeliveryId, e: EventId, outcome: RunStatus, response: string)
    requires d in s.deliveries && s.deliveries[d] == Delivery(e, Executing) && EventRun(e) in s.tables.runs
    requires s.tables.runs[EventRun(e)].status == Running && !s.tables.runs[EventRun(e)].cancelRequested
    ensures var actions := [Refresh(d), Finish(d, outcome, response)];
      && IsRun(s, actions) && EventRun(e) in Run(s, actions).tables.runs && Run(s, actions).created == s.created
      && Run(s, actions).tables.runs[EventRun(e)] == s.tables.runs[EventRun(e)].(status := outcome, response := response)
  {
    var refresh, finish := Refresh(d), Finish(d, outcome, response);
    assert [refresh, finish][1..] == [finish] && [finish][1..] == [];
    var s1 := Apply(s, refresh);
    assert IsRun(s1, [finish]) && Run(s1, [finish]) == Apply(s1, finish);
  }

  // Other writers may move any run without a stop request anywhere, and cancel one that has it.
  lemma OthersMayMoveOn(s: State, r: RunId, status: RunStatus)
    requires r in s.tables.runs && (s.tables.runs[r].cancelRequested ==> status == Cancelled)
    ensures Enabled(s, Elsewhere(s.tables.(runs := s.tables.runs[r := s.tables.runs[r].(status := status)])))
    ensures Enabled(s, RequestStop(r)) <==> s.tables.runs[r].status !in {Completed, Failed, Cancelled} && !s.tables.runs[r].cancelRequested
  {
  }

  /// Late deliveries.

  lemma CancelIsIdempotent(t: Tables, r: RunId, session: string)
    requires r in t.runs
    ensures CancelledTables(CancelledTables(t, r, session), r, session) == CancelledTables(t, r, session)
  {
    var t' := CancelledTables(t, r, session);
    forall x ensures InFamily(t', r, x) <==> InFamily(t, r, x) {
    }
    assert CancelledTables(t', r, session).approvals == t'.approvals;
    assert CancelledTables(t', r, session).confirmations == t'.confirmations;
    assert CancelledTables(t', r, session).messages == t'.messages;
  }

  // The run has stopped running, and a stop that was requested has been carried through.
  ghost predicate Over(t: Tables, r: RunId) {
    && r in t.runs && !t.runs[r].status.Running?
    && (t.runs[r].cancelRequested ==> CancelledTables(t, r, t.runs[r].session) == t)
  }

  // Any number of deliveries of one event, each at any point and losing its process anywhere.
  ghost predicate Delivers(s: State, a: Action, e: EventId) {
    match a
    case Arrive(_, event, _) => event == e
    case Create(d) => d in s.deliveries && s.deliveries[d].event == e
    case Refresh(d) => d in s.deliveries && s.deliveries[d].event == e
    case Finish(d, _, _) => d in s.deliveries && s.deliveries[d].event == e
    case Crash(_) => true
    case _ => false
  }

  ghost predicate OnlyDelivers(s: State, actions: seq<Action>, e: EventId)
    requires IsRun(s, actions)
    decreases |actions|
  {
    actions != [] ==> Delivers(s, actions[0], e) && OnlyDelivers(Apply(s, actions[0]), actions[1..], e)
  }

  lemma LateStepChangesNothing(s: State, a: Action, e: EventId)
    requires Inv(s) && Enabled(s, a) && Delivers(s, a, e) && Over(s.tables, EventRun(e))
    ensures Apply(s, a).tables == s.tables
  {
    if a.Finish? {
      assert DeliveryOk(s.tables, s.deliveries[a.d]);
    }
  }

  /** Once the run of an event is over, no further deliveries of that event, however many, change any table. */
  lemma {:induction false} LateDeliveriesChangeNothing(s: State, actions: seq<Action>, e: EventId)
    requires Inv(s) && IsRun(s, actions) && OnlyDelivers(s, actions, e) && Over(s.tables, EventRun(e))
    ensures Run(s, actions).tables == s.tables
    decreases |actions|
  {
    if actions != [] {
      LateStepChangesNothing(s, actions[0], e);
      InvIsKept(s, actions[0]);
      LateDeliveriesChangeNothing(Apply(s, actions[0]), actions[1..], e);
    }
  }

  /** The first delivery to finish decides: whatever later deliveries of the event do, the tables stay as it left them. */
  lemma FirstFinishDecides(s: State, d: DeliveryId, outcome: RunStatus, response: string, later: seq<Action>)
    requires Inv(s) && Enabled(s, Finish(d, outcome, response)) && !outcome.Running?
    requires IsRun(Apply(s, Finish(d, outcome, response)), later)
    requires OnlyDelivers(Apply(s, Finish(d, outcome, response)), later, s.deliveries[d].event)
    ensures Run(Apply(s, Finish(d, outcome, response)), later).tables == Apply(s, Finish(d, outcome, response)).tables
  {
    var a, e := Finish(d, outcome, response), s.deliveries[d].event;
    var r := EventRun(e);
    assert DeliveryOk(s.tables, s.deliveries[d]);
    if s.tables.runs[r].cancelRequested {
      CancelIsIdempotent(s.tables, r, s.tables.runs[r].session);
    }
    InvIsKept(s, a);
    assert Over(Apply(s, a).tables, r);
    LateDeliveriesChangeNothing(Apply(s, a), later, e);
  }

  /** When a delivery finishes a stopped run, the run is cancelled and nothing of it is left pending. */
  lemma FinishingStoppedRunCancels(s: State, d: DeliveryId, outcome: RunStatus, response: string)
    requires Inv(s) && Enabled(s, Finish(d, outcome, response)) && s.tables.runs[EventRun(s.deliveries[d].event)].cancelRequested
    ensures var r, t := EventRun(s.deliveries[d].event), Apply(s, Finish(d, outcome, response)).tables;
      && t.runs[r].status.Cancelled? && NothingPending(t, r) && OthersUntouched(s.tables, t, r)
      && t == CancelledTables(s.tables, r, s.tables.runs[r].session)
  {
    var r := EventRun(s.deliveries[d].event);
    CancelLeavesNothingPending(s.tables, r, s.tables.runs[r].session);
  }
}
