/**
 The agent graph of app/orchestrator/graph.py over the nodes of AgentNodes: every commit, every interrupt and
 every re-execution of a node is one step, with the environment's choices in the event.
 */
module AgentLoop {
  import opened Wrappers
  import opened ApprovalPolicy
  import opened AgentNodes

  // The call an interrupt showed to the human, and the registry it was chosen under.
  datatype Asked = Asked(call: Call, registry: Registry)

  datatype Config = Config(
    node: Node,
    state: State,
    log: seq<Entry>,
    records: seq<CallId>,      // approval records created in this run
    missing: Option<CallId>,   // the record lookup of the present attempt found nothing for this call
    asked: Option<Asked>,      // the interrupt the run is suspended at
    start: int,                // the step number the run started with
    turns: nat)                // committed model turns

  datatype Event =
    | Load(history: seq<Message>, user: string)
    | Think(cancelledBefore: bool, content: Option<string>, calls: seq<Call>, cancelledAfter: bool)
    | RefuseRoute                                                      // the human rejects the proposed cloud route
    | Look(registry: Registry)                                         // looks up the record of the call to ask about
    | Record                                                           // creates the record that was not found
    | Ask(registry: Registry)                                          // the interrupt
    | Route(cancelled: bool, registry: Registry, resume: Option<Resume>)
    | Execute(registry: Registry, env: seq<Attempt>, cancelledAfter: bool)
    | Watch(cancelled: bool, late: bool, paused: bool)
    | Save(cancelled: bool)
    | Crash                                                            // the attempt is lost before anything is stored

  ghost predicate DistinctIds(calls: seq<Call>) {
    forall i, j | 0 <= i < j < |calls| :: calls[i].id != calls[j].id
  }

  ghost predicate Quiet(m: seq<Message>) {
    forall x | x in m :: x.Plain?
  }

  // The node gets as far as its calls.
  predicate Asks(c: Config) {
    !Terminal(c.state.status) && c.state.requests != []
  }

  // A record exists for whatever the node is about to ask or decide.
  predicate Recorded(c: Config, requireFor: set<string>, registry: Registry) {
    var t := Target(c.state.requests, c.state.approvals, registry, requireFor);
    t.Some? ==> c.missing.None? && t.value.id in c.records
  }

  ghost predicate Enabled(c: Config, requireFor: set<string>, e: Event) {
    match e
    case Load(history, _) => c.node.LoadContext? && Quiet(history)
    case Think(_, _, calls, _) => c.node.Reason? && DistinctIds(calls)
    case RefuseRoute => c.node.Reason?
    case Look(_) => c.node.RouteDecision?
    case Record => c.node.RouteDecision? && c.missing.Some?
    case Ask(registry) => c.node.RouteDecision? && Asks(c) && Recorded(c, requireFor, registry)
    case Route(_, registry, resume) =>
      c.node.RouteDecision? && (resume.Some? ==> c.asked.Some? && Recorded(c, requireFor, registry))
    case Execute(_, _, _) => c.node.ExecuteTool?
    case Watch(_, _, _) => c.node.Observe?
    case Save(_) => c.node.UpdateMemory?
    case Crash => true
  }

  function WithUserMessage(m: seq<Message>, user: string): seq<Message> {
    if m == [] || m[|m| - 1] != Plain("user", user) then m + [Plain("user", user)] else m
  }

  function Text(o: Option<string>): string {
    if o.Some? then o.value else ""
  }

  function ThinkStep(c: Config, e: Event): Config
    requires e.Think?
  {
    var s := c.state;
    if e.cancelledBefore then c.(node := RouteDecision, state := CancelledState(s))
    else if s.approvalState in {LastApproved, LastEdited} && s.requests != [] then c.(node := RouteDecision)
    else if e.cancelledAfter then c.(node := RouteDecision, state := CancelledState(s), turns := c.turns + 1)
    else if e.calls != [] then
      c.(node := RouteDecision, turns := c.turns + 1,
         state := s.(messages := s.messages + [Request(Text(e.content), e.calls)], requests := e.calls))
    else
      c.(node := RouteDecision, turns := c.turns + 1,
         state := s.(messages := s.messages + [Plain("assistant", Text(e.content))], finalResponse := e.content, status := Completed))
  }

  function LookStep(c: Config, requireFor: set<string>, e: Event): Config
    requires e.Look?
  {
    var t := Target(c.state.requests, c.state.approvals, e.registry, requireFor);
    c.(missing := if Asks(c) && t.Some? && t.value.id !in c.records then Some(t.value.id) else None)
  }

  function AskStep(c: Config, requireFor: set<string>, e: Event): Config
    requires e.Ask?
  {
    var t := Target(c.state.requests, c.state.approvals, e.registry, requireFor);
    if t.Some? then c.(asked := Some(Asked(t.value, e.registry))) else c
  }

  // The node leaves with a new state; the interrupt it was suspended at is gone.
  function Leave(c: Config, s: State): Config {
    c.(node := NextRoute(s), state := s, missing := None, asked := None)
  }

  function RouteStep(c: Config, requireFor: set<string>, e: Event): Config
    requires e.Route?
  {
    var s := c.state;
    if Terminal(s.status) then Leave(c, s)
    else if e.cancelled then Leave(c, CancelledState(s))
    else if s.requests == [] then Leave(c, s.(status := Completed))
    else
      var marked := MarkAutomatic(s.requests, s.approvals, e.registry, requireFor);
      var target := FirstUndecided(s.requests, marked);
      if target.None? then Leave(c, s.(approvals := marked, status := Running))
      else if e.resume.None? || c.asked.None? then c
      else
        var t, r := target.value, e.resume.value;
        Leave(c, Decide(s, marked, t, r))
          .(log := c.log + [Decided(s.step, c.asked.value.call, t.id, t.name, Verdict(r), DecidedArgs(r, t))])
  }

  function ExecuteStep(c: Config, e: Event): Config
    requires e.Execute?
  {
    var s := c.state;
    match ExecuteAll(e.registry, s.approvals, s.requests, e.env, s.step, Progress(s.messages, [], c.log))
    case Suspended(log) => c.(log := log)
    case StoppedByUser(p) =>
      c.(node := Observe, log := p.log, state := CancelledState(s).(messages := p.messages, results := p.results))
    case Finished(p) =>
      c.(node := Observe, log := p.log,
         state := if e.cancelledAfter then CancelledState(s).(messages := p.messages, results := p.results) else AfterBatch(s, p))
  }

  function WatchStep(c: Config, e: Event): Config
    requires e.Watch?
  {
    if e.cancelled then c.(node := PostObserveRoute(CancelledState(c.state)), state := CancelledState(c.state))
    else
      var s := ObserveState(c.state, e.late);
      if e.paused && s.step != c.state.step then c
      else c.(node := PostObserveRoute(s), state := s)
  }

  /** One attempt at the current node. `requireFor` is the run's own list of tools to ask about. */
  function Step(c: Config, requireFor: set<string>, e: Event): Config {
    match e
    case Load(history, user) =>
      var m := if c.state.messages == [] then history else c.state.messages;
      c.(node := Reason, state := c.state.(messages := WithUserMessage(m, user), status := Running))
    case Think(_, _, _, _) => ThinkStep(c, e)
    case RefuseRoute => c.(node := RouteDecision, state := c.state.(status := Cancelled, finalResponse := Some("Cloud routing was not approved.")))
    case Look(_) => LookStep(c, requireFor, e)
    case Record => if c.missing.Some? then c.(records := c.records + [c.missing.value], missing := None) else c
    case Ask(_) => AskStep(c, requireFor, e)
    case Route(_, _, _) => RouteStep(c, requireFor, e)
    case Execute(_, _, _) => ExecuteStep(c, e)
    case Watch(_, _, _) => WatchStep(c, e)
    case Save(cancelled) => c.(node := End, state := if cancelled then CancelledState(c.state) else c.state)
    case Crash => c.(missing := None)
  }

  /// What every reachable configuration satisfies.

  /** Each assistant tool-call turn is followed at once by one reply per call, in order; there are no other replies. */
  ghost predicate Answered(m: seq<Message>) {
    m == [] ||
    match m[0]
    case Plain(_, _) => Answered(m[1..])
    case Request(_, calls) => |m| > |calls| && Replies(m[1..1 + |calls|], calls) && Answered(m[1 + |calls|..])
    case Reply(_, _, _) => false
  }

  ghost predicate Replies(m: seq<Message>, calls: seq<Call>) {
    |m| == |calls| && forall i | 0 <= i < |m| :: m[i].Reply? && m[i].call == calls[i].id && m[i].name == calls[i].name
  }

  /** The conversation ends with the request for exactly the pending calls. */
  ghost predicate PendingBatch(s: State) {
    && s.requests != [] && DistinctIds(s.requests)
    && |s.messages| > 0 && Answered(s.messages[..|s.messages| - 1])
    && s.messages[|s.messages| - 1].Request? && s.messages[|s.messages| - 1].calls == s.requests
  }

  ghost predicate Authorises(d: Entry, step: int, call: CallId, name: string, args: string) {
    d.Decided? && d.verdict in {Approved, Edited} && d.step == step && d.call == call && d.name == name && d.args == args
  }

  /** Every gated execution was preceded by an approval or edit of that very call in that step, with those arguments. */
  ghost predicate Backed(log: seq<Entry>) {
    log == [] ||
    var last := log[|log| - 1];
    && Backed(log[..|log| - 1])
    && (last.Executed? && last.gated ==>
          exists d | d in log[..|log| - 1] :: Authorises(d, last.step, last.call, last.name, last.args))
  }

  ghost predicate ApprovalsBacked(s: State, log: seq<Entry>) {
    forall c | c in s.requests && AuthorisedStatus(s.approvals, c.id) ::
      exists d | d in log :: Authorises(d, s.step, c.id, c.name, s.approvals[c.id].args)
  }

  ghost predicate Unasked(records: seq<CallId>) {
    forall i, j | 0 <= i < j < |records| :: records[i] != records[j]
  }

  ghost predicate Open(s: State) {
    s.status.Running? && s.finalResponse.None?
  }

  function MaxTurns(c: Config): nat {
    if c.state.maxSteps >= c.start then c.state.maxSteps - c.start + 1 else 1
  }

  ghost predicate InTime(c: Config) {
    c.start <= c.state.step && (c.state.step == c.start || c.state.step <= c.state.maxSteps)
  }

  ghost predicate NodeInv(c: Config) {
    var s := c.state;
    match c.node
    case LoadContext =>
      Open(s) && s.requests == [] && s.approvals == map[] && Quiet(s.messages) && c.turns == 0 && s.step == c.start
    case Reason =>
      && Open(s) && s.requests == [] && s.approvals == map[] && Answered(s.messages)
      && InTime(c) && c.turns <= s.step - c.start
      && (s.step > c.start ==> s.totalCalls < s.maxCalls && s.failures < s.maxFailures)
    case RouteDecision =>
      && InTime(c) && c.turns <= s.step - c.start + 1
      && (Terminal(s.status) || (Open(s) && PendingBatch(s) && ApprovalsBacked(s, c.log)))
    case ExecuteTool =>
      && InTime(c) && c.turns <= s.step - c.start + 1
      && Open(s) && PendingBatch(s) && ApprovalsBacked(s, c.log) && FirstUndecided(s.requests, s.approvals).None?
    case Observe =>
      && InTime(c) && c.turns <= s.step - c.start + 1
      && if s.status.Cancelled? then s.finalResponse.Some? else Open(s) && Answered(s.messages)
    case _ => true
  }

  // What was looked up and shown still stands: nothing is committed while the run is suspended.
  ghost predicate Suspension(c: Config, requireFor: set<string>) {
    && (c.missing.Some? ==> c.node.RouteDecision? && c.missing.value !in c.records)
    && (c.asked.Some? ==>
          c.node.RouteDecision? && Asks(c)
          && Target(c.state.requests, c.state.approvals, c.asked.value.registry, requireFor) == Some(c.asked.value.call))
  }

  ghost predicate Inv(c: Config, requireFor: set<string>) {
    Backed(c.log) && Unasked(c.records) && c.turns <= MaxTurns(c) && NodeInv(c) && Suspension(c, requireFor)
  }

  ghost predicate Initial(c: Config) {
    && c.node.LoadContext? && c.log == [] && c.records == [] && c.missing == None && c.asked == None && c.turns == 0 && c.state.step == c.start
    && Open(c.state) && c.state.requests == [] && c.state.approvals == map[] && Quiet(c.state.messages)
  }

  lemma InvHoldsInitially(c: Config, requireFor: set<string>)
    requires Initial(c)
    ensures Inv(c, requireFor)
  {
  }

  /// Messages.

  lemma {:induction false} QuietIsAnswered(m: seq<Message>)
    requires Quiet(m)
    ensures Answered(m)
  {
    if m != [] {
      assert m[0] in m;
      QuietIsAnswered(m[1..]);
    }
  }

  lemma {:induction false} AnsweredJoin(a: seq<Message>, b: seq<Message>)
    requires Answered(a) && Answered(b)
    ensures Answered(a + b)
    decreases |a|
  {
    if a == [] {
      assert a + b == b;
    } else {
      var n := if a[0].Request? then 1 + |a[0].calls| else 1;
      JoinSlices(a, b, n);
      AnsweredJoin(a[n..], b);
    }
  }

  lemma JoinSlices(a: seq<Message>, b: seq<Message>, n: nat)
    requires 1 <= n <= |a|
    ensures (a + b)[0] == a[0] && (a + b)[1..n] == a[1..n] && (a + b)[n..] == a[n..] + b
  {
  }

  lemma TurnAnswered(request: Message, replies: seq<Message>)
    requires request.Request? && Replies(replies, request.calls)
    ensures Answered([request] + replies)
  {
    var turn := [request] + replies;
    assert turn[1..1 + |replies|] == replies;
    assert turn[1 + |replies|..] == [];
    assert Answered(turn[1 + |replies|..]);
  }

  lemma SplitRequest(m: seq<Message>, replies: seq<Message>)
    requires |m| > 0
    ensures m[..|m| - 1] + ([m[|m| - 1]] + replies) == m + replies
  {
  }

  lemma BatchAnswered(m: seq<Message>, replies: seq<Message>)
    requires |m| > 0 && Answered(m[..|m| - 1]) && m[|m| - 1].Request? && Replies(replies, m[|m| - 1].calls)
    ensures Answered(m + replies)
  {
    var before, request := m[..|m| - 1], m[|m| - 1];
    TurnAnswered(request, replies);
    AnsweredJoin(before, [request] + replies);
    SplitRequest(m, replies);
  }

  /// The batch of tool calls.

  ghost predicate Extends(p: Progress, q: Progress, calls: seq<Call>, n: nat)
    requires n <= |calls|
  {
    && |q.messages| == |p.messages| + n && q.messages[..|p.messages|] == p.messages
    && Replies(q.messages[|p.messages|..], calls[..n])
  }

  // Whatever the tools do, the log stays backed, and a finished batch has answered every call in order.
  lemma {:induction false} BatchKeepsLog(registry: Registry, s: State, i: nat, env: seq<Attempt>, p0: Progress, p: Progress)
    requires i <= |s.requests| && Extends(p0, p, s.requests, i)
    requires Backed(p.log) && ApprovalsBacked(s, p.log)
    ensures match ExecuteAll(registry, s.approvals, s.requests[i..], env, s.step, p)
      case Suspended(log) => Backed(log) && ApprovalsBacked(s, log)
      case StoppedByUser(q) => Backed(q.log) && ApprovalsBacked(s, q.log)
      case Finished(q) => Backed(q.log) && ApprovalsBacked(s, q.log) && Extends(p0, q, s.requests, |s.requests|)
    decreases |s.requests| - i
  {
    var calls := s.requests[i..];
    if calls == [] {
      assert s.requests[..i] == s.requests;
    } else if env != [] && !env[0].cancelled {
      var (next, log) := ExecuteOne(registry, s.approvals, calls[0], env[0].outcome, s.step, p);
      OneCallKeepsLog(registry, s, i, env[0].outcome, p0, p);
      if next.Some? {
        assert calls[1..] == s.requests[i + 1..];
        BatchKeepsLog(registry, s, i + 1, env[1..], p0, next.value);
      }
    }
  }

  lemma OneCallKeepsLog(registry: Registry, s: State, i: nat, o: Outcome, p0: Progress, p: Progress)
    requires i < |s.requests| && Extends(p0, p, s.requests, i)
    requires Backed(p.log) && ApprovalsBacked(s, p.log)
    ensures var (next, log) := ExecuteOne(registry, s.approvals, s.requests[i], o, s.step, p);
      && Backed(log) && ApprovalsBacked(s, log)
      && (next.Some? ==> next.value.log == log && Extends(p0, next.value, s.requests, i + 1))
  {
    var c := s.requests[i];
    var (next, log) := ExecuteOne(registry, s.approvals, c, o, s.step, p);
    assert c in s.requests;
    if log != p.log {
      assert log[..|log| - 1] == p.log;
    }
    if next.Some? {
      var q := next.value;
      assert q.messages[|p0.messages|..] == p.messages[|p0.messages|..] + [q.messages[|q.messages| - 1]];
      assert s.requests[..i + 1] == s.requests[..i] + [c];
    }
  }

  /// Approvals.

  lemma {:induction false} MarkAutomaticOnlyAdds(requests: seq<Call>, approvals: map<CallId, Approval>, registry: Registry, requireFor: set<string>)
    ensures var marked := MarkAutomatic(requests, approvals, registry, requireFor);
      && (forall id | id in approvals :: id in marked && marked[id] == approvals[id])
      && (forall id | id in marked && id !in approvals :: marked[id].status.Auto?)
  {
    if requests != [] {
      var c := requests[0];
      var first := if c.id !in approvals && !NeedsApproval(registry, requireFor, c.name)
                   then approvals[c.id := Approval(Auto, c.args)] else approvals;
      MarkAutomaticOnlyAdds(requests[1..], first, registry, requireFor);
    }
  }

  lemma {:induction false} UndecidedIsRequested(requests: seq<Call>, approvals: map<CallId, Approval>)
    ensures var t := FirstUndecided(requests, approvals);
      if t.Some? then t.value in requests && t.value.id !in approvals
      else forall c | c in requests :: c.id in approvals
  {
    if requests != [] && requests[0].id in approvals {
      UndecidedIsRequested(requests[1..], approvals);
    }
  }

  lemma DecisionKeepsBacking(s: State, marked: map<CallId, Approval>, shown: Call, t: Call, r: Resume, log: seq<Entry>)
    requires DistinctIds(s.requests) && t in s.requests && t.id !in marked
    requires ApprovalsBacked(s.(approvals := marked), log) && Backed(log)
    ensures var log' := log + [Decided(s.step, shown, t.id, t.name, Verdict(r), DecidedArgs(r, t))];
      Backed(log') && ApprovalsBacked(Decide(s, marked, t, r), log')
  {
    var d := Decided(s.step, shown, t.id, t.name, Verdict(r), DecidedArgs(r, t));
    var log' := log + [d];
    var s' := Decide(s, marked, t, r);
    assert log'[..|log'| - 1] == log;
    forall c | c in s'.requests && AuthorisedStatus(s'.approvals, c.id)
      ensures exists e | e in log' :: Authorises(e, s'.step, c.id, c.name, s'.approvals[c.id].args)
    {
      if c.id == t.id {
        assert c == t;
        assert Authorises(d, s'.step, c.id, c.name, s'.approvals[c.id].args) && d in log';
      } else {
        var e :| e in log && Authorises(e, s.step, c.id, c.name, marked[c.id].args);
        assert e in log';
      }
    }
  }

  // Approvals apart, the conversation and the bookkeeping of a pending batch.
  ghost predicate Undisturbed(s: State, s': State) {
    s'.messages == s.messages && s'.requests == s.requests && s'.step == s.step && s'.maxSteps == s.maxSteps
  }

  lemma RoutedInv(c: Config, c': Config, requireFor: set<string>)
    requires Inv(c, requireFor) && c.node.RouteDecision? && PendingBatch(c.state) && Undisturbed(c.state, c'.state)
    requires c'.node == RouteDecision || c'.node == NextRoute(c'.state)
    requires c'.start == c.start && c'.turns == c.turns && Backed(c'.log) && Unasked(c'.records) && Suspension(c', requireFor)
    requires Terminal(c'.state.status) || (Open(c'.state) && ApprovalsBacked(c'.state, c'.log))
    ensures Inv(c', requireFor)
  {
    assert PendingBatch(c'.state);
    if c'.node.ExecuteTool? {
      UndecidedIsRequested(c'.state.requests, c'.state.approvals);
    }
  }

  lemma RouteKeepsInv(c: Config, requireFor: set<string>, e: Event)
    requires Inv(c, requireFor) && c.node.RouteDecision? && e.Route?
    ensures Inv(RouteStep(c, requireFor, e), requireFor)
  {
    var s := c.state;
    if !Terminal(s.status) && !e.cancelled {
      var marked := MarkAutomatic(s.requests, s.approvals, e.registry, requireFor);
      MarkAutomaticOnlyAdds(s.requests, s.approvals, e.registry, requireFor);
      UndecidedIsRequested(s.requests, marked);
      var target := FirstUndecided(s.requests, marked);
      assert ApprovalsBacked(s.(approvals := marked), c.log);
      if target.Some? && e.resume.Some? {
        DecisionKeepsInv(c, requireFor, e, marked, target.value);
      } else {
        RoutedInv(c, RouteStep(c, requireFor, e), requireFor);
      }
    }
  }

  lemma DecisionKeepsInv(c: Config, requireFor: set<string>, e: Event, marked: map<CallId, Approval>, t: Call)
    requires Inv(c, requireFor) && c.node.RouteDecision? && e.Route? && !Terminal(c.state.status) && !e.cancelled && e.resume.Some?
    requires marked == MarkAutomatic(c.state.requests, c.state.approvals, e.registry, requireFor)
    requires FirstUndecided(c.state.requests, marked) == Some(t) && t in c.state.requests
    requires ApprovalsBacked(c.state.(approvals := marked), c.log)
    ensures Inv(RouteStep(c, requireFor, e), requireFor)
  {
    if c.asked.Some? {
      var r, shown := e.resume.value, c.asked.value.call;
      UndecidedIsRequested(c.state.requests, marked);
      DecisionKeepsBacking(c.state, marked, shown, t, r, c.log);
      DecidedInv(c, requireFor, Decide(c.state, marked, t, r), Decided(c.state.step, shown, t.id, t.name, Verdict(r), DecidedArgs(r, t)));
    }
  }

  lemma DecidedInv(c: Config, requireFor: set<string>, s: State, d: Entry)
    requires Inv(c, requireFor) && c.node.RouteDecision? && PendingBatch(c.state) && Undisturbed(c.state, s) && Backed(c.log + [d])
    requires Terminal(s.status) || (Open(s) && ApprovalsBacked(s, c.log + [d]))
    ensures Inv(Leave(c, s).(log := c.log + [d]), requireFor)
  {
    RoutedInv(c, Leave(c, s).(log := c.log + [d]), requireFor);
  }

  lemma ExecuteKeepsInv(c: Config, requireFor: set<string>, e: Event)
    requires Inv(c, requireFor) && c.node.ExecuteTool? && e.Execute?
    ensures Inv(ExecuteStep(c, e), requireFor)
  {
    var s := c.state;
    var p0 := Progress(s.messages, [], c.log);
    assert s.requests[0..] == s.requests;
    assert s.requests[..0] == [] && s.messages[..|s.messages|] == s.messages && s.messages[|s.messages|..] == [];
    BatchKeepsLog(e.registry, s, 0, e.env, p0, p0);
    var r := ExecuteAll(e.registry, s.approvals, s.requests, e.env, s.step, p0);
    if r.Finished? {
      FinishedBatchIsAnswered(s, p0, r.p);
    }
  }

  lemma FinishedBatchIsAnswered(s: State, p0: Progress, p: Progress)
    requires PendingBatch(s) && p0.messages == s.messages && Extends(p0, p, s.requests, |s.requests|)
    ensures Answered(p.messages)
  {
    var replies := p.messages[|s.messages|..];
    assert s.requests[..|s.requests|] == s.requests;
    BatchAnswered(s.messages, replies);
    assert s.messages + replies == p.messages;
  }

  lemma ThinkKeepsInv(c: Config, requireFor: set<string>, e: Event)
    requires Inv(c, requireFor) && c.node.Reason? && e.Think? && DistinctIds(e.calls)
    ensures Inv(ThinkStep(c, e), requireFor)
  {
    var m := c.state.messages + [Request(Text(e.content), e.calls)];
    assert m[..|m| - 1] == c.state.messages;
  }

  lemma LoadKeepsInv(c: Config, requireFor: set<string>, e: Event)
    requires Inv(c, requireFor) && c.node.LoadContext? && Enabled(c, requireFor, e) && e.Load?
    ensures Inv(Step(c, requireFor, e), requireFor)
  {
    QuietIsAnswered(Step(c, requireFor, e).state.messages);
  }

  lemma WatchKeepsInv(c: Config, requireFor: set<string>, e: Event)
    requires Inv(c, requireFor) && c.node.Observe? && e.Watch?
    ensures Inv(WatchStep(c, e), requireFor)
  {
  }

  lemma QuestionKeepsInv(c: Config, requireFor: set<string>, e: Event)
    requires Inv(c, requireFor) && Enabled(c, requireFor, e) && (e.Look? || e.Record? || e.Ask?)
    ensures Inv(Step(c, requireFor, e), requireFor)
  {
  }

  lemma InvIsKept(c: Config, requireFor: set<string>, e: Event)
    requires Inv(c, requireFor) && Enabled(c, requireFor, e)
    ensures Inv(Step(c, requireFor, e), requireFor)
  {
    match e
    case Load(_, _) => LoadKeepsInv(c, requireFor, e);
    case Think(_, _, _, _) => ThinkKeepsInv(c, requireFor, e);
    case Route(_, _, _) => RouteKeepsInv(c, requireFor, e);
    case Execute(_, _, _) => ExecuteKeepsInv(c, requireFor, e);
    case Watch(_, _, _) => WatchKeepsInv(c, requireFor, e);
    case Look(_) => QuestionKeepsInv(c, requireFor, e);
    case Record => QuestionKeepsInv(c, requireFor, e);
    case Ask(_) => QuestionKeepsInv(c, requireFor, e);
    case _ =>
  }
}
