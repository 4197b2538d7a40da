/** What every run of the agent graph guarantees, over all models, tools, humans, interrupts and crashes. */
module AgentGuarantees {
  import opened Wrappers
  import opened ApprovalPolicy
  import opened AgentNodes
  import opened AgentLoop

  ghost predicate IsRun(c: Config, requireFor: set<string>, events: seq<Event>)
    decreases |events|
  {
    events == [] || (Enabled(c, requireFor, events[0]) && IsRun(Step(c, requireFor, events[0]), requireFor, events[1..]))
  }

  ghost function Run(c: Config, requireFor: set<string>, events: seq<Event>): Config
    decreases |events|
  {
    if events == [] then c else Run(Step(c, requireFor, events[0]), requireFor, events[1..])
  }

  lemma {:induction false} RunKeepsInv(c: Config, requireFor: set<string>, events: seq<Event>)
    requires Inv(c, requireFor) && IsRun(c, requireFor, events)
    ensures Inv(Run(c, requireFor, events), requireFor)
    decreases |events|
  {
    if events != [] {
      InvIsKept(c, requireFor, events[0]);
      RunKeepsInv(Step(c, requireFor, events[0]), requireFor, events[1..]);
    }
  }

  /// Decisions reach the call they were made about.

  // The decision is applied to the call the interrupt showed; an approval stands for the arguments shown.
  predicate Informed(d: Entry) {
    d.Decided? ==> d.shown.id == d.call && d.shown.name == d.name && (d.verdict.Approved? ==> d.args == d.shown.args)
  }

  // Of the undecided calls up to the one shown, the same ones need approval as when it was shown.
  predicate SameGating(requests: seq<Call>, approvals: map<CallId, Approval>, shown: Call, before: Registry, now: Registry,
                       requireFor: set<string>)
  {
    requests == [] ||
    (&& (requests[0].id in approvals || (NeedsApproval(before, requireFor, requests[0].name) <==> NeedsApproval(now, requireFor, requests[0].name)))
     && (requests[0] == shown || SameGating(requests[1..], approvals, shown, before, now, requireFor)))
  }

  // The call a batch stops at: the first undecided one that needs approval.
  function FirstGated(requests: seq<Call>, approvals: map<CallId, Approval>, registry: Registry, requireFor: set<string>): Option<Call> {
    if requests == [] then None
    else if requests[0].id !in approvals && NeedsApproval(registry, requireFor, requests[0].name) then Some(requests[0])
    else FirstGated(requests[1..], approvals, registry, requireFor)
  }

  lemma {:induction false} MarkedIff(requests: seq<Call>, approvals: map<CallId, Approval>, registry: Registry, requireFor: set<string>, id: CallId)
    ensures id in MarkAutomatic(requests, approvals, registry, requireFor) <==>
      id in approvals || exists c :: c in requests && c.id == id && !NeedsApproval(registry, requireFor, c.name)
  {
    if requests != [] {
      var c := requests[0];
      var first := if c.id !in approvals && !NeedsApproval(registry, requireFor, c.name)
                   then approvals[c.id := Approval(Auto, c.args)] else approvals;
      MarkedIff(requests[1..], first, registry, requireFor, id);
      if x :| x in requests && x.id == id && !NeedsApproval(registry, requireFor, x.name) {
        assert x == c || x in requests[1..];
      }
    }
  }

  lemma {:induction false} UndecidedIsGated(requests: seq<Call>, i: nat, approvals: map<CallId, Approval>, registry: Registry, requireFor: set<string>)
    requires i <= |requests| && DistinctIds(requests)
    ensures FirstUndecided(requests[i..], MarkAutomatic(requests, approvals, registry, requireFor))
         == FirstGated(requests[i..], approvals, registry, requireFor)
    decreases |requests| - i
  {
    if i < |requests| {
      var c := requests[i];
      assert requests[i..][1..] == requests[i + 1..];
      UndecidedIsGated(requests, i + 1, approvals, registry, requireFor);
      MarkedIff(requests, approvals, registry, requireFor, c.id);
      assert c in requests;
    }
  }

  lemma TargetIsFirstGated(requests: seq<Call>, approvals: map<CallId, Approval>, registry: Registry, requireFor: set<string>)
    requires DistinctIds(requests)
    ensures Target(requests, approvals, registry, requireFor) == FirstGated(requests, approvals, registry, requireFor)
  {
    assert requests[0..] == requests;
    UndecidedIsGated(requests, 0, approvals, registry, requireFor);
  }

  lemma {:induction false} SameTargetIff(requests: seq<Call>, approvals: map<CallId, Approval>, shown: Call, before: Registry, now: Registry,
                                         requireFor: set<string>)
    requires DistinctIds(requests) && FirstGated(requests, approvals, before, requireFor) == Some(shown)
    ensures FirstGated(requests, approvals, now, requireFor) == Some(shown) <==>
            SameGating(requests, approvals, shown, before, now, requireFor)
  {
    if requests[0] == shown {
      NotLater(requests);
      GatedIsRequested(requests[1..], approvals, before, requireFor);
      GatedIsRequested(requests[1..], approvals, now, requireFor);
    } else {
      SameTargetIff(requests[1..], approvals, shown, before, now, requireFor);
    }
  }

  lemma NotLater(requests: seq<Call>)
    requires requests != [] && DistinctIds(requests)
    ensures requests[0] !in requests[1..]
  {
  }

  lemma {:induction false} GatedIsRequested(requests: seq<Call>, approvals: map<CallId, Approval>, registry: Registry, requireFor: set<string>)
    ensures var t := FirstGated(requests, approvals, registry, requireFor);
      t.Some? ==> t.value in requests && t.value.id !in approvals
  {
    if requests != [] {
      GatedIsRequested(requests[1..], approvals, registry, requireFor);
    }
  }

  // A decision resumes the run that is suspended at an interrupt.
  predicate Resumes(c: Config, e: Event) {
    e.Route? && e.resume.Some? && !e.cancelled && Asks(c) && c.asked.Some?
  }

  ghost predicate GatingKept(c: Config, requireFor: set<string>, e: Event) {
    Resumes(c, e) ==> SameGating(c.state.requests, c.state.approvals, c.asked.value.call, c.asked.value.registry, e.registry, requireFor)
  }

  /**
   The node works out anew which call to apply a decision to. It is the call that was shown, if and only if the gating of
   the undecided calls up to that one is what it was at the interrupt.
   */
  lemma DecisionReachesShownCallIff(c: Config, requireFor: set<string>, e: Event)
    requires Inv(c, requireFor) && Enabled(c, requireFor, e) && Resumes(c, e)
    ensures (exists d :: Step(c, requireFor, e).log == c.log + [d] && d.Decided? && Informed(d)) <==> GatingKept(c, requireFor, e)
  {
    var s, shown, c' := c.state, c.asked.value.call, Step(c, requireFor, e);
    TargetIsFirstGated(s.requests, s.approvals, c.asked.value.registry, requireFor);
    TargetIsFirstGated(s.requests, s.approvals, e.registry, requireFor);
    SameTargetIff(s.requests, s.approvals, shown, c.asked.value.registry, e.registry, requireFor);
    GatedIsRequested(s.requests, s.approvals, c.asked.value.registry, requireFor);
    GatedIsRequested(s.requests, s.approvals, e.registry, requireFor);
    var t := Target(s.requests, s.approvals, e.registry, requireFor);
    if t.Some? {
      var d := Decided(s.step, shown, t.value.id, t.value.name, Verdict(e.resume.value), DecidedArgs(e.resume.value, t.value));
      assert c'.log == c.log + [d] && c'.log[|c.log|] == d;
      SameIdIsSameCall(s.requests, t.value, shown);
    }
  }

  lemma SameIdIsSameCall(requests: seq<Call>, a: Call, b: Call)
    requires DistinctIds(requests) && a in requests && b in requests
    ensures a.id == b.id <==> a == b
  {
    var i :| 0 <= i < |requests| && requests[i] == a;
    var j :| 0 <= j < |requests| && requests[j] == b;
    assert requests[i].id == requests[j].id ==> i == j;
  }

  // The registry does not change what has to be asked about while a question is open.
  ghost predicate SteadyRun(c: Config, requireFor: set<string>, events: seq<Event>)
    decreases |events|
  {
    events != [] ==> GatingKept(c, requireFor, events[0]) && SteadyRun(Step(c, requireFor, events[0]), requireFor, events[1..])
  }

  /// Executions and the events that caused them.

  lemma {:induction false} LogGrows(c: Config, requireFor: set<string>, events: seq<Event>)
    ensures c.log <= Run(c, requireFor, events).log
    decreases |events|
  {
    if events != [] {
      if events[0].Execute? {
        OnlyExecutionsAdded(events[0].registry, c.state.approvals, c.state.requests, events[0].env, c.state.step,
                            Progress(c.state.messages, [], c.log));
      }
      LogGrows(Step(c, requireFor, events[0]), requireFor, events[1..]);
    }
  }

  lemma {:induction false} RunSplits(c: Config, requireFor: set<string>, events: seq<Event>, n: nat)
    requires IsRun(c, requireFor, events) && n < |events|
    ensures IsRun(c, requireFor, events[..n + 1]) && Enabled(Run(c, requireFor, events[..n]), requireFor, events[n])
    ensures Run(c, requireFor, events[..n + 1]) == Step(Run(c, requireFor, events[..n]), requireFor, events[n])
    ensures SteadyRun(c, requireFor, events) ==> SteadyRun(c, requireFor, events[..n + 1])
    decreases n
  {
    var c' := Step(c, requireFor, events[0]);
    assert events[..n + 1][1..] == events[1..][..n];
    if n > 0 {
      assert events[..n][1..] == events[1..][..n - 1] && events[1..][n - 1] == events[n];
      RunSplits(c', requireFor, events[1..], n - 1);
    }
  }

  // While the gating is what was shown, a resumption logs the answer for the call that was shown.
  lemma DecisionIsLogged(c: Config, requireFor: set<string>, e: Event)
    requires Inv(c, requireFor) && Enabled(c, requireFor, e) && Resumes(c, e) && GatingKept(c, requireFor, e)
    ensures var shown, r := c.asked.value.call, e.resume.value;
      Step(c, requireFor, e).log == c.log + [Decided(c.state.step, shown, shown.id, shown.name,
        if r.decision == "rejected" then Rejected else if r.decision == "edited" then Edited else Approved,
        if r.decision == "edited" && r.editedInput.Some? then r.editedInput.value else shown.args)]
  {
    var s, shown := c.state, c.asked.value.call;
    TargetIsFirstGated(s.requests, s.approvals, c.asked.value.registry, requireFor);
    TargetIsFirstGated(s.requests, s.approvals, e.registry, requireFor);
    SameTargetIff(s.requests, s.approvals, shown, c.asked.value.registry, e.registry, requireFor);
  }

  // The person was shown the call at this event and answered `d`.
  predicate Answers(c: Config, e: Event, d: Entry) {
    Resumes(c, e) && d.Decided? &&
    var shown, r := c.asked.value.call, e.resume.value;
    && d.step == c.state.step && d.call == shown.id && d.name == shown.name
    && (d.verdict == Rejected <==> r.decision == "rejected")
    && d.args == if r.decision == "edited" && r.editedInput.Some? then r.editedInput.value else shown.args
  }

  lemma {:induction false} DecisionHasEvent(c: Config, requireFor: set<string>, events: seq<Event>, j: nat)
    requires Inv(c, requireFor) && IsRun(c, requireFor, events) && SteadyRun(c, requireFor, events)
    requires |c.log| <= j < |Run(c, requireFor, events).log| && Run(c, requireFor, events).log[j].Decided?
    ensures exists k :: 0 <= k < |events| && Answers(Run(c, requireFor, events[..k]), events[k], Run(c, requireFor, events).log[j])
    decreases |events|
  {
    var c', d := Step(c, requireFor, events[0]), Run(c, requireFor, events).log[j];
    InvIsKept(c, requireFor, events[0]);
    LogGrows(c', requireFor, events[1..]);
    if j < |c'.log| {
      DecisionAtStep(c, requireFor, events[0], j);
      assert Run(c, requireFor, events[..0]) == c;
    } else {
      DecisionHasEvent(c', requireFor, events[1..], j);
      var k :| 0 <= k < |events[1..]| && Answers(Run(c', requireFor, events[1..][..k]), events[1..][k], d);
      RunShifts(c, requireFor, events, k);
      assert Answers(Run(c, requireFor, events[..k + 1]), events[k + 1], d);
    }
  }

  lemma RunShifts(c: Config, requireFor: set<string>, events: seq<Event>, k: nat)
    requires k < |events|
    ensures Run(c, requireFor, events[..k + 1]) == Run(Step(c, requireFor, events[0]), requireFor, events[1..][..k])
  {
    assert events[..k + 1][1..] == events[1..][..k];
  }

  lemma DecisionAtStep(c: Config, requireFor: set<string>, e: Event, j: nat)
    requires Inv(c, requireFor) && Enabled(c, requireFor, e) && GatingKept(c, requireFor, e)
    requires |c.log| <= j < |Step(c, requireFor, e).log| && Step(c, requireFor, e).log[j].Decided?
    ensures Answers(c, e, Step(c, requireFor, e).log[j])
  {
    if e.Execute? {
      OnlyExecutionsAdded(e.registry, c.state.approvals, c.state.requests, e.env, c.state.step, Progress(c.state.messages, [], c.log));
    } else {
      DecisionIsLogged(c, requireFor, e);
    }
  }

  // What a batch logs: executions of registered tools in this step, a gated one only with an approval and its arguments.
  lemma {:induction false} BatchUsesApprovals(registry: Registry, approvals: map<CallId, Approval>, calls: seq<Call>, env: seq<Attempt>,
                                              step: int, p: Progress, i: nat)
    requires var r := ExecuteAll(registry, approvals, calls, env, step, p);
      var log := match r case Finished(q) => q.log case StoppedByUser(q) => q.log case Suspended(l) => l;
      |p.log| <= i < |log|
    ensures var r := ExecuteAll(registry, approvals, calls, env, step, p);
      var log := match r case Finished(q) => q.log case StoppedByUser(q) => q.log case Suspended(l) => l;
      var x := log[i];
      && x.Executed? && x.step == step && x.name in registry && (x.gated <==> Gated(registry, x.name))
      && (x.gated ==> x.call in approvals && approvals[x.call].status in {Approved, Edited} && x.args == approvals[x.call].args)
  {
    var (next, log) := ExecuteOne(registry, approvals, calls[0], env[0].outcome, step, p);
    if next.Some? {
      OnlyExecutionsAdded(registry, approvals, calls[1..], env[1..], step, next.value);
      if |log| <= i {
        BatchUsesApprovals(registry, approvals, calls[1..], env[1..], step, next.value, i);
      }
    }
  }

  /**
   While the gating stays as it was shown, a tool that the policy gates runs only after a person who was shown that very call in
   the same step did not reject it, and with the arguments of that answer: the edited ones, or those shown.
   */
  lemma GatedExecutionsWereDecided(c: Config, requireFor: set<string>, events: seq<Event>, n: nat, i: nat)
    requires Initial(c) && IsRun(c, requireFor, events) && SteadyRun(c, requireFor, events)
    requires n < |events| && events[n].Execute?
    requires |Run(c, requireFor, events[..n]).log| <= i < |Run(c, requireFor, events[..n + 1]).log|
    requires var x, tools := Run(c, requireFor, events[..n + 1]).log[i], events[n].registry;
      x.name in tools && (tools[x.name].risk in {High, Critical}
                          || exists a :: a in tools[x.name].capabilities && a !in {FilesystemRead, McpRead, AgentDelegate})
    ensures var x := Run(c, requireFor, events[..n + 1]).log[i];
      x.Executed? && exists k ::
        && 0 <= k < n && events[k].Route? && events[k].resume.Some? && Run(c, requireFor, events[..k]).asked.Some?
        && var before, answer := Run(c, requireFor, events[..k]), events[k].resume.value;
           var shown := before.asked.value.call;
           && before.state.step == x.step && shown.id == x.call && shown.name == x.name && answer.decision != "rejected"
           && x.args == if answer.decision == "edited" && answer.editedInput.Some? then answer.editedInput.value else shown.args
  {
    var x, tools := Run(c, requireFor, events[..n + 1]).log[i], events[n].registry;
    RunSplits(c, requireFor, events, n);
    EntryIsExecution(Run(c, requireFor, events[..n]), requireFor, events[n], i);
    GatedIff(tools, x.name);
    var k, d := EntryHasAnswer(c, requireFor, events[..n + 1], i);
    assert events[..n + 1][..k] == events[..k] && events[..n + 1][k] == events[k];
  }

  lemma EntryIsExecution(c: Config, requireFor: set<string>, e: Event, i: nat)
    requires e.Execute? && |c.log| <= i < |Step(c, requireFor, e).log|
    ensures var x := Step(c, requireFor, e).log[i]; x.Executed? && (x.gated <==> Gated(e.registry, x.name))
  {
    BatchUsesApprovals(e.registry, c.state.approvals, c.state.requests, e.env, c.state.step, Progress(c.state.messages, [], c.log), i);
  }

  // A gated execution has the event of the answer that authorised it.
  lemma EntryHasAnswer(c: Config, requireFor: set<string>, events: seq<Event>, i: nat) returns (k: nat, d: Entry)
    requires Initial(c) && IsRun(c, requireFor, events) && SteadyRun(c, requireFor, events)
    requires var log := Run(c, requireFor, events).log; i < |log| && log[i].Executed? && log[i].gated
    ensures var x := Run(c, requireFor, events).log[i];
      k < |events| && Answers(Run(c, requireFor, events[..k]), events[k], d) && Authorises(d, x.step, x.call, x.name, x.args)
  {
    var log := Run(c, requireFor, events).log;
    GatedExecutionsFollowDecisions(c, requireFor, events, i);
    var j :| 0 <= j < i && Authorises(log[j], log[i].step, log[i].call, log[i].name, log[i].args);
    InvHoldsInitially(c, requireFor);
    DecisionHasEvent(c, requireFor, events, j);
    d := log[j];
    k :| 0 <= k < |events| && Answers(Run(c, requireFor, events[..k]), events[k], d);
  }

  // The answer for a call stands: while its step lasts, a later batch finds just that approval.
  ghost predicate Settled(c: Config, step: int, id: CallId, a: Approval) {
    && c.state.step >= step && !c.node.LoadContext? && (c.node.Reason? ==> c.state.step > step)
    && (c.node in {RouteDecision, ExecuteTool} && c.state.step == step ==> id in c.state.approvals && c.state.approvals[id] == a)
  }

  lemma StepKeepsSettled(c: Config, requireFor: set<string>, e: Event, step: int, id: CallId, a: Approval)
    requires Enabled(c, requireFor, e) && Settled(c, step, id, a)
    ensures Settled(Step(c, requireFor, e), step, id, a)
  {
    if e.Route? {
      MarkAutomaticOnlyAdds(c.state.requests, c.state.approvals, e.registry, requireFor);
      UndecidedIsRequested(c.state.requests, MarkAutomatic(c.state.requests, c.state.approvals, e.registry, requireFor));
    }
  }

  lemma {:induction false} SettledExecutions(c: Config, requireFor: set<string>, events: seq<Event>, step: int, id: CallId, a: Approval, i: nat)
    requires IsRun(c, requireFor, events) && Settled(c, step, id, a) && |c.log| <= i < |Run(c, requireFor, events).log|
    requires var x := Run(c, requireFor, events).log[i]; x.Executed? && x.gated && x.call == id && x.step == step
    ensures a.status in {Approved, Edited} && Run(c, requireFor, events).log[i].args == a.args
    decreases |events|
  {
    var e, c' := events[0], Step(c, requireFor, events[0]);
    LogGrows(c', requireFor, events[1..]);
    if i < |c'.log| {
      if e.Execute? {
        BatchUsesApprovals(e.registry, c.state.approvals, c.state.requests, e.env, c.state.step, Progress(c.state.messages, [], c.log), i);
      }
    } else {
      StepKeepsSettled(c, requireFor, e, step, id, a);
      SettledExecutions(c', requireFor, events[1..], step, id, a, i);
    }
  }

  /** A decision binds whatever the run does with the call later in that step: a rejected one never runs under the gate. */
  lemma DecisionBindsExecutions(c: Config, requireFor: set<string>, e: Event, events: seq<Event>, i: nat)
    requires Inv(c, requireFor) && Enabled(c, requireFor, e) && Resumes(c, e) && GatingKept(c, requireFor, e)
    requires IsRun(Step(c, requireFor, e), requireFor, events)
    requires |Step(c, requireFor, e).log| <= i < |Run(Step(c, requireFor, e), requireFor, events).log|
    requires var x := Run(Step(c, requireFor, e), requireFor, events).log[i];
      x.Executed? && x.gated && x.call == c.asked.value.call.id && x.step == c.state.step
    ensures var x, answer := Run(Step(c, requireFor, e), requireFor, events).log[i], e.resume.value;
      && answer.decision != "rejected"
      && x.args == if answer.decision == "edited" && answer.editedInput.Some? then answer.editedInput.value else c.asked.value.call.args
  {
    var s, shown, c' := c.state, c.asked.value.call, Step(c, requireFor, e);
    TargetIsFirstGated(s.requests, s.approvals, c.asked.value.registry, requireFor);
    TargetIsFirstGated(s.requests, s.approvals, e.registry, requireFor);
    SameTargetIff(s.requests, s.approvals, shown, c.asked.value.registry, e.registry, requireFor);
    SettledExecutions(c', requireFor, events, s.step, shown.id, c'.state.approvals[shown.id], i);
  }

  // In any run a gated execution follows a decision that was applied to that call in that step, whatever call was shown.
  lemma GatedExecutionsFollowDecisions(c: Config, requireFor: set<string>, events: seq<Event>, i: nat)
    requires Initial(c) && IsRun(c, requireFor, events)
    requires var log := Run(c, requireFor, events).log; i < |log| && log[i].Executed? && log[i].gated
    ensures var log := Run(c, requireFor, events).log;
      exists j :: 0 <= j < i && Authorises(log[j], log[i].step, log[i].call, log[i].name, log[i].args)
  {
    InvHoldsInitially(c, requireFor);
    RunKeepsInv(c, requireFor, events);
    BackedAt(Run(c, requireFor, events).log, i);
  }

  lemma {:induction false} BackedAt(log: seq<Entry>, i: nat)
    requires Backed(log) && i < |log| && log[i].Executed? && log[i].gated
    ensures exists j :: 0 <= j < i && Authorises(log[j], log[i].step, log[i].call, log[i].name, log[i].args)
  {
    var n := |log| - 1;
    if i < n {
      BackedAt(log[..n], i);
      var j :| 0 <= j < i && Authorises(log[..n][j], log[i].step, log[i].call, log[i].name, log[i].args);
      assert log[j] == log[..n][j];
    } else {
      var d :| d in log[..n] && Authorises(d, log[i].step, log[i].call, log[i].name, log[i].args);
      var j :| 0 <= j < n && log[..n][j] == d;
      assert log[j] == d;
    }
  }

  // Per run and call id there is at most one approval record, however often the node is re-executed.
  lemma OneRecordPerCall(c: Config, requireFor: set<string>, events: seq<Event>, i: nat, j: nat)
    requires Initial(c) && IsRun(c, requireFor, events) && i < j < |Run(c, requireFor, events).records|
    ensures Run(c, requireFor, events).records[i] != Run(c, requireFor, events).records[j]
  {
    InvHoldsInitially(c, requireFor);
    RunKeepsInv(c, requireFor, events);
  }

  // Whenever the model is about to be asked again, every earlier request is fully answered, the budgets are
  // respected, and nothing is left of the previous batch, so the approval bypass of the node cannot be taken.
  lemma ReasonStartsClean(c: Config, requireFor: set<string>, events: seq<Event>)
    requires Initial(c) && IsRun(c, requireFor, events) && Run(c, requireFor, events).node.Reason?
    ensures var s := Run(c, requireFor, events).state;
      && Answered(s.messages) && s.requests == [] && s.approvals == map[] && s.status.Running?
      && (s.step > c.start ==> s.step <= s.maxSteps && s.totalCalls < s.maxCalls && s.failures < s.maxFailures)
  {
    InvHoldsInitially(c, requireFor);
    RunKeepsInv(c, requireFor, events);
    StartIsKept(c, requireFor, events);
  }

  lemma {:induction false} StartIsKept(c: Config, requireFor: set<string>, events: seq<Event>)
    requires IsRun(c, requireFor, events)
    ensures Run(c, requireFor, events).start == c.start && Run(c, requireFor, events).state.maxSteps == c.state.maxSteps
    decreases |events|
  {
    if events != [] {
      StepKeepsStart(c, requireFor, events[0]);
      StartIsKept(Step(c, requireFor, events[0]), requireFor, events[1..]);
    }
  }

  lemma StepKeepsStart(c: Config, requireFor: set<string>, e: Event)
    ensures Step(c, requireFor, e).start == c.start && Step(c, requireFor, e).state.maxSteps == c.state.maxSteps
  {
  }

  lemma ModelTurnsAreBounded(c: Config, requireFor: set<string>, events: seq<Event>)
    requires Initial(c) && IsRun(c, requireFor, events)
    ensures Run(c, requireFor, events).turns
         <= if c.start <= c.state.maxSteps then c.state.maxSteps - c.start + 1 else 1
  {
    InvHoldsInitially(c, requireFor);
    RunKeepsInv(c, requireFor, events);
    StartIsKept(c, requireFor, events);
  }

  /// Termination.

  function Undecided(requests: seq<Call>, approvals: map<CallId, Approval>): nat {
    if requests == [] then 0
    else (if requests[0].id in approvals then 0 else 1) + Undecided(requests[1..], approvals)
  }

  lemma {:induction false} UndecidedShrinks(requests: seq<Call>, before: map<CallId, Approval>, after: map<CallId, Approval>)
    requires before.Keys <= after.Keys
    ensures Undecided(requests, after) <= Undecided(requests, before) <= |requests|
    ensures (exists c :: c in requests && c.id in after && c.id !in before) ==>
            Undecided(requests, after) < Undecided(requests, before)
  {
    if requests != [] {
      UndecidedShrinks(requests[1..], before, after);
      if c :| c in requests && c.id in after && c.id !in before {
        assert c == requests[0] || c in requests[1..];
      }
    }
  }

  /** Remaining steps first, then the node, then the undecided calls; `batch` bounds the calls of one turn. */
  function Potential(c: Config, batch: nat): nat {
    var s := c.state;
    var remaining := if s.step < s.maxSteps then s.maxSteps - s.step else 0;
    remaining * (batch + 4) + match c.node
      case LoadContext => batch + 6
      case Reason => batch + 5
      case RouteDecision => 4 + Undecided(s.requests, s.approvals)
      case ExecuteTool => 3
      case Observe => 2
      case UpdateMemory => 1
      case End => 0
  }

  predicate Commits(c: Config, c': Config) {
    c'.node != c.node || c'.state != c.state
  }

  ghost predicate BatchesWithin(events: seq<Event>, batch: nat) {
    forall e | e in events && e.Think? :: |e.calls| <= batch
  }

  lemma OneStepLess(remaining: nat, batch: nat)
    requires remaining > 0
    ensures (remaining - 1) * (batch + 4) + batch + 5 < remaining * (batch + 4) + 2
  {
    assert remaining * (batch + 4) == (remaining - 1) * (batch + 4) + (batch + 4);
  }

  lemma RouteUsesPotential(c: Config, requireFor: set<string>, e: Event, batch: nat)
    requires Inv(c, requireFor) && c.node.RouteDecision? && e.Route? && |c.state.requests| <= batch
    ensures var c' := RouteStep(c, requireFor, e);
      |c'.state.requests| <= batch && (Commits(c, c') ==> Potential(c', batch) < Potential(c, batch))
  {
    var s, c' := c.state, RouteStep(c, requireFor, e);
    if c'.node.RouteDecision? && Commits(c, c') {
      DecisionUsesUndecided(s, e.registry, requireFor, e.resume.value);
    }
  }

  lemma DecisionUsesUndecided(s: State, registry: Registry, requireFor: set<string>, r: Resume)
    requires Target(s.requests, s.approvals, registry, requireFor).Some?
    ensures var marked := MarkAutomatic(s.requests, s.approvals, registry, requireFor);
      var s' := Decide(s, marked, Target(s.requests, s.approvals, registry, requireFor).value, r);
      s'.requests == s.requests && Undecided(s.requests, s'.approvals) < Undecided(s.requests, s.approvals)
  {
    var marked := MarkAutomatic(s.requests, s.approvals, registry, requireFor);
    var t := Target(s.requests, s.approvals, registry, requireFor).value;
    MarkAutomaticOnlyAdds(s.requests, s.approvals, registry, requireFor);
    UndecidedIsRequested(s.requests, marked);
    var s' := Decide(s, marked, t, r);
    assert t in s.requests && t.id in s'.approvals && t.id !in s.approvals;
    UndecidedShrinks(s.requests, s.approvals, s'.approvals);
  }

  lemma WatchUsesPotential(c: Config, requireFor: set<string>, e: Event, batch: nat)
    requires Inv(c, requireFor) && c.node.Observe? && e.Watch? && |c.state.requests| <= batch
    ensures var c' := WatchStep(c, e);
      |c'.state.requests| <= batch && (Commits(c, c') ==> Potential(c', batch) < Potential(c, batch))
  {
    if c.state.step < c.state.maxSteps {
      OneStepLess(c.state.maxSteps - c.state.step, batch);
    }
  }

  lemma ExecuteUsesPotential(c: Config, requireFor: set<string>, e: Event, batch: nat)
    requires Inv(c, requireFor) && c.node.ExecuteTool? && e.Execute? && |c.state.requests| <= batch
    ensures var c' := ExecuteStep(c, e);
      |c'.state.requests| <= batch && (Commits(c, c') ==> Potential(c', batch) < Potential(c, batch))
  {
  }

  lemma CommitsUsePotential(c: Config, requireFor: set<string>, e: Event, batch: nat)
    requires Inv(c, requireFor) && Enabled(c, requireFor, e) && (e.Think? ==> |e.calls| <= batch) && |c.state.requests| <= batch
    ensures var c' := Step(c, requireFor, e);
      |c'.state.requests| <= batch && (Commits(c, c') ==> Potential(c', batch) < Potential(c, batch))
  {
    var c' := Step(c, requireFor, e);
    match e
    case Route(_, _, _) => RouteUsesPotential(c, requireFor, e, batch);
    case Think(_, _, calls, _) => UndecidedShrinks(c'.state.requests, map[], c'.state.approvals);
    case RefuseRoute => UndecidedShrinks(c'.state.requests, map[], c'.state.approvals);
    case Watch(_, _, _) => WatchUsesPotential(c, requireFor, e, batch);
    case Execute(_, _, _) => ExecuteUsesPotential(c, requireFor, e, batch);
    case _ =>
  }

  ghost function CommittedSteps(c: Config, requireFor: set<string>, events: seq<Event>): nat
    decreases |events|
  {
    if events == [] then 0
    else
      (if Commits(c, Step(c, requireFor, events[0])) then 1 else 0)
      + CommittedSteps(Step(c, requireFor, events[0]), requireFor, events[1..])
  }

  // With at most `batch` calls a turn, a run commits a bounded number of steps: the graph terminates.
  lemma {:induction false} CommittedStepsAreBounded(c: Config, requireFor: set<string>, events: seq<Event>, batch: nat)
    requires Inv(c, requireFor) && IsRun(c, requireFor, events) && BatchesWithin(events, batch) && |c.state.requests| <= batch
    ensures CommittedSteps(c, requireFor, events) <= Potential(c, batch)
    decreases |events|
  {
    if events != [] {
      var c' := Step(c, requireFor, events[0]);
      InvIsKept(c, requireFor, events[0]);
      CommitsUsePotential(c, requireFor, events[0], batch);
      assert events[0] in events && forall e | e in events[1..] :: e in events;
      CommittedStepsAreBounded(c', requireFor, events[1..], batch);
    }
  }

  /// `require_approval_for` is asked about but not enforced.

  predicate Runs(registry: Registry, approvals: map<CallId, Approval>, c: Call, o: Outcome, step: int, p: Progress) {
    ExecuteOne(registry, approvals, c, o, step, p).1 != p.log
  }

  /** The call runs exactly when its decision allows it, and with the decided arguments. */
  predicate DecisionHonoured(registry: Registry, approvals: map<CallId, Approval>, c: Call, o: Outcome, step: int, p: Progress)
    requires c.id in approvals
  {
    var log := ExecuteOne(registry, approvals, c, o, step, p).1;
    if approvals[c.id].status.Rejected? then log == p.log
    else exists gated :: log == p.log + [Executed(step, c.id, c.name, approvals[c.id].args, gated)]
  }

  // For a registered tool and a human decision on it: the decision is honoured if and only if the policy gates the
  // tool, or the decision was to run it unchanged.
  lemma DecisionHonouredIff(registry: Registry, approvals: map<CallId, Approval>, c: Call, o: Outcome, step: int, p: Progress)
    requires c.name in registry && c.id in approvals && !approvals[c.id].status.Auto?
    ensures DecisionHonoured(registry, approvals, c, o, step, p) <==>
            Gated(registry, c.name) || (!approvals[c.id].status.Rejected? && approvals[c.id].args == c.args)
  {
    var log := ExecuteOne(registry, approvals, c, o, step, p).1;
    if !Gated(registry, c.name) {
      assert log == p.log + [Executed(step, c.id, c.name, c.args, false)];
      assert log[|p.log|] == Executed(step, c.id, c.name, c.args, false);
    }
  }

  // Two read-only calls, the first one listed for approval and rejected by the human: it is executed all the same.
  lemma RejectedListedCallIsExecuted(c: Config, args: string)
    requires Inv(c, {"read"}) && c.node.RouteDecision? && c.state.approvals == map[] && c.state.status.Running?
    requires c.state.requests == [Call(1, "read", args), Call(2, "list", args)]
    requires c.asked == Some(Asked(Call(1, "read", args), ReadOnlyTools())) && 1 in c.records && c.missing.None?
    ensures var reject, run := Route(false, ReadOnlyTools(), Some(Resume("rejected", None))), Execute(ReadOnlyTools(), TwoSuccesses(), false);
      var rejected := Step(c, {"read"}, reject);
      && Enabled(c, {"read"}, reject) && Enabled(rejected, {"read"}, run)
      && Decided(c.state.step, Call(1, "read", args), 1, "read", Rejected, args) in rejected.log
      && Executed(c.state.step, 1, "read", args, false) in Step(rejected, {"read"}, run).log
  {
    var s := c.state;
    TwoTargets(s.requests, map[], ReadOnlyTools(), {"read"});
    RejectingOne(s, args);
    assert NeedsApproval(ReadOnlyTools(), {"read"}, "read") && !NeedsApproval(ReadOnlyTools(), {"read"}, "list");
    assert MarkAutomatic(s.requests, map[], ReadOnlyTools(), {"read"}) == map[2 := Approval(Auto, args)];
    var rejected := Step(c, {"read"}, Route(false, ReadOnlyTools(), Some(Resume("rejected", None))));
    var d := Decided(s.step, s.requests[0], 1, "read", Rejected, args);
    assert rejected.log == c.log + [d] && rejected.log[|c.log|] == d;
    BothRun(ReadOnlyTools(), rejected.state, s.requests[0], s.requests[1], Progress(s.messages, [], rejected.log));
  }

  lemma RejectingOne(s: State, args: string)
    requires s.requests == [Call(1, "read", args), Call(2, "list", args)]
    ensures var marked := map[2 := Approval(Auto, args)];
      var s' := Decide(s, marked, s.requests[0], Resume("rejected", None));
      && s'.status.Running? && s'.requests == s.requests && s'.messages == s.messages && s'.step == s.step
      && FirstUndecided(s'.requests, s'.approvals).None? && NextRoute(s') == ExecuteTool
  {
    var marked := map[2 := Approval(Auto, args)];
    var s' := Decide(s, marked, s.requests[0], Resume("rejected", None));
    assert s.requests[1] in s.requests;
    assert !AllRejected(s.requests, s'.approvals);
    TwoUndecided(s.requests, s'.approvals);
  }

  function ReadOnlyTools(): Registry {
    map["read" := Tool([FilesystemRead], Low), "list" := Tool([FilesystemRead], Low)]
  }

  function TwoSuccesses(): seq<Attempt> {
    [Attempt(false, Succeeds("")), Attempt(false, Succeeds(""))]
  }

  lemma TwoUndecided(requests: seq<Call>, approvals: map<CallId, Approval>)
    requires |requests| == 2
    ensures FirstUndecided(requests, approvals) ==
      if requests[0].id !in approvals then Some(requests[0]) else if requests[1].id !in approvals then Some(requests[1]) else None
  {
    assert requests[1..][0] == requests[1] && requests[1..][1..] == [];
    assert FirstUndecided(requests[1..], approvals) == if requests[1].id !in approvals then Some(requests[1]) else None;
  }

  lemma TwoTargets(requests: seq<Call>, approvals: map<CallId, Approval>, registry: Registry, requireFor: set<string>)
    requires |requests| == 2 && requests[0].id != requests[1].id && approvals == map[]
    ensures MarkAutomatic(requests, approvals, registry, requireFor)
         == (if NeedsApproval(registry, requireFor, requests[0].name) then map[] else map[requests[0].id := Approval(Auto, requests[0].args)])
          + (if NeedsApproval(registry, requireFor, requests[1].name) then map[] else map[requests[1].id := Approval(Auto, requests[1].args)])
    ensures Target(requests, approvals, registry, requireFor) ==
      if NeedsApproval(registry, requireFor, requests[0].name) then Some(requests[0])
      else if NeedsApproval(registry, requireFor, requests[1].name) then Some(requests[1]) else None
  {
    assert requests[1..][0] == requests[1] && requests[1..][1..] == [];
    var first := if NeedsApproval(registry, requireFor, requests[0].name) then map[] else map[requests[0].id := Approval(Auto, requests[0].args)];
    assert MarkAutomatic(requests, approvals, registry, requireFor) == MarkAutomatic(requests[1..], first, registry, requireFor);
    assert MarkAutomatic(requests[1..], first, registry, requireFor)
        == if NeedsApproval(registry, requireFor, requests[1].name) then first else first[requests[1].id := Approval(Auto, requests[1].args)];
    TwoUndecided(requests, MarkAutomatic(requests, approvals, registry, requireFor));
  }

  // Both calls of a batch are authorised or need no authorisation, and both succeed.
  lemma BothRun(registry: Registry, s: State, first: Call, second: Call, p: Progress)
    requires first.name in registry && second.name in registry
    requires Gated(registry, first.name) ==> AuthorisedStatus(s.approvals, first.id)
    requires Gated(registry, second.name) ==> AuthorisedStatus(s.approvals, second.id)
    ensures var r := ExecuteAll(registry, s.approvals, [first, second], TwoSuccesses(), s.step, p);
      && r.Finished?
      && Executed(s.step, first.id, first.name, if Gated(registry, first.name) then s.approvals[first.id].args else first.args,
                  Gated(registry, first.name)) in r.p.log
      && Executed(s.step, second.id, second.name, if Gated(registry, second.name) then s.approvals[second.id].args else second.args,
                  Gated(registry, second.name)) in r.p.log
      && p.log <= r.p.log
  {
    var done := Attempt(false, Succeeds(""));
    assert [first, second][1..] == [second] && TwoSuccesses()[1..] == [done];
    assert [second][1..] == [] && [done][1..] == [];
    var (p1, log1) := ExecuteOne(registry, s.approvals, first, done.outcome, s.step, p);
    var (p2, log2) := ExecuteOne(registry, s.approvals, second, done.outcome, s.step, p1.value);
    assert ExecuteAll(registry, s.approvals, [second], [done], s.step, p1.value) == Finished(p2.value);
    assert log1[|p.log|] in log2 && log2[|log1|] in log2;
  }

  /// A question that is answered for another call.

  // The tool server of "send" comes back with a lower risk after a person was asked about it.
  function RiskyTools(): Registry { map["send" := Tool([], High), "write" := Tool([], High)] }

  function CalmedTools(): Registry { map["send" := Tool([], Low), "write" := Tool([], High)] }

  // Asked about sending, the person approves; the approval is applied to writing, which is executed without a question.
  lemma ApprovalMovesToAnotherCall(c: Config, args: string)
    requires Inv(c, {}) && c.node.RouteDecision? && c.state.approvals == map[] && c.state.status.Running?
    requires c.state.requests == [Call(1, "send", args), Call(2, "write", args)]
    requires c.asked == Some(Asked(Call(1, "send", args), RiskyTools())) && c.records == [1, 2] && c.missing.None?
    ensures var approve, run := Route(false, CalmedTools(), Some(Resume("approved", None))), Execute(CalmedTools(), TwoSuccesses(), false);
      var approved := Step(c, {}, approve);
      && Enabled(c, {}, approve) && !GatingKept(c, {}, approve) && Enabled(approved, {}, run)
      && approved.log == c.log + [Decided(c.state.step, Call(1, "send", args), 2, "write", Approved, args)]
      && Executed(c.state.step, 2, "write", args, true) in Step(approved, {}, run).log
  {
    var s := c.state;
    TwoTargets(s.requests, map[], CalmedTools(), {});
    ApprovingSecond(s, args);
    assert NeedsApproval(CalmedTools(), {}, "write") && !NeedsApproval(CalmedTools(), {}, "send");
    assert MarkAutomatic(s.requests, map[], CalmedTools(), {}) == map[1 := Approval(Auto, args)];
    var approved := Step(c, {}, Route(false, CalmedTools(), Some(Resume("approved", None))));
    BothRun(CalmedTools(), approved.state, s.requests[0], s.requests[1], Progress(s.messages, [], approved.log));
  }

  lemma ApprovingSecond(s: State, args: string)
    requires s.requests == [Call(1, "send", args), Call(2, "write", args)]
    ensures var s' := Decide(s, map[1 := Approval(Auto, args)], s.requests[1], Resume("approved", None));
      && s'.status.Running? && s'.requests == s.requests && s'.messages == s.messages && s'.step == s.step
      && s'.approvals == map[1 := Approval(Auto, args), 2 := Approval(Approved, args)]
      && FirstUndecided(s'.requests, s'.approvals).None? && NextRoute(s') == ExecuteTool
  {
    TwoUndecided(s.requests, Decide(s, map[1 := Approval(Auto, args)], s.requests[1], Resume("approved", None)).approvals);
  }

  ghost predicate BreaksAt(log: seq<Entry>, i: nat) {
    && i < |log| && log[i].Executed? && log[i].gated
    && forall j | 0 <= j < i :: !(Authorises(log[j], log[i].step, log[i].call, log[i].name, log[i].args) && Informed(log[j]))
  }

  ghost predicate EndsBroken(c: Config, requireFor: set<string>) {
    exists events, i :: IsRun(c, requireFor, events) && BreaksAt(Run(c, requireFor, events).log, i)
  }

  lemma BrokenBefore(c: Config, requireFor: set<string>, e: Event)
    requires Enabled(c, requireFor, e) && EndsBroken(Step(c, requireFor, e), requireFor)
    ensures EndsBroken(c, requireFor)
  {
    var c' := Step(c, requireFor, e);
    var events, i :| IsRun(c', requireFor, events) && BreaksAt(Run(c', requireFor, events).log, i);
    assert ([e] + events)[1..] == events;
    assert BreaksAt(Run(c, requireFor, [e] + events).log, i);
  }

  // The suspended run of the example, when nothing was executed or decided before, ends with an execution nobody was asked about.
  lemma MovedApprovalBreaks(c: Config, args: string)
    requires Inv(c, {}) && c.node.RouteDecision? && c.state.approvals == map[] && c.state.status.Running? && c.log == []
    requires c.state.requests == [Call(1, "send", args), Call(2, "write", args)]
    requires c.asked == Some(Asked(Call(1, "send", args), RiskyTools())) && c.records == [1, 2] && c.missing.None?
    ensures EndsBroken(c, {})
  {
    ApprovalMovesToAnotherCall(c, args);
    var approve, run := Route(false, CalmedTools(), Some(Resume("approved", None))), Execute(CalmedTools(), TwoSuccesses(), false);
    var approved := Step(c, {}, approve);
    ExecutionBreaks(approved, run, c.state.step, args);
    BrokenBefore(approved, {}, run);
    BrokenBefore(c, {}, approve);
  }

  lemma ExecutionBreaks(c: Config, e: Event, step: int, args: string)
    requires e.Execute? && c.log == [Decided(step, Call(1, "send", args), 2, "write", Approved, args)]
    requires Executed(step, 2, "write", args, true) in Step(c, {}, e).log
    ensures EndsBroken(Step(c, {}, e), {})
  {
    var done := Step(c, {}, e);
    OnlyExecutionsAdded(e.registry, c.state.approvals, c.state.requests, e.env, c.state.step, Progress(c.state.messages, [], c.log));
    var i :| 0 <= i < |done.log| && done.log[i] == Executed(step, 2, "write", args, true);
    assert done.log[0] == c.log[0];
    assert BreaksAt(done.log, i);
    assert IsRun(done, {}, []) && Run(done, {}, []) == done;
  }

  lemma {:induction false} OnlyExecutionsAdded(registry: Registry, approvals: map<CallId, Approval>, calls: seq<Call>, env: seq<Attempt>,
                                               step: int, p: Progress)
    ensures var r := ExecuteAll(registry, approvals, calls, env, step, p);
      var log := match r case Finished(q) => q.log case StoppedByUser(q) => q.log case Suspended(l) => l;
      p.log <= log && forall j | |p.log| <= j < |log| :: log[j].Executed?
  {
    if calls != [] && env != [] && !env[0].cancelled {
      var (next, log) := ExecuteOne(registry, approvals, calls[0], env[0].outcome, step, p);
      if next.Some? {
        OnlyExecutionsAdded(registry, approvals, calls[1..], env[1..], step, next.value);
      }
    }
  }

  /** From the very start: a run in which a gated call is executed although no person was ever asked about it. */
  lemma UnsteadyRunExecutesUnasked(c: Config, args: string)
    requires Initial(c) && c.state.messages == []
    ensures EndsBroken(c, {})
  {
    var calls := [Call(1, "send", args), Call(2, "write", args)];
    var load, think := Load([], "go"), Think(false, None, calls, false);
    var c1 := Step(c, {}, load);
    var c2 := Step(c1, {}, think);
    InvHoldsInitially(c, {});
    InvIsKept(c, {}, load);
    InvIsKept(c1, {}, think);
    AskedAndCalmed(c2, args);
    BrokenBefore(c1, {}, think);
    BrokenBefore(c, {}, load);
  }

  // Looking up, recording and asking under the first registry, then looking up and recording again under the second.
  lemma AskedAndCalmed(c: Config, args: string)
    requires Inv(c, {}) && c.node.RouteDecision? && c.state.approvals == map[] && c.state.status.Running? && c.log == []
    requires c.state.requests == [Call(1, "send", args), Call(2, "write", args)]
    requires c.asked == None && c.records == [] && c.missing == None
    ensures EndsBroken(c, {})
  {
    TwoTargets(c.state.requests, map[], RiskyTools(), {});
    TwoTargets(c.state.requests, map[], CalmedTools(), {});
    var first, second := c.state.requests[0], c.state.requests[1];
    var looked := c.(missing := Some(1));
    var recorded := c.(records := [1]);
    var asked := recorded.(asked := Some(Asked(first, RiskyTools())));
    var looked2 := asked.(missing := Some(2));
    var recorded2 := asked.(records := [1, 2]);
    assert Step(c, {}, Look(RiskyTools())) == looked && Step(looked, {}, Record) == recorded;
    assert Step(recorded, {}, Ask(RiskyTools())) == asked;
    assert Step(asked, {}, Look(CalmedTools())) == looked2 && Step(looked2, {}, Record) == recorded2;
    InvIsKept(c, {}, Look(RiskyTools()));
    InvIsKept(looked, {}, Record);
    InvIsKept(recorded, {}, Ask(RiskyTools()));
    InvIsKept(asked, {}, Look(CalmedTools()));
    InvIsKept(looked2, {}, Record);
    MovedApprovalBreaks(recorded2, args);
    BrokenBefore(looked2, {}, Record);
    BrokenBefore(asked, {}, Look(CalmedTools()));
    BrokenBefore(recorded, {}, Ask(RiskyTools()));
    BrokenBefore(looked, {}, Record);
    BrokenBefore(c, {}, Look(RiskyTools()));
  }
}
