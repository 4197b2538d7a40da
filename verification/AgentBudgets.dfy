/** What the agent loop counts and logs, when it goes on and when it stops (app/orchestrator/nodes.py:92-142, 666-1172). */
module AgentBudgets {
  import opened Wrappers
  import opened ApprovalPolicy
  import opened AgentNodes
  import opened AgentLoop
  import opened AgentGuarantees

  // The batch runs this call: the tool is there and, when the policy gates it, a person approved or edited the call.
  predicate Permitted(registry: Registry, approvals: map<CallId, Approval>, c: Call) {
    c.name in registry && (Gated(registry, c.name) ==> c.id in approvals && approvals[c.id].status in {Approved, Edited})
  }

  // One reply per call: the tool's output or error, or why the call was refused. A result is a success only if the tool ran and succeeded.
  lemma {:induction false} BatchOutcome(registry: Registry, approvals: map<CallId, Approval>, calls: seq<Call>, env: seq<Attempt>,
                                        step: int, p: Progress, k: nat)
    requires ExecuteAll(registry, approvals, calls, env, step, p).Finished? && k < |calls|
    ensures var q := ExecuteAll(registry, approvals, calls, env, step, p).p;
      && |calls| <= |env| && p.results <= q.results && p.messages <= q.messages
      && |q.results| == |p.results| + |calls| && |q.messages| == |p.messages| + |calls|
      && (q.results[|p.results| + k] <==> Permitted(registry, approvals, calls[k]) && env[k].outcome.Succeeds?)
      && q.messages[|p.messages| + k].Reply? && q.messages[|p.messages| + k].call == calls[k].id
      && var content := q.messages[|p.messages| + k].content;
         if Permitted(registry, approvals, calls[k]) then
           (env[k].outcome.Succeeds? && content == env[k].outcome.output) || (env[k].outcome.Fails? && content == env[k].outcome.error)
         else if calls[k].id in approvals && approvals[calls[k].id].status == Rejected then content == "Error (approval_rejection)"
         else if calls[k].id !in approvals || approvals[calls[k].id].status == Auto then content == "Error (permission_failure)"
         else content == "Error (tool_failure)"
  {
    var (next, log) := ExecuteOne(registry, approvals, calls[0], env[0].outcome, step, p);
    assert next.value.results[|p.results|..] == [next.value.results[|p.results|]];
    if |calls| > 1 {
      BatchOutcome(registry, approvals, calls[1..], env[1..], step, next.value, if k == 0 then 0 else k - 1);
    } else {
      assert calls[1..] == [];
    }
  }

  // A batch that ran to its end counts its calls, and one failure more if and only if none of its calls succeeded.
  lemma BatchCounts(c: Config, requireFor: set<string>, e: Event)
    requires Inv(c, requireFor) && c.node.ExecuteTool? && e.Execute?
    requires Step(c, requireFor, e).node.Observe? && Step(c, requireFor, e).state.status.Running?
    ensures var s, s' := c.state, Step(c, requireFor, e).state;
      && s'.totalCalls == s.totalCalls + |s.requests| && |s.requests| <= |e.env|
      && s'.failures == if exists k :: 0 <= k < |s.requests| && Permitted(e.registry, s.approvals, s.requests[k]) && e.env[k].outcome.Succeeds?
                        then 0 else s.failures + 1
  {
    var s := c.state;
    var p0 := Progress(s.messages, [], c.log);
    var r := ExecuteAll(e.registry, s.approvals, s.requests, e.env, s.step, p0);
    forall k | 0 <= k < |s.requests|
      ensures |r.p.results| == |s.requests| <= |e.env|
      ensures r.p.results[k] <==> Permitted(e.registry, s.approvals, s.requests[k]) && e.env[k].outcome.Succeeds?
    {
      BatchOutcome(e.registry, s.approvals, s.requests, e.env, s.step, p0, k);
    }
    assert s.requests[0] in s.requests;
  }

  /**
   After a batch the model is asked again if and only if the run was not stopped or cancelled, is in time and within each of its
   three budgets; a missed deadline or too many failures fails it, a used-up budget completes it.
   */
  lemma LoopContinuesIff(c: Config, requireFor: set<string>, e: Event)
    requires Inv(c, requireFor) && c.node.Observe? && e.Watch?
    ensures var s, c' := c.state, Step(c, requireFor, e);
      && (c'.node.Reason? <==> !e.cancelled && !e.late && !e.paused && s.finalResponse.None?
                               && s.failures < s.maxFailures && s.totalCalls < s.maxCalls && s.step < s.maxSteps)
      && (c'.node.Reason? ==> c'.state.step == s.step + 1 && c'.state.messages == s.messages && c'.state.totalCalls == s.totalCalls)
      && (!e.cancelled && (e.late || s.failures >= s.maxFailures) ==> c'.node.UpdateMemory? && c'.state.status == Failed)
      && (!e.cancelled && !e.late && s.failures < s.maxFailures && (s.totalCalls >= s.maxCalls || s.step >= s.maxSteps) ==>
            c'.node.UpdateMemory? && c'.state.status == Completed)
      && (e.cancelled ==> c'.node.UpdateMemory? && c'.state.status == Cancelled)
  {
  }

  /// Stops, rejections and the start.

  /** Whichever node sees a stop request cancels the run and drops what is pending. */
  lemma StopCancels(c: Config, requireFor: set<string>, e: Event)
    requires Inv(c, requireFor) && Enabled(c, requireFor, e)
    requires match e
      case Think(before, _, _, after) => before || after
      case Route(cancelled, _, _) => cancelled && !Terminal(c.state.status)
      case Execute(_, env, after) => Step(c, requireFor, e).node.Observe? && (after || (exists a :: a in env && a.cancelled && |env| <= |c.state.requests|))
      case Watch(cancelled, _, _) => cancelled
      case Save(cancelled) => cancelled
      case _ => false
    ensures var s' := Step(c, requireFor, e).state; s'.status == Cancelled && s'.requests == [] && s'.finalResponse == Some("Run cancelled.")
  {
    if e.Execute? {
      var s := c.state;
      var r := ExecuteAll(e.registry, s.approvals, s.requests, e.env, s.step, Progress(s.messages, [], c.log));
      if r.Finished? && !e.cancelledAfter {
        FinishedIsUndisturbed(e.registry, s.approvals, s.requests, e.env, s.step, Progress(s.messages, [], c.log));
      }
    }
  }

  lemma {:induction false} FinishedIsUndisturbed(registry: Registry, approvals: map<CallId, Approval>, calls: seq<Call>, env: seq<Attempt>,
                                                 step: int, p: Progress)
    requires ExecuteAll(registry, approvals, calls, env, step, p).Finished?
    ensures |calls| <= |env| && forall k | 0 <= k < |calls| :: !env[k].cancelled
  {
    if calls != [] {
      var (next, log) := ExecuteOne(registry, approvals, calls[0], env[0].outcome, step, p);
      FinishedIsUndisturbed(registry, approvals, calls[1..], env[1..], step, next.value);
    }
  }

  // A rejection ends the run if and only if every requested call is now rejected and no other decision is on record.
  lemma RejectionEndsRunIff(c: Config, requireFor: set<string>, e: Event)
    requires Inv(c, requireFor) && Enabled(c, requireFor, e) && Resumes(c, e) && GatingKept(c, requireFor, e)
    ensures var s, s' := c.state, Step(c, requireFor, e).state;
      && (s'.status == Cancelled <==> |s'.approvals| == |s.requests| && e.resume.value.decision == "rejected"
                                      && forall x | x in s.requests :: x.id in s'.approvals && s'.approvals[x.id].status == Rejected)
      && (s'.status == Cancelled ==> s'.finalResponse.Some? && Step(c, requireFor, e).node == UpdateMemory)
      && (s'.status != Cancelled ==> s'.status == Running && s'.finalResponse == s.finalResponse && s'.requests == s.requests)
  {
    DecisionIsLogged(c, requireFor, e);
  }

  // A run starts with its history, or what an earlier attempt already had, and the person's message once at the end.
  lemma RunStartsWithMessage(c: Config, requireFor: set<string>, history: seq<Message>, user: string)
    ensures var m := Step(c, requireFor, Load(history, user)).state.messages;
      var before := if c.state.messages == [] then history else c.state.messages;
      && m != [] && m[|m| - 1] == Plain("user", user)
      && (m == before || m == before + [Plain("user", user)])
      && (m == before <==> before != [] && before[|before| - 1] == Plain("user", user))
  {
    var before := if c.state.messages == [] then history else c.state.messages;
    assert |before + [Plain("user", user)]| == |before| + 1;
  }

  // Whatever a batch runs is logged, also when a later call is stopped or suspends the run.
  lemma RunIsLogged(c: Config, requireFor: set<string>, e: Event, k: nat)
    requires c.node.ExecuteTool? && e.Execute? && k < |c.state.requests| && k < |e.env|
    requires forall j | 0 <= j <= k :: !e.env[j].cancelled
    requires forall j | 0 <= j < k :: !e.env[j].outcome.Interrupts?
    requires Permitted(e.registry, c.state.approvals, c.state.requests[k])
    ensures var log := Step(c, requireFor, e).log;
      exists i :: |c.log| <= i < |log| && log[i].Executed? && log[i].call == c.state.requests[k].id && log[i].name == c.state.requests[k].name
  {
    BatchLogs(e.registry, c.state.approvals, c.state.requests, e.env, c.state.step, Progress(c.state.messages, [], c.log), k);
    assert Step(c, requireFor, e).log
        == LogAfter(ExecuteAll(e.registry, c.state.approvals, c.state.requests, e.env, c.state.step, Progress(c.state.messages, [], c.log)));
  }

  ghost predicate RunsIn(log: seq<Entry>, from: nat, c: Call) {
    exists i :: from <= i < |log| && log[i].Executed? && log[i].call == c.id && log[i].name == c.name
  }

  ghost function LogAfter(r: BatchResult): seq<Entry> {
    match r case Finished(q) => q.log case StoppedByUser(q) => q.log case Suspended(l) => l
  }

  lemma {:induction false} BatchLogs(registry: Registry, approvals: map<CallId, Approval>, calls: seq<Call>, env: seq<Attempt>,
                                     step: int, p: Progress, k: nat)
    requires k < |calls| && k < |env| && Permitted(registry, approvals, calls[k])
    requires (forall j | 0 <= j <= k :: !env[j].cancelled) && forall j | 0 <= j < k :: !env[j].outcome.Interrupts?
    ensures RunsIn(LogAfter(ExecuteAll(registry, approvals, calls, env, step, p)), |p.log|, calls[k])
  {
    var (next, log) := ExecuteOne(registry, approvals, calls[0], env[0].outcome, step, p);
    var all := LogAfter(ExecuteAll(registry, approvals, calls, env, step, p));
    if k > 0 {
      BatchLogs(registry, approvals, calls[1..], env[1..], step, next.value, k - 1);
      assert RunsIn(all, |next.value.log|, calls[k]);
    } else {
      if next.Some? {
        OnlyExecutionsAdded(registry, approvals, calls[1..], env[1..], step, next.value);
      }
      assert log <= all;
      assert all[|p.log|] == log[|p.log|];
    }
  }

  /// Conservation: every counted call has its reply.

  function ReplyCount(m: seq<Message>): nat {
    if m == [] then 0 else (if m[0].Reply? then 1 else 0) + ReplyCount(m[1..])
  }

  lemma {:induction false} RepliesAdd(a: seq<Message>, b: seq<Message>)
    ensures ReplyCount(a + b) == ReplyCount(a) + ReplyCount(b)
  {
    if a == [] {
      assert a + b == b;
    } else {
      assert (a + b)[1..] == a[1..] + b;
      RepliesAdd(a[1..], b);
    }
  }

  lemma {:induction false} OnlyReplies(m: seq<Message>)
    ensures (forall x | x in m :: x.Reply?) ==> ReplyCount(m) == |m|
    ensures Quiet(m) ==> ReplyCount(m) == 0
  {
    if m != [] {
      OnlyReplies(m[1..]);
      assert m[0] in m;
    }
  }

  ghost predicate Counted(c: Config, before: nat) {
    && (Open(c.state) && !c.node.LoadContext? ==> c.state.totalCalls == before + ReplyCount(c.state.messages))
    && (c.node.LoadContext? ==> c.state.totalCalls == before)
  }

  lemma StepKeepsCount(c: Config, requireFor: set<string>, e: Event, before: nat)
    requires Inv(c, requireFor) && Enabled(c, requireFor, e) && Counted(c, before)
    ensures Counted(Step(c, requireFor, e), before)
  {
    match e
    case Load(history, user) => OnlyReplies(Step(c, requireFor, e).state.messages);
    case Think(_, content, calls, _) => ThinkKeepsCount(c, e, before);
    case Execute(_, _, _) => BatchKeepsCount(c, requireFor, e, before);
    case Route(_, _, _) => RouteKeepsCount(c, requireFor, e, before);
    case Watch(_, _, _) => WatchKeepsCount(c, e, before);
    case _ =>
  }

  lemma RouteKeepsCount(c: Config, requireFor: set<string>, e: Event, before: nat)
    requires e.Route? && c.node.RouteDecision? && Counted(c, before)
    requires Terminal(c.state.status) || Open(c.state)
    ensures Counted(RouteStep(c, requireFor, e), before)
  {
  }

  lemma WatchKeepsCount(c: Config, e: Event, before: nat)
    requires e.Watch? && c.node.Observe? && Counted(c, before)
    requires c.state.status.Cancelled? ==> c.state.finalResponse.Some?
    ensures Counted(WatchStep(c, e), before)
  {
  }

  lemma ThinkKeepsCount(c: Config, e: Event, before: nat)
    requires e.Think? && c.node.Reason? && Counted(c, before)
    ensures Counted(ThinkStep(c, e), before)
  {
    RepliesAdd(c.state.messages, [Request(Text(e.content), e.calls)]);
    RepliesAdd(c.state.messages, [Plain("assistant", Text(e.content))]);
  }

  lemma BatchKeepsCount(c: Config, requireFor: set<string>, e: Event, before: nat)
    requires Inv(c, requireFor) && Enabled(c, requireFor, e) && Counted(c, before) && e.Execute?
    ensures Counted(Step(c, requireFor, e), before)
  {
    var s := c.state;
    var p0 := Progress(s.messages, [], c.log);
    var r := ExecuteAll(e.registry, s.approvals, s.requests, e.env, s.step, p0);
    if r.Finished? {
      assert s.requests[0..] == s.requests && s.requests[..0] == [] && s.messages[..|s.messages|] == s.messages && s.messages[|s.messages|..] == [];
      BatchKeepsLog(e.registry, s, 0, e.env, p0, p0);
      var replies := r.p.messages[|s.messages|..];
      assert s.requests[..|s.requests|] == s.requests && s.messages + replies == r.p.messages;
      RepliesAdd(s.messages, replies);
      OnlyReplies(replies);
    }
  }

  /** In every open configuration of a run the counted tool calls are the tool replies in the conversation. */
  lemma CallsAreCounted(c: Config, requireFor: set<string>, events: seq<Event>)
    requires Initial(c) && IsRun(c, requireFor, events) && Open(Run(c, requireFor, events).state)
    ensures Run(c, requireFor, events).state.totalCalls == c.state.totalCalls + ReplyCount(Run(c, requireFor, events).state.messages)
  {
    InvHoldsInitially(c, requireFor);
    OnlyReplies(c.state.messages);
    RunKeepsCount(c, requireFor, events, c.state.totalCalls);
    if Run(c, requireFor, events).node.LoadContext? {
      RunKeepsInv(c, requireFor, events);
      OnlyReplies(Run(c, requireFor, events).state.messages);
    }
  }

  lemma {:induction false} RunKeepsCount(c: Config, requireFor: set<string>, events: seq<Event>, before: nat)
    requires Inv(c, requireFor) && IsRun(c, requireFor, events) && Counted(c, before)
    ensures Counted(Run(c, requireFor, events), before)
    decreases |events|
  {
    if events != [] {
      StepKeepsCount(c, requireFor, events[0], before);
      InvIsKept(c, requireFor, events[0]);
      RunKeepsCount(Step(c, requireFor, events[0]), requireFor, events[1..], before);
    }
  }
}
