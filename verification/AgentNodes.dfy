/**
 The state of one agent run and what each node of app/orchestrator/nodes.py makes of it. The model, the tools,
 the human and the cancellation flag are inputs; a node that is interrupted commits nothing but its log.
 */
module AgentNodes {
  import opened Wrappers
  import opened ApprovalPolicy

  type CallId = nat

  datatype Call = Call(id: CallId, name: string, args: string)

  datatype Message =
    | Plain(role: string, content: string)                   // system, user, or an assistant answer
    | Request(content: string, calls: seq<Call>)             // an assistant turn that asks for tools
    | Reply(call: CallId, name: string, content: string)     // a tool message

  datatype ApprovalStatus = Auto | Approved | Edited | Rejected

  datatype Approval = Approval(status: ApprovalStatus, args: string)

  datatype Status = Running | Completed | Failed | Cancelled

  datatype ApprovalState = NoApproval | LastApproved | LastEdited | LastRejected

  datatype State = State(
    messages: seq<Message>,
    requests: seq<Call>,
    approvals: map<CallId, Approval>,
    approvalState: ApprovalState,
    status: Status,
    finalResponse: Option<string>,
    results: seq<bool>,              // success of each tool result of the last batch
    step: int,
    maxSteps: int,
    totalCalls: nat,
    maxCalls: int,
    failures: nat,
    maxFailures: int)

  // What happened outside the state: human decisions and tool executions, in order.
  datatype Entry =
    | Decided(step: int, shown: Call, call: CallId, name: string, verdict: ApprovalStatus, args: string)   // applied to `call`
    | Executed(step: int, call: CallId, name: string, args: string, gated: bool)

  predicate Terminal(s: Status) {
    s in {Cancelled, Completed, Failed}
  }

  /// `_cancellation_result`.

  // One row of the runs table: was a stop requested, and which run started this one.
  datatype RunRow = RunRow(cancelRequested: bool, parent: Option<nat>)

  ghost predicate IsAncestry(runs: map<nat, RunRow>, chain: seq<nat>, run: nat) {
    && |chain| > 0 && chain[0] == run
    && forall i | 0 <= i < |chain| - 1 :: chain[i] in runs && runs[chain[i]].parent == Some(chain[i + 1])
  }

  /** Some run on the parent chain asked to stop. */
  ghost predicate StopRequested(runs: map<nat, RunRow>, run: nat) {
    exists chain :: IsAncestry(runs, chain, run) && chain[|chain| - 1] in runs && runs[chain[|chain| - 1]].cancelRequested
  }

  ghost function Follower(chain: seq<nat>, current: Option<nat>, i: nat): Option<nat> {
    if i + 1 < |chain| then Some(chain[i + 1]) else current
  }

  method CancellationRequested(runs: map<nat, RunRow>, run: nat) returns (stop: bool)
    ensures stop <==> StopRequested(runs, run)
  {
    var current := Some(run);
    var visited: set<nat> := {};
    ghost var chain: seq<nat> := [];   // the runs visited, in order
    while current.Some? && current.value !in visited
      invariant forall x :: x in visited <==> x in chain
      invariant forall i | 0 <= i < |chain| :: chain[i] in runs && !runs[chain[i]].cancelRequested
      invariant forall i | 0 <= i < |chain| :: runs[chain[i]].parent == Follower(chain, current, i)
      invariant if chain == [] then current == Some(run) else chain[0] == run
      decreases runs.Keys - visited
    {
      var x := current.value;
      ChainExtends(runs, chain, x, run);
      if x !in runs {
        NoStopOn(runs, run, chain + [x]);
        return false;
      }
      visited := visited + {x};
      if runs[x].cancelRequested {
        assert (chain + [x])[|chain|] == x;
        return true;
      }
      chain := chain + [x];
      current := runs[x].parent;
    }
    if current.Some? {
      ChainExtends(runs, chain, current.value, run);
      assert (chain + [current.value])[..|chain|] == chain;
      NoStopOn(runs, run, chain + [current.value]);
    } else {
      assert runs[chain[|chain| - 1]].parent == None;
      NoStopOn(runs, run, chain);
    }
    return false;
  }

  lemma ChainExtends(runs: map<nat, RunRow>, chain: seq<nat>, x: nat, run: nat)
    requires forall i | 0 <= i < |chain| :: chain[i] in runs && runs[chain[i]].parent == Follower(chain, Some(x), i)
    requires if chain == [] then x == run else chain[0] == run
    ensures IsAncestry(runs, chain + [x], run)
  {
    var longer := chain + [x];
    forall i | 0 <= i < |longer| - 1 ensures longer[i] in runs && runs[longer[i]].parent == Some(longer[i + 1]) {
      assert longer[i] == chain[i] && Follower(chain, Some(x), i) == Some(longer[i + 1]);
    }
  }

  // A chain that visits only runs without a stop request and ends, leaves the table or repeats shows there is none.
  lemma NoStopOn(runs: map<nat, RunRow>, run: nat, chain: seq<nat>)
    requires IsAncestry(runs, chain, run)
    requires forall i | 0 <= i < |chain| - 1 :: !runs[chain[i]].cancelRequested
    requires var last := chain[|chain| - 1];
      || last !in runs
      || last in chain[..|chain| - 1]
      || (runs[last].parent == None && !runs[last].cancelRequested)
    ensures !StopRequested(runs, run)
  {
    forall other | IsAncestry(runs, other, run) && other[|other| - 1] in runs
      ensures !runs[other[|other| - 1]].cancelRequested
    {
      StaysOnChain(runs, run, chain, other, |other| - 1);
    }
  }

  lemma {:induction false} StaysOnChain(runs: map<nat, RunRow>, run: nat, chain: seq<nat>, other: seq<nat>, n: nat)
    requires IsAncestry(runs, chain, run) && IsAncestry(runs, other, run) && n < |other|
    requires var last := chain[|chain| - 1];
      || last !in runs
      || last in chain[..|chain| - 1]
      || runs[last].parent == None
    ensures other[n] in chain
  {
    if n > 0 {
      StaysOnChain(runs, run, chain, other, n - 1);
      var i :| 0 <= i < |chain| && chain[i] == other[n - 1];
      assert runs[other[n - 1]].parent == Some(other[n]);
      if i == |chain| - 1 {
        var k :| 0 <= k < i && chain[k] == chain[i];
        assert runs[chain[k]].parent == Some(chain[k + 1]);
      } else {
        assert runs[chain[i]].parent == Some(chain[i + 1]);
      }
    }
  }

  /// `route_decision_node` and `determine_next_route`.

  predicate NeedsApproval(registry: Registry, requireFor: set<string>, name: string) {
    name in requireFor || Gated(registry, name)
  }

  /** Every undecided call that needs no approval is authorised. */
  function MarkAutomatic(requests: seq<Call>, approvals: map<CallId, Approval>, registry: Registry, requireFor: set<string>)
    : map<CallId, Approval>
  {
    if requests == [] then approvals
    else
      var c := requests[0];
      var marked := if c.id !in approvals && !NeedsApproval(registry, requireFor, c.name)
                    then approvals[c.id := Approval(Auto, c.args)] else approvals;
      MarkAutomatic(requests[1..], marked, registry, requireFor)
  }

  function FirstUndecided(requests: seq<Call>, approvals: map<CallId, Approval>): Option<Call> {
    if requests == [] then None
    else if requests[0].id !in approvals then Some(requests[0])
    else FirstUndecided(requests[1..], approvals)
  }

  /** The call the node asks about, or applies a decision to. */
  function Target(requests: seq<Call>, approvals: map<CallId, Approval>, registry: Registry, requireFor: set<string>): Option<Call> {
    FirstUndecided(requests, MarkAutomatic(requests, approvals, registry, requireFor))
  }

  // The two passes of the node over the requested calls.
  method PrepareApprovals(requests: seq<Call>, approvals: map<CallId, Approval>, registry: Registry, requireFor: set<string>)
    returns (marked: map<CallId, Approval>, target: Option<Call>)
    ensures marked == MarkAutomatic(requests, approvals, registry, requireFor)
    ensures target == FirstUndecided(requests, marked)
  {
    marked := approvals;
    for i := 0 to |requests|
      invariant MarkAutomatic(requests[i..], marked, registry, requireFor) == MarkAutomatic(requests, approvals, registry, requireFor)
    {
      var c := requests[i];
      assert requests[i..][1..] == requests[i + 1..];
      if c.id !in marked && !NeedsApproval(registry, requireFor, c.name) {
        marked := marked[c.id := Approval(Auto, c.args)];
      }
    }
    for i := 0 to |requests|
      invariant FirstUndecided(requests[i..], marked) == FirstUndecided(requests, marked)
    {
      assert requests[i..][1..] == requests[i + 1..];
      if requests[i].id !in marked {
        return marked, Some(requests[i]);
      }
    }
    target := None;
  }

  // What the resumed interrupt carries; anything but a rejection or an edit counts as approval.
  datatype Resume = Resume(decision: string, editedInput: Option<string>)

  function Verdict(r: Resume): ApprovalStatus {
    if r.decision == "rejected" then Rejected else if r.decision == "edited" then Edited else Approved
  }

  function DecidedArgs(r: Resume, c: Call): string {
    if Verdict(r).Edited? && r.editedInput.Some? then r.editedInput.value else c.args
  }

  predicate AllRejected(requests: seq<Call>, approvals: map<CallId, Approval>) {
    forall c | c in requests :: c.id in approvals && approvals[c.id].status.Rejected?
  }

  function CancelledState(s: State): State {
    s.(status := Cancelled, requests := [], finalResponse := Some("Run cancelled."))
  }

  /** Records the human decision on the call `c`. */
  function Decide(s: State, marked: map<CallId, Approval>, c: Call, r: Resume): State {
    var approvals := marked[c.id := Approval(Verdict(r), DecidedArgs(r, c))];
    var decided := s.(approvals := approvals, status := Running,
                      approvalState := match Verdict(r) case Rejected => LastRejected case Edited => LastEdited case _ => LastApproved);
    if Verdict(r).Rejected? && AllRejected(s.requests, approvals) && |approvals| == |s.requests|
    then decided.(status := Cancelled, finalResponse := Some("Action was rejected by the user."))
    else decided
  }

  datatype Node = LoadContext | Reason | RouteDecision | ExecuteTool | Observe | UpdateMemory | End

  function NextRoute(s: State): Node {
    if Terminal(s.status) || s.requests == [] then UpdateMemory
    else if FirstUndecided(s.requests, s.approvals).Some? then RouteDecision
    else ExecuteTool
  }

  /// `execute_tool_node`.

  datatype Outcome = Succeeds(output: string) | Fails(error: string) | Interrupts

  // What the environment does around one call.
  datatype Attempt = Attempt(cancelled: bool, outcome: Outcome)

  datatype Progress = Progress(messages: seq<Message>, results: seq<bool>, log: seq<Entry>)

  datatype BatchResult = Finished(p: Progress) | StoppedByUser(p: Progress) | Suspended(log: seq<Entry>)

  function AuthorisedStatus(approvals: map<CallId, Approval>, id: CallId): bool {
    id in approvals && approvals[id].status in {Approved, Edited}
  }

  // A rejected call and a call nobody decided are refused with different categories.
  function Refusal(approvals: map<CallId, Approval>, id: CallId): string {
    if id in approvals && approvals[id].status.Rejected? then "Error (approval_rejection)" else "Error (permission_failure)"
  }

  function Answer(p: Progress, c: Call, success: bool, content: string): Progress {
    p.(messages := p.messages + [Reply(c.id, c.name, content)], results := p.results + [success])
  }

  /** One call: denied, unknown, or executed with the decided arguments. Nothing when the tool interrupts. */
  function ExecuteOne(registry: Registry, approvals: map<CallId, Approval>, c: Call, o: Outcome, step: int, p: Progress)
    : (Option<Progress>, seq<Entry>)
  {
    var gated := Gated(registry, c.name);
    if gated && !AuthorisedStatus(approvals, c.id) then
      (Some(Answer(p, c, false, Refusal(approvals, c.id))), p.log)
    else if c.name !in registry then
      (Some(Answer(p, c, false, "Error (tool_failure)")), p.log)
    else
      var input := if gated then approvals[c.id].args else c.args;
      var log := p.log + [Executed(step, c.id, c.name, input, gated)];
      match o
      case Interrupts => (None, log)
      case Succeeds(output) => (Some(Answer(p.(log := log), c, true, output)), log)
      case Fails(error) => (Some(Answer(p.(log := log), c, false, error)), log)
  }

  function ExecuteAll(registry: Registry, approvals: map<CallId, Approval>, calls: seq<Call>, env: seq<Attempt>, step: int, p: Progress)
    : BatchResult
  {
    if calls == [] then Finished(p)
    else if env == [] then Suspended(p.log)          // the process stopped between two calls
    else if env[0].cancelled then StoppedByUser(p)
    else
      var (next, log) := ExecuteOne(registry, approvals, calls[0], env[0].outcome, step, p);
      if next.None? then Suspended(log)
      else ExecuteAll(registry, approvals, calls[1..], env[1..], step, next.value)
  }

  method ExecuteTools(registry: Registry, approvals: map<CallId, Approval>, calls: seq<Call>, env: seq<Attempt>, step: int, start: Progress)
    returns (r: BatchResult)
    ensures r == ExecuteAll(registry, approvals, calls, env, step, start)
  {
    var p := start;
    for i := 0 to |calls|
      invariant i <= |env|
      invariant ExecuteAll(registry, approvals, calls[i..], env[i..], step, p) == ExecuteAll(registry, approvals, calls, env, step, start)
    {
      var c := calls[i];
      assert calls[i..][1..] == calls[i + 1..];
      if i == |env| {
        return Suspended(p.log);
      }
      assert env[i..][1..] == env[i + 1..];
      if env[i].cancelled {
        return StoppedByUser(p);
      }
      var gated := Gated(registry, c.name);
      if gated && !AuthorisedStatus(approvals, c.id) {
        p := Answer(p, c, false, Refusal(approvals, c.id));
        continue;
      }
      var input := if gated then approvals[c.id].args else c.args;
      if c.name !in registry {
        p := Answer(p, c, false, "Error (tool_failure)");
      } else {
        var log := p.log + [Executed(step, c.id, c.name, input, gated)];
        match env[i].outcome {
          case Interrupts => return Suspended(log);
          case Succeeds(output) => p := Answer(p.(log := log), c, true, output);
          case Fails(error) => p := Answer(p.(log := log), c, false, error);
        }
      }
    }
    return Finished(p);
  }

  /** The state after a batch that ran to its end. */
  function AfterBatch(s: State, p: Progress): State {
    s.(messages := p.messages, results := p.results, totalCalls := s.totalCalls + |s.requests|,
       failures := if p.results != [] && forall k | 0 <= k < |p.results| :: !p.results[k] then s.failures + 1 else 0)
  }

  /// `observe_node` and `determine_post_observe_route`.

  function ObserveState(s: State, late: bool): State {
    if late then s.(status := Failed, finalResponse := Some("deadline_exceeded"))
    else if s.failures >= s.maxFailures then s.(status := Failed, finalResponse := Some("consecutive_failures_exceeded"))
    else if s.totalCalls >= s.maxCalls then s.(status := Completed, finalResponse := Some("max_tool_calls_exceeded"))
    else if s.step >= s.maxSteps then s.(status := Completed, finalResponse := Some("max_steps_exceeded"))
    else s.(step := s.step + 1, requests := [], approvals := map[], approvalState := NoApproval)
  }

  function PostObserveRoute(s: State): Node {
    if s.finalResponse.Some? || Terminal(s.status) then UpdateMemory else Reason
  }
}
