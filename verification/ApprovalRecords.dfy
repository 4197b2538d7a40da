/**
 Approval records of one run when several processes execute its node (app/orchestrator/nodes.py:758-776,
 app/approvals/service.py:22-50): each looks the record up and creates it only if it was not found, and may vanish anywhere.
 */
module ApprovalRecords {
  type CallId = nat
  type Executor = nat

  datatype Lookup = Lookup(call: CallId, found: bool)

  datatype State = State(records: seq<CallId>, looking: map<Executor, Lookup>)

  datatype Action = Look(x: Executor, call: CallId) | Create(x: Executor) | Vanish(x: Executor)

  predicate Enabled(s: State, a: Action) {
    match a
    case Look(x, _) => x !in s.looking
    case Create(x) => x in s.looking && !s.looking[x].found
    case Vanish(x) => x in s.looking
  }

  function Apply(s: State, a: Action): State
    requires Enabled(s, a)
  {
    match a
    case Look(x, call) => s.(looking := s.looking[x := Lookup(call, call in s.records)])
    case Create(x) => State(s.records + [s.looking[x].call], s.looking - {x})
    case Vanish(x) => s.(looking := s.looking - {x})
  }

  ghost predicate IsRun(s: State, actions: seq<Action>)
    decreases |actions|
  {
    actions == [] || (Enabled(s, actions[0]) && IsRun(Apply(s, actions[0]), actions[1..]))
  }

  ghost function Run(s: State, actions: seq<Action>): State
    requires IsRun(s, actions)
    decreases |actions|
  {
    if actions == [] then s else Run(Apply(s, actions[0]), actions[1..])
  }

  ghost predicate Distinct(records: seq<CallId>) {
    forall i, j | 0 <= i < j < |records| :: records[i] != records[j]
  }

  /// Executions one after the other.

  // Nobody looks up a call that someone else is between looking up and creating.
  ghost predicate Serial(s: State, actions: seq<Action>)
    requires IsRun(s, actions)
    decreases |actions|
  {
    actions != [] ==>
      (actions[0].Look? ==> forall y | y in s.looking :: s.looking[y].call != actions[0].call)
      && Serial(Apply(s, actions[0]), actions[1..])
  }

  ghost predicate Inv(s: State) {
    && Distinct(s.records)
    && (forall x | x in s.looking && !s.looking[x].found :: s.looking[x].call !in s.records)
    && (forall x, y | x in s.looking && y in s.looking && x != y :: s.looking[x].call != s.looking[y].call)
  }

  /** Executions that do not overlap create at most one record per call, wherever they are cut off and begun again. */
  lemma {:induction false} SerialRunsRecordOnce(s: State, actions: seq<Action>)
    requires Inv(s) && IsRun(s, actions) && Serial(s, actions)
    ensures Inv(Run(s, actions)) && Distinct(Run(s, actions).records)
    decreases |actions|
  {
    if actions != [] {
      SerialRunsRecordOnce(Apply(s, actions[0]), actions[1..]);
    }
  }

  /// Overlapping executions.

  // Someone creates a record for the call during these actions.
  ghost predicate Creates(s: State, actions: seq<Action>, call: CallId)
    requires IsRun(s, actions)
    decreases |actions|
  {
    actions != [] &&
    ((actions[0].Create? && s.looking[actions[0].x].call == call) || Creates(Apply(s, actions[0]), actions[1..], call))
  }

  lemma {:induction false} RecordedIff(s: State, actions: seq<Action>, call: CallId)
    requires IsRun(s, actions)
    ensures call in Run(s, actions).records <==> call in s.records || Creates(s, actions, call)
    decreases |actions|
  {
    if actions != [] {
      RecordedIff(Apply(s, actions[0]), actions[1..], call);
    }
  }

  ghost predicate KeepsLooking(actions: seq<Action>, x: Executor) {
    forall a | a in actions :: a.x != x
  }

  lemma {:induction false} LookupStays(s: State, actions: seq<Action>, x: Executor)
    requires IsRun(s, actions) && x in s.looking && KeepsLooking(actions, x)
    ensures x in Run(s, actions).looking && Run(s, actions).looking[x] == s.looking[x]
    decreases |actions|
  {
    if actions != [] {
      assert actions[0] in actions;
      LookupStays(Apply(s, actions[0]), actions[1..], x);
    }
  }

  /**
   An execution that looked a call up and found nothing creates a second record for it, if and only if another execution
   created one in between.
   */
  lemma SecondRecordIff(s: State, x: Executor, call: CallId, between: seq<Action>)
    requires x !in s.looking && call !in s.records
    requires IsRun(Apply(s, Look(x, call)), between) && KeepsLooking(between, x)
    ensures var s' := Run(Apply(s, Look(x, call)), between);
      Enabled(s', Create(x)) && (call in s'.records <==> Creates(Apply(s, Look(x, call)), between, call))
      && (Distinct(s'.records) ==> (Distinct(Apply(s', Create(x)).records) <==> !Creates(Apply(s, Look(x, call)), between, call)))
  {
    var s1 := Apply(s, Look(x, call));
    var s' := Run(s1, between);
    LookupStays(s1, between, x);
    RecordedIff(s1, between, call);
    if Distinct(s'.records) {
      AppendDistinctIff(s'.records, call);
    }
  }

  lemma AppendDistinctIff(records: seq<CallId>, call: CallId)
    requires Distinct(records)
    ensures Distinct(records + [call]) <==> call !in records
  {
    var all := records + [call];
    if call in records {
      var i :| 0 <= i < |records| && records[i] == call;
      assert all[i] == all[|records|];
    }
  }

  // Two processes on the same run, both before the creation: two records.
  lemma OverlappingExecutionsRecordTwice(call: CallId)
    ensures var actions := [Look(0, call), Look(1, call), Create(0), Create(1)];
      IsRun(State([], map[]), actions) && Run(State([], map[]), actions).records == [call, call]
  {
    var s0 := State([], map[]);
    var actions := [Look(0, call), Look(1, call), Create(0), Create(1)];
    var s1 := Apply(s0, actions[0]);
    var s2 := Apply(s1, actions[1]);
    var s3 := Apply(s2, actions[2]);
    assert actions[1..][1..] == [Create(0), Create(1)] && [Create(0), Create(1)][1..] == [Create(1)] && [Create(1)][1..] == [];
    assert IsRun(s3, [Create(1)]) && Run(s3, [Create(1)]).records == [call, call];
    assert IsRun(s2, [Create(0), Create(1)]) && Run(s2, [Create(0), Create(1)]).records == [call, call];
    assert actions[1..] == [Look(1, call), Create(0), Create(1)];
    assert IsRun(s1, actions[1..]) && Run(s1, actions[1..]).records == [call, call];
  }
}
