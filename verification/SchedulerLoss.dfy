/** A run of two ticks in which an occurrence gets no event although every lease is respected (app/events/scheduler.py:164-256). */
module SchedulerLoss {
  import opened Wrappers
  import opened EventStatus
  import opened EventBus
  import opened JobKeys
  import opened Scheduler
  import opened SchedulerLeases
  import opened SchedulerTick

  ghost predicate Leads(s: State, actions: seq<Action>, s': State) {
    IsRun(s, actions) && LeasedRun(s, actions) && Run(s, actions) == s'
  }

  ghost predicate Reaches(s: State, s': State) {
    exists actions :: Leads(s, actions, s')
  }

  lemma OneStep(s: State, a: Action, s': State)
    requires Enabled(s, a) && RespectsLease(s, a) && Reaches(Apply(s, a), s')
    ensures Reaches(s, s')
  {
    var actions :| Leads(Apply(s, a), actions, s');
    assert ([a] + actions)[1..] == actions;
    assert Leads(s, [a] + actions, s');
  }

  lemma {:induction false} RunsJoin(s: State, first: seq<Action>, s1: State, s2: State)
    requires Leads(s, first, s1) && Reaches(s1, s2)
    ensures Reaches(s, s2)
    decreases |first|
  {
    if first != [] {
      RunsJoin(Apply(s, first[0]), first[1..], s1, s2);
      OneStep(s, first[0], s2);
    }
  }

  // Only claims can offend against a lease, and claiming an unleased job does not.
  lemma {:induction false} WithoutClaimsIsLeased(s: State, actions: seq<Action>)
    requires IsRun(s, actions) && forall a | a in actions :: !a.Claim?
    ensures LeasedRun(s, actions)
    decreases |actions|
  {
    if actions != [] {
      assert actions[0] in actions;
      WithoutClaimsIsLeased(Apply(s, actions[0]), actions[1..]);
    }
  }

  lemma HandlingReaches(s: State, t: TickId, c: Context, j: JobId)
    requires Starts(s, t, c) && Fits(s.jobs, c, j) && s.jobs[j].lockedAt.None?
    ensures IsRun(s, Steps(s, t, c, j)) && Reaches(s, Run(s, Steps(s, t, c, j)))
  {
    HandleIsRun(s, t, c, j);
    var actions := Steps(s, t, c, j);
    assert actions[0] == Claim(t, j);
    WithoutClaimsIsLeased(Apply(s, actions[0]), actions[1..]);
    assert Leads(s, actions, Run(s, actions));
  }

  /// The story: a job due at 0 every second; one tick loads it at 0, another at 5 s; the first handles it, then the other.

  function DueAtOnce(): Job { Job(Every(Some(SECOND)), true, 0, None, None, None) }

  function Start(): State { State(0, map[], [], {}, map[], 0, {}) }

  function Loaded(j: JobId): State {
    State(5 * SECOND, map[j := DueAtOnce()], [], {}, map[0 := First(j), 1 := Late(j)], 2, {})
  }

  function First(j: JobId): Tick { Tick(0, map[j := DueAtOnce()], Between) }

  function Late(j: JobId): Tick { Tick(5 * SECOND, map[j := DueAtOnce()], Between) }

  lemma BeginLoads(s: State, j: JobId, job: Job)
    requires s.jobs == map[j := job] && Eligible(job, s.clock)
    ensures Enabled(s, Begin({j}))
    ensures Apply(s, Begin({j})) == s.(started := s.started + 1, ticks := s.ticks[s.started := Tick(s.clock, map[j := job], Between)])
  {
    var chosen := {j};
    assert (map x | x in chosen && x in s.jobs :: s.jobs[x]) == map[j := job];
  }

  lemma BothTicksLoad(j: JobId)
    ensures Reaches(Start(), Loaded(j))
  {
    var s1 := Start().(jobs := map[j := DueAtOnce()]);
    var s2 := s1.(ticks := map[0 := First(j)], started := 1);
    var s3 := s2.(clock := 5 * SECOND);
    assert Leads(Loaded(j), [], Loaded(j));
    BeginLoads(s3, j, DueAtOnce());
    assert s2.ticks[1 := Late(j)] == Loaded(j).ticks;
    OneStep(s3, Begin({j}), Loaded(j));
    OneStep(s2, Advance(5 * SECOND), Loaded(j));
    BeginLoads(s1, j, DueAtOnce());
    assert s1.ticks[0 := First(j)] == s2.ticks;
    OneStep(s1, Begin({j}), Loaded(j));
    OneStep(Start(), AddJob(j, DueAtOnce()), Loaded(j));
  }

  // What one tick does leaves the other ticks alone.
  predicate ActsFor(a: Action, t: TickId) {
    match a
    case Claim(x, _) => x == t
    case Check(x) => x == t
    case Postpone(x) => x == t
    case Publish(x, _, _) => x == t
    case Finish(x) => x == t
    case Crash(x) => x == t
    case _ => false
  }

  lemma {:induction false} OtherTicksStay(s: State, actions: seq<Action>, t: TickId, other: TickId)
    requires IsRun(s, actions) && other != t && other in s.ticks && forall a | a in actions :: ActsFor(a, t)
    ensures other in Run(s, actions).ticks && Run(s, actions).ticks[other] == s.ticks[other]
    ensures Run(s, actions).running == s.running
    decreases |actions|
  {
    if actions != [] {
      assert actions[0] in actions;
      OtherTicksStay(Apply(s, actions[0]), actions[1..], t, other);
    }
  }

  function ContextOf(j: JobId, t: TickId, now: nat): Context {
    Context(t, now, map[j := DueAtOnce()], {}, map[j := t], map[j := now])
  }

  function Published(j: JobId): Row { EventFor(0, j, 0, 0) }

  // The first tick publishes the event for second 0 and moves the job on to second 1.
  lemma FirstTickHandles(j: JobId) returns (s: State)
    ensures Reaches(Start(), s) && Starts(s, 1, ContextOf(j, 1, 5 * SECOND)) && s.rows == [Published(j)]
    ensures j in s.jobs && s.jobs[j] == DueAtOnce().(due := SECOND, lastRun := Some(0))
  {
    var c, s0 := ContextOf(j, 0, 0), Loaded(j);
    HandlingReaches(s0, 0, c, j);
    HandleIsRun(s0, 0, c, j);
    var actions := Steps(s0, 0, c, j);
    OtherTicksStay(s0, actions, 0, 1);
    s := Run(s0, actions);
    BothTicksLoad(j);
    ReachesJoin(Start(), s0, s);
  }

  lemma ReachesJoin(s: State, s1: State, s2: State)
    requires Reaches(s, s1) && Reaches(s1, s2)
    ensures Reaches(s, s2)
  {
    var first :| Leads(s, first, s1);
    RunsJoin(s, first, s1, s2);
  }

  ghost predicate Loses(j: JobId, s: State, s': State) {
    && Reaches(Start(), s) && j in s.jobs && s.jobs[j].due == SECOND
    && Reaches(s, s') && j in s'.jobs && s'.jobs[j].due == 6 * SECOND
    && !HasEvent(s'.rows, j, SECOND)
  }

  /** With all leases respected, an occurrence that was due is passed over without an event. */
  lemma LateTickLosesOccurrence(j: JobId)
    ensures exists s, s' :: Loses(j, s, s')
  {
    var s := FirstTickHandles(j);
    var c := ContextOf(j, 1, 5 * SECOND);
    HandlingReaches(s, 1, c, j);
    HandleIsRun(s, 1, c, j);
    var s' := Run(s, Steps(s, 1, c, j));
    LateHandling(s.jobs, s.rows, c, j);
    if KeyOf(j, 0) == KeyOf(j, 1) {
      KeyIsInjective(j, 0, j, 1);
    }
    assert Loses(j, s, s');
  }

  // The late tick finds the old key published and only moves the job on.
  lemma LateHandling(jobs: map<JobId, Job>, rows: seq<Row>, c: Context, j: JobId)
    requires rows == [Published(j)] && c == ContextOf(j, 1, 5 * SECOND)
    requires j in jobs && jobs[j] == DueAtOnce().(due := SECOND, lastRun := Some(0))
    ensures Fits(jobs, c, j) && Handle(jobs, rows, c, j).rows == rows && Handle(jobs, rows, c, j).jobs[j].due == 6 * SECOND
  {
    assert Event(c, j).key == Published(j).key;
    assert rows[0] == Published(j);
  }
}
