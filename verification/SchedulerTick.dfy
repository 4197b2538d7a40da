/** `PersistentScheduler.tick` itself: the loop over the candidate jobs of one tick (app/events/scheduler.py:147-256). */
module SchedulerTick {
  import opened Wrappers
  import opened EventStatus
  import opened EventBus
  import opened Scheduler

  // The tables after one candidate; `failed` when publishing raised, which ends the tick with the job still leased.
  datatype Outcome = Outcome(jobs: map<JobId, Job>, rows: seq<Row>, failed: bool)

  // What a tick reads and draws for itself: its clock, the loaded jobs, and an id and a time for the event of each job.
  datatype Context = Context(tag: TickId, now: nat, seen: map<JobId, Job>, running: set<nat>, ids: map<JobId, nat>, times: map<JobId, nat>)

  predicate Fits(jobs: map<JobId, Job>, c: Context, j: JobId) {
    j in jobs && j in c.seen && j in c.ids && j in c.times && c.seen[j].kind == jobs[j].kind
  }

  function Event(c: Context, j: JobId): Row
    requires j in c.seen && j in c.ids && j in c.times
  {
    EventFor(c.ids[j], j, c.seen[j].due, c.times[j])
  }

  function Handle(jobs: map<JobId, Job>, rows: seq<Row>, c: Context, j: JobId): (o: Outcome)
    requires Fits(jobs, c, j)
  {
    if !Eligible(jobs[j], c.now) then Outcome(jobs, rows, false)
    else if !jobs[j].kind.OneShot? && HasActiveExecution(c.seen[j], j, rows, c.running) then
      Outcome(jobs[j := PostponedJob(jobs[j], c.now)], rows, false)
    else if !Exists(rows, Event(c, j)) && Violates(rows, Event(c, j)) then
      Outcome(jobs[j := ClaimedJob(jobs[j], c.tag, c.now)], rows, true)
    else
      Outcome(jobs[j := FinishedJob(jobs[j], c.now)], Inserted(rows, Event(c, j)), false)
  }

  lemma HandleKeepsOthers(jobs: map<JobId, Job>, rows: seq<Row>, c: Context, j: JobId)
    requires Fits(jobs, c, j)
    ensures Handle(jobs, rows, c, j).jobs.Keys == jobs.Keys
    ensures forall k | k in jobs && k != j :: Handle(jobs, rows, c, j).jobs[k] == jobs[k]
    ensures Handle(jobs, rows, c, j).jobs[j].kind == jobs[j].kind
  {
  }

  lemma RestFits(o: Outcome, c: Context, candidates: seq<JobId>)
    requires candidates != [] && forall j | j in candidates :: Fits(o.jobs, c, j)
    ensures forall j | j in candidates[1..] :: Fits(Handle(o.jobs, o.rows, c, candidates[0]).jobs, c, j)
  {
    HandleKeepsOthers(o.jobs, o.rows, c, candidates[0]);
    forall j | j in candidates[1..] ensures Fits(Handle(o.jobs, o.rows, c, candidates[0]).jobs, c, j) {
      assert j in candidates && Fits(o.jobs, c, j);
    }
  }

  // One candidate after the other, until publishing fails.
  function HandleAll(o: Outcome, c: Context, candidates: seq<JobId>): Outcome
    requires forall j | j in candidates :: Fits(o.jobs, c, j)
    decreases |candidates|
  {
    if candidates == [] || o.failed then o
    else (
      RestFits(o, c, candidates);
      HandleAll(Handle(o.jobs, o.rows, c, candidates[0]), c, candidates[1..]))
  }

  class PersistentScheduler {
    var jobs: map<JobId, Job>
    const bus: Bus

    constructor (bus: Bus)
      ensures this.bus == bus && jobs == map[]
    {
      this.bus := bus;
      jobs := map[];
    }

    /** One iteration of the loop; other sessions are idle meanwhile. */
    method HandleCandidate(c: Context, j: JobId) returns (failed: bool)
      requires Sound(bus.rows) && Fits(jobs, c, j)
      modifies this, bus
      ensures Sound(bus.rows)
      ensures Outcome(jobs, bus.rows, failed) == Handle(old(jobs), old(bus.rows), c, j)
    {
      if !(jobs[j].active && jobs[j].due <= c.now && (jobs[j].lockedAt.None? || jobs[j].lockedAt.value + LEASE < c.now)) {
        return false;
      }
      jobs := jobs[j := jobs[j].(lockedAt := Some(c.now), lockedBy := Some(c.tag))];
      if !c.seen[j].kind.OneShot? && HasActiveExecution(c.seen[j], j, bus.rows, c.running) {
        var next := NextDue(c.seen[j].kind, c.now);
        jobs := jobs[j := jobs[j].(due := next, lockedAt := None, lockedBy := None)];
        return false;
      }
      assert bus.rows + [] == bus.rows;
      var published := bus.Publish(Event(c, j), []);
      if published.Err? {
        return true;
      }
      if c.seen[j].kind.OneShot? {
        jobs := jobs[j := jobs[j].(lastRun := Some(c.now), lockedAt := None, lockedBy := None, active := false)];
      } else {
        var next := NextDue(c.seen[j].kind, c.now);
        jobs := jobs[j := jobs[j].(lastRun := Some(c.now), lockedAt := None, lockedBy := None, due := next)];
      }
      return false;
    }

    method Tick(c: Context, candidates: seq<JobId>) returns (failed: bool)
      requires Sound(bus.rows) && forall j | j in candidates :: Fits(jobs, c, j)
      modifies this, bus
      ensures Sound(bus.rows)
      ensures Outcome(jobs, bus.rows, failed) == HandleAll(Outcome(old(jobs), old(bus.rows), false), c, candidates)
    {
      ghost var all := HandleAll(Outcome(jobs, bus.rows, false), c, candidates);
      failed := false;
      var i := 0;
      while i < |candidates| && !failed
        invariant 0 <= i <= |candidates|
        invariant Sound(bus.rows)
        invariant forall j | j in candidates[i..] :: Fits(jobs, c, j)
        invariant HandleAll(Outcome(jobs, bus.rows, failed), c, candidates[i..]) == all
      {
        RestFits(Outcome(jobs, bus.rows, false), c, candidates[i..]);
        assert candidates[i..][0] == candidates[i] && candidates[i..][1..] == candidates[i + 1..];
        failed := HandleCandidate(c, candidates[i]);
        i := i + 1;
      }
    }
  }

  /// The loop body is a run of the step system.

  function Steps(s: State, t: TickId, c: Context, j: JobId): seq<Action>
    requires Fits(s.jobs, c, j)
  {
    if !Eligible(s.jobs[j], c.now) then [Claim(t, j)]
    else if !s.jobs[j].kind.OneShot? && HasActiveExecution(c.seen[j], j, s.rows, c.running) then [Claim(t, j), Check(t), Postpone(t)]
    else if !Exists(s.rows, Event(c, j)) && Violates(s.rows, Event(c, j)) then [Claim(t, j), Check(t), Crash(t)]
    else [Claim(t, j), Check(t), Publish(t, c.ids[j], c.times[j]), Finish(t)]
  }

  ghost predicate Runs(s: State, actions: seq<Action>, s': State) {
    IsRun(s, actions) && Run(s, actions) == s'
  }

  lemma Prepend(s: State, a: Action, actions: seq<Action>, s': State)
    requires Enabled(s, a) && Runs(Apply(s, a), actions, s')
    ensures Runs(s, [a] + actions, s')
  {
    assert ([a] + actions)[1..] == actions;
  }

  ghost predicate Starts(s: State, t: TickId, c: Context) {
    t in s.ticks && s.ticks[t] == Tick(c.now, c.seen, Between) && c.tag == t && c.running == s.running
  }

  // The state in which the tick has claimed `j` and looked at its newest event.
  function AfterCheck(s: State, t: TickId, c: Context, j: JobId): State
    requires Starts(s, t, c) && Fits(s.jobs, c, j) && Eligible(s.jobs[j], c.now)
  {
    var busy := !s.jobs[j].kind.OneShot? && HasActiveExecution(c.seen[j], j, s.rows, s.running);
    s.(jobs := s.jobs[j := ClaimedJob(s.jobs[j], t, c.now)],
       ticks := s.ticks[t := Tick(c.now, c.seen, if busy then Busy(j) else Clear(j))])
  }

  lemma ClaimAndCheck(s: State, t: TickId, c: Context, j: JobId, actions: seq<Action>, s': State)
    requires Starts(s, t, c) && Fits(s.jobs, c, j) && Eligible(s.jobs[j], c.now)
    requires Runs(AfterCheck(s, t, c, j), actions, s')
    ensures Runs(s, [Claim(t, j)] + ([Check(t)] + actions), s')
  {
    var s1 := Apply(s, Claim(t, j));
    assert Apply(s1, Check(t)) == AfterCheck(s, t, c, j);
    Prepend(s1, Check(t), actions, s');
    Prepend(s, Claim(t, j), [Check(t)] + actions, s');
  }

  lemma LastStep(s: State, a: Action)
    requires Enabled(s, a)
    ensures Runs(s, [a], Apply(s, a))
  {
    assert [a] == [a] + [];
    Prepend(s, a, [], Apply(s, a));
  }

  lemma PublishAndFinish(s: State, t: TickId, c: Context, j: JobId)
    requires InPhase(s, t) && s.ticks[t] == Tick(c.now, c.seen, Clear(j)) && Fits(s.jobs, c, j)
    requires Exists(s.rows, Event(c, j)) || !Violates(s.rows, Event(c, j))
    ensures IsRun(s, [Publish(t, c.ids[j], c.times[j]), Finish(t)])
    ensures var s' := Run(s, [Publish(t, c.ids[j], c.times[j]), Finish(t)]);
      s'.jobs == s.jobs[j := FinishedJob(s.jobs[j], c.now)] && s'.rows == Inserted(s.rows, Event(c, j))
  {
    var publish := Publish(t, c.ids[j], c.times[j]);
    var s1 := Apply(s, publish);
    LastStep(s1, Finish(t));
    assert [publish, Finish(t)] == [publish] + [Finish(t)];
    Prepend(s, publish, [Finish(t)], Apply(s1, Finish(t)));
  }

  /** Handling a candidate is a run of the step system, so everything proved of all runs holds of the loop. */
  lemma HandleIsRun(s: State, t: TickId, c: Context, j: JobId)
    requires Starts(s, t, c) && Fits(s.jobs, c, j)
    ensures IsRun(s, Steps(s, t, c, j))
    ensures var s', o := Run(s, Steps(s, t, c, j)), Handle(s.jobs, s.rows, c, j); s'.jobs == o.jobs && s'.rows == o.rows
  {
    if !Eligible(s.jobs[j], c.now) {
      LastStep(s, Claim(t, j));
    } else {
      var s2 := AfterCheck(s, t, c, j);
      var last := Steps(s, t, c, j)[2..];
      assert Steps(s, t, c, j) == [Claim(t, j)] + ([Check(t)] + last);
      if s2.ticks[t].phase.Busy? {
        LastStep(s2, Postpone(t));
      } else if !Exists(s.rows, Event(c, j)) && Violates(s.rows, Event(c, j)) {
        LastStep(s2, Crash(t));
      } else {
        PublishAndFinish(s2, t, c, j);
      }
      ClaimAndCheck(s, t, c, j, last, Run(s2, last));
    }
  }

  /// What a tick that nobody disturbs achieves.

  // The next due time lies after the time of the tick.
  ghost predicate Strictly(kind: Kind) {
    kind.OneShot? || forall now: nat :: NextDue(kind, now) > now
  }

  lemma {:induction false} HandleAllTouchesOnlyCandidates(o: Outcome, c: Context, candidates: seq<JobId>, j: JobId)
    requires forall k | k in candidates :: Fits(o.jobs, c, k)
    requires j !in candidates && j in o.jobs
    ensures j in HandleAll(o, c, candidates).jobs && HandleAll(o, c, candidates).jobs[j] == o.jobs[j]
    decreases |candidates|
  {
    if candidates != [] && !o.failed {
      RestFits(o, c, candidates);
      HandleKeepsOthers(o.jobs, o.rows, c, candidates[0]);
      HandleAllTouchesOnlyCandidates(Handle(o.jobs, o.rows, c, candidates[0]), c, candidates[1..], j);
    }
  }

  /** A tick that publishes without error leaves no candidate due and none leased. */
  lemma {:induction false} TickHandlesEveryCandidate(o: Outcome, c: Context, candidates: seq<JobId>, j: JobId)
    requires forall k | k in candidates :: Fits(o.jobs, c, k) && Eligible(o.jobs[k], c.now) && Strictly(o.jobs[k].kind)
    requires forall i, k | 0 <= i < k < |candidates| :: candidates[i] != candidates[k]
    requires !HandleAll(o, c, candidates).failed && j in candidates
    ensures j in HandleAll(o, c, candidates).jobs
    ensures var job := HandleAll(o, c, candidates).jobs[j]; job.lockedAt.None? && (!job.active || job.due > c.now)
    decreases |candidates|
  {
    var next, rest := Handle(o.jobs, o.rows, c, candidates[0]), candidates[1..];
    RestFits(o, c, candidates);
    HandleKeepsOthers(o.jobs, o.rows, c, candidates[0]);
    assert forall k | k in rest :: k != candidates[0] && next.jobs[k] == o.jobs[k];
    if j in rest {
      TickHandlesEveryCandidate(next, c, rest, j);
    } else {
      HandleAllTouchesOnlyCandidates(next, c, rest, j);
    }
  }
}
