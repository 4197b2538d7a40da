/**
 What the scheduler promises as long as no live tick outlasts its lease: due times only move forward, and the check on
 the newest event keeps automation runs from overlapping (app/events/scheduler.py:107-145, 177-261).
 */
module SchedulerLeases {
  import opened Wrappers
  import opened EventStatus
  import opened EventBus
  import opened JobKeys
  import opened Scheduler

  // A stale lease is taken over only from a tick that is gone.
  ghost predicate RespectsLease(s: State, a: Action)
    requires Enabled(s, a)
  {
    a.Claim? && s.jobs[a.id].lockedAt.Some? && Eligible(s.jobs[a.id], s.ticks[a.tick].now) ==>
      forall t | t in s.ticks :: s.ticks[t].phase.Between? || s.ticks[t].phase.job != a.id
  }

  ghost predicate Owns(s: State, t: TickId)
    requires t in s.ticks
  {
    var tick := s.ticks[t];
    !tick.phase.Between? ==>
      (var j := tick.phase.job; j in s.jobs && s.jobs[j].lockedBy == Some(t) && s.jobs[j].lockedAt.Some? && s.jobs[j].due <= tick.now)
  }

  ghost predicate Exclusive(s: State) {
    forall t | t in s.ticks :: Owns(s, t)
  }

  lemma ExclusiveIsKept(s: State, a: Action)
    requires Inv(s) && Enabled(s, a) && Exclusive(s) && RespectsLease(s, a)
    ensures Exclusive(Apply(s, a))
  {
    var s' := Apply(s, a);
    forall t | t in s'.ticks ensures Owns(s', t) {
      if t in s.ticks {
        assert Owns(s, t);
      }
      if (a.Postpone? || a.Finish?) && a.tick in s.ticks {
        assert Owns(s, a.tick);
      }
    }
  }

  ghost predicate LeasedRun(s: State, actions: seq<Action>)
    requires IsRun(s, actions)
    decreases |actions|
  {
    actions != [] ==> RespectsLease(s, actions[0]) && LeasedRun(Apply(s, actions[0]), actions[1..])
  }

  /// Recurring jobs.

  // The due time is untouched or has moved to a later second.
  predicate Forward(job: Job, job': Job) {
    job'.kind == job.kind && (job'.due == job.due || job.due / SECOND < job'.due / SECOND)
  }

  lemma StepMovesForward(s: State, a: Action, j: JobId)
    requires Inv(s) && Enabled(s, a) && Exclusive(s) && j in s.jobs && Advancing(s.jobs[j].kind)
    ensures j in Apply(s, a).jobs && Forward(s.jobs[j], Apply(s, a).jobs[j])
  {
    if (a.Finish? || a.Postpone?) && s.ticks[a.tick].phase.job == j {
      assert Owns(s, a.tick);
      if !s.jobs[j].kind.OneShot? {
        NextDueIsLaterSecond(s.jobs[j].kind, s.jobs[j].due, s.ticks[a.tick].now);
      }
    }
  }

  /** Over any run that respects the leases a recurring job's due time never returns to a second it has left. */
  lemma {:induction false} RunMovesForward(s: State, actions: seq<Action>, j: JobId)
    requires Inv(s) && Exclusive(s) && IsRun(s, actions) && LeasedRun(s, actions) && j in s.jobs && Advancing(s.jobs[j].kind)
    ensures j in Run(s, actions).jobs && Run(s, actions).jobs[j].kind == s.jobs[j].kind
    ensures Run(s, actions).jobs[j].due == s.jobs[j].due || s.jobs[j].due / 1_000_000 < Run(s, actions).jobs[j].due / 1_000_000
    decreases |actions|
  {
    if actions != [] {
      StepMovesForward(s, actions[0], j);
      ExclusiveIsKept(s, actions[0]);
      InvIsKept(s, actions[0]);
      RunMovesForward(Apply(s, actions[0]), actions[1..], j);
    }
  }

  lemma HandlingMovesOn(s: State, a: Action, j: JobId)
    requires Inv(s) && Enabled(s, a) && Exclusive(s) && (a.Finish? || a.Postpone?) && s.ticks[a.tick].phase.job == j
    requires Advancing(s.jobs[j].kind) && !s.jobs[j].kind.OneShot?
    ensures s.jobs[j].due / SECOND < Apply(s, a).jobs[j].due / SECOND
  {
    assert Owns(s, a.tick);
    NextDueIsLaterSecond(s.jobs[j].kind, s.jobs[j].due, s.ticks[a.tick].now);
  }

  /** Two occurrences that are handled one after the other have different keys. */
  lemma OccurrencesHaveDifferentKeys(s: State, a: Action, actions: seq<Action>, j: JobId)
    requires Inv(s) && Enabled(s, a) && Exclusive(s) && RespectsLease(s, a)
    requires (a.Finish? || a.Postpone?) && s.ticks[a.tick].phase.job == j
    requires Advancing(s.jobs[j].kind) && !s.jobs[j].kind.OneShot?
    requires IsRun(Apply(s, a), actions) && LeasedRun(Apply(s, a), actions)
    ensures j in Run(Apply(s, a), actions).jobs
    ensures KeyOf(j, s.jobs[j].due / SECOND) != KeyOf(j, Run(Apply(s, a), actions).jobs[j].due / SECOND)
  {
    HandlingMovesOn(s, a, j);
    InvIsKept(s, a);
    ExclusiveIsKept(s, a);
    RunMovesForward(Apply(s, a), actions, j);
    var later := Run(Apply(s, a), actions).jobs[j].due;
    if KeyOf(j, s.jobs[j].due / SECOND) == KeyOf(j, later / SECOND) {
      KeyIsInjective(j, s.jobs[j].due / SECOND, j, later / SECOND);
    }
  }

  /** The occurrence being retired has its own event when the tick's copy of the job is current. */
  lemma FinishedOccurrenceHasEvent(s: State, t: TickId)
    requires Inv(s) && Enabled(s, Finish(t))
    requires var j := s.ticks[t].phase.job; s.ticks[t].seen[j].due == s.jobs[j].due
    ensures HasEvent(s.rows, s.ticks[t].phase.job, s.jobs[s.ticks[t].phase.job].due)
  {
    assert TickOk(s.clock, s.jobs, s.rows, s.ticks[t]);
  }

  /// Overlapping automation runs.

  // The assumptions: the scheduler alone triggers jobs, settled events stay settled, and event times of a job increase.
  ghost predicate Orderly(s: State, a: Action)
    requires Enabled(s, a)
  {
    && RespectsLease(s, a)
    && (a.Post? ==> !a.row.trigger)
    && (a.Progress? && s.rows[a.i].status !in {Pending, Processing, Failed} && !(s.rows[a.i].status.Processed? && s.rows[a.i].id in s.running) ==>
          a.status !in {Pending, Processing, Failed} && !(a.status.Processed? && a.active))
    && (a.Publish? ==> forall i | 0 <= i < |s.rows| && Triggers(s.rows[i], s.ticks[a.tick].phase.job) :: s.rows[i].occurredAt < a.at)
  }

  ghost predicate AllSettled(s: State, j: JobId) {
    forall i | 0 <= i < |s.rows| && Triggers(s.rows[i], j) :: !Unsettled(s.rows[i], s.running)
  }

  // Only the newest triggering event of a job can be unsettled.
  ghost predicate OnlyNewestUnsettled(s: State, j: JobId) {
    forall i, k | 0 <= i < |s.rows| && 0 <= k < |s.rows| && i != k ::
      (Triggers(s.rows[i], j) && Triggers(s.rows[k], j) && Unsettled(s.rows[i], s.running) ==> s.rows[k].occurredAt < s.rows[i].occurredAt)
  }

  ghost predicate ClearMeansSettled(s: State, t: TickId)
    requires t in s.ticks
  {
    s.ticks[t].phase.Clear? && s.ticks[t].phase.job in s.jobs && s.jobs[s.ticks[t].phase.job].kind.Automation? ==>
      AllSettled(s, s.ticks[t].phase.job)
  }

  ghost predicate NoOverlap(s: State) {
    && (forall i | 0 <= i < |s.rows| && s.rows[i].trigger :: s.rows[i].correlation in s.jobs)
    && (forall j | j in s.jobs && s.jobs[j].kind.Automation? :: OnlyNewestUnsettled(s, j))
    && (forall t | t in s.ticks :: ClearMeansSettled(s, t))
  }

  // The check looks at the newest event only, and that is enough.
  lemma NewestDecides(s: State, j: JobId)
    requires OnlyNewestUnsettled(s, j)
    requires Newest(s.rows, j).Some? ==> !Unsettled(Newest(s.rows, j).value, s.running)
    ensures AllSettled(s, j)
  {
    forall i | 0 <= i < |s.rows| && Triggers(s.rows[i], j) ensures !Unsettled(s.rows[i], s.running) {
      var newest := Newest(s.rows, j).value;
      assert s.rows[i] in s.rows && !After(s.rows[i], newest);
      var k :| 0 <= k < |s.rows| && s.rows[k] == newest;
    }
  }

  lemma ProgressKeepsNoOverlap(s: State, a: Action, j: JobId)
    requires Inv(s) && Enabled(s, a) && Orderly(s, a) && a.Progress?
    ensures OnlyNewestUnsettled(s, j) ==> OnlyNewestUnsettled(Apply(s, a), j)
    ensures AllSettled(s, j) ==> AllSettled(Apply(s, a), j)
  {
    var s' := Apply(s, a);
    forall i | 0 <= i < |s'.rows| && Unsettled(s'.rows[i], s'.running) ensures Unsettled(s.rows[i], s.running) {
      assert i != a.i ==> s.rows[i].id != s.rows[a.i].id;
    }
  }

  lemma PublishKeepsNoOverlap(s: State, a: Action)
    requires Inv(s) && Enabled(s, a) && Exclusive(s) && Orderly(s, a) && NoOverlap(s) && a.Publish?
    ensures NoOverlap(Apply(s, a))
  {
    var s', j := Apply(s, a), s.ticks[a.tick].phase.job;
    assert ClearMeansSettled(s, a.tick) && Owns(s, a.tick);
    forall t | t in s'.ticks ensures ClearMeansSettled(s', t) {
      assert Owns(s, t) && ClearMeansSettled(s, t);
    }
    forall k | k in s'.jobs && s'.jobs[k].kind.Automation? ensures OnlyNewestUnsettled(s', k) {
      assert OnlyNewestUnsettled(s, k);
    }
  }

  lemma OtherStepKeepsNewest(s: State, a: Action, j: JobId)
    requires Inv(s) && Enabled(s, a) && Orderly(s, a) && NoOverlap(s) && !a.Publish?
    requires j in Apply(s, a).jobs && Apply(s, a).jobs[j].kind.Automation?
    ensures OnlyNewestUnsettled(Apply(s, a), j)
  {
    assert j in s.jobs ==> OnlyNewestUnsettled(s, j);
    if a.Progress? {
      ProgressKeepsNoOverlap(s, a, j);
    }
  }

  lemma OtherStepKeepsClear(s: State, a: Action, t: TickId)
    requires Inv(s) && Enabled(s, a) && Orderly(s, a) && NoOverlap(s) && !a.Publish?
    requires t in Apply(s, a).ticks
    ensures ClearMeansSettled(Apply(s, a), t)
  {
    if t in s.ticks && Apply(s, a).ticks[t].phase.Clear? {
      assert ClearMeansSettled(s, t) && TickOk(s.clock, s.jobs, s.rows, s.ticks[t]);
      var j := Apply(s, a).ticks[t].phase.job;
      if a.Progress? {
        ProgressKeepsNoOverlap(s, a, j);
      } else if a.Check? && a.tick == t && s.jobs[j].kind.Automation? {
        assert OnlyNewestUnsettled(s, j);
        NewestDecides(s, j);
      }
    }
  }

  lemma NoOverlapIsKept(s: State, a: Action)
    requires Inv(s) && Enabled(s, a) && Exclusive(s) && Orderly(s, a) && NoOverlap(s)
    ensures NoOverlap(Apply(s, a))
  {
    if a.Publish? {
      PublishKeepsNoOverlap(s, a);
    } else {
      var s' := Apply(s, a);
      forall j | j in s'.jobs && s'.jobs[j].kind.Automation? ensures OnlyNewestUnsettled(s', j) {
        OtherStepKeepsNewest(s, a, j);
      }
      forall t | t in s'.ticks ensures ClearMeansSettled(s', t) {
        OtherStepKeepsClear(s, a, t);
      }
      StepKeeps(s, a);
    }
  }

  ghost predicate OrderlyRun(s: State, actions: seq<Action>)
    requires IsRun(s, actions)
    decreases |actions|
  {
    actions != [] ==> Orderly(s, actions[0]) && OrderlyRun(Apply(s, actions[0]), actions[1..])
  }

  lemma {:induction false} RunKeepsNoOverlap(s: State, actions: seq<Action>)
    requires Inv(s) && Exclusive(s) && NoOverlap(s) && IsRun(s, actions) && OrderlyRun(s, actions)
    ensures Inv(Run(s, actions)) && NoOverlap(Run(s, actions))
    decreases |actions|
  {
    if actions != [] {
      InvIsKept(s, actions[0]);
      ExclusiveIsKept(s, actions[0]);
      NoOverlapIsKept(s, actions[0]);
      RunKeepsNoOverlap(Apply(s, actions[0]), actions[1..]);
    }
  }

  /** In every reachable state at most one triggering event of an automation is unsettled. */
  lemma AtMostOneUnsettled(s: State, actions: seq<Action>, j: JobId, i: nat, k: nat)
    requires Initial(s) && IsRun(s, actions) && OrderlyRun(s, actions)
    requires var s' := Run(s, actions); j in s'.jobs && s'.jobs[j].kind.Automation? && i < |s'.rows| && k < |s'.rows|
    requires var s' := Run(s, actions); var r := s'.rows[i];
      r.trigger && r.correlation == j && (r.status in {Pending, Processing, Failed} || (r.status.Processed? && r.id in s'.running))
    requires var s' := Run(s, actions); var r := s'.rows[k];
      r.trigger && r.correlation == j && (r.status in {Pending, Processing, Failed} || (r.status.Processed? && r.id in s'.running))
    ensures i == k
  {
    RunKeepsNoOverlap(s, actions);
    assert OnlyNewestUnsettled(Run(s, actions), j);
  }

  /// Where the promises end.

  /** Publishing serves the occurrence that is due if and only if the tick's copy names the same second. */
  lemma PublishServesDueIff(s: State, t: TickId, event: nat, at: nat)
    requires Inv(s) && Enabled(s, Publish(t, event, at))
    requires !HasEvent(s.rows, s.ticks[t].phase.job, s.jobs[s.ticks[t].phase.job].due)
    ensures var j := s.ticks[t].phase.job;
      HasEvent(Apply(s, Publish(t, event, at)).rows, j, s.jobs[j].due) <==> s.ticks[t].seen[j].due / SECOND == s.jobs[j].due / SECOND
  {
    var j := s.ticks[t].phase.job;
    var seen, due, e := s.ticks[t].seen[j].due, s.jobs[j].due, NewEvent(s, t, event, at);
    var rows' := Inserted(s.rows, e);
    PublishLeavesEvent(s.jobs, s.rows, e, seen);
    if HasEvent(rows', j, due) {
      var i :| 0 <= i < |rows'| && EventOf(rows'[i], j, due);
      assert rows'[i] == e;
      KeyIsInjective(j, seen / SECOND, j, due / SECOND);
    }
    if seen / SECOND == due / SECOND {
      var i :| 0 <= i < |rows'| && EventOf(rows'[i], j, seen);
      assert EventOf(rows'[i], j, due);
    }
  }

  // A copy loaded before another tick finishes the job names an earlier second from then on: that occurrence would be lost.
  lemma FinishMakesCopiesStale(s: State, t: TickId, late: TickId)
    requires Inv(s) && Exclusive(s) && Enabled(s, Finish(t)) && late in s.ticks && late != t
    requires var j := s.ticks[t].phase.job;
      j in s.ticks[late].seen && s.ticks[late].seen[j].due == s.jobs[j].due && !s.jobs[j].kind.OneShot? && Advancing(s.jobs[j].kind)
    ensures var j, s' := s.ticks[t].phase.job, Apply(s, Finish(t));
      late in s'.ticks && s'.ticks[late].seen[j].due / SECOND < s'.jobs[j].due / SECOND
  {
    HandlingMovesOn(s, Finish(t), s.ticks[t].phase.job);
  }
}
