/**
 `PersistentScheduler.tick` as a step system: every commit of every tick is one step, ticks overlap freely, disappear
 at any commit, and take over stale leases (app/events/scheduler.py). Times are microseconds since the epoch.
 */
module Scheduler {
  import opened Wrappers
  import opened EventStatus
  import opened EventBus
  import opened JobKeys
  import Wall = AutomationSchedule
  import ZoneClock

  type JobId = string
  type TickId = nat

  const SECOND: nat := 1_000_000
  const LEASE: nat := 60_000_000

  // An interval is None when the stored expression is no number; an automation's schedule when it fails validation.
  datatype Kind =
    | OneShot
    | Every(interval: Option<nat>)
    | Automation(interval: Option<nat>, schedule: Option<Wall.Schedule>, zone: ZoneClock.Zone)

  datatype Job = Job(kind: Kind, active: bool, due: nat, lastRun: Option<nat>, lockedAt: Option<nat>, lockedBy: Option<TickId>)

  /** When a recurring job is due next after it was handled at `now`; anything malformed waits a minute. */
  function NextDue(kind: Kind, now: nat): (r: nat)
    requires !kind.OneShot?
    ensures r >= now
  {
    var fallback := now + 60 * SECOND;
    if kind.interval.None? then fallback
    else if kind.Every? then now + kind.interval.value
    else if kind.schedule.None? then fallback
    else (
      Wall.NextRunIsAhead(kind.schedule.value, kind.zone, now, kind.interval.value / SECOND);
      var next := Wall.NextRun(kind.schedule.value, kind.zone, now, kind.interval.value / SECOND);
      if next.Ok? then next.value else fallback)
  }

  // A recurring job is due an interval later; anything malformed waits a minute.
  lemma NextDueOfKind(kind: Kind, now: nat)
    requires !kind.OneShot?
    ensures kind.Every? && kind.interval.Some? ==> NextDue(kind, now) == now + kind.interval.value
    ensures kind.interval.None? || (kind.Automation? && kind.schedule.None?) ==> NextDue(kind, now) == now + 60_000_000
    ensures kind.Automation? && kind.interval.Some? && kind.schedule.Some? && kind.schedule.value.mode.Interval? ==>
      NextDue(kind, now) == now + kind.interval.value / 1_000_000 * 1_000_000
  {
    if kind.Automation? && kind.interval.Some? && kind.schedule.Some? {
      Wall.NextRunIsAhead(kind.schedule.value, kind.zone, now, kind.interval.value / SECOND);
    }
  }

  // An interval takes every due time into a later second if and only if it is at least one.
  lemma AdvancingIff(interval: nat)
    ensures Advancing(Every(Some(interval))) <==> forall now: nat :: now / 1_000_000 < NextDue(Every(Some(interval)), now) / 1_000_000
  {
    if interval < 1_000_000 {
      assert NextDue(Every(Some(interval)), 0) == interval;
    }
  }

  // Kinds whose next due time lies in a later second.
  ghost predicate Advancing(kind: Kind) {
    match kind
    case OneShot => true
    case Every(interval) => interval.Some? ==> interval.value >= SECOND
    case Automation(interval, schedule, zone) =>
      interval.Some? && schedule.Some? ==>
        if schedule.value.mode.Interval? then interval.value >= SECOND else ZoneClock.WellFormed(zone) && ZoneClock.WholeSeconds(zone)
  }

  lemma NextDueIsLaterSecond(kind: Kind, due: nat, now: nat)
    requires !kind.OneShot? && Advancing(kind) && due <= now
    ensures due / SECOND < NextDue(kind, now) / SECOND
  {
    if kind.Automation? && kind.interval.Some? && kind.schedule.Some? {
      Wall.NextRunIsAhead(kind.schedule.value, kind.zone, now, kind.interval.value / SECOND);
    }
  }

  /** However late its tick, a daily or weekly automation is next due at its earliest permitted occurrence after the tick. */
  lemma NextDueIsEarliest(kind: Kind, now: nat)
    requires kind.Automation? && kind.interval.Some? && kind.schedule.Some? && Wall.Valid(kind.schedule.value)
    requires !kind.schedule.value.mode.Interval? && ZoneClock.WellFormed(kind.zone) && Wall.Searchable(kind.zone)
    ensures exists d :: Wall.Earliest(kind.schedule.value, Wall.AlmanacOf(kind.schedule.value, kind.zone), now, d)
                     && NextDue(kind, now) == Wall.Occurrence(kind.schedule.value, kind.zone, d)
  {
    Wall.AlmanacIsReliable(kind.schedule.value, kind.zone);
    Wall.FirstDateIsEarliest(kind.schedule.value, Wall.AlmanacOf(kind.schedule.value, kind.zone), now);
  }

  datatype Phase =
    | Between
    | Claimed(job: JobId)
    | Busy(job: JobId)
    | Clear(job: JobId)
    | Published(job: JobId)

  // `now` is read once when the tick starts; `seen` is what its query loaded, which later commits do not refresh.
  datatype Tick = Tick(now: nat, seen: map<JobId, Job>, phase: Phase)

  datatype State = State(
    clock: nat,
    jobs: map<JobId, Job>,
    rows: seq<Row>,
    running: set<nat>,            // events whose run is running or waiting for a person
    ticks: map<TickId, Tick>,
    started: nat,
    cancelled: set<JobId>)        // history

  datatype Action =
    | Advance(to: nat)
    | AddJob(id: JobId, job: Job)
    | Cancel(id: JobId)
    | Post(row: Row)                                      // another publisher
    | Progress(i: nat, status: Status, active: bool)      // the outbox and the runs move on
    | Begin(chosen: set<JobId>)
    | Claim(tick: TickId, id: JobId)
    | Check(tick: TickId)
    | Postpone(tick: TickId)
    | Publish(tick: TickId, event: nat, at: nat)
    | Finish(tick: TickId)
    | Crash(tick: TickId)

  predicate Eligible(job: Job, now: nat) {
    job.active && job.due <= now && (job.lockedAt.Some? ==> job.lockedAt.value + LEASE < now)
  }

  predicate Triggers(r: Row, j: JobId) {
    r.trigger && r.correlation == j
  }

  predicate Unsettled(r: Row, running: set<nat>) {
    r.status in {Pending, Processing, Failed} || (r.status.Processed? && r.id in running)
  }

  predicate After(a: Row, b: Row) {
    a.occurredAt > b.occurredAt || (a.occurredAt == b.occurredAt && a.id > b.id)
  }

  /** The newest triggering event of a job, ties broken by id. */
  function Newest(rows: seq<Row>, j: JobId): (r: Option<Row>)
    ensures r.Some? ==> r.value in rows && Triggers(r.value, j)
    ensures forall x | x in rows && Triggers(x, j) :: r.Some? && !After(x, r.value)
  {
    if rows == [] then None
    else
      var rest := Newest(rows[1..], j);
      if Triggers(rows[0], j) && (rest.None? || After(rows[0], rest.value)) then Some(rows[0]) else rest
  }

  /** `has_active_automation_execution`. */
  predicate HasActiveExecution(job: Job, j: JobId, rows: seq<Row>, running: set<nat>) {
    job.kind.Automation? && Newest(rows, j).Some? && Unsettled(Newest(rows, j).value, running)
  }

  // The newest triggering event, the later id among those of one time, is unsettled: it waits, is at work, failed, or its run is active.
  lemma ActiveExecutionIff(job: Job, j: JobId, rows: seq<Row>, running: set<nat>)
    ensures HasActiveExecution(job, j, rows, running) <==> job.kind.Automation? && exists r ::
      && r in rows && r.trigger && r.correlation == j
      && (forall x | x in rows && x.trigger && x.correlation == j ::
            x.occurredAt < r.occurredAt || (x.occurredAt == r.occurredAt && x.id <= r.id))
      && (r.status == Pending || r.status == Processing || r.status == Failed || (r.status == Processed && r.id in running))
      && r == Newest(rows, j).value
  {
    var newest := Newest(rows, j);
    if newest.Some? {
      assert newest.value in rows && Triggers(newest.value, j);
      forall x | x in rows && Triggers(x, j)
        ensures x.occurredAt < newest.value.occurredAt || (x.occurredAt == newest.value.occurredAt && x.id <= newest.value.id)
      {
        assert !After(x, newest.value);
      }
    }
  }

  function EventFor(id: nat, j: JobId, due: nat, at: nat): Row {
    Row(id, Some(KeyOf(j, due / SECOND)), j, true, at, Pending)
  }

  // The event the tick is about to publish.
  function NewEvent(s: State, t: TickId, id: nat, at: nat): Row
    requires t in s.ticks && !s.ticks[t].phase.Between? && s.ticks[t].phase.job in s.ticks[t].seen
  {
    EventFor(id, s.ticks[t].phase.job, s.ticks[t].seen[s.ticks[t].phase.job].due, at)
  }

  predicate InPhase(s: State, t: TickId) {
    t in s.ticks && !s.ticks[t].phase.Between? && s.ticks[t].phase.job in s.ticks[t].seen && s.ticks[t].phase.job in s.jobs
  }

  predicate Enabled(s: State, a: Action) {
    match a
    case Advance(to) => to >= s.clock
    case AddJob(j, job) => j !in s.jobs && j !in s.cancelled && job.active && job.lockedAt.None?
    case Cancel(j) => j in s.jobs && s.jobs[j].active
    case Post(row) => row.key.Some? ==> !IsJobKey(row.key.value)
    case Progress(i, _, _) => i < |s.rows|
    case Begin(chosen) => forall j | j in chosen :: j in s.jobs && Eligible(s.jobs[j], s.clock)
    case Claim(t, j) => t in s.ticks && s.ticks[t].phase.Between? && j in s.ticks[t].seen && j in s.jobs
    case Check(t) => InPhase(s, t) && s.ticks[t].phase.Claimed?
    case Postpone(t) => InPhase(s, t) && s.ticks[t].phase.Busy? && !s.jobs[s.ticks[t].phase.job].kind.OneShot?
    case Publish(t, id, at) =>
      InPhase(s, t) && s.ticks[t].phase.Clear? && (Exists(s.rows, NewEvent(s, t, id, at)) || !Violates(s.rows, NewEvent(s, t, id, at)))
    case Finish(t) => InPhase(s, t) && s.ticks[t].phase.Published?
    case Crash(t) => t in s.ticks
  }

  /// The row updates of a tick.

  function ClaimedJob(job: Job, t: TickId, now: nat): Job {
    job.(lockedAt := Some(now), lockedBy := Some(t))
  }

  // A claim takes the job if and only if it is active and due and no lease of the last minute is on it.
  lemma ClaimTakesIff(s: State, t: TickId, j: JobId)
    requires Enabled(s, Claim(t, j))
    ensures var s', job, now := Apply(s, Claim(t, j)), s.jobs[j], s.ticks[t].now;
      && (s'.ticks[t].phase == Claimed(j) <==> job.active && job.due <= now && (job.lockedAt.Some? ==> job.lockedAt.value + 60_000_000 < now))
      && (s'.ticks[t].phase == Claimed(j) ==> s'.jobs == s.jobs[j := job.(lockedAt := Some(now), lockedBy := Some(t))])
      && (s'.ticks[t].phase != Claimed(j) ==> s'.jobs == s.jobs && j !in s'.ticks[t].seen)
  {
  }

  function PostponedJob(job: Job, now: nat): Job
    requires !job.kind.OneShot?
  {
    job.(due := NextDue(job.kind, now), lockedAt := None, lockedBy := None)
  }

  function FinishedJob(job: Job, now: nat): Job {
    var done := job.(lastRun := Some(now), lockedAt := None, lockedBy := None);
    if job.kind.OneShot? then done.(active := false) else done.(due := NextDue(job.kind, now))
  }

  function Apply(s: State, a: Action): State
    requires Enabled(s, a)
  {
    match a
    case Advance(to) => s.(clock := to)
    case AddJob(j, job) => s.(jobs := s.jobs[j := job])
    case Cancel(j) => s.(jobs := s.jobs[j := s.jobs[j].(active := false)], cancelled := s.cancelled + {j})
    case Post(row) => s.(rows := Inserted(s.rows, row))
    case Progress(i, status, active) =>
      s.(rows := s.rows[i := s.rows[i].(status := status)],
         running := if active then s.running + {s.rows[i].id} else s.running - {s.rows[i].id})
    case Begin(chosen) =>
      s.(started := s.started + 1, ticks := s.ticks[s.started := Tick(s.clock, map j | j in chosen && j in s.jobs :: s.jobs[j], Between)])
    case Claim(t, j) =>
      var tick := s.ticks[t];
      if Eligible(s.jobs[j], tick.now) then
        s.(jobs := s.jobs[j := ClaimedJob(s.jobs[j], t, tick.now)], ticks := s.ticks[t := tick.(phase := Claimed(j))])
      else s.(ticks := s.ticks[t := tick.(seen := tick.seen - {j})])
    case Check(t) =>
      var tick := s.ticks[t];
      var j := tick.phase.job;
      var busy := !tick.seen[j].kind.OneShot? && HasActiveExecution(tick.seen[j], j, s.rows, s.running);
      s.(ticks := s.ticks[t := tick.(phase := if busy then Busy(j) else Clear(j))])
    case Postpone(t) =>
      var j := s.ticks[t].phase.job;
      s.(jobs := s.jobs[j := PostponedJob(s.jobs[j], s.ticks[t].now)], ticks := s.ticks[t := Done(s.ticks[t])])
    case Publish(t, id, at) =>
      s.(rows := Inserted(s.rows, NewEvent(s, t, id, at)), ticks := s.ticks[t := s.ticks[t].(phase := Published(s.ticks[t].phase.job))])
    case Finish(t) =>
      var j := s.ticks[t].phase.job;
      s.(jobs := s.jobs[j := FinishedJob(s.jobs[j], s.ticks[t].now)], ticks := s.ticks[t := Done(s.ticks[t])])
    case Crash(t) => s.(ticks := s.ticks - {t})
  }

  function Done(t: Tick): Tick
    requires !t.phase.Between?
  {
    t.(seen := t.seen - {t.phase.job}, phase := Between)
  }

  ghost predicate Initial(s: State) {
    s.jobs == map[] && s.rows == [] && s.ticks == map[] && s.cancelled == {}
  }

  ghost predicate IsRun(s: State, actions: seq<Action>)
    decreases |actions|
  {
    actions == [] || (Enabled(s, actions[0]) && IsRun(Apply(s, actions[0]), actions[1..]))
  }

  ghost function Run(s: State, actions: seq<Action>): State
    requires IsRun(s, actions)
    decreases |actions|
  {
    if actions == [] then s else Run(Apply(s, actions[0]), actions[1..])
  }

  /// The invariant that needs no assumption on timing.

  ghost predicate EventOf(r: Row, j: JobId, due: nat) {
    r.key == Some(KeyOf(j, due / SECOND)) && r.correlation == j
  }

  ghost predicate HasEvent(rows: seq<Row>, j: JobId, due: nat) {
    exists i :: 0 <= i < |rows| && EventOf(rows[i], j, due)
  }

  ghost predicate SeenOk(jobs: map<JobId, Job>, now: nat, seen: Job, j: JobId) {
    j in jobs && seen.kind == jobs[j].kind && seen.due <= now && (seen.kind.OneShot? ==> seen.due == jobs[j].due)
  }

  ghost predicate TickOk(clock: nat, jobs: map<JobId, Job>, rows: seq<Row>, t: Tick) {
    && t.now <= clock
    && (forall j | j in t.seen :: SeenOk(jobs, t.now, t.seen[j], j))
    && (!t.phase.Between? ==> t.phase.job in t.seen)
    && (t.phase.Busy? ==> !t.seen[t.phase.job].kind.OneShot?)
    && (t.phase.Published? ==> HasEvent(rows, t.phase.job, t.seen[t.phase.job].due))
  }

  // A scheduler event carries the key of some second of its job, of the due second when the job fires once.
  ghost predicate RowOk(jobs: map<JobId, Job>, r: Row) {
    r.key.Some? && IsJobKey(r.key.value) ==> r.trigger && r.correlation in jobs && exists due: nat :: Fired(jobs[r.correlation], r, due)
  }

  ghost predicate Fired(job: Job, r: Row, due: nat) {
    EventOf(r, r.correlation, due) && (job.kind.OneShot? ==> due == job.due)
  }

  ghost predicate JobOk(rows: seq<Row>, cancelled: set<JobId>, j: JobId, job: Job) {
    job.kind.OneShot? && !job.active && j !in cancelled ==> HasEvent(rows, j, job.due)
  }

  ghost predicate Inv(s: State) {
    && Sound(s.rows)
    && (forall t | t in s.ticks :: t < s.started && TickOk(s.clock, s.jobs, s.rows, s.ticks[t]))
    && (forall i | 0 <= i < |s.rows| :: RowOk(s.jobs, s.rows[i]))
    && (forall j | j in s.jobs :: JobOk(s.rows, s.cancelled, j, s.jobs[j]))
  }

  // What every step preserves about jobs and rows already there.
  ghost predicate JobKept(job: Job, job': Job) {
    job'.kind == job.kind && (job.kind.OneShot? ==> job'.due == job.due)
  }

  ghost predicate RowsKept(rows: seq<Row>, rows': seq<Row>) {
    |rows| <= |rows'| && forall i | 0 <= i < |rows| :: RowKept(rows[i], rows'[i])
  }

  ghost predicate RowKept(r: Row, r': Row) {
    r' == r.(status := r'.status)
  }

  lemma StepKeeps(s: State, a: Action)
    requires Inv(s) && Enabled(s, a)
    ensures RowsKept(s.rows, Apply(s, a).rows) && Sound(Apply(s, a).rows)
    ensures s.jobs.Keys <= Apply(s, a).jobs.Keys && forall j | j in s.jobs :: JobKept(s.jobs[j], Apply(s, a).jobs[j])
  {
    StepKeepsRows(s, a);
    StepKeepsJobs(s, a);
  }

  lemma StepKeepsRows(s: State, a: Action)
    requires Inv(s) && Enabled(s, a)
    ensures RowsKept(s.rows, Apply(s, a).rows) && Sound(Apply(s, a).rows)
  {
    match a
    case Post(row) => PublishOnlyAppends(s.rows, row);
    case Publish(t, id, at) => PublishOnlyAppends(s.rows, NewEvent(s, t, id, at));
    case _ =>
  }

  lemma StepKeepsJobs(s: State, a: Action)
    requires Inv(s) && Enabled(s, a)
    ensures s.jobs.Keys <= Apply(s, a).jobs.Keys && forall j | j in s.jobs :: JobKept(s.jobs[j], Apply(s, a).jobs[j])
  {
  }

  lemma EventsStay(rows: seq<Row>, rows': seq<Row>, j: JobId, due: nat)
    requires RowsKept(rows, rows') && HasEvent(rows, j, due)
    ensures HasEvent(rows', j, due)
  {
    var i :| 0 <= i < |rows| && EventOf(rows[i], j, due);
    assert RowKept(rows[i], rows'[i]);
    assert EventOf(rows'[i], j, due);
  }

  lemma RowStaysOk(jobs: map<JobId, Job>, jobs': map<JobId, Job>, r: Row, r': Row)
    requires RowOk(jobs, r) && RowKept(r, r') && jobs.Keys <= jobs'.Keys
    requires forall j | j in jobs :: JobKept(jobs[j], jobs'[j])
    ensures RowOk(jobs', r')
  {
    if r.key.Some? && IsJobKey(r.key.value) {
      var due: nat :| Fired(jobs[r.correlation], r, due);
      assert JobKept(jobs[r.correlation], jobs'[r.correlation]);
      assert Fired(jobs'[r.correlation], r', due);
    }
  }

  lemma TickStaysOk(s: State, s': State, t: TickId)
    requires t in s.ticks && TickOk(s.clock, s.jobs, s.rows, s.ticks[t]) && s.clock <= s'.clock
    requires RowsKept(s.rows, s'.rows) && s.jobs.Keys <= s'.jobs.Keys
    requires forall j | j in s.jobs :: JobKept(s.jobs[j], s'.jobs[j])
    ensures TickOk(s'.clock, s'.jobs, s'.rows, s.ticks[t])
  {
    var tick := s.ticks[t];
    if tick.phase.Published? {
      EventsStay(s.rows, s'.rows, tick.phase.job, tick.seen[tick.phase.job].due);
    }
    forall j | j in tick.seen ensures SeenOk(s'.jobs, tick.now, tick.seen[j], j) {
      assert SeenOk(s.jobs, tick.now, tick.seen[j], j) && JobKept(s.jobs[j], s'.jobs[j]);
    }
  }

  // Publishing leaves the job with an event for the second the tick saw.
  lemma PublishLeavesEvent(jobs: map<JobId, Job>, rows: seq<Row>, e: Row, due: nat)
    requires EventOf(e, e.correlation, due) && (Exists(rows, e) || !Violates(rows, e))
    requires forall i | 0 <= i < |rows| :: RowOk(jobs, rows[i])
    ensures HasEvent(Inserted(rows, e), e.correlation, due)
  {
    if Exists(rows, e) {
      var r := Lookup(rows, e.key.value).value;
      var i :| 0 <= i < |rows| && rows[i] == r;
      assert RowOk(jobs, rows[i]);
      assert IsJobKey(e.key.value);
      var d: nat :| Fired(jobs[r.correlation], r, d);
      KeyIsInjective(e.correlation, due / SECOND, r.correlation, d / SECOND);
      assert EventOf(rows[i], e.correlation, due);
    } else {
      var rows' := Inserted(rows, e);
      assert rows'[|rows|] == e;
    }
  }

  lemma NewRowOk(s: State, a: Action)
    requires Inv(s) && Enabled(s, a) && |Apply(s, a).rows| > |s.rows|
    ensures RowOk(Apply(s, a).jobs, Apply(s, a).rows[|s.rows|]) && |Apply(s, a).rows| == |s.rows| + 1
  {
    if a.Publish? {
      var e := NewEvent(s, a.tick, a.event, a.at);
      assert SeenOk(s.jobs, s.ticks[a.tick].now, s.ticks[a.tick].seen[e.correlation], e.correlation);
      assert Fired(s.jobs[e.correlation], e, s.ticks[a.tick].seen[e.correlation].due);
    }
  }

  lemma RowsStayOk(s: State, a: Action)
    requires Inv(s) && Enabled(s, a)
    ensures forall i | 0 <= i < |Apply(s, a).rows| :: RowOk(Apply(s, a).jobs, Apply(s, a).rows[i])
  {
    var s' := Apply(s, a);
    StepKeeps(s, a);
    forall i | 0 <= i < |s'.rows| ensures RowOk(s'.jobs, s'.rows[i]) {
      if i < |s.rows| {
        assert RowKept(s.rows[i], s'.rows[i]);
        RowStaysOk(s.jobs, s'.jobs, s.rows[i], s'.rows[i]);
      } else {
        NewRowOk(s, a);
      }
    }
  }

  lemma TicksStayOk(s: State, a: Action)
    requires Inv(s) && Enabled(s, a)
    ensures forall t | t in Apply(s, a).ticks ::
      t < Apply(s, a).started && TickOk(Apply(s, a).clock, Apply(s, a).jobs, Apply(s, a).rows, Apply(s, a).ticks[t])
  {
    var s' := Apply(s, a);
    StepKeeps(s, a);
    forall t | t in s'.ticks ensures t < s'.started && TickOk(s'.clock, s'.jobs, s'.rows, s'.ticks[t]) {
      if t in s.ticks {
        TickStaysOk(s, s', t);
        if s'.ticks[t] != s.ticks[t] && a.Publish? {
          var tick := s.ticks[t];
          PublishLeavesEvent(s.jobs, s.rows, NewEvent(s, t, a.event, a.at), tick.seen[tick.phase.job].due);
        }
      }
    }
  }

  lemma JobsStayOk(s: State, a: Action)
    requires Inv(s) && Enabled(s, a)
    ensures forall j | j in Apply(s, a).jobs :: JobOk(Apply(s, a).rows, Apply(s, a).cancelled, j, Apply(s, a).jobs[j])
  {
    var s' := Apply(s, a);
    StepKeeps(s, a);
    forall j | j in s'.jobs ensures JobOk(s'.rows, s'.cancelled, j, s'.jobs[j]) {
      if j in s.jobs && HasEvent(s.rows, j, s.jobs[j].due) {
        assert JobKept(s.jobs[j], s'.jobs[j]);
        if s'.jobs[j].kind.OneShot? {
          EventsStay(s.rows, s'.rows, j, s.jobs[j].due);
        }
      } else if a.Finish? && s.ticks[a.tick].phase.job == j {
        assert SeenOk(s.jobs, s.ticks[a.tick].now, s.ticks[a.tick].seen[j], j);
      }
    }
  }

  lemma InvIsKept(s: State, a: Action)
    requires Inv(s) && Enabled(s, a)
    ensures Inv(Apply(s, a))
  {
    StepKeeps(s, a);
    RowsStayOk(s, a);
    TicksStayOk(s, a);
    JobsStayOk(s, a);
  }

  lemma {:induction false} RunKeepsInv(s: State, actions: seq<Action>)
    requires Inv(s) && IsRun(s, actions)
    ensures Inv(Run(s, actions))
    decreases |actions|
  {
    if actions != [] {
      InvIsKept(s, actions[0]);
      RunKeepsInv(Apply(s, actions[0]), actions[1..]);
    }
  }

  /// Jobs that are done with.

  // The job is off, or the tick, if it still runs, will not take it up again.
  ghost predicate Off(s: State, j: JobId) {
    j in s.jobs && !s.jobs[j].active
  }

  ghost predicate PutAside(s: State, t: TickId, j: JobId) {
    t < s.started && (t in s.ticks ==> j !in s.ticks[t].seen)
  }

  lemma {:induction false} DoneStaysDone(s: State, actions: seq<Action>, t: TickId, j: JobId)
    requires IsRun(s, actions)
    ensures Off(s, j) ==> Off(Run(s, actions), j)
    ensures PutAside(s, t, j) ==> PutAside(Run(s, actions), t, j)
    decreases |actions|
  {
    if actions != [] {
      DoneStaysDone(Apply(s, actions[0]), actions[1..], t, j);
    }
  }

  /** A cancelled job stays off: whatever happens afterwards, no claim takes it. */
  lemma CancelledJobIsNotTaken(s: State, j: JobId, actions: seq<Action>, t: TickId)
    requires Enabled(s, Cancel(j)) && IsRun(Apply(s, Cancel(j)), actions)
    ensures var s' := Run(Apply(s, Cancel(j)), actions);
      && j in s'.jobs && !s'.jobs[j].active
      && (Enabled(s', Claim(t, j)) ==> Apply(s', Claim(t, j)).ticks[t].phase != Claimed(j) && Apply(s', Claim(t, j)).jobs == s'.jobs)
  {
    DoneStaysDone(Apply(s, Cancel(j)), actions, t, j);
    if Enabled(Run(Apply(s, Cancel(j)), actions), Claim(t, j)) {
      ClaimTakesIff(Run(Apply(s, Cancel(j)), actions), t, j);
    }
  }

  /** A tick handles a job once: after finishing or postponing it, it never claims it again. */
  lemma TickHandlesJobOnce(s: State, a: Action, actions: seq<Action>)
    requires Inv(s) && Enabled(s, a) && (a.Finish? || a.Postpone?) && IsRun(Apply(s, a), actions)
    ensures !Enabled(Run(Apply(s, a), actions), Claim(a.tick, s.ticks[a.tick].phase.job))
  {
    DoneStaysDone(Apply(s, a), actions, a.tick, s.ticks[a.tick].phase.job);
  }

  /// What holds over every interleaving.

  /** At most one event row exists per job and due second. */
  lemma OneEventPerDueSecond(s: State, actions: seq<Action>, j: JobId, due: nat, due': nat, i: nat, k: nat)
    requires Initial(s) && IsRun(s, actions) && i < |Run(s, actions).rows| && k < |Run(s, actions).rows|
    requires EventOf(Run(s, actions).rows[i], j, due) && EventOf(Run(s, actions).rows[k], j, due') && due / SECOND == due' / SECOND
    ensures i == k
  {
    RunKeepsInv(s, actions);
    var rows := Run(s, actions).rows;
    assert SameKey(rows[i], rows[k]) && SameKey(rows[k], rows[i]);
  }

  /** A one-shot job never yields two events. */
  lemma OneShotFiresOnce(s: State, actions: seq<Action>, j: JobId, due: nat, due': nat, i: nat, k: nat)
    requires Initial(s) && IsRun(s, actions) && i < |Run(s, actions).rows| && k < |Run(s, actions).rows|
    requires j in Run(s, actions).jobs && Run(s, actions).jobs[j].kind.OneShot?
    requires EventOf(Run(s, actions).rows[i], j, due) && EventOf(Run(s, actions).rows[k], j, due')
    ensures i == k
  {
    RunKeepsInv(s, actions);
    var s' := Run(s, actions);
    assert RowOk(s'.jobs, s'.rows[i]) && RowOk(s'.jobs, s'.rows[k]);
    assert IsJobKey(KeyOf(j, due / SECOND)) && IsJobKey(KeyOf(j, due' / SECOND));
    var d: nat :| Fired(s'.jobs[j], s'.rows[i], d);
    var d': nat :| Fired(s'.jobs[j], s'.rows[k], d');
    assert SameKey(s'.rows[i], s'.rows[k]) && SameKey(s'.rows[k], s'.rows[i]);
  }

  /** A one-shot job that is no longer active, and that nobody cancelled, has its event. */
  lemma RetiredOneShotHasEvent(s: State, actions: seq<Action>, j: JobId)
    requires Initial(s) && IsRun(s, actions) && j in Run(s, actions).jobs
    requires var job := Run(s, actions).jobs[j]; job.kind.OneShot? && !job.active && j !in Run(s, actions).cancelled
    ensures HasEvent(Run(s, actions).rows, j, Run(s, actions).jobs[j].due)
  {
    RunKeepsInv(s, actions);
  }
}
