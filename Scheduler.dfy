/**
 * The mission scheduler: the process-wide registry of scheduled jobs keyed by
 * mission id, the notification sink that is silent until a socket is
 * attached, and the execution of a mission when its job fires.
 *
 * Everything the scheduler makes observable is recorded, in order, in one
 * trace: each notification it emits and each mission status it saves.
 */
module MissionScheduler {
  import opened Domain
  import opened Cron

  const NoAvailableDrones: string := "No available drones for mission"
  const InProgressMessage: string := "Mission is in progress"
  const CompletedMessage: string := "Mission completed successfully"

  /** The payloads of the three socket events. */
  datatype Notification =
    | MissionInProgress(missionId: MissionId, message: string)
    | MissionCompleted(missionId: MissionId, message: string)
    | MissionError(missionId: MissionId, error: string)
  {
    /** The event name the notification is emitted under. */
    function EventName(): string {
      match this
      case MissionInProgress(_, _) => "mission:in-progress"
      case MissionCompleted(_, _) => "mission:completed"
      case MissionError(_, _) => "mission:error"
    }
  }

  datatype Event =
    | Emitted(notification: Notification)
    | Persisted(mission: MissionId, status: MissionStatus)

  /** What emitting `n` adds to the trace: nothing while no socket is attached. */
  function Emit(socketReady: bool, n: Notification): (e: seq<Event>)
    ensures socketReady ==> e == [Emitted(n)]
    ensures !socketReady ==> e == []
  {
    if socketReady then [Emitted(n)] else []
  }

  /** The notifications in a trace, in order. */
  function Notifications(trace: seq<Event>): seq<Notification>
    decreases |trace|
  {
    if trace == [] then []
    else (if trace[0].Emitted? then [trace[0].notification] else []) + Notifications(trace[1..])
  }

  /** The statuses saved in a trace, in order. */
  function SavedStatuses(trace: seq<Event>): seq<MissionStatus>
    decreases |trace|
  {
    if trace == [] then []
    else (if trace[0].Persisted? then [trace[0].status] else []) + SavedStatuses(trace[1..])
  }

  lemma {:induction false} NotificationsAppend(a: seq<Event>, b: seq<Event>)
    ensures Notifications(a + b) == Notifications(a) + Notifications(b)
    ensures SavedStatuses(a + b) == SavedStatuses(a) + SavedStatuses(b)
    decreases |a|
  {
    if a != [] {
      NotificationsAppend(a[1..], b);
      assert (a + b)[1..] == a[1..] + b;
    } else {
      assert a + b == b;
    }
  }

  /** The result of one execution: the new drone statuses, what it recorded, and the final status. */
  datatype Execution = Execution(drones: DroneStore, events: seq<Event>, final: MissionStatus)

  /**
   * The error that ends an execution in `aborted`, if any: no listed drone is
   * assigned, the work unit fails, or releasing the drones fails.
   */
  function FailureOf(drones: DroneStore, ids: seq<DroneId>, work: Outcome, release: Outcome): Option<string> {
    if FindWithStatus(drones, ids, Assigned) == {} then Some(NoAvailableDrones)
    else if work.Fail? then Some(work.error)
    else if release.Fail? then Some(release.error)
    else None
  }

  /**
   * `executeMission` on a mission with id `id` and drone list `ids`, given
   * the drone store, whether a socket is attached, how the work unit ends and
   * how the bulk release of the drones ends.
   */
  function Execute(drones: DroneStore, id: MissionId, ids: seq<DroneId>, socketReady: bool,
                   work: Outcome, release: Outcome): Execution
  {
    var start := StartEvents(socketReady, id);
    if FindWithStatus(drones, ids, Assigned) == {} then
      Execution(drones, start + AbortEvents(socketReady, id, NoAvailableDrones), Aborted)
    else if work.Fail? then
      Execution(drones, start + AbortEvents(socketReady, id, work.error), Aborted)
    else if release.Fail? then
      Execution(drones, start + CompleteEvents(socketReady, id, release), Aborted)
    else
      Execution(BulkSetStatus(drones, ids, Available), start + CompleteEvents(socketReady, id, release), Completed)
  }

  /** What the first steps of an execution record: the save of `in-progress`, then its notification. */
  function StartEvents(socketReady: bool, id: MissionId): seq<Event> {
    [Persisted(id, InProgress)] + Emit(socketReady, MissionInProgress(id, InProgressMessage))
  }

  /** What the catch block records: the error notification, then the save of `aborted`. */
  function AbortEvents(socketReady: bool, id: MissionId, error: string): seq<Event> {
    Emit(socketReady, MissionError(id, error)) + [Persisted(id, Aborted)]
  }

  /** What the steps after a successful work unit record, given how the release ends. */
  function CompleteEvents(socketReady: bool, id: MissionId, release: Outcome): seq<Event> {
    [Persisted(id, Completed)]
      + if release.Fail? then AbortEvents(socketReady, id, release.error)
        else Emit(socketReady, MissionCompleted(id, CompletedMessage))
  }

  lemma AppendAssoc<T>(a: seq<T>, b: seq<T>, c: seq<T>)
    ensures a + b + c == a + (b + c)
  {
  }

  lemma SingleEvent(ev: Event)
    ensures Notifications([ev]) == if ev.Emitted? then [ev.notification] else []
    ensures SavedStatuses([ev]) == if ev.Persisted? then [ev.status] else []
  {
    assert [ev][1..] == [];
  }

  lemma EmitRecords(socketReady: bool, n: Notification)
    ensures Notifications(Emit(socketReady, n)) == if socketReady then [n] else []
    ensures SavedStatuses(Emit(socketReady, n)) == []
  {
    if socketReady {
      SingleEvent(Emitted(n));
    }
  }

  lemma StartRecords(socketReady: bool, id: MissionId)
    ensures Notifications(StartEvents(socketReady, id)) ==
      if socketReady then [MissionInProgress(id, InProgressMessage)] else []
    ensures SavedStatuses(StartEvents(socketReady, id)) == [InProgress]
  {
    SingleEvent(Persisted(id, InProgress));
    EmitRecords(socketReady, MissionInProgress(id, InProgressMessage));
    NotificationsAppend([Persisted(id, InProgress)], Emit(socketReady, MissionInProgress(id, InProgressMessage)));
  }

  lemma AbortRecords(socketReady: bool, id: MissionId, error: string)
    ensures Notifications(AbortEvents(socketReady, id, error)) ==
      if socketReady then [MissionError(id, error)] else []
    ensures SavedStatuses(AbortEvents(socketReady, id, error)) == [Aborted]
  {
    SingleEvent(Persisted(id, Aborted));
    EmitRecords(socketReady, MissionError(id, error));
    NotificationsAppend(Emit(socketReady, MissionError(id, error)), [Persisted(id, Aborted)]);
  }

  lemma CompleteRecords(socketReady: bool, id: MissionId, release: Outcome)
    ensures Notifications(CompleteEvents(socketReady, id, release)) ==
      if !socketReady then []
      else if release.Fail? then [MissionError(id, release.error)]
      else [MissionCompleted(id, CompletedMessage)]
    ensures SavedStatuses(CompleteEvents(socketReady, id, release)) ==
      if release.Fail? then [Completed, Aborted] else [Completed]
  {
    SingleEvent(Persisted(id, Completed));
    var rest := if release.Fail? then AbortEvents(socketReady, id, release.error)
                else Emit(socketReady, MissionCompleted(id, CompletedMessage));
    if release.Fail? {
      AbortRecords(socketReady, id, release.error);
    } else {
      EmitRecords(socketReady, MissionCompleted(id, CompletedMessage));
    }
    NotificationsAppend([Persisted(id, Completed)], rest);
  }

  /** What an execution records when it throws before the work unit finishes. */
  lemma EarlyAbortRecord(drones: DroneStore, id: MissionId, ids: seq<DroneId>, socketReady: bool,
                         work: Outcome, release: Outcome, error: string)
    requires FailureOf(drones, ids, work, release) == Some(error)
    requires FindWithStatus(drones, ids, Assigned) == {} || work.Fail?
    ensures var r := Execute(drones, id, ids, socketReady, work, release);
      && r.events == StartEvents(socketReady, id) + AbortEvents(socketReady, id, error)
      && Notifications(r.events) ==
           (if socketReady then [MissionInProgress(id, InProgressMessage), MissionError(id, error)] else [])
      && SavedStatuses(r.events) == [InProgress, Aborted]
  {
    StartRecords(socketReady, id);
    AbortRecords(socketReady, id, error);
    NotificationsAppend(StartEvents(socketReady, id), AbortEvents(socketReady, id, error));
  }

  /** What an execution records once the work unit has finished. */
  lemma LateRecord(drones: DroneStore, id: MissionId, ids: seq<DroneId>, socketReady: bool,
                   work: Outcome, release: Outcome)
    requires FindWithStatus(drones, ids, Assigned) != {} && work.Pass?
    ensures var r := Execute(drones, id, ids, socketReady, work, release);
      && r.events == StartEvents(socketReady, id) + CompleteEvents(socketReady, id, release)
      && Notifications(r.events) ==
           (if !socketReady then []
            else if release.Fail? then [MissionInProgress(id, InProgressMessage), MissionError(id, release.error)]
            else [MissionInProgress(id, InProgressMessage), MissionCompleted(id, CompletedMessage)])
      && SavedStatuses(r.events) == (if release.Fail? then [InProgress, Completed, Aborted] else [InProgress, Completed])
  {
    StartRecords(socketReady, id);
    CompleteRecords(socketReady, id, release);
    NotificationsAppend(StartEvents(socketReady, id), CompleteEvents(socketReady, id, release));
  }

  /** How an execution's record splits into its first steps and the rest. */
  lemma ExecutionRecord(drones: DroneStore, id: MissionId, ids: seq<DroneId>, socketReady: bool,
                        work: Outcome, release: Outcome)
    ensures var r := Execute(drones, id, ids, socketReady, work, release);
      var failure := FailureOf(drones, ids, work, release);
      && r.events[0] == Persisted(id, InProgress)
      && Notifications(r.events) ==
           (if !socketReady then []
            else if failure.None? then [MissionInProgress(id, InProgressMessage), MissionCompleted(id, CompletedMessage)]
            else [MissionInProgress(id, InProgressMessage), MissionError(id, failure.value)])
      && SavedStatuses(r.events) ==
           (if failure.None? then [InProgress, Completed]
            else if FindWithStatus(drones, ids, Assigned) != {} && work.Pass? then [InProgress, Completed, Aborted]
            else [InProgress, Aborted])
  {
    if FindWithStatus(drones, ids, Assigned) == {} || work.Fail? {
      EarlyAbortRecord(drones, id, ids, socketReady, work, release, FailureOf(drones, ids, work, release).value);
    } else {
      LateRecord(drones, id, ids, socketReady, work, release);
    }
  }

  /**
   * Every execution ends `completed` or `aborted`, and ends `completed`
   * exactly when some listed drone is assigned and neither the work unit nor
   * the release fails. Its first act is to save `in-progress`, whatever
   * status the mission had; its saved statuses are `in-progress` then
   * `completed`, `in-progress` then `aborted`, or, when the release fails,
   * `in-progress`, `completed` and then `aborted`.
   */
  lemma ExecutionTerminates(drones: DroneStore, id: MissionId, ids: seq<DroneId>, socketReady: bool,
                            work: Outcome, release: Outcome)
    ensures var r := Execute(drones, id, ids, socketReady, work, release);
      && (r.final == Completed || r.final == Aborted)
      && (r.final == Completed <==> FailureOf(drones, ids, work, release).None?)
      && r.events[0] == Persisted(id, InProgress)
      && SavedStatuses(r.events) ==
           if r.final == Completed then [InProgress, Completed]
           else if FindWithStatus(drones, ids, Assigned) != {} && work.Pass? then [InProgress, Completed, Aborted]
           else [InProgress, Aborted]
  {
    ExecutionRecord(drones, id, ids, socketReady, work, release);
  }

  /**
   * A completed execution sets every listed drone to `available`, including
   * listed drones that were not assigned, and leaves every other drone as it
   * was; an aborted one changes no drone.
   */
  lemma ExecutionReleasesDrones(drones: DroneStore, id: MissionId, ids: seq<DroneId>, socketReady: bool,
                                work: Outcome, release: Outcome)
    ensures var r := Execute(drones, id, ids, socketReady, work, release);
      && r.drones.Keys == drones.Keys
      && (r.final == Aborted ==> r.drones == drones)
      && (r.final == Completed ==> forall d :: d in drones ==> r.drones[d] == if d in ids then Available else drones[d])
  {
  }

  /**
   * With a socket attached an execution emits `mission:in-progress` first and
   * then exactly one more notification: `mission:completed` when it
   * completes, otherwise `mission:error` carrying the failure's message; each
   * is emitted under its event name.
   * Without a socket it emits nothing.
   */
  lemma ExecutionNotifies(drones: DroneStore, id: MissionId, ids: seq<DroneId>, socketReady: bool,
                          work: Outcome, release: Outcome)
    ensures var r := Execute(drones, id, ids, socketReady, work, release);
      var failure := FailureOf(drones, ids, work, release);
      Notifications(r.events) ==
        if !socketReady then []
        else if r.final == Completed then [MissionInProgress(id, InProgressMessage), MissionCompleted(id, CompletedMessage)]
        else [MissionInProgress(id, InProgressMessage), MissionError(id, failure.value)]
    ensures var r := Execute(drones, id, ids, socketReady, work, release);
      socketReady ==>
        && |Notifications(r.events)| == 2
        && Notifications(r.events)[0].EventName() == "mission:in-progress"
        && Notifications(r.events)[1].EventName() ==
             if r.final == Completed then "mission:completed" else "mission:error"
  {
    ExecutionRecord(drones, id, ids, socketReady, work, release);
  }

  /**
   * When no listed drone is assigned the execution ends with the error
   * notification (when a socket is attached) and only then the save of
   * `aborted`; no drone changes and nothing reports completion.
   */
  lemma ExecutionWithoutAssignedDrones(drones: DroneStore, id: MissionId, ids: seq<DroneId>, socketReady: bool,
                                       work: Outcome, release: Outcome)
    requires FindWithStatus(drones, ids, Assigned) == {}
    ensures var r := Execute(drones, id, ids, socketReady, work, release);
      && r.final == Aborted
      && r.drones == drones
      && r.events[|r.events| - 1] == Persisted(id, Aborted)
      && (socketReady ==> r.events[|r.events| - 2] == Emitted(MissionError(id, NoAvailableDrones)))
      && MissionCompleted(id, CompletedMessage) !in Notifications(r.events)
  {
    ExecutionRecord(drones, id, ids, socketReady, work, release);
  }

  /** A job as `cron.schedule` returns it: its expression, the mission it runs, and whether it was stopped. */
  class Job {
    const expression: string
    const mission: MissionDoc
    var stopped: bool

    constructor (expression: string, mission: MissionDoc)
      ensures this.expression == expression && this.mission == mission && !stopped
    {
      this.expression := expression;
      this.mission := mission;
      stopped := false;
    }

    method Stop()
      modifies this
      ensures stopped
    {
      stopped := true;
    }
  }

  class Scheduler {
    /** `scheduledJobs`, keyed by `mission._id.toString()`. */
    var jobs: map<string, Job>
    /** Whether `initializeSocket` has attached a socket (`io` is set). */
    var socketReady: bool
    /** The notifications emitted and statuses saved so far. */
    var trace: seq<Event>

    /** Each entry is keyed by its mission's id, is running, and is a job of its own. */
    ghost predicate Valid()
      reads this, jobs.Values
    {
      && (forall k :: k in jobs ==> jobs[k].mission.id == k && !jobs[k].stopped)
      && (forall k1, k2 :: k1 in jobs && k2 in jobs && k1 != k2 ==> jobs[k1] != jobs[k2])
    }

    constructor ()
      ensures Valid() && jobs == map[] && !socketReady && trace == []
    {
      jobs := map[];
      socketReady := false;
      trace := [];
    }

    /** `initializeSocket`: from now on notifications reach the socket. */
    method InitializeSocket()
      modifies this`socketReady
      ensures socketReady
    {
      socketReady := true;
    }

    /** The notification service: a no-op while no socket is attached. */
    method Notify(n: Notification)
      modifies this`trace
      ensures trace == old(trace) + Emit(socketReady, n)
    {
      if socketReady {
        trace := trace + [Emitted(n)];
      }
    }

    /** `mission.save()` of the document's current status. */
    method Persist(mission: MissionDoc, db: Database)
      requires mission.id in db.missions
      modifies this`trace, db`missions
      ensures db.missions == old(db.missions)[mission.id := old(db.missions)[mission.id].(status := mission.status.Name())]
      ensures trace == old(trace) + [Persisted(mission.id, mission.status)]
    {
      mission.Save(db);
      trace := trace + [Persisted(mission.id, mission.status)];
    }

    /**
     * `executeMission`: the status goes to `in-progress` unconditionally, then
     * the run ends `completed` with the listed drones released or `aborted`
     * with an error notification; no failure escapes.
     */
    method ExecuteMission(mission: MissionDoc, db: Database, work: Outcome, release: Outcome)
      requires mission.id in db.missions
      modifies this`trace, mission, db
      ensures var r := Execute(old(db.drones), mission.id, mission.scheduledDrones, socketReady, work, release);
        && db.drones == r.drones
        && trace == old(trace) + r.events
        && mission.status == r.final
        && db.missions == old(db.missions)[mission.id := old(db.missions)[mission.id].(status := r.final.Name())]
    {
      ghost var trace0 := trace;
      ghost var start := StartEvents(socketReady, mission.id);
      Start(mission, db);
      var assignedDrones := FindWithStatus(db.drones, mission.scheduledDrones, Assigned);
      if assignedDrones == {} {
        Abort(mission, db, NoAvailableDrones);
        AppendAssoc(trace0, start, AbortEvents(socketReady, mission.id, NoAvailableDrones));
        return;
      }
      if work.Fail? {
        Abort(mission, db, work.error);
        AppendAssoc(trace0, start, AbortEvents(socketReady, mission.id, work.error));
        return;
      }
      ghost var trace1 := trace;
      Complete(mission, db, release);
      AppendAssoc(trace0, start, trace[|trace1|..]);
    }

    /** The first steps of `executeMission`: save `in-progress`, then report it. */
    method Start(mission: MissionDoc, db: Database)
      requires mission.id in db.missions
      modifies this`trace, mission, db`missions
      ensures mission.status == InProgress
      ensures trace == old(trace) + StartEvents(socketReady, mission.id)
      ensures db.missions == old(db.missions)[mission.id := old(db.missions)[mission.id].(status := InProgress.Name())]
    {
      mission.status := InProgress;
      Persist(mission, db);
      Notify(MissionInProgress(mission.id, InProgressMessage));
    }

    /**
     * The rest of the try block once the work unit has finished: save
     * `completed`, release every listed drone, report completion. A failing
     * release lands in the catch block after `completed` was saved.
     */
    method Complete(mission: MissionDoc, db: Database, release: Outcome)
      requires mission.id in db.missions
      modifies this`trace, mission, db
      ensures mission.status == if release.Fail? then Aborted else Completed
      ensures db.drones == if release.Fail? then old(db.drones)
                           else BulkSetStatus(old(db.drones), mission.scheduledDrones, Available)
      ensures trace == old(trace) + CompleteEvents(socketReady, mission.id, release)
      ensures db.missions == old(db.missions)[mission.id := old(db.missions)[mission.id].(status := mission.status.Name())]
    {
      mission.status := Completed;
      Persist(mission, db);
      if release.Fail? {
        Abort(mission, db, release.error);
        return;
      }
      db.drones := BulkSetStatus(db.drones, mission.scheduledDrones, Available);
      Notify(MissionCompleted(mission.id, CompletedMessage));
    }

    /**
     * The catch block of `executeMission`, where every error thrown inside it
     * lands: report the error, then save `aborted`.
     */
    method Abort(mission: MissionDoc, db: Database, error: string)
      requires mission.id in db.missions
      modifies this`trace, mission, db`missions
      ensures mission.status == Aborted
      ensures trace == old(trace) + AbortEvents(socketReady, mission.id, error)
      ensures db.missions == old(db.missions)[mission.id := old(db.missions)[mission.id].(status := Aborted.Name())]
    {
      Notify(MissionError(mission.id, error));
      mission.status := Aborted;
      Persist(mission, db);
    }

    /**
     * The cron callback of a job: runs the job's mission unless the job was
     * stopped; any failure is handled inside the execution.
     */
    method Fire(job: Job, db: Database, work: Outcome, release: Outcome)
      requires job.mission.id in db.missions
      modifies this`trace, job.mission, db
      ensures job.stopped ==> trace == old(trace) && unchanged(db, job.mission)
      ensures !job.stopped ==>
        var r := Execute(old(db.drones), job.mission.id, job.mission.scheduledDrones, socketReady, work, release);
        && db.drones == r.drones
        && trace == old(trace) + r.events
        && job.mission.status == r.final
        && db.missions == old(db.missions)[job.mission.id := old(db.missions)[job.mission.id].(status := r.final.Name())]
    {
      if !job.stopped {
        ExecuteMission(job.mission, db, work, release);
      }
    }

    /**
     * `scheduleOnTimeMission`: registers a new running job for the mission's
     * scheduled time under the mission's id. A job already registered under
     * that id is replaced but not stopped; every other entry stays.
     */
    method ScheduleOneTimeMission(mission: MissionDoc)
      requires Valid()
      modifies this`jobs
      ensures Valid()
      ensures jobs.Keys == old(jobs).Keys + {mission.id}
      ensures fresh(jobs[mission.id]) && jobs[mission.id].mission == mission
      ensures jobs[mission.id].expression == ConvertToCronExpression(mission.scheduledTime)
      ensures forall k :: k in old(jobs) && k != mission.id ==> jobs[k] == old(jobs)[k]
      ensures mission.id in old(jobs) ==> !old(jobs)[mission.id].stopped
    {
      var job := new Job(ConvertToCronExpression(mission.scheduledTime), mission);
      jobs := jobs[mission.id := job];
    }

    /**
     * `scheduleRecurringMission`: as `ScheduleOneTimeMission` with the
     * recurring expression, except that an unsupported frequency throws
     * before anything is registered.
     */
    method ScheduleRecurringMission(mission: MissionDoc) returns (outcome: Outcome)
      requires Valid()
      modifies this`jobs
      ensures Valid()
      ensures outcome.Fail? <==> GenerateRecurringCronExpression(mission.recurrenceRule).Failure?
      ensures outcome.Fail? ==> outcome.error == InvalidFrequency && jobs == old(jobs)
      ensures outcome.Pass? ==>
        && jobs.Keys == old(jobs).Keys + {mission.id}
        && fresh(jobs[mission.id]) && jobs[mission.id].mission == mission
        && jobs[mission.id].expression == GenerateRecurringCronExpression(mission.recurrenceRule).expression
        && (forall k :: k in old(jobs) && k != mission.id ==> jobs[k] == old(jobs)[k])
        && (mission.id in old(jobs) ==> !old(jobs)[mission.id].stopped)
    {
      var cronExpression := GenerateRecurringCronExpression(mission.recurrenceRule);
      if cronExpression.Failure? {
        return Fail(cronExpression.error);
      }
      var job := new Job(cronExpression.expression, mission);
      jobs := jobs[mission.id := job];
      outcome := Pass;
    }

    /**
     * `cancelMission`: stops and removes the job registered under the id, if
     * there is one; otherwise nothing happens. Other entries stay.
     */
    method CancelMission(missionId: string)
      requires Valid()
      modifies this`jobs, jobs.Values
      ensures Valid()
      ensures jobs == old(jobs) - {missionId}
      ensures missionId in old(jobs) ==> old(jobs)[missionId].stopped
      ensures forall j :: j in jobs.Values ==> unchanged(j)
    {
      if missionId in jobs {
        var job := jobs[missionId];
        job.Stop();
        jobs := jobs - {missionId};
      }
    }
  }

  /** Cancelling twice is the same as cancelling once. */
  method CancelTwice(s: Scheduler, missionId: string)
    requires s.Valid()
    modifies s`jobs, s.jobs.Values
    ensures s.Valid() && s.jobs == old(s.jobs) - {missionId}
  {
    s.CancelMission(missionId);
    ghost var once := s.jobs;
    s.CancelMission(missionId);
    assert s.jobs == once;
  }
}
