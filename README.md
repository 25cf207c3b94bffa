# Drone mission scheduler — a Dafny model

This project models the mission-scheduling core of a drone survey management
backend. It covers:

- **Trigger conversion.** A one-time mission's date, or a recurring mission's
  `recurrenceRule`, becomes a five-field cron expression (`Cron`, with the
  decimal rendering and field splitting in `Text`).
- **The scheduler** (`MissionScheduler`):
  - the process-wide registry of jobs keyed by mission id (`scheduledJobs`);
  - the notification sink, which stays silent until a socket is attached;
  - mission execution when a job fires. Execution moves the mission to
    `in-progress`, checks that at least one of its drones is `assigned`, runs the work unit,
    saves `completed` and releases the drones. Any error lands in the catch
    block, which emits `mission:error` and saves `aborted`.
- **The controller** (`MissionController`):
  - `createMission` admits a mission only when every listed drone is
    `available`, saves it, registers the right kind of job and marks the
    drones `assigned`;
  - `updateMissionStatus` answers 404 for an unknown id, and otherwise stores
    the status and releases the drones on `completed` or `aborted`;
  - every error `createMission` catches is answered with 500. This covers a
    failed lookup, a save refused by the schema or by a duplicate id, a
    scheduling error, and a failed assignment. The model's contract says in
    each case what was already written.

Shared records live in `Domain`: the status enumerations, the drone and
mission stores (maps that stand in for the database collections), the bulk
find and bulk update on the drone store, and the in-memory mission document.

Design of the model:

- **Parameters in place of events.** The work unit and the bulk release of
  drones can fail. How each ends is a parameter of execution (`Outcome`).
  `CreateMission` likewise takes how the gate's `Drone.find` ends and how the
  assigning `Drone.updateMany` ends. It also takes the request validator's
  verdict, the id a new document gets, and the schema's verdict on fields the
  model does not hold.
- **One trace.** Everything execution makes observable goes, in order, into
  one trace. The trace holds each emitted notification and each saved
  status. This is what lets the model state orderings, such as "error
  notification, then `aborted` saved".
- **Execution is specified twice.** `Execute` is a function of the drone
  store, the socket state and the two outcomes. The imperative
  `Scheduler.ExecuteMission` is proved to produce exactly what `Execute` says.
  The lemmas about `Execute` state termination, the saved statuses, the
  notifications and the drone release.
- **Cron expressions are strings**, as the scheduler builds them. `ParseCron`
  reads a string back into a field-by-field pattern, so each expression's
  meaning is proved through it.
- **Interval is always 1 in practice.** The Mission schema declares no
  `interval`, so a document built by `createMission` never has one. Every
  recurring job created through the controller therefore uses interval 1.
  Because the schema also enforces the frequency enumeration, the scheduling
  error after the save cannot happen through `createMission`: that path is
  modelled anyway, and `SchemaValidMissionSchedules` proves it is dead.

Behaviours of the code that a reader might expect to be otherwise, such as
"one live job per mission" or "status only moves forward". The model keeps
each of them as the code has it:

- **Re-registering does not stop the old job.** `scheduleOnTimeMission` and
  `scheduleRecurringMission` only overwrite the map entry: the old job keeps
  running, but it is no longer in the registry. `ScheduleOneTimeMission` states
  that the replaced job is not stopped.
- **Fired one-time jobs stay registered.** A one-time job is never removed
  from the registry after it fires: `Scheduler.Fire` does not touch the
  registry.
- **Status is not monotonic.** Execution sets `in-progress` whatever the
  mission's status was, including `completed` or `aborted`. And
  `updateMissionStatus` stores any string without checking it. The route
  declares `isMongoId` and `isIn` validators (src/routes/missionRoutes.js:27-33),
  but the handler never reads their result, and `findByIdAndUpdate` runs no
  schema validators.
- **On abort, drones are released on one path only.** An aborted execution
  leaves the drones as they were. An `aborted` status set through
  `updateMissionStatus` does release them.
- **A release failure leaves two saved statuses.** If releasing the drones
  fails after `completed` was saved, the mission is saved `completed`, then
  `aborted`.
- **A drone listed twice is refused.** A list that names a drone twice never
  passes the drone gate of `createMission`, even when that drone is available
  (`AdmissionGate`).

## Model

| member | source | states |
|---|---|---|
| Domain.MissionStatus.Name | src/models/Mission.js:24-28 | every status is stored as one of the four strings of the schema's enumeration |
| Domain.ParseMissionStatus | src/models/Mission.js:24-28 | a string reads back as a status exactly when it is in the enumeration, and then names that status |
| Domain.FindWithStatus | src/services/missionScheduler.js:89-92 | the bulk find returns exactly the stored, listed drones with the given status (its definition; what the drone gate makes of it is proved in `AdmissionGate`) |
| Domain.BulkSetStatus | src/services/missionScheduler.js:106-109 | the bulk update gives every stored listed drone the status, keeps every other drone, and creates no drone (its definition; assign-then-release is proved in `ReleaseUndoesAssignment`) |
| Domain.MissionDoc.Save | src/services/missionScheduler.js:82-83 | a new document is inserted whole; a stored one gets its new status and nothing else |
| Text.NatToString | src/services/missionScheduler.js:49 | an interpolated number renders as a non-empty run of digits without a leading zero |
| Text.ParseNatToString | src/services/missionScheduler.js:49 | reading a rendered number back gives that number |
| Text.FieldsJoin | src/services/missionScheduler.js:49 | splitting on single spaces undoes building an expression from space-free fields |
| Cron.ConvertToCronExpression | src/services/missionScheduler.js:48-50 | the one-time trigger: the date's minute, hour, day of month, month plus one and `*`, joined by single spaces (its definition; what it means is proved in `OneTimeTrigger`) |
| Cron.OneTimeTrigger | src/services/missionScheduler.js:48-50 | a one-time trigger has five fields: the date's minute, hour and day, its 0-based month plus one, and any weekday |
| Cron.IntervalOf | src/services/missionScheduler.js:54 | the interval is the rule's own, or 1 when it has none (its definition; its effect on the trigger is proved in `RecurringTrigger`) |
| Cron.GenerateRecurringCronExpression | src/services/missionScheduler.js:53-66 | an expression is produced exactly when the frequency is daily, weekly or monthly; otherwise the error "Invalid recurrence frequency" |
| Cron.RecurringPattern | src/services/missionScheduler.js:56-62 | the reference pattern: each frequency fires at 00:00, daily on every interval-th day, weekly on weekday = interval, monthly on day = interval (the generated expressions are tied to it by `RecurringTrigger`) |
| Cron.RecurringTrigger | src/services/missionScheduler.js:53-66 | a supported frequency's expression parses to exactly its frequency's pattern with the interval in use |
| Cron.RecurringDependsOnlyOnRule | src/services/missionScheduler.js:53-66 | two rules with the same frequency and interval give the same result |
| MissionScheduler.Emit | src/services/missionScheduler.js:12-31 | a notification is recorded exactly when a socket is attached, and otherwise nothing happens (its definition; the notifications of a whole execution are proved in `ExecutionNotifies`) |
| MissionScheduler.Notification.EventName | src/services/missionScheduler.js:16-28 | each payload's event name: `mission:in-progress`, `mission:completed` or `mission:error` (its definition; the names an execution emits are proved in `ExecutionNotifies`) |
| MissionScheduler.Execute | src/services/missionScheduler.js:79-121 | `executeMission` as a function of the drone store, the socket state and how the work unit and the release end: the new drone store, the trace it records and the final status (its definition; `Scheduler.ExecuteMission` is proved to produce exactly it, and its content is proved in `ExecutionTerminates`, `ExecutionReleasesDrones`, `ExecutionNotifies` and `ExecutionWithoutAssignedDrones`) |
| MissionScheduler.StartRecords | src/services/missionScheduler.js:82-85 | the first steps save `in-progress`, then emit `mission:in-progress` (when a socket is attached) |
| MissionScheduler.AbortRecords | src/services/missionScheduler.js:113-120 | the catch block emits `mission:error` with the error's message, then saves `aborted` |
| MissionScheduler.CompleteRecords | src/services/missionScheduler.js:101-120 | after the work unit: save `completed`, then emit `mission:completed`, or the catch block's records when the release fails |
| MissionScheduler.EarlyAbortRecord | src/services/missionScheduler.js:89-120 | a failure before the work unit finishes records in-progress, then the error, then aborted |
| MissionScheduler.LateRecord | src/services/missionScheduler.js:99-120 | once the work unit has finished, the record is in-progress, completed, then completion or error and aborted |
| MissionScheduler.ExecutionRecord | src/services/missionScheduler.js:79-121 | every execution's first record is the save of `in-progress`; its notifications and saved statuses are determined by the failure, if any |
| MissionScheduler.ExecutionTerminates | src/services/missionScheduler.js:79-121 | every execution ends completed or aborted, and ends completed exactly when some drone is assigned and nothing fails |
| MissionScheduler.ExecutionReleasesDrones | src/services/missionScheduler.js:105-109 | a completed execution makes every listed drone available, assigned or not; an aborted one changes no drone |
| MissionScheduler.ExecutionNotifies | src/services/missionScheduler.js:79-121 | with a socket, exactly in-progress then completed, or in-progress then error with the failure's message, each under its event name; without one, nothing |
| MissionScheduler.ExecutionWithoutAssignedDrones | src/services/missionScheduler.js:89-96 | with no listed drone assigned, the error emission comes before the final save of aborted, no drone changes, and nothing reports completion |
| MissionScheduler.Job.constructor | src/services/missionScheduler.js:127-137 | a new job holds its expression and its mission and is running |
| MissionScheduler.Job.Stop | src/services/missionScheduler.js:165 | after `stop()` the job is stopped, whatever its state before |
| MissionScheduler.Scheduler.constructor | src/services/missionScheduler.js:4-45 | the registry starts empty and no socket is attached |
| MissionScheduler.Scheduler.InitializeSocket | src/services/missionScheduler.js:7-9 | after it, notifications reach the socket |
| MissionScheduler.Scheduler.Notify | src/services/missionScheduler.js:12-31 | the trace grows by the notification exactly when a socket is attached |
| MissionScheduler.Scheduler.Persist | src/services/missionScheduler.js:83 | the mission store gets the document's status and the trace records the save |
| MissionScheduler.Scheduler.ExecuteMission | src/services/missionScheduler.js:79-121 | the new drone store, trace, document status and mission store are exactly those of the execution function |
| MissionScheduler.Scheduler.Start | src/services/missionScheduler.js:82-85 | the status becomes in-progress and is saved, then reported |
| MissionScheduler.Scheduler.Complete | src/services/missionScheduler.js:101-112 | completed is saved, the drones are released, and completion is reported; a failing release ends in the catch block |
| MissionScheduler.Scheduler.Abort | src/services/missionScheduler.js:113-120 | the error is reported, then aborted is saved |
| MissionScheduler.Scheduler.Fire | src/services/missionScheduler.js:129-135 | a stopped job does nothing; a running one performs exactly the execution of its mission |
| MissionScheduler.Scheduler.ScheduleOneTimeMission | src/services/missionScheduler.js:124-140 | a fresh running job for the date's trigger is registered under the mission id; other entries stay; a replaced job is not stopped |
| MissionScheduler.Scheduler.ScheduleRecurringMission | src/services/missionScheduler.js:143-159 | fails, leaving the registry unchanged, exactly when the frequency is unsupported; otherwise registers a fresh running job for the recurring trigger |
| MissionScheduler.Scheduler.CancelMission | src/services/missionScheduler.js:162-168 | the entry for the id, if any, is stopped and removed; every other entry stays, unchanged |
| MissionScheduler.CancelTwice | src/services/missionScheduler.js:162-168 | cancelling twice leaves the registry as cancelling once does |
| MissionController.KindOf | src/models/Mission.js:19-23 | the document's type, `one-time` when the request gives none (its definition; used by `TriggerFor` and `CreateMission`) |
| MissionController.StatusOf | src/models/Mission.js:24-28 | the document's status, `scheduled` when the request gives none (its definition; used by `SchemaValid` and `CreateMission`) |
| MissionController.SchemaValid | src/models/Mission.js:19-57 | the checks `save()` makes: the type, status and frequency enumerations, a frequency when recurring, and the other fields (its definition; `SchemaValidMissionSchedules` proves what it guarantees, and `CreateMission` answers 500 when it fails) |
| MissionController.DronesAdmitted | src/controllers/missionController.js:27-31 | the gate: as many available drones found as ids listed (its definition; `AdmissionGate` proves what it admits) |
| MissionController.DocumentRule | src/models/Mission.js:49-57 | the stored rule keeps the frequency and has no interval (its definition; the consequence, interval 1, is proved in `SchemaValidMissionSchedules`) |
| MissionController.TriggerFor | src/controllers/missionController.js:38-43 | a recurring mission gets the recurring trigger, any other type the one-time trigger (its definition; what the triggers mean is proved in `OneTimeTrigger` and `RecurringTrigger`) |
| MissionController.SchemaValidMissionSchedules | src/models/Mission.js:19-57 | a document that passes the schema can always be scheduled, and a recurring one uses interval 1 |
| MissionController.DistinctCardinality | src/controllers/missionController.js:27 | a list names as many drones as it has entries exactly when it repeats none |
| MissionController.AdmissionGate | src/controllers/missionController.js:20-31 | the drone gate admits a list exactly when it repeats no drone and every listed drone is stored and available |
| MissionController.CreatedMissionFindsItsDrones | src/controllers/missionController.js:45-48 | right after creation every listed drone is found assigned, so an execution fails only through its work unit or release, or for lack of drones when none is listed |
| MissionController.ReleaseUndoesAssignment | src/controllers/missionController.js:124-129 | releasing an admitted list after assigning it restores the drone store exactly |
| MissionController.CreateMission | src/controllers/missionController.js:8-59 | the reply in every case: 400 for an invalid request or refused drones; 500 when the lookup throws (no list, or a failed lookup); 500 when the schema or a duplicate id makes `save()` throw, with nothing written; 500 when scheduling throws, with the mission stored; 500 when the assignment throws, with the mission stored and its job registered; otherwise 201, with the record stored, one fresh job registered and the drones assigned |
| MissionController.UpdateMissionStatus | src/controllers/missionController.js:108-134 | 404 with nothing changed for an unknown id; otherwise the status is stored as given and the drones are released exactly on completed or aborted |
| MissionController.CreateAndRun | src/controllers/missionController.js:33-48 | a mission with drones, created and then run cleanly, ends completed, with the drone store as it was before creation |

## Left out

- Timers: when node-cron fires a job is not modelled. A firing is a call of `Scheduler.Fire`, made whenever the caller chooses.
- node-cron's own reading of an expression, and its validation of one, are not modelled. `ParseCron` reads only the three field shapes the scheduler writes.
- The five-second simulated work unit is not modelled: its outcome is a parameter. It always succeeds in the source.
- Console logging is left out, including the in-progress notification's log line, which says "completed successfully".
- The socket transport is left out; only whether a socket is attached is modelled.
- Concurrency is left out: interleaved executions, a cancel racing a firing, and the asynchronous awaits.
- JavaScript `Date` arithmetic and time zones are left out. A date is given by its local calendar fields.
- The express-validator rules are reduced to one verdict, `requestValid`.
- The schema checks on `organizationId`, `name` and `location` are reduced to one verdict, `otherFieldsValid`.
- A drone id that does not cast, and any database error of the gate's `Drone.find`, are reduced to one outcome, `lookup`.
- Failures of `save()` and of `Drone.find` inside execution are not modelled; only a failure of the bulk release is, and only as all-or-nothing.
- MissionScheduler.Execute: a failing release is modelled as changing no drone. An `updateMany` that fails after updating some drones is not modelled.
- MissionScheduler.ExecutionReleasesDrones: "an aborted execution changes no drone" holds for the model's all-or-nothing release, not for an `updateMany` that fails partway.
- In `createMission`, a failure of `save()` other than a schema error or a duplicate id is not modelled, such as a lost connection.
- MissionController.CreateMission: a failing assignment is modelled as changing no drone. An `updateMany` that fails after updating some drones is not modelled.
- In `updateMissionStatus`, cast errors for a malformed id and the 500 "Error updating mission" reply are not modelled. Neither is an absent `status` field.
- The `updatedAt` and `createdAt` timestamps are left out.
- `getMissions` and the other controllers are not part of this model.
- `interval` is modelled as a natural number. Negative, fractional or non-numeric intervals are not modelled, because documents reaching the scheduler never carry one.
- The error text in 500 replies (`error.message`) is not modelled; only the reply's status and message are.
