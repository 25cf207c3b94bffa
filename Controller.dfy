/**
 * The mission controller's two handlers that reserve and release drones:
 * creating a mission (admission only when every listed drone is available,
 * then scheduling and assignment) and updating a mission's status (release of
 * its drones on `completed` or `aborted`). Requests and responses are
 * abstracted into inputs and a reply with an HTTP status code.
 */
module MissionController {
  import opened Domain
  import opened Cron
  import opened MissionScheduler

  const NotAvailableMessage: string := "One or more selected drones are not available"
  const CreatedMessage: string := "Mission created successfully"
  const CreateErrorMessage: string := "Error creating mission"
  const NotFoundMessage: string := "Mission not found"
  const UpdatedMessage: string := "Mission status updated"

  /** A reply body: the validator's error list, or a message. */
  datatype Body = ValidationErrors | Message(text: string)

  datatype Reply = Reply(status: int, body: Body)

  /**
   * The body of a create request, as far as the handler and the Mission
   * schema look at it; an absent field is `None`. `otherFieldsValid` is the
   * schema's verdict on the fields the model does not hold (`organizationId`,
   * `name`, `location`).
   */
  datatype MissionData = MissionData(
    kind: Option<string>,
    status: Option<string>,
    scheduledTime: CalendarTime,
    recurrenceRule: RecurrenceRule,
    scheduledDrones: Option<seq<DroneId>>,
    otherFieldsValid: bool)

  /** The document's type: the schema's default is `one-time`. */
  function KindOf(data: MissionData): string {
    match data.kind
    case None => "one-time"
    case Some(k) => k
  }

  /** The document's status: the schema's default is `scheduled`. */
  function StatusOf(data: MissionData): string {
    match data.status
    case None => "scheduled"
    case Some(s) => s
  }

  /** The document's recurrence rule: the schema keeps `frequency` and drops `interval`. */
  function DocumentRule(data: MissionData): (rule: RecurrenceRule)
    ensures rule.frequency == data.recurrenceRule.frequency && rule.interval.None?
  {
    RecurrenceRule(data.recurrenceRule.frequency, None)
  }

  /**
   * The checks `save()` makes: the `type`, `status` and
   * `recurrenceRule.frequency` enumerations, a frequency is required when the
   * type is `recurring`, and the checks on the other fields pass.
   */
  predicate SchemaValid(data: MissionData) {
    && data.otherFieldsValid
    && KindOf(data) in MissionTypeNames
    && StatusOf(data) in MissionStatusNames
    && (data.recurrenceRule.frequency.Some? ==> data.recurrenceRule.frequency.value in FrequencyNames)
    && (KindOf(data) == "recurring" ==> data.recurrenceRule.frequency.Some?)
  }

  /** The record a created mission is stored as. */
  function NewRecord(data: MissionData, ids: seq<DroneId>): MissionRecord {
    MissionRecord(KindOf(data), StatusOf(data), data.scheduledTime, DocumentRule(data), ids)
  }

  /** The expression a created mission is scheduled with, when it can be built. */
  function TriggerFor(data: MissionData): (r: Cron.Result)
    ensures KindOf(data) != "recurring" ==> r == Success(ConvertToCronExpression(data.scheduledTime))
    ensures KindOf(data) == "recurring" ==> r == GenerateRecurringCronExpression(DocumentRule(data))
  {
    if KindOf(data) == "recurring" then GenerateRecurringCronExpression(DocumentRule(data))
    else Success(ConvertToCronExpression(data.scheduledTime))
  }

  /**
   * A mission that passes the schema can always be scheduled, and a
   * recurring one always uses interval 1, because the schema never keeps an
   * interval.
   */
  lemma SchemaValidMissionSchedules(data: MissionData)
    requires SchemaValid(data)
    ensures TriggerFor(data).Success?
    ensures KindOf(data) == "recurring" ==> IntervalOf(DocumentRule(data)) == 1
  {
  }

  predicate Distinct(ids: seq<DroneId>) {
    forall i, j :: 0 <= i < j < |ids| ==> ids[i] != ids[j]
  }

  /** The admission test of `createMission`: as many available drones found as ids listed. */
  predicate DronesAdmitted(drones: DroneStore, ids: seq<DroneId>) {
    |FindWithStatus(drones, ids, Available)| == |ids|
  }

  /** The drones a list names, each once. */
  function Elements(ids: seq<DroneId>): (r: set<DroneId>)
    ensures forall d :: d in r <==> d in ids
  {
    set d | d in ids
  }

  lemma ElementsCons(x: DroneId, rest: seq<DroneId>)
    ensures Elements([x] + rest) == {x} + Elements(rest)
  {
    assert forall d :: d in [x] + rest <==> d == x || d in rest;
  }

  lemma DistinctCons(x: DroneId, rest: seq<DroneId>)
    ensures Distinct([x] + rest) <==> x !in rest && Distinct(rest)
  {
    var ids := [x] + rest;
    if Distinct(ids) {
      forall i, j | 0 <= i < j < |rest| ensures rest[i] != rest[j] {
        assert rest[i] == ids[i + 1] && rest[j] == ids[j + 1];
      }
      forall j | 0 <= j < |rest| ensures rest[j] != x {
        assert rest[j] == ids[j + 1] && x == ids[0];
      }
    }
    if x !in rest && Distinct(rest) {
      forall i, j | 0 <= i < j < |ids| ensures ids[i] != ids[j] {
        assert ids[j] == rest[j - 1];
        if i > 0 {
          assert ids[i] == rest[i - 1];
        }
      }
    }
  }

  /** A list names as many drones as it has entries exactly when it repeats none. */
  lemma {:induction false} DistinctCardinality(ids: seq<DroneId>)
    ensures |Elements(ids)| <= |ids|
    ensures |Elements(ids)| == |ids| <==> Distinct(ids)
    decreases |ids|
  {
    if ids != [] {
      var x, rest := ids[0], ids[1..];
      assert ids == [x] + rest;
      DistinctCardinality(rest);
      ElementsCons(x, rest);
      DistinctCons(x, rest);
    }
  }

  lemma SubsetCardinality<T>(a: set<T>, b: set<T>)
    requires a <= b
    ensures |a| <= |b|
    ensures |a| == |b| ==> a == b
  {
    assert b == a + (b - a);
    if |a| == |b| {
      assert |b - a| == 0;
    }
  }

  /**
   * `createMission` admits a drone list exactly when it names no drone twice
   * and every drone it names is stored and `available`; an empty list is
   * admitted.
   */
  lemma {:induction false} AdmissionGate(drones: DroneStore, ids: seq<DroneId>)
    ensures DronesAdmitted(drones, ids) <==>
      Distinct(ids) && forall k :: 0 <= k < |ids| ==> ids[k] in drones && drones[ids[k]] == Available
  {
    var found := FindWithStatus(drones, ids, Available);
    var listed := Elements(ids);
    DistinctCardinality(ids);
    SubsetCardinality(found, listed);
    if DronesAdmitted(drones, ids) {
      assert found == listed;
      forall k | 0 <= k < |ids| ensures ids[k] in drones && drones[ids[k]] == Available {
        assert ids[k] in listed;
      }
    }
    if forall k :: 0 <= k < |ids| ==> ids[k] in drones && drones[ids[k]] == Available {
      forall d | d in listed ensures d in found {
        var k :| 0 <= k < |ids| && ids[k] == d;
      }
      SubsetCardinality(listed, found);
    }
  }

  /**
   * Right after creation, with no other change in between, the first check an
   * execution makes finds every listed drone `assigned`: a mission with
   * drones then fails only through its work unit or the release, and a
   * mission with none always aborts for lack of drones.
   */
  lemma CreatedMissionFindsItsDrones(drones: DroneStore, ids: seq<DroneId>, work: Outcome, release: Outcome)
    requires DronesAdmitted(drones, ids)
    ensures FindWithStatus(BulkSetStatus(drones, ids, Assigned), ids, Assigned) == Elements(ids)
    ensures ids == [] ==> FailureOf(BulkSetStatus(drones, ids, Assigned), ids, work, release) == Some(NoAvailableDrones)
    ensures ids != [] ==>
      FailureOf(BulkSetStatus(drones, ids, Assigned), ids, work, release) ==
        if work.Fail? then Some(work.error) else if release.Fail? then Some(release.error) else None
  {
    AdmissionGate(drones, ids);
    var after := BulkSetStatus(drones, ids, Assigned);
    assert FindWithStatus(after, ids, Assigned) == Elements(ids);
    if ids != [] {
      assert ids[0] in Elements(ids);
    }
  }

  /**
   * Releasing an admitted list after assigning it, as `updateMissionStatus`
   * with `completed` or `aborted`, or a completed execution, does, restores
   * the drone store exactly.
   */
  lemma ReleaseUndoesAssignment(drones: DroneStore, ids: seq<DroneId>)
    requires DronesAdmitted(drones, ids)
    ensures BulkSetStatus(BulkSetStatus(drones, ids, Assigned), ids, Available) == drones
  {
    AdmissionGate(drones, ids);
    var r := BulkSetStatus(BulkSetStatus(drones, ids, Assigned), ids, Available);
    forall d | d in drones ensures r[d] == drones[d] {
      if d in ids {
        var k :| 0 <= k < |ids| && ids[k] == d;
      }
    }
  }

  /**
   * Whether `createMission` gets past the request validator and the drone
   * gate: the list is present, its lookup succeeds and every listed drone is
   * found available.
   */
  predicate GatePassed(drones: DroneStore, data: MissionData, requestValid: bool, lookup: Outcome) {
    && requestValid
    && data.scheduledDrones.Some?
    && lookup.Pass?
    && DronesAdmitted(drones, data.scheduledDrones.value)
  }

  /** Whether `createMission` also gets past `save()`. */
  predicate Accepted(drones: DroneStore, missions: MissionStore, data: MissionData, requestValid: bool,
                     lookup: Outcome, newId: MissionId) {
    && GatePassed(drones, data, requestValid, lookup)
    && SchemaValid(data)
    && newId !in missions
  }

  /**
   * `createMission`. `requestValid` is the request validator's verdict,
   * `newId` the id the new document gets, `lookup` how the gate's
   * `Drone.find` ends (a drone id that does not cast, or a database error,
   * makes it throw) and `assignment` how the final `Drone.updateMany` ends.
   *
   * Every thrown error is answered with 500. Up to and including `save()`
   * nothing is written; after the save the mission stays stored whatever
   * follows, and after scheduling its job stays registered.
   */
  method CreateMission(db: Database, scheduler: Scheduler, data: MissionData, requestValid: bool,
                       lookup: Outcome, newId: MissionId, assignment: Outcome)
    returns (reply: Reply)
    requires scheduler.Valid()
    modifies db, scheduler`jobs
    ensures scheduler.Valid()
    // the request validator refuses
    ensures !requestValid ==> reply == Reply(400, ValidationErrors)
    // the gate's lookup throws: no list, or the lookup fails
    ensures requestValid && (data.scheduledDrones.None? || lookup.Fail?) ==>
      reply == Reply(500, Message(CreateErrorMessage))
    // the gate refuses
    ensures requestValid && data.scheduledDrones.Some? && lookup.Pass? &&
            !DronesAdmitted(old(db.drones), data.scheduledDrones.value) ==>
      reply == Reply(400, Message(NotAvailableMessage))
    // `save()` throws: a schema error or a duplicate id
    ensures GatePassed(old(db.drones), data, requestValid, lookup) &&
            (!SchemaValid(data) || newId in old(db.missions)) ==>
      reply == Reply(500, Message(CreateErrorMessage))
    ensures !Accepted(old(db.drones), old(db.missions), data, requestValid, lookup, newId) ==>
      db.missions == old(db.missions) && db.drones == old(db.drones) && scheduler.jobs == old(scheduler.jobs)
    // past `save()`: the mission is stored
    ensures Accepted(old(db.drones), old(db.missions), data, requestValid, lookup, newId) ==>
      db.missions == old(db.missions)[newId := NewRecord(data, data.scheduledDrones.value)]
    // scheduling throws
    ensures Accepted(old(db.drones), old(db.missions), data, requestValid, lookup, newId) && TriggerFor(data).Failure? ==>
      reply == Reply(500, Message(CreateErrorMessage)) && db.drones == old(db.drones) && scheduler.jobs == old(scheduler.jobs)
    // scheduled: one fresh job for the stored mission joins the registry
    ensures Accepted(old(db.drones), old(db.missions), data, requestValid, lookup, newId) && TriggerFor(data).Success? ==>
      && scheduler.jobs.Keys == old(scheduler.jobs).Keys + {newId}
      && fresh(scheduler.jobs[newId]) && fresh(scheduler.jobs[newId].mission)
      && scheduler.jobs[newId].expression == TriggerFor(data).expression
      && scheduler.jobs[newId].mission.Record() == NewRecord(data, data.scheduledDrones.value)
      && (forall k :: k in old(scheduler.jobs) && k != newId ==> scheduler.jobs[k] == old(scheduler.jobs)[k])
    // then the drones are assigned, or the assignment throws
    ensures Accepted(old(db.drones), old(db.missions), data, requestValid, lookup, newId) && TriggerFor(data).Success? ==>
      if assignment.Pass? then
        reply == Reply(201, Message(CreatedMessage)) &&
        db.drones == BulkSetStatus(old(db.drones), data.scheduledDrones.value, Assigned)
      else
        reply == Reply(500, Message(CreateErrorMessage)) && db.drones == old(db.drones)
  {
    if !requestValid {
      return Reply(400, ValidationErrors);
    }
    if data.scheduledDrones.None? || lookup.Fail? {
      // `Drone.find` throws on a missing list or an uncastable id, or `.length` on a missing list
      return Reply(500, Message(CreateErrorMessage));
    }
    var ids := data.scheduledDrones.value;
    var available := FindWithStatus(db.drones, ids, Available);
    if |available| != |ids| {
      return Reply(400, Message(NotAvailableMessage));
    }
    if !SchemaValid(data) || newId in db.missions {
      // `save()` throws a validation or duplicate-key error
      return Reply(500, Message(CreateErrorMessage));
    }
    var status := ParseMissionStatus(StatusOf(data));
    var mission := new MissionDoc(newId, KindOf(data), status.value, data.scheduledTime, DocumentRule(data), ids);
    mission.Save(db);
    if mission.kind == "recurring" {
      var outcome := scheduler.ScheduleRecurringMission(mission);
      if outcome.Fail? {
        return Reply(500, Message(CreateErrorMessage));
      }
    } else {
      scheduler.ScheduleOneTimeMission(mission);
    }
    if assignment.Fail? {
      return Reply(500, Message(CreateErrorMessage));
    }
    db.drones := BulkSetStatus(db.drones, mission.scheduledDrones, Assigned);
    reply := Reply(201, Message(CreatedMessage));
  }

  /**
   * `updateMissionStatus`: an unknown id is answered with 404 and changes
   * nothing; otherwise the status is stored as given, without checking it
   * against the schema's enumeration, and a `completed` or `aborted` status
   * makes every drone of the mission `available` again. The scheduler's job
   * for the mission is left as it is.
   */
  method UpdateMissionStatus(db: Database, id: MissionId, status: string) returns (reply: Reply)
    modifies db
    ensures id !in old(db.missions) ==>
      reply == Reply(404, Message(NotFoundMessage)) && db.missions == old(db.missions) && db.drones == old(db.drones)
    ensures id in old(db.missions) ==>
      && reply == Reply(200, Message(UpdatedMessage))
      && db.missions == old(db.missions)[id := old(db.missions)[id].(status := status)]
      && db.drones == if status == "completed" || status == "aborted"
                      then BulkSetStatus(old(db.drones), old(db.missions)[id].scheduledDrones, Available)
                      else old(db.drones)
  {
    if id !in db.missions {
      return Reply(404, Message(NotFoundMessage));
    }
    var mission := db.missions[id].(status := status);
    db.missions := db.missions[id := mission];
    if status == "completed" || status == "aborted" {
      db.drones := BulkSetStatus(db.drones, mission.scheduledDrones, Available);
    }
    reply := Reply(200, Message(UpdatedMessage));
  }

  /**
   * A mission with drones, created and then run once by its job with nothing
   * in between: a clean run stores `completed` and leaves every drone with
   * the status it had before the mission was created.
   */
  method CreateAndRun(db: Database, scheduler: Scheduler, data: MissionData, newId: MissionId,
                      work: Outcome, release: Outcome)
    returns (reply: Reply)
    requires scheduler.Valid()
    modifies db, scheduler`jobs, scheduler`trace
    ensures reply.status == 201 && data.scheduledDrones.Some? && data.scheduledDrones.value != [] && work.Pass? && release.Pass? ==>
      && newId in db.missions && db.missions[newId].status == "completed"
      && db.drones == old(db.drones)
  {
    reply := CreateMission(db, scheduler, data, true, Pass, newId, Pass);
    if reply.status == 201 {
      ghost var created := db.drones;
      var ids := data.scheduledDrones.value;
      var job := scheduler.jobs[newId];
      assert job.mission.scheduledDrones == ids;
      scheduler.Fire(job, db, work, release);
      CreatedMissionFindsItsDrones(old(db.drones), ids, work, release);
      ExecutionTerminates(created, newId, ids, scheduler.socketReady, work, release);
      ExecutionReleasesDrones(created, newId, ids, scheduler.socketReady, work, release);
      if ids != [] && work.Pass? && release.Pass? {
        ReleaseUndoesAssignment(old(db.drones), ids);
      }
    }
  }
}
