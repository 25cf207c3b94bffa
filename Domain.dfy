/**
 * The records the mission scheduler and the mission controller share: the
 * status enumerations of the Mission and Drone schemas, the drone store and
 * the mission store (the database collections, abstracted into maps), and the
 * in-memory mission document that the scheduler's jobs hold on to.
 */
module Domain {

  datatype Option<+T> = None | Some(value: T)

  /** The outcome of a step that either finishes or throws an error with a message. */
  datatype Outcome = Pass | Fail(error: string)

  /** Object ids, in their `toString()` form. */
  type DroneId = string
  type MissionId = string

  /** The `status` enumeration of the Drone schema. */
  datatype DroneStatus = Available | Assigned | Maintenance | Charging | OutOfService

  /** The `status` enumeration of the Mission schema. */
  datatype MissionStatus = Scheduled | InProgress | Completed | Aborted
  {
    /** The string the schema stores for this status. */
    function Name(): (s: string)
      ensures s in MissionStatusNames
    {
      match this
      case Scheduled => "scheduled"
      case InProgress => "in-progress"
      case Completed => "completed"
      case Aborted => "aborted"
    }
  }

  const MissionStatusNames: set<string> := {"scheduled", "in-progress", "completed", "aborted"}
  const MissionTypeNames: set<string> := {"one-time", "recurring"}
  const FrequencyNames: set<string> := {"daily", "weekly", "monthly"}

  /** Reads a status string back; the inverse of `Name` on the schema's enumeration. */
  function ParseMissionStatus(s: string): (r: Option<MissionStatus>)
    ensures r.Some? <==> s in MissionStatusNames
    ensures r.Some? ==> r.value.Name() == s
  {
    if s == "scheduled" then Some(Scheduled)
    else if s == "in-progress" then Some(InProgress)
    else if s == "completed" then Some(Completed)
    else if s == "aborted" then Some(Aborted)
    else None
  }

  /**
   * A mission's `recurrenceRule`. `frequency` is absent (`None`) when the
   * document has none; `interval` is absent whenever the record went through
   * the Mission schema, which declares no such field.
   */
  datatype RecurrenceRule = RecurrenceRule(frequency: Option<string>, interval: Option<nat>)

  /**
   * The local-time calendar fields of a JavaScript date, as its getters
   * return them: `getMinutes`, `getHours`, `getDate` and `getMonth`
   * (the month counts from 0).
   */
  datatype CalendarTime = CalendarTime(minute: nat, hour: nat, dayOfMonth: nat, month: nat)

  /** A mission as the mission store holds it; `status` is the raw stored string. */
  datatype MissionRecord = MissionRecord(
    kind: string,
    status: string,
    scheduledTime: CalendarTime,
    recurrenceRule: RecurrenceRule,
    scheduledDrones: seq<DroneId>)

  type DroneStore = map<DroneId, DroneStatus>
  type MissionStore = map<MissionId, MissionRecord>

  /**
   * `Drone.find({_id: {$in: ids}, status: s})`: the stored drones listed in
   * `ids` whose status is `s`; a drone listed twice is found once.
   */
  function FindWithStatus(drones: DroneStore, ids: seq<DroneId>, s: DroneStatus): (found: set<DroneId>)
    ensures forall d :: d in found <==> d in drones && d in ids && drones[d] == s
  {
    set d | d in drones && d in ids && drones[d] == s
  }

  /**
   * `Drone.updateMany({_id: {$in: ids}}, {status: s})`: every stored drone
   * listed in `ids` gets status `s`; listed ids with no stored drone are not
   * created and every other drone keeps its status.
   */
  function BulkSetStatus(drones: DroneStore, ids: seq<DroneId>, s: DroneStatus): (r: DroneStore)
    ensures r.Keys == drones.Keys
    ensures forall d :: d in drones && d in ids ==> r[d] == s
    ensures forall d :: d in drones && d !in ids ==> r[d] == drones[d]
  {
    map d | d in drones :: if d in ids then s else drones[d]
  }

  /** The database: the drone and mission collections. */
  class Database {
    var drones: DroneStore
    var missions: MissionStore

    constructor (drones: DroneStore, missions: MissionStore)
      ensures this.drones == drones && this.missions == missions
    {
      this.drones := drones;
      this.missions := missions;
    }
  }

  /**
   * An in-memory mission document. Everything but its status is fixed once it
   * is built; the scheduler's jobs keep a reference to it and update its
   * status in place.
   */
  class MissionDoc {
    const id: MissionId
    const kind: string
    const scheduledTime: CalendarTime
    const recurrenceRule: RecurrenceRule
    const scheduledDrones: seq<DroneId>
    var status: MissionStatus

    constructor (id: MissionId, kind: string, status: MissionStatus, scheduledTime: CalendarTime,
                 recurrenceRule: RecurrenceRule, scheduledDrones: seq<DroneId>)
      ensures this.id == id && this.kind == kind && this.status == status
      ensures this.scheduledTime == scheduledTime && this.recurrenceRule == recurrenceRule
      ensures this.scheduledDrones == scheduledDrones
    {
      this.id := id;
      this.kind := kind;
      this.status := status;
      this.scheduledTime := scheduledTime;
      this.recurrenceRule := recurrenceRule;
      this.scheduledDrones := scheduledDrones;
    }

    /** The record this document writes when it is first inserted. */
    function Record(): (r: MissionRecord)
      reads this
      ensures r.status == status.Name() && r.scheduledDrones == scheduledDrones
      ensures r.kind == kind && r.recurrenceRule == recurrenceRule
    {
      MissionRecord(kind, status.Name(), scheduledTime, recurrenceRule, scheduledDrones)
    }

    /**
     * `mission.save()`: a new document is inserted whole; a stored one only
     * has its changed path, the status, written back.
     */
    method Save(db: Database)
      modifies db`missions
      ensures id !in old(db.missions) ==> db.missions == old(db.missions)[id := Record()]
      ensures id in old(db.missions) ==>
        db.missions == old(db.missions)[id := old(db.missions)[id].(status := status.Name())]
    {
      if id in db.missions {
        db.missions := db.missions[id := db.missions[id].(status := status.Name())];
      } else {
        db.missions := db.missions[id := Record()];
      }
    }
  }
}
