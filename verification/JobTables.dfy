/** The burn-in agent's shared job tables. Each method is one critical section of the original:
  * the manager's mutex guards `jobs` and `driveLocks`, the API's guards `activeJobs`, and the
  * persistence layer's guards `states`. */
module JobTables {
  import opened Common

  datatype Command = Burnin | Preclear | Full

  /** A block device, by its canonical path. */
  datatype Device = Device(number: nat)

  /** generateJobID: command, device and the second the job was started in. */
  datatype JobId = JobId(command: Command, device: Device, second: nat)

  /** The identity of one started job: its managedJob pointer, goroutine and cancel function. */
  type Ticket = nat

  datatype JobStatus = Pending | Running | Completed | Failed | Cancelled

  datatype JobRecord = JobRecord(jobId: JobId, owner: Ticket, status: JobStatus)

  /** The two maps guarded by the manager's mutex. */
  datatype Tables = Tables(jobs: map<JobId, Ticket>, driveLocks: map<Device, JobId>)

  function ClaimDrive(ts: Tables, t: Ticket, id: JobId, device: Device): Tables {
    if device in ts.driveLocks then ts
    else Tables(ts.jobs[id := t], ts.driveLocks[device := id])
  }

  function ReleaseDrive(ts: Tables, id: JobId, device: Device): Tables {
    Tables(ts.jobs - {id}, ts.driveLocks - {device})
  }

  class JobManager {
    var jobs: map<JobId, Ticket>
    var driveLocks: map<Device, JobId>

    function View(): Tables
      reads this
    {
      Tables(jobs, driveLocks)
    }

    constructor ()
      ensures View() == Tables(map[], map[])
    {
      jobs, driveLocks := map[], map[];
    }

    /** The locked part of StartJob: refuse a locked drive, else record the job and lock it. */
    method Claim(t: Ticket, id: JobId, device: Device) returns (lockedBy: Option<JobId>)
      modifies this
      ensures lockedBy == Lookup(old(driveLocks), device)
      ensures View() == ClaimDrive(old(View()), t, id, device)
    {
      if device in driveLocks {
        return Some(driveLocks[device]);
      }
      jobs := jobs[id := t];
      driveLocks := driveLocks[device := id];
      return None;
    }

    /** The locked part of finishJob. */
    method Release(id: JobId, device: Device) returns (remaining: nat)
      modifies this
      ensures View() == ReleaseDrive(old(View()), id, device)
      ensures remaining == |jobs|
    {
      driveLocks := driveLocks - {device};
      jobs := jobs - {id};
      remaining := |jobs|;
    }

    /** GetJob, and the lookup of CancelJob. */
    method GetJob(id: JobId) returns (t: Option<Ticket>)
      ensures t == Lookup(jobs, id)
    {
      t := Lookup(jobs, id);
    }
  }

  /** The abort registry of the agent API. */
  class AgentAPI {
    var activeJobs: map<JobId, Ticket>

    constructor ()
      ensures activeJobs == map[]
    {
      activeJobs := map[];
    }

    method RegisterJob(id: JobId, cancel: Ticket)
      modifies this
      ensures activeJobs == old(activeJobs)[id := cancel]
    {
      activeJobs := activeJobs[id := cancel];
    }

    method UnregisterJob(id: JobId)
      modifies this
      ensures activeJobs == old(activeJobs) - {id}
    {
      activeJobs := activeJobs - {id};
    }

    /** The locked part of handleAbortJob: the cancel function that will be called, if any. */
    method LookupCancel(id: JobId) returns (cancel: Option<Ticket>)
      ensures cancel == Lookup(activeJobs, id)
    {
      cancel := Lookup(activeJobs, id);
    }
  }

  class JobPersistence {
    var states: map<JobId, JobRecord>

    constructor ()
      ensures states == map[]
    {
      states := map[];
    }

    /** The map entry is replaced whether or not the state file could be written. */
    method SaveState(rec: JobRecord, diskOk: bool) returns (failed: bool)
      modifies this
      ensures states == old(states)[rec.jobId := rec]
      ensures failed == !diskOk
    {
      states := states[rec.jobId := rec];
      failed := !diskOk;
    }

    /** Every stored record once, in the order the map happens to be walked. */
    method AllRecords() returns (records: seq<JobRecord>)
      requires forall id | id in states :: states[id].jobId == id
      ensures |records| == |states|
      ensures forall id | id in states :: states[id] in records
      ensures forall i | 0 <= i < |records| :: records[i].jobId in states && records[i] == states[records[i].jobId]
      ensures forall i, j | 0 <= i < j < |records| :: records[i].jobId != records[j].jobId
    {
      records := [];
      var left := states.Keys;
      while left != {}
        invariant left <= states.Keys && |records| + |left| == |states.Keys|
        invariant forall id | id in states && id !in left :: states[id] in records
        invariant forall i | 0 <= i < |records| ::
            records[i].jobId in states && records[i].jobId !in left && records[i] == states[records[i].jobId]
        invariant forall i, j | 0 <= i < j < |records| :: records[i].jobId != records[j].jobId
        decreases left
      {
        var id :| id in left;
        records, left := records + [states[id]], left - {id};
      }
    }
  }

  /** How often `id` is listed. */
  function Listed(records: seq<JobRecord>, id: JobId): nat {
    if records == [] then 0 else (if records[0].jobId == id then 1 else 0) + Listed(records[1..], id)
  }

  lemma {:induction false} ListedAppend(records: seq<JobRecord>, rec: JobRecord, id: JobId)
    ensures Listed(records + [rec], id) == Listed(records, id) + if rec.jobId == id then 1 else 0
  {
    if records != [] {
      assert (records + [rec])[1..] == records[1..] + [rec];
      ListedAppend(records[1..], rec, id);
    }
  }

  /** ListAllJobs, given what its two critical sections read: first the active jobs, then every
    * persisted record. Both enumerations may come in any order. */
  method ListAllJobs(active: map<JobId, JobRecord>, persisted: seq<JobRecord>) returns (records: seq<JobRecord>)
    requires forall id | id in active :: active[id].jobId == id
    requires forall i, j | 0 <= i < j < |persisted| :: persisted[i].jobId != persisted[j].jobId
    ensures forall id ::
        Listed(records, id) == if id in active || exists r :: r in persisted && r.jobId == id then 1 else 0
    ensures forall id | id in active :: active[id] in records
    ensures forall r | r in records :: if r.jobId in active then r == active[r.jobId] else r in persisted
  {
    records := [];
    var seen: set<JobId> := {};
    while seen != active.Keys
      invariant seen <= active.Keys
      invariant forall id :: Listed(records, id) == if id in seen then 1 else 0
      invariant forall id | id in seen :: active[id] in records
      invariant forall r | r in records :: r.jobId in seen && r == active[r.jobId]
      decreases active.Keys - seen
    {
      assert active.Keys - seen != {};
      var id :| id in active.Keys - seen;
      forall i ensures Listed(records + [active[id]], i) == Listed(records, i) + if i == id then 1 else 0 {
        ListedAppend(records, active[id], i);
      }
      records, seen := records + [active[id]], seen + {id};
    }
    for k := 0 to |persisted|
      invariant forall id ::
          Listed(records, id) == if id in active || exists i :: 0 <= i < k && persisted[i].jobId == id then 1 else 0
      invariant forall id | id in active :: active[id] in records
      invariant forall r | r in records ::
          if r.jobId in active then r == active[r.jobId] else r in persisted
    {
      var rec := persisted[k];
      if rec.jobId !in seen {
        forall i ensures Listed(records + [rec], i) == Listed(records, i) + if i == rec.jobId then 1 else 0 {
          ListedAppend(records, rec, i);
        }
        records := records + [rec];
      }
    }
  }
}
