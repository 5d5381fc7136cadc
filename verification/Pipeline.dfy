/** The gated snapraid maintenance pipeline: which commands, hooks, container actions and
  * notifications it issues, and what it leaves in the job history, for every outcome of every step. */
module Pipeline {
  import opened Common
  import opened Gates

  datatype Command = Touch | Diff | Smart | Sync | Scrub | Fix | Status
  datatype Trigger = Maintenance | PreFlight | AutoFix | Scheduled
  datatype Gate = ConfigFilesGate | SmartGate | DiffGate | PreSyncHookGate
  datatype HookName = PreSync | PostSync
  datatype DockerAction = Pause | Stop | Unpause | Start

  /** How an engine command ends: the process ran, the engine was busy, or it could not be run. */
  datatype Outcome = Exited(code: int) | Refused | ExecError

  datatype Notice =
    | MaintenanceStarted | GateFailed | JobFailed | JobComplete | MaintenanceComplete
    | ScrubStarted | ScrubComplete

  /** The observable effects of a pipeline, in order. */
  datatype Event =
    | Ran(cmd: Command, outcome: Outcome)
    | Hook(name: HookName, ok: bool)
    | Docker(action: DockerAction, container: string)
    | Emitted(notice: Notice)

  datatype RowStatus = RowRunning | Success | Warning | Errored | Aborted
  datatype JobKind = CommandJob(cmd: Command) | GateJob(gate: Gate)
  datatype Row = Row(kind: JobKind, trigger: Trigger, status: RowStatus)

  /** How the database treats one job: the insert fails, adds a row without reporting its id, or
    * succeeds; and whether the later update succeeds. */
  datatype Insert = InsertFailed | InsertedWithoutId | Inserted
  datatype Db = Db(insert: Insert, completes: bool)

  datatype Config = Config(
    thresholds: Thresholds,
    preSyncHook: bool, postSyncHook: bool,
    pauseContainers: seq<string>, stopContainers: seq<string>,
    autoFixBadBlocks: bool)

  /** Everything the outside world decides in one run; `db` is indexed by the number of the insert. */
  datatype World = World(
    configFilesOk: bool,
    touch: Outcome, diff: Outcome, report: DiffReport, smart: Outcome, disks: seq<SmartDisk>,
    preSyncOk: bool, sync: Outcome, postSyncOk: bool, scrub: Outcome, fix: Outcome, status: Outcome,
    db: nat -> Db)

  /** Diff and smart steps report exit code 0 whatever the process returned. */
  predicate HonoursExitCode(cmd: Command) {
    cmd !in {Diff, Smart, Status}
  }

  predicate StepOk(cmd: Command, o: Outcome) {
    o.Exited? && (HonoursExitCode(cmd) ==> o.code == 0 || o.code == 2)
  }

  function StepStatus(cmd: Command, o: Outcome): RowStatus {
    match o
    case Refused => Aborted
    case ExecError => Errored
    case Exited(code) =>
      if !HonoursExitCode(cmd) || code == 0 then Success else if code == 2 then Warning else Errored
  }

  function StepTrace(cmd: Command, trigger: Trigger, o: Outcome): seq<Event> {
    [Ran(cmd, o)]
    + if StepOk(cmd, o) then [Emitted(JobComplete)] else if trigger == PreFlight then [] else [Emitted(JobFailed)]
  }

  /** The row one insert leaves behind once its job has ended with `final`. */
  function RowLeft(db: Db, kind: JobKind, trigger: Trigger, final: RowStatus): seq<Row> {
    match db.insert
    case InsertFailed => []
    case InsertedWithoutId => [Row(kind, trigger, RowRunning)]
    case Inserted => [Row(kind, trigger, if db.completes then final else RowRunning)]
  }

  function DockerBatch(action: DockerAction, containers: seq<string>): seq<Event> {
    if containers == [] then [] else [Docker(action, containers[0])] + DockerBatch(action, containers[1..])
  }

  function HookTrace(name: HookName, configured: bool, ok: bool): seq<Event> {
    if configured then [Hook(name, ok)] else []
  }

  predicate FixesBadBlocks(cfg: Config, scrub: Outcome) {
    cfg.autoFixBadBlocks && scrub == Exited(2)
  }

  function ScrubAndFix(cfg: Config, w: World, trigger: Trigger): seq<Event> {
    StepTrace(Scrub, trigger, w.scrub) + if FixesBadBlocks(cfg, w.scrub) then StepTrace(Fix, AutoFix, w.fix) else []
  }

  function Quiesce(cfg: Config): seq<Event> {
    DockerBatch(Pause, cfg.pauseContainers) + DockerBatch(Stop, cfg.stopContainers)
  }

  function Restore(cfg: Config): seq<Event> {
    DockerBatch(Unpause, cfg.pauseContainers) + DockerBatch(Start, cfg.stopContainers)
  }

  function AfterSync(cfg: Config, w: World): seq<Event> {
    HookTrace(PostSync, cfg.postSyncHook, w.postSyncOk)
    + if StepOk(Sync, w.sync) then ScrubAndFix(cfg, w, Maintenance) + [Ran(Status, w.status), Emitted(MaintenanceComplete)]
      else []
  }

  function SyncPart(cfg: Config, w: World): seq<Event> {
    Quiesce(cfg) + StepTrace(Sync, Maintenance, w.sync) + Restore(cfg) + AfterSync(cfg, w)
  }

  function GateAbort(w: World): seq<Event> {
    [Ran(Status, w.status), Emitted(GateFailed)]
  }

  predicate HookPasses(configured: bool, ok: bool) {
    configured ==> ok
  }

  predicate GatesPass(cfg: Config, w: World) {
    CheckSMART(w.disks, cfg.thresholds) == Passed && CheckDiffThresholds(w.report, cfg.thresholds) == Passed
  }

  /** From the gates on: abort, stop at the hook, or sync. */
  function GatedPart(cfg: Config, w: World): seq<Event> {
    if !GatesPass(cfg, w) then GateAbort(w)
    else
      HookTrace(PreSync, cfg.preSyncHook, w.preSyncOk)
      + if HookPasses(cfg.preSyncHook, w.preSyncOk) then SyncPart(cfg, w) else [Emitted(GateFailed)]
  }

  function ReportsPart(cfg: Config, w: World): seq<Event> {
    StepTrace(Diff, PreFlight, w.diff)
    + if !StepOk(Diff, w.diff) then []
      else StepTrace(Smart, PreFlight, w.smart) + if StepOk(Smart, w.smart) then GatedPart(cfg, w) else []
  }

  function PreflightPart(cfg: Config, w: World): seq<Event> {
    StepTrace(Touch, Maintenance, w.touch) + if StepOk(Touch, w.touch) then ReportsPart(cfg, w) else []
  }

  function MaintenanceTrace(cfg: Config, w: World): seq<Event> {
    [Emitted(MaintenanceStarted)] + if w.configFilesOk then PreflightPart(cfg, w) else GateAbort(w)
  }

  // ----- The pipeline object -----

  class Runner {
    const cfg: Config
    var trace: seq<Event>
    var history: seq<Row>
    var inserts: nat                  // InsertJob calls so far
    var tracked: Option<Command>

    constructor (cfg: Config)
      ensures this.cfg == cfg && trace == [] && history == [] && inserts == 0 && tracked == None
    {
      this.cfg := cfg;
      trace, history, inserts, tracked := [], [], 0, None;
    }

    method Emit(n: Notice)
      modifies this`trace
      ensures trace == old(trace) + [Emitted(n)]
    {
      trace := trace + [Emitted(n)];
    }

    /** InsertJob: whether the caller got a usable id. */
    method InsertRow(db: Db, kind: JobKind, trigger: Trigger) returns (hasId: bool)
      modifies this`history, this`inserts
      ensures inserts == old(inserts) + 1
      ensures hasId == db.insert.Inserted?
      ensures history == old(history) + if db.insert.InsertFailed? then [] else [Row(kind, trigger, RowRunning)]
    {
      inserts := inserts + 1;
      if !db.insert.InsertFailed? {
        history := history + [Row(kind, trigger, RowRunning)];
      }
      hasId := db.insert.Inserted?;
    }

    /** CompleteJob on the row inserted last; its error is ignored by every caller. */
    method CompleteLastRow(db: Db, status: RowStatus)
      requires |history| > 0
      modifies this`history
      ensures
        var last := |old(history)| - 1;
        history == old(history)[..last] + [if db.completes then old(history)[last].(status := status) else old(history)[last]]
    {
      var last := |history| - 1;
      if db.completes {
        history := history[last := history[last].(status := status)];
      }
    }

    method RunStep(cmd: Command, trigger: Trigger, o: Outcome, db: Db) returns (ok: bool)
      modifies this
      ensures ok == StepOk(cmd, o)
      ensures trace == old(trace) + StepTrace(cmd, trigger, o)
      ensures history == old(history) + RowLeft(db, CommandJob(cmd), trigger, StepStatus(cmd, o))
      ensures inserts == old(inserts) + 1 && tracked == None
    {
      tracked := Some(cmd);
      var hasId := InsertRow(db, CommandJob(cmd), trigger);
      trace := trace + [Ran(cmd, o)];
      var status, exitCode := Success, if o.Exited? && HonoursExitCode(cmd) then o.code else 0;
      if !o.Exited? {
        status := if o.Refused? then Aborted else Errored;
        if hasId {
          CompleteLastRow(db, status);
        }
        if trigger != PreFlight {
          Emit(JobFailed);
        }
        tracked := None;
        return false;
      }
      status := if exitCode == 0 then Success else if exitCode == 2 then Warning else Errored;
      if hasId {
        CompleteLastRow(db, status);
      }
      if status == Errored {
        if trigger != PreFlight {
          Emit(JobFailed);
        }
        tracked := None;
        return false;
      }
      Emit(JobComplete);
      tracked := None;
      return true;
    }

    method RecordGateFailure(gate: Gate, db: Db)
      modifies this`history, this`inserts
      ensures history == old(history) + RowLeft(db, GateJob(gate), PreFlight, Aborted)
      ensures inserts == old(inserts) + 1
    {
      var hasId := InsertRow(db, GateJob(gate), PreFlight);
      if !hasId {
        return;
      }
      CompleteLastRow(db, Aborted);
    }

    method AbortWithStatus(gate: Gate, w: World)
      modifies this`history, this`inserts, this`trace
      ensures trace == old(trace) + GateAbort(w)
      ensures history == old(history) + RowLeft(w.db(old(inserts)), GateJob(gate), PreFlight, Aborted)
      ensures inserts == old(inserts) + 1
    {
      RecordGateFailure(gate, w.db(inserts));
      trace := trace + [Ran(Status, w.status)];
      Emit(GateFailed);
    }

    method RunHook(name: HookName, configured: bool, ok: bool) returns (passed: bool)
      modifies this`trace
      ensures trace == old(trace) + HookTrace(name, configured, ok)
      ensures passed == HookPasses(configured, ok)
    {
      if !configured {
        return true;
      }
      trace := trace + [Hook(name, ok)];
      passed := ok;
    }

    method RunDockerBatch(action: DockerAction, containers: seq<string>)
      modifies this`trace
      ensures trace == old(trace) + DockerBatch(action, containers)
    {
      for i := 0 to |containers|
        invariant trace + DockerBatch(action, containers[i..]) == old(trace) + DockerBatch(action, containers)
      {
        assert containers[i..][1..] == containers[i + 1..];
        trace := trace + [Docker(action, containers[i])];
      }
      assert trace + [] == trace;
    }

    method RunScrubAndFix(trigger: Trigger, w: World)
      modifies this
      ensures trace == old(trace) + ScrubAndFix(cfg, w, trigger)
      ensures history == old(history) + ScrubRows(cfg, w, trigger, old(inserts))
      ensures inserts == old(inserts) + ScrubInserts(cfg, w)
    {
      var _ := RunStep(Scrub, trigger, w.scrub, w.db(inserts));
      var scrubExitCode := if w.scrub.Exited? then w.scrub.code else 0;
      if cfg.autoFixBadBlocks && scrubExitCode == 2 {
        var _ := RunStep(Fix, AutoFix, w.fix, w.db(inserts));
      }
    }

    /** RunMaintenance. */
    method RunMaintenance(w: World)
      modifies this
      ensures trace == old(trace) + MaintenanceTrace(cfg, w)
      ensures history == old(history) + MaintenanceRows(cfg, w, old(inserts))
      ensures inserts == old(inserts) + MaintenanceInserts(cfg, w)
    {
      hide PreflightPart, PreflightRows, PreflightInserts;
      Emit(MaintenanceStarted);
      if !w.configFilesOk {
        AbortWithStatus(ConfigFilesGate, w);
        return;
      }
      RunPreflightPart(w);
    }

    method RunPreflightPart(w: World)
      modifies this
      ensures trace == old(trace) + PreflightPart(cfg, w)
      ensures history == old(history) + PreflightRows(cfg, w, old(inserts))
      ensures inserts == old(inserts) + PreflightInserts(cfg, w)
    {
      hide ReportsPart, ReportsRows, ReportsInserts;
      var ok := RunStep(Touch, Maintenance, w.touch, w.db(inserts));
      if !ok {
        return;
      }
      RunReportsPart(w);
    }

    method RunReportsPart(w: World)
      modifies this
      ensures trace == old(trace) + ReportsPart(cfg, w)
      ensures history == old(history) + ReportsRows(cfg, w, old(inserts))
      ensures inserts == old(inserts) + ReportsInserts(cfg, w)
    {
      hide GatedPart, GatedRows, GatedInserts;
      var ok := RunStep(Diff, PreFlight, w.diff, w.db(inserts));
      if !ok {
        return;
      }
      ok := RunStep(Smart, PreFlight, w.smart, w.db(inserts));
      if !ok {
        return;
      }
      RunGatedPart(w);
    }

    method RunGatedPart(w: World)
      modifies this
      ensures trace == old(trace) + GatedPart(cfg, w)
      ensures history == old(history) + GatedRows(cfg, w, old(inserts))
      ensures inserts == old(inserts) + GatedInserts(cfg, w)
    {
      hide CheckSMART, CheckDiffThresholds, SyncPart, SyncRows, SyncInserts, StepStatus;
      if CheckSMART(w.disks, cfg.thresholds).Blocked? {
        AbortWithStatus(SmartGate, w);
        return;
      }
      if CheckDiffThresholds(w.report, cfg.thresholds).Blocked? {
        AbortWithStatus(DiffGate, w);
        return;
      }
      var passed := RunHook(PreSync, cfg.preSyncHook, w.preSyncOk);
      if !passed {
        RecordGateFailure(PreSyncHookGate, w.db(inserts));
        Emit(GateFailed);
        return;
      }
      RunSyncPart(w);
    }

    /** manageContainers up to the returned closure. */
    method ManageContainers()
      modifies this`trace
      ensures trace == old(trace) + Quiesce(cfg)
    {
      RunDockerBatch(Pause, cfg.pauseContainers);
      RunDockerBatch(Stop, cfg.stopContainers);
    }

    /** The restore closure. */
    method RestoreContainers()
      modifies this`trace
      ensures trace == old(trace) + Restore(cfg)
    {
      RunDockerBatch(Unpause, cfg.pauseContainers);
      RunDockerBatch(Start, cfg.stopContainers);
    }

    method RunSyncPart(w: World)
      modifies this
      ensures trace == old(trace) + SyncPart(cfg, w)
      ensures history == old(history) + SyncRows(cfg, w, old(inserts))
      ensures inserts == old(inserts) + SyncInserts(cfg, w)
    {
      hide Quiesce, Restore, AfterSync, StepTrace, ScrubRows, ScrubInserts;
      ManageContainers();
      var syncOk := RunStep(Sync, Maintenance, w.sync, w.db(inserts));
      RestoreContainers();
      assert trace == old(trace) + (Quiesce(cfg) + StepTrace(Sync, Maintenance, w.sync) + Restore(cfg));
      RunAfterSync(w, syncOk);
    }

    method RunAfterSync(w: World, syncOk: bool)
      requires syncOk == StepOk(Sync, w.sync)
      modifies this
      ensures trace == old(trace) + AfterSync(cfg, w)
      ensures history == old(history) + if syncOk then ScrubRows(cfg, w, Maintenance, old(inserts)) else []
      ensures inserts == old(inserts) + if syncOk then ScrubInserts(cfg, w) else 0
    {
      hide ScrubRows, ScrubInserts, ScrubAndFix, HookTrace;
      var _ := RunHook(PostSync, cfg.postSyncHook, w.postSyncOk);
      if !syncOk {
        return;
      }
      RunScrubAndFix(Maintenance, w);
      trace := trace + [Ran(Status, w.status)];
      Emit(MaintenanceComplete);
    }

    /** RunScrubOnly. */
    method RunScrubOnly(w: World)
      modifies this
      ensures trace == old(trace) + [Emitted(ScrubStarted)] + ScrubAndFix(cfg, w, Scheduled) + [Emitted(ScrubComplete)]
      ensures history == old(history) + ScrubRows(cfg, w, Scheduled, old(inserts))
    {
      Emit(ScrubStarted);
      RunScrubAndFix(Scheduled, w);
      Emit(ScrubComplete);
    }
  }

  // ----- History rows -----

  function ScrubInserts(cfg: Config, w: World): nat {
    if FixesBadBlocks(cfg, w.scrub) then 2 else 1
  }

  function ScrubRows(cfg: Config, w: World, trigger: Trigger, n: nat): seq<Row> {
    RowLeft(w.db(n), CommandJob(Scrub), trigger, StepStatus(Scrub, w.scrub))
    + if FixesBadBlocks(cfg, w.scrub) then RowLeft(w.db(n + 1), CommandJob(Fix), AutoFix, StepStatus(Fix, w.fix)) else []
  }

  function SyncInserts(cfg: Config, w: World): nat {
    1 + if StepOk(Sync, w.sync) then ScrubInserts(cfg, w) else 0
  }

  function SyncRows(cfg: Config, w: World, n: nat): seq<Row> {
    RowLeft(w.db(n), CommandJob(Sync), Maintenance, StepStatus(Sync, w.sync))
    + if StepOk(Sync, w.sync) then ScrubRows(cfg, w, Maintenance, n + 1) else []
  }

  function GatedInserts(cfg: Config, w: World): nat {
    if GatesPass(cfg, w) && HookPasses(cfg.preSyncHook, w.preSyncOk) then SyncInserts(cfg, w) else 1
  }

  function GatedRows(cfg: Config, w: World, n: nat): seq<Row> {
    if CheckSMART(w.disks, cfg.thresholds).Blocked? then RowLeft(w.db(n), GateJob(SmartGate), PreFlight, Aborted)
    else if CheckDiffThresholds(w.report, cfg.thresholds).Blocked? then RowLeft(w.db(n), GateJob(DiffGate), PreFlight, Aborted)
    else if !HookPasses(cfg.preSyncHook, w.preSyncOk) then RowLeft(w.db(n), GateJob(PreSyncHookGate), PreFlight, Aborted)
    else SyncRows(cfg, w, n)
  }

  function ReportsInserts(cfg: Config, w: World): nat {
    if !StepOk(Diff, w.diff) then 1 else if !StepOk(Smart, w.smart) then 2 else 2 + GatedInserts(cfg, w)
  }

  function ReportsRows(cfg: Config, w: World, n: nat): seq<Row> {
    RowLeft(w.db(n), CommandJob(Diff), PreFlight, StepStatus(Diff, w.diff))
    + if !StepOk(Diff, w.diff) then []
      else
        RowLeft(w.db(n + 1), CommandJob(Smart), PreFlight, StepStatus(Smart, w.smart))
        + if StepOk(Smart, w.smart) then GatedRows(cfg, w, n + 2) else []
  }

  function PreflightInserts(cfg: Config, w: World): nat {
    1 + if StepOk(Touch, w.touch) then ReportsInserts(cfg, w) else 0
  }

  function PreflightRows(cfg: Config, w: World, n: nat): seq<Row> {
    RowLeft(w.db(n), CommandJob(Touch), Maintenance, StepStatus(Touch, w.touch))
    + if StepOk(Touch, w.touch) then ReportsRows(cfg, w, n + 1) else []
  }

  function MaintenanceInserts(cfg: Config, w: World): nat {
    if w.configFilesOk then PreflightInserts(cfg, w) else 1
  }

  function MaintenanceRows(cfg: Config, w: World, n: nat): seq<Row> {
    if w.configFilesOk then PreflightRows(cfg, w, n)
    else RowLeft(w.db(n), GateJob(ConfigFilesGate), PreFlight, Aborted)
  }
}
