/** Safety of the maintenance pipeline, for every outcome of every command, hook, gate, container
  * action and database call. */
module PipelineSafety {
  import opened Gates
  import opened Pipeline

  // ----- How far a run gets -----

  /** The exit codes that let a command count as done: 0 and 2. */
  predicate Done(o: Outcome) {
    o == Exited(0) || o == Exited(2)
  }

  predicate Touched(w: World) {
    w.configFilesOk && Done(w.touch)
  }

  /** Diff and smart count as done whatever they returned, as long as they ran. */
  predicate Reported(w: World) {
    Touched(w) && w.diff.Exited? && w.smart.Exited?
  }

  predicate Safe(cfg: Config, w: World) {
    (forall d | d in w.disks :: IsHealthy(d, cfg.thresholds)) && WithinLimits(w.report, cfg.thresholds)
  }

  /** What the pipeline is for: the conditions under which a sync may be issued at all. */
  predicate MaySync(cfg: Config, w: World) {
    Reported(w) && Safe(cfg, w) && (cfg.preSyncHook ==> w.preSyncOk)
  }

  predicate Synced(cfg: Config, w: World) {
    MaySync(cfg, w) && Done(w.sync)
  }

  predicate Fixes(cfg: Config, w: World) {
    Synced(cfg, w) && cfg.autoFixBadBlocks && w.scrub == Exited(2)
  }

  lemma {:induction false} StepOkIff(cmd: Command, o: Outcome)
    ensures StepOk(cmd, o) <==> if cmd in {Diff, Smart, Status} then o.Exited? else Done(o)
  {
  }

  lemma {:induction false} GatesIff(cfg: Config, w: World)
    ensures GatesPass(cfg, w) <==> Safe(cfg, w)
    ensures MaySync(cfg, w)
            <==> && w.configFilesOk && StepOk(Touch, w.touch) && StepOk(Diff, w.diff) && StepOk(Smart, w.smart)
                 && GatesPass(cfg, w) && HookPasses(cfg.preSyncHook, w.preSyncOk)
  {
    SmartGateIff(w.disks, cfg.thresholds);
    DiffGateIff(w.report, cfg.thresholds);
    hide CheckSMART, CheckDiffThresholds, IsHealthy, WithinLimits;
  }

  /** The effects that precede the container actions and the sync of a run that may sync. */
  function BeforeSync(cfg: Config, w: World): seq<Event> {
    [Emitted(MaintenanceStarted)] + StepTrace(Touch, Maintenance, w.touch) + StepTrace(Diff, PreFlight, w.diff)
    + StepTrace(Smart, PreFlight, w.smart) + HookTrace(PreSync, cfg.preSyncHook, w.preSyncOk)
  }

  predicate IsSync(e: Event) {
    e.Ran? && e.cmd == Sync
  }

  /** An event a run must not show unless it may sync. */
  predicate NeedsGates(e: Event) {
    || e.Docker?
    || (e.Ran? && e.cmd in {Sync, Scrub, Fix})
    || e == Emitted(MaintenanceComplete)
    || (e.Hook? && e.name == PostSync)
  }

  predicate NoneNeedsGates(tr: seq<Event>) {
    forall e | e in tr :: !NeedsGates(e)
  }

  lemma {:induction false} Assoc(a: seq<Event>, b: seq<Event>, c: seq<Event>)
    ensures a + (b + c) == (a + b) + c
  {
  }

  /** The shape of a run that may sync. */
  lemma {:induction false} Shape(cfg: Config, w: World)
    requires MaySync(cfg, w)
    ensures MaintenanceTrace(cfg, w) == BeforeSync(cfg, w) + SyncPart(cfg, w)
  {
    GatesIff(cfg, w);
    hide SyncPart, StepTrace, HookTrace, MaySync;
    var start, touch, diff := [Emitted(MaintenanceStarted)], StepTrace(Touch, Maintenance, w.touch), StepTrace(Diff, PreFlight, w.diff);
    var smart, hook := StepTrace(Smart, PreFlight, w.smart), HookTrace(PreSync, cfg.preSyncHook, w.preSyncOk);
    var rest := SyncPart(cfg, w);
    assert GatedPart(cfg, w) == hook + rest;
    assert ReportsPart(cfg, w) == diff + (smart + (hook + rest));
    assert MaintenanceTrace(cfg, w) == start + (touch + (diff + (smart + (hook + rest))));
    assert start + (touch + (diff + (smart + (hook + rest)))) == start + touch + diff + smart + hook + rest;
  }

  lemma {:induction false} StepHarmless(cmd: Command, trigger: Trigger, o: Outcome)
    requires cmd !in {Sync, Scrub, Fix}
    ensures NoneNeedsGates(StepTrace(cmd, trigger, o))
  {
  }

  lemma {:induction false} BlockedGatedPart(cfg: Config, w: World)
    requires !(GatesPass(cfg, w) && HookPasses(cfg.preSyncHook, w.preSyncOk))
    ensures NoneNeedsGates(GatedPart(cfg, w))
  {
    hide SyncPart;
  }

  lemma {:induction false} BlockedReportsPart(cfg: Config, w: World)
    requires NoneNeedsGates(GatedPart(cfg, w)) || !StepOk(Diff, w.diff) || !StepOk(Smart, w.smart)
    ensures NoneNeedsGates(ReportsPart(cfg, w))
  {
    hide GatedPart, StepTrace;
    StepHarmless(Diff, PreFlight, w.diff);
    StepHarmless(Smart, PreFlight, w.smart);
  }

  /** A run that may not sync touches no container and issues no sync, scrub or fix. */
  lemma {:induction false} BlockedRunIsHarmless(cfg: Config, w: World)
    requires !MaySync(cfg, w)
    ensures NoneNeedsGates(MaintenanceTrace(cfg, w))
  {
    hide ReportsPart, StepTrace;
    StepHarmless(Touch, Maintenance, w.touch);
    GatesIff(cfg, w);
    if w.configFilesOk && StepOk(Touch, w.touch) {
      if StepOk(Diff, w.diff) && StepOk(Smart, w.smart) {
        BlockedGatedPart(cfg, w);
      }
      BlockedReportsPart(cfg, w);
    }
  }

  // ----- Counting -----

  lemma {:induction false} BatchCount(action: DockerAction, containers: seq<string>, e: Event)
    ensures multiset(DockerBatch(action, containers))[e]
            == if e.Docker? && e.action == action then multiset(containers)[e.container] else 0
  {
    if containers != [] {
      BatchCount(action, containers[1..], e);
      assert containers == [containers[0]] + containers[1..];
    }
  }

  lemma {:induction false} BatchOnlyDocker(action: DockerAction, containers: seq<string>)
    ensures forall e | e in DockerBatch(action, containers) :: e.Docker? && e.action == action && e.container in containers
  {
    if containers != [] {
      BatchOnlyDocker(action, containers[1..]);
    }
  }

  lemma {:induction false} NoDockerCount(tr: seq<Event>)
    requires forall e | e in tr :: !e.Docker?
    ensures forall action, c :: multiset(tr)[Docker(action, c)] == 0
  {
    forall action, c
      ensures multiset(tr)[Docker(action, c)] == 0
    {
      assert Docker(action, c) !in tr;
    }
  }

  /** Where the sync of a run stands. */
  function SyncIndex(cfg: Config, w: World): nat {
    |BeforeSync(cfg, w)| + |Quiesce(cfg)|
  }

  /** What follows the sync command: its notification, the restores and the rest. */
  function FromSync(cfg: Config, w: World): seq<Event> {
    StepTrace(Sync, Maintenance, w.sync) + Restore(cfg) + AfterSync(cfg, w)
  }

  lemma {:induction false} SplitAtSync(cfg: Config, w: World)
    requires MaySync(cfg, w)
    ensures
      var tr, i := MaintenanceTrace(cfg, w), SyncIndex(cfg, w);
      && i < |tr| && tr[i] == Ran(Sync, w.sync)
      && tr[..i] == BeforeSync(cfg, w) + Quiesce(cfg)
      && tr[i..] == FromSync(cfg, w)
  {
    Shape(cfg, w);
    SyncPartSplit(cfg, w);
    hide BeforeSync, Quiesce, FromSync, MaintenanceTrace, SyncPart;
    Assoc(BeforeSync(cfg, w), Quiesce(cfg), FromSync(cfg, w));
    SliceConcat(BeforeSync(cfg, w) + Quiesce(cfg), FromSync(cfg, w));
  }

  lemma {:induction false} SliceConcat(a: seq<Event>, b: seq<Event>)
    ensures (a + b)[..|a|] == a && (a + b)[|a|..] == b
    ensures b != [] ==> (a + b)[|a|] == b[0]
  {
  }

  lemma {:induction false} SyncPartSplit(cfg: Config, w: World)
    ensures SyncPart(cfg, w) == Quiesce(cfg) + FromSync(cfg, w)
    ensures FromSync(cfg, w) != [] && FromSync(cfg, w)[0] == Ran(Sync, w.sync)
  {
    hide Quiesce, Restore, AfterSync;
    var step := StepTrace(Sync, Maintenance, w.sync);
    assert step[0] == Ran(Sync, w.sync);
    hide StepTrace;
    Assoc(Quiesce(cfg), step + Restore(cfg), AfterSync(cfg, w));
    Assoc(Quiesce(cfg), step, Restore(cfg));
  }

  lemma {:induction false} NoSyncBefore(cfg: Config, w: World)
    ensures forall e | e in BeforeSync(cfg, w) + Quiesce(cfg) :: !IsSync(e)
    ensures forall e | e in BeforeSync(cfg, w) :: !e.Docker?
  {
    BatchOnlyDocker(Pause, cfg.pauseContainers);
    BatchOnlyDocker(Stop, cfg.stopContainers);
    hide DockerBatch;
  }

  lemma {:induction false} AfterSyncEvents(cfg: Config, w: World)
    ensures forall e | e in AfterSync(cfg, w) :: !e.Docker? && !IsSync(e)
  {
  }

  lemma {:induction false} NoSyncAfter(cfg: Config, w: World)
    ensures forall k | 1 <= k < |FromSync(cfg, w)| :: !IsSync(FromSync(cfg, w)[k])
  {
    BatchOnlyDocker(Unpause, cfg.pauseContainers);
    BatchOnlyDocker(Start, cfg.stopContainers);
    AfterSyncEvents(cfg, w);
    hide DockerBatch, AfterSync;
    var step, restore := StepTrace(Sync, Maintenance, w.sync), Restore(cfg);
    forall k | 1 <= k < |FromSync(cfg, w)|
      ensures !IsSync(FromSync(cfg, w)[k])
    {
      if k < |step| {
      } else if k < |step| + |restore| {
        assert FromSync(cfg, w)[k] in restore;
      } else {
        assert FromSync(cfg, w)[k] in AfterSync(cfg, w);
      }
    }
  }

  /** A sync is issued exactly when the config gate, touch, diff, SMART, both gates and the pre-sync
    * hook succeeded in this run; it is issued once, and everything it depends on came before it. */
  lemma {:induction false} SyncOnlyAfterGates(cfg: Config, w: World)
    ensures
      var tr := MaintenanceTrace(cfg, w);
      && ((exists i :: 0 <= i < |tr| && IsSync(tr[i])) <==> MaySync(cfg, w))
      && (forall i | 0 <= i < |tr| && IsSync(tr[i]) ::
            && i == SyncIndex(cfg, w)
            && Ran(Touch, w.touch) in tr[..i] && Ran(Diff, w.diff) in tr[..i] && Ran(Smart, w.smart) in tr[..i]
            && (cfg.preSyncHook ==> Hook(PreSync, true) in tr[..i])
            && Emitted(GateFailed) !in tr[..i])
  {
    var tr, i := MaintenanceTrace(cfg, w), SyncIndex(cfg, w);
    if MaySync(cfg, w) {
      SplitAtSync(cfg, w);
      NoSyncBefore(cfg, w);
      NoSyncAfter(cfg, w);
      BeforeSyncHolds(cfg, w);
      hide MaintenanceTrace, BeforeSync, Quiesce, FromSync, SyncIndex;
      OnlySyncAt(tr, i);
      assert IsSync(tr[i]);
    } else {
      BlockedRunIsHarmless(cfg, w);
      hide MaintenanceTrace;
      assert forall k | 0 <= k < |tr| :: tr[k] in tr;
    }
  }

  lemma {:induction false} OnlySyncAt(tr: seq<Event>, i: nat)
    requires i < |tr|
    requires forall e | e in tr[..i] :: !IsSync(e)
    requires forall k | 1 <= k < |tr[i..]| :: !IsSync(tr[i..][k])
    ensures forall k | 0 <= k < |tr| && IsSync(tr[k]) :: k == i
  {
    assert forall k | 0 <= k < i :: tr[k] == tr[..i][k];
    assert forall k | i < k < |tr| :: tr[k] == tr[i..][k - i];
  }

  lemma {:induction false} BeforeSyncHolds(cfg: Config, w: World)
    requires MaySync(cfg, w)
    ensures
      var before := BeforeSync(cfg, w) + Quiesce(cfg);
      && Ran(Touch, w.touch) in before && Ran(Diff, w.diff) in before && Ran(Smart, w.smart) in before
      && (cfg.preSyncHook ==> Hook(PreSync, true) in before)
      && Emitted(GateFailed) !in before
  {
    BatchOnlyDocker(Pause, cfg.pauseContainers);
    BatchOnlyDocker(Stop, cfg.stopContainers);
    hide DockerBatch;
    var touch, diff, smart := StepTrace(Touch, Maintenance, w.touch), StepTrace(Diff, PreFlight, w.diff), StepTrace(Smart, PreFlight, w.smart);
    assert touch[0] == Ran(Touch, w.touch) && diff[0] == Ran(Diff, w.diff) && smart[0] == Ran(Smart, w.smart);
  }

  /** Whatever the sync did, every container is paused before it as often as it is unpaused after it
    * and stopped before it as often as it is started after it, namely as often as it is configured;
    * there is no other container action, and none at all in a run without a sync. So a container is
    * restored exactly once exactly when it is listed once. */
  lemma {:induction false} ContainersRestored(cfg: Config, w: World, c: string)
    ensures
      var tr, i := MaintenanceTrace(cfg, w), SyncIndex(cfg, w);
      if MaySync(cfg, w) then
        && i < |tr|
        && multiset(tr[..i])[Docker(Pause, c)] == multiset(cfg.pauseContainers)[c] == multiset(tr[i..])[Docker(Unpause, c)]
        && multiset(tr[..i])[Docker(Stop, c)] == multiset(cfg.stopContainers)[c] == multiset(tr[i..])[Docker(Start, c)]
        && multiset(tr[..i])[Docker(Unpause, c)] == multiset(tr[..i])[Docker(Start, c)] == 0
        && multiset(tr[i..])[Docker(Pause, c)] == multiset(tr[i..])[Docker(Stop, c)] == 0
      else forall action :: Docker(action, c) !in tr
  {
    if MaySync(cfg, w) {
      SplitAtSync(cfg, w);
      CountsBefore(cfg, w, c);
      CountsAfter(cfg, w, c);
    } else {
      BlockedRunIsHarmless(cfg, w);
      hide MaintenanceTrace;
      assert forall action :: NeedsGates(Docker(action, c));
    }
  }

  lemma {:induction false} CountsBefore(cfg: Config, w: World, c: string)
    ensures
      var before := multiset(BeforeSync(cfg, w) + Quiesce(cfg));
      && before[Docker(Pause, c)] == multiset(cfg.pauseContainers)[c]
      && before[Docker(Stop, c)] == multiset(cfg.stopContainers)[c]
      && before[Docker(Unpause, c)] == before[Docker(Start, c)] == 0
  {
    NoSyncBefore(cfg, w);
    NoDockerCount(BeforeSync(cfg, w));
    hide BeforeSync, Quiesce;
    QuiesceCount(cfg, Pause, c);
    QuiesceCount(cfg, Stop, c);
    QuiesceCount(cfg, Unpause, c);
    QuiesceCount(cfg, Start, c);
  }

  lemma {:induction false} QuiesceCount(cfg: Config, action: DockerAction, c: string)
    ensures multiset(Quiesce(cfg))[Docker(action, c)]
            == if action == Pause then multiset(cfg.pauseContainers)[c]
               else if action == Stop then multiset(cfg.stopContainers)[c] else 0
  {
    BatchCount(Pause, cfg.pauseContainers, Docker(action, c));
    BatchCount(Stop, cfg.stopContainers, Docker(action, c));
    hide DockerBatch;
  }

  lemma {:induction false} RestoreCount(cfg: Config, action: DockerAction, c: string)
    ensures multiset(Restore(cfg))[Docker(action, c)]
            == if action == Unpause then multiset(cfg.pauseContainers)[c]
               else if action == Start then multiset(cfg.stopContainers)[c] else 0
  {
    BatchCount(Unpause, cfg.pauseContainers, Docker(action, c));
    BatchCount(Start, cfg.stopContainers, Docker(action, c));
    hide DockerBatch;
  }

  lemma {:induction false} CountsAfter(cfg: Config, w: World, c: string)
    ensures
      var after := multiset(FromSync(cfg, w));
      && after[Docker(Unpause, c)] == multiset(cfg.pauseContainers)[c]
      && after[Docker(Start, c)] == multiset(cfg.stopContainers)[c]
      && after[Docker(Pause, c)] == after[Docker(Stop, c)] == 0
  {
    AfterSyncEvents(cfg, w);
    NoDockerCount(AfterSync(cfg, w));
    NoDockerCount(StepTrace(Sync, Maintenance, w.sync));
    hide AfterSync, StepTrace, Restore;
    RestoreCount(cfg, Pause, c);
    RestoreCount(cfg, Stop, c);
    RestoreCount(cfg, Unpause, c);
    RestoreCount(cfg, Start, c);
  }

  /** Scrub runs only after a good sync, the automatic fix only after a scrub that found bad blocks,
    * and the success notification goes out exactly when the sync was good, whatever scrub and fix
    * returned. */
  lemma {:induction false} AfterSyncIff(cfg: Config, w: World)
    ensures
      var tr := MaintenanceTrace(cfg, w);
      && (Ran(Scrub, w.scrub) in tr <==> Synced(cfg, w))
      && (Ran(Fix, w.fix) in tr <==> Fixes(cfg, w))
      && (Emitted(MaintenanceComplete) in tr <==> Synced(cfg, w))
  {
    if MaySync(cfg, w) {
      AfterSyncTail(cfg, w);
      TailEvent(cfg, w, Ran(Scrub, w.scrub));
      TailEvent(cfg, w, Ran(Fix, w.fix));
      TailEvent(cfg, w, Emitted(MaintenanceComplete));
    } else {
      BlockedRunIsHarmless(cfg, w);
      hide MaintenanceTrace;
      assert NeedsGates(Ran(Scrub, w.scrub)) && NeedsGates(Ran(Fix, w.fix)) && NeedsGates(Emitted(MaintenanceComplete));
    }
  }

  /** Neither what precedes the sync command nor the container actions show such an event. */
  lemma {:induction false} NotAroundSync(cfg: Config, w: World, e: Event)
    requires NeedsGates(e) && !e.Docker? && !IsSync(e)
    ensures e !in BeforeSync(cfg, w) && e !in Quiesce(cfg) && e !in Restore(cfg)
    ensures e !in StepTrace(Sync, Maintenance, w.sync)
  {
    BeforeSyncHarmless(cfg, w);
    hide BeforeSync;
    BatchOnlyDocker(Pause, cfg.pauseContainers);
    BatchOnlyDocker(Stop, cfg.stopContainers);
    BatchOnlyDocker(Unpause, cfg.pauseContainers);
    BatchOnlyDocker(Start, cfg.stopContainers);
    hide DockerBatch;
  }

  /** Events other than the sync and container actions that need the gates come after the sync. */
  lemma {:induction false} TailEvent(cfg: Config, w: World, e: Event)
    requires MaySync(cfg, w) && NeedsGates(e) && !e.Docker? && !IsSync(e)
    ensures e in MaintenanceTrace(cfg, w) <==> e in AfterSync(cfg, w)
  {
    Shape(cfg, w);
    NotAroundSync(cfg, w, e);
    hide MaintenanceTrace, BeforeSync, Quiesce, Restore, AfterSync, StepTrace, NeedsGates;
  }

  lemma {:induction false} BeforeSyncHarmless(cfg: Config, w: World)
    ensures NoneNeedsGates(BeforeSync(cfg, w))
  {
    StepHarmless(Touch, Maintenance, w.touch);
    StepHarmless(Diff, PreFlight, w.diff);
    StepHarmless(Smart, PreFlight, w.smart);
    hide StepTrace;
  }

  lemma {:induction false} AfterSyncTail(cfg: Config, w: World)
    ensures
      var tr := AfterSync(cfg, w);
      && (Ran(Scrub, w.scrub) in tr <==> StepOk(Sync, w.sync))
      && (Ran(Fix, w.fix) in tr <==> StepOk(Sync, w.sync) && FixesBadBlocks(cfg, w.scrub))
      && (Emitted(MaintenanceComplete) in tr <==> StepOk(Sync, w.sync))
  {
    var scrub, fix := StepTrace(Scrub, Maintenance, w.scrub), StepTrace(Fix, AutoFix, w.fix);
    assert scrub[0] == Ran(Scrub, w.scrub) && fix[0] == Ran(Fix, w.fix);
    var finish := [Ran(Status, w.status), Emitted(MaintenanceComplete)];
    assert finish[1] == Emitted(MaintenanceComplete);
    if StepOk(Sync, w.sync) {
      assert AfterSync(cfg, w) == HookTrace(PostSync, cfg.postSyncHook, w.postSyncOk) + (ScrubAndFix(cfg, w, Maintenance) + finish);
      assert Ran(Scrub, w.scrub) in ScrubAndFix(cfg, w, Maintenance);
    }
  }

  /** Whether a run may sync does not depend on the exit codes of `snapraid diff` and `snapraid
    * smart`: a diff that failed with an error passes its step. */
  lemma {:induction false} ReportExitCodesIgnored(cfg: Config, w: World, diffCode: int, smartCode: int)
    requires w.diff.Exited? && w.smart.Exited?
    ensures MaySync(cfg, w) == MaySync(cfg, w.(diff := Exited(diffCode), smart := Exited(smartCode)))
  {
  }

  // ----- History -----

  predicate NoneLeftRunning(rows: seq<Row>) {
    forall r | r in rows :: r.status != RowRunning
  }

  /** The database calls for one insert leave no running row. */
  predicate Settles(db: Db) {
    db.insert.InsertFailed? || (db.insert.Inserted? && db.completes)
  }

  predicate AllSettle(db: nat -> Db, from: nat, n: nat) {
    forall k: nat | from <= k < from + n :: Settles(db(k))
  }

  lemma {:induction false} RowLeftSettled(db: Db, kind: JobKind, trigger: Trigger, final: RowStatus)
    requires final != RowRunning
    ensures NoneLeftRunning(RowLeft(db, kind, trigger, final)) == Settles(db)
  {
    if !Settles(db) {
      assert RowLeft(db, kind, trigger, final)[0].status == RowRunning;
    }
  }

  lemma {:induction false} RowsConcat(a: seq<Row>, b: seq<Row>)
    ensures NoneLeftRunning(a + b) == (NoneLeftRunning(a) && NoneLeftRunning(b))
  {
    assert forall r :: r in a + b <==> r in a || r in b;
  }

  lemma {:induction false} SettleFirst(db: nat -> Db, from: nat, n: nat)
    ensures AllSettle(db, from, 1 + n) == (Settles(db(from)) && AllSettle(db, from + 1, n))
  {
  }

  lemma {:induction false} SettleNone(db: nat -> Db, from: nat)
    ensures AllSettle(db, from, 0)
  {
  }

  /** One row followed by the rows of the remaining inserts. */
  lemma {:induction false} RowThen(db: nat -> Db, n: nat, kind: JobKind, trigger: Trigger, final: RowStatus, rest: seq<Row>, more: nat)
    requires final != RowRunning
    requires NoneLeftRunning(rest) == AllSettle(db, n + 1, more)
    ensures NoneLeftRunning(RowLeft(db(n), kind, trigger, final) + rest) == AllSettle(db, n, 1 + more)
  {
    RowLeftSettled(db(n), kind, trigger, final);
    RowsConcat(RowLeft(db(n), kind, trigger, final), rest);
    SettleFirst(db, n, more);
  }

  lemma {:induction false} OneRow(db: nat -> Db, n: nat, kind: JobKind, trigger: Trigger, final: RowStatus)
    requires final != RowRunning
    ensures NoneLeftRunning(RowLeft(db(n), kind, trigger, final)) == AllSettle(db, n, 1)
  {
    SettleNone(db, n + 1);
    RowThen(db, n, kind, trigger, final, [], 0);
    assert RowLeft(db(n), kind, trigger, final) + [] == RowLeft(db(n), kind, trigger, final);
  }

  lemma {:induction false} ScrubRowsSettled(cfg: Config, w: World, trigger: Trigger, n: nat)
    ensures NoneLeftRunning(ScrubRows(cfg, w, trigger, n)) == AllSettle(w.db, n, ScrubInserts(cfg, w))
  {
    hide RowLeft;
    var more := if FixesBadBlocks(cfg, w.scrub) then 1 else 0;
    var rest := if more == 1 then RowLeft(w.db(n + 1), CommandJob(Fix), AutoFix, StepStatus(Fix, w.fix)) else [];
    OneRow(w.db, n + 1, CommandJob(Fix), AutoFix, StepStatus(Fix, w.fix));
    SettleNone(w.db, n + 1);
    RowThen(w.db, n, CommandJob(Scrub), trigger, StepStatus(Scrub, w.scrub), rest, more);
  }

  lemma {:induction false} SyncRowsSettled(cfg: Config, w: World, n: nat)
    ensures NoneLeftRunning(SyncRows(cfg, w, n)) == AllSettle(w.db, n, SyncInserts(cfg, w))
  {
    hide RowLeft, ScrubRows, ScrubInserts;
    var more := if StepOk(Sync, w.sync) then ScrubInserts(cfg, w) else 0;
    var rest := if StepOk(Sync, w.sync) then ScrubRows(cfg, w, Maintenance, n + 1) else [];
    ScrubRowsSettled(cfg, w, Maintenance, n + 1);
    SettleNone(w.db, n + 1);
    RowThen(w.db, n, CommandJob(Sync), Maintenance, StepStatus(Sync, w.sync), rest, more);
  }

  lemma {:induction false} GatedRowsSettled(cfg: Config, w: World, n: nat)
    ensures NoneLeftRunning(GatedRows(cfg, w, n)) == AllSettle(w.db, n, GatedInserts(cfg, w))
  {
    hide RowLeft, SyncRows, SyncInserts;
    OneRow(w.db, n, GateJob(SmartGate), PreFlight, Aborted);
    OneRow(w.db, n, GateJob(DiffGate), PreFlight, Aborted);
    OneRow(w.db, n, GateJob(PreSyncHookGate), PreFlight, Aborted);
    SyncRowsSettled(cfg, w, n);
  }

  lemma {:induction false} ReportsRowsSettled(cfg: Config, w: World, n: nat)
    ensures NoneLeftRunning(ReportsRows(cfg, w, n)) == AllSettle(w.db, n, ReportsInserts(cfg, w))
  {
    hide RowLeft, GatedRows, GatedInserts;
    var afterSmart := if StepOk(Smart, w.smart) then GatedRows(cfg, w, n + 2) else [];
    var afterSmartN := if StepOk(Smart, w.smart) then GatedInserts(cfg, w) else 0;
    GatedRowsSettled(cfg, w, n + 2);
    SettleNone(w.db, n + 2);
    RowThen(w.db, n + 1, CommandJob(Smart), PreFlight, StepStatus(Smart, w.smart), afterSmart, afterSmartN);
    var smartRows := RowLeft(w.db(n + 1), CommandJob(Smart), PreFlight, StepStatus(Smart, w.smart)) + afterSmart;
    SettleNone(w.db, n + 1);
    RowThen(w.db, n, CommandJob(Diff), PreFlight, StepStatus(Diff, w.diff),
            if StepOk(Diff, w.diff) then smartRows else [], if StepOk(Diff, w.diff) then 1 + afterSmartN else 0);
  }

  lemma {:induction false} PreflightRowsSettled(cfg: Config, w: World, n: nat)
    ensures NoneLeftRunning(PreflightRows(cfg, w, n)) == AllSettle(w.db, n, PreflightInserts(cfg, w))
  {
    hide RowLeft, ReportsRows, ReportsInserts;
    ReportsRowsSettled(cfg, w, n + 1);
    SettleNone(w.db, n + 1);
    RowThen(w.db, n, CommandJob(Touch), Maintenance, StepStatus(Touch, w.touch),
            if StepOk(Touch, w.touch) then ReportsRows(cfg, w, n + 1) else [],
            if StepOk(Touch, w.touch) then ReportsInserts(cfg, w) else 0);
  }

  /** A run leaves no history row running exactly when every insert it made either added no row or
    * reported its id and was later completed: the pipeline itself completes every row it can. */
  lemma {:induction false} HistorySettled(cfg: Config, w: World, n: nat)
    ensures NoneLeftRunning(MaintenanceRows(cfg, w, n))
            <==> forall k: nat | n <= k < n + MaintenanceInserts(cfg, w) :: Settles(w.db(k))
  {
    hide RowLeft, PreflightRows, PreflightInserts;
    OneRow(w.db, n, GateJob(ConfigFilesGate), PreFlight, Aborted);
    PreflightRowsSettled(cfg, w, n);
    assert AllSettle(w.db, n, MaintenanceInserts(cfg, w))
           <==> forall k: nat | n <= k < n + MaintenanceInserts(cfg, w) :: Settles(w.db(k));
  }
}
