/** What a maintenance run shows and records, event by event and row by row, said of the outcomes alone. */
module PipelineEffects {
  import opened Gates
  import opened Pipeline
  import opened PipelineSafety

  // ----- Which events a run shows -----

  predicate RunsCommand(cfg: Config, w: World, cmd: Command) {
    match cmd
    case Touch => w.configFilesOk
    case Diff => Touched(w)
    case Smart => Touched(w) && w.diff.Exited?
    case Sync => MaySync(cfg, w)
    case Scrub => Synced(cfg, w)
    case Fix => Fixes(cfg, w)
    case Status => !w.configFilesOk || (Reported(w) && !Safe(cfg, w)) || Synced(cfg, w)
  }

  function OutcomeOf(w: World, cmd: Command): Outcome {
    match cmd
    case Touch => w.touch
    case Diff => w.diff
    case Smart => w.smart
    case Sync => w.sync
    case Scrub => w.scrub
    case Fix => w.fix
    case Status => w.status
  }

  /** The gates or the pre-sync hook, or the config files before them, stop the run. */
  predicate Stopped(cfg: Config, w: World) {
    !w.configFilesOk || (Reported(w) && !(Safe(cfg, w) && (cfg.preSyncHook ==> w.preSyncOk)))
  }

  predicate Shows(cfg: Config, w: World, e: Event) {
    match e
    case Ran(cmd, o) => RunsCommand(cfg, w, cmd) && o == OutcomeOf(w, cmd)
    case Hook(name, ok) =>
      if name == PreSync then cfg.preSyncHook && Reported(w) && Safe(cfg, w) && ok == w.preSyncOk
      else cfg.postSyncHook && MaySync(cfg, w) && ok == w.postSyncOk
    case Docker(action, c) =>
      MaySync(cfg, w) && c in if action == Pause || action == Unpause then cfg.pauseContainers else cfg.stopContainers
    case Emitted(notice) =>
      match notice
      case MaintenanceStarted => true
      case GateFailed => Stopped(cfg, w)
      case MaintenanceComplete => Synced(cfg, w)
      case JobComplete => Touched(w)
      case JobFailed =>
        || (w.configFilesOk && !Done(w.touch)) || (MaySync(cfg, w) && !Done(w.sync))
        || (Synced(cfg, w) && !Done(w.scrub)) || (Fixes(cfg, w) && !Done(w.fix))
      case ScrubStarted => false
      case ScrubComplete => false
  }

  lemma {:induction false} InStep(cmd: Command, trigger: Trigger, o: Outcome, e: Event)
    ensures e in StepTrace(cmd, trigger, o)
            <==> || e == Ran(cmd, o)
                 || (e == Emitted(JobComplete) && StepOk(cmd, o))
                 || (e == Emitted(JobFailed) && !StepOk(cmd, o) && trigger != PreFlight)
  {
    assert StepTrace(cmd, trigger, o)[0] == Ran(cmd, o);
    assert |StepTrace(cmd, trigger, o)| > 1 ==> StepTrace(cmd, trigger, o)[1].Emitted?;
  }

  lemma {:induction false} InBatch(action: DockerAction, containers: seq<string>, e: Event)
    ensures e in DockerBatch(action, containers) <==> e.Docker? && e.action == action && e.container in containers
  {
    BatchCount(action, containers, e);
    hide DockerBatch;
  }

  lemma {:induction false} InContainers(cfg: Config, e: Event)
    ensures e in Quiesce(cfg) <==> e.Docker? && ((e.action == Pause && e.container in cfg.pauseContainers)
                                                 || (e.action == Stop && e.container in cfg.stopContainers))
    ensures e in Restore(cfg) <==> e.Docker? && ((e.action == Unpause && e.container in cfg.pauseContainers)
                                                 || (e.action == Start && e.container in cfg.stopContainers))
  {
    InBatch(Pause, cfg.pauseContainers, e);
    InBatch(Stop, cfg.stopContainers, e);
    InBatch(Unpause, cfg.pauseContainers, e);
    InBatch(Start, cfg.stopContainers, e);
    hide DockerBatch;
  }

  lemma {:induction false} InScrubAndFix(cfg: Config, w: World, e: Event)
    ensures e in ScrubAndFix(cfg, w, Maintenance)
            <==> || e == Ran(Scrub, w.scrub)
                 || (e == Emitted(JobComplete) && Done(w.scrub)) || (e == Emitted(JobFailed) && !Done(w.scrub))
                 || (cfg.autoFixBadBlocks && w.scrub == Exited(2)
                     && (e == Ran(Fix, w.fix)
                         || (e == Emitted(JobComplete) && Done(w.fix)) || (e == Emitted(JobFailed) && !Done(w.fix))))
  {
    InStep(Scrub, Maintenance, w.scrub, e);
    InStep(Fix, AutoFix, w.fix, e);
    hide StepTrace;
  }

  lemma {:induction false} InAfterSync(cfg: Config, w: World, e: Event)
    ensures e in AfterSync(cfg, w)
            <==> || (cfg.postSyncHook && e == Hook(PostSync, w.postSyncOk))
                 || (Done(w.sync) && (e in ScrubAndFix(cfg, w, Maintenance) || e == Ran(Status, w.status)
                                      || e == Emitted(MaintenanceComplete)))
  {
    hide ScrubAndFix;
  }

  lemma {:induction false} InSyncPart(cfg: Config, w: World, e: Event)
    ensures e in SyncPart(cfg, w)
            <==> e in Quiesce(cfg) || e in StepTrace(Sync, Maintenance, w.sync) || e in Restore(cfg) || e in AfterSync(cfg, w)
  {
    hide Quiesce, StepTrace, Restore, AfterSync;
  }

  lemma {:induction false} InGatedPart(cfg: Config, w: World, e: Event)
    ensures e in GatedPart(cfg, w)
            <==> if !Safe(cfg, w) then e == Ran(Status, w.status) || e == Emitted(GateFailed)
                 else || (cfg.preSyncHook && e == Hook(PreSync, w.preSyncOk))
                      || (if cfg.preSyncHook && !w.preSyncOk then e == Emitted(GateFailed) else e in SyncPart(cfg, w))
  {
    GatesIff(cfg, w);
    hide SyncPart, GatesPass, Safe;
  }

  lemma {:induction false} InReportsPart(cfg: Config, w: World, e: Event)
    ensures e in ReportsPart(cfg, w)
            <==> || e == Ran(Diff, w.diff)
                 || (w.diff.Exited? && (e == Emitted(JobComplete) || e == Ran(Smart, w.smart)
                                        || (w.smart.Exited? && e in GatedPart(cfg, w))))
  {
    InStep(Diff, PreFlight, w.diff, e);
    InStep(Smart, PreFlight, w.smart, e);
    hide StepTrace, GatedPart;
  }

  lemma {:induction false} InTrace(cfg: Config, w: World, e: Event)
    ensures e in MaintenanceTrace(cfg, w)
            <==> || e == Emitted(MaintenanceStarted)
                 || (if !w.configFilesOk then e == Ran(Status, w.status) || e == Emitted(GateFailed)
                     else || e == Ran(Touch, w.touch)
                          || (if Done(w.touch) then e == Emitted(JobComplete) || e in ReportsPart(cfg, w)
                              else e == Emitted(JobFailed)))
  {
    InStep(Touch, Maintenance, w.touch, e);
    hide StepTrace, ReportsPart;
  }

  /** A run shows exactly these events: which commands it runs, which hooks and containers it touches and
    * what it notifies, for every outcome of everything outside. In particular a touch or sync that exits
    * with anything but 0 or 2 ends it, and its failure is notified. */
  lemma {:induction false} EffectsIff(cfg: Config, w: World, e: Event)
    ensures e in MaintenanceTrace(cfg, w) <==> Shows(cfg, w, e)
  {
    hide MaintenanceTrace, ReportsPart, GatedPart, SyncPart, AfterSync, ScrubAndFix, Quiesce, Restore, StepTrace, Safe;
    InTrace(cfg, w, e);
    InReportsPart(cfg, w, e);
    InGatedPart(cfg, w, e);
    InSyncPart(cfg, w, e);
    InContainers(cfg, e);
    InStep(Sync, Maintenance, w.sync, e);
    InAfterSync(cfg, w, e);
    InScrubAndFix(cfg, w, e);
  }

  // ----- In which order -----

  /** What a command is followed by: its notice, except for the status refresh and for reports that fail. */
  function NoticeOf(cmd: Command, o: Outcome): seq<Event> {
    match cmd
    case Status => []
    case Diff => if o.Exited? then [Emitted(JobComplete)] else []
    case Smart => if o.Exited? then [Emitted(JobComplete)] else []
    case Touch => if Done(o) then [Emitted(JobComplete)] else [Emitted(JobFailed)]
    case Sync => if Done(o) then [Emitted(JobComplete)] else [Emitted(JobFailed)]
    case Scrub => if Done(o) then [Emitted(JobComplete)] else [Emitted(JobFailed)]
    case Fix => if Done(o) then [Emitted(JobComplete)] else [Emitted(JobFailed)]
  }

  predicate IsJobNotice(e: Event) {
    e == Emitted(JobComplete) || e == Emitted(JobFailed)
  }

  /** The place of an event in a run; the notice of a command shares its command's place. */
  function Stage(e: Event): nat {
    match e
    case Ran(cmd, _) =>
      (match cmd case Touch => 1 case Diff => 2 case Smart => 3 case Sync => 7 case Scrub => 11 case Fix => 12 case Status => 13)
    case Hook(name, _) => if name == PreSync then 4 else 10
    case Docker(action, _) => (match action case Pause => 5 case Stop => 6 case Unpause => 8 case Start => 9)
    case Emitted(notice) => if notice == MaintenanceStarted then 0 else 14
  }

  /** Job notices follow their commands, and nothing else does. */
  predicate Announced(tr: seq<Event>) {
    && (forall i | 0 <= i < |tr| && tr[i].Ran? :: NoticeOf(tr[i].cmd, tr[i].outcome) <= tr[i + 1..])
    && (forall i | 0 <= i < |tr| && IsJobNotice(tr[i]) ::
          i > 0 && tr[i - 1].Ran? && NoticeOf(tr[i - 1].cmd, tr[i - 1].outcome) == [tr[i]])
  }

  predicate InStages(tr: seq<Event>, lo: nat, hi: nat) {
    && (forall i | 0 <= i < |tr| && !IsJobNotice(tr[i]) :: lo <= Stage(tr[i]) <= hi)
    && (forall i, j | 0 <= i < j < |tr| && !IsJobNotice(tr[i]) && !IsJobNotice(tr[j]) :: Stage(tr[i]) <= Stage(tr[j]))
  }

  predicate Orderly(tr: seq<Event>, lo: nat, hi: nat) {
    InStages(tr, lo, hi) && Announced(tr)
  }

  lemma {:induction false} AnnouncedConcat(a: seq<Event>, b: seq<Event>)
    requires Announced(a) && Announced(b)
    ensures Announced(a + b)
  {
    hide NoticeOf, IsJobNotice;
    var tr := a + b;
    forall i | 0 <= i < |tr| && tr[i].Ran?
      ensures NoticeOf(tr[i].cmd, tr[i].outcome) <= tr[i + 1..]
    {
      if i < |a| {
        assert tr[i + 1..] == a[i + 1..] + b;
      } else {
        assert tr[i + 1..] == b[i - |a| + 1..];
      }
    }
    forall i | 0 <= i < |tr| && IsJobNotice(tr[i])
      ensures i > 0 && tr[i - 1].Ran? && NoticeOf(tr[i - 1].cmd, tr[i - 1].outcome) == [tr[i]]
    {
      if i >= |a| {
        assert IsJobNotice(b[i - |a|]);
      }
    }
  }

  lemma {:induction false} OrderlyConcat(a: seq<Event>, b: seq<Event>, lo: nat, m: nat, hi: nat)
    requires Orderly(a, lo, m) && Orderly(b, m, hi) && lo <= m <= hi
    ensures Orderly(a + b, lo, hi)
  {
    AnnouncedConcat(a, b);
    hide Announced, Stage, IsJobNotice;
  }

  lemma {:induction false} OrderlyWider(tr: seq<Event>, lo: nat, hi: nat, lo': nat, hi': nat)
    requires Orderly(tr, lo, hi) && lo' <= lo && hi <= hi'
    ensures Orderly(tr, lo', hi')
  {
    hide Announced, Stage, IsJobNotice;
  }

  lemma {:induction false} NothingOrderly(lo: nat, hi: nat)
    ensures Orderly([], lo, hi)
  {
  }

  lemma {:induction false} StepIs(cmd: Command, trigger: Trigger, o: Outcome)
    requires cmd != Status && (trigger == PreFlight <==> cmd in {Diff, Smart})
    ensures StepTrace(cmd, trigger, o) == [Ran(cmd, o)] + NoticeOf(cmd, o)
    ensures NoticeOf(cmd, o) in {[], [Emitted(JobComplete)], [Emitted(JobFailed)]}
  {
    StepOkIff(cmd, o);
  }

  lemma {:induction false} StepOrderly(cmd: Command, trigger: Trigger, o: Outcome)
    requires cmd != Status && (trigger == PreFlight <==> cmd in {Diff, Smart})
    ensures var k := Stage(Ran(cmd, o)); Orderly(StepTrace(cmd, trigger, o), k, k)
  {
    hide StepTrace, NoticeOf, Stage;
    StepIs(cmd, trigger, o);
    assert ([Ran(cmd, o)] + NoticeOf(cmd, o))[1..] == NoticeOf(cmd, o);
  }

  /** One event that is neither a command with a notice nor a job notice. */
  lemma {:induction false} OneOrderly(e: Event)
    requires !IsJobNotice(e) && (e.Ran? ==> e.cmd == Status)
    ensures Orderly([e], Stage(e), Stage(e))
  {
  }

  lemma {:induction false} BatchOrderly(action: DockerAction, containers: seq<string>)
    ensures var k := Stage(Docker(action, "")); Orderly(DockerBatch(action, containers), k, k)
  {
    BatchOnlyDocker(action, containers);
    hide DockerBatch;
    var tr := DockerBatch(action, containers);
    assert forall i | 0 <= i < |tr| :: tr[i] in tr;
  }

  lemma {:induction false} HookOrderly(name: HookName, configured: bool, ok: bool)
    ensures var k := Stage(Hook(name, ok)); Orderly(HookTrace(name, configured, ok), k, k)
  {
    NothingOrderly(Stage(Hook(name, ok)), Stage(Hook(name, ok)));
    OneOrderly(Hook(name, ok));
  }

  /** A command and then something later. */
  lemma {:induction false} StepThen(cmd: Command, trigger: Trigger, o: Outcome, rest: seq<Event>, hi: nat)
    requires cmd != Status && (trigger == PreFlight <==> cmd in {Diff, Smart})
    requires Stage(Ran(cmd, o)) <= hi && Orderly(rest, Stage(Ran(cmd, o)), hi)
    ensures Orderly(StepTrace(cmd, trigger, o) + rest, Stage(Ran(cmd, o)), hi)
  {
    hide Orderly, StepTrace, Stage;
    StepOrderly(cmd, trigger, o);
    OrderlyConcat(StepTrace(cmd, trigger, o), rest, Stage(Ran(cmd, o)), Stage(Ran(cmd, o)), hi);
  }

  lemma {:induction false} ScrubOrderly(cfg: Config, w: World)
    ensures Orderly(ScrubAndFix(cfg, w, Maintenance), 11, 12)
  {
    hide Orderly, StepTrace;
    var rest := if FixesBadBlocks(cfg, w.scrub) then StepTrace(Fix, AutoFix, w.fix) else [];
    StepOrderly(Fix, AutoFix, w.fix);
    OrderlyWider(StepTrace(Fix, AutoFix, w.fix), 12, 12, 11, 12);
    NothingOrderly(11, 12);
    StepThen(Scrub, Maintenance, w.scrub, rest, 12);
  }

  lemma {:induction false} AfterSyncOrderly(cfg: Config, w: World)
    ensures Orderly(AfterSync(cfg, w), 10, 14)
  {
    hide Orderly, ScrubAndFix, HookTrace;
    var finish := [Ran(Status, w.status)] + [Emitted(MaintenanceComplete)];
    ScrubOrderly(cfg, w);
    OneOrderly(Ran(Status, w.status));
    OneOrderly(Emitted(MaintenanceComplete));
    OrderlyWider([Ran(Status, w.status)], 13, 13, 12, 14);
    OrderlyConcat([Ran(Status, w.status)], [Emitted(MaintenanceComplete)], 12, 14, 14);
    assert finish == [Ran(Status, w.status), Emitted(MaintenanceComplete)];
    OrderlyConcat(ScrubAndFix(cfg, w, Maintenance), finish, 11, 12, 14);
    OrderlyWider(ScrubAndFix(cfg, w, Maintenance) + finish, 11, 14, 10, 14);
    NothingOrderly(10, 14);
    HookOrderly(PostSync, cfg.postSyncHook, w.postSyncOk);
    var rest := if StepOk(Sync, w.sync) then ScrubAndFix(cfg, w, Maintenance) + finish else [];
    OrderlyConcat(HookTrace(PostSync, cfg.postSyncHook, w.postSyncOk), rest, 10, 10, 14);
  }

  lemma {:induction false} SyncPartOrderly(cfg: Config, w: World)
    ensures Orderly(SyncPart(cfg, w), 5, 14)
  {
    hide Orderly, DockerBatch, StepTrace, AfterSync;
    BatchOrderly(Pause, cfg.pauseContainers);
    BatchOrderly(Stop, cfg.stopContainers);
    BatchOrderly(Unpause, cfg.pauseContainers);
    BatchOrderly(Start, cfg.stopContainers);
    StepOrderly(Sync, Maintenance, w.sync);
    AfterSyncOrderly(cfg, w);
    var step := StepTrace(Sync, Maintenance, w.sync);
    OrderlyWider(DockerBatch(Stop, cfg.stopContainers), 6, 6, 5, 6);
    OrderlyConcat(DockerBatch(Pause, cfg.pauseContainers), DockerBatch(Stop, cfg.stopContainers), 5, 5, 6);
    OrderlyWider(Quiesce(cfg), 5, 6, 5, 7);
    OrderlyConcat(Quiesce(cfg), step, 5, 7, 7);
    OrderlyWider(DockerBatch(Start, cfg.stopContainers), 9, 9, 8, 9);
    OrderlyConcat(DockerBatch(Unpause, cfg.pauseContainers), DockerBatch(Start, cfg.stopContainers), 8, 8, 9);
    OrderlyWider(Restore(cfg), 8, 9, 7, 10);
    OrderlyConcat(Quiesce(cfg) + step, Restore(cfg), 5, 7, 10);
    OrderlyConcat(Quiesce(cfg) + step + Restore(cfg), AfterSync(cfg, w), 5, 10, 14);
  }

  lemma {:induction false} AbortOrderly(w: World)
    ensures Orderly(GateAbort(w), 13, 14)
  {
    hide Orderly;
    OneOrderly(Ran(Status, w.status));
    OneOrderly(Emitted(GateFailed));
    OrderlyWider([Ran(Status, w.status)], 13, 13, 13, 14);
    OrderlyConcat([Ran(Status, w.status)], [Emitted(GateFailed)], 13, 14, 14);
    assert GateAbort(w) == [Ran(Status, w.status)] + [Emitted(GateFailed)];
  }

  lemma {:induction false} GatedOrderly(cfg: Config, w: World)
    ensures Orderly(GatedPart(cfg, w), 3, 14)
  {
    hide Orderly, SyncPart, GateAbort, HookTrace, GatesPass;
    AbortOrderly(w);
    OrderlyWider(GateAbort(w), 13, 14, 3, 14);
    HookOrderly(PreSync, cfg.preSyncHook, w.preSyncOk);
    OrderlyWider(HookTrace(PreSync, cfg.preSyncHook, w.preSyncOk), 4, 4, 3, 4);
    SyncPartOrderly(cfg, w);
    OrderlyWider(SyncPart(cfg, w), 5, 14, 4, 14);
    OneOrderly(Emitted(GateFailed));
    OrderlyWider([Emitted(GateFailed)], 14, 14, 4, 14);
    OrderlyConcat(HookTrace(PreSync, cfg.preSyncHook, w.preSyncOk),
                  if HookPasses(cfg.preSyncHook, w.preSyncOk) then SyncPart(cfg, w) else [Emitted(GateFailed)], 3, 4, 14);
  }

  lemma {:induction false} ReportsOrderly(cfg: Config, w: World)
    ensures Orderly(ReportsPart(cfg, w), 2, 14)
  {
    hide Orderly, GatedPart, StepTrace;
    GatedOrderly(cfg, w);
    NothingOrderly(3, 14);
    NothingOrderly(2, 14);
    var afterSmart := if StepOk(Smart, w.smart) then GatedPart(cfg, w) else [];
    StepThen(Smart, PreFlight, w.smart, afterSmart, 14);
    OrderlyWider(StepTrace(Smart, PreFlight, w.smart) + afterSmart, 3, 14, 2, 14);
    StepThen(Diff, PreFlight, w.diff, if !StepOk(Diff, w.diff) then [] else StepTrace(Smart, PreFlight, w.smart) + afterSmart, 14);
  }

  /** Whatever happens, a run goes through its stages in this order: start, touch, diff, smart, pre-sync
    * hook, pauses, stops, sync, unpauses, starts, post-sync hook, scrub, fix, status, final notice; and
    * every command is directly followed by the notice of its outcome. */
  lemma {:induction false} RunIsOrderly(cfg: Config, w: World)
    ensures Orderly(MaintenanceTrace(cfg, w), 0, 14)
  {
    hide Orderly, ReportsPart, GateAbort, StepTrace;
    ReportsOrderly(cfg, w);
    OrderlyWider(ReportsPart(cfg, w), 2, 14, 1, 14);
    NothingOrderly(1, 14);
    StepThen(Touch, Maintenance, w.touch, if StepOk(Touch, w.touch) then ReportsPart(cfg, w) else [], 14);
    AbortOrderly(w);
    OrderlyWider(GateAbort(w), 13, 14, 0, 14);
    OrderlyWider(PreflightPart(cfg, w), 1, 14, 0, 14);
    OneOrderly(Emitted(MaintenanceStarted));
    OrderlyConcat([Emitted(MaintenanceStarted)], if w.configFilesOk then PreflightPart(cfg, w) else GateAbort(w), 0, 0, 14);
  }

  // ----- Containers -----

  function Acted(e: Event, action: DockerAction): seq<string> {
    if e.Docker? && e.action == action then [e.container] else []
  }

  /** The containers an action was applied to, in order. */
  function ActedOn(tr: seq<Event>, action: DockerAction): seq<string> {
    if tr == [] then [] else ActedOn(tr[..|tr| - 1], action) + Acted(tr[|tr| - 1], action)
  }

  lemma {:induction false} ActedConcat(a: seq<Event>, b: seq<Event>, action: DockerAction)
    ensures ActedOn(a + b, action) == ActedOn(a, action) + ActedOn(b, action)
    decreases |b|
  {
    hide Acted;
    if b == [] {
      assert a + b == a;
    } else {
      ActedConcat(a, b[..|b| - 1], action);
      assert (a + b)[..|a + b| - 1] == a + b[..|b| - 1];
    }
  }

  lemma {:induction false} NoneActed(tr: seq<Event>, action: DockerAction)
    requires forall e | e in tr :: !e.Docker?
    ensures ActedOn(tr, action) == []
  {
    if tr != [] {
      assert tr[|tr| - 1] in tr;
      NoneActed(tr[..|tr| - 1], action);
    }
  }

  lemma {:induction false} BatchActed(done: DockerAction, containers: seq<string>, action: DockerAction)
    ensures ActedOn(DockerBatch(done, containers), action) == if done == action then containers else []
  {
    if containers != [] {
      var first := [Docker(done, containers[0])];
      BatchActed(done, containers[1..], action);
      ActedConcat(first, DockerBatch(done, containers[1..]), action);
      assert first[..0] == [];
      assert containers == [containers[0]] + containers[1..];
    }
  }

  lemma {:induction false} SyncPartActed(cfg: Config, w: World, action: DockerAction)
    ensures ActedOn(SyncPart(cfg, w), action)
            == if action == Pause || action == Unpause then cfg.pauseContainers else cfg.stopContainers
  {
    AfterSyncEvents(cfg, w);
    hide ActedOn, DockerBatch, AfterSync;
    var step := StepTrace(Sync, Maintenance, w.sync);
    BatchActed(Pause, cfg.pauseContainers, action);
    BatchActed(Stop, cfg.stopContainers, action);
    BatchActed(Unpause, cfg.pauseContainers, action);
    BatchActed(Start, cfg.stopContainers, action);
    NoneActed(step, action);
    NoneActed(AfterSync(cfg, w), action);
    hide StepTrace;
    ActedConcat(DockerBatch(Pause, cfg.pauseContainers), DockerBatch(Stop, cfg.stopContainers), action);
    ActedConcat(DockerBatch(Unpause, cfg.pauseContainers), DockerBatch(Start, cfg.stopContainers), action);
    ActedConcat(Quiesce(cfg), step, action);
    ActedConcat(Quiesce(cfg) + step, Restore(cfg), action);
    ActedConcat(Quiesce(cfg) + step + Restore(cfg), AfterSync(cfg, w), action);
  }

  /** Every container action is applied to exactly the configured containers, in their order, in a run that
    * is cleared to sync, and to none in any other run. */
  lemma {:induction false} ContainersActedOn(cfg: Config, w: World, action: DockerAction)
    ensures ActedOn(MaintenanceTrace(cfg, w), action)
            == if !MaySync(cfg, w) then []
               else if action == Pause || action == Unpause then cfg.pauseContainers else cfg.stopContainers
  {
    hide MaintenanceTrace, SyncPart, ActedOn, MaySync;
    if MaySync(cfg, w) {
      Shape(cfg, w);
      NoSyncBefore(cfg, w);
      hide BeforeSync;
      NoneActed(BeforeSync(cfg, w), action);
      ActedConcat(BeforeSync(cfg, w), SyncPart(cfg, w), action);
      SyncPartActed(cfg, w, action);
    } else {
      BlockedRunIsHarmless(cfg, w);
      NoneActed(MaintenanceTrace(cfg, w), action);
    }
  }

  // ----- History rows -----

  /** The status a command is recorded with. */
  function Recorded(cmd: Command, o: Outcome): RowStatus {
    if o == Refused then Aborted
    else if o == ExecError then Errored
    else if o == Exited(0) || cmd == Diff || cmd == Smart then Success
    else if o == Exited(2) then Warning
    else Errored
  }

  function TriggerOf(cmd: Command): Trigger {
    match cmd
    case Touch => Maintenance
    case Diff => PreFlight
    case Smart => PreFlight
    case Sync => Maintenance
    case Scrub => Maintenance
    case Fix => AutoFix
    case Status => Maintenance
  }

  /** The gate that stops the run, if one does. */
  predicate StopsAt(cfg: Config, w: World, gate: Gate) {
    match gate
    case ConfigFilesGate => !w.configFilesOk
    case SmartGate => Reported(w) && exists d :: d in w.disks && !IsHealthy(d, cfg.thresholds)
    case DiffGate =>
      Reported(w) && (forall d | d in w.disks :: IsHealthy(d, cfg.thresholds)) && !WithinLimits(w.report, cfg.thresholds)
    case PreSyncHookGate => Reported(w) && Safe(cfg, w) && cfg.preSyncHook && !w.preSyncOk
  }

  /** The row a run is to leave for a command it runs, or for the gate that stops it. */
  predicate Records(cfg: Config, w: World, r: Row) {
    match r.kind
    case CommandJob(cmd) =>
      cmd != Status && RunsCommand(cfg, w, cmd) && r.trigger == TriggerOf(cmd) && r.status == Recorded(cmd, OutcomeOf(w, cmd))
    case GateJob(gate) => StopsAt(cfg, w, gate) && r.trigger == PreFlight && r.status == Aborted
  }

  /** Every insert reports its id and is completed. */
  ghost predicate DbWorks(db: nat -> Db) {
    forall k: nat :: db(k) == Db(Inserted, true)
  }

  /** Rows that are not as expected were left running; with a working database there are none, and all
    * that are expected are there. */
  ghost predicate Accounts(db: nat -> Db, r: Row, there: bool, expected: bool) {
    && (there ==> r.status == RowRunning || expected)
    && (DbWorks(db) ==> (there <==> expected))
  }

  lemma {:induction false} OneAccounts(db: nat -> Db, n: nat, kind: JobKind, trigger: Trigger, final: RowStatus, r: Row)
    ensures Accounts(db, r, r in RowLeft(db(n), kind, trigger, final), r == Row(kind, trigger, final))
  {
    if DbWorks(db) {
      assert db(n) == Db(Inserted, true);
    }
  }

  /** The row of one command, recorded with the status of its outcome. */
  predicate Row1(r: Row, cmd: Command, trigger: Trigger, o: Outcome) {
    r == Row(CommandJob(cmd), trigger, Recorded(cmd, o))
  }

  lemma {:induction false} StepAccounts(db: nat -> Db, n: nat, cmd: Command, trigger: Trigger, o: Outcome, r: Row)
    requires cmd != Status
    ensures Accounts(db, r, r in RowLeft(db(n), CommandJob(cmd), trigger, StepStatus(cmd, o)), Row1(r, cmd, trigger, o))
  {
    assert StepStatus(cmd, o) == Recorded(cmd, o);
    OneAccounts(db, n, CommandJob(cmd), trigger, StepStatus(cmd, o), r);
  }

  lemma {:induction false} SyncAccounts(cfg: Config, w: World, n: nat, r: Row)
    ensures Accounts(w.db, r, r in SyncRows(cfg, w, n),
                     || Row1(r, Sync, Maintenance, w.sync)
                     || (Done(w.sync) && Row1(r, Scrub, Maintenance, w.scrub))
                     || (Done(w.sync) && cfg.autoFixBadBlocks && w.scrub == Exited(2) && Row1(r, Fix, AutoFix, w.fix)))
  {
    StepAccounts(w.db, n, Sync, Maintenance, w.sync, r);
    StepAccounts(w.db, n + 1, Scrub, Maintenance, w.scrub, r);
    StepAccounts(w.db, n + 2, Fix, AutoFix, w.fix, r);
    hide RowLeft, StepStatus, Row1, DbWorks;
  }

  lemma {:induction false} GateKinds(cfg: Config, w: World)
    ensures CheckSMART(w.disks, cfg.thresholds).Blocked? <==> exists d :: d in w.disks && !IsHealthy(d, cfg.thresholds)
    ensures CheckDiffThresholds(w.report, cfg.thresholds).Blocked? <==> !WithinLimits(w.report, cfg.thresholds)
  {
    SmartGateIff(w.disks, cfg.thresholds);
    DiffGateIff(w.report, cfg.thresholds);
    hide CheckSMART, CheckDiffThresholds, IsHealthy, WithinLimits;
  }

  /** The row of one gate. */
  predicate GateRow(r: Row, gate: Gate) {
    r == Row(GateJob(gate), PreFlight, Aborted)
  }

  lemma {:induction false} GatedAccounts(cfg: Config, w: World, n: nat, r: Row)
    ensures Accounts(w.db, r, r in GatedRows(cfg, w, n),
                     if exists d :: d in w.disks && !IsHealthy(d, cfg.thresholds) then GateRow(r, SmartGate)
                     else if !WithinLimits(w.report, cfg.thresholds) then GateRow(r, DiffGate)
                     else if cfg.preSyncHook && !w.preSyncOk then GateRow(r, PreSyncHookGate)
                     else || Row1(r, Sync, Maintenance, w.sync)
                          || (Done(w.sync) && Row1(r, Scrub, Maintenance, w.scrub))
                          || (Done(w.sync) && cfg.autoFixBadBlocks && w.scrub == Exited(2) && Row1(r, Fix, AutoFix, w.fix)))
  {
    GateKinds(cfg, w);
    SyncAccounts(cfg, w, n, r);
    OneAccounts(w.db, n, GateJob(SmartGate), PreFlight, Aborted, r);
    OneAccounts(w.db, n, GateJob(DiffGate), PreFlight, Aborted, r);
    OneAccounts(w.db, n, GateJob(PreSyncHookGate), PreFlight, Aborted, r);
    hide RowLeft, SyncRows, Row1, DbWorks, CheckSMART, CheckDiffThresholds, IsHealthy, WithinLimits;
  }

  lemma {:induction false} ReportsAccount(cfg: Config, w: World, n: nat, r: Row, gated: bool)
    requires Accounts(w.db, r, r in GatedRows(cfg, w, n + 2), gated)
    ensures Accounts(w.db, r, r in ReportsRows(cfg, w, n),
                     || Row1(r, Diff, PreFlight, w.diff)
                     || (w.diff.Exited? && (Row1(r, Smart, PreFlight, w.smart) || (w.smart.Exited? && gated))))
  {
    StepAccounts(w.db, n, Diff, PreFlight, w.diff, r);
    StepAccounts(w.db, n + 1, Smart, PreFlight, w.smart, r);
    hide RowLeft, StepStatus, GatedRows, Row1, DbWorks;
  }

  lemma {:induction false} RunAccounts(cfg: Config, w: World, n: nat, r: Row, reports: bool)
    requires Accounts(w.db, r, r in ReportsRows(cfg, w, n + 1), reports)
    ensures Accounts(w.db, r, r in MaintenanceRows(cfg, w, n),
                     if !w.configFilesOk then GateRow(r, ConfigFilesGate)
                     else Row1(r, Touch, Maintenance, w.touch) || (Done(w.touch) && reports))
  {
    StepAccounts(w.db, n, Touch, Maintenance, w.touch, r);
    OneAccounts(w.db, n, GateJob(ConfigFilesGate), PreFlight, Aborted, r);
    hide RowLeft, StepStatus, ReportsRows, Row1, DbWorks;
  }

  /** The history of a run: with a working database exactly the rows of the commands it ran and of the gate
    * that stopped it, a command as a success if it exited with 0, as a warning with 2, aborted if it was
    * refused and as an error otherwise; with any other database, those or rows left running. */
  lemma {:induction false} RowsIff(cfg: Config, w: World, n: nat, r: Row)
    ensures r in MaintenanceRows(cfg, w, n) ==> r.status == RowRunning || Records(cfg, w, r)
    ensures DbWorks(w.db) ==> (r in MaintenanceRows(cfg, w, n) <==> Records(cfg, w, r))
  {
    hide MaintenanceRows, ReportsRows, GatedRows, DbWorks, IsHealthy, WithinLimits, Recorded;
    var synced := || Row1(r, Sync, Maintenance, w.sync)
                  || (Done(w.sync) && Row1(r, Scrub, Maintenance, w.scrub))
                  || (Done(w.sync) && cfg.autoFixBadBlocks && w.scrub == Exited(2) && Row1(r, Fix, AutoFix, w.fix));
    var gated := if exists d :: d in w.disks && !IsHealthy(d, cfg.thresholds) then GateRow(r, SmartGate)
                 else if !WithinLimits(w.report, cfg.thresholds) then GateRow(r, DiffGate)
                 else if cfg.preSyncHook && !w.preSyncOk then GateRow(r, PreSyncHookGate) else synced;
    GatedAccounts(cfg, w, n + 3, r);
    ReportsAccount(cfg, w, n + 1, r, gated);
    RunAccounts(cfg, w, n, r, || Row1(r, Diff, PreFlight, w.diff)
                             || (w.diff.Exited? && (Row1(r, Smart, PreFlight, w.smart) || (w.smart.Exited? && gated))));
  }
}
