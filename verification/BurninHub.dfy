/** The burn-in hub: what it keeps per job, what it notifies, and the phase history it writes into the
  * log ring. One processFrame call is one step. Agents and jobs are opaque ids. */
module BurninHub {
  import opened Common
  import Ring

  const MAX_STORED_LOGS: nat := 10000

  datatype Progress = Progress(
    agent: nat, phase: string, detail: string, percent: real, smartDeltas: Option<nat>, command: string)

  /** A frame; a progress frame need not carry a job id. */
  datatype Frame =
    | ProgressFrame(job: Option<nat>, progress: Progress)
    | LogFrame(agent: nat, level: string, message: string)
    | OtherFrame

  /** A stored log line: a phase the hub saw, or what an agent logged. */
  datatype Entry = PhaseEntry(job: nat, agent: nat, phase: string, detail: string) | LogEntry(agent: nat, level: string, message: string)

  datatype Notice = Started(job: nat) | Completed(job: nat, cancelled: bool)

  predicate IsCompletion(p: Progress) {
    p.percent >= 100.0 && (p.phase == "COMPLETE" || p.phase == "CANCELLED")
  }

  function PhaseKey(p: Progress): string {
    p.phase + "|" + p.detail
  }

  // ----- One progress frame of one job, as a function -----

  /** What the hub keeps about one job. */
  datatype JobView = JobView(active: Option<Progress>, smart: Option<nat>, phase: Option<string>, known: bool)

  const NOTHING := JobView(None, None, None, false)

  function NextView(v: JobView, p: Progress, upstream: bool): JobView {
    if IsCompletion(p) then JobView(None, None, None, if upstream then false else v.known)
    else
      JobView(Some(p), if p.smartDeltas.Some? then p.smartDeltas else v.smart,
              if p.phase == "" then v.phase else Some(PhaseKey(p)), upstream || v.known)
  }

  /** A phase is written down unless it repeats the last one. */
  predicate Writes(v: JobView, p: Progress) {
    p.phase != "" && v.phase != Some(PhaseKey(p))
  }

  function Written(v: JobView, job: nat, p: Progress): seq<Entry> {
    if Writes(v, p) then [PhaseEntry(job, p.agent, p.phase, p.detail)] else []
  }

  /** The log ring after the frame. */
  function Logged(ring: seq<Entry>, v: JobView, job: nat, p: Progress): seq<Entry> {
    if Writes(v, p) then Ring.Next(ring, PhaseEntry(job, p.agent, p.phase, p.detail), MAX_STORED_LOGS) else ring
  }

  function Told(v: JobView, job: nat, p: Progress, upstream: bool): seq<Notice> {
    if !upstream then []
    else
      (if v.known then [] else [Started(job)])
      + if IsCompletion(p) then [Completed(job, p.phase == "CANCELLED")] else []
  }

  // ----- The aggregator -----

  class Aggregator {
    var activeProgress: map<nat, Progress>
    var smartDeltas: map<nat, nat>
    var lastPhase: map<nat, string>
    var knownJobs: map<nat, bool>
    var logRing: seq<Entry>
    var upstream: bool

    constructor ()
      ensures (forall j :: View(j) == NOTHING) && logRing == [] && !upstream
    {
      activeProgress, smartDeltas, lastPhase, knownJobs, logRing := map[], map[], map[], map[], [];
      upstream := false;
    }

    ghost function View(job: nat): JobView
      reads this
    {
      JobView(Lookup(activeProgress, job), Lookup(smartDeltas, job), Lookup(lastPhase, job),
              job in knownJobs && knownJobs[job])
    }

    method SetUpstream()
      modifies `upstream
      ensures upstream
    {
      upstream := true;
    }

    method StoreLog(e: Entry)
      modifies `logRing
      ensures logRing == Ring.Next(old(logRing), e, MAX_STORED_LOGS)
    {
      logRing := Ring.Next(logRing, e, MAX_STORED_LOGS);
    }

    method StoreProgressLocally(job: Option<nat>, p: Progress)
      modifies `activeProgress, `smartDeltas
      ensures job == None ==> activeProgress == old(activeProgress) && smartDeltas == old(smartDeltas)
      ensures job.Some? ==> activeProgress == old(activeProgress)[job.value := p]
      ensures job.Some? ==> smartDeltas == if p.smartDeltas == None then old(smartDeltas) else old(smartDeltas)[job.value := p.smartDeltas.value]
    {
      if job == None {
        return;
      }
      activeProgress := activeProgress[job.value := p];
      if p.smartDeltas.Some? {
        smartDeltas := smartDeltas[job.value := p.smartDeltas.value];
      }
    }

    method StorePhaseTransition(job: Option<nat>, p: Progress)
      modifies `lastPhase, `logRing
      ensures
        var writes := job.Some? && p.phase != "" && Lookup(old(lastPhase), job.value) != Some(PhaseKey(p));
        && lastPhase == (if writes then old(lastPhase)[job.value := PhaseKey(p)] else old(lastPhase))
        && logRing == if writes then Ring.Next(old(logRing), PhaseEntry(job.value, p.agent, p.phase, p.detail), MAX_STORED_LOGS)
                      else old(logRing)
    {
      if p.phase == "" || job == None {
        return;
      }
      var phaseKey := PhaseKey(p);
      if job.value in lastPhase && lastPhase[job.value] == phaseKey {
        return;
      }
      lastPhase := lastPhase[job.value := phaseKey];
      StoreLog(PhaseEntry(job.value, p.agent, p.phase, p.detail));
    }

    method CleanupIfComplete(job: Option<nat>, p: Progress)
      modifies `activeProgress, `smartDeltas, `lastPhase
      ensures
        var gone := if job.Some? && IsCompletion(p) then {job.value} else {};
        && activeProgress == old(activeProgress) - gone && smartDeltas == old(smartDeltas) - gone
        && lastPhase == old(lastPhase) - gone
    {
      if IsCompletion(p) && job.Some? {
        lastPhase := lastPhase - {job.value};
        smartDeltas := smartDeltas - {job.value};
        activeProgress := activeProgress - {job.value};
      }
    }

    method EvaluateJobLifecycle(job: nat, p: Progress) returns (notices: seq<Notice>)
      modifies `knownJobs
      ensures notices == Told(old(View(job)), job, p, true)
      ensures View(job) == old(View(job)).(known := !IsCompletion(p))
      ensures forall j | j != job :: View(j) == old(View(j))
    {
      notices := [];
      if !(job in knownJobs && knownJobs[job]) {
        knownJobs := knownJobs[job := true];
        notices := notices + [Started(job)];
      }
      if IsCompletion(p) {
        knownJobs := knownJobs - {job};
        notices := notices + [Completed(job, p.phase == "CANCELLED")];
      }
    }

    /** The local bookkeeping, which does not depend on the upstream connection. */
    method Store(job: nat, p: Progress)
      modifies `activeProgress, `smartDeltas, `lastPhase, `logRing
      ensures View(job) == NextView(old(View(job)), p, false)
      ensures forall j | j != job :: View(j) == old(View(j))
      ensures logRing == Logged(old(logRing), old(View(job)), job, p)
    {
      hide Ring.Next, PhaseKey;
      StoreProgressLocally(Some(job), p);
      StorePhaseTransition(Some(job), p);
      CleanupIfComplete(Some(job), p);
    }

    /** A progress frame advances its own job by one step and no other, appends the phase it enters to
      * the ring, and notifies the job's lifecycle. */
    method ProcessProgress(job: nat, p: Progress) returns (notices: seq<Notice>)
      modifies this
      ensures upstream == old(upstream)
      ensures View(job) == NextView(old(View(job)), p, upstream)
      ensures forall j | j != job :: View(j) == old(View(j))
      ensures notices == Told(old(View(job)), job, p, upstream)
      ensures logRing == Logged(old(logRing), old(View(job)), job, p)
    {
      hide Logged, PhaseKey;
      Store(job, p);
      notices := [];
      if upstream {
        notices := EvaluateJobLifecycle(job, p);
      }
    }

    /** BusyAgentIDs. */
    method BusyAgentIDs() returns (busy: set<nat>)
      ensures forall a :: a in busy <==> exists j :: j in activeProgress && activeProgress[j].agent == a
    {
      busy := {};
      var left := activeProgress.Keys;
      while left != {}
        invariant left <= activeProgress.Keys
        invariant forall a :: a in busy <==> exists j :: j in activeProgress && j !in left && activeProgress[j].agent == a
        decreases left
      {
        var j :| j in left;
        left, busy := left - {j}, busy + {activeProgress[j].agent};
      }
    }

    /** processFrame. */
    method ProcessFrame(f: Frame) returns (notices: seq<Notice>)
      modifies this
      ensures upstream == old(upstream)
      ensures f.ProgressFrame? && f.job.Some? ==>
          && View(f.job.value) == NextView(old(View(f.job.value)), f.progress, upstream)
          && (forall j | j != f.job.value :: View(j) == old(View(j)))
          && notices == Told(old(View(f.job.value)), f.job.value, f.progress, upstream)
          && logRing == Logged(old(logRing), old(View(f.job.value)), f.job.value, f.progress)
      ensures !(f.ProgressFrame? && f.job.Some?) ==>
          && notices == [] && (forall j :: View(j) == old(View(j)))
          && logRing == if f.LogFrame? then Ring.Next(old(logRing), LogEntry(f.agent, f.level, f.message), MAX_STORED_LOGS)
             else old(logRing)
    {
      hide Ring.Next, NextView, Told, Logged;
      notices := [];
      match f
      case ProgressFrame(job, p) =>
        if job.Some? {
          notices := ProcessProgress(job.value, p);
        } else {
          StoreProgressLocally(None, p);
          StorePhaseTransition(None, p);
          CleanupIfComplete(None, p);
        }
      case LogFrame(agent, level, message) =>
        StoreLog(LogEntry(agent, level, message));
      case OtherFrame =>
    }
  }
}
