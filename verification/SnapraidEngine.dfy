/** The snapraid engine's try-lock and abort slot, and the scheduler's job mutex, under every
  * interleaving of commands, busy probes, aborts and scheduled pipelines. */
module SnapraidEngine {
  import opened Common

  /** One call of runCommand or runCommandStreaming. */
  type Call = nat
  type Probe = nat
  type AbortCall = nat
  type PipelineRun = nat

  /** Who holds the engine mutex. */
  datatype Holder = ByCall(c: Call) | ByProbe(p: Probe)

  datatype EngineError = EngineLocked | StartFailed | NoActiveJob

  // ----- The engine object, one critical section per method -----

  class Engine {
    var mu: Option<Holder>
    var cancelFn: Option<Call>

    constructor ()
      ensures mu == None && cancelFn == None
    {
      mu, cancelFn := None, None;
    }

    method TryLock(h: Holder) returns (ok: bool)
      modifies this`mu
      ensures ok == (old(mu) == None)
      ensures mu == if ok then Some(h) else old(mu)
    {
      ok := mu == None;
      if ok {
        mu := Some(h);
      }
    }

    method Unlock()
      requires mu != None
      modifies this`mu
      ensures mu == None
    {
      mu := None;
    }

    method SetCancel(fn: Option<Call>)
      modifies this`cancelFn
      ensures cancelFn == fn
    {
      cancelFn := fn;
    }

    /** A probe takes the mutex for a moment to see whether it is free. */
    method IsBusy(p: Probe) returns (busy: bool)
      modifies this`mu
      ensures busy == (old(mu) != None) && mu == old(mu)
    {
      var ok := TryLock(ByProbe(p));
      if ok {
        Unlock();
      }
      busy := !ok;
    }

    /** The cancel function Abort will call. */
    method ReadCancel() returns (fn: Result<Call, EngineError>)
      ensures fn == if cancelFn.Some? then Ok(cancelFn.value) else Err(NoActiveJob)
    {
      fn := if cancelFn.Some? then Ok(cancelFn.value) else Err(NoActiveJob);
    }

    /** runCommand seen alone: a locked engine is left untouched, and otherwise every way out gives
      * back the mutex and clears the abort slot. */
    method RunCommand(c: Call, starts: bool, exitCode: int) returns (r: Result<int, EngineError>)
      modifies this
      ensures old(mu) != None ==> r == Err(EngineLocked) && mu == old(mu) && cancelFn == old(cancelFn)
      ensures old(mu) == None ==> mu == None && cancelFn == None && r == if starts then Ok(exitCode) else Err(StartFailed)
    {
      var ok := TryLock(ByCall(c));
      if !ok {
        return Err(EngineLocked);
      }
      SetCancel(Some(c));
      r := if starts then Ok(exitCode) else Err(StartFailed);
      SetCancel(None);
      Unlock();
    }
  }

  // ----- Interleavings -----

  /** A call holds the mutex from Locked to Disarmed, can be aborted from Armed to Reaped, and has a
    * snapraid process only while Executing. */
  datatype Progress = Rejected | Locked | Armed | Executing | Reaped | Disarmed | Returned

  datatype CallState = CallState(progress: Progress, owner: Option<PipelineRun>)

  datatype State = State(
    mu: Option<Holder>,
    cancelFn: Option<Call>,
    calls: map<Call, CallState>,
    grabbed: map<AbortCall, Call>,        // the cancel function each abort has read
    aborted: set<Call>,                   // calls whose context an abort cancelled
    jobMu: Option<PipelineRun>,
    pipelines: map<PipelineRun, bool>)    // every pipeline run admitted, true while it runs

  const Initial := State(None, None, map[], map[], {}, None, map[])

  datatype Action =
    | Begin(c: Call, owner: Option<PipelineRun>)
    | Arm(c: Call)
    | Spawn(c: Call, ok: bool)
    | Reap(c: Call)
    | Disarm(c: Call)
    | Return(c: Call)
    | ProbeLock(p: Probe)
    | ProbeUnlock(p: Probe)
    | ReadAbort(a: AbortCall)
    | FireAbort(a: AbortCall)
    | StartPipeline(r: PipelineRun)
    | EndPipeline(r: PipelineRun)

  predicate At(s: State, c: Call, p: Progress) {
    c in s.calls && s.calls[c].progress == p
  }

  /** The call is inside runCommand, past its try-lock. */
  predicate HoldsMutex(s: State, c: Call) {
    c in s.calls && s.calls[c].progress in {Locked, Armed, Executing, Reaped, Disarmed}
  }

  predicate IsAbortable(s: State, c: Call) {
    c in s.calls && s.calls[c].progress in {Armed, Executing, Reaped}
  }

  predicate RunsPipeline(s: State, r: PipelineRun) {
    r in s.pipelines && s.pipelines[r]
  }

  ghost predicate HasCallInFlight(s: State, r: PipelineRun) {
    exists c :: HoldsMutex(s, c) && s.calls[c].owner == Some(r)
  }

  ghost predicate Enabled(s: State, a: Action) {
    match a
    case Begin(c, owner) =>
      c !in s.calls && (owner.Some? ==> RunsPipeline(s, owner.value) && !HasCallInFlight(s, owner.value))
    case Arm(c) => At(s, c, Locked)
    case Spawn(c, _) => At(s, c, Armed)
    case Reap(c) => At(s, c, Executing)
    case Disarm(c) => At(s, c, Reaped)
    case Return(c) => At(s, c, Disarmed)
    case ProbeLock(_) => true
    case ProbeUnlock(p) => s.mu == Some(ByProbe(p))
    case ReadAbort(a) => a !in s.grabbed
    case FireAbort(a) => a in s.grabbed
    case StartPipeline(r) => r !in s.pipelines
    case EndPipeline(r) => RunsPipeline(s, r) && !HasCallInFlight(s, r)
  }

  function Move(s: State, c: Call, p: Progress): State
    requires c in s.calls
  {
    s.(calls := s.calls[c := s.calls[c].(progress := p)])
  }

  ghost function Apply(s: State, a: Action): State
    requires Enabled(s, a)
  {
    match a
    case Begin(c, owner) =>
      if s.mu == None then s.(mu := Some(ByCall(c)), calls := s.calls[c := CallState(Locked, owner)])
      else s.(calls := s.calls[c := CallState(Rejected, owner)])
    case Arm(c) => Move(s, c, Armed).(cancelFn := Some(c))
    case Spawn(c, ok) => Move(s, c, if ok then Executing else Reaped)
    case Reap(c) => Move(s, c, Reaped)
    case Disarm(c) => Move(s, c, Disarmed).(cancelFn := None)
    case Return(c) => Move(s, c, Returned).(mu := None)
    case ProbeLock(p) => if s.mu == None then s.(mu := Some(ByProbe(p))) else s
    case ProbeUnlock(p) => s.(mu := None)
    case ReadAbort(a) => if s.cancelFn == None then s else s.(grabbed := s.grabbed[a := s.cancelFn.value])
    case FireAbort(a) => s.(aborted := s.aborted + {s.grabbed[a]})
    case StartPipeline(r) =>
      if s.jobMu == None then s.(jobMu := Some(r), pipelines := s.pipelines[r := true])
      else s.(pipelines := s.pipelines[r := false])
    case EndPipeline(r) => s.(jobMu := None, pipelines := s.pipelines[r := false])
  }

  ghost predicate Possible(s: State, trace: seq<Action>)
    decreases |trace|
  {
    trace == [] || (Enabled(s, trace[0]) && Possible(Apply(s, trace[0]), trace[1..]))
  }

  ghost function After(s: State, trace: seq<Action>): State
    requires Possible(s, trace)
    decreases |trace|
  {
    if trace == [] then s else After(Apply(s, trace[0]), trace[1..])
  }

  ghost predicate MutexOwned(s: State) {
    forall c :: HoldsMutex(s, c) <==> s.mu == Some(ByCall(c))
  }

  ghost predicate SlotOwned(s: State) {
    forall c: Call :: IsAbortable(s, c) <==> s.cancelFn == Some(c)
  }

  ghost predicate PipelineOwned(s: State) {
    forall r: PipelineRun :: RunsPipeline(s, r) <==> s.jobMu == Some(r)
  }

  /** Whatever an abort read or cancelled had been armed. */
  ghost predicate AbortsKnown(s: State) {
    && (forall a | a in s.grabbed :: s.grabbed[a] in s.calls && s.calls[s.grabbed[a]].progress !in {Rejected, Locked})
    && (forall c | c in s.aborted :: c in s.calls && s.calls[c].progress !in {Rejected, Locked})
  }

  ghost predicate Inv(s: State) {
    MutexOwned(s) && SlotOwned(s) && PipelineOwned(s) && AbortsKnown(s)
  }

  lemma {:induction false} MutexOwnedStep(s: State, a: Action)
    requires Inv(s) && Enabled(s, a)
    ensures MutexOwned(Apply(s, a))
  {
    var s' := Apply(s, a);
    forall c: Call
      ensures HoldsMutex(s', c) <==> s'.mu == Some(ByCall(c))
    {
      assert HoldsMutex(s, c) <==> s.mu == Some(ByCall(c));
      if a.Arm? || a.Spawn? || a.Reap? || a.Disarm? || a.Return? {
        assert HoldsMutex(s, a.c);
      }
    }
  }

  lemma {:induction false} SlotOwnedStep(s: State, a: Action)
    requires Inv(s) && Enabled(s, a)
    ensures SlotOwned(Apply(s, a))
  {
    var s' := Apply(s, a);
    forall c: Call
      ensures IsAbortable(s', c) <==> s'.cancelFn == Some(c)
    {
      assert IsAbortable(s, c) <==> s.cancelFn == Some(c);
      if a.Arm? || a.Spawn? || a.Reap? || a.Disarm? {
        assert HoldsMutex(s, a.c) && (IsAbortable(s, c) ==> HoldsMutex(s, c));
      }
    }
  }

  lemma {:induction false} PipelineOwnedStep(s: State, a: Action)
    requires Inv(s) && Enabled(s, a)
    ensures PipelineOwned(Apply(s, a))
  {
    var s' := Apply(s, a);
    forall r: PipelineRun
      ensures RunsPipeline(s', r) <==> s'.jobMu == Some(r)
    {
      assert RunsPipeline(s, r) <==> s.jobMu == Some(r);
    }
  }

  lemma {:induction false} AbortsKnownStep(s: State, a: Action)
    requires Inv(s) && Enabled(s, a)
    ensures AbortsKnown(Apply(s, a))
  {
    if a.ReadAbort? && s.cancelFn.Some? {
      assert IsAbortable(s, s.cancelFn.value);
    }
  }

  lemma {:induction false} InvStep(s: State, a: Action)
    requires Inv(s) && Enabled(s, a)
    ensures Inv(Apply(s, a))
  {
    MutexOwnedStep(s, a);
    SlotOwnedStep(s, a);
    PipelineOwnedStep(s, a);
    AbortsKnownStep(s, a);
  }

  lemma {:induction false} InvAlways(s: State, trace: seq<Action>)
    requires Inv(s) && Possible(s, trace)
    ensures Inv(After(s, trace))
    decreases |trace|
  {
    if trace != [] {
      InvStep(s, trace[0]);
      InvAlways(Apply(s, trace[0]), trace[1..]);
    }
  }

  /** At every moment at most one snapraid command process runs, its call holds the mutex, and at most one
    * pipeline runs, whatever manual commands, refreshes, probes and aborts do meanwhile. (The version
    * query, which touches no array, bypasses the mutex and is not among the calls.) */
  lemma {:induction false} MutualExclusion(trace: seq<Action>)
    requires Possible(Initial, trace)
    ensures
      var s := After(Initial, trace);
      && (forall c, d | At(s, c, Executing) && At(s, d, Executing) :: c == d)
      && (forall c: Call | At(s, c, Executing) :: s.mu == Some(ByCall(c)) && s.cancelFn == Some(c))
      && (forall q, r | RunsPipeline(s, q) && RunsPipeline(s, r) :: q == r)
  {
    InvAlways(Initial, trace);
    var s := After(Initial, trace);
    forall c: Call | At(s, c, Executing)
      ensures s.mu == Some(ByCall(c)) && s.cancelFn == Some(c)
    {
      assert HoldsMutex(s, c) && IsAbortable(s, c);
    }
  }

  /** The abort slot names a call only while that call holds the mutex, and Abort reports "no active
    * operation" exactly when no call is between arming and disarming the slot; in particular also
    * for a call that holds the mutex but has not armed it yet. */
  lemma {:induction false} AbortSlot(trace: seq<Action>)
    requires Possible(Initial, trace)
    ensures
      var s := After(Initial, trace);
      && (s.cancelFn.Some? ==> s.mu == Some(ByCall(s.cancelFn.value)))
      && (s.cancelFn == None <==> forall c :: !IsAbortable(s, c))
      && (forall c: Call | At(s, c, Locked) :: s.cancelFn == None)
  {
    InvAlways(Initial, trace);
    var s := After(Initial, trace);
    if s.cancelFn.Some? {
      assert IsAbortable(s, s.cancelFn.value);
      assert HoldsMutex(s, s.cancelFn.value);
    }
    forall c: Call | At(s, c, Locked)
      ensures s.cancelFn == None
    {
      assert HoldsMutex(s, c);
    }
  }

  /** What an abort has read does not change, and calls are never forgotten. */
  lemma {:induction false} GrabbedStays(s: State, trace: seq<Action>)
    requires Possible(s, trace)
    ensures forall a | a in s.grabbed :: a in After(s, trace).grabbed && After(s, trace).grabbed[a] == s.grabbed[a]
    decreases |trace|
  {
    if trace != [] {
      var s' := Apply(s, trace[0]);
      assert forall a | a in s.grabbed :: a in s'.grabbed && s'.grabbed[a] == s.grabbed[a];
      GrabbedStays(s', trace[1..]);
    }
  }

  /** An abort cancels the one call whose cancel function it read, which was in flight at that
    * moment; a call that began after the read is never the one, however late the abort fires. */
  lemma {:induction false} AbortHitsWhatItRead(before: seq<Action>, a: AbortCall, between: seq<Action>)
    requires Possible(Initial, before) && Enabled(After(Initial, before), ReadAbort(a))
    requires After(Initial, before).cancelFn.Some?
    requires Possible(Apply(After(Initial, before), ReadAbort(a)), between)
    ensures
      var s := After(Initial, before);
      var c := s.cancelFn.value;
      var s' := After(Apply(s, ReadAbort(a)), between);
      && IsAbortable(s, c)
      && Enabled(s', FireAbort(a))
      && Apply(s', FireAbort(a)).aborted == s'.aborted + {c}
      && (forall d | d in s'.calls && d !in s.calls :: d != c)
  {
    InvAlways(Initial, before);
    GrabbedStays(Apply(After(Initial, before), ReadAbort(a)), between);
  }

  /** A command is refused exactly when another call or a busy probe holds the mutex. */
  lemma {:induction false} RefusedIff(trace: seq<Action>, c: Call, owner: Option<PipelineRun>)
    requires Possible(Initial, trace) && Enabled(After(Initial, trace), Begin(c, owner))
    ensures
      var s := After(Initial, trace);
      At(Apply(s, Begin(c, owner)), c, Rejected)
      <==> (exists d :: HoldsMutex(s, d)) || (exists p :: s.mu == Some(ByProbe(p)))
  {
    InvAlways(Initial, trace);
    var s := After(Initial, trace);
    if s.mu.Some? && s.mu.value.ByCall? {
      assert HoldsMutex(s, s.mu.value.c);
    }
  }

  /** A probe alone can make a command fail as locked although nothing is running. */
  lemma {:induction false} ProbeRefusesCommand()
    ensures Possible(Initial, [ProbeLock(0), Begin(0, None)])
    ensures
      var s := After(Initial, [ProbeLock(0), Begin(0, None)]);
      At(s, 0, Rejected) && forall c :: !HoldsMutex(s, c)
  {
    var s1 := Initial.(mu := Some(ByProbe(0)));
    var s2 := s1.(calls := map[0 := CallState(Rejected, None)]);
    var trace := [ProbeLock(0), Begin(0, None)];
    assert Apply(Initial, trace[0]) == s1;
    assert trace[1..] == [Begin(0, None)];
    assert Apply(s1, Begin(0, None)) == s2;
    assert After(s2, []) == s2 && [Begin(0, None)][1..] == [];
    assert Possible(s1, [Begin(0, None)]) && After(s1, [Begin(0, None)]) == s2;
  }

  // ----- The engine lives through a run -----

  ghost predicate Mirrors(e: Engine, s: State)
    reads e
  {
    e.mu == s.mu && e.cancelFn == s.cancelFn
  }

  /** Each action is one critical section on the engine, or none, and leaves it as the action says. */
  method Do(e: Engine, a: Action, ghost s: State)
    requires Mirrors(e, s) && Inv(s) && Enabled(s, a)
    modifies e
    ensures Mirrors(e, Apply(s, a))
  {
    hide SlotOwned, PipelineOwned, AbortsKnown;
    match a
    case Begin(c, _) =>
      var _ := e.TryLock(ByCall(c));
    case Arm(c) =>
      e.SetCancel(Some(c));
    case Spawn(_, _) =>
    case Reap(_) =>
    case Disarm(_) =>
      e.SetCancel(None);
    case Return(c) =>
      assert HoldsMutex(s, c);
      e.Unlock();
    case ProbeLock(p) =>
      var _ := e.TryLock(ByProbe(p));
    case ProbeUnlock(_) =>
      e.Unlock();
    case ReadAbort(_) =>
      var _ := e.ReadCancel();
    case FireAbort(_) =>
    case StartPipeline(_) =>
    case EndPipeline(_) =>
  }

  /** Taking the actions of any run on a fresh engine leaves it in the state the run ends in. */
  method DoAll(trace: seq<Action>) returns (e: Engine)
    requires Possible(Initial, trace)
    ensures fresh(e) && Mirrors(e, After(Initial, trace))
  {
    hide Apply, Enabled, Inv;
    e := new Engine();
    ghost var s := Initial;
    assert trace[0..] == trace;
    InvInitial();
    for i := 0 to |trace|
      invariant fresh(e) && Mirrors(e, s) && Inv(s)
      invariant Possible(s, trace[i..]) && After(s, trace[i..]) == After(Initial, trace)
    {
      assert trace[i..][1..] == trace[i + 1..] && trace[i..][0] == trace[i];
      InvStep(s, trace[i]);
      Do(e, trace[i], s);
      s := Apply(s, trace[i]);
    }
  }

  lemma {:induction false} InvInitial()
    ensures Inv(Initial)
  {
  }
}
