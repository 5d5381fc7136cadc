/** One burn-in job and the full pipeline built on it: phase order, verdict and final status. */
module BurninJob {
  import opened Common

  datatype Phase = Preflight | SmartShort | Badblocks | SmartExtended | Complete

  /** What a burn-in can be found to have failed for; the source joins these into one string. */
  datatype Reason =
    | PhaseFailure(phase: Phase)
    | SelfTestFailure
    | AttributeDegradation
    | BadBlocks(count: nat)

  datatype Error = PhaseError(phase: Phase) | ContextCancelled

  datatype SelfTest = TestError | Tested(passed: bool)
  datatype SnapshotRead = SnapshotError | Delta(degraded: bool)
  datatype Scan = ScanError | Scanned(errors: nat)

  /** Everything the outside world decides in one burn-in: drives, tools and the job's context. */
  datatype World = World(
    resolves: bool, safe: bool, baselineTaken: bool, cancelledInPreflight: bool,
    short: SelfTest, cancelledInShort: bool,
    isSSD: bool, logDirReady: bool, scan: Scan, cancelledInBadblocks: bool,
    extended: SelfTest, finalSnapshot: SnapshotRead, cancelledInExtended: bool)

  /** The world lets every phase run to its end. */
  predicate ErrorFree(abortOnError: bool, w: World) {
    && w.resolves && w.safe && w.baselineTaken && !w.cancelledInPreflight
    && w.short.Tested? && !w.cancelledInShort
    && (w.isSSD || (w.logDirReady && w.scan.Scanned? && !(abortOnError && w.scan.errors > 0)))
    && !w.cancelledInBadblocks
    && w.extended.Tested? && !w.cancelledInExtended
  }

  function BadBlocksFound(w: World): nat {
    if !w.isSSD && w.scan.Scanned? then w.scan.errors else 0
  }

  /** What a burn-in is for: the drive is good. */
  predicate DriveIsGood(w: World) {
    && w.short == Tested(true)
    && w.extended == Tested(true)
    && BadBlocksFound(w) == 0
    && w.finalSnapshot != Delta(true)
  }

  class Job {
    const abortOnError: bool
    var entered: seq<Phase>
    var passed: bool
    var reasons: seq<Reason>
    var badblockErrs: nat
    var shortTest: Option<bool>
    var longTest: Option<bool>
    var finalDegraded: Option<bool>

    /** Whether the destructive scan was started. */
    var scanned: bool

    constructor (abortOnError: bool)
      ensures this.abortOnError == abortOnError
      ensures entered == [] && passed && reasons == [] && badblockErrs == 0 && !scanned
      ensures shortTest == longTest == finalDegraded == None
    {
      this.abortOnError := abortOnError;
      entered, passed, reasons, badblockErrs := [], true, [], 0;
      shortTest, longTest, finalDegraded, scanned := None, None, None, false;
    }

    /** A phase that ends with `err` leaves its failure as the only reason, if it is one. */
    twostate predicate Reports(phase: Phase, new err: Option<Error>)
      reads this
    {
      && err in {None, Some(PhaseError(phase)), Some(ContextCancelled)}
      && passed == (old(passed) && err != Some(PhaseError(phase)))
      && reasons == if err == Some(PhaseError(phase)) then [PhaseFailure(phase)] else old(reasons)
    }

    method Fail(phase: Phase) returns (err: Option<Error>)
      modifies this`passed, this`reasons
      ensures !passed && reasons == [PhaseFailure(phase)] && err == Some(PhaseError(phase))
    {
      passed, reasons := false, [PhaseFailure(phase)];
      err := Some(PhaseError(phase));
    }

    method RunPreflight(w: World) returns (err: Option<Error>)
      modifies this`entered, this`passed, this`reasons
      ensures entered == old(entered) + [Preflight]
      ensures Reports(Preflight, err)
      ensures err == Some(PhaseError(Preflight)) <==> !w.resolves || !w.safe || !w.baselineTaken
      ensures err == None <==> w.resolves && w.safe && w.baselineTaken && !w.cancelledInPreflight
    {
      entered := entered + [Preflight];
      if !w.resolves {
        err := Fail(Preflight);
        return;
      }
      if !w.safe {
        err := Fail(Preflight);
        return;
      }
      if !w.baselineTaken {
        err := Fail(Preflight);
        return;
      }
      err := if w.cancelledInPreflight then Some(ContextCancelled) else None;
    }

    method RunSmartShort(w: World) returns (err: Option<Error>)
      modifies this`entered, this`passed, this`reasons, this`shortTest
      ensures entered == old(entered) + [SmartShort]
      ensures Reports(SmartShort, err)
      ensures err == Some(PhaseError(SmartShort)) <==> w.short.TestError?
      ensures err == None <==> w.short.Tested? && !w.cancelledInShort
      ensures err == None ==> shortTest == Some(w.short.passed)
    {
      entered := entered + [SmartShort];
      if w.short.TestError? {
        err := Fail(SmartShort);
        return;
      }
      shortTest := Some(w.short.passed);
      err := if w.cancelledInShort then Some(ContextCancelled) else None;
    }

    method RunBadblocks(w: World) returns (err: Option<Error>)
      modifies this`entered, this`passed, this`reasons, this`badblockErrs, this`scanned
      ensures entered == old(entered) + [Badblocks]
      ensures scanned == (old(scanned) || (!w.isSSD && w.logDirReady))
      ensures Reports(Badblocks, err)
      ensures err == Some(PhaseError(Badblocks)) <==>
          && !w.isSSD
          && (!w.logDirReady || (w.scan.ScanError? && !w.cancelledInBadblocks) || (w.scan.Scanned? && abortOnError && w.scan.errors > 0))
      ensures err == None <==>
          && (w.isSSD || (w.logDirReady && w.scan.Scanned? && !(abortOnError && w.scan.errors > 0)))
          && !w.cancelledInBadblocks
      ensures err == None ==> badblockErrs == if w.isSSD then old(badblockErrs) else w.scan.errors
    {
      entered := entered + [Badblocks];
      if w.isSSD {
        return if w.cancelledInBadblocks then Some(ContextCancelled) else None;
      }
      if !w.logDirReady {
        err := Fail(Badblocks);
        return;
      }
      scanned := true;
      if w.scan.ScanError? {
        if w.cancelledInBadblocks {
          return Some(ContextCancelled);
        }
        err := Fail(Badblocks);
        return;
      }
      badblockErrs := w.scan.errors;
      if w.scan.errors > 0 && abortOnError {
        err := Fail(Badblocks);
        return;
      }
      err := if w.cancelledInBadblocks then Some(ContextCancelled) else None;
    }

    method RunSmartExtended(w: World) returns (err: Option<Error>)
      modifies this`entered, this`passed, this`reasons, this`longTest, this`finalDegraded
      ensures entered == old(entered) + [SmartExtended]
      ensures Reports(SmartExtended, err)
      ensures err == Some(PhaseError(SmartExtended)) <==> w.extended.TestError?
      ensures err == None <==> w.extended.Tested? && !w.cancelledInExtended
      ensures err == None ==>
          && longTest == Some(w.extended.passed)
          && finalDegraded == if w.finalSnapshot.Delta? then Some(w.finalSnapshot.degraded) else old(finalDegraded)
    {
      entered := entered + [SmartExtended];
      if w.extended.TestError? {
        err := Fail(SmartExtended);
        return;
      }
      longTest := Some(w.extended.passed);
      if w.finalSnapshot.Delta? {
        finalDegraded := Some(w.finalSnapshot.degraded);
      }
      err := if w.cancelledInExtended then Some(ContextCancelled) else None;
    }

    /** Aggregates the verdict of all phases. */
    method Aggregate()
      requires shortTest.Some?
      modifies this`entered, this`passed, this`reasons
      ensures entered == old(entered) + [Complete]
      ensures passed == (old(passed) && shortTest == Some(true) && longTest != Some(false) && finalDegraded != Some(true)
                         && badblockErrs == 0)
      ensures reasons ==
              (if shortTest == Some(false) || longTest == Some(false) then [SelfTestFailure] else old(reasons))
              + (if finalDegraded == Some(true) then [AttributeDegradation] else [])
              + (if badblockErrs > 0 then [BadBlocks(badblockErrs)] else [])
    {
      entered := entered + [Complete];
      if !shortTest.value || (longTest.Some? && !longTest.value) {
        passed, reasons := false, [SelfTestFailure];
      }
      if finalDegraded.Some? && finalDegraded.value {
        passed, reasons := false, reasons + [AttributeDegradation];
      }
      if badblockErrs > 0 {
        passed, reasons := false, reasons + [BadBlocks(badblockErrs)];
      }
    }
  }

  /** RunBurnin: the phases run in order, each one exactly when all before it ended without an error, and
    * the error returned is that of the phase that stopped it. The destructive scan is started exactly on
    * a resolved, safe, rotating drive whose baseline and short test were taken. A burn-in that ends without
    * an error passes exactly when the drive is good, and has a fail reason exactly when it did not. */
  method RunBurnin(abortOnError: bool, w: World) returns (job: Job, err: Option<Error>)
    ensures fresh(job)
    ensures
      var toShort := w.resolves && w.safe && w.baselineTaken && !w.cancelledInPreflight;
      var toScan := toShort && w.short.Tested? && !w.cancelledInShort;
      var scanOk := w.isSSD || (w.logDirReady && w.scan.Scanned? && (abortOnError ==> w.scan.errors == 0));
      var toExtended := toScan && scanOk && !w.cancelledInBadblocks;
      var toEnd := toExtended && w.extended.Tested? && !w.cancelledInExtended;
      && job.entered == [Preflight] + (if toShort then [SmartShort] else []) + (if toScan then [Badblocks] else [])
                        + (if toExtended then [SmartExtended] else []) + (if toEnd then [Complete] else [])
      && job.scanned == (toScan && !w.isSSD && w.logDirReady)
      && (err == None <==> toEnd)
      && (err == Some(PhaseError(Preflight)) <==> !w.resolves || !w.safe || !w.baselineTaken)
      && (err == Some(PhaseError(SmartShort)) <==> toShort && w.short.TestError?)
      && (err == Some(PhaseError(Badblocks)) <==> toScan && !scanOk && !(w.logDirReady && w.scan.ScanError? && w.cancelledInBadblocks))
      && (err == Some(PhaseError(SmartExtended)) <==> toExtended && w.extended.TestError?)
    ensures err.Some? && err.value.PhaseError? ==> !job.passed && job.reasons == [PhaseFailure(err.value.phase)]
    ensures err == Some(ContextCancelled) ==> job.passed && job.reasons == []
    ensures err == None <==> ErrorFree(abortOnError, w)
    ensures err == None ==>
        && job.passed == (w.short == w.extended == Tested(true) && (w.isSSD || w.scan == Scanned(0)) && w.finalSnapshot != Delta(true))
        && job.passed == DriveIsGood(w)
        && (job.reasons == [] <==> job.passed)
        && (SelfTestFailure in job.reasons <==> !(w.short.passed && w.extended.passed))
        && (AttributeDegradation in job.reasons <==> w.finalSnapshot == Delta(true))
        && (forall n :: BadBlocks(n) in job.reasons <==> !w.isSSD && w.scan == Scanned(n) && n > 0)
  {
    job := new Job(abortOnError);
    err := job.RunPreflight(w);
    if err != None {
      return;
    }
    err := job.RunSmartShort(w);
    if err != None {
      return;
    }
    err := job.RunBadblocks(w);
    if err != None {
      return;
    }
    err := job.RunSmartExtended(w);
    if err != None {
      return;
    }
    job.Aggregate();
  }

  // ----- The manager's record of a job -----

  datatype Status = Running | Completed | Failed | Cancelled

  /** Where the record says a full job is. */
  datatype Stage = AtPreflight | AtBurnin | AtPreclear | AtEnd

  /** How a pre-clear, which is not modelled further, ends. */
  datatype PreclearOutcome = PreclearError | PreclearVerdict(passed: bool)

  class JobRecord {
    var status: Status
    var stages: seq<Stage>
    var burninPassed: Option<bool>

    constructor ()
      ensures status == Running && stages == [AtPreflight] && burninPassed == None
    {
      status, stages, burninPassed := Running, [AtPreflight], None;
    }

    method HandlePhaseError(ctxErr: bool, failed: bool) returns (abort: bool)
      modifies this`status
      ensures abort == failed
      ensures status == if !failed then old(status) else if ctxErr then Cancelled else Failed
    {
      if !failed {
        return false;
      }
      status := if ctxErr then Cancelled else Failed;
      abort := true;
    }

    /** runFullJob. `ctxErrA`, `ctxErrBetween` and `ctxErrB` say whether the job's context was found
      * cancelled after the burn-in, between the halves and after the pre-clear. */
    method RunFullJob(abortOnError: bool, w: World, ctxErrA: bool, ctxErrBetween: bool, preclear: PreclearOutcome, ctxErrB: bool)
      requires status == Running && burninPassed == None
      modifies this
      ensures
        var burninOk := ErrorFree(abortOnError, w) && DriveIsGood(w);
        var toPreclear := burninOk && !ctxErrBetween;
        && stages == old(stages) + [AtBurnin] + (if toPreclear then [AtPreclear] else [])
        && burninPassed == (if burninOk then Some(true) else None)
        && (status == Completed <==> toPreclear && preclear == PreclearVerdict(true))
        && (status == Cancelled <==>
              || (!ErrorFree(abortOnError, w) && ctxErrA)
              || (burninOk && ctxErrBetween)
              || (toPreclear && preclear.PreclearError? && ctxErrB))
        && (status == Failed <==>
              || (!ErrorFree(abortOnError, w) && !ctxErrA)
              || (ErrorFree(abortOnError, w) && !DriveIsGood(w))
              || (toPreclear && preclear.PreclearError? && !ctxErrB)
              || (toPreclear && preclear == PreclearVerdict(false)))
        && status != Running
    {
      stages := stages + [AtBurnin];
      var job, err := RunBurnin(abortOnError, w);
      var abort := HandlePhaseError(ctxErrA, err.Some?);
      if abort {
        return;
      }
      if !job.passed {
        status := Failed;
        return;
      }
      burninPassed := Some(true);
      if ctxErrBetween {
        status := Cancelled;
        return;
      }
      stages := stages + [AtPreclear];
      abort := HandlePhaseError(ctxErrB, preclear.PreclearError?);
      if abort {
        return;
      }
      status := if preclear.passed then Completed else Failed;
    }

    /** runJob of a full job followed by the deferred finishJob: whatever happens, the record ends
      * in the last stage with exactly one terminal status. */
    method RunToEnd(abortOnError: bool, w: World, ctxErrA: bool, ctxErrBetween: bool, preclear: PreclearOutcome, ctxErrB: bool)
      requires status == Running && burninPassed == None && stages == [AtPreflight]
      modifies this
      ensures status in {Completed, Failed, Cancelled}
      ensures AtPreclear in stages <==> burninPassed == Some(true) && !ctxErrBetween
      ensures burninPassed == Some(true) <==> ErrorFree(abortOnError, w) && DriveIsGood(w)
      ensures status == Completed ==> AtPreclear in stages && burninPassed == Some(true) && preclear == PreclearVerdict(true)
      ensures |stages| > 0 && stages[|stages| - 1] == AtEnd && AtEnd !in stages[..|stages| - 1]
    {
      RunFullJob(abortOnError, w, ctxErrA, ctxErrBetween, preclear, ctxErrB);
      stages := stages + [AtEnd];
    }
  }
}
