/** The burn-in hub over arbitrary frame sequences, all jobs and agents interleaved. */
module BurninHubRuns {
  import opened Common
  import opened BurninHub
  import Ring

  /** A processed frame and whether the upstream client was set by then. */
  datatype Input = Input(frame: Frame, upstream: bool)

  predicate IsOf(i: Input, job: nat) {
    i.frame.ProgressFrame? && i.frame.job == Some(job)
  }

  /** What the hub keeps about `job` after the run. */
  function After(run: seq<Input>, job: nat): JobView {
    if run == [] then NOTHING
    else
      var v, i := After(run[..|run| - 1], job), run[|run| - 1];
      if IsOf(i, job) then NextView(v, i.frame.progress, i.upstream) else v
  }

  /** All lifecycle notifications of the run. */
  function Notices(run: seq<Input>): seq<Notice> {
    if run == [] then []
    else
      var init, i := run[..|run| - 1], run[|run| - 1];
      Notices(init)
      + if i.frame.ProgressFrame? && i.frame.job.Some?
        then Told(After(init, i.frame.job.value), i.frame.job.value, i.frame.progress, i.upstream) else []
  }

  /** Everything the run appends to the log ring. */
  function History(run: seq<Input>): seq<Entry> {
    if run == [] then []
    else
      var init, i := run[..|run| - 1], run[|run| - 1];
      History(init) + Appended(init, i.frame)
  }

  /** What one more frame appends. */
  function Appended(run: seq<Input>, f: Frame): seq<Entry> {
    match f
    case ProgressFrame(job, p) => if job.Some? then Written(After(run, job.value), job.value, p) else []
    case LogFrame(agent, level, message) => [LogEntry(agent, level, message)]
    case OtherFrame => []
  }

  /** The ring itself. */
  function RingAfter(run: seq<Input>): seq<Entry> {
    if run == [] then []
    else
      var init, i := run[..|run| - 1], run[|run| - 1];
      match i.frame
      case ProgressFrame(job, p) =>
        if job.Some? then Logged(RingAfter(init), After(init, job.value), job.value, p) else RingAfter(init)
      case LogFrame(agent, level, message) => Ring.Next(RingAfter(init), LogEntry(agent, level, message), MAX_STORED_LOGS)
      case OtherFrame => RingAfter(init)
  }

  // ----- Started and complete alternate -----

  function OfJob(notices: seq<Notice>, job: nat): seq<Notice> {
    if notices == [] then []
    else
      OfJob(notices[..|notices| - 1], job)
      + if notices[|notices| - 1].job == job then [notices[|notices| - 1]] else []
  }

  lemma {:induction false} OfJobConcat(a: seq<Notice>, b: seq<Notice>, job: nat)
    ensures OfJob(a + b, job) == OfJob(a, job) + OfJob(b, job)
    decreases |b|
  {
    if b == [] {
      assert a + b == a;
    } else {
      OfJobConcat(a, b[..|b| - 1], job);
      assert (a + b)[..|a + b| - 1] == a + b[..|b| - 1];
    }
  }

  lemma {:induction false} OfJobAll(notices: seq<Notice>, job: nat)
    ensures (forall n | n in notices :: n.job == job) ==> OfJob(notices, job) == notices
    ensures (forall n | n in notices :: n.job != job) ==> OfJob(notices, job) == []
  {
    if notices != [] {
      var init := notices[..|notices| - 1];
      OfJobAll(init, job);
      assert notices == init + [notices[|notices| - 1]];
      assert forall n | n in init :: n in notices;
    }
  }

  predicate Alternates(notices: seq<Notice>) {
    forall i | 0 <= i < |notices| :: notices[i].Started? <==> i % 2 == 0
  }

  lemma {:induction false} ToldKeepsAlternation(ns: seq<Notice>, v: JobView, job: nat, p: Progress, upstream: bool)
    requires Alternates(ns) && (v.known <==> |ns| % 2 == 1)
    ensures
      var ms := ns + Told(v, job, p, upstream);
      Alternates(ms) && (NextView(v, p, upstream).known <==> |ms| % 2 == 1)
  {
    hide IsCompletion, PhaseKey;
  }

  lemma {:induction false} ToldIsOfJob(v: JobView, job: nat, p: Progress, upstream: bool)
    ensures forall n | n in Told(v, job, p, upstream) :: n.job == job
  {
  }

  /** Over any frame sequence, whenever the upstream connection comes and goes, a job's started and
    * complete notifications strictly alternate, and the hub knows the job exactly while the last one
    * was a start. */
  lemma {:induction false} StartedCompleteAlternate(run: seq<Input>, job: nat)
    ensures
      var ns := OfJob(Notices(run), job);
      Alternates(ns) && (After(run, job).known <==> |ns| % 2 == 1)
  {
    if run != [] {
      var init, i := run[..|run| - 1], run[|run| - 1];
      StartedCompleteAlternate(init, job);
      hide After, Told, NextView;
      if i.frame.ProgressFrame? && i.frame.job.Some? {
        var k, p := i.frame.job.value, i.frame.progress;
        var told := Told(After(init, k), k, p, i.upstream);
        OfJobConcat(Notices(init), told, job);
        ToldIsOfJob(After(init, k), k, p, i.upstream);
        OfJobAll(told, job);
        AfterStep(run, job);
        if k == job {
          ToldKeepsAlternation(OfJob(Notices(init), job), After(init, job), job, p, i.upstream);
        } else {
          assert OfJob(Notices(init), job) + [] == OfJob(Notices(init), job);
        }
      } else {
        AfterStep(run, job);
        assert Notices(init) + [] == Notices(init);
      }
    }
  }

  lemma {:induction false} AfterStep(run: seq<Input>, job: nat)
    requires run != []
    ensures
      var v, i := After(run[..|run| - 1], job), run[|run| - 1];
      After(run, job) == if IsOf(i, job) then NextView(v, i.frame.progress, i.upstream) else v
  {
    hide NextView;
  }

  // ----- What is told of a job -----

  /** The frame ends its job: all done, whether completed or cancelled. */
  predicate Finishes(p: Progress) {
    p.percent >= 100.0 && (p.phase == "COMPLETE" || p.phase == "CANCELLED")
  }

  predicate IsFinish(i: Input, job: nat) {
    IsOf(i, job) && i.upstream && Finishes(i.frame.progress)
  }

  /** A notice for each frame that ends the job while the upstream client is set. */
  function Finished(run: seq<Input>, job: nat): seq<Notice> {
    if run == [] then []
    else
      var i := run[|run| - 1];
      Finished(run[..|run| - 1], job)
      + if IsFinish(i, job) then [Completed(job, i.frame.progress.phase == "CANCELLED")] else []
  }

  /** Whether the last frame of the job that the upstream client could hear of left it running. */
  function Running(run: seq<Input>, job: nat): bool {
    if run == [] then false
    else
      var i := run[|run| - 1];
      if IsOf(i, job) && i.upstream then !Finishes(i.frame.progress) else Running(run[..|run| - 1], job)
  }

  function CompletedOf(ns: seq<Notice>): seq<Notice> {
    if ns == [] then []
    else CompletedOf(ns[..|ns| - 1]) + if ns[|ns| - 1].Completed? then [ns[|ns| - 1]] else []
  }

  lemma {:induction false} CompletedConcat(a: seq<Notice>, b: seq<Notice>)
    ensures CompletedOf(a + b) == CompletedOf(a) + CompletedOf(b)
    decreases |b|
  {
    if b == [] {
      assert a + b == a;
    } else {
      CompletedConcat(a, b[..|b| - 1]);
      assert (a + b)[..|a + b| - 1] == a + b[..|b| - 1];
    }
  }

  lemma {:induction false} CompletedOne(n: Notice)
    ensures CompletedOf([]) == [] && CompletedOf([n]) == if n.Completed? then [n] else []
  {
    assert [n][..0] == [];
  }

  lemma {:induction false} ToldCompletes(v: JobView, job: nat, p: Progress, upstream: bool)
    ensures CompletedOf(Told(v, job, p, upstream))
         == if upstream && Finishes(p) then [Completed(job, p.phase == "CANCELLED")] else []
    ensures upstream ==> (NextView(v, p, upstream).known <==> !Finishes(p))
    ensures !upstream ==> NextView(v, p, upstream).known == v.known
  {
    var c := Completed(job, p.phase == "CANCELLED");
    CompletedOne(Started(job));
    CompletedOne(c);
    hide CompletedOf, PhaseKey;
    var started, completed := if v.known then [] else [Started(job)], if Finishes(p) then [c] else [];
    CompletedConcat(started, completed);
    assert [] + completed == completed;
  }

  /** Over any run the completions told of a job are exactly the frames that ended it while the upstream
    * client was set, each with how it ended, and the job is known exactly while the last frame told left
    * it running. */
  lemma {:induction false} CompletionsTold(run: seq<Input>, job: nat)
    ensures CompletedOf(OfJob(Notices(run), job)) == Finished(run, job)
    ensures After(run, job).known == Running(run, job)
  {
    if run != [] {
      var init, i := run[..|run| - 1], run[|run| - 1];
      CompletionsTold(init, job);
      NoticesStep(run);
      AfterStep(run, job);
      hide After, Told, NextView, Notices, CompletedOf, OfJob, Finishes;
      if i.frame.ProgressFrame? && i.frame.job.Some? {
        var k, p := i.frame.job.value, i.frame.progress;
        var told := Told(After(init, k), k, p, i.upstream);
        OfJobConcat(Notices(init), told, job);
        ToldIsOfJob(After(init, k), k, p, i.upstream);
        OfJobAll(told, job);
        if k == job {
          ToldCompletes(After(init, job), job, p, i.upstream);
          CompletedConcat(OfJob(Notices(init), job), told);
        } else {
          assert OfJob(Notices(init), job) + [] == OfJob(Notices(init), job);
        }
      } else {
        assert Notices(init) + [] == Notices(init);
      }
      assert Finished(init, job) + [] == Finished(init, job);
    }
  }

  // ----- No leftovers -----

  /** Phases and deltas are only kept for jobs with active progress. */
  lemma {:induction false} KeysInsideActive(run: seq<Input>, job: nat)
    ensures
      var v := After(run, job);
      (v.phase.Some? ==> v.active.Some?) && (v.smart.Some? ==> v.active.Some?)
  {
    if run != [] {
      KeysInsideActive(run[..|run| - 1], job);
      hide After, IsCompletion, PhaseKey;
      AfterStep(run, job);
    }
  }

  /** A known job loses its progress without being forgotten exactly when its completion arrives while
    * there is no upstream connection. */
  lemma {:induction false} KnownLeaksIff(v: JobView, p: Progress, upstream: bool)
    requires v.known ==> v.active.Some?
    ensures
      var w := NextView(v, p, upstream);
      (w.known && w.active == None) <==> IsCompletion(p) && v.known && !upstream
  {
    hide IsCompletion, PhaseKey;
  }

  /** What KnownInsideActive rules out: were the connection taken away, a job completed meanwhile would
    * stay known without progress. The program sets its client once and never clears it. */
  lemma {:induction false} OutageLeavesKnownJob(job: nat, p: Progress, q: Progress)
    requires !IsCompletion(p) && IsCompletion(q)
    ensures
      var v := After([Input(ProgressFrame(Some(job), p), true), Input(ProgressFrame(Some(job), q), false)], job);
      v.known && v.active == None
  {
    hide IsCompletion, PhaseKey;
    var first, second := Input(ProgressFrame(Some(job), p), true), Input(ProgressFrame(Some(job), q), false);
    assert [first, second][..1] == [first] && [first][..0] == [];
    AfterStep([first], job);
    AfterStep([first, second], job);
  }

  /** The upstream connection is never taken away again. */
  predicate UpstreamStays(run: seq<Input>) {
    forall i, k | 0 <= i < k < |run| && run[i].upstream :: run[k].upstream
  }

  predicate EverUpstream(run: seq<Input>) {
    exists i :: 0 <= i < |run| && run[i].upstream
  }

  /** As SetUpstream is only ever called with a client, known jobs always have active progress. */
  lemma {:induction false} KnownInsideActive(run: seq<Input>, job: nat)
    requires UpstreamStays(run)
    ensures After(run, job).known ==> After(run, job).active.Some? && EverUpstream(run)
  {
    if run != [] {
      var init, i := run[..|run| - 1], run[|run| - 1];
      assert forall k | 0 <= k < |init| :: init[k] == run[k];
      KnownInsideActive(init, job);
      AfterStep(run, job);
      hide After, NextView, IsCompletion;
      if EverUpstream(init) {
        var k :| 0 <= k < |init| && init[k].upstream;
        assert run[k].upstream;
      }
      if IsOf(i, job) {
        KnownLeaksIff(After(init, job), i.frame.progress, i.upstream);
        KnownOrigin(After(init, job), i.frame.progress, i.upstream);
      }
    }
  }

  lemma {:induction false} KnownOrigin(v: JobView, p: Progress, upstream: bool)
    ensures NextView(v, p, upstream).known ==> v.known || upstream
  {
    hide IsCompletion, PhaseKey;
  }

  // ----- Active progress -----

  function LastProgress(run: seq<Input>, job: nat): Option<Progress> {
    if run == [] then None
    else if IsOf(run[|run| - 1], job) then Some(run[|run| - 1].frame.progress)
    else LastProgress(run[..|run| - 1], job)
  }

  /** The progress kept for a job is its last frame, unless that completed it. */
  lemma {:induction false} ActiveIsLast(run: seq<Input>, job: nat)
    ensures
      var last := LastProgress(run, job);
      After(run, job).active == if last.Some? && !IsCompletion(last.value) then last else None
  {
    if run != [] {
      ActiveIsLast(run[..|run| - 1], job);
      hide After, IsCompletion, PhaseKey;
      AfterStep(run, job);
    }
  }

  /** The job's progress frames. */
  function ProgressOf(run: seq<Input>, job: nat): seq<Progress> {
    if run == [] then []
    else
      ProgressOf(run[..|run| - 1], job) + if IsOf(run[|run| - 1], job) then [run[|run| - 1].frame.progress] else []
  }

  /** Frame `i` is the last one to carry deltas, and nothing completed the job since. */
  predicate Freshest(ps: seq<Progress>, i: int) {
    && 0 <= i < |ps| && ps[i].smartDeltas.Some? && !IsCompletion(ps[i])
    && forall k | i < k < |ps| :: ps[k].smartDeltas == None && !IsCompletion(ps[k])
  }

  /** `delta` is the latest the frames carry since the last completion. */
  ghost predicate LatestDelta(ps: seq<Progress>, delta: nat) {
    exists i :: Freshest(ps, i) && ps[i].smartDeltas == Some(delta)
  }

  lemma {:induction false} FreshestSnoc(ps: seq<Progress>, p: Progress, i: int)
    ensures Freshest(ps + [p], i)
            <==> if i == |ps| then p.smartDeltas.Some? && !IsCompletion(p)
                 else Freshest(ps, i) && p.smartDeltas == None && !IsCompletion(p)
  {
    hide IsCompletion;
    var all := ps + [p];
    assert all[|ps|] == p && forall k | 0 <= k < |ps| :: all[k] == ps[k];
  }

  lemma {:induction false} SmartStep(ps: seq<Progress>, p: Progress, delta: nat, v: JobView, upstream: bool)
    requires v.smart == Some(delta) <==> LatestDelta(ps, delta)
    ensures NextView(v, p, upstream).smart == Some(delta) <==> LatestDelta(ps + [p], delta)
  {
    hide IsCompletion, PhaseKey;
    var all := ps + [p];
    assert all[|ps|] == p;
    FreshestSnoc(ps, p, |ps|);
    if LatestDelta(all, delta) {
      var i :| Freshest(all, i) && all[i].smartDeltas == Some(delta);
      FreshestSnoc(ps, p, i);
    }
    if LatestDelta(ps, delta) {
      var i :| Freshest(ps, i) && ps[i].smartDeltas == Some(delta);
      FreshestSnoc(ps, p, i);
      assert all[i] == ps[i];
    }
  }

  /** The deltas kept for a job are the latest it sent since its last completion. */
  lemma {:induction false} SmartIsFreshest(run: seq<Input>, job: nat, delta: nat)
    ensures After(run, job).smart == Some(delta) <==> LatestDelta(ProgressOf(run, job), delta)
  {
    if run != [] {
      var init, input := run[..|run| - 1], run[|run| - 1];
      var ps := ProgressOf(init, job);
      SmartIsFreshest(init, job, delta);
      AfterStep(run, job);
      hide After, IsCompletion, PhaseKey;
      if IsOf(input, job) {
        assert ProgressOf(run, job) == ps + [input.frame.progress];
        hide LatestDelta, NextView, ProgressOf;
        SmartStep(ps, input.frame.progress, delta, After(init, job), input.upstream);
      } else {
        assert ProgressOf(run, job) == ps + [] == ps;
        hide LatestDelta, ProgressOf;
      }
    }
  }

  // ----- The phase history -----

  /** The job's frames that name a phase. */
  function PhaseFrames(run: seq<Input>, job: nat): seq<Progress> {
    if run == [] then []
    else
      PhaseFrames(run[..|run| - 1], job)
      + if IsOf(run[|run| - 1], job) && run[|run| - 1].frame.progress.phase != "" then [run[|run| - 1].frame.progress] else []
  }

  /** The frame enters a phase: it is the first, or follows a completion, or differs from the one before. */
  predicate Enters(ps: seq<Progress>, i: nat)
    requires i < |ps|
  {
    i == 0 || IsCompletion(ps[i - 1]) || PhaseKey(ps[i - 1]) != PhaseKey(ps[i])
  }

  /** The phase sequence with adjacent repeats removed, restarting at each completion. */
  function Entered(ps: seq<Progress>, job: nat): seq<Entry> {
    if ps == [] then []
    else
      var n := |ps| - 1;
      Entered(ps[..n], job) + if Enters(ps, n) then [PhaseEntry(job, ps[n].agent, ps[n].phase, ps[n].detail)] else []
  }

  /** The phase entries of one job. */
  function PhasesOf(entries: seq<Entry>, job: nat): seq<Entry> {
    if entries == [] then []
    else
      var e := entries[|entries| - 1];
      PhasesOf(entries[..|entries| - 1], job) + if e.PhaseEntry? && e.job == job then [e] else []
  }

  lemma {:induction false} PhasesOfSnoc(entries: seq<Entry>, e: Entry, job: nat)
    ensures PhasesOf(entries + [e], job) == PhasesOf(entries, job) + if e.PhaseEntry? && e.job == job then [e] else []
  {
    assert (entries + [e])[..|entries|] == entries;
  }

  /** The hub remembers the key of the last phase frame since the last completion. */
  lemma {:induction false} RemembersLastPhase(run: seq<Input>, job: nat)
    ensures
      var ps := PhaseFrames(run, job);
      After(run, job).phase
      == if ps == [] || IsCompletion(ps[|ps| - 1]) then None else Some(PhaseKey(ps[|ps| - 1]))
  {
    if run != [] {
      var init, i := run[..|run| - 1], run[|run| - 1];
      RemembersLastPhase(init, job);
      AfterStep(run, job);
      hide After, PhaseKey;
      if IsOf(i, job) {
        CompletionNamesPhase(i.frame.progress);
      }
    }
  }

  lemma {:induction false} CompletionNamesPhase(p: Progress)
    ensures IsCompletion(p) ==> p.phase != ""
  {
  }

  lemma {:induction false} PhaseFramesStep(run: seq<Input>, job: nat)
    requires run != []
    ensures
      var i := run[|run| - 1];
      PhaseFrames(run, job) == PhaseFrames(run[..|run| - 1], job)
                               + if IsOf(i, job) && i.frame.progress.phase != "" then [i.frame.progress] else []
  {
  }

  lemma {:induction false} EnteredSnoc(ps: seq<Progress>, p: Progress, job: nat)
    ensures Entered(ps + [p], job)
         == Entered(ps, job)
            + if ps == [] || IsCompletion(ps[|ps| - 1]) || PhaseKey(ps[|ps| - 1]) != PhaseKey(p)
              then [PhaseEntry(job, p.agent, p.phase, p.detail)] else []
  {
    hide PhaseKey, IsCompletion;
    assert (ps + [p])[..|ps|] == ps;
  }

  /** Some details of the two phases have the same key. */
  ghost predicate Confused(p: Progress, q: Progress) {
    exists d, e :: PhaseKey(p.(detail := d)) == PhaseKey(q.(detail := e))
  }

  /** The key of a phase tells its details apart; the keys of two phases can coincide exactly when one
    * phase's name goes on after the other's with a bar. */
  lemma {:induction false} KeyConfusesIff(p: Progress, q: Progress)
    ensures p.phase == q.phase ==> (PhaseKey(p) == PhaseKey(q) <==> p.detail == q.detail)
    ensures p.phase != q.phase ==> (Confused(p, q) <==> p.phase + "|" <= q.phase || q.phase + "|" <= p.phase)
  {
    if p.phase == q.phase {
      assert PhaseKey(p)[|p.phase| + 1..] == p.detail && PhaseKey(q)[|q.phase| + 1..] == q.detail;
    } else {
      if Confused(p, q) {
        var d, e :| PhaseKey(p.(detail := d)) == PhaseKey(q.(detail := e));
        if |p.phase| <= |q.phase| {
          GoesOn(p.phase, d, q.phase, e);
        } else {
          GoesOn(q.phase, e, p.phase, d);
        }
      }
      if p.phase + "|" <= q.phase {
        SameKey(p, q);
      }
      if q.phase + "|" <= p.phase {
        SameKey(q, p);
      }
    }
  }

  lemma {:induction false} GoesOn(a: string, d: string, b: string, e: string)
    requires a + "|" + d == b + "|" + e && a != b && |a| <= |b|
    ensures a + "|" <= b
  {
    var k := a + "|" + d;
    assert k[..|a|] == a && k[..|b|] == b;
    assert |a| < |b| && k[..|b|][..|a| + 1] == a + "|";
  }

  lemma {:induction false} SameKey(p: Progress, q: Progress)
    requires p.phase + "|" <= q.phase
    ensures Confused(p, q) && Confused(q, p)
  {
    var d := q.phase[|p.phase| + 1..] + "|";
    assert q.phase == p.phase + "|" + q.phase[|p.phase| + 1..];
    assert PhaseKey(p.(detail := d)) == PhaseKey(q.(detail := ""));
  }

  /** The phase entries written for a job are its phase sequence with adjacent repeats removed,
    * restarting at each completion, however other jobs and log lines interleave. */
  lemma {:induction false} PhaseHistory(run: seq<Input>, job: nat)
    ensures PhasesOf(History(run), job) == Entered(PhaseFrames(run, job), job)
  {
    if run != [] {
      var init, i := run[..|run| - 1], run[|run| - 1];
      PhaseHistory(init, job);
      RemembersLastPhase(init, job);
      PhaseFramesStep(run, job);
      hide After, PhaseKey, IsCompletion, PhaseFrames, PhasesOf, Entered, Appended;
      var ps := PhaseFrames(init, job);
      AppendedPhases(History(init), init, i, job);
      if IsOf(i, job) && i.frame.progress.phase != "" {
        EnteredSnoc(ps, i.frame.progress, job);
      } else {
        assert ps + [] == ps && PhasesOf(History(init), job) + [] == PhasesOf(History(init), job);
      }
    }
  }

  lemma {:induction false} AppendedPhases(entries: seq<Entry>, run: seq<Input>, i: Input, job: nat)
    ensures PhasesOf(entries + Appended(run, i.frame), job)
         == PhasesOf(entries, job)
            + if IsOf(i, job) && Writes(After(run, job), i.frame.progress)
              then [PhaseEntry(job, i.frame.progress.agent, i.frame.progress.phase, i.frame.progress.detail)] else []
  {
    hide After, PhaseKey, PhasesOf;
    assert entries + [] == entries && PhasesOf(entries, job) + [] == PhasesOf(entries, job);
    match i.frame
    case ProgressFrame(k, p) =>
      if k.Some? && Writes(After(run, k.value), p) {
        PhasesOfSnoc(entries, PhaseEntry(k.value, p.agent, p.phase, p.detail), job);
      }
    case LogFrame(agent, level, message) =>
      PhasesOfSnoc(entries, LogEntry(agent, level, message), job);
    case OtherFrame =>
  }

  /** The log entries among all entries. */
  function LogsOf(entries: seq<Entry>): seq<Entry> {
    if entries == [] then []
    else LogsOf(entries[..|entries| - 1]) + if entries[|entries| - 1].LogEntry? then [entries[|entries| - 1]] else []
  }

  /** What the agents logged, in the order it arrived. */
  function LogsSent(run: seq<Input>): seq<Entry> {
    if run == [] then []
    else
      var f := run[|run| - 1].frame;
      LogsSent(run[..|run| - 1]) + if f.LogFrame? then [LogEntry(f.agent, f.level, f.message)] else []
  }

  lemma {:induction false} LogsOfSnoc(entries: seq<Entry>, e: Entry)
    ensures LogsOf(entries + [e]) == LogsOf(entries) + if e.LogEntry? then [e] else []
  {
    assert (entries + [e])[..|entries|] == entries;
  }

  /** Every log line any agent sends is written, in order and once, between the phases. */
  lemma {:induction false} LogHistory(run: seq<Input>)
    ensures LogsOf(History(run)) == LogsSent(run)
  {
    if run != [] {
      var init, i := run[..|run| - 1], run[|run| - 1];
      LogHistory(init);
      hide After, Writes, LogsOf;
      assert History(init) + [] == History(init) && LogsSent(init) + [] == LogsSent(init) == LogsOf(History(init)) + [];
      match i.frame
      case ProgressFrame(k, p) =>
        if k.Some? && Writes(After(init, k.value), p) {
          LogsOfSnoc(History(init), PhaseEntry(k.value, p.agent, p.phase, p.detail));
        }
      case LogFrame(agent, level, message) =>
        LogsOfSnoc(History(init), LogEntry(agent, level, message));
      case OtherFrame =>
    }
  }

  // ----- The log ring -----

  lemma {:induction false} ContentsSnoc(history: seq<Entry>, e: Entry)
    ensures Ring.Contents(history + [e], MAX_STORED_LOGS) == Ring.Next(Ring.Contents(history, MAX_STORED_LOGS), e, MAX_STORED_LOGS)
  {
    hide Ring.Next;
    assert (history + [e])[..|history|] == history;
  }

  lemma {:induction false} RingIsContents(run: seq<Input>)
    ensures RingAfter(run) == Ring.Contents(History(run), MAX_STORED_LOGS)
  {
    if run != [] {
      var init, i := run[..|run| - 1], run[|run| - 1];
      RingIsContents(init);
      hide After, Writes, Ring.Next, Ring.Contents;
      assert History(init) + [] == History(init);
      match i.frame
      case ProgressFrame(k, p) =>
        if k.Some? && Writes(After(init, k.value), p) {
          ContentsSnoc(History(init), PhaseEntry(k.value, p.agent, p.phase, p.detail));
        }
      case LogFrame(agent, level, message) =>
        ContentsSnoc(History(init), LogEntry(agent, level, message));
      case OtherFrame =>
    }
  }

  /** Queries see the newest entries only, and at least the newest nine thousand and one. */
  lemma {:induction false} RingHoldsNewest(run: seq<Input>)
    ensures
      var h, r := History(run), RingAfter(run);
      && |r| <= |h| && r == h[|h| - |r|..]
      && |r| <= 10000 && |r| >= if |h| <= 9001 then |h| else 9001
  {
    RingIsContents(run);
    Ring.ContentsIsSuffix(History(run), MAX_STORED_LOGS);
    Ring.ContentsBounded(History(run), MAX_STORED_LOGS);
  }

  // ----- The aggregator serves a run -----

  /** The hub's state is what the run functions say. */
  ghost predicate Serves(hub: Aggregator, run: seq<Input>, notices: seq<Notice>)
    reads hub
  {
    (forall j :: hub.View(j) == After(run, j)) && hub.logRing == RingAfter(run) && notices == Notices(run)
  }

  lemma {:induction false} NoticesStep(run: seq<Input>)
    requires run != []
    ensures
      var init, i := run[..|run| - 1], run[|run| - 1];
      Notices(run) == Notices(init)
        + if i.frame.ProgressFrame? && i.frame.job.Some?
          then Told(After(init, i.frame.job.value), i.frame.job.value, i.frame.progress, i.upstream) else []
  {
    hide Told, After;
  }

  lemma {:induction false} RingStep(run: seq<Input>)
    requires run != []
    ensures
      var init, i := run[..|run| - 1], run[|run| - 1];
      RingAfter(run)
      == match i.frame
         case ProgressFrame(job, p) =>
           if job.Some? then Logged(RingAfter(init), After(init, job.value), job.value, p) else RingAfter(init)
         case LogFrame(agent, level, message) => Ring.Next(RingAfter(init), LogEntry(agent, level, message), MAX_STORED_LOGS)
         case OtherFrame => RingAfter(init)
  {
    hide Logged, After, Ring.Next;
  }

  /** One frame of the read loop. */
  method ServeOne(hub: Aggregator, ghost done: seq<Input>, i: Input, notices: seq<Notice>) returns (all: seq<Notice>)
    requires Serves(hub, done, notices) && (hub.upstream ==> i.upstream)
    modifies hub
    ensures Serves(hub, done + [i], all) && hub.upstream == i.upstream
  {
    hide After, RingAfter, Notices, NextView, Told, Logged, Ring.Next;
    if i.upstream && !hub.upstream {
      hub.SetUpstream();
    }
    var ns := hub.ProcessFrame(i.frame);
    all := notices + ns;
    ghost var run := done + [i];
    assert run[..|done|] == done;
    forall j
      ensures hub.View(j) == After(run, j)
    {
      AfterStep(run, j);
    }
    NoticesStep(run);
    RingStep(run);
  }

  /** The read loop over a whole run, from a fresh hub: state, ring and notifications are those of the
    * run functions, so every result above is about the aggregator. */
  method Serve(run: seq<Input>) returns (hub: Aggregator, notices: seq<Notice>)
    requires UpstreamStays(run)
    ensures fresh(hub) && Serves(hub, run, notices)
  {
    hide NextView, Told, Logged, Ring.Next;
    hub := new Aggregator();
    notices := [];
    assert run[..0] == [];
    for i := 0 to |run|
      invariant fresh(hub) && Serves(hub, run[..i], notices)
      invariant hub.upstream ==> i > 0 && run[i - 1].upstream
    {
      assert run[..i + 1] == run[..i] + [run[i]];
      notices := ServeOne(hub, run[..i], run[i], notices);
    }
    assert run[..|run|] == run;
  }
}
