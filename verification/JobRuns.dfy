/** Every interleaving of job starts, finishes, aborts and polls, one critical section at a time. */
module JobRuns {
  import opened Common
  import opened JobTables

  /** How far one accepted StartJob call and the goroutine it spawns have come. The drive is locked
    * from Claimed to FinalSaved; StartJob has returned the id from Started on. */
  datatype Progress = Claimed | Registered | Started | FinalSaved | Released | Done

  function Rank(p: Progress): nat {
    match p
    case Claimed => 0
    case Registered => 1
    case Started => 2
    case FinalSaved => 3
    case Released => 4
    case Done => 5
  }

  datatype Run = Run(id: JobId, device: Device, progress: Progress)

  predicate HoldsDrive(r: Run) {
    Rank(r.progress) <= Rank(FinalSaved)
  }

  predicate HasStarted(r: Run) {
    Rank(Started) <= Rank(r.progress)
  }

  /** The job goroutine is running and has not yet given up the drive. */
  predicate IsLive(r: Run) {
    HasStarted(r) && HoldsDrive(r)
  }

  datatype State = State(
    persist: bool,                     // whether a persistence layer is configured
    tables: Tables,
    activeJobs: map<JobId, Ticket>,
    states: map<JobId, JobRecord>,
    runs: map<Ticket, Run>,            // every StartJob call accepted so far
    cancelling: set<Ticket>,           // cancel functions an abort has looked up
    cancelled: set<Ticket>)            // contexts that were cancelled

  function Initial(persist: bool): State {
    State(persist, Tables(map[], map[]), map[], map[], map[], {}, {})
  }

  datatype Action =
    | Claim(t: Ticket, id: JobId, device: Device)
    | Register(t: Ticket)
    | Launch(t: Ticket)                        // save the initial state and start the goroutine
    | SavePhase(t: Ticket)                     // runFullJob's saves while running
    | SaveFinal(t: Ticket, status: JobStatus)
    | Release(t: Ticket)
    | Unregister(t: Ticket)
    | LookupAbort(id: JobId)                   // DELETE /api/jobs/{id}
    | LookupCancel(id: JobId)                  // CancelJob
    | FireCancel(t: Ticket)

  predicate At(s: State, t: Ticket, p: Progress) {
    t in s.runs && s.runs[t].progress == p
  }

  predicate Enabled(s: State, a: Action) {
    match a
    case Claim(t, _, _) => t !in s.runs
    case Register(t) => At(s, t, Claimed)
    case Launch(t) => At(s, t, Registered)
    case SavePhase(t) => At(s, t, Started)
    case SaveFinal(t, status) => At(s, t, Started) && status in {Completed, Failed, Cancelled}
    case Release(t) => At(s, t, FinalSaved)
    case Unregister(t) => At(s, t, Released)
    case LookupAbort(_) => true
    case LookupCancel(_) => true
    case FireCancel(t) => t in s.cancelling
  }

  function Advance(s: State, t: Ticket, p: Progress): State
    requires t in s.runs
  {
    s.(runs := s.runs[t := s.runs[t].(progress := p)])
  }

  function Save(s: State, t: Ticket, status: JobStatus): State
    requires t in s.runs
  {
    if !s.persist then s
    else
      var id := s.runs[t].id;
      s.(states := s.states[id := JobRecord(id, t, status)])
  }

  function AddOption<T>(ts: set<T>, o: Option<T>): set<T> {
    if o.Some? then ts + {o.value} else ts
  }

  function Apply(s: State, a: Action): State
    requires Enabled(s, a)
  {
    match a
    case Claim(t, id, device) =>
      if device in s.tables.driveLocks then s
      else s.(tables := ClaimDrive(s.tables, t, id, device), runs := s.runs[t := Run(id, device, Claimed)])
    case Register(t) => Advance(s, t, Registered).(activeJobs := s.activeJobs[s.runs[t].id := t])
    case Launch(t) => Advance(Save(s, t, Running), t, Started)
    case SavePhase(t) => Save(s, t, Running)
    case SaveFinal(t, status) => Advance(Save(s, t, status), t, FinalSaved)
    case Release(t) =>
      Advance(s, t, Released).(tables := ReleaseDrive(s.tables, s.runs[t].id, s.runs[t].device))
    case Unregister(t) => Advance(s, t, Done).(activeJobs := s.activeJobs - {s.runs[t].id})
    case LookupAbort(id) => s.(cancelling := AddOption(s.cancelling, Lookup(s.activeJobs, id)))
    case LookupCancel(id) => s.(cancelling := AddOption(s.cancelling, Lookup(s.tables.jobs, id)))
    case FireCancel(t) => s.(cancelled := s.cancelled + {t})
  }

  /** A run of the system: the actions can be taken one after the other. */
  predicate Possible(s: State, trace: seq<Action>)
    decreases |trace|
  {
    trace == [] || (Enabled(s, trace[0]) && Possible(Apply(s, trace[0]), trace[1..]))
  }

  function After(s: State, trace: seq<Action>): State
    requires Possible(s, trace)
    decreases |trace|
  {
    if trace == [] then s else After(Apply(s, trace[0]), trace[1..])
  }

  ghost predicate Fresh(s: State, a: Action) {
    a.Claim? ==> forall t | t in s.runs :: s.runs[t].id != a.id
  }

  /** No two accepted starts ever get the same id; generateJobID alone does not promise this. */
  ghost predicate FreshIds(s: State, trace: seq<Action>)
    requires Possible(s, trace)
    decreases |trace|
  {
    trace == [] ||
    (Fresh(s, trace[0]) && FreshIds(Apply(s, trace[0]), trace[1..]))
  }

  // ----- Per-device exclusion, whatever the ids -----

  /** Each job holding its drive owns that drive's lock. */
  ghost predicate LocksOwned(s: State) {
    forall t | t in s.runs && HoldsDrive(s.runs[t]) ::
      Lookup(s.tables.driveLocks, s.runs[t].device) == Some(s.runs[t].id)
  }

  ghost predicate Holder(s: State, t: Ticket, d: Device) {
    t in s.runs && HoldsDrive(s.runs[t]) && s.runs[t].device == d
  }

  /** No two jobs hold the same drive. */
  ghost predicate DrivesDistinct(s: State) {
    forall t, u, d | Holder(s, t, d) && Holder(s, u, d) :: t == u
  }

  /** Every lock belongs to a job that holds the drive. */
  ghost predicate NoStaleLock(s: State) {
    forall d | d in s.tables.driveLocks :: exists t :: Holder(s, t, d)
  }

  ghost predicate Exclusive(s: State) {
    LocksOwned(s) && DrivesDistinct(s) && NoStaleLock(s)
  }

  lemma {:induction false} LocksOwnedStep(s: State, a: Action)
    requires Exclusive(s) && Enabled(s, a)
    ensures LocksOwned(Apply(s, a))
  {
    var s' := Apply(s, a);
    forall t | t in s'.runs && HoldsDrive(s'.runs[t])
      ensures Lookup(s'.tables.driveLocks, s'.runs[t].device) == Some(s'.runs[t].id)
    {
      if t in s.runs {
        assert Holder(s, t, s.runs[t].device);
        if a.Release? {
          assert Holder(s, a.t, s.runs[a.t].device);
        }
      }
    }
  }

  lemma {:induction false} HolderStep(s: State, a: Action, t: Ticket, d: Device)
    requires Enabled(s, a)
    requires Holder(Apply(s, a), t, d)
    ensures Holder(s, t, d) || (a == Claim(t, a.id, d) && d !in s.tables.driveLocks)
  {
  }

  lemma {:induction false} DrivesDistinctStep(s: State, a: Action)
    requires Exclusive(s) && Enabled(s, a)
    ensures DrivesDistinct(Apply(s, a))
  {
    forall t, u, d | Holder(Apply(s, a), t, d) && Holder(Apply(s, a), u, d)
      ensures t == u
    {
      HolderStep(s, a, t, d);
      HolderStep(s, a, u, d);
    }
  }

  lemma {:induction false} HolderKept(s: State, a: Action, t: Ticket, d: Device)
    requires Enabled(s, a) && Holder(s, t, d)
    ensures a == Release(t) || Holder(Apply(s, a), t, d)
  {
  }

  lemma {:induction false} NoStaleLockStep(s: State, a: Action)
    requires Exclusive(s) && Enabled(s, a)
    ensures NoStaleLock(Apply(s, a))
  {
    var s' := Apply(s, a);
    forall d | d in s'.tables.driveLocks
      ensures exists t :: Holder(s', t, d)
    {
      if d in s.tables.driveLocks {
        var t :| Holder(s, t, d);
        HolderKept(s, a, t, d);
      } else {
        assert Holder(s', a.t, d);
      }
    }
  }

  lemma {:induction false} ExclusiveStep(s: State, a: Action)
    requires Exclusive(s) && Enabled(s, a)
    ensures Exclusive(Apply(s, a))
  {
    LocksOwnedStep(s, a);
    DrivesDistinctStep(s, a);
    NoStaleLockStep(s, a);
  }

  /** Per-device exclusion: under every interleaving, and even if ids collide. */
  lemma {:induction false} ExclusiveAlways(s: State, trace: seq<Action>)
    requires Exclusive(s) && Possible(s, trace)
    ensures Exclusive(After(s, trace))
    decreases |trace|
  {
    if trace != [] {
      ExclusiveStep(s, trace[0]);
      ExclusiveAlways(Apply(s, trace[0]), trace[1..]);
    }
  }

  lemma {:induction false} AtMostOneJobPerDevice(persist: bool, trace: seq<Action>, t: Ticket, u: Ticket)
    requires Possible(Initial(persist), trace)
    requires
      var s := After(Initial(persist), trace);
      t in s.runs && u in s.runs && IsLive(s.runs[t]) && IsLive(s.runs[u]) && s.runs[t].device == s.runs[u].device
    ensures t == u
  {
    ExclusiveAlways(Initial(persist), trace);
    var s := After(Initial(persist), trace);
    assert Holder(s, t, s.runs[t].device) && Holder(s, u, s.runs[t].device);
  }

  // ----- The tables, with fresh ids -----

  ghost predicate UniqueIds(s: State) {
    forall t, u | t in s.runs && u in s.runs && s.runs[t].id == s.runs[u].id :: t == u
  }

  /** Run `t` has the given id and its progress lies between two points. */
  ghost predicate Within(s: State, t: Ticket, id: JobId, lo: Progress, hi: Progress) {
    t in s.runs && s.runs[t].id == id && Rank(lo) <= Rank(s.runs[t].progress) <= Rank(hi)
  }

  ghost predicate MapsTo(index: map<JobId, Ticket>, id: JobId, t: Ticket) {
    id in index && index[id] == t
  }

  /** A map from ids holds exactly the runs whose progress lies between two points. */
  ghost predicate IndexOf(s: State, index: map<JobId, Ticket>, lo: Progress, hi: Progress) {
    forall t, id :: MapsTo(index, id, t) <==> Within(s, t, id, lo, hi)
  }

  /** Past its final save, a job's stored record is its own and carries a terminal status. */
  ghost predicate FinalRecords(s: State) {
    forall t | t in s.runs && s.persist && Rank(FinalSaved) <= Rank(s.runs[t].progress) ::
      && s.runs[t].id in s.states
      && s.states[s.runs[t].id].owner == t
      && s.states[s.runs[t].id].status in {Completed, Failed, Cancelled}
  }

  /** `jobs` holds exactly the jobs that hold their drive, `activeJobs` exactly the registered ones. */
  ghost predicate Indexed(s: State) {
    && UniqueIds(s)
    && IndexOf(s, s.tables.jobs, Claimed, FinalSaved)
    && IndexOf(s, s.activeJobs, Registered, Released)
    && FinalRecords(s)
  }

  /** An action touches at most one run. */
  lemma {:induction false} RunsStep(s: State, a: Action, t: Ticket)
    requires Enabled(s, a)
    requires t in Apply(s, a).runs
    ensures
      var s' := Apply(s, a);
      if t in s.runs then
        && s'.runs[t].id == s.runs[t].id && s'.runs[t].device == s.runs[t].device
        && Rank(s.runs[t].progress) <= Rank(s'.runs[t].progress)
        && (s'.runs[t] == s.runs[t] || a in {Register(t), Launch(t), Release(t), Unregister(t)} || (a.SaveFinal? && a.t == t))
      else a.Claim? && a.t == t && s'.runs[t].id == a.id && s'.runs[t].progress == Claimed
  {
  }

  lemma {:induction false} UniqueIdsStep(s: State, a: Action)
    requires UniqueIds(s) && Enabled(s, a) && Fresh(s, a)
    ensures UniqueIds(Apply(s, a))
  {
    var s' := Apply(s, a);
    forall t, u | t in s'.runs && u in s'.runs && s'.runs[t].id == s'.runs[u].id
      ensures t == u
    {
      RunsStep(s, a, t);
      RunsStep(s, a, u);
    }
  }

  /** Only run `t0` may differ between two states, and it keeps its id. */
  ghost predicate OnlyChanges(s: State, s': State, t0: Ticket) {
    && t0 in s'.runs && s'.runs.Keys == s.runs.Keys + {t0}
    && (t0 in s.runs ==> s'.runs[t0].id == s.runs[t0].id)
    && (forall t | t in s.runs && t != t0 :: s'.runs[t] == s.runs[t])
  }

  ghost function Reindexed(s': State, t: Ticket, index: map<JobId, Ticket>, lo: Progress, hi: Progress): map<JobId, Ticket>
    requires t in s'.runs
  {
    var id := s'.runs[t].id;
    if Within(s', t, id, lo, hi) then index[id := t] else index - {id}
  }

  lemma {:induction false} OtherEntries(
    s: State, s': State, t0: Ticket, index: map<JobId, Ticket>, lo: Progress, hi: Progress, t: Ticket, id: JobId)
    requires IndexOf(s, index, lo, hi) && UniqueIds(s') && OnlyChanges(s, s', t0) && t != t0
    ensures MapsTo(Reindexed(s', t0, index, lo, hi), id, t) <==> Within(s', t, id, lo, hi)
  {
    assert MapsTo(index, id, t) <==> Within(s, t, id, lo, hi);
    assert Within(s', t, id, lo, hi) <==> Within(s, t, id, lo, hi);
    if id == s'.runs[t0].id {
      assert !Within(s', t, id, lo, hi);
    }
  }

  /** The index gains a run that is in the range and loses one that is not. */
  lemma {:induction false} IndexStep(s: State, s': State, t0: Ticket, index: map<JobId, Ticket>, lo: Progress, hi: Progress)
    requires IndexOf(s, index, lo, hi) && UniqueIds(s') && OnlyChanges(s, s', t0)
    ensures IndexOf(s', Reindexed(s', t0, index, lo, hi), lo, hi)
  {
    forall t, id
      ensures MapsTo(Reindexed(s', t0, index, lo, hi), id, t) <==> Within(s', t, id, lo, hi)
    {
      if t != t0 {
        OtherEntries(s, s', t0, index, lo, hi, t, id);
      } else if id != s'.runs[t0].id {
        assert MapsTo(index, id, t) <==> Within(s, t, id, lo, hi);
        assert !Within(s, t, id, lo, hi);
      }
    }
  }

  lemma {:induction false} SameIndex(s: State, s': State, index: map<JobId, Ticket>, lo: Progress, hi: Progress)
    requires IndexOf(s, index, lo, hi) && s'.runs == s.runs
    ensures IndexOf(s', index, lo, hi)
  {
    assert forall t, id :: Within(s', t, id, lo, hi) == Within(s, t, id, lo, hi);
  }

  /** The actions that neither move a run nor touch the tables. */
  predicate Observes(a: Action) {
    a.SavePhase? || a.LookupAbort? || a.LookupCancel? || a.FireCancel?
  }

  lemma {:induction false} ChangesOneRun(s: State, a: Action)
    requires Enabled(s, a) && !Observes(a) && Apply(s, a) != s
    ensures OnlyChanges(s, Apply(s, a), a.t)
  {
  }

  lemma {:induction false} IndexAt(s: State, index: map<JobId, Ticket>, t: Ticket, id: JobId, lo: Progress, hi: Progress)
    requires IndexOf(s, index, lo, hi)
    ensures Within(s, t, id, lo, hi) <==> MapsTo(index, id, t)
  {
  }

  /** Every entry of an index belongs to a run in its range. */
  lemma {:induction false} IndexEntry(s: State, index: map<JobId, Ticket>, id: JobId, lo: Progress, hi: Progress)
    requires IndexOf(s, index, lo, hi)
    ensures id in index ==> Within(s, index[id], id, lo, hi)
  {
    if id in index {
      assert MapsTo(index, id, index[id]);
    }
  }

  lemma {:induction false} JobsReindexed(s: State, a: Action)
    requires Indexed(s) && Enabled(s, a) && !Observes(a) && OnlyChanges(s, Apply(s, a), a.t)
    requires Apply(s, a) != s
    ensures Apply(s, a).tables.jobs == Reindexed(Apply(s, a), a.t, s.tables.jobs, Claimed, FinalSaved)
  {
    hide IndexOf, FinalRecords;
    var id := Apply(s, a).runs[a.t].id;
    IndexAt(s, s.tables.jobs, a.t, id, Claimed, FinalSaved);
    IndexEntry(s, s.tables.jobs, id, Claimed, FinalSaved);
  }

  lemma {:induction false} ActiveReindexed(s: State, a: Action)
    requires Indexed(s) && Enabled(s, a) && !Observes(a) && OnlyChanges(s, Apply(s, a), a.t)
    requires Apply(s, a) != s && Fresh(s, a)
    ensures Apply(s, a).activeJobs == Reindexed(Apply(s, a), a.t, s.activeJobs, Registered, Released)
  {
    hide IndexOf, UniqueIds, FinalRecords;
    var id := Apply(s, a).runs[a.t].id;
    IndexAt(s, s.activeJobs, a.t, id, Registered, Released);
    IndexEntry(s, s.activeJobs, id, Registered, Released);
  }

  lemma {:induction false} IndexesStep(s: State, a: Action)
    requires Indexed(s) && Enabled(s, a) && Fresh(s, a)
    ensures IndexOf(Apply(s, a), Apply(s, a).tables.jobs, Claimed, FinalSaved)
    ensures IndexOf(Apply(s, a), Apply(s, a).activeJobs, Registered, Released)
  {
    var s' := Apply(s, a);
    UniqueIdsStep(s, a);
    if Observes(a) || s' == s {
      assert s'.runs == s.runs && s'.tables == s.tables && s'.activeJobs == s.activeJobs;
      SameIndex(s, s', s.tables.jobs, Claimed, FinalSaved);
      SameIndex(s, s', s.activeJobs, Registered, Released);
    } else {
      ChangesOneRun(s, a);
      JobsReindexed(s, a);
      ActiveReindexed(s, a);
      IndexStep(s, s', a.t, s.tables.jobs, Claimed, FinalSaved);
      IndexStep(s, s', a.t, s.activeJobs, Registered, Released);
    }
  }

  lemma {:induction false} FinalRecordsStep(s: State, a: Action)
    requires Indexed(s) && Enabled(s, a) && Fresh(s, a)
    ensures FinalRecords(Apply(s, a))
  {
    var s' := Apply(s, a);
    forall t | t in s'.runs && s'.persist && Rank(FinalSaved) <= Rank(s'.runs[t].progress)
      ensures s'.runs[t].id in s'.states && s'.states[s'.runs[t].id].owner == t
      ensures s'.states[s'.runs[t].id].status in {Completed, Failed, Cancelled}
    {
      RunsStep(s, a, t);
    }
  }

  lemma {:induction false} IndexedStep(s: State, a: Action)
    requires Indexed(s) && Enabled(s, a) && Fresh(s, a)
    ensures Indexed(Apply(s, a))
  {
    UniqueIdsStep(s, a);
    IndexesStep(s, a);
    FinalRecordsStep(s, a);
  }

  lemma {:induction false} IndexedAlways(s: State, trace: seq<Action>)
    requires Indexed(s) && Exclusive(s) && Possible(s, trace) && FreshIds(s, trace)
    ensures Indexed(After(s, trace)) && Exclusive(After(s, trace))
    decreases |trace|
  {
    if trace != [] {
      ExclusiveStep(s, trace[0]);
      IndexedStep(s, trace[0]);
      IndexedAlways(Apply(s, trace[0]), trace[1..]);
    }
  }

  // ----- Locks and jobs are inverse -----

  ghost predicate InverseAt(s: State, id: JobId, device: Device) {
    Lookup(s.tables.driveLocks, device) == Some(id)
    <==> id in s.tables.jobs && s.tables.jobs[id] in s.runs && s.runs[s.tables.jobs[id]].device == device
  }

  /** `driveLocks` sends a device to an id exactly when `jobs` sends the id to a job on that device. */
  ghost predicate Inverse(s: State) {
    forall id, device :: InverseAt(s, id, device)
  }

  /** No two jobs that hold drives share an id. */
  ghost predicate HoldersNamed(s: State) {
    forall t, u, d, e | Holder(s, t, d) && Holder(s, u, e) && s.runs[t].id == s.runs[u].id :: t == u
  }

  ghost predicate JobsIndexed(s: State) {
    IndexOf(s, s.tables.jobs, Claimed, FinalSaved)
  }

  lemma {:induction false} HolderWithin(s: State, t: Ticket, id: JobId)
    ensures Within(s, t, id, Claimed, FinalSaved) <==> t in s.runs && s.runs[t].id == id && Holder(s, t, s.runs[t].device)
  {
  }

  lemma {:induction false} LocksAndJobs(s: State)
    requires Exclusive(s) && JobsIndexed(s)
    ensures Inverse(s) && HoldersNamed(s)
  {
    forall id, device
      ensures InverseAt(s, id, device)
    {
      if Lookup(s.tables.driveLocks, device) == Some(id) {
        var t :| Holder(s, t, device);
        assert Within(s, t, id, Claimed, FinalSaved) && MapsTo(s.tables.jobs, id, t);
      }
      IndexEntry(s, s.tables.jobs, id, Claimed, FinalSaved);
    }
    forall t, u, d, e | Holder(s, t, d) && Holder(s, u, e) && s.runs[t].id == s.runs[u].id
      ensures t == u
    {
      var id := s.runs[t].id;
      IndexAt(s, s.tables.jobs, t, id, Claimed, FinalSaved);
      IndexAt(s, s.tables.jobs, u, id, Claimed, FinalSaved);
    }
  }

  /** Two holders of one id break the inverse: the one entry cannot name both their devices. */
  lemma {:induction false} ClashBreaksInverse(s: State)
    requires Exclusive(s) && Inverse(s)
    ensures HoldersNamed(s)
  {
    forall t, u, d, e | Holder(s, t, d) && Holder(s, u, e) && s.runs[t].id == s.runs[u].id
      ensures t == u
    {
      assert InverseAt(s, s.runs[t].id, d) && InverseAt(s, s.runs[t].id, e);
    }
  }

  lemma {:induction false} JobsClaimed(s: State, t: Ticket, id: JobId, device: Device)
    requires JobsIndexed(s) && t !in s.runs && device !in s.tables.driveLocks
    requires HoldersNamed(Apply(s, Claim(t, id, device)))
    ensures JobsIndexed(Apply(s, Claim(t, id, device)))
  {
    var s' := Apply(s, Claim(t, id, device));
    hide HoldersNamed;
    forall u, i
      ensures MapsTo(s'.tables.jobs, i, u) <==> Within(s', u, i, Claimed, FinalSaved)
    {
      IndexAt(s, s.tables.jobs, u, i, Claimed, FinalSaved);
      if u != t && i == id {
        NewIdIsAlone(s', t, u, device);
      }
    }
  }

  lemma {:induction false} NewIdIsAlone(s: State, t: Ticket, u: Ticket, d: Device)
    requires HoldersNamed(s) && Holder(s, t, d) && u != t
    ensures !Within(s, u, s.runs[t].id, Claimed, FinalSaved)
  {
    HolderWithin(s, u, s.runs[t].id);
  }

  lemma {:induction false} JobsReleased(s: State, t: Ticket)
    requires JobsIndexed(s) && At(s, t, FinalSaved)
    ensures JobsIndexed(Apply(s, Release(t)))
  {
    var s' := Apply(s, Release(t));
    IndexAt(s, s.tables.jobs, t, s.runs[t].id, Claimed, FinalSaved);
    forall u, i
      ensures MapsTo(s'.tables.jobs, i, u) <==> Within(s', u, i, Claimed, FinalSaved)
    {
      IndexAt(s, s.tables.jobs, u, i, Claimed, FinalSaved);
    }
  }

  lemma {:induction false} JobsUntouched(s: State, a: Action)
    requires JobsIndexed(s) && Enabled(s, a) && !a.Release? && (a.Claim? ==> a.device in s.tables.driveLocks)
    ensures JobsIndexed(Apply(s, a))
  {
    var s' := Apply(s, a);
    forall u, i
      ensures Within(s', u, i, Claimed, FinalSaved) == Within(s, u, i, Claimed, FinalSaved)
    {
    }
  }

  lemma {:induction false} JobsIndexedStep(s: State, a: Action)
    requires JobsIndexed(s) && Enabled(s, a) && HoldersNamed(Apply(s, a))
    ensures JobsIndexed(Apply(s, a))
  {
    hide JobsIndexed, HoldersNamed, Apply;
    if a.Release? {
      JobsReleased(s, a.t);
    } else if a.Claim? && a.device !in s.tables.driveLocks {
      JobsClaimed(s, a.t, a.id, a.device);
    } else {
      JobsUntouched(s, a);
    }
  }

  ghost predicate AlwaysInverse(s: State, trace: seq<Action>)
    requires Possible(s, trace)
    decreases |trace|
  {
    Inverse(s) && (trace == [] || AlwaysInverse(Apply(s, trace[0]), trace[1..]))
  }

  ghost predicate AlwaysNamed(s: State, trace: seq<Action>)
    requires Possible(s, trace)
    decreases |trace|
  {
    HoldersNamed(s) && (trace == [] || AlwaysNamed(Apply(s, trace[0]), trace[1..]))
  }

  lemma {:induction false} InverseFrom(s: State, trace: seq<Action>)
    requires Exclusive(s) && JobsIndexed(s) && Possible(s, trace)
    ensures AlwaysInverse(s, trace) <==> AlwaysNamed(s, trace)
    decreases |trace|
  {
    LocksAndJobs(s);
    if trace != [] {
      var s' := Apply(s, trace[0]);
      ExclusiveStep(s, trace[0]);
      hide Inverse, HoldersNamed, JobsIndexed, Exclusive, Apply, Enabled;
      if Inverse(s') {
        ClashBreaksInverse(s');
      }
      if HoldersNamed(s') {
        JobsIndexedStep(s, trace[0]);
        InverseFrom(s', trace[1..]);
      } else {
        assert !AlwaysInverse(s', trace[1..]) && !AlwaysNamed(s', trace[1..]);
      }
    }
  }

  /** The two maps are inverse at every moment of a run if and only if at no moment two jobs that hold
    * drives share an id. */
  lemma {:induction false} AlwaysInverseIff(persist: bool, trace: seq<Action>)
    requires Possible(Initial(persist), trace)
    ensures AlwaysInverse(Initial(persist), trace) <==> AlwaysNamed(Initial(persist), trace)
  {
    InverseFrom(Initial(persist), trace);
  }

  /** An id stands for one device, although not for one job. */
  ghost predicate IdsNameDevices(s: State) {
    forall t, u | t in s.runs && u in s.runs && s.runs[t].id == s.runs[u].id :: s.runs[t].device == s.runs[u].device
  }

  lemma {:induction false} NamedBefore(s: State, a: Action)
    requires Enabled(s, a) && IdsNameDevices(Apply(s, a))
    ensures IdsNameDevices(s)
  {
    forall t, u | t in s.runs && u in s.runs && s.runs[t].id == s.runs[u].id
      ensures s.runs[t].device == s.runs[u].device
    {
      RunStays(s, a, t);
      RunStays(s, a, u);
    }
  }

  lemma {:induction false} RunStays(s: State, a: Action, t: Ticket)
    requires Enabled(s, a) && t in s.runs
    ensures
      var s' := Apply(s, a);
      t in s'.runs && s'.runs[t].id == s.runs[t].id && s'.runs[t].device == s.runs[t].device
  {
  }

  lemma {:induction false} InverseIfNamed(s: State, trace: seq<Action>)
    requires Exclusive(s) && JobsIndexed(s) && Possible(s, trace) && IdsNameDevices(After(s, trace))
    ensures Exclusive(After(s, trace)) && JobsIndexed(After(s, trace))
    decreases |trace|
  {
    if trace != [] {
      var s' := Apply(s, trace[0]);
      ExclusiveStep(s, trace[0]);
      hide Exclusive, JobsIndexed, Apply, Enabled, HoldersNamed;
      NamedThroughout(s', trace[1..]);
      OneHolderPerId(s');
      JobsIndexedStep(s, trace[0]);
      InverseIfNamed(s', trace[1..]);
    }
  }

  lemma {:induction false} NamedThroughout(s: State, trace: seq<Action>)
    requires Possible(s, trace) && IdsNameDevices(After(s, trace))
    ensures IdsNameDevices(s)
    decreases |trace|
  {
    if trace != [] {
      hide IdsNameDevices, Apply, Enabled;
      NamedThroughout(Apply(s, trace[0]), trace[1..]);
      NamedBefore(s, trace[0]);
    }
  }

  lemma {:induction false} OneHolderPerId(s: State)
    requires Exclusive(s) && IdsNameDevices(s)
    ensures HoldersNamed(s)
  {
  }

  /** So they are inverse at every moment if an id stands for one device, however many jobs share it. */
  lemma {:induction false} LocksAndJobsInverse(persist: bool, trace: seq<Action>, id: JobId, device: Device)
    requires Possible(Initial(persist), trace) && IdsNameDevices(After(Initial(persist), trace))
    ensures
      var s := After(Initial(persist), trace);
      Lookup(s.tables.driveLocks, device) == Some(id)
      <==> id in s.tables.jobs && s.tables.jobs[id] in s.runs && s.runs[s.tables.jobs[id]].device == device
  {
    InverseIfNamed(Initial(persist), trace);
    hide After, Possible;
    LocksAndJobs(After(Initial(persist), trace));
    assert InverseAt(After(Initial(persist), trace), id, device);
  }

  /** With fresh ids an abort of a live job's id looks up that job's own cancel function. */
  lemma {:induction false} AbortReachesTheJob(persist: bool, trace: seq<Action>, t: Ticket)
    requires Possible(Initial(persist), trace) && FreshIds(Initial(persist), trace)
    requires
      var s := After(Initial(persist), trace);
      t in s.runs && IsLive(s.runs[t])
    ensures
      var s := After(Initial(persist), trace);
      && Lookup(s.activeJobs, s.runs[t].id) == Some(t)
      && Lookup(s.tables.jobs, s.runs[t].id) == Some(t)
      && Apply(s, LookupAbort(s.runs[t].id)).cancelling == s.cancelling + {t}
  {
    IndexedAlways(Initial(persist), trace);
    hide Possible, After, FreshIds;
    LiveIsAbortable(After(Initial(persist), trace), t);
  }

  lemma {:induction false} LiveIsAbortable(s: State, t: Ticket)
    requires Indexed(s) && t in s.runs && IsLive(s.runs[t])
    ensures
      && Lookup(s.activeJobs, s.runs[t].id) == Some(t)
      && Lookup(s.tables.jobs, s.runs[t].id) == Some(t)
      && Apply(s, LookupAbort(s.runs[t].id)).cancelling == s.cancelling + {t}
  {
    var id := s.runs[t].id;
    assert Within(s, t, id, Claimed, FinalSaved) && Within(s, t, id, Registered, Released);
    assert MapsTo(s.tables.jobs, id, t) && MapsTo(s.activeJobs, id, t);
  }

  /** Cancel functions are only called after an abort or a cancel request looked them up. */
  ghost predicate CancelsLookedUp(s: State) {
    s.cancelled <= s.cancelling
  }

  lemma {:induction false} CancelStep(s: State, a: Action)
    requires CancelsLookedUp(s) && Enabled(s, a)
    ensures CancelsLookedUp(Apply(s, a)) && s.cancelling <= Apply(s, a).cancelling && s.cancelled <= Apply(s, a).cancelled
  {
  }

  lemma {:induction false} CancelAlways(s: State, trace: seq<Action>)
    requires CancelsLookedUp(s) && Possible(s, trace)
    ensures
      var s' := After(s, trace);
      CancelsLookedUp(s') && s.cancelling <= s'.cancelling && s.cancelled <= s'.cancelled
    decreases |trace|
  {
    if trace != [] {
      CancelStep(s, trace[0]);
      hide Apply, Enabled;
      CancelAlways(Apply(s, trace[0]), trace[1..]);
    }
  }

  /** No job is cancelled unless its cancel function was looked up; and the abort of a live job's id, with
    * fresh ids, cancels that job however late it fires, whatever happens in between. */
  lemma {:induction false} AbortCancelsTheJob(persist: bool, before: seq<Action>, t: Ticket, between: seq<Action>)
    requires Possible(Initial(persist), before) && FreshIds(Initial(persist), before)
    requires
      var s := After(Initial(persist), before);
      && t in s.runs && IsLive(s.runs[t])
      && Possible(Apply(s, LookupAbort(s.runs[t].id)), between)
    ensures
      var s := After(Initial(persist), before);
      var later := After(Apply(s, LookupAbort(s.runs[t].id)), between);
      && later.cancelled <= later.cancelling
      && Enabled(later, FireCancel(t)) && Apply(later, FireCancel(t)).cancelled == later.cancelled + {t}
  {
    AbortReachesTheJob(persist, before, t);
    CancelAlways(Initial(persist), before);
    var s := After(Initial(persist), before);
    CancelStep(s, LookupAbort(s.runs[t].id));
    CancelAlways(Apply(s, LookupAbort(s.runs[t].id)), between);
  }

  // ----- Reused ids -----

  /** Whether every live job can be aborted by its id. */
  ghost predicate AllAbortable(s: State) {
    forall t | t in s.runs && IsLive(s.runs[t]) :: s.runs[t].id in s.activeJobs
  }

  /** UnregisterJob runs after the drive was released, so it strands a newer live job exactly when
    * that job was given the same id. */
  lemma {:induction false} UnregisterKeepsAbortable(s: State, t: Ticket)
    requires AllAbortable(s) && Enabled(s, Unregister(t))
    ensures
      AllAbortable(Apply(s, Unregister(t)))
      <==> forall u | u in s.runs && IsLive(s.runs[u]) :: s.runs[u].id != s.runs[t].id
  {
    var s' := Apply(s, Unregister(t));
    forall u | u in s.runs && IsLive(s.runs[u])
      ensures u in s'.runs && IsLive(s'.runs[u])
      ensures s.runs[u].id != s.runs[t].id <==> s'.runs[u].id in s'.activeJobs
    {
    }
    forall u | u in s'.runs && IsLive(s'.runs[u])
      ensures u in s.runs && IsLive(s.runs[u])
    {
    }
  }

  const DEVICE := Device(0)
  const SAME_ID := JobId(Burnin, DEVICE, 0)

  /** The first job up to the release of its drive. */
  function FirstJob(): seq<Action> {
    [Claim(0, SAME_ID, DEVICE), Register(0), Launch(0), SaveFinal(0, Failed), Release(0)]
  }

  /** A second job starts under the same id before the first one has unregistered. */
  function SecondJob(): seq<Action> {
    [Claim(1, SAME_ID, DEVICE), Register(1), Launch(1), Unregister(0)]
  }

  /** The first job has released the drive and not yet unregistered. */
  function Between(): State {
    State(true, Tables(map[], map[]), map[SAME_ID := 0], map[SAME_ID := JobRecord(SAME_ID, 0, Failed)],
          map[0 := Run(SAME_ID, DEVICE, Released)], {}, {})
  }

  lemma {:induction false} FirstJobRuns()
    ensures Possible(Initial(true), FirstJob()) && After(Initial(true), FirstJob()) == Between()
  {
    hide Possible, After;
    var id, tr := SAME_ID, FirstJob();
    var held := Tables(map[id := 0], map[DEVICE := id]);
    var s1 := State(true, held, map[], map[], map[0 := Run(id, DEVICE, Claimed)], {}, {});
    var s2 := s1.(activeJobs := map[id := 0], runs := map[0 := Run(id, DEVICE, Registered)]);
    var s3 := s2.(states := map[id := JobRecord(id, 0, Running)], runs := map[0 := Run(id, DEVICE, Started)]);
    var s4 := s3.(states := map[id := JobRecord(id, 0, Failed)], runs := map[0 := Run(id, DEVICE, FinalSaved)]);
    assert tr[4..] == [Release(0)];
    UnfoldLast(s4, Release(0), Between());
    Unfold(s3, tr[3..], s4);
    Unfold(s2, tr[2..], s3);
    Unfold(s1, tr[1..], s2);
    Unfold(Initial(true), tr, s1);
  }

  /** The second job is registered under the id the first one still holds in the abort registry. */
  function Overwritten(): State {
    var runs := map[0 := Run(SAME_ID, DEVICE, Released), 1 := Run(SAME_ID, DEVICE, Registered)];
    Between().(tables := Tables(map[SAME_ID := 1], map[DEVICE := SAME_ID]), activeJobs := map[SAME_ID := 1], runs := runs)
  }

  lemma {:induction false} SecondJobRegisters()
    requires Possible(Overwritten(), SecondJob()[2..])
    ensures Possible(Between(), SecondJob())
    ensures After(Between(), SecondJob()) == After(Overwritten(), SecondJob()[2..])
  {
    hide Possible, After;
    var tr, r0 := SecondJob(), Run(SAME_ID, DEVICE, Released);
    var claimed := Between().(tables := Tables(map[SAME_ID := 1], map[DEVICE := SAME_ID]),
                              runs := map[0 := r0, 1 := Run(SAME_ID, DEVICE, Claimed)]);
    Unfold(claimed, tr[1..], Overwritten());
    Unfold(Between(), tr, claimed);
  }

  /** A start within the same second as a finished job of the same command and device: the late
    * UnregisterJob of the first leaves the second running with no abort entry. */
  lemma {:induction false} ReusedIdLosesAbort()
    ensures Possible(Initial(true), FirstJob()) && Possible(After(Initial(true), FirstJob()), SecondJob())
    ensures
      var s := After(After(Initial(true), FirstJob()), SecondJob());
      1 in s.runs && IsLive(s.runs[1]) && s.runs[1].id !in s.activeJobs
  {
    hide Possible, After;
    FirstJobRuns();
    var tr, r0 := SecondJob(), Run(SAME_ID, DEVICE, Released);
    var started := Overwritten().(states := map[SAME_ID := JobRecord(SAME_ID, 1, Running)],
                                  runs := map[0 := r0, 1 := Run(SAME_ID, DEVICE, Started)]);
    var stranded := started.(activeJobs := map[], runs := started.runs[0 := Run(SAME_ID, DEVICE, Done)]);
    assert tr[3..] == [Unregister(0)];
    UnfoldLast(started, Unregister(0), stranded);
    Unfold(Overwritten(), tr[2..], started);
    SecondJobRegisters();
  }

  lemma {:induction false} Unfold(s: State, trace: seq<Action>, s': State)
    requires trace != [] && Enabled(s, trace[0]) && Apply(s, trace[0]) == s' && Possible(s', trace[1..])
    ensures Possible(s, trace) && After(s, trace) == After(s', trace[1..])
  {
  }

  lemma {:induction false} UnfoldLast(s: State, a: Action, s': State)
    requires Enabled(s, a) && Apply(s, a) == s'
    ensures Possible(s, [a]) && After(s, [a]) == s'
  {
    assert [a][1..] == [];
  }

  // ----- Polling -----

  /** What GetJobStatus answers: the active job, else the stored record, else not found. */
  datatype Poll = ActiveJob(t: Ticket) | Stored(rec: JobRecord) | NotFound

  /** GetJobStatus: the active map is read first, the stored records in a later critical section. */
  function GetJobStatus(persist: bool, jobsRead: map<JobId, Ticket>, statesRead: map<JobId, JobRecord>, id: JobId): Poll {
    if id in jobsRead then ActiveJob(jobsRead[id])
    else if persist && id in statesRead then Stored(statesRead[id])
    else NotFound
  }

  /** What polls rely on: a started job was saved, and stored entries carry their own key. */
  ghost predicate Recorded(s: State) {
    && (forall t | t in s.runs && HasStarted(s.runs[t]) && s.persist :: s.runs[t].id in s.states)
    && (forall id | id in s.states :: s.states[id].jobId == id)
  }

  /** `s'` is a later state of the same agent. */
  ghost predicate Later(s: State, s': State) {
    && s'.persist == s.persist
    && s.states.Keys <= s'.states.Keys
    && (forall t | t in s.runs :: t in s'.runs && s'.runs[t].id == s.runs[t].id
                                  && Rank(s.runs[t].progress) <= Rank(s'.runs[t].progress))
  }

  lemma {:induction false} LaterStep(s: State, a: Action)
    requires Enabled(s, a)
    ensures Later(s, Apply(s, a))
  {
    forall t | t in s.runs
      ensures t in Apply(s, a).runs
    {
    }
    forall t | t in s.runs
      ensures Apply(s, a).runs[t].id == s.runs[t].id && Rank(s.runs[t].progress) <= Rank(Apply(s, a).runs[t].progress)
    {
      RunsStep(s, a, t);
    }
  }

  lemma {:induction false} RecordedStep(s: State, a: Action)
    requires Recorded(s) && Enabled(s, a)
    ensures Recorded(Apply(s, a))
  {
    var s' := Apply(s, a);
    LaterStep(s, a);
    forall t | t in s'.runs && HasStarted(s'.runs[t]) && s'.persist
      ensures s'.runs[t].id in s'.states
    {
      RunsStep(s, a, t);
    }
  }

  lemma {:induction false} RecordedAlways(s: State, trace: seq<Action>)
    requires Recorded(s) && Possible(s, trace)
    ensures Recorded(After(s, trace)) && Later(s, After(s, trace))
    decreases |trace|
  {
    if trace != [] {
      LaterStep(s, trace[0]);
      RecordedStep(s, trace[0]);
      RecordedAlways(Apply(s, trace[0]), trace[1..]);
    }
  }

  lemma {:induction false} FinalPoll(s1: State, s2: State, t: Ticket)
    requires Indexed(s1) && Indexed(s2) && Later(s1, s2) && s1.persist
    requires t in s1.runs && HasStarted(s1.runs[t]) && s1.runs[t].id !in s1.tables.jobs
    ensures
      var answer := GetJobStatus(true, s1.tables.jobs, s2.states, s1.runs[t].id);
      && answer.Stored? && answer.rec.owner == t && answer.rec.status in {Completed, Failed, Cancelled}
      && s2.persist && IsFinal(s2, t) && s2.runs[t].id in s2.states && answer.rec == s2.states[s2.runs[t].id]
  {
    var id := s1.runs[t].id;
    assert !MapsTo(s1.tables.jobs, id, t);
    assert !Within(s1, t, id, Claimed, FinalSaved);
    assert Rank(FinalSaved) <= Rank(s2.runs[t].progress);
  }

  /** Once StartJob has returned an id, a poll finds it exactly if the job was still active at the
    * first read or a persistence layer is configured, whatever happens between the two reads. */
  lemma {:induction false} StartedJobIsFound(persist: bool, before: seq<Action>, between: seq<Action>, t: Ticket)
    requires Possible(Initial(persist), before)
    requires Possible(After(Initial(persist), before), between)
    requires
      var s1 := After(Initial(persist), before);
      t in s1.runs && HasStarted(s1.runs[t])
    ensures
      var s1 := After(Initial(persist), before);
      var s2 := After(s1, between);
      var id := s1.runs[t].id;
      GetJobStatus(persist, s1.tables.jobs, s2.states, id) != NotFound <==> persist || id in s1.tables.jobs
  {
    RecordedAlways(Initial(persist), before);
    RecordedAlways(After(Initial(persist), before), between);
  }

  // ----- The final status is the job's own -----

  predicate IsFinal(s: State, t: Ticket) {
    t in s.runs && Rank(FinalSaved) <= Rank(s.runs[t].progress)
  }

  /** The final saves made so far are those of the finished jobs, each with the status now on record. */
  ghost predicate FinalSaves(s: State, done: seq<Action>) {
    && (forall t, status | SaveFinal(t, status) in done :: IsFinal(s, t))
    && (s.persist ==> forall t | IsFinal(s, t) ::
          && s.runs[t].id in s.states
          && forall status :: SaveFinal(t, status) in done <==> status == s.states[s.runs[t].id].status)
  }

  lemma {:induction false} SavesOneJob(s: State, a: Action, t: Ticket)
    requires UniqueIds(s) && Enabled(s, a) && IsFinal(Apply(s, a), t) && s.persist
    ensures
      var s' := Apply(s, a);
      if IsFinal(s, t) then
        && !(a.SaveFinal? && a.t == t) && s'.runs[t].id == s.runs[t].id
        && (s.runs[t].id in s.states ==> s.runs[t].id in s'.states && s'.states[s.runs[t].id] == s.states[s.runs[t].id])
      else a.SaveFinal? && a.t == t && s'.runs[t].id in s'.states && s'.states[s'.runs[t].id].status == a.status
  {
  }

  lemma {:induction false} FinalStays(s: State, a: Action, t: Ticket)
    requires Enabled(s, a)
    ensures IsFinal(s, t) ==> IsFinal(Apply(s, a), t)
    ensures a.SaveFinal? && a.t == t ==> IsFinal(Apply(s, a), t)
    ensures Apply(s, a).persist == s.persist
  {
  }

  lemma {:induction false} FinalSavesStep(s: State, a: Action, done: seq<Action>)
    requires UniqueIds(s) && Enabled(s, a) && FinalSaves(s, done)
    ensures FinalSaves(Apply(s, a), done + [a])
  {
    var s' := Apply(s, a);
    hide Apply, Enabled, IsFinal, UniqueIds;
    forall t, status | SaveFinal(t, status) in done + [a]
      ensures IsFinal(s', t)
    {
      FinalStays(s, a, t);
    }
    FinalStays(s, a, 0);
    if s.persist {
      forall t | IsFinal(s', t)
        ensures s'.runs[t].id in s'.states
        ensures forall status :: SaveFinal(t, status) in done + [a] <==> status == s'.states[s'.runs[t].id].status
      {
        SavesOneJob(s, a, t);
      }
    }
  }

  lemma {:induction false} FinalSavesAlways(s: State, done: seq<Action>, trace: seq<Action>)
    requires Indexed(s) && Possible(s, trace) && FreshIds(s, trace) && FinalSaves(s, done)
    ensures FinalSaves(After(s, trace), done + trace)
    decreases |trace|
  {
    hide FinalSaves, Indexed, Apply, Enabled;
    if trace == [] {
      assert done + trace == done;
    } else {
      IndexedUnique(s);
      FinalSavesStep(s, trace[0], done);
      IndexedStep(s, trace[0]);
      FinalSavesAlways(Apply(s, trace[0]), done + [trace[0]], trace[1..]);
      assert done + [trace[0]] + trace[1..] == done + trace;
    }
  }

  lemma {:induction false} IndexedUnique(s: State)
    requires Indexed(s)
    ensures UniqueIds(s)
  {
  }

  /** With fresh ids a poll that no longer sees the job active returns its own record, and that
    * record is final and carries the status the job saved last: a finished job is never reported as
    * running, nor with any other outcome than its own. */
  lemma {:induction false} FinishedJobPollIsFinal(before: seq<Action>, between: seq<Action>, t: Ticket)
    requires Possible(Initial(true), before) && FreshIds(Initial(true), before)
    requires
      var s1 := After(Initial(true), before);
      && Possible(s1, between) && FreshIds(s1, between)
      && t in s1.runs && HasStarted(s1.runs[t]) && s1.runs[t].id !in s1.tables.jobs
    ensures
      var s1 := After(Initial(true), before);
      var s2 := After(s1, between);
      var answer := GetJobStatus(true, s1.tables.jobs, s2.states, s1.runs[t].id);
      && answer.Stored? && answer.rec.owner == t && answer.rec.status in {Completed, Failed, Cancelled}
      && forall status :: SaveFinal(t, status) in before + between <==> status == answer.rec.status
  {
    hide Possible, After, FreshIds, Indexed, Exclusive, Recorded, FinalSaves, IsFinal, HasStarted, GetJobStatus;
    var s1 := After(Initial(true), before);
    StartIsSound();
    IndexedAlways(Initial(true), before);
    IndexedAlways(s1, between);
    RecordedAlways(Initial(true), before);
    RecordedAlways(s1, between);
    FinalPoll(s1, After(s1, between), t);
    NothingSaved();
    FinalSavesAlways(Initial(true), [], before);
    assert [] + before == before;
    FinalSavesAlways(s1, before, between);
    LastStatus(After(s1, between), t, before + between);
  }

  lemma {:induction false} LastStatus(s: State, t: Ticket, done: seq<Action>)
    requires FinalSaves(s, done) && s.persist && IsFinal(s, t)
    ensures s.runs[t].id in s.states
    ensures forall status :: SaveFinal(t, status) in done <==> status == s.states[s.runs[t].id].status
  {
  }

  lemma {:induction false} StartIsSound()
    ensures Indexed(Initial(true)) && Exclusive(Initial(true)) && Recorded(Initial(true))
  {
  }

  lemma {:induction false} NothingSaved()
    ensures FinalSaves(Initial(true), [])
  {
    assert forall t :: !IsFinal(Initial(true), t);
  }

  /** The second read of the history: every stored record, or nothing without a persistence layer. */
  predicate ReadsAll(persist: bool, states: map<JobId, JobRecord>, persisted: seq<JobRecord>) {
    if persist then forall id | id in states :: states[id] in persisted else persisted == []
  }

  /** The job history, assembled from two critical sections at different moments, lists a started job
    * exactly once if records are persisted or it is still active at the first read, and not at all
    * otherwise. */
  lemma {:induction false} StartedJobIsListedOnce(persist: bool, before: seq<Action>, between: seq<Action>, t: Ticket,
                                                  active: map<JobId, JobRecord>, persisted: seq<JobRecord>, records: seq<JobRecord>)
    requires Possible(Initial(persist), before)
    requires
      var s1 := After(Initial(persist), before);
      && Possible(s1, between)
      && t in s1.runs && HasStarted(s1.runs[t])
      && active.Keys == s1.tables.jobs.Keys
    requires ReadsAll(persist, After(After(Initial(persist), before), between).states, persisted)
    requires forall id ::
        Listed(records, id) == if id in active || exists r :: r in persisted && r.jobId == id then 1 else 0
    ensures
      var s1 := After(Initial(persist), before);
      Listed(records, s1.runs[t].id) == if persist || s1.runs[t].id in s1.tables.jobs then 1 else 0
  {
    var s1 := After(Initial(persist), before);
    RecordedAlways(Initial(persist), before);
    RecordedAlways(s1, between);
    var id := s1.runs[t].id;
    if persist {
      var r := After(s1, between).states[id];
      assert r in persisted && r.jobId == id;
    }
  }

  // ----- The three objects live through a run -----

  ghost predicate Mirrors(m: JobManager, api: AgentAPI, p: JobPersistence, s: State)
    reads m, api, p
  {
    m.View() == s.tables && api.activeJobs == s.activeJobs && p.states == s.states
  }

  /** saveState: nothing without a persistence layer, and a failed write is ignored. */
  method SaveRecord(p: JobPersistence, persist: bool, rec: JobRecord, diskOk: bool)
    modifies p
    ensures p.states == if persist then old(p.states)[rec.jobId := rec] else old(p.states)
  {
    if persist {
      var _ := p.SaveState(rec, diskOk);
    }
  }

  /** Each action is one critical section on one object, and leaves all three as the action says. */
  method Do(m: JobManager, api: AgentAPI, p: JobPersistence, a: Action, runs: map<Ticket, Run>, persist: bool, diskOk: bool,
            ghost s: State) returns (later: map<Ticket, Run>)
    requires Mirrors(m, api, p, s) && Enabled(s, a) && runs == s.runs && persist == s.persist
    modifies m, api, p
    ensures Mirrors(m, api, p, Apply(s, a)) && later == Apply(s, a).runs
  {
    later := runs;
    match a
    case Claim(t, id, device) =>
      var lockedBy := m.Claim(t, id, device);
      if lockedBy == None {
        later := runs[t := Run(id, device, Claimed)];
      }
    case Register(t) =>
      api.RegisterJob(runs[t].id, t);
      later := runs[t := runs[t].(progress := Registered)];
    case Launch(t) =>
      SaveRecord(p, persist, JobRecord(runs[t].id, t, Running), diskOk);
      later := runs[t := runs[t].(progress := Started)];
    case SavePhase(t) =>
      SaveRecord(p, persist, JobRecord(runs[t].id, t, Running), diskOk);
    case SaveFinal(t, status) =>
      SaveRecord(p, persist, JobRecord(runs[t].id, t, status), diskOk);
      later := runs[t := runs[t].(progress := FinalSaved)];
    case Release(t) =>
      var _ := m.Release(runs[t].id, runs[t].device);
      later := runs[t := runs[t].(progress := Released)];
    case Unregister(t) =>
      api.UnregisterJob(runs[t].id);
      later := runs[t := runs[t].(progress := Done)];
    case LookupAbort(id) =>
      var _ := api.LookupCancel(id);
    case LookupCancel(id) =>
      var _ := m.GetJob(id);
    case FireCancel(t) =>
  }

  /** Taking the actions of any run on fresh objects leaves them in the state the run ends in, so every
    * result above is about the objects. */
  method DoAll(trace: seq<Action>, persist: bool) returns (m: JobManager, api: AgentAPI, p: JobPersistence)
    requires Possible(Initial(persist), trace)
    ensures fresh(m) && fresh(api) && fresh(p) && Mirrors(m, api, p, After(Initial(persist), trace))
  {
    hide Apply, Enabled;
    m := new JobManager();
    api := new AgentAPI();
    p := new JobPersistence();
    var runs: map<Ticket, Run> := map[];
    ghost var s := Initial(persist);
    assert trace[0..] == trace;
    for i := 0 to |trace|
      invariant fresh(m) && fresh(api) && fresh(p) && Mirrors(m, api, p, s) && runs == s.runs && s.persist == persist
      invariant Possible(s, trace[i..]) && After(s, trace[i..]) == After(Initial(persist), trace)
    {
      assert trace[i..][1..] == trace[i + 1..] && trace[i..][0] == trace[i];
      PersistKept(s, trace[i]);
      runs := Do(m, api, p, trace[i], runs, persist, true, s);
      s := Apply(s, trace[i]);
    }
  }

  lemma {:induction false} PersistKept(s: State, a: Action)
    requires Enabled(s, a)
    ensures Apply(s, a).persist == s.persist
  {
  }
}
