/** Pool notifications of the ZFS hub over whole runs of frames: what the resilver and expansion notices
  * of one pool add up to, and which transitions go unreported. */
module ZfsPoolRuns {
  import opened Common
  import opened ZfsHub

  /** A frame of the agent that is evaluated: it parses and the client is set. */
  predicate IsEvaluated(f: Frame, agentID: string) {
    f.agentID == agentID && f.connected && f.payload.view.Some?
  }

  /** The pool maps of the agent's evaluated frames, in order. */
  function Evaluated(run: seq<Frame>, agentID: string): seq<map<string, Tracked>> {
    if run == [] then []
    else
      var f := run[|run| - 1];
      Evaluated(run[..|run| - 1], agentID) + if IsEvaluated(f, agentID) then [f.payload.view.value.pools] else []
  }

  function LastOf(shots: seq<map<string, Tracked>>): Option<map<string, Tracked>> {
    if shots == [] then None else Some(shots[|shots| - 1])
  }

  /** Transitions are always taken against the agent's latest evaluated frame: frames that do not parse
    * or arrive before the client is set are skipped, and other agents do not matter. */
  lemma {:induction false} ComparedWithLastEvaluated(run: seq<Frame>, agentID: string)
    ensures After(run, agentID).lastPools == LastOf(Evaluated(run, agentID))
  {
    if run != [] {
      hide Remembered;
      ComparedWithLastEvaluated(run[..|run| - 1], agentID);
      assert Evaluated(run[..|run| - 1], agentID) + [] == Evaluated(run[..|run| - 1], agentID);
    }
  }

  // ----- What is told -----

  /** How many resilver completions of the pool the hub tells over the run. */
  function ResilversTold(run: seq<Frame>, agentID: string, pool: string): nat {
    if run == [] then 0
    else
      var init, f := run[..|run| - 1], run[|run| - 1];
      ResilversTold(init, agentID, pool)
      + if f.agentID == agentID && Tells(After(init, agentID), f.payload, f.connected, PoolNotice(ResilverCompleted(pool))) then 1
        else 0
  }

  /** The number of vdevs a frame's expansion notice for the pool reports, 0 if it tells none. */
  function AddedTold(s: AgentState, p: Payload, connected: bool, pool: string): (n: nat)
    ensures n > 0 ==> Tells(s, p, connected, PoolNotice(Expanded(pool, n)))
    ensures forall k :: Tells(s, p, connected, PoolNotice(Expanded(pool, k))) ==> k == n > 0
  {
    if connected && p.view.Some? && s.lastPools.Some? then AddedBetween(s.lastPools.value, p.view.value.pools, pool) else 0
  }

  function AddedBetween(prev: map<string, Tracked>, curr: map<string, Tracked>, pool: string): nat {
    if pool in prev && pool in curr && curr[pool].dataVdevs > prev[pool].dataVdevs
    then curr[pool].dataVdevs - prev[pool].dataVdevs else 0
  }

  /** All vdevs reported as added to the pool over the run. */
  function VdevsTold(run: seq<Frame>, agentID: string, pool: string): nat {
    if run == [] then 0
    else
      var init, f := run[..|run| - 1], run[|run| - 1];
      VdevsTold(init, agentID, pool)
      + if f.agentID == agentID then AddedTold(After(init, agentID), f.payload, f.connected, pool) else 0
  }

  // ----- Resilvers -----

  predicate Resilvering(shot: map<string, Tracked>, pool: string) {
    pool in shot && shot[pool].resilvering
  }

  /** How often a resilver of the pool is seen to begin: resilvering now and not in the shot before. */
  function Begun(shots: seq<map<string, Tracked>>, pool: string): nat {
    if shots == [] then 0
    else
      var n := |shots| - 1;
      Begun(shots[..n], pool)
      + if Resilvering(shots[n], pool) && (n == 0 || !Resilvering(shots[n - 1], pool)) then 1 else 0
  }

  /** How often the pool is missing from the shot right after one that showed it resilvering. */
  function DroppedOut(shots: seq<map<string, Tracked>>, pool: string): nat {
    if |shots| < 2 then 0
    else
      var n := |shots| - 1;
      DroppedOut(shots[..n], pool) + if Resilvering(shots[n - 1], pool) && pool !in shots[n] then 1 else 0
  }

  predicate StillRunning(shots: seq<map<string, Tracked>>, pool: string) {
    shots != [] && Resilvering(shots[|shots| - 1], pool)
  }

  /** One more frame: what it adds to the notices is what the evaluated shots show. */
  lemma {:induction false} ResilverTold(run: seq<Frame>, agentID: string, pool: string)
    requires run != []
    ensures
      var init, f := run[..|run| - 1], run[|run| - 1];
      var shots := Evaluated(init, agentID);
      ResilversTold(run, agentID, pool) == ResilversTold(init, agentID, pool)
        + if IsEvaluated(f, agentID) && shots != [] && Resilvering(shots[|shots| - 1], pool)
             && pool in f.payload.view.value.pools && !f.payload.view.value.pools[pool].resilvering then 1 else 0
  {
    ComparedWithLastEvaluated(run[..|run| - 1], agentID);
    hide After, Evaluated, ResilversTold;
    ResilversToldStep(run, agentID, pool);
  }

  lemma {:induction false} ResilversToldStep(run: seq<Frame>, agentID: string, pool: string)
    requires run != []
    ensures
      var init, f := run[..|run| - 1], run[|run| - 1];
      ResilversTold(run, agentID, pool) == ResilversTold(init, agentID, pool)
        + if f.agentID == agentID && Tells(After(init, agentID), f.payload, f.connected, PoolNotice(ResilverCompleted(pool))) then 1
          else 0
  {
    hide Tells, After;
  }

  lemma {:induction false} ShotsSnoc(shots: seq<map<string, Tracked>>, shot: map<string, Tracked>, pool: string)
    ensures
      var more := shots + [shot];
      && Begun(more, pool) == Begun(shots, pool) + (if Resilvering(shot, pool) && !StillRunning(shots, pool) then 1 else 0)
      && DroppedOut(more, pool) == DroppedOut(shots, pool) + if StillRunning(shots, pool) && pool !in shot then 1 else 0
  {
    hide Resilvering;
    assert (shots + [shot])[..|shots|] == shots;
  }

  /** Over every run, each resilver seen to begin is told exactly once, or the pool dropped out of a
    * frame while it ran, or it still runs. */
  lemma {:induction false} ResilversAccounted(run: seq<Frame>, agentID: string, pool: string)
    ensures
      var shots := Evaluated(run, agentID);
      Begun(shots, pool)
      == ResilversTold(run, agentID, pool) + DroppedOut(shots, pool) + if StillRunning(shots, pool) then 1 else 0
  {
    if run != [] {
      var init, f := run[..|run| - 1], run[|run| - 1];
      var shots := Evaluated(init, agentID);
      ResilversAccounted(init, agentID, pool);
      ResilverTold(run, agentID, pool);
      assert Evaluated(run, agentID) == if IsEvaluated(f, agentID) then shots + [f.payload.view.value.pools] else shots;
      if IsEvaluated(f, agentID) {
        ShotsSnoc(shots, f.payload.view.value.pools, pool);
      }
      hide Begun, DroppedOut, ResilversTold, Evaluated;
    }
  }

  /** Every resilver seen to begin, except one still running, is told exactly once if and only if the pool
    * is in every evaluated frame that follows one showing it resilvering. */
  lemma {:induction false} ResilversReportedIff(run: seq<Frame>, agentID: string, pool: string)
    ensures
      var shots := Evaluated(run, agentID);
      ResilversTold(run, agentID, pool) == Begun(shots, pool) - (if StillRunning(shots, pool) then 1 else 0)
      <==> forall k | 0 <= k < |shots| - 1 && Resilvering(shots[k], pool) :: pool in shots[k + 1]
  {
    ResilversAccounted(run, agentID, pool);
    NeverDroppedIff(Evaluated(run, agentID), pool);
  }

  lemma {:induction false} NeverDroppedIff(shots: seq<map<string, Tracked>>, pool: string)
    ensures DroppedOut(shots, pool) == 0
            <==> forall k | 0 <= k < |shots| - 1 && Resilvering(shots[k], pool) :: pool in shots[k + 1]
  {
    if |shots| > 1 {
      hide Resilvering;
      var n := |shots| - 1;
      var init := shots[..n];
      NeverDroppedIff(init, pool);
      assert forall k | 0 <= k < n :: init[k] == shots[k];
    }
  }

  // ----- One more frame -----

  /** After any run, the agent's next frame tells that a scrub of the pool completed exactly when it is
    * evaluated, the latest evaluated frame before it showed the pool with a scrub running, and this one
    * shows the pool with its scrub completed. */
  lemma {:induction false} ScrubToldIff(run: seq<Frame>, next: Frame, pool: string)
    ensures
      var shots := Evaluated(run, next.agentID);
      Tells(After(run, next.agentID), next.payload, next.connected, PoolNotice(ScrubCompleted(pool)))
      <==> && IsEvaluated(next, next.agentID) && shots != []
           && pool in shots[|shots| - 1] && shots[|shots| - 1][pool].scrubRunning
           && pool in next.payload.view.value.pools && next.payload.view.value.pools[pool].scrubCompleted
  {
    ComparedWithLastEvaluated(run, next.agentID);
    hide After, Evaluated;
  }

  /** The id of the latest event with one that an evaluated frame of the agent carried. */
  function LatestID(run: seq<Frame>, agentID: string): string {
    if run == [] then ""
    else
      var f := run[|run| - 1];
      if IsEvaluated(f, agentID) && f.payload.view.value.event.Some? && f.payload.view.value.event.value.id != ""
      then f.payload.view.value.event.value.id else LatestID(run[..|run| - 1], agentID)
  }

  lemma {:induction false} RemembersLatestID(run: seq<Frame>, agentID: string)
    ensures After(run, agentID).lastEventID == LatestID(run, agentID)
  {
    if run != [] {
      RemembersLatestID(run[..|run| - 1], agentID);
      AfterStep(run, agentID);
      hide After;
    }
  }

  /** After any run, the agent's next frame tells an event exactly when it is evaluated and carries one with
    * an id other than the latest: with its id, kind and message, and its severity or else `info`. */
  lemma {:induction false} EventToldIff(run: seq<Frame>, next: Frame, told: Event)
    ensures
      Tells(After(run, next.agentID), next.payload, next.connected, AgentNotice(told))
      <==> && IsEvaluated(next, next.agentID) && next.payload.view.value.event.Some?
           && var e := next.payload.view.value.event.value;
              && e.id != "" && e.id != LatestID(run, next.agentID)
              && told == Event(e.id, e.kind, if e.severity == "" then "info" else e.severity, e.message)
  {
    RemembersLatestID(run, next.agentID);
    hide After, LatestID;
  }

  // ----- A pool that misses one frame -----

  /** A frame of one agent that shows these pools. */
  function Shows(agentID: string, pools: map<string, Tracked>): Frame {
    Frame(agentID, Payload(None, Some(View(pools, None))), true)
  }

  /** A resilver that ends while the pool is missing from one frame is never told. */
  lemma {:induction false} MissedFrameLosesResilver(agentID: string, pool: string, busy: Tracked, idle: Tracked)
    requires busy.resilvering && !idle.resilvering
    ensures
      var run := [Shows(agentID, map[pool := busy]), Shows(agentID, map[]), Shows(agentID, map[pool := idle])];
      Begun(Evaluated(run, agentID), pool) == 1 && ResilversTold(run, agentID, pool) == 0
  {
    var x: map<string, Tracked>, y: map<string, Tracked>, z: map<string, Tracked> := map[pool := busy], map[], map[pool := idle];
    hide Begun, DroppedOut, ResilversTold, Evaluated;
    ThreeShown(agentID, x, y, z);
    NothingBegun(pool);
    ShotsSnoc([], x, pool);
    ShotsSnoc([x], y, pool);
    ShotsSnoc([x, y], z, pool);
    assert [] + [x] == [x] && [x] + [y] == [x, y] && [x, y] + [z] == [x, y, z];
    ResilversAccounted([Shows(agentID, x), Shows(agentID, y), Shows(agentID, z)], agentID, pool);
  }

  lemma {:induction false} NothingBegun(pool: string)
    ensures Begun([], pool) == 0 == DroppedOut([], pool)
  {
  }

  lemma {:induction false} ShownSnoc(run: seq<Frame>, agentID: string, pools: map<string, Tracked>)
    ensures Evaluated(run + [Shows(agentID, pools)], agentID) == Evaluated(run, agentID) + [pools]
  {
    var more := run + [Shows(agentID, pools)];
    assert more[..|run|] == run;
  }

  lemma {:induction false} ThreeShown(agentID: string, x: map<string, Tracked>, y: map<string, Tracked>, z: map<string, Tracked>)
    ensures
      var a, b, c := Shows(agentID, x), Shows(agentID, y), Shows(agentID, z);
      && Evaluated([], agentID) == [] && Evaluated([a], agentID) == [x] && Evaluated([a, b], agentID) == [x, y]
      && Evaluated([a, b, c], agentID) == [x, y, z]
  {
    var a, b, c := Shows(agentID, x), Shows(agentID, y), Shows(agentID, z);
    NoneShown(agentID);
    hide Evaluated, Shows;
    ShownSnoc([], agentID, x);
    ShownSnoc([a], agentID, y);
    ShownSnoc([a, b], agentID, z);
    assert [] + [a] == [a] && [a] + [b] == [a, b] && [a, b] + [c] == [a, b, c];
  }

  lemma {:induction false} NoneShown(agentID: string)
    ensures Evaluated([], agentID) == []
  {
  }

  // ----- Expansions -----

  /** The pool's data vdevs when it was last seen, if it ever was. */
  function LastKnown(shots: seq<map<string, Tracked>>, pool: string): Option<nat> {
    if shots == [] then None
    else if pool in shots[|shots| - 1] then Some(shots[|shots| - 1][pool].dataVdevs)
    else LastKnown(shots[..|shots| - 1], pool)
  }

  function FirstKnown(shots: seq<map<string, Tracked>>, pool: string): Option<nat> {
    if shots == [] then None
    else
      var before := FirstKnown(shots[..|shots| - 1], pool);
      if before == None && pool in shots[|shots| - 1] then Some(shots[|shots| - 1][pool].dataVdevs) else before
  }

  /** The vdevs the pool lost between successive shots that both show it. */
  function Shrunk(shots: seq<map<string, Tracked>>, pool: string): nat {
    if |shots| < 2 then 0
    else
      var n := |shots| - 1;
      Shrunk(shots[..n], pool) + AddedBetween(shots[n], shots[n - 1], pool)
  }

  /** What the pool gained or lost while it was missing from at least one shot. */
  function AcrossGaps(shots: seq<map<string, Tracked>>, pool: string): int {
    if |shots| < 2 then 0
    else
      var n := |shots| - 1;
      var known := LastKnown(shots[..n], pool);
      AcrossGaps(shots[..n], pool)
      + if pool in shots[n] && pool !in shots[n - 1] && known.Some? then shots[n][pool].dataVdevs - known.value else 0
  }

  lemma {:induction false} ExpansionTold(run: seq<Frame>, agentID: string, pool: string)
    requires run != []
    ensures
      var init, f := run[..|run| - 1], run[|run| - 1];
      var shots := Evaluated(init, agentID);
      VdevsTold(run, agentID, pool) == VdevsTold(init, agentID, pool)
        + if IsEvaluated(f, agentID) && shots != [] then AddedBetween(shots[|shots| - 1], f.payload.view.value.pools, pool) else 0
  {
    ComparedWithLastEvaluated(run[..|run| - 1], agentID);
    hide After, Evaluated, AddedBetween, Tells;
  }

  lemma {:induction false} GrowthSnoc(shots: seq<map<string, Tracked>>, shot: map<string, Tracked>, pool: string)
    ensures
      var more := shots + [shot];
      && LastKnown(more, pool) == (if pool in shot then Some(shot[pool].dataVdevs) else LastKnown(shots, pool))
      && FirstKnown(more, pool)
         == (if FirstKnown(shots, pool) == None && pool in shot then Some(shot[pool].dataVdevs) else FirstKnown(shots, pool))
      && Shrunk(more, pool) == Shrunk(shots, pool) + (if shots != [] then AddedBetween(shot, shots[|shots| - 1], pool) else 0)
      && AcrossGaps(more, pool) == AcrossGaps(shots, pool)
         + if shots != [] && pool in shot && pool !in shots[|shots| - 1] && LastKnown(shots, pool).Some?
           then shot[pool].dataVdevs - LastKnown(shots, pool).value else 0
  {
    hide AddedBetween;
    assert (shots + [shot])[..|shots|] == shots;
  }

  lemma {:induction false} KnownTogether(shots: seq<map<string, Tracked>>, pool: string)
    ensures LastKnown(shots, pool).Some? == FirstKnown(shots, pool).Some?
    ensures shots != [] && pool in shots[|shots| - 1] ==> LastKnown(shots, pool) == Some(shots[|shots| - 1][pool].dataVdevs)
  {
    if shots != [] {
      KnownTogether(shots[..|shots| - 1], pool);
    }
  }

  /** Over every run the vdevs told as added are the pool's growth plus what it lost in view, less what
    * it gained out of view. */
  lemma {:induction false} ExpansionsAccounted(run: seq<Frame>, agentID: string, pool: string)
    ensures
      var shots := Evaluated(run, agentID);
      FirstKnown(shots, pool).Some? && LastKnown(shots, pool).Some? ==>
        VdevsTold(run, agentID, pool) + AcrossGaps(shots, pool)
        == LastKnown(shots, pool).value - FirstKnown(shots, pool).value + Shrunk(shots, pool)
    ensures FirstKnown(Evaluated(run, agentID), pool) == None ==>
        VdevsTold(run, agentID, pool) == 0 == Shrunk(Evaluated(run, agentID), pool) && AcrossGaps(Evaluated(run, agentID), pool) == 0
  {
    if run == [] {
      NothingTold(agentID, pool);
      NoneShown(agentID);
      NothingGrown(pool);
    } else {
      hide *;
      var init, f := run[..|run| - 1], run[|run| - 1];
      var shots := Evaluated(init, agentID);
      ExpansionsAccounted(init, agentID, pool);
      ExpansionTold(run, agentID, pool);
      KnownTogether(shots, pool);
      EvaluatedStep(run, agentID);
      if IsEvaluated(f, agentID) {
        GrowthStep(shots, f.payload.view.value.pools, pool);
      }
    }
  }

  lemma {:induction false} EvaluatedStep(run: seq<Frame>, agentID: string)
    requires run != []
    ensures
      var shots, f := Evaluated(run[..|run| - 1], agentID), run[|run| - 1];
      && (IsEvaluated(f, agentID) ==> f.payload.view.Some?)
      && Evaluated(run, agentID) == if IsEvaluated(f, agentID) then shots + [f.payload.view.value.pools] else shots
  {
  }

  lemma {:induction false} NothingGrown(pool: string)
    ensures FirstKnown([], pool) == None == LastKnown([], pool) && Shrunk([], pool) == 0 == AcrossGaps([], pool)
  {
  }

  /** What one more shot adds to the notices, it adds to the account. */
  lemma {:induction false} GrowthStep(shots: seq<map<string, Tracked>>, shot: map<string, Tracked>, pool: string)
    requires LastKnown(shots, pool).Some? == FirstKnown(shots, pool).Some?
    requires shots != [] && pool in shots[|shots| - 1] ==> LastKnown(shots, pool) == Some(shots[|shots| - 1][pool].dataVdevs)
    ensures
      var more, told := shots + [shot], if shots != [] then AddedBetween(shots[|shots| - 1], shot, pool) else 0;
      && (FirstKnown(more, pool) == None ==>
            FirstKnown(shots, pool) == None && told == 0 && Shrunk(more, pool) == Shrunk(shots, pool)
            && AcrossGaps(more, pool) == AcrossGaps(shots, pool))
      && (FirstKnown(shots, pool).Some? && LastKnown(shots, pool).Some? ==>
            && FirstKnown(more, pool) == FirstKnown(shots, pool) && LastKnown(more, pool).Some?
            && told + AcrossGaps(more, pool) - AcrossGaps(shots, pool)
               == LastKnown(more, pool).value - LastKnown(shots, pool).value + Shrunk(more, pool) - Shrunk(shots, pool))
      && (FirstKnown(shots, pool) == None && FirstKnown(more, pool).Some? ==>
            && LastKnown(more, pool) == FirstKnown(more, pool) && told == 0
            && AcrossGaps(more, pool) == AcrossGaps(shots, pool) && Shrunk(more, pool) == Shrunk(shots, pool))
  {
    GrowthSnoc(shots, shot, pool);
    NotInView(shots, pool);
    NothingGrown(pool);
    hide LastKnown, FirstKnown, Shrunk, AcrossGaps;
  }

  lemma {:induction false} NotInView(shots: seq<map<string, Tracked>>, pool: string)
    ensures LastKnown(shots, pool) == None && shots != [] ==> pool !in shots[|shots| - 1]
  {
  }

  /** The vdevs told as added are exactly the pool's growth if and only if what it lost in view equals
    * what it gained out of view; in particular if it never shrank and never missed a frame. */
  lemma {:induction false} ExpansionsAddUpIff(run: seq<Frame>, agentID: string, pool: string)
    requires FirstKnown(Evaluated(run, agentID), pool).Some?
    ensures
      var shots := Evaluated(run, agentID);
      && LastKnown(shots, pool).Some?
      && (VdevsTold(run, agentID, pool) == LastKnown(shots, pool).value - FirstKnown(shots, pool).value
          <==> Shrunk(shots, pool) == AcrossGaps(shots, pool))
      && ((forall k | 0 <= k < |shots| :: pool in shots[k]) ==>
            (VdevsTold(run, agentID, pool) == LastKnown(shots, pool).value - FirstKnown(shots, pool).value
             <==> forall k | 0 <= k < |shots| - 1 :: shots[k][pool].dataVdevs <= shots[k + 1][pool].dataVdevs))
  {
    var shots := Evaluated(run, agentID);
    ExpansionsAccounted(run, agentID, pool);
    KnownTogether(shots, pool);
    if forall k | 0 <= k < |shots| :: pool in shots[k] {
      SteadyPool(shots, pool);
    }
  }

  /** A pool in every shot has no gaps, and shrank by nothing exactly if it never shrank. */
  lemma {:induction false} SteadyPool(shots: seq<map<string, Tracked>>, pool: string)
    requires forall k | 0 <= k < |shots| :: pool in shots[k]
    ensures AcrossGaps(shots, pool) == 0
    ensures Shrunk(shots, pool) == 0
            <==> forall k | 0 <= k < |shots| - 1 :: shots[k][pool].dataVdevs <= shots[k + 1][pool].dataVdevs
  {
    if |shots| > 1 {
      var n := |shots| - 1;
      var init := shots[..n];
      assert forall k | 0 <= k < n :: init[k] == shots[k];
      SteadyPool(init, pool);
    }
  }

  /** A pool that grows while it is missing from one frame is never told to have grown. */
  lemma {:induction false} MissedFrameLosesExpansion(agentID: string, pool: string, small: Tracked, large: Tracked)
    requires small.dataVdevs < large.dataVdevs
    ensures
      var run := [Shows(agentID, map[pool := small]), Shows(agentID, map[]), Shows(agentID, map[pool := large])];
      VdevsTold(run, agentID, pool) == 0
  {
    var x: map<string, Tracked>, y: map<string, Tracked>, z: map<string, Tracked> := map[pool := small], map[], map[pool := large];
    var a, b, c := Shows(agentID, x), Shows(agentID, y), Shows(agentID, z);
    assert [a, b, c][..2] == [a, b] && [a, b][..1] == [a] && [a][..0] == [];
    hide Evaluated, VdevsTold;
    ThreeShown(agentID, x, y, z);
    ExpansionTold([a, b, c], agentID, pool);
    ExpansionTold([a, b], agentID, pool);
    ExpansionTold([a], agentID, pool);
    NothingTold(agentID, pool);
  }

  lemma {:induction false} NothingTold(agentID: string, pool: string)
    ensures VdevsTold([], agentID, pool) == 0
  {
  }
}
