/** The SnapRAID hub over arbitrary telemetry: what its notifications look like as sequences. Agents
  * share no state but the set of alerted disks, so the other results are about one agent's frames. */
module SnapraidHubRuns {
  import opened Common
  import opened SnapraidHub

  // ----- Jobs -----

  function Tracked(jobs: seq<Option<ActiveJob>>): Option<TrackedJob> {
    if jobs == [] then None else NextJob(Tracked(jobs[..|jobs| - 1]), jobs[|jobs| - 1])
  }

  /** The started and complete notifications. */
  function Lifecycle(jobs: seq<Option<ActiveJob>>): seq<Notice> {
    if jobs == [] then []
    else
      var ns := JobNotices(Tracked(jobs[..|jobs| - 1]), jobs[|jobs| - 1]);
      Lifecycle(jobs[..|jobs| - 1]) + if ns != [] && (ns[0].JobStarted? || ns[0].JobComplete?) then ns else []
  }

  /** An agent's started and complete notifications strictly alternate, and a job is tracked exactly
    * while the last one was a start. */
  lemma {:induction false} StartedCompleteAlternate(jobs: seq<Option<ActiveJob>>)
    ensures
      var ns := Lifecycle(jobs);
      && (forall i | 0 <= i < |ns| :: if i % 2 == 0 then ns[i].JobStarted? else ns[i].JobComplete?)
      && (Tracked(jobs).Some? <==> |ns| % 2 == 1)
  {
    if jobs != [] {
      StartedCompleteAlternate(jobs[..|jobs| - 1]);
    }
  }

  /** The number of frames that showed the current job. */
  function Streak(jobs: seq<Option<ActiveJob>>): (n: nat)
    ensures n <= |jobs|
    ensures jobs != [] && jobs[|jobs| - 1].Some? ==> n > 0
  {
    if jobs == [] || jobs[|jobs| - 1] == None then 0 else 1 + Streak(jobs[..|jobs| - 1])
  }

  lemma {:induction false} StreakStarts(jobs: seq<Option<ActiveJob>>)
    ensures Tracked(jobs[..|jobs| - Streak(jobs)]) == None
    ensures forall i | |jobs| - Streak(jobs) <= i < |jobs| :: jobs[i].Some?
  {
    if jobs != [] && jobs[|jobs| - 1].Some? {
      var init := jobs[..|jobs| - 1];
      StreakStarts(init);
      assert init[..|init| - Streak(init)] == jobs[..|jobs| - Streak(jobs)];
    } else {
      assert jobs[..|jobs|] == jobs;
    }
  }

  lemma {:induction false} TrackedIs(jobs: seq<Option<ActiveJob>>)
    requires jobs != [] && jobs[|jobs| - 1].Some?
    ensures
      var j := jobs[|jobs| - 1].value;
      Tracked(jobs) == Some(TrackedJob(j.kind, j.phase, if Streak(jobs) == 1 then j.trigger else Unspecified))
  {
    var init := jobs[..|jobs| - 1];
    StreakStarts(init);
    if Streak(init) == 0 {
      assert init[..|init|] == init;
    } else {
      TrackedIs(init);
    }
  }

  /** When a job disappears, its completion carries the trigger its start carried exactly when the job
    * was shown by a single frame, or started without a trigger. */
  lemma {:induction false} CompletionTriggerIff(jobs: seq<Option<ActiveJob>>)
    requires jobs != [] && jobs[|jobs| - 1].Some?
    ensures
      var start := |jobs| - Streak(jobs);
      && jobs[start].Some?
      && JobNotices(Tracked(jobs[..start]), jobs[start]) == [JobStarted(jobs[start].value.kind, jobs[start].value.trigger)]
      && |JobNotices(Tracked(jobs), None)| == 1 && JobNotices(Tracked(jobs), None)[0].JobComplete?
      && (JobNotices(Tracked(jobs), None)[0].trigger == jobs[start].value.trigger
          <==> Streak(jobs) == 1 || jobs[start].value.trigger == Unspecified)
  {
    StreakStarts(jobs);
    TrackedIs(jobs);
  }

  /** What the last frame showed. */
  function LastShown(jobs: seq<Option<ActiveJob>>): Option<ActiveJob> {
    if jobs == [] then None else jobs[|jobs| - 1]
  }

  /** What the next frame tells, from the last two frames before it: a job that appears is started, one
    * that disappears is complete, with its trigger only if a single frame showed it, and one that stays
    * has completed its phase if both frames name one and they differ. */
  lemma {:induction false} FrameTells(jobs: seq<Option<ActiveJob>>, next: Option<ActiveJob>)
    ensures
      JobNotices(Tracked(jobs), next)
      == match (LastShown(jobs), next)
         case (None, None) => []
         case (None, Some(j)) => [JobStarted(j.kind, j.trigger)]
         case (Some(p), None) =>
           [JobComplete(p.kind, if LastShown(jobs[..|jobs| - 1]) == None then p.trigger else Unspecified)]
         case (Some(p), Some(j)) =>
           if p.phase != "" && j.phase != "" && p.phase != j.phase then [PhaseComplete(p.phase, j.phase)] else []
  {
    if jobs != [] && jobs[|jobs| - 1].Some? {
      TrackedIs(jobs);
      hide Tracked, Streak;
      StreakOne(jobs);
    } else if jobs != [] {
      assert Tracked(jobs) == NextJob(Tracked(jobs[..|jobs| - 1]), None);
    }
  }

  lemma {:induction false} StreakOne(jobs: seq<Option<ActiveJob>>)
    requires jobs != [] && jobs[|jobs| - 1].Some?
    ensures Streak(jobs) == 1 <==> LastShown(jobs[..|jobs| - 1]) == None
  {
  }

  // ----- Events -----

  const START := EventState("", "")

  function Remembered(events: seq<Option<Event>>): EventState {
    if events == [] then START else NextEvent(Remembered(events[..|events| - 1]), events[|events| - 1])
  }

  /** The events notified for an agent. */
  function Notified(events: seq<Option<Event>>): seq<Event> {
    if events == [] then []
    else
      Notified(events[..|events| - 1])
      + if Notifies(Remembered(events[..|events| - 1]), events[|events| - 1]) then [events[|events| - 1].value] else []
  }

  predicate Maintenance(e: Event) {
    e.kind == MaintenanceStarted || e.kind == MaintenanceComplete
  }

  /** The message of the last gate failure notified since the last maintenance event. */
  function OpenGate(notified: seq<Event>): string {
    if notified == [] then ""
    else
      var e := notified[|notified| - 1];
      if e.kind == GateFailed then e.message
      else if Maintenance(e) then ""
      else OpenGate(notified[..|notified| - 1])
  }

  lemma {:induction false} OpenGateSnoc(notified: seq<Event>, e: Event)
    ensures OpenGate(notified + [e])
         == if e.kind == GateFailed then e.message else if Maintenance(e) then "" else OpenGate(notified)
  {
    assert (notified + [e])[..|notified|] == notified;
  }

  /** The remembered gate message is a function of what was notified: suppression forgets nothing. */
  lemma {:induction false} GateIsOpen(events: seq<Option<Event>>)
    ensures Remembered(events).gate == OpenGate(Notified(events))
  {
    if events != [] {
      var init, e := events[..|events| - 1], events[|events| - 1];
      GateIsOpen(init);
      assert Notified(init) + [] == Notified(init);
      if Notifies(Remembered(init), e) {
        OpenGateSnoc(Notified(init), e.value);
      }
    }
  }

  /** Something notified between `i` and `k` makes the same gate failure worth repeating. */
  predicate Separated(ns: seq<Event>, i: nat, k: nat)
    requires i < k < |ns|
  {
    exists j :: i < j < k && (Maintenance(ns[j]) || (ns[j].kind == GateFailed && ns[j].message != ns[i].message))
  }

  /** If nothing separates, the gate message is still open. */
  lemma {:induction false} StaysOpen(ns: seq<Event>, i: nat)
    requires i < |ns| && ns[i].kind == GateFailed
    requires forall j | i < j < |ns| :: !Maintenance(ns[j]) && (ns[j].kind == GateFailed ==> ns[j].message == ns[i].message)
    ensures OpenGate(ns) == ns[i].message
  {
    if i < |ns| - 1 {
      StaysOpen(ns[..|ns| - 1], i);
    }
  }

  predicate GatesSeparated(ns: seq<Event>) {
    forall i, k | 0 <= i < k < |ns| && ns[i].kind == ns[k].kind == GateFailed && ns[i].message == ns[k].message :: Separated(ns, i, k)
  }

  lemma {:induction false} SeparatedSnoc(ns: seq<Event>, e: Event)
    requires GatesSeparated(ns) && (e.kind == GateFailed ==> e.message != OpenGate(ns))
    ensures GatesSeparated(ns + [e])
  {
    var ms := ns + [e];
    forall i, k | 0 <= i < k < |ms| && ms[i].kind == ms[k].kind == GateFailed && ms[i].message == ms[k].message
      ensures Separated(ms, i, k)
    {
      if k < |ns| {
        assert Separated(ns, i, k);
        var j :| i < j < k && (Maintenance(ns[j]) || (ns[j].kind == GateFailed && ns[j].message != ns[i].message));
        assert ms[j] == ns[j];
      } else if !Separated(ms, i, k) {
        assert forall j | i < j < |ns| :: ms[j] == ns[j];
        StaysOpen(ns, i);
      }
    }
  }

  /** Two gate failures notified with the same message are always separated by a notified maintenance
    * event or a gate failure with a different message. */
  lemma {:induction false} GateFailuresSeparated(events: seq<Option<Event>>)
    ensures GatesSeparated(Notified(events))
  {
    if events != [] {
      var init, e := events[..|events| - 1], events[|events| - 1];
      GateFailuresSeparated(init);
      GateIsOpen(init);
      hide Separated, OpenGate;
      assert Notified(init) + [] == Notified(init);
      if Notifies(Remembered(init), e) {
        SeparatedSnoc(Notified(init), e.value);
      }
    }
  }

  /** The id of the latest event that has one. */
  function LatestID(events: seq<Option<Event>>): string {
    if events == [] then ""
    else
      var e := events[|events| - 1];
      if e.Some? && e.value.id != "" then e.value.id else LatestID(events[..|events| - 1])
  }

  lemma {:induction false} RemembersLatestID(events: seq<Option<Event>>)
    ensures Remembered(events).lastID == LatestID(events)
  {
    if events != [] {
      RemembersLatestID(events[..|events| - 1]);
    }
  }

  /** After any history an event is notified exactly when it has an id other than that of the latest event
    * with one, and is not a gate failure whose message is the open one. */
  lemma {:induction false} NotifiedIff(events: seq<Option<Event>>, e: Event)
    ensures Notifies(Remembered(events), Some(e))
            <==> && e.id != "" && e.id != LatestID(events)
                 && (e.kind == GateFailed ==> e.message != OpenGate(Notified(events)))
  {
    hide OpenGate, Remembered, Notified, LatestID;
    GateIsOpen(events);
    RemembersLatestID(events);
  }

  /** A new gate failure is suppressed exactly when its message is the open one; with nothing open that
    * still suppresses a failure whose message is empty. */
  lemma {:induction false} GateSuppressedIff(events: seq<Option<Event>>, e: Event)
    requires e.kind == GateFailed && IsNew(Remembered(events), Some(e))
    ensures !Notifies(Remembered(events), Some(e)) <==> e.message == OpenGate(Notified(events))
  {
    GateIsOpen(events);
  }

  // ----- Liveness -----

  lemma {:induction false} ChangesConcat(online: Option<bool>, a: seq<bool>, b: seq<bool>)
    ensures Changes(online, a + b) == Changes(online, a) + Changes(Observed(online, a), b)
    ensures Observed(online, a + b) == Observed(Observed(online, a), b)
    decreases |b|
  {
    if b == [] {
      assert a + b == a;
    } else {
      var n := |b| - 1;
      ChangesConcat(online, a, b[..n]);
      assert a + b == (a + b[..n]) + [b[n]];
      ChangesSnoc(online, a + b[..n], b[n]);
    }
  }

  /** Over any number of checks an agent's online and offline notifications strictly alternate; the
    * first one contradicts the baseline and the last one is the current state. */
  lemma {:induction false} OnlineOfflineAlternate(online: Option<bool>, obs: seq<bool>)
    ensures
      var cs := Changes(online, obs);
      && (forall i | 0 <= i < |cs| - 1 :: cs[i] != cs[i + 1])
      && (cs != [] ==> Observed(online, obs) == Some(cs[|cs| - 1]))
      && (cs != [] && online.Some? ==> cs[0] != online.value)
      && (cs == [] && online.Some? ==> Observed(online, obs) == online)
  {
    if obs != [] {
      var init, last := obs[..|obs| - 1], obs[|obs| - 1];
      OnlineOfflineAlternate(online, init);
      if Observed(online, init) == Some(!last) {
        assert Changes(online, obs) == Changes(online, init) + [last];
      } else {
        assert Changes(online, obs) == Changes(online, init);
        assert Observed(online, init).Some? ==> Observed(online, init).value == last;
      }
    }
  }

  /** An agent seen for the first time is only recorded: what follows is judged by that. */
  lemma {:induction false} FirstSightIsSilent(obs: seq<bool>)
    requires obs != []
    ensures Changes(None, obs) == Changes(Some(obs[0]), obs[1..])
  {
    var first := obs[..1];
    assert obs == first + obs[1..] && first[..0] == [];
    assert Changes(None, first) == [];
    ChangesConcat(None, first, obs[1..]);
    assert [] + Changes(Some(obs[0]), obs[1..]) == Changes(Some(obs[0]), obs[1..]);
  }

  predicate TurnsAt(states: seq<bool>, i: int) {
    0 < i < |states| && states[i] != states[i - 1]
  }

  /** The places where the state turns. */
  function Turns(states: seq<bool>): set<int> {
    set i | 0 < i < |states| && TurnsAt(states, i)
  }

  lemma {:induction false} TurnsSnoc(states: seq<bool>, last: bool)
    requires states != []
    ensures |Turns(states + [last])| == |Turns(states)| + if states[|states| - 1] != last then 1 else 0
  {
    var more := states + [last];
    assert forall i | 0 < i < |states| :: TurnsAt(more, i) == TurnsAt(states, i);
    assert TurnsAt(more, |states|) == (states[|states| - 1] != last);
    hide TurnsAt;
    if states[|states| - 1] != last {
      assert Turns(more) == Turns(states) + {|states|};
    } else {
      assert Turns(more) == Turns(states);
    }
  }

  /** From a known state, as many changes are told as the state turns. */
  lemma {:induction false} EveryTurnTold(online: bool, obs: seq<bool>)
    ensures |Changes(Some(online), obs)| == |Turns([online] + obs)|
  {
    if obs == [] {
      assert Turns([online] + obs) == {};
    } else {
      hide Turns;
      var n := |obs| - 1;
      EveryTurnTold(online, obs[..n]);
      assert [online] + obs == [online] + obs[..n] + [obs[n]];
      TurnsSnoc([online] + obs[..n], obs[n]);
    }
  }

  // ----- SMART -----

  /** The disks one agent reports in one evaluated frame. */
  datatype Report = Report(agentID: string, disks: seq<Disk>)

  datatype Warning = Warning(agentID: string, device: string, critical: bool)

  function Alerted(reports: seq<Report>): set<string> {
    if reports == [] then {}
    else NextAlerted(Alerted(reports[..|reports| - 1]), reports[|reports| - 1].agentID, reports[|reports| - 1].disks)
  }

  function WarningsIn(agentID: string, ns: seq<Notice>): seq<Warning> {
    if ns == [] then []
    else
      WarningsIn(agentID, ns[..|ns| - 1])
      + if ns[|ns| - 1].SmartWarning? then [Warning(agentID, ns[|ns| - 1].device, ns[|ns| - 1].critical)] else []
  }

  /** All SMART warnings of the run. */
  function Warnings(reports: seq<Report>): seq<Warning> {
    if reports == [] then []
    else
      var init, r := reports[..|reports| - 1], reports[|reports| - 1];
      Warnings(init) + WarningsIn(r.agentID, SmartNotices(Alerted(init), r.agentID, r.disks))
  }

  function KeysOf(ws: seq<Warning>): seq<string> {
    seq(|ws|, i requires 0 <= i < |ws| => AlertKey(ws[i].agentID, ws[i].device))
  }

  predicate Distinct(keys: seq<string>) {
    forall i, k | 0 <= i < k < |keys| :: keys[i] != keys[k]
  }

  /** `keys` lists `all` once each. */
  ghost predicate ListsOnce(keys: seq<string>, all: set<string>) {
    Distinct(keys) && forall k :: k in keys <==> k in all
  }

  lemma {:induction false} ReportLists(before: seq<Warning>, alerted: set<string>, agentID: string, disks: seq<Disk>)
    requires ListsOnce(KeysOf(before), alerted)
    ensures ListsOnce(KeysOf(before + WarningsIn(agentID, SmartNotices(alerted, agentID, disks))), NextAlerted(alerted, agentID, disks))
  {
    if disks == [] {
      assert before + [] == before;
      assert NextAlerted(alerted, agentID, []) == alerted;
    } else {
      var init, d := disks[..|disks| - 1], disks[|disks| - 1];
      ReportLists(before, alerted, agentID, init);
      assert disks == init + [d];
      AlertedSnoc(alerted, agentID, init, d);
      hide NextAlerted, AlertKey;
      var ns := SmartNotices(alerted, agentID, init);
      if Failing(d) && AlertKey(agentID, d.device) !in NextAlerted(alerted, agentID, init) {
        var w := Warning(agentID, d.device, d.status == Fail);
        assert (ns + [SmartWarning(d.device, d.status == Fail)])[..|ns|] == ns;
        ListsSnoc(before + WarningsIn(agentID, ns), w, NextAlerted(alerted, agentID, init));
        assert before + (WarningsIn(agentID, ns) + [w]) == before + WarningsIn(agentID, ns) + [w];
      } else {
        assert ns + [] == ns;
        assert NextAlerted(alerted, agentID, disks) == NextAlerted(alerted, agentID, init);
      }
    }
  }

  lemma {:induction false} ListsSnoc(ws: seq<Warning>, w: Warning, all: set<string>)
    requires ListsOnce(KeysOf(ws), all) && AlertKey(w.agentID, w.device) !in all
    ensures ListsOnce(KeysOf(ws + [w]), all + {AlertKey(w.agentID, w.device)})
  {
    hide AlertKey;
    assert KeysOf(ws + [w]) == KeysOf(ws) + [AlertKey(w.agentID, w.device)];
  }

  lemma {:induction false} WarningsListAlerted(reports: seq<Report>)
    ensures ListsOnce(KeysOf(Warnings(reports)), Alerted(reports))
  {
    if reports != [] {
      var init, r := reports[..|reports| - 1], reports[|reports| - 1];
      WarningsListAlerted(init);
      hide NextAlerted, AlertKey;
      ReportLists(Warnings(init), Alerted(init), r.agentID, r.disks);
    }
  }

  /** Some frame reported a disk as failing or about to fail under the key. */
  predicate Reported(reports: seq<Report>, key: string) {
    exists i, j :: 0 <= i < |reports| && 0 <= j < |reports[i].disks|
                   && (reports[i].disks[j].status == Fail || reports[i].disks[j].status == PreFail)
                   && reports[i].agentID + ":" + reports[i].disks[j].device == key
  }

  lemma {:induction false} AlertedIffReported(reports: seq<Report>, key: string)
    ensures key in Alerted(reports) <==> Reported(reports, key)
  {
    if reports != [] {
      hide AlertKey;
      var init, r := reports[..|reports| - 1], reports[|reports| - 1];
      AlertedIffReported(init, key);
      assert forall i | 0 <= i < |init| :: init[i] == reports[i];
    }
  }

  /** Across all agents and frames every key is warned about at most once, and exactly when some
    * evaluated frame reported it failing. */
  lemma {:induction false} WarnedOnceIffFailing(reports: seq<Report>, key: string)
    ensures Distinct(KeysOf(Warnings(reports)))
    ensures key in KeysOf(Warnings(reports)) <==> Reported(reports, key)
  {
    WarningsListAlerted(reports);
    AlertedIffReported(reports, key);
  }

  /** The frame that led to the warning reported the device as failing if the warning is critical, and as
    * about to fail if it is not. */
  predicate Grounded(reports: seq<Report>, w: Warning) {
    exists i, j :: 0 <= i < |reports| && 0 <= j < |reports[i].disks|
                   && reports[i].disks[j] == Disk(w.device, if w.critical then Fail else PreFail) && reports[i].agentID == w.agentID
  }

  lemma {:induction false} WarningsFromDisks(agentID: string, alerted: set<string>, disks: seq<Disk>, w: Warning)
    requires w in WarningsIn(agentID, SmartNotices(alerted, agentID, disks))
    ensures w.agentID == agentID && Disk(w.device, if w.critical then Fail else PreFail) in disks
  {
    var init, d := disks[..|disks| - 1], disks[|disks| - 1];
    hide NextAlerted, AlertKey;
    var ns, told := SmartNotices(alerted, agentID, init), SmartWarning(d.device, d.status == Fail);
    assert (ns + [told])[..|ns|] == ns && ns + [] == ns;
    if w in WarningsIn(agentID, ns) {
      WarningsFromDisks(agentID, alerted, init, w);
    }
  }

  /** A warning says how bad it is: critical exactly for a disk reported as failing. */
  lemma {:induction false} WarningsGrounded(reports: seq<Report>, w: Warning)
    requires w in Warnings(reports)
    ensures Grounded(reports, w)
  {
    var init, r := reports[..|reports| - 1], reports[|reports| - 1];
    hide SmartNotices, WarningsIn, Alerted;
    assert forall i | 0 <= i < |init| :: init[i] == reports[i];
    if w in Warnings(init) {
      WarningsGrounded(init, w);
    } else {
      WarningsFromDisks(r.agentID, Alerted(init), r.disks, w);
    }
  }

  /** The key stands for one agent and one device as long as agent ids contain no colon. */
  lemma {:induction false} KeyIdentifies(a: string, d: string, b: string, e: string)
    requires ':' !in a && ':' !in b
    ensures AlertKey(a, d) == AlertKey(b, e) <==> a == b && d == e
  {
    if AlertKey(a, d) == AlertKey(b, e) {
      var k := AlertKey(a, d);
      assert k[|a|] == ':' && k[|b|] == ':';
      assert forall i | 0 <= i < |a| :: k[i] == a[i] && a[i] in a;
      assert forall i | 0 <= i < |b| :: k[i] == b[i] && b[i] in b;
      assert |a| == |b|;
      assert a == k[..|a|] && b == k[..|b|];
      assert d == k[|a| + 1..] && e == k[|b| + 1..];
    }
  }

  // ----- The aggregator serves an agent -----

  function Jobs(frames: seq<Telemetry>): (r: seq<Option<ActiveJob>>)
    ensures |r| == |frames|
  {
    seq(|frames|, i requires 0 <= i < |frames| => frames[i].job)
  }

  function Events(frames: seq<Telemetry>): (r: seq<Option<Event>>)
    ensures |r| == |frames|
  {
    seq(|frames|, i requires 0 <= i < |frames| => frames[i].event)
  }

  /** The started and complete notices among all notices. */
  function LifecycleOf(ns: seq<Notice>): seq<Notice> {
    if ns == [] then []
    else
      var n := ns[|ns| - 1];
      LifecycleOf(ns[..|ns| - 1]) + if n.JobStarted? || n.JobComplete? then [n] else []
  }

  /** The agent events among all notices. */
  function EventsOf(ns: seq<Notice>): seq<Event> {
    if ns == [] then []
    else
      var n := ns[|ns| - 1];
      EventsOf(ns[..|ns| - 1]) + if n.EventNotice? then [n.event] else []
  }

  lemma {:induction false} LifecycleConcat(a: seq<Notice>, b: seq<Notice>)
    ensures LifecycleOf(a + b) == LifecycleOf(a) + LifecycleOf(b)
    decreases |b|
  {
    if b == [] {
      assert a + b == a;
    } else {
      LifecycleConcat(a, b[..|b| - 1]);
      assert (a + b)[..|a + b| - 1] == a + b[..|b| - 1];
    }
  }

  lemma {:induction false} EventsConcat(a: seq<Notice>, b: seq<Notice>)
    ensures EventsOf(a + b) == EventsOf(a) + EventsOf(b)
    decreases |b|
  {
    if b == [] {
      assert a + b == a;
    } else {
      EventsConcat(a, b[..|b| - 1]);
      assert (a + b)[..|a + b| - 1] == a + b[..|b| - 1];
    }
  }

  lemma {:induction false} FiltersConcat(a: seq<Notice>, b: seq<Notice>)
    ensures LifecycleOf(a + b) == LifecycleOf(a) + LifecycleOf(b)
    ensures EventsOf(a + b) == EventsOf(a) + EventsOf(b)
  {
    hide *;
    LifecycleConcat(a, b);
    EventsConcat(a, b);
  }

  lemma {:induction false} SmartIsNeither(alerted: set<string>, agentID: string, disks: seq<Disk>)
    ensures LifecycleOf(SmartNotices(alerted, agentID, disks)) == [] && EventsOf(SmartNotices(alerted, agentID, disks)) == []
  {
    if disks != [] {
      hide NextAlerted, AlertKey;
      var init, d := disks[..|disks| - 1], disks[|disks| - 1];
      SmartIsNeither(alerted, agentID, init);
      var ns := SmartNotices(alerted, agentID, init);
      assert ns + [] == ns && (ns + [SmartWarning(d.device, d.status == Fail)])[..|ns|] == ns;
    }
  }

  lemma {:induction false} JobNoticesFilter(prev: Option<TrackedJob>, job: Option<ActiveJob>)
    ensures
      var ns := JobNotices(prev, job);
      && EventsOf(ns) == []
      && LifecycleOf(ns) == if ns != [] && (ns[0].JobStarted? || ns[0].JobComplete?) then ns else []
  {
    var ns := JobNotices(prev, job);
    if ns != [] {
      assert ns[..0] == [] && ns == [ns[0]];
    }
  }

  lemma {:induction false} EventNoticeFilter(e: Event)
    ensures LifecycleOf([EventNotice(e)]) == [] && EventsOf([EventNotice(e)]) == [e]
  {
    assert [EventNotice(e)][..0] == [];
  }

  lemma {:induction false} FrameFilters(s: AgentState, alerted: set<string>, agentID: string, t: Telemetry)
    ensures EventsOf(FrameNotices(s, alerted, agentID, t)) == if Notifies(s.events, t.event) then [t.event.value] else []
    ensures
      var ns := JobNotices(s.job, t.job);
      LifecycleOf(FrameNotices(s, alerted, agentID, t)) == if ns != [] && (ns[0].JobStarted? || ns[0].JobComplete?) then ns else []
  {
    hide JobNotices, SmartNotices, LifecycleOf, EventsOf;
    var ns, smart := JobNotices(s.job, t.job), SmartNotices(alerted, agentID, t.disks);
    JobNoticesFilter(s.job, t.job);
    SmartIsNeither(alerted, agentID, t.disks);
    FiltersConcat(ns, smart);
    if Notifies(s.events, t.event) {
      EventNoticeFilter(t.event.value);
      FiltersConcat(ns + smart, [EventNotice(t.event.value)]);
    } else {
      assert ns + smart + [] == ns + smart;
    }
  }

  /** State and notices of one agent are those of the run functions. */
  ghost predicate Serves(hub: Aggregator, agentID: string, frames: seq<Telemetry>, notices: seq<Notice>)
    reads hub
  {
    && hub.Agent(agentID).job == Tracked(Jobs(frames)) && LifecycleOf(notices) == Lifecycle(Jobs(frames))
    && hub.Agent(agentID).events == Remembered(Events(frames)) && EventsOf(notices) == Notified(Events(frames))
  }

  lemma {:induction false} RunStep(frames: seq<Telemetry>, t: Telemetry)
    ensures
      var jobs, events, more := Jobs(frames), Events(frames), frames + [t];
      var ns := JobNotices(Tracked(jobs), t.job);
      && Tracked(Jobs(more)) == NextJob(Tracked(jobs), t.job)
      && Lifecycle(Jobs(more)) == Lifecycle(jobs) + (if ns != [] && (ns[0].JobStarted? || ns[0].JobComplete?) then ns else [])
      && Remembered(Events(more)) == NextEvent(Remembered(events), t.event)
      && Notified(Events(more)) == Notified(events) + if Notifies(Remembered(events), t.event) then [t.event.value] else []
  {
    hide NextJob, NextEvent, Notifies, JobNotices;
    var more := frames + [t];
    assert Jobs(more) == Jobs(frames) + [t.job] && Jobs(more)[..|frames|] == Jobs(frames);
    assert Events(more) == Events(frames) + [t.event] && Events(more)[..|frames|] == Events(frames);
  }

  /** A frame of some agent, and the notices one frame led to. */
  datatype Shown = Shown(agentID: string, frame: Telemetry)

  datatype Batch = Batch(agentID: string, notices: seq<Notice>)

  function FramesOf(run: seq<Shown>, agentID: string): seq<Telemetry> {
    if run == [] then []
    else
      var f := run[|run| - 1];
      FramesOf(run[..|run| - 1], agentID) + if f.agentID == agentID then [f.frame] else []
  }

  function NoticesOf(batches: seq<Batch>, agentID: string): seq<Notice> {
    if batches == [] then []
    else
      var b := batches[|batches| - 1];
      NoticesOf(batches[..|batches| - 1], agentID) + if b.agentID == agentID then b.notices else []
  }

  /** The SMART warnings among all notices. */
  function WarningsOf(batches: seq<Batch>): seq<Warning> {
    if batches == [] then []
    else
      var b := batches[|batches| - 1];
      WarningsOf(batches[..|batches| - 1]) + WarningsIn(b.agentID, b.notices)
  }

  function Reports(run: seq<Shown>): (r: seq<Report>)
    ensures |r| == |run|
  {
    seq(|run|, i requires 0 <= i < |run| => Report(run[i].agentID, run[i].frame.disks))
  }

  /** State and notices of every agent, and the SMART alerts across agents. */
  ghost predicate ServesAll(hub: Aggregator, run: seq<Shown>, batches: seq<Batch>)
    reads hub
  {
    && (forall id :: Serves(hub, id, FramesOf(run, id), NoticesOf(batches, id)))
    && hub.smartAlerted == Alerted(Reports(run)) && WarningsOf(batches) == Warnings(Reports(run))
  }

  lemma {:induction false} WarningsConcat(agentID: string, a: seq<Notice>, b: seq<Notice>)
    ensures WarningsIn(agentID, a + b) == WarningsIn(agentID, a) + WarningsIn(agentID, b)
    decreases |b|
  {
    if b == [] {
      assert a + b == a;
    } else {
      WarningsConcat(agentID, a, b[..|b| - 1]);
      assert (a + b)[..|a + b| - 1] == a + b[..|b| - 1];
    }
  }

  /** Only the SMART part of a frame's notices warns. */
  lemma {:induction false} FrameWarnings(s: AgentState, alerted: set<string>, agentID: string, t: Telemetry)
    ensures WarningsIn(agentID, FrameNotices(s, alerted, agentID, t)) == WarningsIn(agentID, SmartNotices(alerted, agentID, t.disks))
  {
    hide SmartNotices;
    var ns, smart := JobNotices(s.job, t.job), SmartNotices(alerted, agentID, t.disks);
    var events := if Notifies(s.events, t.event) then [EventNotice(t.event.value)] else [];
    JobsWarnOfNothing(agentID, s.job, t.job);
    EventsWarnOfNothing(agentID, events);
    hide JobNotices, WarningsIn, Notifies;
    WarningsConcat(agentID, ns, smart);
    WarningsConcat(agentID, ns + smart, events);
    assert [] + WarningsIn(agentID, smart) + [] == WarningsIn(agentID, smart);
  }

  lemma {:induction false} JobsWarnOfNothing(agentID: string, prev: Option<TrackedJob>, job: Option<ActiveJob>)
    ensures WarningsIn(agentID, JobNotices(prev, job)) == []
  {
    var ns := JobNotices(prev, job);
    assert ns == [] || ns[..0] == [];
  }

  lemma {:induction false} EventsWarnOfNothing(agentID: string, events: seq<Notice>)
    requires |events| <= 1 && forall n | n in events :: n.EventNotice?
    ensures WarningsIn(agentID, events) == []
  {
    assert events == [] || (events[..0] == [] && events[0] in events);
  }

  lemma {:induction false} ReportsStep(run: seq<Shown>, f: Shown, batches: seq<Batch>, ns: seq<Notice>)
    ensures
      var reports := Reports(run + [f]);
      && Alerted(reports) == NextAlerted(Alerted(Reports(run)), f.agentID, f.frame.disks)
      && Warnings(reports)
         == Warnings(Reports(run)) + WarningsIn(f.agentID, SmartNotices(Alerted(Reports(run)), f.agentID, f.frame.disks))
      && WarningsOf(batches + [Batch(f.agentID, ns)]) == WarningsOf(batches) + WarningsIn(f.agentID, ns)
  {
    hide NextAlerted, SmartNotices, WarningsIn;
    assert Reports(run + [f]) == Reports(run) + [Report(f.agentID, f.frame.disks)];
    assert Reports(run + [f])[..|run|] == Reports(run);
    assert (batches + [Batch(f.agentID, ns)])[..|batches|] == batches;
  }

  lemma {:induction false} FramesStep(run: seq<Shown>, f: Shown, batches: seq<Batch>, ns: seq<Notice>, id: string)
    ensures FramesOf(run + [f], id) == FramesOf(run, id) + if f.agentID == id then [f.frame] else []
    ensures NoticesOf(batches + [Batch(f.agentID, ns)], id) == NoticesOf(batches, id) + if f.agentID == id then ns else []
  {
    assert (run + [f])[..|run|] == run;
    assert (batches + [Batch(f.agentID, ns)])[..|batches|] == batches;
  }

  /** One more frame of an agent. */
  lemma {:induction false} AgentStep(frames: seq<Telemetry>, t: Telemetry, s: AgentState, alerted: set<string>, agentID: string,
                                     before: seq<Notice>)
    requires s.job == Tracked(Jobs(frames)) && LifecycleOf(before) == Lifecycle(Jobs(frames))
    requires s.events == Remembered(Events(frames)) && EventsOf(before) == Notified(Events(frames))
    ensures
      var after := before + FrameNotices(s, alerted, agentID, t);
      && NextJob(s.job, t.job) == Tracked(Jobs(frames + [t])) && LifecycleOf(after) == Lifecycle(Jobs(frames + [t]))
      && NextEvent(s.events, t.event) == Remembered(Events(frames + [t])) && EventsOf(after) == Notified(Events(frames + [t]))
  {
    hide FrameNotices, NextJob, NextEvent, Notifies, JobNotices, LifecycleOf, EventsOf, Tracked, Remembered, Lifecycle, Notified,
         Jobs, Events;
    RunStep(frames, t);
    FrameFilters(s, alerted, agentID, t);
    FiltersConcat(before, FrameNotices(s, alerted, agentID, t));
  }

  /** One frame of any agent. */
  method ServeOne(hub: Aggregator, ghost run: seq<Shown>, f: Shown, batches: seq<Batch>) returns (all: seq<Batch>)
    requires hub.connected && ServesAll(hub, run, batches)
    modifies hub
    ensures hub.connected && ServesAll(hub, run + [f], all)
  {
    hide FrameNotices, NextJob, NextEvent, Notifies, JobNotices, SmartNotices, NextAlerted, LifecycleOf, EventsOf, Tracked,
         Remembered, Lifecycle, Notified, Jobs, Events, FramesOf, NoticesOf, WarningsOf, WarningsIn, Warnings, Alerted, Reports;
    ghost var was := hub.Agent(f.agentID);
    ghost var alerted := hub.smartAlerted;
    assert Serves(hub, f.agentID, FramesOf(run, f.agentID), NoticesOf(batches, f.agentID));
    AgentStep(FramesOf(run, f.agentID), f.frame, was, alerted, f.agentID, NoticesOf(batches, f.agentID));
    FrameWarnings(was, alerted, f.agentID, f.frame);
    label before:
    var ns := hub.EvaluateTelemetry(f.agentID, Some(f.frame));
    all := batches + [Batch(f.agentID, ns)];
    ReportsStep(run, f, batches, ns);
    forall id
      ensures Serves(hub, id, FramesOf(run + [f], id), NoticesOf(all, id))
    {
      FramesStep(run, f, batches, ns, id);
      if id != f.agentID {
        assert old@before(Serves(hub, id, FramesOf(run, id), NoticesOf(batches, id)));
        assert FramesOf(run, id) + [] == FramesOf(run, id) && NoticesOf(batches, id) + [] == NoticesOf(batches, id);
      }
    }
  }

  /** The frames of all agents, in the order they arrive, evaluated by a connected hub that has seen none:
    * every result above about jobs, events and SMART warnings is about the aggregator. */
  method Serve(hub: Aggregator, run: seq<Shown>) returns (batches: seq<Batch>)
    requires hub.connected && hub.smartAlerted == {}
    requires forall id :: hub.Agent(id).job == None && hub.Agent(id).events == START
    modifies hub
    ensures hub.connected && ServesAll(hub, run, batches)
  {
    hide FrameNotices, NextJob, NextEvent, Notifies, JobNotices, NextAlerted, LifecycleOf, EventsOf, Tracked, Remembered, Lifecycle, Notified;
    batches := [];
    NothingServed(FramesOf(run[..0], ""));
    assert Reports(run[..0]) == [];
    for i := 0 to |run|
      invariant hub.connected && ServesAll(hub, run[..i], batches)
    {
      assert run[..i + 1] == run[..i] + [run[i]];
      batches := ServeOne(hub, run[..i], run[i], batches);
    }
    assert run[..|run|] == run;
  }

  lemma {:induction false} NothingServed(frames: seq<Telemetry>)
    ensures Tracked(Jobs(frames[..0])) == None && Lifecycle(Jobs(frames[..0])) == [] == LifecycleOf([])
    ensures Remembered(Events(frames[..0])) == START && Notified(Events(frames[..0])) == [] == EventsOf([])
  {
  }
}
