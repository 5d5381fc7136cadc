/** The SnapRAID hub's transition detection: job starts and completions, agent events with gate-failure
  * suppression, SMART warnings, and agent liveness. One evaluated frame, or one liveness check of one
  * agent, is one step. */
module SnapraidHub {
  import opened Common

  /** How a job was triggered, as far as event types tell it apart. */
  datatype Trigger = Manual | Scheduled | Unspecified

  datatype ActiveJob = ActiveJob(kind: string, trigger: Trigger, phase: string)

  /** The job last seen in an agent's telemetry. */
  datatype TrackedJob = TrackedJob(kind: string, phase: string, trigger: Trigger)

  datatype EventKind = GateFailed | MaintenanceStarted | MaintenanceComplete | OtherKind(name: string)

  datatype Event = Event(id: string, kind: EventKind, message: string)

  datatype DiskStatus = Fail | PreFail | Fine

  datatype Disk = Disk(device: string, status: DiskStatus)

  /** The inspected part of a telemetry payload; an absent SMART block is an empty list. */
  datatype Telemetry = Telemetry(job: Option<ActiveJob>, disks: seq<Disk>, event: Option<Event>)

  datatype Notice =
    | JobStarted(kind: string, trigger: Trigger)
    | JobComplete(kind: string, trigger: Trigger)
    | PhaseComplete(from: string, to: string)
    | EventNotice(event: Event)
    | SmartWarning(device: string, critical: bool)

  // ----- Job transitions -----

  /** A repeated frame replaces the tracked job without its trigger. */
  function NextJob(prev: Option<TrackedJob>, job: Option<ActiveJob>): Option<TrackedJob> {
    match job
    case None => None
    case Some(j) => Some(TrackedJob(j.kind, j.phase, if prev == None then j.trigger else Unspecified))
  }

  function JobNotices(prev: Option<TrackedJob>, job: Option<ActiveJob>): seq<Notice> {
    if prev == None && job == None then []
    else if prev == None then [JobStarted(job.value.kind, job.value.trigger)]
    else if job == None then [JobComplete(prev.value.kind, prev.value.trigger)]
    else if prev.value.phase != "" && job.value.phase != "" && prev.value.phase != job.value.phase then
      [PhaseComplete(prev.value.phase, job.value.phase)]
    else []
  }

  // ----- Agent events -----

  /** What is remembered of an agent's events; no gate message is the empty one. */
  datatype EventState = EventState(lastID: string, gate: string)

  predicate IsNew(s: EventState, e: Option<Event>) {
    e.Some? && e.value.id != "" && e.value.id != s.lastID
  }

  predicate Notifies(s: EventState, e: Option<Event>) {
    IsNew(s, e) && (e.value.kind == GateFailed ==> e.value.message != s.gate)
  }

  function NextEvent(s: EventState, e: Option<Event>): EventState {
    if !IsNew(s, e) then s
    else
      EventState(e.value.id,
                 match e.value.kind
                 case GateFailed => e.value.message
                 case MaintenanceStarted => ""
                 case MaintenanceComplete => ""
                 case OtherKind(_) => s.gate)
  }

  // ----- SMART -----

  function AlertKey(agentID: string, device: string): string {
    agentID + ":" + device
  }

  predicate Failing(d: Disk) {
    d.status == Fail || d.status == PreFail
  }

  function NextAlerted(alerted: set<string>, agentID: string, disks: seq<Disk>): set<string> {
    alerted + set i | 0 <= i < |disks| && Failing(disks[i]) :: AlertKey(agentID, disks[i].device)
  }

  function SmartNotices(alerted: set<string>, agentID: string, disks: seq<Disk>): seq<Notice> {
    if disks == [] then []
    else
      var init, d := disks[..|disks| - 1], disks[|disks| - 1];
      SmartNotices(alerted, agentID, init)
      + if Failing(d) && AlertKey(agentID, d.device) !in NextAlerted(alerted, agentID, init)
        then [SmartWarning(d.device, d.status == Fail)] else []
  }

  // ----- The aggregator -----

  /** What the hub keeps about one agent. */
  datatype AgentState = AgentState(job: Option<TrackedJob>, events: EventState, online: Option<bool>)

  function NextAgent(s: AgentState, t: Telemetry): AgentState {
    AgentState(NextJob(s.job, t.job), NextEvent(s.events, t.event), s.online)
  }

  function FrameNotices(s: AgentState, alerted: set<string>, agentID: string, t: Telemetry): seq<Notice> {
    JobNotices(s.job, t.job) + SmartNotices(alerted, agentID, t.disks)
    + if Notifies(s.events, t.event) then [EventNotice(t.event.value)] else []
  }

  /** An agent as the registry lists it. */
  datatype Listed = Listed(id: string, online: bool)

  datatype Liveness = Liveness(id: string, online: bool)

  class Aggregator {
    var lastJobs: map<string, TrackedJob>
    var lastEventIDs: map<string, string>
    var lastGateMessages: map<string, string>
    var smartAlerted: set<string>
    var agentOnline: map<string, bool>
    var connected: bool

    constructor ()
      ensures (forall id :: Agent(id) == AgentState(None, EventState("", ""), None)) && smartAlerted == {} && !connected
    {
      lastJobs, lastEventIDs, lastGateMessages, agentOnline := map[], map[], map[], map[];
      smartAlerted, connected := {}, false;
    }

    ghost function Agent(id: string): AgentState
      reads this
    {
      AgentState(
        Lookup(lastJobs, id),
        EventState(if id in lastEventIDs then lastEventIDs[id] else "", if id in lastGateMessages then lastGateMessages[id] else ""),
        Lookup(agentOnline, id))
    }

    method SetTelemetryClient()
      modifies `connected
      ensures connected
    {
      connected := true;
    }

    method EvaluateJobTransition(agentID: string, job: Option<ActiveJob>) returns (notices: seq<Notice>)
      modifies `lastJobs
      ensures Agent(agentID) == old(Agent(agentID)).(job := NextJob(old(Agent(agentID)).job, job))
      ensures forall id | id != agentID :: Agent(id) == old(Agent(id))
      ensures notices == JobNotices(old(Agent(agentID)).job, job)
    {
      var prev := Lookup(lastJobs, agentID);
      if job.Some? && prev == None {
        lastJobs := lastJobs[agentID := TrackedJob(job.value.kind, job.value.phase, job.value.trigger)];
        return [JobStarted(job.value.kind, job.value.trigger)];
      }
      if job == None && prev.Some? {
        lastJobs := lastJobs - {agentID};
        return [JobComplete(prev.value.kind, prev.value.trigger)];
      }
      notices := [];
      if job.Some? {
        var prevPhase := prev.value.phase;
        lastJobs := lastJobs[agentID := TrackedJob(job.value.kind, job.value.phase, Unspecified)];
        if prevPhase != "" && job.value.phase != "" && prevPhase != job.value.phase {
          notices := [PhaseComplete(prevPhase, job.value.phase)];
        }
      }
    }

    method EvaluateAgentEvent(agentID: string, event: Option<Event>) returns (notices: seq<Notice>)
      modifies `lastEventIDs, `lastGateMessages
      ensures Agent(agentID) == old(Agent(agentID)).(events := NextEvent(old(Agent(agentID)).events, event))
      ensures forall id | id != agentID :: Agent(id) == old(Agent(id))
      ensures notices == if Notifies(old(Agent(agentID)).events, event) then [EventNotice(event.value)] else []
    {
      if event == None || event.value.id == "" {
        return [];
      }
      var e := event.value;
      if agentID in lastEventIDs && lastEventIDs[agentID] == e.id {
        return [];
      }
      lastEventIDs := lastEventIDs[agentID := e.id];
      if e.kind == GateFailed {
        if (if agentID in lastGateMessages then lastGateMessages[agentID] else "") == e.message {
          return [];
        }
        lastGateMessages := lastGateMessages[agentID := e.message];
      }
      if e.kind == MaintenanceStarted || e.kind == MaintenanceComplete {
        lastGateMessages := lastGateMessages - {agentID};
      }
      return [EventNotice(e)];
    }

    method EvaluateSmartStatus(agentID: string, disks: seq<Disk>) returns (notices: seq<Notice>)
      modifies `smartAlerted
      ensures smartAlerted == NextAlerted(old(smartAlerted), agentID, disks)
      ensures notices == SmartNotices(old(smartAlerted), agentID, disks)
    {
      hide AlertKey, NextAlerted, SmartNotices;
      notices := [];
      NothingReported(smartAlerted, agentID, disks[..0]);
      for i := 0 to |disks|
        invariant smartAlerted == NextAlerted(old(smartAlerted), agentID, disks[..i])
        invariant notices == SmartNotices(old(smartAlerted), agentID, disks[..i])
      {
        var d := disks[i];
        DiskReported(old(smartAlerted), agentID, disks, i);
        if d.status != Fail && d.status != PreFail {
          continue;
        }
        var key := AlertKey(agentID, d.device);
        if key in smartAlerted {
          continue;
        }
        smartAlerted := smartAlerted + {key};
        notices := notices + [SmartWarning(d.device, d.status == Fail)];
      }
      assert disks[..|disks|] == disks;
    }

    /** A frame advances its own agent's state and no other; an unreadable frame, or one that arrives
      * before the telemetry client is set, changes nothing. */
    method EvaluateTelemetry(agentID: string, payload: Option<Telemetry>) returns (notices: seq<Notice>)
      modifies `lastJobs, `lastEventIDs, `lastGateMessages, `smartAlerted
      ensures
        var evaluated := connected && payload.Some?;
        && Agent(agentID) == (if evaluated then NextAgent(old(Agent(agentID)), payload.value) else old(Agent(agentID)))
        && smartAlerted == (if evaluated then NextAlerted(old(smartAlerted), agentID, payload.value.disks) else old(smartAlerted))
        && notices == if evaluated then FrameNotices(old(Agent(agentID)), old(smartAlerted), agentID, payload.value) else []
      ensures forall id | id != agentID :: Agent(id) == old(Agent(id))
    {
      hide NextJob, NextEvent, JobNotices, SmartNotices, NextAlerted, Notifies;
      notices := [];
      if !connected || payload == None {
        return;
      }
      var started := EvaluateJobTransition(agentID, payload.value.job);
      var smart := EvaluateSmartStatus(agentID, payload.value.disks);
      var events := EvaluateAgentEvent(agentID, payload.value.event);
      notices := started + smart + events;
    }

    /** The baseline, taken without notifying. */
    method SeedAgentLiveness(views: seq<Listed>)
      modifies `agentOnline
      ensures forall id :: Agent(id) == old(Agent(id)).(online := Observed(old(Agent(id)).online, Observations(views, id)))
    {
      for i := 0 to |views|
        invariant forall id :: Agent(id) == old(Agent(id)).(online := Observed(old(Agent(id)).online, Observations(views[..i], id)))
      {
        assert views[..i + 1][..i] == views[..i];
        agentOnline := agentOnline[views[i].id := views[i].online];
      }
      assert views[..|views|] == views;
    }

    /** One liveness round: every listed agent whose state differs from the recorded one is notified. */
    method CheckAgentLiveness(views: seq<Listed>) returns (notices: seq<Liveness>)
      modifies `agentOnline
      ensures forall id :: Agent(id)
                           == if connected then old(Agent(id)).(online := Observed(old(Agent(id)).online, Observations(views, id)))
                              else old(Agent(id))
      ensures forall id :: OfAgent(notices, id)
                           == if connected then Changes(old(Agent(id)).online, Observations(views, id)) else []
    {
      notices := [];
      if !connected {
        return;
      }
      ghost var was := agentOnline;
      assert views[..0] == [];
      for i := 0 to |views|
        invariant Checked(was, agentOnline, views[..i], notices)
      {
        var v := views[i];
        CheckedNext(was, agentOnline, views, i, notices);
        var prev := Lookup(agentOnline, v.id);
        agentOnline := agentOnline[v.id := v.online];
        if prev == None || prev.value == v.online {
          continue;
        }
        notices := notices + [Liveness(v.id, v.online)];
      }
      assert views[..|views|] == views;
      forall id
        ensures Agent(id) == old(Agent(id)).(online := Observed(old(Agent(id)).online, Observations(views, id)))
        ensures OfAgent(notices, id) == Changes(old(Agent(id)).online, Observations(views, id))
      {
        assert Holds(was, agentOnline, views, notices, id);
      }
    }
  }

  /** For `id`: the recorded state is the last one observed, and its changes were notified. */
  ghost predicate Holds(was: map<string, bool>, now: map<string, bool>, views: seq<Listed>, notices: seq<Liveness>, id: string) {
    && Lookup(now, id) == Observed(Lookup(was, id), Observations(views, id))
    && OfAgent(notices, id) == Changes(Lookup(was, id), Observations(views, id))
  }

  ghost predicate Checked(was: map<string, bool>, now: map<string, bool>, views: seq<Listed>, notices: seq<Liveness>) {
    forall id :: Holds(was, now, views, notices, id)
  }

  lemma {:induction false} HoldsForOther(was: map<string, bool>, now: map<string, bool>, views: seq<Listed>, i: nat,
                                         notices: seq<Liveness>, found: seq<Liveness>, id: string)
    requires i < |views| && views[i].id != id && Holds(was, now, views[..i], notices, id)
    requires found == [] || found == [Liveness(views[i].id, views[i].online)]
    ensures Holds(was, now[views[i].id := views[i].online], views[..i + 1], notices + found, id)
  {
    var v := views[i];
    ObservationsSnoc(views, i, id);
    OfAgentSnoc(notices, Liveness(v.id, v.online), id);
    hide Observations, Changes, OfAgent, Observed;
    assert Observations(views[..i], id) + [] == Observations(views[..i], id);
    assert OfAgent(notices, id) + [] == OfAgent(notices, id) && notices + [] == notices;
  }

  lemma {:induction false} HoldsForOwn(was: map<string, bool>, now: map<string, bool>, views: seq<Listed>, i: nat, notices: seq<Liveness>)
    requires i < |views| && Holds(was, now, views[..i], notices, views[i].id)
    ensures
      var v := views[i];
      var found := if Lookup(now, v.id) == Some(!v.online) then [Liveness(v.id, v.online)] else [];
      Holds(was, now[v.id := v.online], views[..i + 1], notices + found, v.id)
  {
    var v := views[i];
    var obs := Observations(views[..i], v.id);
    ObservationsSnoc(views, i, v.id);
    ChangesSnoc(Lookup(was, v.id), obs, v.online);
    OfAgentSnoc(notices, Liveness(v.id, v.online), v.id);
    hide Observations, Changes, OfAgent;
    assert notices + [] == notices && Changes(Lookup(was, v.id), obs) + [] == Changes(Lookup(was, v.id), obs);
  }

  lemma {:induction false} HoldsNext(was: map<string, bool>, now: map<string, bool>, views: seq<Listed>, i: nat, notices: seq<Liveness>, id: string)
    requires i < |views| && Holds(was, now, views[..i], notices, id)
    ensures
      var v := views[i];
      var found := if Lookup(now, v.id) == Some(!v.online) then [Liveness(v.id, v.online)] else [];
      Holds(was, now[v.id := v.online], views[..i + 1], notices + found, id)
  {
    hide *;
    var v := views[i];
    var found := if Lookup(now, v.id) == Some(!v.online) then [Liveness(v.id, v.online)] else [];
    if v.id == id {
      HoldsForOwn(was, now, views, i, notices);
    } else {
      HoldsForOther(was, now, views, i, notices, found, id);
    }
  }

  lemma {:induction false} CheckedNext(was: map<string, bool>, now: map<string, bool>, views: seq<Listed>, i: nat, notices: seq<Liveness>)
    requires i < |views| && Checked(was, now, views[..i], notices)
    ensures
      var v := views[i];
      && (Lookup(now, v.id) == Some(!v.online)
          ==> Checked(was, now[v.id := v.online], views[..i + 1], notices + [Liveness(v.id, v.online)]))
      && (Lookup(now, v.id) != Some(!v.online) ==> Checked(was, now[v.id := v.online], views[..i + 1], notices))
  {
    hide Holds;
    var v := views[i];
    var found := if Lookup(now, v.id) == Some(!v.online) then [Liveness(v.id, v.online)] else [];
    var then', upTo, told := now[v.id := v.online], views[..i + 1], notices + found;
    forall id
      ensures Holds(was, then', upTo, told, id)
    {
      assert Holds(was, now, views[..i], notices, id);
      HoldsNext(was, now, views, i, notices, id);
    }
    assert notices + [] == notices;
  }

  lemma {:induction false} AlertedSnoc(alerted: set<string>, agentID: string, disks: seq<Disk>, d: Disk)
    ensures NextAlerted(alerted, agentID, disks + [d])
         == NextAlerted(alerted, agentID, disks) + if Failing(d) then {AlertKey(agentID, d.device)} else {}
  {
    var all := disks + [d];
    assert all[|disks|] == d;
    assert forall i | 0 <= i < |disks| :: all[i] == disks[i];
  }

  lemma {:induction false} NothingReported(alerted: set<string>, agentID: string, disks: seq<Disk>)
    ensures disks == [] ==> NextAlerted(alerted, agentID, disks) == alerted && SmartNotices(alerted, agentID, disks) == []
  {
  }

  /** What one more disk adds to the alerts and to the warnings. */
  lemma {:induction false} DiskReported(alerted: set<string>, agentID: string, disks: seq<Disk>, i: nat)
    requires i < |disks|
    ensures
      var init, more, d := disks[..i], disks[..i + 1], disks[i];
      var before := NextAlerted(alerted, agentID, init);
      var unseen := Failing(d) && AlertKey(agentID, d.device) !in before;
      && NextAlerted(alerted, agentID, more) == (if unseen then before + {AlertKey(agentID, d.device)} else before)
      && SmartNotices(alerted, agentID, more)
         == SmartNotices(alerted, agentID, init) + if unseen then [SmartWarning(d.device, d.status == Fail)] else []
  {
    hide AlertKey, NextAlerted;
    assert disks[..i + 1][..i] == disks[..i] && disks[..i + 1] == disks[..i] + [disks[i]];
    AlertedSnoc(alerted, agentID, disks[..i], disks[i]);
  }

  // ----- Observing one agent -----

  /** The states of one agent in the order they are observed. */
  function Observations(views: seq<Listed>, id: string): seq<bool> {
    if views == [] then []
    else Observations(views[..|views| - 1], id) + if views[|views| - 1].id == id then [views[|views| - 1].online] else []
  }

  /** The recorded state after some observations. */
  function Observed(online: Option<bool>, obs: seq<bool>): Option<bool> {
    if obs == [] then online else Some(obs[|obs| - 1])
  }

  /** The observations that differ from the recorded state, and so are notified. */
  function Changes(online: Option<bool>, obs: seq<bool>): seq<bool> {
    if obs == [] then []
    else
      var init, last := obs[..|obs| - 1], obs[|obs| - 1];
      Changes(online, init) + if Observed(online, init) == Some(!last) then [last] else []
  }

  function OfAgent(notices: seq<Liveness>, id: string): seq<bool> {
    if notices == [] then []
    else OfAgent(notices[..|notices| - 1], id) + if notices[|notices| - 1].id == id then [notices[|notices| - 1].online] else []
  }

  lemma {:induction false} ObservationsSnoc(views: seq<Listed>, i: nat, id: string)
    requires i < |views|
    ensures Observations(views[..i + 1], id) == Observations(views[..i], id) + if views[i].id == id then [views[i].online] else []
  {
    assert views[..i + 1][..i] == views[..i];
  }

  lemma {:induction false} ChangesSnoc(online: Option<bool>, obs: seq<bool>, last: bool)
    ensures Changes(online, obs + [last]) == Changes(online, obs) + if Observed(online, obs) == Some(!last) then [last] else []
  {
    assert (obs + [last])[..|obs|] == obs;
  }

  lemma {:induction false} OfAgentSnoc(notices: seq<Liveness>, n: Liveness, id: string)
    ensures OfAgent(notices + [n], id) == OfAgent(notices, id) + if n.id == id then [n.online] else []
  {
    assert (notices + [n])[..|notices|] == notices;
  }
}
