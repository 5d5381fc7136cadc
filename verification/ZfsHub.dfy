/** The ZFS hub's per-agent cache: the latest frame, the iostat sample before it, and the id of the
  * last event notified. One Ingest call is one step. */
module ZfsHub {
  import opened Common
  import opened IOStatTree
  import opened IOStatRates

  datatype Event = Event(id: string, kind: string, severity: string, message: string)

  /** The iostat field of a frame as it is kept: present, whether or not it can be read as samples. */
  datatype Field = Samples(samples: seq<Sample>) | Unreadable

  /** A frame: its iostat field, absent when there is none or the frame is no JSON object, and what the
    * notification rules see of it, absent when it does not parse. */
  datatype Payload = Payload(iostat: Option<Field>, view: Option<View>)

  datatype View = View(pools: map<string, Tracked>, event: Option<Event>)

  datatype Tracked = Tracked(resilvering: bool, scrubRunning: bool, scrubCompleted: bool, dataVdevs: nat)

  datatype PoolEvent = ResilverCompleted(pool: string) | ScrubCompleted(pool: string) | Expanded(pool: string, added: nat)

  datatype Notice = PoolNotice(event: PoolEvent) | AgentNotice(event': Event)

  /** What the hub keeps about one agent. */
  datatype AgentState = AgentState(
    cache: Option<Payload>, prevIOStat: Option<Field>, lastPools: Option<map<string, Tracked>>, lastEventID: string)

  const UNSEEN := AgentState(None, None, None, "")

  // ----- Pool transitions -----

  function Transition(pool: string, p: Tracked, c: Tracked): set<PoolEvent> {
    (if p.resilvering && !c.resilvering then {ResilverCompleted(pool)} else {})
    + (if p.scrubRunning && c.scrubCompleted then {ScrubCompleted(pool)} else {})
    + (if c.dataVdevs > p.dataVdevs then {Expanded(pool, c.dataVdevs - p.dataVdevs)} else {})
  }

  /** `e` reports a pool known in both frames. */
  predicate IsTransition(prev: map<string, Tracked>, curr: map<string, Tracked>, e: PoolEvent) {
    e.pool in prev && e.pool in curr && e in Transition(e.pool, prev[e.pool], curr[e.pool])
  }

  predicate NoRepeats<T(==)>(s: seq<T>) {
    forall i, j | 0 <= i < j < |s| :: s[i] != s[j]
  }

  method DetectOne(pool: string, p: Tracked, c: Tracked) returns (events: seq<PoolEvent>)
    ensures NoRepeats(events) && forall e :: e in events <==> e in Transition(pool, p, c)
  {
    events := [];
    if p.resilvering && !c.resilvering {
      events := events + [ResilverCompleted(pool)];
    }
    if p.scrubRunning && c.scrubCompleted {
      events := events + [ScrubCompleted(pool)];
    }
    if c.dataVdevs > p.dataVdevs {
      events := events + [Expanded(pool, c.dataVdevs - p.dataVdevs)];
    }
  }

  /** detectPoolTransitions: the pools are walked in no particular order, each event is found once. */
  method DetectPoolTransitions(prev: map<string, Tracked>, curr: map<string, Tracked>) returns (events: seq<PoolEvent>)
    ensures NoRepeats(events) && forall e :: e in events <==> IsTransition(prev, curr, e)
  {
    events := [];
    var left := curr.Keys;
    while left != {}
      invariant left <= curr.Keys && NoRepeats(events)
      invariant forall e :: e in events <==> e.pool !in left && IsTransition(prev, curr, e)
      decreases left
    {
      var name :| name in left;
      assert forall e | e in events :: e.pool != name;
      left := left - {name};
      if name !in prev {
        continue;
      }
      var found := DetectOne(name, prev[name], curr[name]);
      assert forall e | e in found :: e.pool == name;
      events := events + found;
    }
  }

  // ----- One frame, as a function -----

  /** The event to notify for a frame that is evaluated, if any. */
  function EventToTell(lastEventID: string, event: Option<Event>): Option<Event> {
    if event == None || event.value.id == "" || event.value.id == lastEventID then None else event
  }

  /** The id remembered after an evaluated frame. */
  function Remembered(lastEventID: string, event: Option<Event>): string {
    match EventToTell(lastEventID, event)
    case None => lastEventID
    case Some(e) => e.id
  }

  /** An absent severity is notified as info. */
  function Worded(e: Event): Event {
    if e.severity == "" then e.(severity := "info") else e
  }

  /** The state after a frame; `connected` says whether an upstream client is set. */
  function Next(s: AgentState, p: Payload, connected: bool): AgentState {
    var cached := s.(
      cache := Some(p), prevIOStat := if s.cache.Some? && s.cache.value.iostat.Some? then s.cache.value.iostat else s.prevIOStat);
    if !connected || p.view == None then cached
    else
      cached.(lastPools := Some(p.view.value.pools), lastEventID := Remembered(s.lastEventID, p.view.value.event))
  }

  function AsNotices(events: seq<PoolEvent>): (notices: seq<Notice>)
    ensures forall e :: PoolNotice(e) in notices <==> e in events
    ensures forall n | n in notices :: n.PoolNotice?
    ensures NoRepeats(events) ==> NoRepeats(notices)
  {
    var notices := seq(|events|, i requires 0 <= i < |events| => PoolNotice(events[i]));
    assert forall e | e in events :: PoolNotice(e) in notices by {
      forall e | e in events
        ensures PoolNotice(e) in notices
      {
        var i :| 0 <= i < |events| && events[i] == e;
        assert notices[i] == PoolNotice(e);
      }
    }
    notices
  }

  /** The notices a frame gives rise to. */
  predicate Tells(s: AgentState, p: Payload, connected: bool, n: Notice) {
    && connected && p.view.Some?
    && match n
       case PoolNotice(e) => s.lastPools.Some? && IsTransition(s.lastPools.value, p.view.value.pools, e)
       case AgentNotice(e) =>
         var told := EventToTell(s.lastEventID, p.view.value.event);
         told.Some? && e == Worded(told.value)
  }

  // ----- The aggregator -----

  class Aggregator {
    var cache: map<string, Payload>
    var prevIOStat: map<string, Field>
    var lastPoolStates: map<string, map<string, Tracked>>
    var lastEventIDs: map<string, string>
    var connected: bool

    constructor ()
      ensures (forall id :: Agent(id) == UNSEEN) && !connected
    {
      cache, prevIOStat, lastPoolStates, lastEventIDs := map[], map[], map[], map[];
      connected := false;
    }

    ghost function Agent(id: string): AgentState
      reads this
    {
      AgentState(Lookup(cache, id), Lookup(prevIOStat, id), Lookup(lastPoolStates, id),
                 if id in lastEventIDs then lastEventIDs[id] else "")
    }

    method SetTelemetryClient()
      modifies `connected
      ensures connected
    {
      connected := true;
    }

    /** Ingest: the frame advances its own agent's state by one step, leaves every other agent alone,
      * and the notices are the pool transitions against the last evaluated frame and the event. */
    method Ingest(agentID: string, p: Payload) returns (notices: seq<Notice>)
      modifies `cache, `prevIOStat, `lastPoolStates, `lastEventIDs
      ensures Agent(agentID) == Next(old(Agent(agentID)), p, connected)
      ensures forall id | id != agentID :: Agent(id) == old(Agent(id))
      ensures forall n :: n in notices <==> Tells(old(Agent(agentID)), p, connected, n)
      ensures NoRepeats(notices)
    {
      if agentID in cache && cache[agentID].iostat.Some? {
        prevIOStat := prevIOStat[agentID := cache[agentID].iostat.value];
      }
      cache := cache[agentID := p];
      notices := Evaluate(agentID, p);
    }

    method Evaluate(agentID: string, p: Payload) returns (notices: seq<Notice>)
      modifies `lastPoolStates, `lastEventIDs
      ensures
        var s, t, seen := old(Agent(agentID)), Agent(agentID), connected && p.view.Some?;
        && t.lastEventID == (if seen then Remembered(s.lastEventID, p.view.value.event) else s.lastEventID)
        && t.lastPools == (if seen then Some(p.view.value.pools) else s.lastPools)
      ensures forall id | id != agentID :: Agent(id) == old(Agent(id))
      ensures forall n :: n in notices <==> Tells(old(Agent(agentID)), p, connected, n)
      ensures NoRepeats(notices)
    {
      notices := [];
      if !connected || p.view == None {
        return;
      }
      var curr := p.view.value.pools;
      var prev := Lookup(lastPoolStates, agentID);
      lastPoolStates := lastPoolStates[agentID := curr];
      if prev.Some? {
        var events := DetectPoolTransitions(prev.value, curr);
        notices := AsNotices(events);
      }
      var event := p.view.value.event;
      if event == None || event.value.id == "" {
        return;
      }
      if (if agentID in lastEventIDs then lastEventIDs[agentID] else "") == event.value.id {
        return;
      }
      lastEventIDs := lastEventIDs[agentID := event.value.id];
      notices := notices + [AgentNotice(Worded(event.value))];
    }

    method PreviousIOStat(agentID: string) returns (sample: Option<Field>)
      ensures sample == Agent(agentID).prevIOStat
    {
      sample := Lookup(prevIOStat, agentID);
    }

    /** handleIOStatRows: the latest sample rated against the previous one. */
    method IOStatRows(agentID: string) returns (rows: seq<RateRow>)
      ensures rows == RowsShown(Agent(agentID))
    {
      if agentID !in cache || cache[agentID].iostat == None {
        return [];
      }
      if cache[agentID].iostat.value == Unreadable {
        return [];
      }
      var prev := PreviousIOStat(agentID);
      var prevSamples := if prev.Some? && prev.value.Samples? then prev.value.samples else [];
      rows := BuildIOStatRows(cache[agentID].iostat.value.samples, prevSamples);
    }
  }

  /** The samples that can be read from a field, if any. */
  function SamplesOf(f: Option<Field>): seq<Sample> {
    if f.Some? && f.value.Samples? then f.value.samples else []
  }

  function RowsShown(s: AgentState): seq<RateRow> {
    if s.cache == None then [] else RateTable(SamplesOf(s.cache.value.iostat), SamplesOf(s.prevIOStat))
  }

  // ----- Whole runs -----

  /** One ingested frame: who sent it, what it says, and whether the client was set. */
  datatype Frame = Frame(agentID: string, payload: Payload, connected: bool)

  /** The state of one agent after a run in which all agents' frames interleave. */
  function After(run: seq<Frame>, agentID: string): AgentState {
    if run == [] then UNSEEN
    else
      var s, f := After(run[..|run| - 1], agentID), run[|run| - 1];
      if f.agentID == agentID then Next(s, f.payload, f.connected) else s
  }

  /** The payloads of one agent, in order. */
  function Sent(run: seq<Frame>, agentID: string): seq<Payload> {
    if run == [] then []
    else
      Sent(run[..|run| - 1], agentID)
      + if run[|run| - 1].agentID == agentID then [run[|run| - 1].payload] else []
  }

  /** The iostat field of the latest payload that carries one. */
  function LatestIOStat(payloads: seq<Payload>): Option<Field> {
    if payloads == [] then None
    else if payloads[|payloads| - 1].iostat.Some? then payloads[|payloads| - 1].iostat
    else LatestIOStat(payloads[..|payloads| - 1])
  }

  /** Everything before the cached payload. */
  function BeforeLast(payloads: seq<Payload>): seq<Payload> {
    if payloads == [] then [] else payloads[..|payloads| - 1]
  }

  /** After any run the cache holds the agent's last payload, and PreviousIOStat is the iostat of the
    * latest payload strictly before it that carried one. */
  lemma {:induction false} PreviousIOStatIs(run: seq<Frame>, agentID: string)
    ensures
      var s, sent := After(run, agentID), Sent(run, agentID);
      && s.cache == (if sent == [] then None else Some(sent[|sent| - 1]))
      && s.prevIOStat == LatestIOStat(BeforeLast(sent))
  {
    if run != [] {
      var init, f := run[..|run| - 1], run[|run| - 1];
      PreviousIOStatIs(init, agentID);
      var sent := Sent(init, agentID);
      if f.agentID == agentID {
        assert (sent + [f.payload])[..|sent|] == sent;
      } else {
        assert sent + [] == sent;
      }
    }
  }

  /** The doc comment promises the sample of the immediately preceding frame; when that frame carried
    * none, an older one is kept. The two agree exactly when the preceding frame carried a sample or no
    * earlier frame did. */
  lemma {:induction false} PrecedingFrameIff(run: seq<Frame>, agentID: string)
    requires |Sent(run, agentID)| >= 2
    ensures
      var sent := Sent(run, agentID);
      var preceding := sent[|sent| - 2];
      After(run, agentID).prevIOStat == preceding.iostat
      <==> preceding.iostat.Some? || LatestIOStat(sent[..|sent| - 2]) == None
  {
    PreviousIOStatIs(run, agentID);
    var sent := Sent(run, agentID);
    assert BeforeLast(sent)[..|sent| - 2] == sent[..|sent| - 2];
  }

  /** The I/O page shows exactly the rows of the agent's last payload, none if its field is missing or cannot
    * be read; they are rated against the latest earlier payload that carried a sample. */
  lemma {:induction false} ShownRowsConserve(run: seq<Frame>, agentID: string)
    requires Sent(run, agentID) != []
    ensures
      var sent := Sent(run, agentID);
      && RowsShown(After(run, agentID))
         == RateTable(SamplesOf(sent[|sent| - 1].iostat), SamplesOf(LatestIOStat(sent[..|sent| - 1])))
      && AllTotals(RowsShown(After(run, agentID))) == Flatten(PoolsOf(SamplesOf(sent[|sent| - 1].iostat)))
  {
    PreviousIOStatIs(run, agentID);
    hide After, Sent, LatestIOStat, RateTable, PoolsOf, Flatten, SamplesOf;
    var sent, s := Sent(run, agentID), After(run, agentID);
    TableConserves(SamplesOf(sent[|sent| - 1].iostat), SamplesOf(s.prevIOStat));
  }

  // ----- The aggregator ingests a run -----

  /** The client is never taken away again. */
  predicate ClientStays(run: seq<Frame>) {
    forall i, k | 0 <= i < k < |run| && run[i].connected :: run[k].connected
  }

  ghost predicate Holds(hub: Aggregator, run: seq<Frame>)
    reads hub
  {
    forall id :: hub.Agent(id) == After(run, id)
  }

  lemma {:induction false} AfterStep(run: seq<Frame>, agentID: string)
    requires run != []
    ensures
      var s, f := After(run[..|run| - 1], agentID), run[|run| - 1];
      After(run, agentID) == if f.agentID == agentID then Next(s, f.payload, f.connected) else s
  {
    hide Next;
  }

  /** Ingesting all frames in order, from a fresh aggregator, leaves the state of the run functions. */
  method IngestAll(run: seq<Frame>) returns (hub: Aggregator)
    requires ClientStays(run)
    ensures fresh(hub) && Holds(hub, run)
  {
    hide Next, Tells;
    hub := new Aggregator();
    assert run[..0] == [];
    for i := 0 to |run|
      invariant fresh(hub) && Holds(hub, run[..i])
      invariant hub.connected ==> i > 0 && run[i - 1].connected
    {
      assert run[..i + 1][..i] == run[..i];
      if run[i].connected && !hub.connected {
        hub.SetTelemetryClient();
      }
      var _ := hub.Ingest(run[i].agentID, run[i].payload);
      forall id
        ensures hub.Agent(id) == After(run[..i + 1], id)
      {
        AfterStep(run[..i + 1], id);
      }
    }
    assert run[..|run|] == run;
  }
}
