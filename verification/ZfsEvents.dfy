/** One-off events from agent to hub over a channel that may drop or repeat frames.
  *
  * The agent keeps its last event in every frame it builds; the hub notifies an event unless its id is
  * the one it notified last. */
module ZfsEvents {
  import opened Common
  import opened ZfsHub

  /** The sending side. */
  class Collector {
    var lastEvent: Option<Event>
    var flushPending: bool

    /** Every event emitted so far. */
    ghost var emitted: seq<Event>

    ghost predicate Valid()
      reads this
    {
      lastEvent == Carried(emitted, |emitted|)
    }

    constructor ()
      ensures Valid() && emitted == [] && !flushPending
    {
      lastEvent, flushPending, emitted := None, false, [];
    }

    /** The channel holds one pending signal; a second request is absorbed. */
    method RequestFlush()
      modifies `flushPending
      ensures flushPending
    {
      if !flushPending {
        flushPending := true;
      }
    }

    method EmitEvent(e: Event)
      requires Valid()
      modifies this
      ensures Valid() && emitted == old(emitted) + [e] && flushPending
    {
      lastEvent, emitted := Some(e), emitted + [e];
      RequestFlush();
    }

    method Build() returns (event: Option<Event>)
      requires Valid()
      ensures event == Carried(emitted, |emitted|)
    {
      event := lastEvent;
    }

    /** The forwarder on a flush: the signal is consumed before the frame is built, so what is emitted
      * later is flushed again. */
    method Forward() returns (frame: Option<Option<Event>>)
      requires Valid()
      modifies `flushPending
      ensures Valid() && !flushPending
      ensures frame == if old(flushPending) then Some(Carried(emitted, |emitted|)) else None
    {
      if !flushPending {
        return None;
      }
      flushPending := false;
      var event := Build();
      return Some(event);
    }
  }

  /** The event in a frame built after the first `n` emissions. */
  function Carried(emitted: seq<Event>, n: nat): Option<Event>
    requires n <= |emitted|
  {
    if n == 0 then None else Some(emitted[n - 1])
  }

  /** One step of agent, channel or hub. `Deliver(i, _)` hands the hub the i-th frame built; the flag
    * says whether the upstream client was set. */
  datatype Act = Emit(event: Event) | Build | Deliver(frame: nat, connected: bool)

  /** `built[i]` counts the emissions before frame `i`; `told` lists the emissions notified, by index;
    * `seen` holds the emission counts of the frames evaluated. */
  datatype State = State(
    emitted: seq<Event>, built: seq<nat>, nextFrame: nat, lastEventID: string, told: seq<nat>, seen: seq<nat>)

  const START := State([], [], 0, "", [], [])

  /** Frames may be dropped or repeated, never reordered. */
  predicate Enabled(s: State, a: Act) {
    a.Deliver? ==> s.nextFrame <= a.frame < |s.built| && s.built[a.frame] <= |s.emitted|
  }

  function Step(s: State, a: Act): State
    requires Enabled(s, a)
  {
    match a
    case Emit(e) => s.(emitted := s.emitted + [e])
    case Build => s.(built := s.built + [|s.emitted|])
    case Deliver(i, connected) =>
      if !connected then s.(nextFrame := i)
      else
        var k := s.built[i];
        var event := Carried(s.emitted, k);
        s.(nextFrame := i, seen := s.seen + [k], lastEventID := Remembered(s.lastEventID, event),
           told := if EventToTell(s.lastEventID, event).Some? then s.told + [k - 1] else s.told)
  }

  predicate Takes(r: State, a: Act, s: State) {
    Enabled(r, a) && s == Step(r, a)
  }

  ghost predicate Reaches(acts: seq<Act>, s: State) {
    if acts == [] then s == START
    else
      var before, a := acts[..|acts| - 1], acts[|acts| - 1];
      exists r :: Reaches(before, r) && Takes(r, a, s)
  }

  // ----- Invariants -----

  /** Frames carry growing emission counts. */
  predicate Growing(s: State) {
    && (forall i | 0 <= i < |s.built| :: s.built[i] <= |s.emitted|)
    && (forall i, j | 0 <= i < j < |s.built| :: s.built[i] <= s.built[j])
  }

  /** The frames evaluated so far carry no more emissions than the next one to come. */
  predicate InOrder(s: State) {
    && (s.seen != [] ==> s.nextFrame < |s.built|)
    && forall k | k in s.seen :: k <= s.built[s.nextFrame]
  }

  predicate Seen(s: State, k: nat) {
    k in s.seen
  }

  /** Emission `n` has an id and a frame carrying it reached the hub while the client was set. */
  predicate Evaluated(s: State, n: nat) {
    n < |s.emitted| && Seen(s, n + 1) && s.emitted[n].id != ""
  }

  predicate ToldRange(s: State) {
    && (forall i | 0 <= i < |s.told| :: Evaluated(s, s.told[i]))
    && (forall i, j | 0 <= i < j < |s.told| :: s.told[i] < s.told[j])
  }

  /** The hub remembers the id of the emission it told last, and no two successive ones share an id. */
  predicate RemembersLast(s: State) {
    && ToldRange(s)
    && s.lastEventID == (if s.told == [] then "" else s.emitted[s.told[|s.told| - 1]].id)
    && forall i | 0 <= i < |s.told| - 1 :: s.emitted[s.told[i]].id != s.emitted[s.told[i + 1]].id
  }

  /** Emission `m` was told, and every emission evaluated from `m` to `n` has its id. */
  ghost predicate Shadows(s: State, m: nat, n: nat) {
    && m in s.told && m < n && Evaluated(s, m)
    && forall e: nat | Evaluated(s, e) && m <= e <= n :: s.emitted[e].id == s.emitted[m].id
  }

  /** Whatever is evaluated and not told is shadowed by something told. */
  ghost predicate Suppressed(s: State) {
    forall n: nat | Evaluated(s, n) && n !in s.told :: exists m :: Shadows(s, m, n)
  }

  ghost predicate Inv(s: State) {
    Growing(s) && InOrder(s) && RemembersLast(s) && Suppressed(s)
  }

  lemma {:induction false} SeenInRange(s: State, k: nat)
    requires Growing(s) && InOrder(s) && Seen(s, k)
    ensures k <= s.built[s.nextFrame] <= |s.emitted|
  {
  }

  lemma {:induction false} NothingSeenBeyond(s: State)
    requires Growing(s) && InOrder(s)
    ensures forall k | k in s.seen :: k <= |s.emitted|
  {
    if s.seen != [] {
      SeenInRange(s, s.seen[0]);
    }
  }

  /** Steps that leave the evaluated and the told emissions alone keep the shadows. */
  lemma {:induction false} SameShadows(s: State, t: State)
    requires Suppressed(s) && t.told == s.told && forall n: nat :: Evaluated(t, n) == Evaluated(s, n)
    requires forall n: nat | n < |s.emitted| :: n < |t.emitted| && t.emitted[n] == s.emitted[n]
    ensures Suppressed(t)
  {
    forall n: nat | Evaluated(t, n) && n !in t.told
      ensures exists m :: Shadows(t, m, n)
    {
      assert Evaluated(s, n);
      var m :| Shadows(s, m, n);
      assert Shadows(t, m, n);
    }
  }

  lemma {:induction false} EmitKeeps(s: State, e: Event)
    requires Inv(s)
    ensures Inv(Step(s, Emit(e)))
  {
    var t := Step(s, Emit(e));
    assert forall n | 0 <= n < |s.emitted| :: t.emitted[n] == s.emitted[n];
    NothingSeenBeyond(s);
    assert forall n: nat :: Seen(t, n) == Seen(s, n);
    assert forall n: nat :: Evaluated(t, n) == Evaluated(s, n);
    SameShadows(s, t);
  }

  lemma {:induction false} BuildKeeps(s: State)
    requires Inv(s)
    ensures Inv(Step(s, Build))
  {
    var t := Step(s, Build);
    assert forall n: nat :: Seen(t, n) == Seen(s, n);
    assert forall n: nat :: Evaluated(t, n) == Evaluated(s, n);
    SameShadows(s, t);
  }

  lemma {:induction false} SkipKeeps(s: State, i: nat)
    requires Inv(s) && Enabled(s, Deliver(i, false))
    ensures Inv(Step(s, Deliver(i, false)))
  {
    var t := Step(s, Deliver(i, false));
    assert s.seen != [] ==> s.built[s.nextFrame] <= s.built[i];
    assert forall n: nat :: Seen(t, n) == Seen(s, n);
    assert forall n: nat :: Evaluated(t, n) == Evaluated(s, n);
    SameShadows(s, t);
  }

  /** Everything told so far comes before the next frame's emission, or is it. */
  lemma {:induction false} ToldBefore(s: State, i: nat)
    requires Inv(s) && Enabled(s, Deliver(i, true))
    ensures forall n | n in s.told :: n < s.built[i]
    ensures forall n: nat | Evaluated(s, n) :: n < s.built[i]
  {
    forall n: nat | Evaluated(s, n)
      ensures n < s.built[i]
    {
      SeenInRange(s, n + 1);
    }
  }

  /** Everything evaluated after the emission told last has its id. */
  lemma {:induction false} SinceLastTold(s: State, e: nat)
    requires RemembersLast(s) && Suppressed(s) && s.told != [] && Evaluated(s, e) && s.told[|s.told| - 1] <= e
    ensures s.emitted[e].id == s.lastEventID
  {
    var last := s.told[|s.told| - 1];
    if last < e {
      assert e !in s.told;
      var m: nat :| Shadows(s, m, e);
      assert Evaluated(s, last) && m <= last;
    }
  }

  /** What an evaluated frame changes: one more count seen, and its emission told unless it has no id
    * or that of the emission told last. */
  predicate IsNew(s: State, k: nat)
    requires k <= |s.emitted|
  {
    k > 0 && s.emitted[k - 1].id != "" && s.emitted[k - 1].id != s.lastEventID
  }

  lemma {:induction false} DeliverShape(s: State, i: nat)
    requires Enabled(s, Deliver(i, true))
    ensures
      var k := s.built[i];
      Step(s, Deliver(i, true))
      == s.(nextFrame := i, seen := s.seen + [k], told := if IsNew(s, k) then s.told + [k - 1] else s.told,
            lastEventID := if IsNew(s, k) then s.emitted[k - 1].id else s.lastEventID)
  {
  }

  lemma {:induction false} DeliverRange(s: State, i: nat)
    requires Inv(s) && Enabled(s, Deliver(i, true))
    ensures ToldRange(Step(s, Deliver(i, true)))
  {
    hide Suppressed, Shadows, Carried, EventToTell, Remembered;
    var t, k := Step(s, Deliver(i, true)), s.built[i];
    DeliverShape(s, i);
    ToldBefore(s, i);
    hide Step, Enabled, Growing, InOrder;
    assert forall n: nat | Evaluated(s, n) :: Seen(t, n + 1) && Evaluated(t, n);
    if IsNew(s, k) {
      assert Seen(t, k) && Evaluated(t, k - 1);
      assert forall m | 0 <= m < |s.told| :: s.told[m] in s.told && s.told[m] < k;
    }
  }

  lemma {:induction false} DeliverRemembers(s: State, i: nat)
    requires Inv(s) && Enabled(s, Deliver(i, true))
    ensures RemembersLast(Step(s, Deliver(i, true)))
  {
    hide ToldRange, Suppressed, Shadows, Carried, EventToTell, Remembered, Growing, InOrder, Evaluated;
    DeliverRange(s, i);
    DeliverShape(s, i);
    hide Step;
    assert ToldRange(s) && s.told != [] ==> s.told[|s.told| - 1] < |s.emitted| by {
      ToldInRange(s);
    }
  }

  lemma {:induction false} ToldInRange(s: State)
    ensures ToldRange(s) ==> forall i | 0 <= i < |s.told| :: s.told[i] < |s.emitted|
  {
  }

  lemma {:induction false} OldShadow(s: State, t: State, k: nat, m: nat, n: nat)
    requires Shadows(s, m, n) && t.emitted == s.emitted && n + 1 < k && forall x | x in s.told :: x in t.told
    requires forall e: nat :: Evaluated(t, e) ==> Evaluated(s, e) || e + 1 == k
    requires forall e: nat :: Evaluated(s, e) ==> Evaluated(t, e)
    ensures Shadows(t, m, n)
  {
  }

  lemma {:induction false} DeliverSuppressed(s: State, i: nat)
    requires Inv(s) && Enabled(s, Deliver(i, true))
    ensures Suppressed(Step(s, Deliver(i, true)))
  {
    var t, k := Step(s, Deliver(i, true)), s.built[i];
    DeliverShape(s, i);
    ToldBefore(s, i);
    hide Step, Enabled, Growing, InOrder, Shadows;
    assert forall e: nat :: Seen(t, e) <==> Seen(s, e) || e == k;
    forall n: nat | Evaluated(t, n) && n !in t.told
      ensures exists m :: Shadows(t, m, n)
    {
      if n + 1 == k {
        NewShadow(s, t, k);
      } else {
        assert Evaluated(s, n);
        var m :| Shadows(s, m, n);
        OldShadow(s, t, k, m, n);
      }
    }
  }

  lemma {:induction false} NewShadow(s: State, t: State, k: nat)
    requires RemembersLast(s) && Suppressed(s) && 0 < k <= |s.emitted| && t.emitted == s.emitted && s.emitted[k - 1].id != ""
    requires !IsNew(s, k) && t.told == s.told && k - 1 !in s.told && forall n | n in s.told :: n < k
    requires forall e: nat :: Seen(t, e) <==> Seen(s, e) || e == k
    ensures s.told != [] && Shadows(t, s.told[|s.told| - 1], k - 1)
  {
    var last := s.told[|s.told| - 1];
    assert last in s.told && Evaluated(s, last) && last < k - 1;
    forall e: nat | Evaluated(t, e) && last <= e <= k - 1
      ensures t.emitted[e].id == t.emitted[last].id
    {
      if e < k - 1 {
        SinceLastTold(s, e);
      }
    }
    assert Shadows(t, last, k - 1);
  }

  lemma {:induction false} DeliverKeeps(s: State, i: nat)
    requires Inv(s) && Enabled(s, Deliver(i, true))
    ensures Inv(Step(s, Deliver(i, true)))
  {
    DeliverRemembers(s, i);
    DeliverSuppressed(s, i);
    DeliverShape(s, i);
    hide Step, RemembersLast, Suppressed;
    assert s.seen != [] ==> s.built[s.nextFrame] <= s.built[i];
  }

  lemma {:induction false} StepKeeps(s: State, a: Act)
    requires Inv(s) && Enabled(s, a)
    ensures Inv(Step(s, a))
  {
    hide Inv, Step;
    match a
    case Emit(e) => EmitKeeps(s, e);
    case Build => BuildKeeps(s);
    case Deliver(i, connected) =>
      if connected {
        DeliverKeeps(s, i);
      } else {
        SkipKeeps(s, i);
      }
  }

  lemma {:induction false} RunKeeps(acts: seq<Act>, s: State)
    requires Reaches(acts, s)
    ensures Inv(s)
  {
    if acts != [] {
      var r, a :| Reaches(acts[..|acts| - 1], r) && a == acts[|acts| - 1] && Takes(r, a, s);
      hide Step, Inv, Enabled;
      RunKeeps(acts[..|acts| - 1], r);
      StepKeeps(r, a);
    }
  }

  // ----- Main results -----

  /** However frames are dropped or repeated, and even if ids are reused, the notified events are a
    * duplicate-free subsequence of the emitted ones, all with an id and carried by an evaluated frame. */
  lemma {:induction false} NotifiedIsSubsequence(acts: seq<Act>, s: State)
    requires Reaches(acts, s)
    ensures forall i, j | 0 <= i < j < |s.told| :: s.told[i] < s.told[j]
    ensures forall n | n in s.told :: Evaluated(s, n)
  {
    RunKeeps(acts, s);
  }

  /** Two emissions that the hub evaluates one right after the other share an id. */
  ghost predicate Clash(s: State, m: nat, n: nat) {
    && m < n && Evaluated(s, m) && Evaluated(s, n) && s.emitted[m].id == s.emitted[n].id
    && forall e: nat | m < e < n :: !Evaluated(s, e)
  }

  /** The last emission evaluated before `n`. */
  lemma {:induction false} Predecessor(s: State, m: nat, n: nat) returns (p: nat)
    requires m < n && Evaluated(s, m)
    ensures m <= p < n && Evaluated(s, p) && forall e: nat | p < e < n :: !Evaluated(s, e)
    decreases n
  {
    if m == n - 1 || Evaluated(s, n - 1) {
      p := n - 1;
    } else {
      p := Predecessor(s, m, n - 1);
    }
  }

  /** Two told emissions with nothing evaluated in between have different ids. */
  lemma {:induction false} NeighboursDiffer(s: State, m: nat, n: nat)
    requires RemembersLast(s) && m < n && forall e: nat | m < e < n :: !Evaluated(s, e)
    ensures m in s.told && n in s.told ==> s.emitted[m].id != s.emitted[n].id
  {
    if m in s.told && n in s.told {
      var i :| 0 <= i < |s.told| && s.told[i] == m;
      var j :| 0 <= j < |s.told| && s.told[j] == n;
      assert i < j && Evaluated(s, s.told[i + 1]);
      assert j == i + 1;
    }
  }

  /** Something evaluated and not told clashes with what was evaluated just before it. */
  lemma {:induction false} UntoldClashes(s: State, n: nat) returns (p: nat)
    requires Suppressed(s) && Evaluated(s, n) && n !in s.told
    ensures Clash(s, p, n)
  {
    var m: nat :| Shadows(s, m, n);
    p := Predecessor(s, m, n);
  }

  /** Every event with an id that some evaluated frame carried is notified, exactly once each, if and only
    * if no two events that the hub evaluates one right after the other share an id. */
  lemma {:induction false} AllNotifiedIff(acts: seq<Act>, s: State)
    requires Reaches(acts, s)
    ensures (forall n: nat :: n in s.told <==> Evaluated(s, n)) <==> forall m: nat, n: nat :: !Clash(s, m, n)
  {
    RunKeeps(acts, s);
    if n: nat :| Evaluated(s, n) && n !in s.told {
      var p := UntoldClashes(s, n);
    } else {
      forall m: nat, n: nat
        ensures !Clash(s, m, n)
      {
        if m < n && forall e: nat | m < e < n :: !Evaluated(s, e) {
          NeighboursDiffer(s, m, n);
        }
      }
    }
  }

  /** No id is used for two events. */
  predicate UniqueIDs(emitted: seq<Event>) {
    forall i, j | 0 <= i < j < |emitted| && emitted[i].id != "" :: emitted[i].id != emitted[j].id
  }

  /** With unique ids an event is notified exactly when it has an id and some frame carrying it reached the
    * hub while the client was set. */
  lemma {:induction false} UniqueIDsSuffice(acts: seq<Act>, s: State, n: nat)
    requires Reaches(acts, s) && UniqueIDs(s.emitted)
    ensures n in s.told <==> Evaluated(s, n)
  {
    forall m: nat, k: nat
      ensures !Clash(s, m, k)
    {
    }
    hide Evaluated;
    AllNotifiedIff(acts, s);
  }

  /** A second event under the id of the first is never notified. */
  lemma {:induction false} ReusedIdIsLost(a: Event, b: Event)
    requires a.id == b.id && a.id != ""
    ensures EventToTell("", Some(a)) == Some(a) && EventToTell(Remembered("", Some(a)), Some(b)) == None
  {
  }

  /** Without the order assumption the same event is notified twice: a frame delayed past a newer one
    * makes the hub forget what it told. */
  lemma {:induction false} ReorderingRepeats(a: Event, b: Event)
    requires a.id != b.id && a.id != "" && b.id != ""
    ensures
      var first := Remembered("", Some(a));
      var second := Remembered(first, Some(b));
      && EventToTell("", Some(a)) == Some(a) && EventToTell(first, Some(b)) == Some(b)
      && EventToTell(second, Some(a)) == Some(a)
  {
  }
}
