/** Replication over any history: which arrival the next run starts from. */
module ReplicationRuns {
  import opened Common
  import opened Replication

  /** Source and destination snapshots, oldest first, the snapshot of the last run that reported
    * success, and the last snapshot whose receive completed, whatever its run reported. */
  datatype World = World(src: seq<Snap>, dst: seq<Snap>, last: Option<Snap>, arrived: Option<Snap>)

  datatype Act =
    | Replicate(newSnap: Snap, outcome: Outcome)
    | ExtraSnapshot(snap: Snap)
    | CleanSource(cutoff: int, failed: set<nat>)
    | CleanDest(cutoff: int, failed: set<nat>)

  /** The name is new: on neither side, and not that of the runs recorded. */
  predicate FreshName(w: World, s: Snap) {
    && !HasName(w.src, s.name) && !HasName(w.dst, s.name)
    && w.last != Some(s) && w.arrived != Some(s)
  }

  predicate Enabled(w: World, a: Act) {
    match a
    case Replicate(s, o) => FreshName(w, s) && Allowed(w.src, w.dst, s, o)
    case ExtraSnapshot(s) => FreshName(w, s)
    case CleanSource(_, _) => true
    case CleanDest(_, _) => true
  }

  function Step(w: World, a: Act): World {
    match a
    case Replicate(s, o) =>
      if !o.created then w
      else World(w.src + [s], o.after, if o.ok then Some(s) else w.last, if o.arrived then Some(s) else w.arrived)
    case ExtraSnapshot(s) => w.(src := w.src + [s])
    case CleanSource(cutoff, failed) => w.(src := Survivors(w.src, cutoff, failed))
    case CleanDest(cutoff, failed) => w.(dst := Survivors(w.dst, cutoff, failed))
  }

  /** Any snapshots on either side, each name once, before the first run is recorded. */
  predicate IsStart(w: World) {
    w.last == None && w.arrived == None && Distinct(w.src) && Distinct(w.dst)
  }

  /** The acts can be taken one after the other, from `w`. */
  predicate Possible(w: World, acts: seq<Act>) {
    acts == []
    || (Possible(w, acts[..|acts| - 1]) && Enabled(After(w, acts[..|acts| - 1]), acts[|acts| - 1]))
  }

  function After(w: World, acts: seq<Act>): World {
    if acts == [] then w else Step(After(w, acts[..|acts| - 1]), acts[|acts| - 1])
  }

  // ----- What is left of the arrivals -----

  /** The act takes the snapshot away from one of the two sides. */
  predicate Removes(a: Act, s: Snap) {
    match a
    case Replicate(_, o) => o.created && s !in o.after
    case ExtraSnapshot(_) => false
    case CleanSource(cutoff, failed) => Expired(s, cutoff) && s.name !in failed
    case CleanDest(cutoff, failed) => Expired(s, cutoff) && s.name !in failed
  }

  function Unremoved(snaps: seq<Snap>, a: Act): seq<Snap> {
    if snaps == [] then []
    else
      var s := snaps[|snaps| - 1];
      Unremoved(snaps[..|snaps| - 1], a) + if Removes(a, s) then [] else [s]
  }

  predicate Arrives(a: Act) {
    a.Replicate? && a.outcome.created && a.outcome.arrived
  }

  /** The act on the arrivals kept so far. */
  function Keep(kept: seq<Snap>, a: Act): seq<Snap> {
    Unremoved(kept, a) + if Arrives(a) then [a.newSnap] else []
  }

  /** The snapshots that have arrived and that no later act took away from either side, oldest first. */
  function Kept(acts: seq<Act>): seq<Snap> {
    if acts == [] then [] else Keep(Kept(acts[..|acts| - 1]), acts[|acts| - 1])
  }

  function LastOf(snaps: seq<Snap>): Option<Snap> {
    if snaps == [] then None else Some(snaps[|snaps| - 1])
  }

  // ----- The source, cut at the start of the history -----

  /** What cleanups left of the snapshots that were there before the history. */
  function OldAtSource(start: World, acts: seq<Act>): seq<Snap> {
    if acts == [] then start.src
    else
      var before, a := OldAtSource(start, acts[..|acts| - 1]), acts[|acts| - 1];
      if a.CleanSource? then Survivors(before, a.cutoff, a.failed) else before
  }

  /** The act on the snapshots made during the history. */
  function Made(made: seq<Snap>, a: Act): seq<Snap> {
    match a
    case Replicate(s, o) => if o.created then made + [s] else made
    case ExtraSnapshot(s) => made + [s]
    case CleanSource(cutoff, failed) => Survivors(made, cutoff, failed)
    case CleanDest(_, _) => made
  }

  /** What cleanups left of the snapshots made during the history. */
  function NewAtSource(acts: seq<Act>): seq<Snap> {
    if acts == [] then [] else Made(NewAtSource(acts[..|acts| - 1]), acts[|acts| - 1])
  }

  lemma {:induction false} SurvivorsConcat(a: seq<Snap>, b: seq<Snap>, cutoff: int, failed: set<nat>)
    ensures Survivors(a + b, cutoff, failed) == Survivors(a, cutoff, failed) + Survivors(b, cutoff, failed)
    decreases |b|
  {
    hide Expired;
    if b == [] {
      assert a + b == a;
    } else {
      SurvivorsConcat(a, b[..|b| - 1], cutoff, failed);
      assert (a + b)[..|a + b| - 1] == a + b[..|b| - 1];
    }
  }

  lemma {:induction false} SourceIsCut(start: World, acts: seq<Act>)
    ensures After(start, acts).src == OldAtSource(start, acts) + NewAtSource(acts)
  {
    if acts == [] {
      assert start.src + [] == start.src;
    } else {
      var init, a := acts[..|acts| - 1], acts[|acts| - 1];
      SourceIsCut(start, init);
      hide Survivors;
      var before, made := OldAtSource(start, init), NewAtSource(init);
      if a.CleanSource? {
        SurvivorsConcat(before, made, a.cutoff, a.failed);
      } else if a.Replicate? {
        assert before + made + [a.newSnap] == before + (made + [a.newSnap]);
      } else if a.ExtraSnapshot? {
        assert before + made + [a.snap] == before + (made + [a.snap]);
      }
    }
  }

  // ----- The arrivals kept are the common snapshots made during the history -----

  function Shared(made: seq<Snap>, dst: seq<Snap>): seq<Snap> {
    if made == [] then []
    else
      var s := made[|made| - 1];
      Shared(made[..|made| - 1], dst) + if HasName(dst, s.name) then [s] else []
  }

  lemma {:induction false} HasNameIn(snaps: seq<Snap>, s: Snap)
    requires s in snaps
    ensures HasName(snaps, s.name)
  {
    var i :| 0 <= i < |snaps| && snaps[i] == s;
    assert snaps[i].name == s.name;
  }

  /** A name at the destination that the history made belongs to that very snapshot. */
  predicate SameSnaps(made: seq<Snap>, dst: seq<Snap>) {
    forall s, t | s in made && t in dst && s.name == t.name :: s == t
  }

  lemma {:induction false} SharedSnoc(made: seq<Snap>, s: Snap, dst: seq<Snap>)
    ensures Shared(made + [s], dst) == Shared(made, dst) + if HasName(dst, s.name) then [s] else []
  {
    hide HasName;
    assert (made + [s])[..|made|] == made;
  }

  lemma {:induction false} SharedWithin(made: seq<Snap>, dst: seq<Snap>, s: Snap)
    ensures s in Shared(made, dst) <==> s in made && HasName(dst, s.name)
  {
    if made != [] {
      hide HasName;
      SharedWithin(made[..|made| - 1], dst, s);
      assert made == made[..|made| - 1] + [made[|made| - 1]];
    }
  }

  lemma {:induction false} UnremovedAll(snaps: seq<Snap>, a: Act)
    requires forall s | s in snaps :: !Removes(a, s)
    ensures Unremoved(snaps, a) == snaps
  {
    if snaps != [] {
      hide Removes;
      assert snaps[|snaps| - 1] in snaps;
      UnremovedAll(snaps[..|snaps| - 1], a);
      assert snaps == snaps[..|snaps| - 1] + [snaps[|snaps| - 1]];
    }
  }

  /** The destination loses exactly what the act removes. */
  lemma {:induction false} SharedLosses(made: seq<Snap>, dst: seq<Snap>, after: seq<Snap>, a: Act)
    requires forall s | s in made :: HasName(after, s.name) <==> HasName(dst, s.name) && !Removes(a, s)
    ensures Shared(made, after) == Unremoved(Shared(made, dst), a)
  {
    hide HasName, Removes;
    if made != [] {
      var init, s := made[..|made| - 1], made[|made| - 1];
      assert s in made;
      SharedLosses(init, dst, after, a);
      if HasName(dst, s.name) {
        assert (Shared(init, dst) + [s])[..|Shared(init, dst)|] == Shared(init, dst);
      } else {
        assert Shared(init, dst) + [] == Shared(init, dst);
      }
    }
  }

  /** The source loses exactly what the cleanup removes. */
  lemma {:induction false} SharedCleaned(made: seq<Snap>, dst: seq<Snap>, cutoff: int, failed: set<nat>)
    ensures Shared(Survivors(made, cutoff, failed), dst) == Unremoved(Shared(made, dst), CleanSource(cutoff, failed))
  {
    if made != [] {
      hide HasName, Expired;
      var init, s := made[..|made| - 1], made[|made| - 1];
      SharedCleaned(init, dst, cutoff, failed);
      var left, common := Survivors(init, cutoff, failed), Shared(init, dst);
      SharedSnoc(left, s, dst);
      assert left + [] == left && common + [] == common;
      assert (common + [s])[..|common|] == common;
    }
  }

  lemma {:induction false} HasNameIff(snaps: seq<Snap>, made: seq<Snap>, s: Snap)
    requires SameSnaps(made, snaps) && s in made
    ensures HasName(snaps, s.name) <==> s in snaps
  {
    if HasName(snaps, s.name) {
      var i :| 0 <= i < |snaps| && snaps[i].name == s.name;
      assert snaps[i] in snaps;
    }
    if s in snaps {
      HasNameIn(snaps, s);
    }
  }

  lemma {:induction false} FreshAfter(w: World, s: Snap, o: Outcome)
    requires Enabled(w, Replicate(s, o)) && o.created
    ensures forall t | t in o.after && t.name == s.name :: t == s
    ensures HasName(o.after, s.name) <==> o.arrived
  {
    hide RunBase;
    forall t | t in o.after && t.name == s.name
      ensures t == s
    {
      if t in w.dst {
        HasNameIn(w.dst, t);
      }
    }
    if HasName(o.after, s.name) {
      var i :| 0 <= i < |o.after| && o.after[i].name == s.name;
      assert o.after[i] in o.after;
      if o.after[i] in w.dst {
        HasNameIn(w.dst, o.after[i]);
      }
    }
    if o.arrived {
      HasNameIn(o.after, s);
    }
  }

  lemma {:induction false} MadeKeepTheirNames(w: World, made: seq<Snap>, s: Snap, o: Outcome)
    requires Enabled(w, Replicate(s, o)) && o.created && SameSnaps(made, w.dst) && forall t | t in made :: t in w.src
    ensures SameSnaps(made, o.after)
    ensures forall t | t in made :: t in o.after ==> t in w.dst
  {
    hide RunBase;
    forall t | t in made
      ensures t.name != s.name
    {
      HasNameIn(w.src, t);
    }
  }

  lemma {:induction false} ReplicateShares(w: World, made: seq<Snap>, s: Snap, o: Outcome)
    requires Enabled(w, Replicate(s, o)) && o.created && SameSnaps(made, w.dst) && forall t | t in made :: t in w.src
    ensures SameSnaps(made + [s], o.after)
    ensures Shared(made + [s], o.after) == Keep(Shared(made, w.dst), Replicate(s, o))
  {
    FreshAfter(w, s, o);
    MadeKeepTheirNames(w, made, s, o);
    hide Enabled, HasName, Shared;
    forall t | t in made
      ensures HasName(o.after, t.name) <==> HasName(w.dst, t.name) && !Removes(Replicate(s, o), t)
    {
      HasNameIff(o.after, made, t);
      HasNameIff(w.dst, made, t);
    }
    SharedLosses(made, w.dst, o.after, Replicate(s, o));
    SharedSnoc(made, s, o.after);
  }

  lemma {:induction false} ExtraShares(w: World, made: seq<Snap>, s: Snap)
    requires FreshName(w, s) && SameSnaps(made, w.dst)
    ensures SameSnaps(made + [s], w.dst)
    ensures Shared(made + [s], w.dst) == Keep(Shared(made, w.dst), ExtraSnapshot(s))
  {
    forall t | t in w.dst
      ensures t.name != s.name
    {
      HasNameIn(w.dst, t);
    }
    hide HasName, Shared;
    SharedSnoc(made, s, w.dst);
    UnremovedAll(Shared(made, w.dst), ExtraSnapshot(s));
  }

  lemma {:induction false} CleanSourceShares(dst: seq<Snap>, made: seq<Snap>, cutoff: int, failed: set<nat>)
    requires SameSnaps(made, dst)
    ensures SameSnaps(Survivors(made, cutoff, failed), dst)
    ensures Shared(Survivors(made, cutoff, failed), dst) == Keep(Shared(made, dst), CleanSource(cutoff, failed))
  {
    SharedCleaned(made, dst, cutoff, failed);
    forall s
      ensures s in Survivors(made, cutoff, failed) ==> s in made
    {
      SurvivorsAreKept(made, cutoff, failed, s);
    }
    hide Survivors, Shared, Unremoved;
    var left := Unremoved(Shared(made, dst), CleanSource(cutoff, failed));
    assert left + [] == left;
  }

  lemma {:induction false} CleanDestShares(dst: seq<Snap>, made: seq<Snap>, cutoff: int, failed: set<nat>)
    requires SameSnaps(made, dst)
    ensures SameSnaps(made, Survivors(dst, cutoff, failed))
    ensures Shared(made, Survivors(dst, cutoff, failed)) == Keep(Shared(made, dst), CleanDest(cutoff, failed))
  {
    var after := Survivors(dst, cutoff, failed);
    forall s
      ensures s in after <==> s in dst && !Removes(CleanDest(cutoff, failed), s)
    {
      SurvivorsAreKept(dst, cutoff, failed, s);
    }
    hide Survivors, Shared, Unremoved, Removes, HasName;
    forall s | s in made
      ensures HasName(after, s.name) <==> HasName(dst, s.name) && !Removes(CleanDest(cutoff, failed), s)
    {
      HasNameIff(after, made, s);
      HasNameIff(dst, made, s);
    }
    SharedLosses(made, dst, after, CleanDest(cutoff, failed));
    var left := Unremoved(Shared(made, dst), CleanDest(cutoff, failed));
    assert left + [] == left;
  }

  /** One act does to the common snapshots what it does to the arrivals kept. */
  lemma {:induction false} StepShares(w: World, made: seq<Snap>, a: Act)
    requires Enabled(w, a) && SameSnaps(made, w.dst) && forall s | s in made :: s in w.src
    ensures SameSnaps(Made(made, a), Step(w, a).dst)
    ensures Shared(Made(made, a), Step(w, a).dst) == Keep(Shared(made, w.dst), a)
  {
    hide Shared, Survivors, SameSnaps, FreshName, Allowed, Keep;
    match a
    case Replicate(s, o) =>
      if o.created {
        ReplicateShares(w, made, s, o);
      } else {
        KeepsAll(Shared(made, w.dst), a);
      }
    case ExtraSnapshot(s) => ExtraShares(w, made, s);
    case CleanSource(cutoff, failed) => CleanSourceShares(w.dst, made, cutoff, failed);
    case CleanDest(cutoff, failed) => CleanDestShares(w.dst, made, cutoff, failed);
  }

  lemma {:induction false} KeepsAll(kept: seq<Snap>, a: Act)
    requires a.Replicate? && !a.outcome.created
    ensures Keep(kept, a) == kept
  {
    UnremovedAll(kept, a);
    hide Unremoved;
    assert kept + [] == kept;
  }

  /** Over any history, the snapshots made during it that both sides have are exactly the arrivals that no
    * later act took away from either side, in order. */
  lemma {:induction false} RunKeeps(start: World, acts: seq<Act>)
    requires IsStart(start) && Possible(start, acts)
    ensures SameSnaps(NewAtSource(acts), After(start, acts).dst)
    ensures Shared(NewAtSource(acts), After(start, acts).dst) == Kept(acts)
  {
    if acts != [] {
      var init, a := acts[..|acts| - 1], acts[|acts| - 1];
      RunKeeps(start, init);
      SourceIsCut(start, init);
      hide SameSnaps, Shared, Made, Keep, Step, Enabled;
      StepShares(After(start, init), NewAtSource(init), a);
    }
  }

  // ----- The next base -----

  predicate NoneAt(snaps: seq<Snap>, dst: seq<Snap>) {
    forall s | s in snaps :: !HasName(dst, s.name)
  }

  lemma {:induction false} NewestCommonNone(newer: seq<Snap>, dst: seq<Snap>)
    requires NoneAt(newer, dst)
    ensures NewestCommon(newer, dst) == None
  {
    if newer != [] {
      assert newer[|newer| - 1] in newer;
      NewestCommonNone(newer[..|newer| - 1], dst);
    }
  }

  lemma {:induction false} EmptyHasNone(snaps: seq<Snap>)
    ensures NoneAt(snaps, [])
  {
  }

  lemma {:induction false} NewestOfCut(before: seq<Snap>, made: seq<Snap>, dst: seq<Snap>)
    ensures NewestCommon(before + made, dst)
            == if Shared(made, dst) != [] then LastOf(Shared(made, dst)) else NewestCommon(before, dst)
    decreases |made|
  {
    hide HasName;
    if made == [] {
      assert before + made == before;
    } else {
      var init, all := made[..|made| - 1], before + made;
      NewestOfCut(before, init, dst);
      assert all[..|all| - 1] == before + init;
    }
  }

  lemma {:induction false} FreshIsNoBase(w: World, newSnap: Snap)
    requires FreshName(w, newSnap)
    ensures NewestCommon(w.src + [newSnap], w.dst) == NewestCommon(w.src, w.dst)
  {
    hide HasName;
    assert (w.src + [newSnap])[..|w.src|] == w.src;
  }

  /** The next run that lists both sides is incremental from the newest arrival that neither side has lost;
    * if none is left, from the newest common snapshot older than the history, or full. */
  lemma {:induction false} NextRunFromKept(start: World, acts: seq<Act>, newSnap: Snap, o: Outcome)
    requires IsStart(start) && Possible(start, acts) && o.srcListed && o.dstListed
    requires FreshName(After(start, acts), newSnap)
    ensures
      var w := After(start, acts);
      RunBase(w.src, w.dst, newSnap, o)
      == if Kept(acts) != [] then LastOf(Kept(acts)) else NewestCommon(OldAtSource(start, acts), w.dst)
  {
    RunKeeps(start, acts);
    SourceIsCut(start, acts);
    hide After, Shared, NewestCommon, FreshName, OldAtSource, NewAtSource, Kept;
    var w := After(start, acts);
    FreshIsNoBase(w, newSnap);
    NewestOfCut(OldAtSource(start, acts), NewAtSource(acts), w.dst);
  }

  // ----- The last arrival -----

  function LastArrival(acts: seq<Act>): Option<Snap> {
    if acts == [] then None
    else if Arrives(acts[|acts| - 1]) then Some(acts[|acts| - 1].newSnap)
    else LastArrival(acts[..|acts| - 1])
  }

  /** A cleanup destroys the snapshot: it was created before the cutoff and its destruction does not fail. */
  predicate Destroys(a: Act, s: Snap) {
    (a.CleanSource? || a.CleanDest?) && Removes(a, s)
  }

  /** A cleanup of either side has destroyed the snapshot that arrived last. */
  predicate Destroyed(acts: seq<Act>) {
    acts != []
    && var init, a := acts[..|acts| - 1], acts[|acts| - 1];
       !Arrives(a) && (Destroyed(init) || (LastArrival(init).Some? && Destroys(a, LastArrival(init).value)))
  }

  /** The runs recorded made their snapshots during the history. */
  lemma {:induction false} ArrivedIsNew(start: World, acts: seq<Act>)
    requires IsStart(start) && Possible(start, acts)
    ensures After(start, acts).arrived == LastArrival(acts)
    ensures
      var w := After(start, acts);
      forall s | s in OldAtSource(start, acts) :: w.arrived != Some(s) && w.last != Some(s)
  {
    if acts != [] {
      var init, a := acts[..|acts| - 1], acts[|acts| - 1];
      ArrivedIsNew(start, init);
      SourceIsCut(start, init);
      var w := After(start, init);
      hide After, LastArrival, NewAtSource, Survivors, Allowed;
      assert After(start, acts) == Step(w, a) by {
        AfterStep(start, acts);
      }
      LastArrivalStep(acts);
      forall s | s in OldAtSource(start, acts)
        ensures s in OldAtSource(start, init)
        ensures HasName(w.src, s.name)
      {
        if a.CleanSource? {
          SurvivorsAreKept(OldAtSource(start, init), a.cutoff, a.failed, s);
        }
        HasNameIn(w.src, s);
      }
    }
  }

  lemma {:induction false} AfterStep(start: World, acts: seq<Act>)
    requires acts != []
    ensures After(start, acts) == Step(After(start, acts[..|acts| - 1]), acts[|acts| - 1])
  {
  }

  lemma {:induction false} LastArrivalStep(acts: seq<Act>)
    requires acts != []
    ensures LastArrival(acts)
            == if Arrives(acts[|acts| - 1]) then Some(acts[|acts| - 1].newSnap) else LastArrival(acts[..|acts| - 1])
  {
  }

  lemma {:induction false} UnremovedWithin(snaps: seq<Snap>, a: Act, s: Snap)
    ensures s in Unremoved(snaps, a) <==> s in snaps && !Removes(a, s)
  {
    if snaps != [] {
      hide Removes;
      UnremovedWithin(snaps[..|snaps| - 1], a, s);
      assert snaps == snaps[..|snaps| - 1] + [snaps[|snaps| - 1]];
    }
  }

  /** A run whose receive does not complete leaves the newest arrival kept where it is. */
  lemma {:induction false} FailureKeeps(start: World, acts: seq<Act>, newSnap: Snap, o: Outcome)
    requires IsStart(start) && Possible(start, acts) && Enabled(After(start, acts), Replicate(newSnap, o))
    requires o.created && !o.arrived && Kept(acts) != []
    ensures LastOf(Kept(acts)).value in o.after
  {
    var w, s := After(start, acts), LastOf(Kept(acts)).value;
    RunKeeps(start, acts);
    SharedWithin(NewAtSource(acts), w.dst, s);
    HasNameIff(w.dst, NewAtSource(acts), s);
    hide After, Shared, Kept, NewAtSource, SameSnaps, HasName;
    if o.srcListed && o.dstListed {
      NextRunFromKept(start, acts, newSnap, o);
    } else {
      UnlistedIsFull(w, newSnap, o);
    }
  }

  lemma {:induction false} UnlistedIsFull(w: World, newSnap: Snap, o: Outcome)
    requires !o.srcListed || !o.dstListed
    ensures RunBase(w.src, w.dst, newSnap, o) == None
  {
    if o.srcListed {
      EmptyHasNone(w.src + [newSnap]);
      NewestCommonNone(w.src + [newSnap], []);
    }
  }

  /** The last arrival is the newest one kept exactly when no cleanup has destroyed it. */
  lemma {:induction false} NewestKept(start: World, acts: seq<Act>)
    requires IsStart(start) && Possible(start, acts) && LastArrival(acts).Some?
    ensures LastOf(Kept(acts)) == LastArrival(acts) <==> !Destroyed(acts)
    ensures Destroyed(acts) ==> LastArrival(acts).value !in Kept(acts)
  {
    var init, a := acts[..|acts| - 1], acts[|acts| - 1];
    if !Arrives(a) {
      NewestKept(start, init);
      var s := LastArrival(init).value;
      UnremovedWithin(Kept(init), a, s);
      hide After, Removes, Enabled;
      assert Unremoved(Kept(init), a) + [] == Unremoved(Kept(init), a);
      if !Destroyed(init) && a.Replicate? {
        RunSpares(start, init, a);
      }
    }
  }

  lemma {:induction false} RunSpares(start: World, acts: seq<Act>, a: Act)
    requires IsStart(start) && Possible(start, acts) && Enabled(After(start, acts), a)
    requires a.Replicate? && !Arrives(a) && Kept(acts) != []
    ensures !Removes(a, LastOf(Kept(acts)).value)
  {
    if a.outcome.created {
      hide After, Enabled, Kept;
      FailureKeeps(start, acts, a.newSnap, a.outcome);
    }
  }

  // ----- Main results -----

  /** After any history the next run that lists both sides is incremental from the snapshot that arrived
    * last exactly when no cleanup of either side has destroyed it since. */
  lemma {:induction false} NextRunFromLastArrival(start: World, acts: seq<Act>, newSnap: Snap, o: Outcome)
    requires IsStart(start) && Possible(start, acts) && o.srcListed && o.dstListed
    requires After(start, acts).arrived.Some? && FreshName(After(start, acts), newSnap)
    ensures
      var w := After(start, acts);
      RunBase(w.src, w.dst, newSnap, o) == w.arrived <==> !Destroyed(acts)
  {
    var w := After(start, acts);
    NextRunFromKept(start, acts, newSnap, o);
    ArrivedIsNew(start, acts);
    NewestKept(start, acts);
    CommonIsSource(OldAtSource(start, acts), w.dst);
  }

  /** It is incremental from the last run that reported success exactly when that run's snapshot is the
    * newest arrival kept: neither side has lost it, and one side has lost every snapshot that arrived
    * after it, all of them from runs that reported an error. If nothing arrived hidden, that is when no
    * cleanup destroyed it; if no cleanup destroyed the last arrival, that is when nothing arrived hidden. */
  lemma {:induction false} NextRunFromLastSuccess(start: World, acts: seq<Act>, newSnap: Snap, o: Outcome)
    requires IsStart(start) && Possible(start, acts) && o.srcListed && o.dstListed
    requires After(start, acts).last.Some? && FreshName(After(start, acts), newSnap)
    ensures
      var w := After(start, acts);
      var base := RunBase(w.src, w.dst, newSnap, o);
      && (base == w.last <==> LastOf(Kept(acts)) == w.last)
      && (!HiddenArrival(acts) ==> (base == w.last <==> !Destroyed(acts)))
      && (!Destroyed(acts) ==> (base == w.last <==> !HiddenArrival(acts)))
  {
    var w := After(start, acts);
    ArrivedIffHidden(start, acts);
    ArrivedIsNew(start, acts);
    NextRunFromKept(start, acts, newSnap, o);
    NewestKept(start, acts);
    CommonIsSource(OldAtSource(start, acts), w.dst);
  }

  /** Since the last run that reported success, some run's receive completed although it reported an
    * error. */
  predicate HiddenArrival(acts: seq<Act>) {
    acts != []
    && var a := acts[|acts| - 1];
       !Succeeds(a) && (Arrives(a) || HiddenArrival(acts[..|acts| - 1]))
  }

  predicate Succeeds(a: Act) {
    a.Replicate? && a.outcome.created && a.outcome.ok
  }

  lemma {:induction false} ArrivedIffHidden(start: World, acts: seq<Act>)
    requires IsStart(start) && Possible(start, acts)
    ensures
      var w := After(start, acts);
      w.last.Some? ==> w.arrived.Some? && (w.arrived == w.last <==> !HiddenArrival(acts))
  {
    if acts != [] {
      hide HasName, Survivors, Received, RunBase;
      ArrivedIffHidden(start, acts[..|acts| - 1]);
    }
  }

  /** A cleanup takes a snapshot away exactly when it was created before the cutoff and its destruction
    * did not fail. */
  lemma {:induction false} CleanupDestroysIff(w: World, cutoff: int, failed: set<nat>, s: Snap)
    requires s in w.src
    ensures s !in Step(w, CleanSource(cutoff, failed)).src
            <==> s.creation.Some? && s.creation.value < cutoff && s.name !in failed
  {
    SurvivorsAreKept(w.src, cutoff, failed, s);
  }

  /** The run offers its own snapshot as a candidate: it becomes the base of itself exactly when the
    * destination already has that name. */
  lemma {:induction false} SelfBaseIff(w: World, newSnap: Snap, o: Outcome)
    requires o.srcListed && o.dstListed && newSnap !in w.src
    ensures RunBase(w.src, w.dst, newSnap, o) == Some(newSnap) <==> HasName(w.dst, newSnap.name)
  {
    var all := w.src + [newSnap];
    assert all[..|all| - 1] == w.src;
    if !HasName(w.dst, newSnap.name) {
      CommonIsSource(w.src, w.dst);
    }
  }

  lemma {:induction false} CommonIsSource(src: seq<Snap>, dst: seq<Snap>)
    ensures NewestCommon(src, dst).Some? ==> NewestCommon(src, dst).value in src
  {
    if src != [] {
      hide HasName;
      CommonIsSource(src[..|src| - 1], dst);
    }
  }

  /** A destination listing that fails is taken for an empty destination: the run falls back to a full
    * send although a common snapshot exists. */
  lemma {:induction false} UnlistedDestMeansFullSend(w: World, newSnap: Snap, o: Outcome)
    requires !o.dstListed
    ensures RunBase(w.src, w.dst, newSnap, o) == None
  {
    UnlistedIsFull(w, newSnap, o);
  }

  // ----- Two histories that lose the promise, and one that regains it -----

  const EMPTY := World([], [], None, None)

  /** A run that creates its snapshot and whose receive completes. */
  function Arrival(s: Snap, ok: bool, after: seq<Snap>): Act {
    Replicate(s, Outcome(true, true, true, true, ok, after))
  }

  lemma {:induction false} HistorySnoc(start: World, acts: seq<Act>, a: Act)
    ensures Possible(start, acts + [a]) <==> Possible(start, acts) && Enabled(After(start, acts), a)
    ensures After(start, acts + [a]) == Step(After(start, acts), a)
    ensures Kept(acts + [a]) == Keep(Kept(acts), a) && LastArrival(acts + [a]) == (if Arrives(a) then Some(a.newSnap) else LastArrival(acts))
    ensures Destroyed(acts + [a])
            <==> !Arrives(a) && (Destroyed(acts) || (LastArrival(acts).Some? && Destroys(a, LastArrival(acts).value)))
    ensures HiddenArrival(acts + [a]) <==> !Succeeds(a) && (Arrives(a) || HiddenArrival(acts))
  {
    assert (acts + [a])[..|acts|] == acts;
  }

  lemma {:induction false} FirstArrival(s: Snap)
    ensures
      var acts := [Arrival(s, true, [s])];
      && Possible(EMPTY, acts) && After(EMPTY, acts) == World([s], [s], Some(s), Some(s))
      && Kept(acts) == [s] && LastArrival(acts) == Some(s) && !HiddenArrival(acts) && !Destroyed(acts)
  {
    var a := Arrival(s, true, [s]);
    HistorySnoc(EMPTY, [], a);
    assert [] + [a] == [a];
  }

  lemma {:induction false} OneGone(s: Snap, a: Act)
    ensures Unremoved([s], a) == if Removes(a, s) then [] else [s]
  {
    hide Removes;
    assert [s][..0] == [];
  }

  lemma {:induction false} OneSurvives(s: Snap, cutoff: int, failed: set<nat>)
    ensures Survivors([s], cutoff, failed) == if Expired(s, cutoff) && s.name !in failed then [] else [s]
  {
    hide Expired;
    assert [s][..0] == [];
  }

  /** A cleanup of the source with a cutoff after the only replicated snapshot: nothing arrived hidden, and
    * the next run is a full send. */
  lemma {:induction false} CleanupLosesBase(s: Snap, cutoff: int, newSnap: Snap, o: Outcome)
    requires Expired(s, cutoff) && newSnap.name != s.name && o.srcListed && o.dstListed
    ensures
      var acts := [Arrival(s, true, [s]), CleanSource(cutoff, {})];
      var w := After(EMPTY, acts);
      && Possible(EMPTY, acts) && w.last == Some(s) && !HiddenArrival(acts) && Destroyed(acts)
      && FreshName(w, newSnap) && RunBase(w.src, w.dst, newSnap, o) == None
  {
    var first, a := [Arrival(s, true, [s])], CleanSource(cutoff, {});
    FirstArrival(s);
    HistorySnoc(EMPTY, first, a);
    OneSurvives(s, cutoff, {});
    assert first + [a] == [Arrival(s, true, [s]), a];
    hide Possible, After, HiddenArrival, Destroyed, Survivors;
    assert NewestCommon([newSnap], [s]) == None by {
      assert [newSnap][..0] == [];
    }
    assert [] + [newSnap] == [newSnap];
  }

  /** A second run arrives hidden and a cleanup of the destination destroys what arrived: the next run is
    * incremental from the last successful run after all. */
  lemma {:induction false} CleanupUncoversLast(s: Snap, t: Snap, cutoff: int)
    requires s.name != t.name && Expired(t, cutoff)
    ensures
      var acts := [Arrival(s, true, [s]), Arrival(t, false, [s, t]), CleanDest(cutoff, {s.name})];
      && Possible(EMPTY, acts) && After(EMPTY, acts).last == Some(s) && HiddenArrival(acts) && Destroyed(acts)
      && LastOf(Kept(acts)) == Some(s)
  {
    hide Possible, After, Kept, HiddenArrival, Destroyed, LastArrival, Survivors, Unremoved, Allowed, FreshName;
    var first, b, c := [Arrival(s, true, [s])], Arrival(t, false, [s, t]), CleanDest(cutoff, {s.name});
    FirstArrival(s);
    HistorySnoc(EMPTY, first, b);
    HistorySnoc(EMPTY, first + [b], c);
    SecondArrival(s, t);
    assert first + [b] + [c] == [Arrival(s, true, [s]), b, c];
    OneGone(s, b);
    assert [s] + [t] == [s, t];
    TwoUnremoved(s, t, c);
  }

  lemma {:induction false} TwoUnremoved(s: Snap, t: Snap, a: Act)
    requires !Removes(a, s) && Removes(a, t)
    ensures Unremoved([s, t], a) == [s]
  {
    OneGone(s, a);
    hide Removes;
    assert [s, t][..1] == [s];
  }

  lemma {:induction false} SecondArrival(s: Snap, t: Snap)
    requires s.name != t.name
    ensures Enabled(World([s], [s], Some(s), Some(s)), Arrival(t, false, [s, t]))
  {
    hide RunBase;
  }

  // ----- The agent lives through a history -----

  ghost predicate Represents(agent: Agent, source: nat, dest: nat, w: World)
    reads agent
  {
    agent.Of(source) == w.src && agent.Of(dest) == w.dst
  }

  function AsListing(snaps: seq<Snap>, dataset: nat): seq<Listed> {
    if snaps == [] then [] else AsListing(snaps[..|snaps| - 1], dataset) + [Listed(dataset, snaps[|snaps| - 1])]
  }

  lemma {:induction false} ListingShows(snaps: seq<Snap>, dataset: nat)
    ensures OfDataset(AsListing(snaps, dataset), dataset) == snaps
  {
    if snaps != [] {
      var init, s := snaps[..|snaps| - 1], snaps[|snaps| - 1];
      ListingShows(init, dataset);
      assert AsListing(snaps, dataset)[..|AsListing(init, dataset)|] == AsListing(init, dataset);
      assert snaps == init + [s];
    }
  }

  lemma {:induction false} SurvivorsDistinct(snaps: seq<Snap>, cutoff: int, failed: set<nat>)
    requires Distinct(snaps)
    ensures Distinct(Survivors(snaps, cutoff, failed))
  {
    if snaps != [] {
      hide Expired;
      var init, s := snaps[..|snaps| - 1], snaps[|snaps| - 1];
      SurvivorsDistinct(init, cutoff, failed);
      var kept := Survivors(init, cutoff, failed);
      forall k | 0 <= k < |kept|
        ensures kept[k].name != s.name
      {
        assert kept[k] in kept;
        SurvivorsAreKept(init, cutoff, failed, kept[k]);
      }
      assert kept + [] == kept;
    }
  }

  lemma {:induction false} StepDistinct(w: World, a: Act)
    requires Distinct(w.src) && Distinct(w.dst) && Enabled(w, a)
    ensures Distinct(Step(w, a).src) && Distinct(Step(w, a).dst)
  {
    match a
    case Replicate(s, o) =>
      assert forall k | 0 <= k < |w.src| :: HasName(w.src, w.src[k].name);
    case ExtraSnapshot(s) =>
      assert forall k | 0 <= k < |w.src| :: HasName(w.src, w.src[k].name);
    case CleanSource(cutoff, failed) => SurvivorsDistinct(w.src, cutoff, failed);
    case CleanDest(cutoff, failed) => SurvivorsDistinct(w.dst, cutoff, failed);
  }

  /** Each act is one call on the agent, and leaves it as the step says. */
  method Do(agent: Agent, source: nat, dest: nat, a: Act, ghost w: World)
    requires source != dest && Represents(agent, source, dest, w) && Enabled(w, a)
    requires Distinct(w.src) && Distinct(w.dst)
    modifies agent
    ensures Represents(agent, source, dest, Step(w, a))
  {
    hide Survivors, Distinct, OfDataset, AsListing, Received, HasName;
    match a
    case Replicate(s, o) =>
      var _ := agent.Run(source, dest, s, o);
    case ExtraSnapshot(s) =>
      agent.CreateSnapshot(source, s);
    case CleanSource(cutoff, failed) =>
      ListingShows(agent.Of(source), source);
      var _ := agent.RetentionCleanup(source, cutoff, AsListing(agent.Of(source), source), failed);
    case CleanDest(cutoff, failed) =>
      ListingShows(agent.Of(dest), dest);
      var _ := agent.RetentionCleanup(dest, cutoff, AsListing(agent.Of(dest), dest), failed);
  }

  /** Calling the agent for a whole history leaves it where the history ends, so the results above are
    * about the agent. */
  method DoAll(agent: Agent, source: nat, dest: nat, acts: seq<Act>, ghost start: World)
    requires source != dest && Represents(agent, source, dest, start) && IsStart(start) && Possible(start, acts)
    modifies agent
    ensures Represents(agent, source, dest, After(start, acts))
  {
    hide Step, Enabled, Distinct;
    assert acts[..0] == [] && acts[..|acts|] == acts;
    for i := 0 to |acts|
      invariant Represents(agent, source, dest, After(start, acts[..i]))
      invariant Distinct(After(start, acts[..i]).src) && Distinct(After(start, acts[..i]).dst)
    {
      assert acts[..i + 1][..i] == acts[..i];
      PossiblePrefix(start, acts, i + 1);
      StepDistinct(After(start, acts[..i]), acts[i]);
      Do(agent, source, dest, acts[i], After(start, acts[..i]));
    }
  }

  lemma {:induction false} PossiblePrefix(w: World, acts: seq<Act>, i: nat)
    requires i <= |acts| && Possible(w, acts)
    ensures Possible(w, acts[..i])
    decreases |acts|
  {
    if i == |acts| {
      assert acts[..i] == acts;
    } else {
      hide Enabled, Step;
      assert acts[..|acts| - 1][..i] == acts[..i];
      PossiblePrefix(w, acts[..|acts| - 1], i);
    }
  }
}
