/** Incremental replication: which snapshot a run sends from, over any history of runs, failures, extra
  * snapshots and retention cleanups. Snapshot names are opaque ids; a received snapshot keeps its name
  * and creation time. The code matches snapshots by name only, and so does the model. */
module Replication {
  import opened Common

  /** A snapshot of a dataset; the creation time is absent when it does not parse. */
  datatype Snap = Snap(name: nat, creation: Option<int>)

  predicate HasName(snaps: seq<Snap>, name: nat) {
    exists i :: 0 <= i < |snaps| && snaps[i].name == name
  }

  // ----- Choosing the base -----

  /** The newest source snapshot whose name exists at the destination. */
  function NewestCommon(src: seq<Snap>, dst: seq<Snap>): Option<Snap> {
    if src == [] then None
    else if HasName(dst, src[|src| - 1].name) then Some(src[|src| - 1])
    else NewestCommon(src[..|src| - 1], dst)
  }

  /** FindCommonSnapshot: the base is common, nothing newer is, and there is none only if nothing is. */
  method FindCommonSnapshot(src: seq<Snap>, dst: seq<Snap>) returns (base: Option<Snap>)
    ensures base == None <==> forall i | 0 <= i < |src| :: !HasName(dst, src[i].name)
    ensures base.Some? ==>
        exists i :: 0 <= i < |src| && src[i] == base.value && HasName(dst, src[i].name)
                    && forall k | i < k < |src| :: !HasName(dst, src[k].name)
    ensures base == NewestCommon(src, dst)
  {
    var dstSet: set<nat> := {};
    for i := 0 to |dst|
      invariant forall n :: n in dstSet <==> HasName(dst[..i], n)
    {
      assert dst[..i + 1] == dst[..i] + [dst[i]];
      assert forall n :: HasName(dst[..i + 1], n) <==> HasName(dst[..i], n) || n == dst[i].name by {
        HasNameSnoc(dst[..i], dst[i]);
      }
      dstSet := dstSet + {dst[i].name};
    }
    assert dst[..|dst|] == dst;
    assert src[..|src|] == src;
    for i := |src| downto 0
      invariant forall k | i <= k < |src| :: !HasName(dst, src[k].name)
      invariant NewestCommon(src, dst) == NewestCommon(src[..i], dst)
    {
      assert src[..i + 1][..i] == src[..i];
      if src[i].name in dstSet {
        return Some(src[i]);
      }
    }
    return None;
  }

  lemma {:induction false} HasNameSnoc(snaps: seq<Snap>, s: Snap)
    ensures forall n :: HasName(snaps + [s], n) <==> HasName(snaps, n) || n == s.name
  {
    var all := snaps + [s];
    forall n
      ensures HasName(all, n) <==> HasName(snaps, n) || n == s.name
    {
      if HasName(snaps, n) {
        var i :| 0 <= i < |snaps| && snaps[i].name == n;
        assert all[i] == snaps[i];
      }
      if n == s.name {
        assert all[|snaps|].name == n;
      }
    }
  }

  // ----- One replication run -----

  /** What a send-and-receive may do; `arrived` says whether the receive completed. Then the new snapshot
    * is there; a forced receive may roll newer destination snapshots away, but never the base; a full
    * receive that does not complete changes nothing. */
  predicate Received(dst: seq<Snap>, base: Option<Snap>, newSnap: Snap, arrived: bool, after: seq<Snap>) {
    && (forall s | s in after :: s in dst || (arrived && s == newSnap))
    && Distinct(after)
    && (arrived ==> newSnap in after)
    && (base.Some? ==> forall s | s in dst && s.name == base.value.name :: s in after)
    && (!arrived && base == None ==> after == dst)
  }

  /** What the environment does to one run. The send or the ssh stage can report an error although the
    * receive completed, so `ok` implies `arrived` but not the other way round. */
  datatype Outcome = Outcome(created: bool, srcListed: bool, dstListed: bool, arrived: bool, ok: bool, after: seq<Snap>)

  datatype RunResult = CreateFailed | SendFailed(base: Option<Snap>) | Replicated(base: Option<Snap>)

  /** The base of a run that has just created `newSnap`; a listing that fails counts as empty. */
  function RunBase(src: seq<Snap>, dst: seq<Snap>, newSnap: Snap, o: Outcome): Option<Snap> {
    NewestCommon(if o.srcListed then src + [newSnap] else [], if o.dstListed then dst else [])
  }

  /** The environment keeps its side of the contract for the base this run will choose. */
  predicate Allowed(src: seq<Snap>, dst: seq<Snap>, newSnap: Snap, o: Outcome) {
    o.created ==> (o.ok ==> o.arrived) && Received(dst, RunBase(src, dst, newSnap, o), newSnap, o.arrived, o.after)
  }

  // ----- Retention -----

  /** `created` is strictly before the cutoff. */
  predicate Expired(s: Snap, cutoff: int) {
    s.creation.Some? && s.creation.value < cutoff
  }

  /** What a cleanup leaves; `failed` holds the names it could not destroy. */
  function Survivors(snaps: seq<Snap>, cutoff: int, failed: set<nat>): seq<Snap> {
    if snaps == [] then []
    else
      var s := snaps[|snaps| - 1];
      Survivors(snaps[..|snaps| - 1], cutoff, failed) + if Expired(s, cutoff) && s.name !in failed then [] else [s]
  }

  /** A snapshot in a listing of all datasets. */
  datatype Listed = Listed(dataset: nat, snap: Snap)

  function OfDataset(listing: seq<Listed>, dataset: nat): seq<Snap> {
    if listing == [] then []
    else
      OfDataset(listing[..|listing| - 1], dataset)
      + if listing[|listing| - 1].dataset == dataset then [listing[|listing| - 1].snap] else []
  }

  // ----- The agent -----

  class Agent {
    /** The snapshots of every dataset, oldest first. */
    var snaps: map<nat, seq<Snap>>

    constructor ()
      ensures snaps == map[]
    {
      snaps := map[];
    }

    function Of(dataset: nat): seq<Snap>
      reads this
    {
      if dataset in snaps then snaps[dataset] else []
    }

    /** One replication run from `source` to `dest`. */
    method Run(source: nat, dest: nat, newSnap: Snap, o: Outcome) returns (r: RunResult)
      requires source != dest && Allowed(Of(source), Of(dest), newSnap, o)
      modifies this
      ensures Of(source) == if o.created then old(Of(source)) + [newSnap] else old(Of(source))
      ensures Of(dest) == if o.created then o.after else old(Of(dest))
      ensures forall d | d != source && d != dest :: Of(d) == old(Of(d))
      ensures
        var base := RunBase(old(Of(source)), old(Of(dest)), newSnap, o);
        r == if !o.created then CreateFailed else if o.ok then Replicated(base) else SendFailed(base)
    {
      if !o.created {
        return CreateFailed;
      }
      CreateSnapshot(source, newSnap);
      var srcSnaps := if o.srcListed then Of(source) else [];
      var dstSnaps := if o.dstListed then Of(dest) else [];
      var base := FindCommonSnapshot(srcSnaps, dstSnaps);
      snaps := snaps[dest := o.after];
      return if o.ok then Replicated(base) else SendFailed(base);
    }

    method CreateSnapshot(dataset: nat, s: Snap)
      modifies this
      ensures Of(dataset) == old(Of(dataset)) + [s]
      ensures forall d | d != dataset :: Of(d) == old(Of(d))
    {
      snaps := snaps[dataset := Of(dataset) + [s]];
    }

    method DestroySnapshot(dataset: nat, name: nat)
      modifies this
      ensures Of(dataset) == Without(old(Of(dataset)), name)
      ensures forall d | d != dataset :: Of(d) == old(Of(d))
    {
      snaps := snaps[dataset := Without(Of(dataset), name)];
    }

    /** The body of the cleanup loop; `cannot` names the snapshots whose destruction fails. */
    method DestroyIfExpired(dataset: nat, snap: Snap, cutoff: int, cannot: set<nat>) returns (deleted: bool)
      modifies this
      ensures deleted == (Expired(snap, cutoff) && snap.name !in cannot)
      ensures Of(dataset) == if deleted then Without(old(Of(dataset)), snap.name) else old(Of(dataset))
      ensures forall d | d != dataset :: Of(d) == old(Of(d))
    {
      if snap.creation == None {
        return false;
      }
      if snap.creation.value < cutoff {
        if snap.name in cannot {
          return false;
        }
        DestroySnapshot(dataset, snap.name);
        return true;
      }
      return false;
    }

    /** handleRetentionCleanup: walks a listing of all datasets and destroys the expired snapshots of one. */
    method RetentionCleanup(dataset: nat, cutoff: int, listing: seq<Listed>, cannot: set<nat>) returns (deleted: nat)
      requires OfDataset(listing, dataset) == Of(dataset) && Distinct(Of(dataset))
      modifies this
      ensures Of(dataset) == Survivors(old(Of(dataset)), cutoff, cannot)
      ensures forall d | d != dataset :: Of(d) == old(Of(d))
      ensures deleted + |Of(dataset)| == |old(Of(dataset))|
    {
      hide Survivors, OfDataset, Without, Distinct, Partial, Expired;
      deleted := 0;
      ghost var was := Of(dataset);
      PartialEnds(was, cutoff, cannot);
      NothingListed(listing, dataset);
      for i := 0 to |listing|
        invariant |OfDataset(listing[..i], dataset)| <= |was|
        invariant Of(dataset) == Partial(was, |OfDataset(listing[..i], dataset)|, cutoff, cannot)
        invariant forall d | d != dataset :: Of(d) == old(Of(d))
        invariant deleted + |Of(dataset)| == |was|
      {
        ListingStep(listing, dataset, i);
        if listing[i].dataset != dataset {
          continue;
        }
        PartialStep(was, |OfDataset(listing[..i], dataset)|, cutoff, cannot);
        var gone := DestroyIfExpired(dataset, listing[i].snap, cutoff, cannot);
        if gone {
          deleted := deleted + 1;
        }
      }
      assert listing[..|listing|] == listing;
    }
  }

  /** The dataset once the cleanup has considered its first `n` snapshots. */
  function Partial(was: seq<Snap>, n: nat, cutoff: int, failed: set<nat>): seq<Snap>
    requires n <= |was|
  {
    Survivors(was[..n], cutoff, failed) + was[n..]
  }

  lemma {:induction false} PartialEnds(was: seq<Snap>, cutoff: int, failed: set<nat>)
    ensures Partial(was, 0, cutoff, failed) == was
    ensures Partial(was, |was|, cutoff, failed) == Survivors(was, cutoff, failed)
  {
    assert was[..0] == [] && was[..|was|] == was;
  }

  lemma {:induction false} NothingListed(listing: seq<Listed>, dataset: nat)
    ensures OfDataset(listing[..0], dataset) == []
  {
  }

  /** The next listed snapshot of the dataset is the next of its snapshots. */
  lemma {:induction false} ListingStep(listing: seq<Listed>, dataset: nat, i: nat)
    requires i < |listing|
    ensures
      var was, n := OfDataset(listing, dataset), |OfDataset(listing[..i], dataset)|;
      if listing[i].dataset == dataset
      then n < |was| && was[n] == listing[i].snap && |OfDataset(listing[..i + 1], dataset)| == n + 1
      else |OfDataset(listing[..i + 1], dataset)| == n
  {
    assert listing[..i + 1][..i] == listing[..i];
    OfDatasetPrefix(listing, dataset, i + 1);
  }

  predicate Distinct(snaps: seq<Snap>) {
    forall i, k | 0 <= i < k < |snaps| :: snaps[i].name != snaps[k].name
  }

  function Without(snaps: seq<Snap>, name: nat): seq<Snap> {
    if snaps == [] then []
    else
      Without(snaps[..|snaps| - 1], name) + if snaps[|snaps| - 1].name == name then [] else [snaps[|snaps| - 1]]
  }

  lemma {:induction false} OfDatasetPrefix(listing: seq<Listed>, dataset: nat, i: nat)
    requires i <= |listing|
    ensures OfDataset(listing[..i], dataset) <= OfDataset(listing, dataset)
    decreases |listing|
  {
    if i == |listing| {
      assert listing[..i] == listing;
    } else {
      var init := listing[..|listing| - 1];
      assert init[..i] == listing[..i];
      OfDatasetPrefix(init, dataset, i);
    }
  }

  lemma {:induction false} SurvivorsAreKept(snaps: seq<Snap>, cutoff: int, failed: set<nat>, s: Snap)
    ensures s in Survivors(snaps, cutoff, failed) <==> s in snaps && !(Expired(s, cutoff) && s.name !in failed)
  {
    if snaps != [] {
      SurvivorsAreKept(snaps[..|snaps| - 1], cutoff, failed, s);
      assert snaps == snaps[..|snaps| - 1] + [snaps[|snaps| - 1]];
    }
  }

  lemma {:induction false} WithoutNone(snaps: seq<Snap>, name: nat)
    requires forall s | s in snaps :: s.name != name
    ensures Without(snaps, name) == snaps
  {
    if snaps != [] {
      WithoutNone(snaps[..|snaps| - 1], name);
      assert snaps[|snaps| - 1] in snaps;
      assert snaps == snaps[..|snaps| - 1] + [snaps[|snaps| - 1]];
    }
  }

  lemma {:induction false} WithoutConcat(a: seq<Snap>, b: seq<Snap>, name: nat)
    ensures Without(a + b, name) == Without(a, name) + Without(b, name)
    decreases |b|
  {
    if b == [] {
      assert a + b == a;
    } else {
      WithoutConcat(a, b[..|b| - 1], name);
      assert (a + b)[..|a + b| - 1] == a + b[..|b| - 1];
    }
  }

  lemma {:induction false} SurvivorsNext(was: seq<Snap>, n: nat, cutoff: int, failed: set<nat>)
    requires n < |was|
    ensures Survivors(was[..n + 1], cutoff, failed)
         == Survivors(was[..n], cutoff, failed) + if Expired(was[n], cutoff) && was[n].name !in failed then [] else [was[n]]
  {
    hide Expired;
    assert was[..n + 1][..n] == was[..n];
  }

  lemma {:induction false} OthersKeepNames(was: seq<Snap>, n: nat, cutoff: int, failed: set<nat>)
    requires n < |was| && Distinct(was)
    ensures forall t | t in Survivors(was[..n], cutoff, failed) + was[n + 1..] :: t.name != was[n].name
  {
    hide Survivors, Expired;
    forall t | t in Survivors(was[..n], cutoff, failed) + was[n + 1..]
      ensures t.name != was[n].name
    {
      SurvivorsAreKept(was[..n], cutoff, failed, t);
    }
  }

  lemma {:induction false} WithoutOne(kept: seq<Snap>, s: Snap, rest: seq<Snap>)
    requires forall t | t in kept + rest :: t.name != s.name
    ensures Without(kept + ([s] + rest), s.name) == kept + rest
  {
    assert forall t | t in kept || t in rest :: t in kept + rest;
    WithoutNone(kept, s.name);
    WithoutNone(rest, s.name);
    assert Without([s], s.name) == [] by {
      assert [s][..0] == [];
    }
    WithoutConcat(kept, [s] + rest, s.name);
    WithoutConcat([s], rest, s.name);
    hide Without;
    assert [] + rest == rest;
  }

  /** Considering one more snapshot: it stays, or destroying it by name removes just that one. */
  lemma {:induction false} PartialStep(was: seq<Snap>, n: nat, cutoff: int, failed: set<nat>)
    requires n < |was| && Distinct(was)
    ensures
      var now, later := Partial(was, n, cutoff, failed), Partial(was, n + 1, cutoff, failed);
      if Expired(was[n], cutoff) && was[n].name !in failed
      then Without(now, was[n].name) == later && |now| == |later| + 1
      else now == later
  {
    SurvivorsNext(was, n, cutoff, failed);
    OthersKeepNames(was, n, cutoff, failed);
    hide Survivors, Expired, Without, Distinct;
    var s, kept, rest := was[n], Survivors(was[..n], cutoff, failed), was[n + 1..];
    assert was[n..] == [s] + rest;
    if Expired(s, cutoff) && s.name !in failed {
      WithoutOne(kept, s, rest);
      assert kept + [] == kept;
    }
  }
}
