/** How `zpool create` groups the words of a layout, and what the emitted words come out as.
  *
  * The grouping is that of OpenZFS's construct_spec: `log`, `special` and `dedup` set the role of what
  * follows; `cache` and `spare` take the devices up to the next keyword; a shape keyword opens a vdev
  * that takes every device up to the next keyword; any other word is a top-level disk of its own.
  * What it refuses is in PoolGrammar. */
module PoolDecode {
  import opened Common
  import opened Text
  import opened PoolSpec
  import opened SortedKeys
  import opened PoolArgs

  const ROLE_KEYWORDS: set<string> := {LOG, CACHE, SPARE, SPECIAL, "dedup"}
  const SHAPE_KEYWORDS: set<string> := {"mirror", "raidz", "raidz1", "raidz2", "raidz3"}

  /** A draid word: an optional parity from 1 to 3, then nothing or a colon and more. */
  predicate IsDraid(w: string) {
    HasPrefix(w, "draid")
    && (|w| == 5 || w[5] == ':' || ('1' <= w[5] <= '3' && (|w| == 6 || w[6] == ':')))
  }

  predicate IsShape(w: string) {
    w in SHAPE_KEYWORDS || IsDraid(w)
  }

  predicate IsKeyword(w: string) {
    w in ROLE_KEYWORDS || IsShape(w)
  }

  /** A word that is taken for an option wherever it stands, since options may follow operands. */
  predicate OptionLike(w: string) {
    |w| > 1 && w[0] == '-'
  }

  /** A top-level vdev as zpool understands it; `shape` is "disk" for a bare device. */
  datatype TopVdev = TopVdev(role: string, shape: string, devices: seq<string>)

  /** The number of leading words that are not keywords. */
  function DeviceRun(words: seq<string>): (n: nat)
    ensures n <= |words|
  {
    if words == [] || IsKeyword(words[0]) then 0 else 1 + DeviceRun(words[1..])
  }

  /** A cache or spare list ends at the next keyword; the other roles last. */
  function RoleAfter(role: string): string {
    if role == CACHE || role == SPARE then DATA else role
  }

  function DecodeVdevs(words: seq<string>, role: string): seq<TopVdev>
    decreases |words|
  {
    if words == [] then []
    else if words[0] in ROLE_KEYWORDS then DecodeVdevs(words[1..], words[0])
    else if IsShape(words[0]) then
      var n := DeviceRun(words[1..]);
      [TopVdev(RoleAfter(role), words[0], words[1..1 + n])] + DecodeVdevs(words[1 + n..], RoleAfter(role))
    else [TopVdev(role, "disk", [words[0]])] + DecodeVdevs(words[1..], role)
  }

  // ----- What a layout means -----

  function Disks(role: string, devices: seq<string>): seq<TopVdev> {
    if devices == [] then [] else [TopVdev(role, "disk", [devices[0]])] + Disks(role, devices[1..])
  }

  /** A stripe vdev means its disks, each on its own; any other one redundant vdev. */
  function VdevMeaning(v: Vdev): seq<TopVdev> {
    if IsStripe(v) then Disks(v.role, v.devices) else [TopVdev(v.role, EffectiveType(v), v.devices)]
  }

  function RoleMeaning(vdevs: seq<Vdev>, role: string): seq<TopVdev> {
    if vdevs == [] then []
    else (if vdevs[0].role == role then VdevMeaning(vdevs[0]) else []) + RoleMeaning(vdevs[1..], role)
  }

  function LayoutMeaning(vdevs: seq<Vdev>): seq<TopVdev> {
    RoleMeaning(vdevs, DATA)
    + (RoleMeaning(vdevs, LOG) + (RoleMeaning(vdevs, CACHE) + (RoleMeaning(vdevs, SPARE) + RoleMeaning(vdevs, SPECIAL))))
  }

  /** No stripe data vdev comes after a redundant data vdev. */
  predicate StripesFirst(vdevs: seq<Vdev>) {
    forall i, j | 0 <= i < j < |vdevs| && vdevs[i].role == vdevs[j].role == DATA && IsStripe(vdevs[j]) :: IsStripe(vdevs[i])
  }

  /** Neither a keyword nor an option. */
  predicate IsTame(device: string) {
    !IsKeyword(device) && !OptionLike(device)
  }

  /** The vdev can be rendered without ambiguity of its own: it has devices, all tame, one of the five
    * roles and a shape the grammar knows; cache and spare take no shape. */
  predicate Plain(v: Vdev) {
    && v.devices != []
    && (forall d | d in v.devices :: IsTame(d))
    && (IsStripe(v) || (EffectiveType(v) in SHAPE_KEYWORDS && v.role !in {CACHE, SPARE}))
    && v.role in {DATA, LOG, CACHE, SPARE, SPECIAL}
  }

  predicate AllPlain(vdevs: seq<Vdev>) {
    forall v | v in vdevs :: Plain(v)
  }

  /** Nothing follows, or a keyword does. */
  predicate AtBoundary(words: seq<string>) {
    words != [] ==> IsKeyword(words[0])
  }

  // ----- Reading one vdev back -----

  lemma {:induction false} ShapeWord(shape: string)
    requires shape in SHAPE_KEYWORDS
    ensures shape !in ROLE_KEYWORDS && IsShape(shape) && !IsDraid(shape) && !OptionLike(shape)
  {
    assert "draid"[0] == 'd' && shape[0] != 'd' && shape[0] != '-';
  }

  lemma {:induction false} DeviceRunOver(devices: seq<string>, rest: seq<string>)
    requires forall d | d in devices :: !IsKeyword(d)
    ensures DeviceRun(devices + rest) == |devices| + DeviceRun(rest)
  {
    hide IsKeyword;
    if devices == [] {
      assert devices + rest == rest;
    } else {
      assert (devices + rest)[0] in devices && (devices + rest)[1..] == devices[1..] + rest;
      DeviceRunOver(devices[1..], rest);
    }
  }

  lemma {:induction false} DisksDecode(devices: seq<string>, rest: seq<string>, role: string)
    requires forall d | d in devices :: !IsKeyword(d)
    ensures DecodeVdevs(devices + rest, role) == Disks(role, devices) + DecodeVdevs(rest, role)
  {
    if devices == [] {
      assert devices + rest == rest;
    } else {
      assert (devices + rest)[0] in devices && (devices + rest)[1..] == devices[1..] + rest;
      DisksDecode(devices[1..], rest, role);
    }
  }

  /** A redundant vdev takes its own devices and any bare devices that follow. */
  lemma {:induction false} ShapeDecode(shape: string, devices: seq<string>, rest: seq<string>, role: string)
    requires shape in SHAPE_KEYWORDS && (forall d | d in devices :: !IsKeyword(d)) && RoleAfter(role) == role
    ensures
      var m := DeviceRun(rest);
      DecodeVdevs([shape] + devices + rest, role)
      == [TopVdev(role, shape, devices + rest[..m])] + DecodeVdevs(rest[m..], role)
  {
    hide IsKeyword, IsShape, DeviceRun, RoleAfter, ROLE_KEYWORDS, SHAPE_KEYWORDS;
    ShapeWord(shape);
    var words := [shape] + devices + rest;
    var m := DeviceRun(rest);
    DeviceRunOver(devices, rest);
    assert words[0] == shape;
    assert words[1..] == devices + rest;
    assert words[1..1 + |devices| + m] == devices + rest[..m];
    assert words[1 + |devices| + m..] == rest[m..];
  }

  function Body(v: Vdev): seq<string> {
    (if IsStripe(v) then [] else [EffectiveType(v)]) + v.devices
  }

  lemma {:induction false} BodyDecode(v: Vdev, rest: seq<string>)
    requires Plain(v) && AtBoundary(rest)
    ensures DecodeVdevs(Body(v) + rest, v.role) == VdevMeaning(v) + DecodeVdevs(rest, v.role)
  {
    if IsStripe(v) {
      assert [] + v.devices == v.devices;
      DisksDecode(v.devices, rest, v.role);
    } else {
      ShapeDecode(EffectiveType(v), v.devices, rest, v.role);
      hide Plain, DecodeVdevs;
      assert DeviceRun(rest) == 0 && rest[..0] == [] && rest[0..] == rest;
      assert v.devices + [] == v.devices;
    }
  }

  lemma {:induction false} RoleKeywordDecode(role: string, rest: seq<string>, r: string)
    requires role in ROLE_KEYWORDS
    ensures DecodeVdevs([role] + rest, r) == DecodeVdevs(rest, role)
  {
    assert ([role] + rest)[1..] == rest;
  }

  // ----- One step of the emitter and of the meaning -----

  lemma {:induction false} RoleArgsStep(vdevs: seq<Vdev>, role: string, rest: seq<string>)
    requires vdevs != []
    ensures vdevs[0].role == role ==>
              RoleArgs(vdevs, role) + rest == VdevArgs(vdevs[0]) + (RoleArgs(vdevs[1..], role) + rest)
    ensures vdevs[0].role != role ==> RoleArgs(vdevs, role) + rest == RoleArgs(vdevs[1..], role) + rest
  {
    hide VdevArgs;
    var tail := RoleArgs(vdevs[1..], role);
    if vdevs[0].role == role {
      assert (VdevArgs(vdevs[0]) + tail) + rest == VdevArgs(vdevs[0]) + (tail + rest);
    } else {
      assert [] + tail == tail;
    }
  }

  lemma {:induction false} RoleMeaningStep(vdevs: seq<Vdev>, role: string, rest: seq<TopVdev>)
    requires vdevs != []
    ensures vdevs[0].role == role ==>
              RoleMeaning(vdevs, role) + rest == VdevMeaning(vdevs[0]) + (RoleMeaning(vdevs[1..], role) + rest)
    ensures vdevs[0].role != role ==> RoleMeaning(vdevs, role) + rest == RoleMeaning(vdevs[1..], role) + rest
  {
    hide VdevMeaning;
    var tail := RoleMeaning(vdevs[1..], role);
    if vdevs[0].role == role {
      assert (VdevMeaning(vdevs[0]) + tail) + rest == VdevMeaning(vdevs[0]) + (tail + rest);
    } else {
      assert [] + tail == tail;
    }
  }

  // ----- Auxiliary roles: every vdev starts with its keyword -----

  lemma {:induction false} AuxStartsWithKeyword(vdevs: seq<Vdev>, role: string, rest: seq<string>)
    requires role in ROLE_KEYWORDS && AtBoundary(rest)
    ensures AtBoundary(RoleArgs(vdevs, role) + rest)
    ensures RoleArgs(vdevs, role) != [] ==> RoleArgs(vdevs, role)[0] == role
  {
    if vdevs == [] {
      assert [] + rest == rest;
    } else {
      AuxStartsWithKeyword(vdevs[1..], role, rest);
      if vdevs[0].role != role {
        assert [] + RoleArgs(vdevs[1..], role) == RoleArgs(vdevs[1..], role);
      }
    }
  }

  /** The words decode to `tops` whatever role was current, or are nothing at all. */
  ghost predicate DecodesTo(words: seq<string>, tops: seq<TopVdev>) {
    AtBoundary(words) && forall r :: DecodeVdevs(words, r) == tops
  }

  lemma {:induction false} AuxVdevDecode(v: Vdev, tail: seq<string>, tops: seq<TopVdev>, r: string)
    requires Plain(v) && v.role in ROLE_KEYWORDS && DecodesTo(tail, tops)
    ensures DecodeVdevs(VdevArgs(v) + tail, r) == VdevMeaning(v) + tops
  {
    hide DecodeVdevs, VdevArgs, VdevMeaning, Plain, Body, RoleArgs;
    BodyDecode(v, tail);
    RoleKeywordDecode(v.role, Body(v) + tail, r);
    AuxVdevArgs(v);
    assert DecodeVdevs(tail, v.role) == tops;
    assert [v.role] + Body(v) + tail == [v.role] + (Body(v) + tail);
  }

  lemma {:induction false} AuxVdevArgs(v: Vdev)
    requires v.role in ROLE_KEYWORDS
    ensures VdevArgs(v) == [v.role] + Body(v)
  {
    assert v.role != DATA;
  }

  lemma {:induction false} AuxRoleDecode(vdevs: seq<Vdev>, role: string, rest: seq<string>, tops: seq<TopVdev>)
    requires role in ROLE_KEYWORDS && AllPlain(vdevs) && DecodesTo(rest, tops)
    ensures DecodesTo(RoleArgs(vdevs, role) + rest, RoleMeaning(vdevs, role) + tops)
  {
    AuxStartsWithKeyword(vdevs, role, rest);
    if vdevs == [] {
      assert [] + rest == rest && [] + tops == tops;
    } else {
      hide RoleArgs, RoleMeaning, VdevArgs, VdevMeaning, DecodeVdevs, Plain;
      AuxRoleDecode(vdevs[1..], role, rest, tops);
      RoleArgsStep(vdevs, role, rest);
      RoleMeaningStep(vdevs, role, tops);
      if vdevs[0].role == role {
        assert vdevs[0] in vdevs;
        var tail, later := RoleArgs(vdevs[1..], role) + rest, RoleMeaning(vdevs[1..], role) + tops;
        forall r
          ensures DecodeVdevs(VdevArgs(vdevs[0]) + tail, r) == VdevMeaning(vdevs[0]) + later
        {
          AuxVdevDecode(vdevs[0], tail, later, r);
        }
      }
    }
  }

  function AuxMeaning(vdevs: seq<Vdev>): seq<TopVdev> {
    RoleMeaning(vdevs, LOG) + (RoleMeaning(vdevs, CACHE) + (RoleMeaning(vdevs, SPARE) + RoleMeaning(vdevs, SPECIAL)))
  }

  lemma {:induction false} AuxDecode(vdevs: seq<Vdev>)
    requires AllPlain(vdevs)
    ensures DecodesTo(AuxArgs(vdevs), AuxMeaning(vdevs))
  {
    hide RoleArgs, RoleMeaning, Plain;
    AuxRoleDecode(vdevs, SPECIAL, [], []);
    assert RoleArgs(vdevs, SPECIAL) + [] == RoleArgs(vdevs, SPECIAL);
    assert RoleMeaning(vdevs, SPECIAL) + [] == RoleMeaning(vdevs, SPECIAL);
    AuxRoleDecode(vdevs, SPARE, RoleArgs(vdevs, SPECIAL), RoleMeaning(vdevs, SPECIAL));
    AuxRoleDecode(vdevs, CACHE, RoleArgs(vdevs, SPARE) + RoleArgs(vdevs, SPECIAL),
                  RoleMeaning(vdevs, SPARE) + RoleMeaning(vdevs, SPECIAL));
    AuxRoleDecode(vdevs, LOG, RoleArgs(vdevs, CACHE) + (RoleArgs(vdevs, SPARE) + RoleArgs(vdevs, SPECIAL)),
                  RoleMeaning(vdevs, CACHE) + (RoleMeaning(vdevs, SPARE) + RoleMeaning(vdevs, SPECIAL)));
  }

  // ----- Data vdevs: no keyword separates a stripe from what precedes it -----

  lemma {:induction false} StripesFirstTail(vdevs: seq<Vdev>)
    requires vdevs != [] && StripesFirst(vdevs)
    ensures StripesFirst(vdevs[1..])
    ensures vdevs[0].role == DATA && !IsStripe(vdevs[0]) ==> forall v | v in vdevs[1..] && v.role == DATA :: !IsStripe(v)
  {
    var t := vdevs[1..];
    forall i, j | 0 <= i < j < |t| && t[i].role == t[j].role == DATA && IsStripe(t[j])
      ensures IsStripe(t[i])
    {
      assert t[i] == vdevs[i + 1] && t[j] == vdevs[j + 1];
    }
  }

  /** Without stripes the data arguments are empty or start with a shape keyword. */
  lemma {:induction false} RedundantAtBoundary(vdevs: seq<Vdev>, rest: seq<string>)
    requires AllPlain(vdevs) && AtBoundary(rest)
    requires forall v | v in vdevs && v.role == DATA :: !IsStripe(v)
    ensures AtBoundary(RoleArgs(vdevs, DATA) + rest)
  {
    if vdevs == [] {
      assert [] + rest == rest;
    } else {
      RedundantAtBoundary(vdevs[1..], rest);
      assert vdevs[0] in vdevs;
      if vdevs[0].role == DATA {
        assert VdevArgs(vdevs[0])[0] == EffectiveType(vdevs[0]);
      } else {
        assert RoleArgs(vdevs, DATA) == RoleArgs(vdevs[1..], DATA);
      }
    }
  }

  /** What a data vdev is emitted as: a stripe just its devices, any other its shape first. */
  lemma {:induction false} DataVdevArgs(v: Vdev)
    requires v.role == DATA
    ensures VdevArgs(v) == Body(v) == if IsStripe(v) then v.devices else [EffectiveType(v)] + v.devices
  {
    assert [] + v.devices == v.devices;
  }

  lemma {:induction false} DataVdevDecode(v: Vdev, tail: seq<string>)
    requires Plain(v) && v.role == DATA && (IsStripe(v) || AtBoundary(tail))
    ensures DecodeVdevs(VdevArgs(v) + tail, DATA) == VdevMeaning(v) + DecodeVdevs(tail, DATA)
  {
    DataVdevArgs(v);
    if IsStripe(v) {
      DisksDecode(v.devices, tail, DATA);
    } else {
      BodyDecode(v, tail);
    }
  }

  /** With the stripes first, the data vdevs are read back exactly. */
  lemma {:induction false} DataDecode(vdevs: seq<Vdev>, rest: seq<string>)
    requires AllPlain(vdevs) && AtBoundary(rest) && StripesFirst(vdevs)
    ensures DecodeVdevs(RoleArgs(vdevs, DATA) + rest, DATA) == RoleMeaning(vdevs, DATA) + DecodeVdevs(rest, DATA)
  {
    if vdevs == [] {
      assert [] + rest == rest;
    } else {
      StripesFirstTail(vdevs);
      hide RoleArgs, RoleMeaning, VdevArgs, VdevMeaning, DecodeVdevs, Plain, StripesFirst, AtBoundary;
      var v, tail := vdevs[0], RoleArgs(vdevs[1..], DATA) + rest;
      assert v in vdevs;
      DataDecode(vdevs[1..], rest);
      RoleArgsStep(vdevs, DATA, rest);
      RoleMeaningStep(vdevs, DATA, DecodeVdevs(rest, DATA));
      if v.role == DATA {
        if !IsStripe(v) {
          RedundantAtBoundary(vdevs[1..], rest);
        }
        DataVdevDecode(v, tail);
      }
    }
  }

  /** Reading one bare device fewer loses exactly one top-level vdev. */
  lemma {:induction false} SkipDevices(words: seq<string>, m: nat, role: string)
    requires m <= DeviceRun(words)
    ensures |DecodeVdevs(words, role)| == m + |DecodeVdevs(words[m..], role)|
  {
    if m == 0 {
      assert words[0..] == words;
    } else {
      SkipDevices(words[1..], m - 1, role);
      assert words[1..][m - 1..] == words[m..];
    }
  }

  lemma {:induction false} DisksCount(role: string, devices: seq<string>)
    ensures |Disks(role, devices)| == |devices|
  {
    if devices != [] {
      DisksCount(role, devices[1..]);
    }
  }

  /** The first data vdev, if any, is a stripe, so that the data arguments start with a bare device. */
  predicate StripeNext(vdevs: seq<Vdev>)
  {
    vdevs != [] && if vdevs[0].role == DATA then IsStripe(vdevs[0]) else StripeNext(vdevs[1..])
  }

  lemma {:induction false} StripeNextRuns(vdevs: seq<Vdev>, rest: seq<string>)
    requires AllPlain(vdevs) && StripeNext(vdevs)
    ensures DeviceRun(RoleArgs(vdevs, DATA) + rest) > 0
  {
    assert vdevs[0] in vdevs;
    RoleArgsStep(vdevs, DATA, rest);
    if vdevs[0].role == DATA {
      DataVdevArgs(vdevs[0]);
      DeviceRunOver(vdevs[0].devices, RoleArgs(vdevs[1..], DATA) + rest);
    } else {
      StripeNextRuns(vdevs[1..], rest);
    }
  }

  /** A stripe somewhere among the data vdevs, with only stripes before it, makes the first one a stripe. */
  lemma {:induction false} StripeComesNext(vdevs: seq<Vdev>, j: nat)
    requires j < |vdevs| && vdevs[j].role == DATA && IsStripe(vdevs[j]) && StripesFirst(vdevs)
    ensures StripeNext(vdevs)
  {
    if vdevs[0].role != DATA {
      StripesFirstTail(vdevs);
      StripeComesNext(vdevs[1..], j - 1);
    }
  }

  /** If the tail has the stripes first but the whole has not, a stripe comes right after the head. */
  lemma {:induction false} FirstViolation(vdevs: seq<Vdev>)
    requires vdevs != [] && !StripesFirst(vdevs) && StripesFirst(vdevs[1..])
    ensures vdevs[0].role == DATA && !IsStripe(vdevs[0]) && StripeNext(vdevs[1..])
  {
    var i, j :| 0 <= i < j < |vdevs| && vdevs[i].role == vdevs[j].role == DATA && IsStripe(vdevs[j]) && !IsStripe(vdevs[i]);
    var t := vdevs[1..];
    assert forall p | 1 <= p < |vdevs| :: t[p - 1] == vdevs[p];
    assert i == 0;
    StripeComesNext(t, j - 1);
  }

  /** One data vdev: a redundant one swallows the bare devices that follow it. */
  lemma {:induction false} DataVdevCount(v: Vdev, tail: seq<string>)
    requires Plain(v) && v.role == DATA
    ensures |DecodeVdevs(VdevArgs(v) + tail, DATA)|
         == |VdevMeaning(v)| + |DecodeVdevs(tail, DATA)| - if IsStripe(v) then 0 else DeviceRun(tail)
  {
    DataVdevArgs(v);
    if IsStripe(v) {
      DisksDecode(v.devices, tail, DATA);
    } else {
      ShapeDecode(EffectiveType(v), v.devices, tail, DATA);
      SkipDevices(tail, DeviceRun(tail), DATA);
    }
  }

  /** The data vdevs never read back as more vdevs than they mean, and as fewer as soon as a stripe
    * follows a redundant vdev and is swallowed by it. */
  lemma {:induction false} DataDecodeCount(vdevs: seq<Vdev>, rest: seq<string>)
    requires AllPlain(vdevs)
    ensures |DecodeVdevs(RoleArgs(vdevs, DATA) + rest, DATA)| <= |RoleMeaning(vdevs, DATA)| + |DecodeVdevs(rest, DATA)|
    ensures !StripesFirst(vdevs) ==>
        |DecodeVdevs(RoleArgs(vdevs, DATA) + rest, DATA)| < |RoleMeaning(vdevs, DATA)| + |DecodeVdevs(rest, DATA)|
  {
    if vdevs == [] {
      assert [] + rest == rest;
    } else {
      hide RoleArgs, RoleMeaning, VdevArgs, VdevMeaning, DecodeVdevs, Plain, StripesFirst, StripeNext, DeviceRun;
      var v, tail := vdevs[0], RoleArgs(vdevs[1..], DATA) + rest;
      assert v in vdevs;
      DataDecodeCount(vdevs[1..], rest);
      RoleArgsStep(vdevs, DATA, rest);
      RoleMeaningStep(vdevs, DATA, []);
      assert RoleMeaning(vdevs, DATA) + [] == RoleMeaning(vdevs, DATA);
      assert RoleMeaning(vdevs[1..], DATA) + [] == RoleMeaning(vdevs[1..], DATA);
      if v.role == DATA {
        DataVdevCount(v, tail);
      }
      if !StripesFirst(vdevs) && StripesFirst(vdevs[1..]) {
        FirstViolation(vdevs);
        StripeNextRuns(vdevs[1..], rest);
      }
    }
  }

  /** A mirror of two followed by a stripe of one is run as a mirror of three. */
  lemma {:induction false} MirrorSwallowsStripe(a: string, b: string, c: string)
    requires !IsKeyword(a) && !IsKeyword(b) && !IsKeyword(c)
    ensures
      var vdevs := [Vdev(DATA, "mirror", [a, b]), Vdev(DATA, STRIPE, [c])];
      && DecodeVdevs(RoleArgs(vdevs, DATA), DATA) == [TopVdev(DATA, "mirror", [a, b, c])]
      && RoleMeaning(vdevs, DATA) == [TopVdev(DATA, "mirror", [a, b]), TopVdev(DATA, "disk", [c])]
  {
    hide IsKeyword, IsShape, VdevArgs;
    var v, w := Vdev(DATA, "mirror", [a, b]), Vdev(DATA, STRIPE, [c]);
    DataVdevArgs(v);
    DataVdevArgs(w);
    assert RoleArgs([w], DATA) == [c] + [] == [c];
    assert [v, w][1..] == [w] && [w][1..] == [];
    assert RoleArgs([v, w], DATA) == ["mirror"] + [a, b] + [c];
    ShapeDecode("mirror", [a, b], [c], DATA);
    assert DeviceRun([c]) == 1 && [c][..1] == [c] && [c][1..] == [];
    assert [a, b] + [c] == [a, b, c];
    assert Disks(DATA, [c]) == [TopVdev(DATA, "disk", [c])] + [];
    assert RoleMeaning([w], DATA) == Disks(DATA, [c]) + [];
  }

  /** The emitted layout reads back as what the spec means exactly when no stripe data vdev follows a
    * redundant data vdev. */
  lemma {:induction false} LayoutDecodesIff(vdevs: seq<Vdev>)
    requires AllPlain(vdevs)
    ensures DecodeVdevs(RoleArgs(vdevs, DATA) + AuxArgs(vdevs), DATA) == LayoutMeaning(vdevs) <==> StripesFirst(vdevs)
  {
    AuxDecode(vdevs);
    var aux := AuxArgs(vdevs);
    assert DecodeVdevs(aux, DATA) == AuxMeaning(vdevs);
    assert LayoutMeaning(vdevs) == RoleMeaning(vdevs, DATA) + AuxMeaning(vdevs);
    if StripesFirst(vdevs) {
      DataDecode(vdevs, aux);
    } else {
      DataDecodeCount(vdevs, aux);
    }
  }
}
