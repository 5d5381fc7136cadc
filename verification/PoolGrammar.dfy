/** What `zpool create` refuses in a layout, and exactly which emitted layouts it accepts.
  *
  * As in OpenZFS's construct_spec, `log`, `cache` and `spare` may be given once, only a mirror may be
  * grouped under `log`, `special` and `dedup`, every group has a minimum and raidz a maximum of devices,
  * and an operand that looks like an option is taken for one. */
module PoolGrammar {
  import opened Common
  import opened Text
  import opened PoolSpec
  import opened SortedKeys
  import opened PoolArgs
  import opened PoolDecode

  const ONCE: set<string> := {LOG, CACHE, SPARE}
  const MIRROR_ONLY: set<string> := {LOG, SPECIAL, "dedup"}

  /** The device counts a group may have. */
  predicate GroupSize(shape: string, n: nat) {
    && (if shape == "raidz2" then 3 else if shape == "raidz3" then 4 else 2) <= n
    && (shape == "mirror" || n <= 255)
  }

  /** What may directly follow a role keyword: at least one device for a list, a vdev for the log. */
  predicate MayFollow(role: string, words: seq<string>) {
    && (role in ONCE ==> words != [] && (!IsKeyword(words[0]) || (role == LOG && words[0] == "mirror")))
  }

  /** Layouts are read from the role in force and the once-only keywords already seen. Draid layouts,
    * which are never emitted, are refused. */
  predicate Accepted(words: seq<string>, role: string, seen: set<string>)
    decreases |words|
  {
    words == []
    || (!OptionLike(words[0])
        && if words[0] in ROLE_KEYWORDS then
             && (words[0] in ONCE ==> words[0] !in seen) && MayFollow(words[0], words[1..])
             && Accepted(words[1..], words[0], seen + {words[0]})
           else if IsShape(words[0]) then
             var n := DeviceRun(words[1..]);
             && !IsDraid(words[0]) && (role in MIRROR_ONLY ==> words[0] == "mirror") && GroupSize(words[0], n)
             && (forall d | d in words[1..1 + n] :: !OptionLike(d))
             && Accepted(words[1 + n..], RoleAfter(role), seen)
           else Accepted(words[1..], role, seen))
  }

  /** What zpool makes of the words after the pool name. */
  function ReadLayout(words: seq<string>): Option<seq<TopVdev>> {
    if words != [] && Accepted(words, DATA, {}) then Some(DecodeVdevs(words, DATA)) else None
  }

  // ----- Which layouts are grammatical -----

  predicate VdevOk(v: Vdev) {
    IsStripe(v)
    || ((v.role in MIRROR_ONLY ==> EffectiveType(v) == "mirror") && GroupSize(EffectiveType(v), |v.devices|))
  }

  predicate RoleOk(vdevs: seq<Vdev>, role: string) {
    forall v | v in vdevs && v.role == role :: VdevOk(v)
  }

  function CountRole(vdevs: seq<Vdev>, role: string): nat {
    if vdevs == [] then 0 else (if vdevs[0].role == role then 1 else 0) + CountRole(vdevs[1..], role)
  }

  /** Log and special vdevs are stripes or mirrors, no raidz is too wide, and there is at most one log,
    * one cache and one spare vdev. */
  predicate Grammatical(vdevs: seq<Vdev>) {
    (forall v | v in vdevs :: VdevOk(v)) && forall role | role in ONCE :: CountRole(vdevs, role) <= 1
  }

  // ----- Reading one vdev -----

  lemma {:induction false} AcceptedDevices(devices: seq<string>, rest: seq<string>, role: string, seen: set<string>)
    requires forall d | d in devices :: IsTame(d)
    ensures Accepted(devices + rest, role, seen) == Accepted(rest, role, seen)
  {
    if devices == [] {
      assert devices + rest == rest;
    } else {
      hide IsKeyword, OptionLike;
      assert (devices + rest)[0] in devices && (devices + rest)[1..] == devices[1..] + rest;
      TameWord(devices[0]);
      AcceptedDevices(devices[1..], rest, role, seen);
    }
  }

  lemma {:induction false} TameWord(w: string)
    requires IsTame(w)
    ensures w !in ROLE_KEYWORDS && !IsShape(w) && !OptionLike(w)
  {
  }

  lemma {:induction false} RoleWord(role: string)
    requires role in ROLE_KEYWORDS
    ensures !OptionLike(role) && IsKeyword(role)
  {
  }

  lemma {:induction false} AcceptedShape(shape: string, devices: seq<string>, rest: seq<string>, role: string, seen: set<string>)
    requires shape in SHAPE_KEYWORDS && (forall d | d in devices :: IsTame(d)) && AtBoundary(rest) && RoleAfter(role) == role
    ensures Accepted([shape] + devices + rest, role, seen)
            <==> (role in MIRROR_ONLY ==> shape == "mirror") && GroupSize(shape, |devices|) && Accepted(rest, role, seen)
  {
    ShapeWord(shape);
    DeviceRunOver(devices, rest);
    hide IsKeyword, IsShape, IsDraid, OptionLike, GroupSize;
    var words := [shape] + devices + rest;
    assert words[0] == shape && words[1..] == devices + rest;
    assert words[1..1 + |devices|] == devices && words[1 + |devices|..] == rest;
    forall d | d in devices
      ensures !OptionLike(d)
    {
      TameWord(d);
    }
  }

  lemma {:induction false} AcceptedBody(v: Vdev, rest: seq<string>, seen: set<string>)
    requires Plain(v) && (IsStripe(v) || AtBoundary(rest))
    ensures Accepted(Body(v) + rest, v.role, seen) <==> VdevOk(v) && Accepted(rest, v.role, seen)
  {
    hide Accepted, IsKeyword, OptionLike, GroupSize;
    if IsStripe(v) {
      assert [] + v.devices == v.devices;
      AcceptedDevices(v.devices, rest, v.role, seen);
    } else {
      AcceptedShape(EffectiveType(v), v.devices, rest, v.role, seen);
    }
  }

  // ----- Auxiliary roles -----

  /** Nothing follows, or a role keyword does. */
  predicate AtRole(words: seq<string>) {
    words != [] ==> words[0] in ROLE_KEYWORDS
  }

  lemma {:induction false} AtRoleAnyRole(words: seq<string>, role: string, other: string, seen: set<string>)
    requires AtRole(words)
    ensures Accepted(words, role, seen) == Accepted(words, other, seen)
  {
    hide OptionLike;
  }

  lemma {:induction false} BodyFollows(v: Vdev, rest: seq<string>)
    requires Plain(v)
    ensures VdevOk(v) ==> MayFollow(v.role, Body(v) + rest)
  {
    var words := Body(v) + rest;
    if IsStripe(v) {
      assert Body(v) == v.devices;
      assert words[0] == v.devices[0] && v.devices[0] in v.devices;
    } else {
      assert words[0] == EffectiveType(v);
    }
  }

  lemma {:induction false} AcceptedRoleWord(role: string, rest: seq<string>, r: string, seen: set<string>)
    requires role in ROLE_KEYWORDS
    ensures Accepted([role] + rest, r, seen)
            <==> (role in ONCE ==> role !in seen) && MayFollow(role, rest) && Accepted(rest, role, seen + {role})
  {
    RoleWord(role);
    hide OptionLike, IsKeyword, MayFollow;
    assert ([role] + rest)[1..] == rest;
  }

  lemma {:induction false} AuxVdevAccepted(v: Vdev, tail: seq<string>, r: string, seen: set<string>)
    requires Plain(v) && v.role in ROLE_KEYWORDS && AtRole(tail)
    ensures Accepted(VdevArgs(v) + tail, r, seen)
            <==> (v.role in ONCE ==> v.role !in seen) && VdevOk(v) && Accepted(tail, v.role, seen + {v.role})
  {
    RoleBoundary(tail);
    AuxVdevArgs(v);
    hide Accepted, IsKeyword, OptionLike, GroupSize, MayFollow, Body, VdevArgs, VdevOk, Plain;
    AcceptedBody(v, tail, seen + {v.role});
    AcceptedRoleWord(v.role, Body(v) + tail, r, seen);
    BodyFollows(v, tail);
    assert [v.role] + Body(v) + tail == [v.role] + (Body(v) + tail);
  }

  lemma {:induction false} RoleBoundary(words: seq<string>)
    requires AtRole(words)
    ensures AtBoundary(words)
  {
  }

  lemma {:induction false} RoleArgsAtRole(vdevs: seq<Vdev>, role: string, rest: seq<string>)
    requires role in ROLE_KEYWORDS && AtRole(rest)
    ensures AtRole(RoleArgs(vdevs, role) + rest)
  {
    if vdevs == [] {
      assert [] + rest == rest;
    } else {
      RoleArgsAtRole(vdevs[1..], role, rest);
      RoleArgsStep(vdevs, role, rest);
      if vdevs[0].role == role {
        AuxVdevArgs(vdevs[0]);
      }
    }
  }

  /** The once-only keywords seen after the vdevs of a role. */
  function SeenWith(vdevs: seq<Vdev>, role: string, seen: set<string>): set<string> {
    if CountRole(vdevs, role) > 0 then seen + {role} else seen
  }

  /** The role's keyword does not come twice. */
  predicate OnceOnly(vdevs: seq<Vdev>, role: string, seen: set<string>) {
    role in ONCE ==> CountRole(vdevs, role) == 0 || (CountRole(vdevs, role) == 1 && role !in seen)
  }

  lemma {:induction false} RoleOkStep(vdevs: seq<Vdev>, role: string)
    requires vdevs != []
    ensures RoleOk(vdevs, role) <==> (vdevs[0].role == role ==> VdevOk(vdevs[0])) && RoleOk(vdevs[1..], role)
  {
    hide VdevOk;
    assert vdevs == [vdevs[0]] + vdevs[1..];
  }

  lemma {:induction false} AuxRoleAccepted(vdevs: seq<Vdev>, role: string, rest: seq<string>, r: string, seen: set<string>)
    requires role in ROLE_KEYWORDS && AllPlain(vdevs) && AtRole(rest)
    ensures Accepted(RoleArgs(vdevs, role) + rest, r, seen)
            <==> RoleOk(vdevs, role) && OnceOnly(vdevs, role, seen) && Accepted(rest, DATA, SeenWith(vdevs, role, seen))
  {
    AtRoleAnyRole(rest, r, DATA, seen);
    if vdevs == [] {
      assert [] + rest == rest;
    } else {
      hide Accepted, RoleArgs, VdevArgs, VdevOk, Plain, RoleOk, ROLE_KEYWORDS, AtRole;
      var tail := RoleArgs(vdevs[1..], role) + rest;
      RoleArgsStep(vdevs, role, rest);
      RoleOkStep(vdevs, role);
      RoleArgsAtRole(vdevs[1..], role, rest);
      if vdevs[0].role == role {
        assert vdevs[0] in vdevs;
        AuxVdevAccepted(vdevs[0], tail, r, seen);
        AuxRoleAccepted(vdevs[1..], role, rest, role, seen + {role});
        assert seen + {role} + {role} == seen + {role};
      } else {
        AuxRoleAccepted(vdevs[1..], role, rest, r, seen);
      }
    }
  }

  lemma {:induction false} AuxAccepted(vdevs: seq<Vdev>, r: string)
    requires AllPlain(vdevs)
    ensures Accepted(AuxArgs(vdevs), r, {})
            <==> && RoleOk(vdevs, LOG) && RoleOk(vdevs, CACHE) && RoleOk(vdevs, SPARE) && RoleOk(vdevs, SPECIAL)
                 && CountRole(vdevs, LOG) <= 1 && CountRole(vdevs, CACHE) <= 1 && CountRole(vdevs, SPARE) <= 1
    ensures AtRole(AuxArgs(vdevs))
  {
    hide Accepted, RoleArgs, RoleOk, CountRole, AllPlain;
    var none: seq<string> := [];
    var special := RoleArgs(vdevs, SPECIAL);
    var spare := RoleArgs(vdevs, SPARE) + special;
    var cache := RoleArgs(vdevs, CACHE) + spare;
    assert special + none == special;
    RoleArgsAtRole(vdevs, SPECIAL, none);
    RoleArgsAtRole(vdevs, SPARE, special);
    RoleArgsAtRole(vdevs, CACHE, spare);
    RoleArgsAtRole(vdevs, LOG, cache);
    var afterLog := SeenWith(vdevs, LOG, {});
    var afterCache := SeenWith(vdevs, CACHE, afterLog);
    var afterSpare := SeenWith(vdevs, SPARE, afterCache);
    AuxRoleAccepted(vdevs, LOG, cache, r, {});
    AuxRoleAccepted(vdevs, CACHE, spare, DATA, afterLog);
    AuxRoleAccepted(vdevs, SPARE, special, DATA, afterCache);
    AuxRoleAccepted(vdevs, SPECIAL, none, DATA, afterSpare);
    NothingLeft(SeenWith(vdevs, SPECIAL, afterSpare));
  }

  lemma {:induction false} NothingLeft(seen: set<string>)
    ensures Accepted([], DATA, seen)
  {
  }

  // ----- Data -----

  lemma {:induction false} DataAccepted(vdevs: seq<Vdev>, rest: seq<string>)
    requires AllPlain(vdevs) && StripesFirst(vdevs) && AtBoundary(rest)
    ensures Accepted(RoleArgs(vdevs, DATA) + rest, DATA, {}) <==> RoleOk(vdevs, DATA) && Accepted(rest, DATA, {})
  {
    if vdevs == [] {
      assert [] + rest == rest;
    } else {
      StripesFirstTail(vdevs);
      hide Accepted, RoleArgs, VdevArgs, VdevOk, Plain, RoleOk, StripesFirst, AtBoundary, Body;
      var v, tail := vdevs[0], RoleArgs(vdevs[1..], DATA) + rest;
      RoleArgsStep(vdevs, DATA, rest);
      RoleOkStep(vdevs, DATA);
      DataAccepted(vdevs[1..], rest);
      if v.role == DATA {
        assert v in vdevs;
        if !IsStripe(v) {
          RedundantAtBoundary(vdevs[1..], rest);
        }
        DataVdevArgs(v);
        AcceptedBody(v, tail, {});
      }
    }
  }

  lemma {:induction false} GrammaticalByRole(vdevs: seq<Vdev>)
    requires AllPlain(vdevs)
    ensures Grammatical(vdevs)
            <==> && RoleOk(vdevs, DATA) && RoleOk(vdevs, LOG) && RoleOk(vdevs, CACHE) && RoleOk(vdevs, SPARE)
                 && RoleOk(vdevs, SPECIAL)
                 && CountRole(vdevs, LOG) <= 1 && CountRole(vdevs, CACHE) <= 1 && CountRole(vdevs, SPARE) <= 1
  {
    hide VdevOk, CountRole;
    forall v | v in vdevs
      ensures v.role in {DATA, LOG, CACHE, SPARE, SPECIAL}
    {
      assert Plain(v);
    }
  }

  lemma {:induction false} LayoutNotEmpty(vdevs: seq<Vdev>, rest: seq<string>)
    requires AllPlain(vdevs) && HasData(vdevs)
    ensures RoleArgs(vdevs, DATA) + rest != []
  {
    var v :| v in vdevs && v.role == DATA;
    RoleArgsStep(vdevs, DATA, rest);
    if vdevs[0].role == DATA {
      assert Plain(vdevs[0]);
      DataVdevArgs(vdevs[0]);
    } else {
      assert v in vdevs[1..];
      LayoutNotEmpty(vdevs[1..], rest);
    }
  }

  /** The emitted layout is read as what the spec means exactly when no stripe data vdev follows a
    * redundant one and the layout is grammatical. */
  lemma {:induction false} LayoutReadsIff(vdevs: seq<Vdev>)
    requires AllPlain(vdevs) && HasData(vdevs)
    ensures ReadLayout(RoleArgs(vdevs, DATA) + AuxArgs(vdevs)) == Some(LayoutMeaning(vdevs))
            <==> StripesFirst(vdevs) && Grammatical(vdevs)
  {
    LayoutDecodesIff(vdevs);
    hide Accepted, RoleArgs, AuxArgs, DecodeVdevs, StripesFirst, Grammatical, AllPlain, LayoutMeaning, RoleOk, CountRole;
    var aux := AuxArgs(vdevs);
    LayoutNotEmpty(vdevs, aux);
    GrammaticalByRole(vdevs);
    AuxAccepted(vdevs, DATA);
    RoleBoundary(aux);
    if StripesFirst(vdevs) {
      DataAccepted(vdevs, aux);
    }
  }

  // ----- Refused layouts -----

  /** Two log vdevs pass the validator, but the second `log` word is refused. */
  lemma {:induction false} TwoLogsRefused(disk: string, a: string, b: string)
    requires IsTame(disk) && IsTame(a) && IsTame(b)
    ensures ReadLayout([disk, LOG, a, LOG, b]) == None
    ensures
      var vdevs := [Vdev(DATA, STRIPE, [disk]), Vdev(LOG, STRIPE, [a]), Vdev(LOG, STRIPE, [b])];
      StripesFirst(vdevs) && !Grammatical(vdevs)
  {
    var words := [disk, LOG, a, LOG, b];
    assert words == [disk] + [LOG, a, LOG, b];
    assert [LOG, a, LOG, b] == [LOG] + [a, LOG, b] && [a, LOG, b] == [a] + [LOG, b] && [LOG, b] == [LOG] + [b];
    var vdevs := [Vdev(DATA, STRIPE, [disk]), Vdev(LOG, STRIPE, [a]), Vdev(LOG, STRIPE, [b])];
    assert vdevs[1..] == [vdevs[1], vdevs[2]] && [vdevs[1], vdevs[2]][1..] == [vdevs[2]] && [vdevs[2]][1..] == [];
    assert CountRole([vdevs[2]], LOG) == 1 && CountRole([vdevs[1], vdevs[2]], LOG) == 2;
    assert CountRole(vdevs, LOG) == 0 + CountRole(vdevs[1..], LOG);
    hide Accepted, IsKeyword, OptionLike;
    AcceptedDevices([disk], [LOG, a, LOG, b], DATA, {});
    AcceptedRoleWord(LOG, [a, LOG, b], DATA, {});
    AcceptedDevices([a], [LOG, b], LOG, {} + {LOG});
    AcceptedRoleWord(LOG, [b], LOG, {} + {LOG});
  }

  lemma {:induction false} RaidzRefused(v: Vdev)
    requires v.vtype in {"raidz1", "raidz2", "raidz3"} && (v.role in MIRROR_ONLY || |v.devices| > 255)
    ensures !VdevOk(v)
  {
  }
}
