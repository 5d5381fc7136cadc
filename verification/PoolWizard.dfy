/** From the creation request to the command that runs: the wizard's flat form, the explicit layout,
  * the confirmation gate and the preview. */
module PoolWizard {
  import opened Common
  import opened Text
  import opened PoolSpec
  import opened PoolArgs
  import opened PoolDecode
  import opened PoolGrammar
  import opened PoolCommand

  /** The request apart from its five flat device lists. */
  datatype Form = Form(
    name: string, vdevs: seq<Vdev>, dataType: string, logType: string, specialType: string,
    ashift: int, mountpoint: string, poolProps: map<string, string>, fsProps: map<string, string>,
    compression: string, atime: string, recordsize: string, autotrim: string,
    force: bool, confirm: string)

  datatype Lists = Lists(
    data: seq<string>, log: seq<string>, cache: seq<string>, spare: seq<string>, special: seq<string>)

  // ----- Device lists -----

  /** The devices trimmed, blank ones dropped. */
  function Trimmed(devices: seq<string>): (r: seq<string>)
    ensures forall d | d in r :: d != ""
  {
    if devices == [] then []
    else
      var d := TrimSpace(devices[|devices| - 1]);
      Trimmed(devices[..|devices| - 1]) + if d != "" then [d] else []
  }

  /** trimDeviceList compacts the list in place; the kept devices are its first `n` slots. */
  method TrimDeviceList(a: array<string>) returns (n: nat)
    modifies a
    ensures n <= a.Length && a[..n] == Trimmed(old(a[..]))
  {
    hide TrimSpace;
    n := 0;
    ghost var was := a[..];
    for i := 0 to a.Length
      invariant n <= i && a[..n] == Trimmed(was[..i])
      invariant a[i..] == was[i..]
    {
      assert was[..i + 1][..i] == was[..i] && a[i] == a[i..][0] == was[i];
      assert a[i + 1..] == a[i..][1..] && was[i + 1..] == was[i..][1..];
      var d := TrimSpace(a[i]);
      if d != "" {
        a[n] := d;
        n := n + 1;
      }
    }
    assert was[..a.Length] == was;
  }

  // ----- The spec -----

  function Default(vtype: string, fallback: string): string {
    if vtype == "" then fallback else vtype
  }

  function FlatVdev(role: string, vtype: string, devices: seq<string>): seq<Vdev> {
    if devices == [] then [] else [Vdev(role, vtype, Trimmed(devices))]
  }

  function FlatVdevs(f: Form, l: Lists): seq<Vdev> {
    FlatVdev(DATA, Default(f.dataType, STRIPE), l.data) + FlatVdev(LOG, Default(f.logType, STRIPE), l.log)
    + FlatVdev(CACHE, STRIPE, l.cache) + FlatVdev(SPARE, STRIPE, l.spare)
    + FlatVdev(SPECIAL, Default(f.specialType, "mirror"), l.special)
  }

  /** The convenience fields that are set. */
  function FsAliases(f: Form): map<string, string> {
    (if f.compression != "" then map["compression" := f.compression] else map[])
    + (if f.atime != "" then map["atime" := f.atime] else map[])
    + (if f.recordsize != "" then map["recordsize" := f.recordsize] else map[])
  }

  function PoolAliases(f: Form): map<string, string> {
    if f.autotrim != "" then map["autotrim" := f.autotrim] else map[]
  }

  /** The explicit maps win over the convenience fields, an explicit layout over the flat one. */
  function SpecOf(f: Form, l: Lists): Spec {
    Spec(
      TrimSpace(f.name), if f.vdevs != [] then f.vdevs else FlatVdevs(f, l), f.ashift, TrimSpace(f.mountpoint),
      PoolAliases(f) + f.poolProps, FsAliases(f) + f.fsProps, f.force)
  }

  method AddAlias(props: map<string, string>, key: string, value: string) returns (out: map<string, string>)
    ensures out == (if value != "" then map[key := value] else map[]) + props
  {
    out := props;
    if value != "" {
      if key !in props {
        out := out[key := value];
      }
    }
  }

  lemma {:induction false} AliasesFold(c: map<string, string>, a: map<string, string>, r: map<string, string>, p: map<string, string>)
    requires c.Keys !! a.Keys && c.Keys !! r.Keys && a.Keys !! r.Keys
    ensures r + (a + (c + p)) == c + a + r + p
  {
  }

  method FoldFsAliases(f: Form) returns (fs: map<string, string>)
    ensures fs == FsAliases(f) + f.fsProps
  {
    fs := AddAlias(f.fsProps, "compression", f.compression);
    fs := AddAlias(fs, "atime", f.atime);
    fs := AddAlias(fs, "recordsize", f.recordsize);
    AliasesFold(
      if f.compression != "" then map["compression" := f.compression] else map[],
      if f.atime != "" then map["atime" := f.atime] else map[],
      if f.recordsize != "" then map["recordsize" := f.recordsize] else map[], f.fsProps);
  }

  method AppendFlat(vdevs: seq<Vdev>, role: string, vtype: string, devices: array<string>) returns (out: seq<Vdev>)
    modifies devices
    ensures out == vdevs + FlatVdev(role, vtype, old(devices[..]))
  {
    out := vdevs;
    if devices.Length > 0 {
      var n := TrimDeviceList(devices);
      out := out + [Vdev(role, vtype, devices[..n])];
    }
  }

  method FlatLayout(f: Form, data: array<string>, log: array<string>, cache: array<string>, spare: array<string>,
                    special: array<string>) returns (vdevs: seq<Vdev>)
    requires data != log && data != cache && data != spare && data != special && log != cache && log != spare
    requires log != special && cache != spare && cache != special && spare != special
    modifies data, log, cache, spare, special
    ensures vdevs == FlatVdevs(f, old(Lists(data[..], log[..], cache[..], spare[..], special[..])))
  {
    hide FlatVdev;
    vdevs := AppendFlat([], DATA, if f.dataType == "" then STRIPE else f.dataType, data);
    vdevs := AppendFlat(vdevs, LOG, if f.logType == "" then STRIPE else f.logType, log);
    vdevs := AppendFlat(vdevs, CACHE, STRIPE, cache);
    vdevs := AppendFlat(vdevs, SPARE, STRIPE, spare);
    vdevs := AppendFlat(vdevs, SPECIAL, if f.specialType == "" then "mirror" else f.specialType, special);
  }

  /** toSpec. The five lists are the request's own slices and are compacted on the way. */
  method ToSpec(f: Form, data: array<string>, log: array<string>, cache: array<string>, spare: array<string>,
                special: array<string>) returns (spec: Spec)
    requires data != log && data != cache && data != spare && data != special && log != cache && log != spare
    requires log != special && cache != spare && cache != special && spare != special
    modifies data, log, cache, spare, special
    ensures spec == SpecOf(f, old(Lists(data[..], log[..], cache[..], spare[..], special[..])))
  {
    hide TrimSpace, FlatVdevs, FsAliases;
    spec := Spec(TrimSpace(f.name), [], f.ashift, TrimSpace(f.mountpoint), f.poolProps, f.fsProps, f.force);
    var fs := FoldFsAliases(f);
    var pool := AddAlias(spec.poolProps, "autotrim", f.autotrim);
    spec := spec.(fsProps := fs, poolProps := pool);
    if |f.vdevs| > 0 {
      spec := spec.(vdevs := f.vdevs);
    } else {
      var vdevs := FlatLayout(f, data, log, cache, spare, special);
      spec := spec.(vdevs := vdevs);
    }
  }

  /** Explicit properties and an explicit layout always win; a convenience field shows up exactly where nothing explicit does. */
  lemma {:induction false} ExplicitPropsWin(f: Form, l: Lists, k: string)
    ensures
      var s := SpecOf(f, l);
      var fsAlias := if k == "compression" then f.compression
                     else if k == "atime" then f.atime else if k == "recordsize" then f.recordsize else "";
      var poolAlias := if k == "autotrim" then f.autotrim else "";
      && (f.vdevs != [] ==> s.vdevs == f.vdevs)
      && (k in f.fsProps ==> k in s.fsProps && s.fsProps[k] == f.fsProps[k])
      && (k in f.poolProps ==> k in s.poolProps && s.poolProps[k] == f.poolProps[k])
      && (k !in f.fsProps ==> Lookup(s.fsProps, k) == if fsAlias != "" then Some(fsAlias) else None)
      && (k !in f.poolProps ==> Lookup(s.poolProps, k) == if poolAlias != "" then Some(poolAlias) else None)
  {
    hide TrimSpace, FlatVdevs, FsAliases, PoolAliases;
    AliasesAre(f, k);
  }

  lemma {:induction false} AliasesAre(f: Form, k: string)
    ensures
      var fsAlias := if k == "compression" then f.compression
                     else if k == "atime" then f.atime else if k == "recordsize" then f.recordsize else "";
      Lookup(FsAliases(f), k) == if fsAlias != "" then Some(fsAlias) else None
    ensures
      var poolAlias := if k == "autotrim" then f.autotrim else "";
      Lookup(PoolAliases(f), k) == if poolAlias != "" then Some(poolAlias) else None
  {
  }

  // ----- The flat form is always expressible -----

  lemma {:induction false} FlatRole(role: string, vtype: string, devices: seq<string>)
    ensures forall v | v in FlatVdev(role, vtype, devices) :: v.role == role
    ensures |FlatVdev(role, vtype, devices)| <= 1
  {
    hide Trimmed;
  }

  lemma {:induction false} OneDataVdev(data: seq<Vdev>, aux: seq<Vdev>)
    requires |data| <= 1 && forall v | v in aux :: v.role != DATA
    ensures StripesFirst(data + aux)
  {
    assert forall i | |data| <= i < |data + aux| :: (data + aux)[i] in aux;
  }

  /** At most one data vdev, and it comes first. */
  lemma {:induction false} FlatStripesFirst(f: Form, l: Lists)
    ensures StripesFirst(FlatVdevs(f, l))
  {
    hide FlatVdev, StripesFirst, Default;
    var data, log := FlatVdev(DATA, Default(f.dataType, STRIPE), l.data), FlatVdev(LOG, Default(f.logType, STRIPE), l.log);
    var cache, spare := FlatVdev(CACHE, STRIPE, l.cache), FlatVdev(SPARE, STRIPE, l.spare);
    var special := FlatVdev(SPECIAL, Default(f.specialType, "mirror"), l.special);
    FlatRole(DATA, Default(f.dataType, STRIPE), l.data);
    FlatRole(LOG, Default(f.logType, STRIPE), l.log);
    FlatRole(CACHE, STRIPE, l.cache);
    FlatRole(SPARE, STRIPE, l.spare);
    FlatRole(SPECIAL, Default(f.specialType, "mirror"), l.special);
    assert FlatVdevs(f, l) == data + (log + cache + spare + special);
    OneDataVdev(data, log + cache + spare + special);
  }

  lemma {:induction false} CountConcat(a: seq<Vdev>, b: seq<Vdev>, role: string)
    ensures CountRole(a + b, role) == CountRole(a, role) + CountRole(b, role)
  {
    if a == [] {
      assert a + b == b;
    } else {
      assert (a + b)[1..] == a[1..] + b;
      CountConcat(a[1..], b, role);
    }
  }

  lemma {:induction false} FlatCount(of: string, vtype: string, devices: seq<string>, role: string)
    ensures CountRole(FlatVdev(of, vtype, devices), role) <= if of == role then 1 else 0
  {
    hide Trimmed;
    assert devices != [] ==> FlatVdev(of, vtype, devices)[1..] == [];
  }

  /** The wizard makes at most one vdev of each role. */
  lemma {:induction false} FlatCountsOne(f: Form, l: Lists, role: string)
    ensures CountRole(FlatVdevs(f, l), role) <= 1
  {
    hide FlatVdev, CountRole, Default;
    var data, log := FlatVdev(DATA, Default(f.dataType, STRIPE), l.data), FlatVdev(LOG, Default(f.logType, STRIPE), l.log);
    var cache, spare := FlatVdev(CACHE, STRIPE, l.cache), FlatVdev(SPARE, STRIPE, l.spare);
    var special := FlatVdev(SPECIAL, Default(f.specialType, "mirror"), l.special);
    CountConcat(data, log, role);
    CountConcat(data + log, cache, role);
    CountConcat(data + log + cache, spare, role);
    CountConcat(data + log + cache + spare, special, role);
    FlatCount(DATA, Default(f.dataType, STRIPE), l.data, role);
    FlatCount(LOG, Default(f.logType, STRIPE), l.log, role);
    FlatCount(CACHE, STRIPE, l.cache, role);
    FlatCount(SPARE, STRIPE, l.spare, role);
    FlatCount(SPECIAL, Default(f.specialType, "mirror"), l.special, role);
  }

  /** A valid request built by the wizard runs exactly what it means if and only if its property keys are
    * clean, its devices are tame, and its log and special vdevs are stripes or mirrors and no raidz is
    * wider than 255: the order of stripes and the once-only keywords are never in the way. */
  lemma {:induction false} WizardCommandIff(f: Form, l: Lists)
    requires f.vdevs == [] && ValidSpec(SpecOf(f, l))
    ensures
      var s := SpecOf(f, l);
      ReadCommand(CreateArgs(s)) == Some(Wanted(s))
      <==> CleanKeys(WantedOptions(s)) && AshiftOnce(s) && TameDevices(s.vdevs) && forall v | v in s.vdevs :: VdevOk(v)
  {
    hide ValidSpec, CleanKeys, TameDevices, StripesFirst, CreateArgs, FlatVdevs, TrimSpace, ReadCommand, VdevOk, CountRole;
    FlatStripesFirst(f, l);
    forall role | role in ONCE
      ensures CountRole(FlatVdevs(f, l), role) <= 1
    {
      FlatCountsOne(f, l, role);
    }
    CommandReadsBackIff(SpecOf(f, l));
  }

  // ----- What is read back is what the form asks for -----

  /** The vdevs of a role, in order. */
  function Under(layout: seq<TopVdev>, role: string): seq<TopVdev> {
    if layout == [] then []
    else (if layout[0].role == role then [layout[0]] else []) + Under(layout[1..], role)
  }

  /** What a list of the form asks for under a role: nothing if it is empty, every device on its own for a
    * stripe, otherwise one vdev of that type over all of them. */
  function Asked(role: string, vtype: string, devices: seq<string>): seq<TopVdev> {
    var names := Trimmed(devices);
    if devices == [] then []
    else if vtype == "stripe" then seq(|names|, i requires 0 <= i < |names| => TopVdev(role, "disk", [names[i]]))
    else [TopVdev(role, vtype, names)]
  }

  lemma {:induction false} UnderConcat(a: seq<TopVdev>, b: seq<TopVdev>, role: string)
    ensures Under(a + b, role) == Under(a, role) + Under(b, role)
  {
    if a == [] {
      assert a + b == b;
    } else {
      assert (a + b)[1..] == a[1..] + b;
      UnderConcat(a[1..], b, role);
    }
  }

  lemma {:induction false} UnderOne(tops: seq<TopVdev>, of: string, role: string)
    requires forall t | t in tops :: t.role == of
    ensures Under(tops, role) == if of == role then tops else []
  {
    if tops != [] {
      assert tops[0] in tops && tops == [tops[0]] + tops[1..];
      UnderOne(tops[1..], of, role);
    }
  }

  lemma {:induction false} DisksAre(role: string, devices: seq<string>)
    ensures Disks(role, devices) == seq(|devices|, i requires 0 <= i < |devices| => TopVdev(role, "disk", [devices[i]]))
  {
    if devices != [] {
      DisksAre(role, devices[1..]);
    }
  }

  lemma {:induction false} RolesApart(vdevs: seq<Vdev>, role: string)
    ensures forall t | t in RoleMeaning(vdevs, role) :: t.role == role
  {
    if vdevs != [] {
      RolesApart(vdevs[1..], role);
      DisksAre(vdevs[0].role, vdevs[0].devices);
      hide Disks;
    }
  }

  lemma {:induction false} UnderMeaning(vdevs: seq<Vdev>, role: string)
    requires role in {DATA, LOG, CACHE, SPARE, SPECIAL}
    ensures Under(LayoutMeaning(vdevs), role) == RoleMeaning(vdevs, role)
  {
    hide RoleMeaning, Under;
    var data, log, cache := RoleMeaning(vdevs, DATA), RoleMeaning(vdevs, LOG), RoleMeaning(vdevs, CACHE);
    var spare, special := RoleMeaning(vdevs, SPARE), RoleMeaning(vdevs, SPECIAL);
    RolesApart(vdevs, DATA);
    RolesApart(vdevs, LOG);
    RolesApart(vdevs, CACHE);
    RolesApart(vdevs, SPARE);
    RolesApart(vdevs, SPECIAL);
    UnderOne(data, DATA, role);
    UnderOne(log, LOG, role);
    UnderOne(cache, CACHE, role);
    UnderOne(spare, SPARE, role);
    UnderOne(special, SPECIAL, role);
    UnderConcat(data, log + (cache + (spare + special)), role);
    UnderConcat(log, cache + (spare + special), role);
    UnderConcat(cache, spare + special, role);
    UnderConcat(spare, special, role);
  }

  lemma {:induction false} MeaningConcat(a: seq<Vdev>, b: seq<Vdev>, role: string)
    ensures RoleMeaning(a + b, role) == RoleMeaning(a, role) + RoleMeaning(b, role)
  {
    hide VdevMeaning;
    if a == [] {
      assert a + b == b;
    } else {
      assert (a + b)[1..] == a[1..] + b;
      MeaningConcat(a[1..], b, role);
    }
  }

  lemma {:induction false} FlatMeans(of: string, vtype: string, devices: seq<string>, role: string)
    requires vtype != ""
    ensures RoleMeaning(FlatVdev(of, vtype, devices), role) == if of == role then Asked(role, vtype, devices) else []
  {
    hide Trimmed;
    if devices != [] {
      var v := Vdev(of, vtype, Trimmed(devices));
      assert FlatVdev(of, vtype, devices) == [v] && [v][1..] == [];
      DisksAre(of, Trimmed(devices));
      hide Disks;
      assert RoleMeaning([v], role) == if of == role then VdevMeaning(v) else [];
    }
  }

  /** Whatever role is looked at, the flat layout means that role's list of the form. */
  lemma {:induction false} FlatLayoutMeans(f: Form, l: Lists, role: string)
    requires role in {DATA, LOG, CACHE, SPARE, SPECIAL}
    ensures
      RoleMeaning(FlatVdevs(f, l), role)
      == if role == "data" then Asked(role, if f.dataType == "" then "stripe" else f.dataType, l.data)
         else if role == "log" then Asked(role, if f.logType == "" then "stripe" else f.logType, l.log)
         else if role == "cache" then Asked(role, "stripe", l.cache)
         else if role == "spare" then Asked(role, "stripe", l.spare)
         else Asked(role, if f.specialType == "" then "mirror" else f.specialType, l.special)
  {
    hide FlatVdev, RoleMeaning, Asked;
    var data, log := FlatVdev(DATA, Default(f.dataType, STRIPE), l.data), FlatVdev(LOG, Default(f.logType, STRIPE), l.log);
    var cache, spare := FlatVdev(CACHE, STRIPE, l.cache), FlatVdev(SPARE, STRIPE, l.spare);
    var special := FlatVdev(SPECIAL, Default(f.specialType, "mirror"), l.special);
    FlatMeans(DATA, Default(f.dataType, STRIPE), l.data, role);
    FlatMeans(LOG, Default(f.logType, STRIPE), l.log, role);
    FlatMeans(CACHE, STRIPE, l.cache, role);
    FlatMeans(SPARE, STRIPE, l.spare, role);
    FlatMeans(SPECIAL, Default(f.specialType, "mirror"), l.special, role);
    MeaningConcat(data, log, role);
    MeaningConcat(data + log, cache, role);
    MeaningConcat(data + log + cache, spare, role);
    MeaningConcat(data + log + cache + spare, special, role);
  }

  /** What the form asks for, said of the command as it is read back. */
  ghost predicate Answers(c: Command, f: Form, l: Lists) {
    && c.name == TrimSpace(f.name) && c.options.force == f.force
    && c.options.mountpoint == (if TrimSpace(f.mountpoint) == "" then None else Some(TrimSpace(f.mountpoint)))
    && (f.ashift > 0 ==> Lookup(c.options.poolProps, "ashift") == Some(Itoa(f.ashift)))
    && (forall k | k in f.poolProps :: Lookup(c.options.poolProps, k) == Some(f.poolProps[k]))
    && (forall k | k in f.fsProps :: Lookup(c.options.fsProps, k) == Some(f.fsProps[k]))
    && Under(c.layout, "data") == Asked("data", if f.dataType == "" then "stripe" else f.dataType, l.data)
    && Under(c.layout, "log") == Asked("log", if f.logType == "" then "stripe" else f.logType, l.log)
    && Under(c.layout, "cache") == Asked("cache", "stripe", l.cache)
    && Under(c.layout, "spare") == Asked("spare", "stripe", l.spare)
    && Under(c.layout, "special") == Asked("special", if f.specialType == "" then "mirror" else f.specialType, l.special)
  }

  /** Under the conditions of the round trip, the command that runs is read back as what the form asks for:
    * its name, options and properties, and under each role the devices of that role's own list, trimmed,
    * without blanks and in order, in the requested shape. */
  lemma {:induction false} WizardAnswersForm(f: Form, l: Lists)
    requires f.vdevs == [] && ValidSpec(SpecOf(f, l))
    requires
      var s := SpecOf(f, l);
      CleanKeys(WantedOptions(s)) && AshiftOnce(s) && TameDevices(s.vdevs) && forall v | v in s.vdevs :: VdevOk(v)
    ensures
      var c := ReadCommand(CreateArgs(SpecOf(f, l)));
      c.Some? && Answers(c.value, f, l)
  {
    hide CleanKeys, TameDevices, VdevOk, CreateArgs, ReadCommand, FlatVdevs, TrimSpace, Asked, Under, LayoutMeaning, RoleMeaning,
         Itoa, ValidName, ValidVdev, AllDevices;
    WizardCommandIff(f, l);
    hide ValidSpec;
    forall role | role in {DATA, LOG, CACHE, SPARE, SPECIAL}
      ensures Under(LayoutMeaning(FlatVdevs(f, l)), role) == RoleMeaning(FlatVdevs(f, l), role)
    {
      UnderMeaning(FlatVdevs(f, l), role);
    }
    FlatLayoutMeans(f, l, DATA);
    FlatLayoutMeans(f, l, LOG);
    FlatLayoutMeans(f, l, CACHE);
    FlatLayoutMeans(f, l, SPARE);
    FlatLayoutMeans(f, l, SPECIAL);
  }

  /** The names kept of a list are its entries one by one, trimmed, without the blank ones. */
  lemma {:induction false} TrimmedConcat(a: seq<string>, b: seq<string>)
    ensures Trimmed(a + b) == Trimmed(a) + Trimmed(b)
    decreases |b|
  {
    hide TrimSpace;
    if b == [] {
      assert a + b == a;
    } else {
      TrimmedConcat(a, b[..|b| - 1]);
      assert (a + b)[..|a + b| - 1] == a + b[..|b| - 1];
    }
  }

  lemma {:induction false} TrimmedOne(device: string)
    ensures Trimmed([device]) == if TrimSpace(device) == "" then [] else [TrimSpace(device)]
  {
    hide TrimSpace;
    assert [device][..0] == [];
  }

  lemma {:induction false} AlreadyTrim(s: string)
    requires s != "" && !IsSpace(s[0]) && !IsSpace(s[|s| - 1])
    ensures TrimSpace(s) == s
  {
  }

  const TANK := "tank"
  const SDA := "/dev/sda"
  const SDB := "/dev/sdb"

  /** No reserved pool name has the length of the example's. */
  lemma {:induction false} NotReserved(name: string)
    requires |name| == 4
    ensures name !in RESERVED_NAMES
  {
  }

  lemma {:induction false} ExampleName()
    ensures TrimSpace(TANK) == TANK && ValidName(TANK)
  {
    AlreadyTrim(TANK);
    NotReserved(ToLower(TANK));
    hide TrimSpace, ToLower;
    assert forall i | 0 <= i < 4 :: IsLetter(TANK[i]);
  }

  lemma {:induction false} PathIsTame(w: string)
    requires w != "" && w[0] == '/'
    ensures IsTame(w)
  {
    assert forall k | k in ROLE_KEYWORDS || k in SHAPE_KEYWORDS :: k[0] != '/';
    assert "draid"[0] != '/';
  }

  lemma {:induction false} VisibleIsDevice(d: string)
    requires d != "" && forall i | 0 <= i < |d| :: '!' <= d[i] <= '~'
    ensures TrimSpace(d) == d && ValidDevice(d)
  {
    AlreadyTrim(d);
    hide TrimSpace;
  }

  lemma {:induction false} TrimmedPair(a: string, b: string)
    requires TrimSpace(a) == a && TrimSpace(b) == b && a != "" && b != ""
    ensures Trimmed([a, b]) == [a, b]
  {
    hide TrimSpace;
    assert [a, b][..1] == [a] && [a][..0] == [];
    assert Trimmed([a]) == [] + [a];
  }

  lemma {:induction false} ExampleDevices()
    ensures TrimSpace(SDA) == SDA && TrimSpace(SDB) == SDB && Trimmed([SDA, SDB]) == [SDA, SDB]
    ensures ValidDevice(SDA) && ValidDevice(SDB) && SDA != SDB && IsTame(SDA) && IsTame(SDB)
  {
    hide TrimSpace, ValidDevice, IsTame, Trimmed;
    assert SDA[7] == 'a' && SDB[7] == 'b' && SDA[0] == SDB[0] == '/';
    VisibleIsDevice(SDA);
    VisibleIsDevice(SDB);
    PathIsTame(SDA);
    PathIsTame(SDB);
    TrimmedPair(SDA, SDB);
  }

  /** The conditions of the round trip can be met: two disks mirrored into a pool called tank. */
  lemma {:induction false} ExampleRequest() returns (f: Form, l: Lists)
    ensures f.vdevs == [] && ValidSpec(SpecOf(f, l)) && CleanKeys(WantedOptions(SpecOf(f, l))) && AshiftOnce(SpecOf(f, l))
    ensures TameDevices(SpecOf(f, l).vdevs) && |SpecOf(f, l).vdevs| == 1
    ensures ReadCommand(CreateArgs(SpecOf(f, l))) == Some(Wanted(SpecOf(f, l)))
  {
    hide TrimSpace, Trimmed, ValidName, ValidDevice, IsTame, CreateArgs, ReadCommand, ValidVdev, HasData, Distinct, AllDevices,
         TANK, SDA, SDB, Wanted;
    f := Form(TANK, [], "mirror", "", "", 12, "", map[], map[], "lz4", "", "", "on", false, "");
    l := Lists([SDA, SDB], [], [], [], []);
    ExampleName();
    ExampleDevices();
    var v := Vdev(DATA, "mirror", [SDA, SDB]);
    assert FlatVdevs(f, l) == [v];
    ExampleLayout(v);
    assert TrimSpace("") == "" by {
      EmptyTrims();
    }
    WizardCommandIff(f, l);
  }

  lemma {:induction false} EmptyTrims()
    ensures TrimSpace("") == ""
  {
  }

  lemma {:induction false} MirrorValid(a: string, b: string)
    requires ValidDevice(a) && ValidDevice(b)
    ensures ValidVdev(Vdev(DATA, "mirror", [a, b]))
  {
    hide ValidDevice;
  }

  lemma {:induction false} PairDistinct(v: Vdev, a: string, b: string)
    requires v.devices == [a, b] && TrimSpace(a) == a && TrimSpace(b) == b && a != b
    ensures Distinct(AllDevices([v]))
  {
    hide TrimSpace;
    assert [v][..0] == [] && AllDevices([]) == [];
    assert TrimAll(v.devices) == [a, b];
    assert AllDevices([v]) == [] + [a, b] == [a, b];
  }

  lemma {:induction false} ExampleLayout(v: Vdev)
    requires v == Vdev(DATA, "mirror", [SDA, SDB])
    requires TrimSpace(SDA) == SDA && TrimSpace(SDB) == SDB && SDA != SDB && ValidDevice(SDA) && ValidDevice(SDB)
    ensures ValidVdev(v) && HasData([v]) && Distinct(AllDevices([v]))
  {
    hide *;
    MirrorValid(SDA, SDB);
    PairDistinct(v, SDA, SDB);
    DataAlone(v);
  }

  lemma {:induction false} DataAlone(v: Vdev)
    requires v.role == DATA
    ensures HasData([v])
  {
    assert v in [v];
  }

  lemma {:induction false} BlanksTrimAway(devices: seq<string>)
    requires forall d | d in devices :: TrimSpace(d) == ""
    ensures Trimmed(devices) == []
  {
    if devices != [] {
      BlanksTrimAway(devices[..|devices| - 1]);
    }
  }

  lemma {:induction false} LogVdevKept(f: Form, l: Lists)
    requires l.log != []
    ensures Vdev(LOG, Default(f.logType, STRIPE), Trimmed(l.log)) in FlatVdevs(f, l)
  {
    hide Trimmed;
    assert Vdev(LOG, Default(f.logType, STRIPE), Trimmed(l.log)) in FlatVdev(LOG, Default(f.logType, STRIPE), l.log);
    hide FlatVdev;
  }

  lemma {:induction false} EmptyVdevRefused(s: Spec, v: Vdev)
    requires v in s.vdevs && v.devices == []
    ensures !ValidSpec(s)
  {
    hide ValidName, AllDevices, EffectiveType;
    assert !ValidVdev(v);
  }

  /** An unset slot inside a list is forgiven, but a list of nothing else leaves an empty vdev behind
    * and the request is refused. */
  lemma {:induction false} AllBlankListRefused(f: Form, l: Lists)
    requires f.vdevs == [] && l.log != [] && forall d | d in l.log :: TrimSpace(d) == ""
    ensures !ValidSpec(SpecOf(f, l))
  {
    BlanksTrimAway(l.log);
    LogVdevKept(f, l);
    hide FlatVdevs, TrimSpace, Trimmed, ValidSpec, Default;
    EmptyVdevRefused(SpecOf(f, l), Vdev(LOG, Default(f.logType, STRIPE), []));
  }

  // ----- The handler -----

  datatype Reply = Refused(error: SpecError) | NeedsConfirm | Preview(command: string) | Execute(args: seq<string>)

  /** handleCreatePool up to the execution: nothing invalid and nothing forced without its
    * confirmation is previewed or run, and a preview shows the argv that would run. */
  method HandleCreate(spec: Spec, confirm: string, preview: bool, zpoolPath: string) returns (reply: Reply)
    ensures reply.Refused? <==> !ValidSpec(spec)
    ensures reply.NeedsConfirm? <==> ValidSpec(spec) && spec.force && confirm != spec.name
    ensures reply.Preview? ==>
        preview && reply.command == Join([if zpoolPath == "" then "zpool" else zpoolPath] + CreateArgs(spec), " ")
    ensures reply.Execute? ==> !preview && reply.args == CreateArgs(spec)
  {
    hide ValidSpec, CreateArgs, Join;
    var err := ValidatePoolSpec(spec);
    if err.Some? {
      return Refused(err.value);
    }
    if spec.force && confirm != spec.name {
      return NeedsConfirm;
    }
    if preview {
      var command := BuildCreatePoolCommand(zpoolPath, spec);
      return Preview(command);
    }
    var args := BuildCreatePoolArgs(spec);
    return Execute(args);
  }
}
