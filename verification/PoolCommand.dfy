/** The whole `zpool create` command line read back: options, pool name and layout.
  *
  * The option reader knows the forms the emitter uses: options come before the pool name, `-o` sets a
  * pool property (ashift among them), `-O` a file-system property, no property may be set twice. */
module PoolCommand {
  import opened Common
  import opened Text
  import opened PoolSpec
  import opened SortedKeys
  import opened PoolArgs
  import opened PoolDecode
  import opened PoolGrammar

  datatype Options = Options(
    force: bool, poolProps: map<string, string>, fsProps: map<string, string>, mountpoint: Option<string>)

  const NO_OPTIONS := Options(false, map[], map[], None)

  datatype Command = Command(options: Options, name: string, layout: seq<TopVdev>)

  /** The part of an assignment before its first '='. */
  function KeyOf(word: string): string {
    word[..IndexOf(word, '=')]
  }

  function ValueOf(word: string): string
    requires '=' in word
  {
    word[IndexOf(word, '=') + 1..]
  }

  function SetPoolProp(o: Options, word: string): Option<Options> {
    if '=' !in word || KeyOf(word) in o.poolProps then None
    else Some(o.(poolProps := o.poolProps[KeyOf(word) := ValueOf(word)]))
  }

  function SetFsProp(o: Options, word: string): Option<Options> {
    if '=' !in word || KeyOf(word) in o.fsProps then None
    else Some(o.(fsProps := o.fsProps[KeyOf(word) := ValueOf(word)]))
  }

  /** An option that takes a value. */
  function SetOption(o: Options, flag: string, value: string): Option<Options> {
    if flag == "-o" then SetPoolProp(o, value)
    else if flag == "-O" then SetFsProp(o, value)
    else if flag == "-m" then Some(o.(mountpoint := Some(value)))
    else None
  }

  /** Reads options up to the first word that is none; the pool name and layout are left over. */
  function ReadOptions(words: seq<string>, o: Options): Option<(Options, seq<string>)>
    decreases |words|
  {
    if words == [] then None
    else if !HasPrefix(words[0], "-") then Some((o, words))
    else if words[0] == "-f" then ReadOptions(words[1..], o.(force := true))
    else if |words| == 1 then None
    else match SetOption(o, words[0], words[1])
      case None => None
      case Some(p) => ReadOptions(words[2..], p)
  }

  function ReadCommand(args: seq<string>): Option<Command> {
    if args == [] || args[0] != "create" then None
    else match ReadOptions(args[1..], NO_OPTIONS)
      case None => None
      case Some(r) =>
        if r.1 == [] then None
        else match ReadLayout(r.1[1..])
          case None => None
          case Some(layout) => Some(Command(r.0, r.1[0], layout))
  }

  // ----- What a spec asks for, and when argv can say it -----

  function WantedOptions(s: Spec): Options
    requires s.ashift >= 0
  {
    Options(
      s.force, if s.ashift > 0 then s.poolProps["ashift" := Itoa(s.ashift)] else s.poolProps, s.fsProps,
      if s.mountpoint != "" then Some(s.mountpoint) else None)
  }

  function Wanted(s: Spec): Command
    requires s.ashift >= 0
  {
    Command(WantedOptions(s), s.name, LayoutMeaning(s.vdevs))
  }

  predicate CleanKeys(o: Options) {
    (forall k | k in o.poolProps :: '=' !in k) && forall k | k in o.fsProps :: '=' !in k
  }

  /** The ashift is not given both on its own and among the pool properties. */
  predicate AshiftOnce(s: Spec) {
    !(s.ashift > 0 && "ashift" in s.poolProps)
  }

  /** No device is named like a keyword or an option. */
  predicate TameDevices(vdevs: seq<Vdev>) {
    forall v | v in vdevs :: forall d | d in v.devices :: IsTame(d)
  }

  // ----- Reading the option segments back -----

  lemma {:induction false} AssignmentReads(k: string, v: string)
    requires '=' !in k
    ensures '=' in Assignment(k, v) && KeyOf(Assignment(k, v)) == k && ValueOf(Assignment(k, v)) == v
  {
    IndexOfConcat(k, '=', v);
    var w := Assignment(k, v);
    assert w[|k|] == '=' && w[..|k|] == k && w[|k| + 1..] == v;
  }

  /** One option with a value is consumed. */
  lemma {:induction false} ReadValued(flag: string, value: string, rest: seq<string>, o: Options)
    requires HasPrefix(flag, "-") && flag != "-f"
    ensures ReadOptions([flag, value] + rest, o) ==
            match SetOption(o, flag, value) case None => None case Some(p) => ReadOptions(rest, p)
  {
    hide SetOption;
    var words := [flag, value] + rest;
    assert words[0] == flag && words[1] == value && words[2..] == rest;
  }

  /** The properties under `keys` added one after the other. */
  function PutAll(base: map<string, string>, keys: seq<string>, props: map<string, string>): map<string, string>
    requires forall k | k in keys :: k in props
    decreases keys
  {
    if keys == [] then base else PutAll(base[keys[0] := props[keys[0]]], keys[1..], props)
  }

  lemma {:induction false} PutAllIsUnion(base: map<string, string>, keys: seq<string>, props: map<string, string>)
    requires forall k | k in keys :: k in props
    ensures forall k :: k in PutAll(base, keys, props) <==> k in base || k in keys
    ensures forall k | k in PutAll(base, keys, props) :: PutAll(base, keys, props)[k] == if k in keys then props[k] else base[k]
    decreases keys
  {
    if keys != [] {
      assert keys == [keys[0]] + keys[1..];
      PutAllIsUnion(base[keys[0] := props[keys[0]]], keys[1..], props);
    }
  }

  predicate Fresh(base: map<string, string>, keys: seq<string>) {
    Distinct(keys) && forall k | k in keys :: k !in base && '=' !in k
  }

  lemma {:induction false} FreshTail(base: map<string, string>, keys: seq<string>, v: string)
    requires Fresh(base, keys) && keys != []
    ensures Fresh(base[keys[0] := v], keys[1..])
  {
  }

  lemma {:induction false} PoolPropsRead(keys: seq<string>, props: map<string, string>, rest: seq<string>, o: Options)
    requires (forall k | k in keys :: k in props) && Fresh(o.poolProps, keys)
    ensures ReadOptions(PropArgs("-o", keys, props) + rest, o)
         == ReadOptions(rest, o.(poolProps := PutAll(o.poolProps, keys, props)))
  {
    if keys == [] {
      assert [] + rest == rest;
    } else {
      var k, v := keys[0], props[keys[0]];
      var tail := PropArgs("-o", keys[1..], props) + rest;
      assert PropArgs("-o", keys, props) + rest == ["-o", Assignment(k, v)] + tail;
      AssignmentReads(k, v);
      hide Assignment, KeyOf, ValueOf, ReadOptions;
      ReadValued("-o", Assignment(k, v), tail, o);
      FreshTail(o.poolProps, keys, v);
      PoolPropsRead(keys[1..], props, rest, o.(poolProps := o.poolProps[k := v]));
    }
  }

  lemma {:induction false} FsPropsRead(keys: seq<string>, props: map<string, string>, rest: seq<string>, o: Options)
    requires (forall k | k in keys :: k in props) && Fresh(o.fsProps, keys)
    ensures ReadOptions(PropArgs("-O", keys, props) + rest, o)
         == ReadOptions(rest, o.(fsProps := PutAll(o.fsProps, keys, props)))
  {
    if keys == [] {
      assert [] + rest == rest;
    } else {
      var k, v := keys[0], props[keys[0]];
      var tail := PropArgs("-O", keys[1..], props) + rest;
      assert PropArgs("-O", keys, props) + rest == ["-O", Assignment(k, v)] + tail;
      AssignmentReads(k, v);
      hide Assignment, KeyOf, ValueOf, ReadOptions;
      ReadValued("-O", Assignment(k, v), tail, o);
      FreshTail(o.fsProps, keys, v);
      FsPropsRead(keys[1..], props, rest, o.(fsProps := o.fsProps[k := v]));
    }
  }

  lemma {:induction false} ForceRead(s: Spec, rest: seq<string>)
    ensures ReadOptions(ForceArgs(s) + rest, NO_OPTIONS) == ReadOptions(rest, NO_OPTIONS.(force := s.force))
  {
    if s.force {
      assert (["-f"] + rest)[1..] == rest;
    } else {
      assert [] + rest == rest;
    }
  }

  /** What an ashift of its own sets. */
  function AshiftProps(s: Spec): map<string, string>
    requires s.ashift >= 0
  {
    if s.ashift > 0 then map["ashift" := Itoa(s.ashift)] else map[]
  }

  lemma {:induction false} AshiftRead(s: Spec, rest: seq<string>, o: Options)
    requires s.ashift >= 0 && o.poolProps == map[]
    ensures ReadOptions(AshiftArgs(s) + rest, o) == ReadOptions(rest, o.(poolProps := AshiftProps(s)))
  {
    if s.ashift > 0 {
      var v := Itoa(s.ashift);
      AssignmentReads("ashift", v);
      hide Assignment, KeyOf, ValueOf, ReadOptions, Itoa;
      ReadValued("-o", Assignment("ashift", v), rest, o);
    } else {
      assert [] + rest == rest;
    }
  }

  /** A pool property that is already set is refused. */
  lemma {:induction false} PoolPropsClash(keys: seq<string>, props: map<string, string>, rest: seq<string>, o: Options, clash: string)
    requires (forall k | k in keys :: k in props && '=' !in k) && clash in keys && clash in o.poolProps
    ensures ReadOptions(PropArgs("-o", keys, props) + rest, o) == None
  {
    var k, v := keys[0], props[keys[0]];
    var tail := PropArgs("-o", keys[1..], props) + rest;
    assert PropArgs("-o", keys, props) + rest == ["-o", Assignment(k, v)] + tail;
    AssignmentReads(k, v);
    hide Assignment, KeyOf, ValueOf, ReadOptions;
    ReadValued("-o", Assignment(k, v), tail, o);
    if k !in o.poolProps {
      assert clash in keys[1..];
      PoolPropsClash(keys[1..], props, rest, o.(poolProps := o.poolProps[k := v]), clash);
    }
  }

  lemma {:induction false} MountRead(s: Spec, rest: seq<string>, o: Options)
    requires s.ashift >= 0 && o.mountpoint == None
    ensures ReadOptions(MountArgs(s) + rest, o) == ReadOptions(rest, o.(mountpoint := WantedOptions(s).mountpoint))
  {
    if s.mountpoint != "" {
      ReadValued("-m", s.mountpoint, rest, o);
    } else {
      assert [] + rest == rest;
    }
  }

  lemma {:induction false} KeysAreFresh(base: map<string, string>, props: map<string, string>)
    requires forall k | k in props :: '=' !in k && k !in base
    ensures Fresh(base, KeysInOrder(props.Keys))
    ensures PutAll(base, KeysInOrder(props.Keys), props) == base + props
  {
    var keys := KeysInOrder(props.Keys);
    forall i, j | 0 <= i < j < |keys|
      ensures keys[i] != keys[j]
    {
      LessIrreflexive(keys[i]);
    }
    PutAllIsUnion(base, keys, props);
  }

  lemma {:induction false} Regroup(a: seq<string>, b: seq<string>, c: seq<string>, d: seq<string>, e: seq<string>, f: seq<string>)
    ensures a + b + c + d + e + f == a + (b + (c + (d + (e + f))))
  {
  }

  /** Up to the ashift, the option segment reads the same for every spec. */
  lemma {:induction false} OptionsUpToAshift(s: Spec, rest: seq<string>)
    requires s.ashift >= 0
    ensures
      var pool := PropArgs("-o", KeysInOrder(s.poolProps.Keys), s.poolProps);
      var fs := PropArgs("-O", KeysInOrder(s.fsProps.Keys), s.fsProps);
      ReadOptions(OptionArgs(s) + rest, NO_OPTIONS)
      == ReadOptions(pool + (fs + (MountArgs(s) + rest)), NO_OPTIONS.(force := s.force, poolProps := AshiftProps(s)))
  {
    hide ReadOptions, PropArgs, ForceArgs, AshiftArgs, MountArgs, AshiftProps;
    var pool := PropArgs("-o", KeysInOrder(s.poolProps.Keys), s.poolProps);
    var fs := PropArgs("-O", KeysInOrder(s.fsProps.Keys), s.fsProps);
    Regroup(ForceArgs(s), AshiftArgs(s), pool, fs, MountArgs(s), rest);
    ForceRead(s, AshiftArgs(s) + (pool + (fs + (MountArgs(s) + rest))));
    AshiftRead(s, pool + (fs + (MountArgs(s) + rest)), NO_OPTIONS.(force := s.force));
  }

  lemma {:induction false} WantedProps(s: Spec)
    requires s.ashift >= 0 && CleanKeys(WantedOptions(s)) && AshiftOnce(s)
    ensures forall k | k in s.poolProps :: '=' !in k && k !in AshiftProps(s)
    ensures forall k | k in s.fsProps :: '=' !in k
    ensures AshiftProps(s) + s.poolProps == WantedOptions(s).poolProps
  {
    hide Itoa;
  }

  /** With clean keys and one ashift the option segment says exactly what the spec wants. */
  lemma {:induction false} OptionsRead(s: Spec, rest: seq<string>)
    requires s.ashift >= 0 && CleanKeys(WantedOptions(s)) && AshiftOnce(s)
    ensures ReadOptions(OptionArgs(s) + rest, NO_OPTIONS) == ReadOptions(rest, WantedOptions(s))
  {
    hide ReadOptions, PropArgs, PutAll, Fresh, OptionArgs, MountArgs, AshiftProps, KeysInOrder, CleanKeys, AshiftOnce, Itoa;
    WantedProps(s);
    var poolKeys, fsKeys := KeysInOrder(s.poolProps.Keys), KeysInOrder(s.fsProps.Keys);
    KeysAreFresh(AshiftProps(s), s.poolProps);
    KeysAreFresh(map[], s.fsProps);
    assert map[] + s.fsProps == s.fsProps;
    OptionsUpToAshift(s, rest);
    var o := NO_OPTIONS.(force := s.force, poolProps := AshiftProps(s));
    PoolPropsRead(poolKeys, s.poolProps, PropArgs("-O", fsKeys, s.fsProps) + (MountArgs(s) + rest), o);
    var q := o.(poolProps := WantedOptions(s).poolProps);
    FsPropsRead(fsKeys, s.fsProps, MountArgs(s) + rest, q);
    MountRead(s, rest, q.(fsProps := s.fsProps));
  }

  /** An ashift given both ways is refused. */
  lemma {:induction false} AshiftTwiceRefused(s: Spec, rest: seq<string>)
    requires s.ashift >= 0 && CleanKeys(WantedOptions(s)) && !AshiftOnce(s)
    ensures ReadOptions(OptionArgs(s) + rest, NO_OPTIONS) == None
  {
    hide ReadOptions, PropArgs, OptionArgs, MountArgs, Itoa;
    OptionsUpToAshift(s, rest);
    var fs := PropArgs("-O", KeysInOrder(s.fsProps.Keys), s.fsProps);
    PoolPropsClash(KeysInOrder(s.poolProps.Keys), s.poolProps, fs + (MountArgs(s) + rest),
                   NO_OPTIONS.(force := s.force, poolProps := AshiftProps(s)), "ashift");
  }

  // ----- What no command line can say -----

  lemma {:induction false} KeyHasNoEquals(word: string)
    ensures '=' !in KeyOf(word)
  {
  }

  lemma {:induction false} ReadKeysAreClean(words: seq<string>, o: Options)
    requires CleanKeys(o)
    ensures ReadOptions(words, o).Some? ==> CleanKeys(ReadOptions(words, o).value.0)
    decreases |words|
  {
    if words == [] || !HasPrefix(words[0], "-") {
    } else if words[0] == "-f" {
      ReadKeysAreClean(words[1..], o.(force := true));
    } else if |words| > 1 && SetOption(o, words[0], words[1]).Some? {
      KeyHasNoEquals(words[1]);
      ReadKeysAreClean(words[2..], SetOption(o, words[0], words[1]).value);
    }
  }

  predicate CleanLayout(tops: seq<TopVdev>) {
    forall t | t in tops :: forall d | d in t.devices :: IsTame(d)
  }

  lemma {:induction false} DeviceRunIsClean(words: seq<string>)
    ensures forall d | d in words[..DeviceRun(words)] :: !IsKeyword(d)
  {
    if words != [] && !IsKeyword(words[0]) {
      DeviceRunIsClean(words[1..]);
      assert words[..DeviceRun(words)] == [words[0]] + words[1..][..DeviceRun(words[1..])];
    }
  }

  /** Whatever is accepted names only tame devices. */
  lemma {:induction false} ReadLayoutIsClean(words: seq<string>, role: string, seen: set<string>)
    requires Accepted(words, role, seen)
    ensures CleanLayout(DecodeVdevs(words, role))
    decreases |words|
  {
    hide OptionLike, IsDraid, GroupSize, MayFollow;
    if words == [] {
    } else if words[0] in ROLE_KEYWORDS {
      ReadLayoutIsClean(words[1..], words[0], seen + {words[0]});
    } else if IsShape(words[0]) {
      var n := DeviceRun(words[1..]);
      DeviceRunIsClean(words[1..]);
      assert words[1..][..n] == words[1..1 + n];
      ReadLayoutIsClean(words[1 + n..], RoleAfter(role), seen);
    } else {
      ReadLayoutIsClean(words[1..], role, seen);
    }
  }

  lemma {:induction false} DisksMention(role: string, devices: seq<string>, d: string)
    requires d in devices
    ensures exists t :: t in Disks(role, devices) && d in t.devices
  {
    if d == devices[0] {
      assert Disks(role, devices)[0].devices == [d];
    } else {
      DisksMention(role, devices[1..], d);
      var t :| t in Disks(role, devices[1..]) && d in t.devices;
      assert t in Disks(role, devices);
    }
  }

  lemma {:induction false} MeaningMentions(vdevs: seq<Vdev>, v: Vdev, d: string)
    requires v in vdevs && d in v.devices
    ensures exists t :: t in RoleMeaning(vdevs, v.role) && d in t.devices
  {
    if v == vdevs[0] {
      if IsStripe(v) {
        DisksMention(v.role, v.devices, d);
        var t :| t in Disks(v.role, v.devices) && d in t.devices;
        assert t in RoleMeaning(vdevs, v.role);
      } else {
        assert RoleMeaning(vdevs, v.role)[0].devices == v.devices;
      }
    } else {
      MeaningMentions(vdevs[1..], v, d);
      var t :| t in RoleMeaning(vdevs[1..], v.role) && d in t.devices;
      assert t in RoleMeaning(vdevs, v.role);
    }
  }

  lemma {:induction false} CleanMeaning(vdevs: seq<Vdev>)
    requires forall v | v in vdevs :: ValidVdev(v)
    requires CleanLayout(LayoutMeaning(vdevs))
    ensures TameDevices(vdevs)
  {
    hide RoleMeaning, IsTame;
    forall v, d | v in vdevs && d in v.devices
      ensures IsTame(d)
    {
      MeaningMentions(vdevs, v, d);
      var t :| t in RoleMeaning(vdevs, v.role) && d in t.devices;
      assert v.role in {DATA, LOG, CACHE, SPARE, SPECIAL} by {
        assert ValidVdev(v);
      }
      assert t in LayoutMeaning(vdevs);
    }
  }

  lemma {:induction false} ValidIsPlain(vdevs: seq<Vdev>)
    requires (forall v | v in vdevs :: ValidVdev(v)) && TameDevices(vdevs)
    ensures AllPlain(vdevs)
  {
    forall v | v in vdevs
      ensures Plain(v)
    {
      assert ValidVdev(v);
    }
  }

  // ----- The round trip -----

  /** A validated name never looks like an option. */
  lemma {:induction false} NameIsNoOption(name: string)
    requires ValidName(name)
    ensures !HasPrefix(name, "-")
  {
    TrimKeepsFirst(name);
  }

  /** The option segment ends at the pool name. */
  lemma {:induction false} StopsAtName(s: Spec, o: Options)
    requires ValidName(s.name)
    ensures ReadOptions(LayoutArgs(s), o) == Some((o, LayoutArgs(s)))
  {
    NameIsNoOption(s.name);
    hide RoleArgs, AuxArgs, ValidName, HasPrefix;
    assert LayoutArgs(s)[0] == s.name;
  }

  lemma {:induction false} CommandRead(s: Spec)
    requires ValidSpec(s) && CleanKeys(WantedOptions(s)) && AshiftOnce(s)
    ensures
      var layout := ReadLayout(RoleArgs(s.vdevs, DATA) + AuxArgs(s.vdevs));
      ReadCommand(CreateArgs(s)) == if layout == None then None else Some(Command(WantedOptions(s), s.name, layout.value))
  {
    hide OptionArgs, RoleArgs, AuxArgs, ReadLayout, CleanKeys, ReadOptions, ReadCommand, ValidName, ValidVdev, AllDevices;
    var options, layout := OptionArgs(s), LayoutArgs(s);
    OptionsRead(s, layout);
    StopsAtName(s, WantedOptions(s));
    hide ValidSpec, WantedOptions;
    ReadsAs(options + layout, WantedOptions(s), layout);
    assert ["create"] + options + layout == ["create"] + (options + layout);
    assert layout[1..] == RoleArgs(s.vdevs, DATA) + AuxArgs(s.vdevs);
  }

  lemma {:induction false} AshiftTwiceNotRead(s: Spec)
    requires s.ashift >= 0 && CleanKeys(WantedOptions(s)) && !AshiftOnce(s)
    ensures ReadCommand(CreateArgs(s)) == None
  {
    hide OptionArgs, LayoutArgs, ReadOptions, CleanKeys, WantedOptions, AshiftOnce, ReadLayout;
    AshiftTwiceRefused(s, LayoutArgs(s));
    assert ["create"] + OptionArgs(s) + LayoutArgs(s) == ["create"] + (OptionArgs(s) + LayoutArgs(s));
    assert (["create"] + (OptionArgs(s) + LayoutArgs(s)))[1..] == OptionArgs(s) + LayoutArgs(s);
  }

  lemma {:induction false} ReadsAs(words: seq<string>, o: Options, rest: seq<string>)
    requires ReadOptions(words, NO_OPTIONS) == Some((o, rest)) && rest != []
    ensures
      var layout := ReadLayout(rest[1..]);
      ReadCommand(["create"] + words) == if layout == None then None else Some(Command(o, rest[0], layout.value))
  {
    hide ReadOptions, ReadLayout;
    assert (["create"] + words)[1..] == words;
  }

  lemma {:induction false} OnlyCleanLayouts(words: seq<string>)
    ensures ReadLayout(words).Some? ==> CleanLayout(ReadLayout(words).value)
  {
    hide Accepted, DecodeVdevs, CleanLayout;
    if ReadLayout(words).Some? {
      ReadLayoutIsClean(words, DATA, {});
    }
  }

  lemma {:induction false} OnlyCleanCommands(args: seq<string>)
    ensures ReadCommand(args).Some? ==>
              CleanKeys(ReadCommand(args).value.options) && CleanLayout(ReadCommand(args).value.layout)
  {
    hide ReadOptions, ReadLayout, CleanLayout;
    if ReadCommand(args).Some? {
      ReadKeysAreClean(args[1..], NO_OPTIONS);
      OnlyCleanLayouts(ReadOptions(args[1..], NO_OPTIONS).value.1[1..]);
    }
  }

  /** For every validated spec, the executed command line is read as what the spec wants exactly when
    * its property keys are free of '=', ashift is not given twice, no device is named like a keyword or an
    * option, no stripe data vdev follows a redundant one, and the layout is grammatical: at most one log,
    * cache and spare vdev, only stripes and mirrors under log and special, no raidz wider than 255. */
  lemma {:induction false} CommandReadsBackIff(s: Spec)
    requires ValidSpec(s)
    ensures ReadCommand(CreateArgs(s)) == Some(Wanted(s))
            <==> && CleanKeys(WantedOptions(s)) && AshiftOnce(s) && TameDevices(s.vdevs)
                 && StripesFirst(s.vdevs) && Grammatical(s.vdevs)
  {
    hide CreateArgs, ReadCommand, CleanKeys, AshiftOnce, WantedOptions, CleanLayout, LayoutMeaning, ReadLayout, AllPlain, StripesFirst, ValidVdev,
         TameDevices, RoleArgs, AuxArgs, Grammatical, HasData;
    if ReadCommand(CreateArgs(s)) == Some(Wanted(s)) {
      OnlyCleanCommands(CreateArgs(s));
      CleanMeaning(s.vdevs);
      if !AshiftOnce(s) {
        AshiftTwiceNotRead(s);
      }
    }
    if CleanKeys(WantedOptions(s)) && AshiftOnce(s) && TameDevices(s.vdevs) {
      CommandRead(s);
      ValidIsPlain(s.vdevs);
      LayoutReadsIff(s.vdevs);
    }
  }

  /** A device named like an option is never read back, although the validator lets it through. */
  lemma {:induction false} OptionNamedDeviceRefused(s: Spec, v: Vdev)
    requires ValidSpec(s) && v in s.vdevs && "-n" in v.devices
    ensures ReadCommand(CreateArgs(s)) != Some(Wanted(s))
  {
    assert OptionLike("-n");
    hide OptionLike, ValidSpec, CreateArgs, ReadCommand, CleanKeys, StripesFirst, Grammatical, IsKeyword;
    assert !IsTame("-n");
    CommandReadsBackIff(s);
  }

  /** Nor is a second log vdev. */
  lemma {:induction false} SecondLogNotRead(s: Spec)
    requires ValidSpec(s) && CountRole(s.vdevs, LOG) > 1
    ensures ReadCommand(CreateArgs(s)) != Some(Wanted(s))
  {
    hide OptionLike, ValidSpec, CreateArgs, ReadCommand, CleanKeys, StripesFirst, TameDevices, CountRole, VdevOk;
    assert LOG in ONCE;
    CommandReadsBackIff(s);
  }

  /** Nor is a raidz log or special vdev, or a raidz of more than 255 devices. */
  lemma {:induction false} RaidzNotRead(s: Spec, v: Vdev)
    requires ValidSpec(s) && v in s.vdevs
    requires v.vtype in {"raidz1", "raidz2", "raidz3"} && (v.role in {LOG, SPECIAL} || |v.devices| > 255)
    ensures ReadCommand(CreateArgs(s)) != Some(Wanted(s))
  {
    hide ValidSpec, CreateArgs, ReadCommand, CleanKeys, StripesFirst, TameDevices, CountRole, VdevOk;
    RaidzRefused(v);
    CommandReadsBackIff(s);
  }
}
