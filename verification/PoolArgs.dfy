/** The two renderings of a pool spec: the executed argv and the preview string. */
module PoolArgs {
  import opened Text
  import opened PoolSpec
  import opened SortedKeys

  function VdevArgs(v: Vdev): seq<string> {
    (if v.role != DATA then [v.role] else [])
    + (if IsStripe(v) then [] else [EffectiveType(v)])
    + v.devices
  }

  /** The arguments of every vdev of one role, in layout order. */
  function RoleArgs(vdevs: seq<Vdev>, role: string): seq<string> {
    if vdevs == [] then []
    else (if vdevs[0].role == role then VdevArgs(vdevs[0]) else []) + RoleArgs(vdevs[1..], role)
  }

  function AuxArgs(vdevs: seq<Vdev>): seq<string> {
    RoleArgs(vdevs, LOG) + (RoleArgs(vdevs, CACHE) + (RoleArgs(vdevs, SPARE) + RoleArgs(vdevs, SPECIAL)))
  }

  function Assignment(key: string, value: string): string {
    key + ['='] + value
  }

  function PropArgs(flag: string, keys: seq<string>, props: map<string, string>): seq<string>
    requires forall k | k in keys :: k in props
  {
    if keys == [] then []
    else [flag, Assignment(keys[0], props[keys[0]])] + PropArgs(flag, keys[1..], props)
  }

  function ForceArgs(s: Spec): seq<string> {
    if s.force then ["-f"] else []
  }

  function AshiftArgs(s: Spec): seq<string> {
    if s.ashift > 0 then ["-o", Assignment("ashift", Itoa(s.ashift))] else []
  }

  function MountArgs(s: Spec): seq<string> {
    if s.mountpoint != "" then ["-m", s.mountpoint] else []
  }

  /** The pool name and everything after it. */
  function LayoutArgs(s: Spec): seq<string> {
    [s.name] + (RoleArgs(s.vdevs, DATA) + AuxArgs(s.vdevs))
  }

  ghost function OptionArgs(s: Spec): seq<string> {
    ForceArgs(s) + AshiftArgs(s) + PropArgs("-o", KeysInOrder(s.poolProps.Keys), s.poolProps)
    + PropArgs("-O", KeysInOrder(s.fsProps.Keys), s.fsProps) + MountArgs(s)
  }

  /** The argv handed to zpool. */
  ghost function CreateArgs(s: Spec): seq<string> {
    ["create"] + OptionArgs(s) + LayoutArgs(s)
  }

  // ----- The builders -----

  method AppendVdev(args: seq<string>, v: Vdev) returns (out: seq<string>)
    ensures out == args + VdevArgs(v)
  {
    out := args;
    if v.role != DATA {
      out := out + [v.role];
    }
    var t := if v.vtype == "" then STRIPE else v.vtype;
    if t != STRIPE {
      out := out + [t];
    }
    out := out + v.devices;
  }

  method AppendVdevArgs(args: seq<string>, vdevs: seq<Vdev>, role: string) returns (out: seq<string>)
    ensures out == args + RoleArgs(vdevs, role)
  {
    hide VdevArgs;
    out := args;
    for i := 0 to |vdevs|
      invariant out + RoleArgs(vdevs[i..], role) == args + RoleArgs(vdevs, role)
    {
      var v := vdevs[i];
      assert vdevs[i..][1..] == vdevs[i + 1..];
      ghost var before, rest := out, RoleArgs(vdevs[i + 1..], role);
      if v.role != role {
        assert [] + rest == rest;
        continue;
      }
      out := AppendVdev(out, v);
      assert before + (VdevArgs(v) + rest) == out + rest;
    }
    assert out + [] == out;
  }

  method AppendProps(args: seq<string>, flag: string, props: map<string, string>) returns (out: seq<string>)
    ensures out == args + PropArgs(flag, KeysInOrder(props.Keys), props)
  {
    out := args;
    var keys := SortedKeys.SortedKeys(props);
    for i := 0 to |keys|
      invariant out + PropArgs(flag, keys[i..], props) == args + PropArgs(flag, keys, props)
    {
      assert keys[i..][1..] == keys[i + 1..];
      out := out + [flag, Assignment(keys[i], props[keys[i]])];
    }
    assert out + [] == out;
  }

  lemma {:induction false} AppendedInParts(a: seq<string>, b: seq<string>, c: seq<string>, d: seq<string>, e: seq<string>, f: seq<string>)
    ensures a + b + c + d + e + f == a + (b + c + d + e + f)
  {
  }

  method AppendOptions(args: seq<string>, s: Spec) returns (out: seq<string>)
    ensures out == args + OptionArgs(s)
  {
    hide PropArgs, KeysInOrder, Itoa, Assignment;
    out := args;
    if s.force {
      out := out + ["-f"];
    }
    assert out == args + ForceArgs(s);
    if s.ashift > 0 {
      out := out + ["-o", Assignment("ashift", Itoa(s.ashift))];
    }
    assert out == args + ForceArgs(s) + AshiftArgs(s);
    out := AppendProps(out, "-o", s.poolProps);
    out := AppendProps(out, "-O", s.fsProps);
    ghost var pool, fs := PropArgs("-o", KeysInOrder(s.poolProps.Keys), s.poolProps), PropArgs("-O", KeysInOrder(s.fsProps.Keys), s.fsProps);
    assert out == args + ForceArgs(s) + AshiftArgs(s) + pool + fs;
    if s.mountpoint != "" {
      out := out + ["-m", s.mountpoint];
    }
    AppendedInParts(args, ForceArgs(s), AshiftArgs(s), pool, fs, MountArgs(s));
  }

  method AppendLayout(args: seq<string>, s: Spec) returns (out: seq<string>)
    ensures out == args + LayoutArgs(s)
  {
    hide RoleArgs;
    out := args + [s.name];
    out := AppendVdevArgs(out, s.vdevs, DATA);
    out := AppendVdevArgs(out, s.vdevs, LOG);
    out := AppendVdevArgs(out, s.vdevs, CACHE);
    out := AppendVdevArgs(out, s.vdevs, SPARE);
    out := AppendVdevArgs(out, s.vdevs, SPECIAL);
  }

  method BuildCreatePoolArgs(s: Spec) returns (args: seq<string>)
    ensures args == CreateArgs(s)
  {
    hide OptionArgs, LayoutArgs;
    args := ["create"];
    args := AppendOptions(args, s);
    args := AppendLayout(args, s);
  }

  /** The preview is always the space-join of the binary and exactly the argv that will be executed. */
  method BuildCreatePoolCommand(zpoolPath: string, s: Spec) returns (command: string)
    ensures command == Join([if zpoolPath == "" then "zpool" else zpoolPath] + CreateArgs(s), " ")
  {
    hide OptionArgs, LayoutArgs, Join;
    var path := zpoolPath;
    if path == "" {
      path := "zpool";
    }
    var args := [path, "create"];
    args := AppendOptions(args, s);
    args := AppendLayout(args, s);
    assert [path, "create"] == [path] + ["create"];
    assert args == [path] + CreateArgs(s);
    command := Join(args, " ");
  }
}
