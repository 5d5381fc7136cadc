/** What the pool-creation wizard asks for, and the validator every creation passes through. */
module PoolSpec {
  import opened Common
  import opened Text

  const DATA := "data"
  const LOG := "log"
  const CACHE := "cache"
  const SPARE := "spare"
  const SPECIAL := "special"

  const STRIPE := "stripe"

  /** One vdev of a layout; role and type arrive as free text. */
  datatype Vdev = Vdev(role: string, vtype: string, devices: seq<string>)

  datatype Spec = Spec(
    name: string, vdevs: seq<Vdev>, ashift: int, mountpoint: string,
    poolProps: map<string, string>, fsProps: map<string, string>, force: bool)

  const RESERVED_NAMES: set<string> :=
    {"mirror", "raidz", "raidz1", "raidz2", "raidz3", "spare", "log", "cache", "special", "dedup", "draid"}

  const VALID_TYPES: set<string> := {STRIPE, "mirror", "raidz1", "raidz2", "raidz3"}

  function MinDevices(vtype: string): nat {
    if vtype == "mirror" then 2
    else if vtype == "raidz1" then 3
    else if vtype == "raidz2" then 4
    else if vtype == "raidz3" then 5
    else 1
  }

  /** An unset type means a stripe. */
  function EffectiveType(v: Vdev): string {
    if v.vtype == "" then STRIPE else v.vtype
  }

  predicate IsStripe(v: Vdev) {
    EffectiveType(v) == STRIPE
  }

  predicate IsLetter(c: char) {
    'a' <= c <= 'z' || 'A' <= c <= 'Z'
  }

  function ToLower(s: string): (r: string)
    ensures |r| == |s|
  {
    if s == "" then ""
    else [if 'A' <= s[0] <= 'Z' then (s[0] as int + 32) as char else s[0]] + ToLower(s[1..])
  }

  predicate ValidName(name: string) {
    var n := TrimSpace(name);
    && n != ""
    && IsLetter(n[0])
    && (forall c | c in n :: IsLetter(c) || IsDigit(c) || c == '_' || c == '-')
    && ToLower(n) !in RESERVED_NAMES
  }

  predicate ValidDevice(device: string) {
    var d := TrimSpace(device);
    d != "" && forall c | c in d :: c !in {'\n', '\r', '\0', ' ', '\t'}
  }

  predicate ValidVdev(v: Vdev) {
    && (v.role in {DATA, LOG, SPECIAL} || (v.role in {CACHE, SPARE} && v.vtype in {"", STRIPE}))
    && EffectiveType(v) in VALID_TYPES
    && |v.devices| >= MinDevices(EffectiveType(v))
    && forall d | d in v.devices :: ValidDevice(d)
  }

  predicate HasData(vdevs: seq<Vdev>) {
    exists v :: v in vdevs && v.role == DATA
  }

  function TrimAll(devices: seq<string>): (r: seq<string>)
    ensures |r| == |devices|
  {
    seq(|devices|, i requires 0 <= i < |devices| => TrimSpace(devices[i]))
  }

  /** Every device of the layout, trimmed, in order. */
  function AllDevices(vdevs: seq<Vdev>): seq<string> {
    if vdevs == [] then [] else AllDevices(vdevs[..|vdevs| - 1]) + TrimAll(vdevs[|vdevs| - 1].devices)
  }

  predicate Distinct(names: seq<string>) {
    forall i, j | 0 <= i < j < |names| :: names[i] != names[j]
  }

  predicate ValidAshift(ashift: int) {
    ashift == 0 || 9 <= ashift <= 16
  }

  predicate ValidMountpoint(mountpoint: string) {
    mountpoint == "" || (mountpoint[0] == '/' && forall c | c in mountpoint :: c !in {'\n', '\r', '\0'})
  }

  predicate ValidSpec(s: Spec) {
    && ValidName(s.name)
    && s.vdevs != []
    && (forall v | v in s.vdevs :: ValidVdev(v))
    && HasData(s.vdevs)
    && Distinct(AllDevices(s.vdevs))
    && ValidAshift(s.ashift)
    && ValidMountpoint(s.mountpoint)
  }

  datatype SpecError =
    | BadName | NoVdevs | BadVdev(index: nat) | NoDataVdev | DuplicateDevice(device: string) | BadAshift | BadMountpoint

  /** `e` is the first thing wrong with the spec, in the order the checks are made. */
  predicate IsFirstError(s: Spec, e: SpecError) {
    var vdevsOk := forall v | v in s.vdevs :: ValidVdev(v);
    match e
    case BadName => !ValidName(s.name)
    case NoVdevs => ValidName(s.name) && s.vdevs == []
    case BadVdev(i) =>
      ValidName(s.name) && i < |s.vdevs| && !ValidVdev(s.vdevs[i]) && forall k | 0 <= k < i :: ValidVdev(s.vdevs[k])
    case NoDataVdev => ValidName(s.name) && s.vdevs != [] && vdevsOk && !HasData(s.vdevs)
    case DuplicateDevice(d) =>
      && ValidName(s.name) && vdevsOk && HasData(s.vdevs)
      && exists i, j :: 0 <= i < j < |AllDevices(s.vdevs)| && AllDevices(s.vdevs)[i] == AllDevices(s.vdevs)[j] == d
    case BadAshift =>
      ValidName(s.name) && vdevsOk && HasData(s.vdevs) && Distinct(AllDevices(s.vdevs)) && !ValidAshift(s.ashift)
    case BadMountpoint =>
      && ValidName(s.name) && vdevsOk && HasData(s.vdevs) && Distinct(AllDevices(s.vdevs)) && ValidAshift(s.ashift)
      && !ValidMountpoint(s.mountpoint)
  }

  lemma {:induction false} AllDevicesPrefix(vdevs: seq<Vdev>, i: nat)
    requires i <= |vdevs|
    ensures AllDevices(vdevs[..i]) <= AllDevices(vdevs)
    decreases |vdevs|
  {
    if i == |vdevs| {
      assert vdevs[..i] == vdevs;
    } else {
      var init := vdevs[..|vdevs| - 1];
      assert init[..i] == vdevs[..i];
      AllDevicesPrefix(init, i);
    }
  }

  method ValidateVdev(v: Vdev) returns (ok: bool)
    ensures ok == ValidVdev(v)
  {
    hide ValidDevice;
    if v.role in {DATA, LOG, SPECIAL} {
    } else if v.role in {CACHE, SPARE} {
      if v.vtype != "" && v.vtype != STRIPE {
        return false;
      }
    } else {
      return false;
    }
    var t := if v.vtype == "" then STRIPE else v.vtype;
    if t !in VALID_TYPES || |v.devices| == 0 || |v.devices| < MinDevices(t) {
      return false;
    }
    for j := 0 to |v.devices|
      invariant forall k | 0 <= k < j :: ValidDevice(v.devices[k])
    {
      if !ValidDevice(v.devices[j]) {
        return false;
      }
    }
    return true;
  }

  /** Where device `j` of vdev `i` stands among all devices. */
  function Position(vdevs: seq<Vdev>, i: nat, j: nat): nat
    requires i <= |vdevs|
  {
    |AllDevices(vdevs[..i])| + j
  }

  lemma {:induction false} DeviceAt(vdevs: seq<Vdev>, i: nat, j: nat)
    requires i < |vdevs| && j < |vdevs[i].devices|
    ensures
      var n, all := Position(vdevs, i, j), AllDevices(vdevs);
      n < |all| && all[n] == TrimSpace(vdevs[i].devices[j])
  {
    assert vdevs[..i + 1][..i] == vdevs[..i];
    var upTo := AllDevices(vdevs[..i + 1]);
    assert upTo == AllDevices(vdevs[..i]) + TrimAll(vdevs[i].devices);
    assert upTo[Position(vdevs, i, j)] == TrimAll(vdevs[i].devices)[j];
    AllDevicesPrefix(vdevs, i + 1);
  }

  lemma {:induction false} PositionNext(vdevs: seq<Vdev>, i: nat)
    requires i < |vdevs|
    ensures Position(vdevs, i, |vdevs[i].devices|) == Position(vdevs, i + 1, 0)
  {
    assert vdevs[..i + 1][..i] == vdevs[..i];
  }

  /** The names seen so far are the first `n` of all devices, each once. */
  ghost predicate SeenFirst(all: seq<string>, n: nat, seen: map<string, string>) {
    n <= |all| && Distinct(all[..n]) && forall d :: d in seen <==> d in all[..n]
  }

  lemma {:induction false} SeenNext(all: seq<string>, n: nat, seen: map<string, string>, role: string)
    requires n < |all| && SeenFirst(all, n, seen)
    ensures all[n] !in seen ==> SeenFirst(all, n + 1, seen[all[n] := role])
    ensures all[n] in seen ==> exists i, j :: 0 <= i < j < |all| && all[i] == all[j] == all[n]
  {
    assert all[..n + 1] == all[..n] + [all[n]];
    if all[n] in seen {
      var k :| 0 <= k < n && all[..n][k] == all[n];
      assert all[k] == all[n];
    }
  }

  /** The collision check: the first device seen twice, if any. */
  method FindDuplicate(vdevs: seq<Vdev>) returns (duplicate: Option<string>)
    ensures duplicate == None <==> Distinct(AllDevices(vdevs))
    ensures duplicate.Some? ==>
        exists i, j :: 0 <= i < j < |AllDevices(vdevs)|
                       && AllDevices(vdevs)[i] == AllDevices(vdevs)[j] == duplicate.value
  {
    hide AllDevices, TrimSpace;
    var seen: map<string, string> := map[];
    ghost var all := AllDevices(vdevs);
    EmptyPosition(vdevs);
    for i := 0 to |vdevs|
      invariant SeenFirst(all, Position(vdevs, i, 0), seen)
    {
      var devices := vdevs[i].devices;
      for j := 0 to |devices|
        invariant SeenFirst(all, Position(vdevs, i, j), seen)
      {
        var key := TrimSpace(devices[j]);
        DeviceAt(vdevs, i, j);
        SeenNext(all, Position(vdevs, i, j), seen, vdevs[i].role);
        if key in seen {
          return Some(key);
        }
        seen := seen[key := vdevs[i].role];
      }
      PositionNext(vdevs, i);
    }
    assert vdevs[..|vdevs|] == vdevs && all[..|all|] == all;
    return None;
  }

  lemma {:induction false} EmptyPosition(vdevs: seq<Vdev>)
    ensures Position(vdevs, 0, 0) == 0
  {
  }

  /** ValidatePoolSpec accepts exactly the valid specs and otherwise reports the first error. */
  method ValidatePoolSpec(s: Spec) returns (err: Option<SpecError>)
    ensures err == None <==> ValidSpec(s)
    ensures err.Some? ==> IsFirstError(s, err.value)
  {
    hide ValidName, ValidVdev, AllDevices, ValidMountpoint, Distinct;
    if !ValidName(s.name) {
      return Some(BadName);
    }
    if |s.vdevs| == 0 {
      return Some(NoVdevs);
    }
    var hasData := false;
    for i := 0 to |s.vdevs|
      invariant forall k | 0 <= k < i :: ValidVdev(s.vdevs[k])
      invariant hasData == HasData(s.vdevs[..i])
    {
      var ok := ValidateVdev(s.vdevs[i]);
      if !ok {
        return Some(BadVdev(i));
      }
      assert s.vdevs[..i + 1] == s.vdevs[..i] + [s.vdevs[i]];
      if s.vdevs[i].role == DATA {
        hasData := true;
      }
    }
    assert s.vdevs[..|s.vdevs|] == s.vdevs;
    if !hasData {
      return Some(NoDataVdev);
    }
    var duplicate := FindDuplicate(s.vdevs);
    if duplicate.Some? {
      return Some(DuplicateDevice(duplicate.value));
    }
    if s.ashift != 0 && (s.ashift < 9 || s.ashift > 16) {
      return Some(BadAshift);
    }
    if !ValidMountpoint(s.mountpoint) {
      return Some(BadMountpoint);
    }
    return None;
  }
}
