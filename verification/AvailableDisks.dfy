/** Which block devices are offered for a new pool: nothing that hosts a pool member in any way. */
module AvailableDisks {
  import opened Common
  import opened Text
  import opened Devices

  /** A vdev as `zpool status` lists it. */
  datatype Vdev = Vdev(vtype: string, name: string, disks: seq<string>)

  datatype DeviceKind = WholeDisk | Part | OtherDevice

  /** A block device as `lsblk` lists it. */
  datatype Device = Device(name: string, path: string, kind: DeviceKind)

  // ----- Pool members -----

  /** The members named by the vdevs: their disks, and the vdev itself if it is a bare disk. */
  function MembersOf(vdevs: seq<Vdev>): seq<string> {
    if vdevs == [] then []
    else
      var v := vdevs[|vdevs| - 1];
      MembersOf(vdevs[..|vdevs| - 1]) + v.disks + if v.vtype == "disk" then [v.name] else []
  }

  /** devPathToName. */
  function KernelName(path: string): string {
    if HasPrefix(path, DEV) then path[|DEV|..] else path
  }

  function KernelNames(paths: seq<string>): (r: seq<string>)
    ensures |r| == |paths|
  {
    seq(|paths|, i requires 0 <= i < |paths| => KernelName(paths[i]))
  }

  /** `name` is a member, or the disk a member partition is on. */
  predicate InUse(members: seq<string>, name: string) {
    name != "" && exists m :: m in members && m != "" && (name == m || name == ParentOf(m))
  }

  /** Every member with its disk, collected. */
  ghost predicate Collects(poolDisks: set<string>, members: seq<string>) {
    forall n :: n in poolDisks <==> InUse(members, n)
  }

  method AddPoolMember(poolDisks: set<string>, name: string) returns (out: set<string>)
    ensures name == "" ==> out == poolDisks
    ensures name != "" ==> out == poolDisks + {name} + if ParentOf(name) != "" then {ParentOf(name)} else {}
  {
    out := poolDisks;
    if name == "" {
      return;
    }
    out := out + {name};
    var parent := ParentDiskName(name);
    if parent != "" && parent != name {
      out := out + {parent};
    }
  }

  lemma {:induction false} InUseSnoc(members: seq<string>, m: string, n: string)
    ensures InUse(members + [m], n) <==> InUse(members, n) || InUse([m], n)
  {
    hide ParentOf;
    var all := members + [m];
    assert m in all && m in [m];
    assert forall x | x in members :: x in all;
    if InUse(all, n) {
      var x :| x in all && x != "" && (n == x || n == ParentOf(x));
      assert x in members || x == m;
    }
  }

  method AddMembers(poolDisks: set<string>, ghost before: seq<string>, members: seq<string>) returns (out: set<string>)
    requires Collects(poolDisks, before)
    ensures Collects(out, before + members)
  {
    hide ParentOf;
    out := poolDisks;
    assert before + members[..0] == before;
    for i := 0 to |members|
      invariant Collects(out, before + members[..i])
    {
      assert before + members[..i + 1] == before + members[..i] + [members[i]];
      forall n
        ensures InUse(before + members[..i + 1], n) <==> InUse(before + members[..i], n) || InUse([members[i]], n)
      {
        InUseSnoc(before + members[..i], members[i], n);
      }
      out := AddPoolMember(out, members[i]);
    }
    assert members[..|members|] == members;
  }

  // ----- Which names a listing shows -----

  /** A pool lists the name: nested under a vdev, or as a bare disk of its own. */
  ghost predicate PoolShows(vdevs: seq<Vdev>, name: string) {
    exists v :: v in vdevs && (name in v.disks || (v.vtype == "disk" && v.name == name))
  }

  ghost predicate Shows(pools: seq<seq<Vdev>>, name: string) {
    exists p :: p in pools && PoolShows(p, name)
  }

  /** The path listing shows the device: by its path under /dev, or as it is. */
  ghost predicate ShowsPath(byPath: seq<seq<Vdev>>, name: string) {
    Shows(byPath, "/dev/" + name) || (Shows(byPath, name) && !("/dev/" <= name))
  }

  lemma {:induction false} MembersIff(vdevs: seq<Vdev>, name: string)
    ensures name in MembersOf(vdevs) <==> PoolShows(vdevs, name)
  {
    if vdevs != [] {
      var init, v := vdevs[..|vdevs| - 1], vdevs[|vdevs| - 1];
      MembersIff(init, name);
      assert forall u :: u in vdevs <==> u in init || u == v;
    }
  }

  /** Exactly the names shown are members, bare disks and nested ones alike. */
  lemma {:induction false} PoolMembersIff(pools: seq<seq<Vdev>>, name: string)
    ensures name in PoolMembers(pools) <==> Shows(pools, name)
  {
    if pools != [] {
      var init, last := pools[..|pools| - 1], pools[|pools| - 1];
      PoolMembersIff(init, name);
      MembersIff(last, name);
      hide MembersOf, PoolShows;
      assert forall p :: p in pools <==> p in init || p == last;
    }
  }

  lemma {:induction false} KernelNamesIff(paths: seq<string>, name: string)
    ensures name in KernelNames(paths) <==> "/dev/" + name in paths || (name in paths && !("/dev/" <= name))
  {
    var names := KernelNames(paths);
    assert DEV == "/dev/" && ("/dev/" + name)[|DEV|..] == name;
    if name in names {
      var i :| 0 <= i < |paths| && names[i] == name;
      assert "/dev/" <= paths[i] ==> paths[i] == "/dev/" + paths[i][5..];
    }
    if "/dev/" + name in paths {
      var i :| 0 <= i < |paths| && paths[i] == "/dev/" + name;
      assert names[i] == name;
    }
    if name in paths && !("/dev/" <= name) {
      var i :| 0 <= i < |paths| && paths[i] == name;
      assert names[i] == name;
    }
  }

  /** The device, or the disk of a device, that one of the listings shows. */
  ghost predicate Taken(pools: seq<seq<Vdev>>, byPath: seq<seq<Vdev>>, name: string) {
    name != "" && exists m :: m != "" && (Shows(pools, m) || ShowsPath(byPath, m)) && (name == m || name == ParentOf(m))
  }

  lemma {:induction false} TakenIff(pools: seq<seq<Vdev>>, byPath: seq<seq<Vdev>>, name: string)
    ensures InUse(AllMembers(pools, byPath), name) <==> Taken(pools, byPath, name)
  {
    hide ParentOf, Shows, PoolMembers, KernelNames;
    forall m
      ensures m in AllMembers(pools, byPath) <==> Shows(pools, m) || ShowsPath(byPath, m)
    {
      PoolMembersIff(pools, m);
      KernelNamesIff(PoolMembers(byPath), m);
      PoolMembersIff(byPath, "/dev/" + m);
      PoolMembersIff(byPath, m);
    }
  }

  // ----- The filter -----

  predicate Offered(members: seq<string>, d: Device) {
    && d.kind != OtherDevice
    && !InUse(members, d.name)
    && (d.kind == Part ==> !InUse(members, ParentOf(d.name)))
  }

  /** The offered devices, in listing order. */
  function OfferedOf(members: seq<string>, devices: seq<Device>): seq<Device> {
    if devices == [] then []
    else
      var d := devices[|devices| - 1];
      OfferedOf(members, devices[..|devices| - 1]) + if Offered(members, d) then [d] else []
  }

  /** The pool topology by GUID and the member paths are both best effort; the device listing is not. */
  method ListAvailableDisks(pools: Option<seq<seq<Vdev>>>, byPath: seq<seq<Vdev>>, devices: Option<seq<Device>>)
    returns (r: Result<seq<Device>, string>)
    ensures r.Err? <==> devices == None
    ensures r.Ok? ==> r.value == OfferedOf(AllMembers(if pools == None then [] else pools.value, byPath), devices.value)
    ensures r.Ok? ==> forall d :: d in r.value <==>
        && d in devices.value && (d.kind == WholeDisk || d.kind == Part)
        && !Taken(if pools == None then [] else pools.value, byPath, d.name)
        && (d.kind == Part ==> !Taken(if pools == None then [] else pools.value, byPath, ParentOf(d.name)))
  {
    hide ParentOf, Offered, KernelName, MembersOf, Taken;
    var poolDisks: set<string> := {};
    ghost var seen: seq<string> := [];
    if pools.Some? {
      for p := 0 to |pools.value|
        invariant Collects(poolDisks, seen) && seen == PoolMembers(pools.value[..p])
      {
        assert pools.value[..p + 1][..p] == pools.value[..p];
        var members := ListMembers(pools.value[p]);
        poolDisks := AddMembers(poolDisks, seen, members);
        seen := seen + members;
      }
      assert pools.value[..|pools.value|] == pools.value;
    }
    var paths := PoolMembersByPath(byPath);
    poolDisks := AddMembers(poolDisks, seen, paths);
    seen := seen + paths;
    if devices == None {
      return Err("lsblk");
    }
    var available := Filter(poolDisks, seen, devices.value);
    forall d
      ensures d in available <==> OfferedFrom(if pools == None then [] else pools.value, byPath, devices.value, d)
    {
      OfferedFromIff(if pools == None then [] else pools.value, byPath, devices.value, d);
    }
    return Ok(available);
  }

  method ListMembers(vdevs: seq<Vdev>) returns (members: seq<string>)
    ensures members == MembersOf(vdevs)
  {
    members := [];
    assert vdevs[..0] == [];
    for i := 0 to |vdevs|
      invariant members == MembersOf(vdevs[..i])
    {
      assert vdevs[..i + 1][..i] == vdevs[..i];
      members := members + vdevs[i].disks;
      if vdevs[i].vtype == "disk" {
        members := members + [vdevs[i].name];
      }
    }
    assert vdevs[..|vdevs|] == vdevs;
  }

  function PoolMembers(pools: seq<seq<Vdev>>): seq<string> {
    if pools == [] then [] else PoolMembers(pools[..|pools| - 1]) + MembersOf(pools[|pools| - 1])
  }

  method PoolMembersByPath(pools: seq<seq<Vdev>>) returns (names: seq<string>)
    ensures names == KernelNames(PoolMembers(pools))
  {
    hide MembersOf, KernelName;
    names := [];
    assert pools[..0] == [];
    for p := 0 to |pools|
      invariant names == KernelNames(PoolMembers(pools[..p]))
    {
      assert pools[..p + 1][..p] == pools[..p];
      var members := ListMembers(pools[p]);
      names := names + KernelNames(members);
    }
    assert pools[..|pools|] == pools;
  }

  function AllMembers(pools: seq<seq<Vdev>>, byPath: seq<seq<Vdev>>): seq<string> {
    PoolMembers(pools) + KernelNames(PoolMembers(byPath))
  }

  method Filter(poolDisks: set<string>, ghost members: seq<string>, devices: seq<Device>) returns (available: seq<Device>)
    requires Collects(poolDisks, members)
    ensures available == OfferedOf(members, devices)
  {
    hide ParentOf, InUse;
    available := [];
    assert devices[..0] == [];
    for i := 0 to |devices|
      invariant available == OfferedOf(members, devices[..i])
    {
      assert devices[..i + 1][..i] == devices[..i];
      var d := devices[i];
      if d.kind != WholeDisk && d.kind != Part {
        continue;
      }
      if d.name in poolDisks {
        continue;
      }
      if d.kind == Part {
        var parent := ParentDiskName(d.name);
        if parent != d.name && parent in poolDisks {
          continue;
        }
      }
      available := available + [d];
    }
    assert devices[..|devices|] == devices;
  }

  // ----- Main results -----

  /** Sound and complete: a device is offered exactly when it is listed as a disk or partition, is
    * neither a pool member nor the disk of one, and is no partition of such a disk. */
  lemma {:induction false} OfferedIff(members: seq<string>, devices: seq<Device>, d: Device)
    ensures d in OfferedOf(members, devices) <==> d in devices && Offered(members, d)
  {
    if devices != [] {
      hide Offered;
      OfferedIff(members, devices[..|devices| - 1], d);
      assert devices == devices[..|devices| - 1] + [devices[|devices| - 1]];
    }
  }

  /** What is offered, said of the two listings themselves. */
  ghost predicate OfferedFrom(pools: seq<seq<Vdev>>, byPath: seq<seq<Vdev>>, devices: seq<Device>, d: Device) {
    && d in devices && (d.kind == WholeDisk || d.kind == Part)
    && !Taken(pools, byPath, d.name)
    && (d.kind == Part ==> !Taken(pools, byPath, ParentOf(d.name)))
  }

  /** Against everything the two listings show, bare disks and nested ones alike: a device is offered
    * exactly when it is a disk or partition, is not shown, is not the disk of anything shown, and is not on
    * such a disk. */
  lemma {:induction false} OfferedFromIff(pools: seq<seq<Vdev>>, byPath: seq<seq<Vdev>>, devices: seq<Device>, d: Device)
    ensures d in OfferedOf(AllMembers(pools, byPath), devices) <==> OfferedFrom(pools, byPath, devices, d)
  {
    hide InUse, Taken, ParentOf, AllMembers, OfferedOf;
    OfferedIff(AllMembers(pools, byPath), devices, d);
    TakenIff(pools, byPath, d.name);
    TakenIff(pools, byPath, ParentOf(d.name));
  }

  /** The order of the listing is kept: offering commutes with splitting it. */
  lemma {:induction false} OfferedInOrder(members: seq<string>, a: seq<Device>, b: seq<Device>)
    ensures OfferedOf(members, a + b) == OfferedOf(members, a) + OfferedOf(members, b)
    decreases |b|
  {
    hide Offered;
    if b == [] {
      assert a + b == a;
    } else {
      OfferedInOrder(members, a, b[..|b| - 1]);
      assert (a + b)[..|a + b| - 1] == a + b[..|b| - 1];
    }
  }

  // ----- The disk of a member partition, whatever its name -----

  /** `m` is one of the partitions of `disk`. */
  ghost predicate IsPartOf(m: string, disk: string) {
    exists n: nat :: m == PartName(disk, n)
  }

  /** The name rule of `parentDiskName` and the kernel's rule give the disk the same style. */
  predicate Conforms(disk: string) {
    PFamily(disk) <==> EndsInDigit(disk)
  }

  /** Some member other than the disk's partitions puts the disk in use. */
  ghost predicate OtherwiseInUse(members: seq<string>, disk: string) {
    exists m :: m in members && m != "" && !IsPartOf(m, disk) && (m == disk || ParentOf(m) == disk)
  }

  /** With a partition of the disk in a pool, the disk is offered exactly when its name does not conform
    * and nothing else puts it in use: for conforming names it is never offered. */
  lemma {:induction false} HostOfferedIff(members: seq<string>, disk: string, n: nat, path: string)
    requires disk != "" && PartName(disk, n) in members
    ensures Offered(members, Device(disk, path, WholeDisk)) <==> !Conforms(disk) && !OtherwiseInUse(members, disk)
  {
    ParentRoundTripIff(disk, n);
    PartNotEmpty(disk, n);
    hide ParentOf, PartName, PFamily;
    if InUse(members, disk) && !OtherwiseInUse(members, disk) {
      var m :| m in members && m != "" && (disk == m || disk == ParentOf(m));
      var k: nat :| m == PartName(disk, k);
      ParentRoundTripIff(disk, k);
      PartIsNotDisk(disk, k);
    }
  }

  lemma {:induction false} PartIsNotDisk(disk: string, n: nat)
    ensures PartName(disk, n) != disk && PartName(disk, n) != ""
  {
    hide Itoa;
    assert |PartName(disk, n)| > |disk|;
  }

  /** With nothing else in a pool, the host is offered exactly when its name does not conform. */
  lemma {:induction false} LoneHostOfferedIff(disk: string, n: nat, path: string)
    requires disk != ""
    ensures Offered([PartName(disk, n)], Device(disk, path, WholeDisk)) <==> !Conforms(disk)
  {
    hide PartName, Conforms, InUse;
    HostOfferedIff([PartName(disk, n)], disk, n, path);
  }

  /** A disk whose partitions `parentDiskName` leaves unchanged, as if they were whole disks. */
  predicate Loose(disk: string) {
    PFamily(disk) && !EndsInDigit(disk) && !LooksPartitioned(disk + "0")
  }

  /** The parent that all partitions of a disk are given if it is not loose. */
  function SharedParent(disk: string): string {
    if EndsInDigit(disk) then if PFamily(disk) then disk else disk + "p"
    else if PFamily(disk) && AfterLast(disk, 'p') > 0 then disk[..AfterLast(disk, 'p') - 1]
    else disk
  }

  lemma {:induction false} AfterLastKept(s: string, c: char, tail: string)
    requires c !in tail
    ensures AfterLast(s + tail, c) == AfterLast(s, c)
    decreases |tail|
  {
    if tail == "" {
      assert s + tail == s;
    } else {
      assert (s + tail)[..|s + tail| - 1] == s + tail[..|tail| - 1] && tail[|tail| - 1] in tail;
      AfterLastKept(s, c, tail[..|tail| - 1]);
    }
  }

  /** Whatever number is appended, the name looks partitioned or not. */
  lemma {:induction false} LooksAlike(disk: string, digits: string)
    requires digits != "" && forall c | c in digits :: IsDigit(c)
    ensures LooksPartitioned(disk + digits) == LooksPartitioned(disk + "0")
  {
    assert 'p' !in digits && digits[0] in digits;
    AfterLastKept(disk, 'p', digits);
    AfterLastKept(disk, 'p', "0");
  }

  lemma {:induction false} PartParentDigit(disk: string, n: nat)
    requires EndsInDigit(disk)
    ensures ParentOf(PartName(disk, n)) == SharedParent(disk)
  {
    FamilyOfPart(disk, n);
    ParentRoundTripIff(disk, n);
    ItoaHasNoP(n);
    hide Itoa, PFamily;
    StripAppended(disk + ['p'], Itoa(n));
    StripIsId(disk + ['p']);
  }

  lemma {:induction false} PartParentPlain(disk: string, n: nat)
    requires !EndsInDigit(disk)
    ensures ParentOf(PartName(disk, n)) == if Loose(disk) then PartName(disk, n) else SharedParent(disk)
  {
    FamilyOfPart(disk, n);
    ItoaHasNoP(n);
    var digits := Itoa(n);
    LooksAlike(disk, digits);
    AfterLastKept(disk, 'p', digits);
    hide Itoa, PFamily;
    StripAppended(disk, digits);
    StripIsId(disk);
    var i := AfterLast(disk, 'p');
    assert i > 0 ==> (disk + digits)[..i - 1] == disk[..i - 1];
  }

  lemma {:induction false} PartParent(disk: string, n: nat)
    ensures ParentOf(PartName(disk, n)) == if Loose(disk) then PartName(disk, n) else SharedParent(disk)
  {
    hide PFamily, ParentOf, PartName, SharedParent;
    if EndsInDigit(disk) {
      PartParentDigit(disk, n);
    } else {
      PartParentPlain(disk, n);
    }
  }

  lemma {:induction false} SharedParentNotEmpty(disk: string)
    requires disk != "" && !Loose(disk)
    ensures SharedParent(disk) != ""
  {
    var p := if PFamily(disk) then (var q :| q in P_PREFIXES && HasPrefix(disk, q); q) else "loop";
    assert PFamily(disk) ==> HasPrefix(disk, p) && |p| >= 4;
    if PFamily(disk) && !EndsInDigit(disk) {
      assert AfterLast(disk + "0", 'p') == AfterLast(disk, 'p') by {
        AfterLastKept(disk, 'p', "0");
      }
    }
  }

  /** With a partition of the disk in a pool, another partition of it is offered exactly when the disk is
    * loose and nothing else puts that partition in use. */
  lemma {:induction false} SiblingOfferedIff(members: seq<string>, disk: string, n: nat, m: nat, path: string)
    requires disk != "" && PartName(disk, n) in members
    ensures Offered(members, Device(PartName(disk, m), path, Part)) <==> Loose(disk) && !InUse(members, PartName(disk, m))
  {
    PartParent(disk, n);
    PartParent(disk, m);
    PartIsNotDisk(disk, n);
    if !Loose(disk) {
      SharedParentNotEmpty(disk);
      hide PartName, ParentOf, Loose, SharedParent;
      assert InUse(members, SharedParent(disk));
    }
  }

  /** For conforming names neither the disk of a member partition nor any of its partitions is offered. */
  lemma {:induction false} HostNeverOffered(members: seq<string>, disk: string, n: nat, d: Device)
    requires disk != "" && PartName(disk, n) in members
    requires (d.kind == WholeDisk && d.name == disk) || (d.kind == Part && IsPartOf(d.name, disk))
    ensures Conforms(disk) ==> !Offered(members, d)
  {
    hide PFamily, PartName, Offered, EndsInDigit, LooksPartitioned;
    if d.kind == WholeDisk {
      HostOfferedIff(members, disk, n, d.path);
    } else {
      var m: nat :| d.name == PartName(disk, m);
      SiblingOfferedIff(members, disk, n, m, d.path);
    }
  }

  /** The disk pmem0 is offered while its partition pmem0p1 is a pool member. */
  lemma {:induction false} PmemHostOffered(path: string)
    ensures PartName(PMEM, 1) == "pmem0p1"
    ensures Offered(["pmem0p1"], Device(PMEM, path, WholeDisk))
  {
    PmemNamed();
    assert Itoa(1) == "1";
    assert PartName(PMEM, 1) == PMEM + ['p'] + "1" == "pmem0p1";
    hide PFamily, PartName, InUse;
    LoneHostOfferedIff(PMEM, 1, path);
  }

  // ----- Actual members and what the listings report of them -----

  /** An actual pool member: a whole disk or one of its partitions. */
  datatype Member = OnDisk(disk: string) | OnPartition(disk: string, number: nat)

  /** The device is the member's disk or a partition of it. */
  ghost predicate Carries(d: Device, a: Member) {
    (d.kind == WholeDisk && d.name == a.disk) || (d.kind == Part && IsPartOf(d.name, a.disk))
  }

  /** Nothing that carries the member is ever offered. */
  ghost predicate Protected(reported: seq<string>, a: Member) {
    forall d | Carries(d, a) :: !Offered(reported, d)
  }

  /** A reported name is the disk or a partition of it. */
  predicate Names(name: string, disk: string) {
    name == disk || IsPartitionName(name, disk)
  }

  predicate Covers(reported: seq<string>, disk: string) {
    exists m :: m in reported && Names(m, disk)
  }

  lemma {:induction false} InUseIff(reported: seq<string>, disk: string)
    requires KernelDisk(disk)
    ensures InUse(reported, disk) <==> Covers(reported, disk)
  {
    hide PFamily, EndsInDigit, ParentOf, IsPartitionName;
    if InUse(reported, disk) {
      var m :| m in reported && m != "" && (disk == m || disk == ParentOf(m));
      ParentIff(m, disk);
      assert Names(m, disk);
    }
    if Covers(reported, disk) {
      var m :| m in reported && Names(m, disk);
      ParentIff(m, disk);
      PartitionNameNotEmpty(m, disk);
    }
  }

  lemma {:induction false} PartitionNameNotEmpty(name: string, disk: string)
    ensures IsPartitionName(name, disk) ==> name != ""
  {
  }

  /** Some partition number is as long as wanted. */
  lemma {:induction false} LongNumber(length: nat) returns (n: nat)
    ensures n > 0 && |Itoa(n)| >= length
  {
    if length <= 1 {
      n := 1;
    } else {
      var k := LongNumber(length - 1);
      n := 10 * k;
    }
  }

  lemma {:induction false} ParentNotLonger(name: string)
    ensures |ParentOf(name)| <= |name|
  {
  }

  function Longest(names: seq<string>): (n: nat)
    ensures forall m | m in names :: |m| <= n
  {
    if names == [] then 0
    else
      var before, m := Longest(names[..|names| - 1]), names[|names| - 1];
      assert names == names[..|names| - 1] + [m];
      if |m| > before then |m| else before
  }

  /** However much is reported, some partition name of the disk is not put in use. */
  lemma {:induction false} SomePartFree(reported: seq<string>, disk: string) returns (n: nat)
    ensures !InUse(reported, PartName(disk, n))
  {
    n := LongNumber(Longest(reported) + 1);
    hide Itoa, ParentOf;
    assert |PartName(disk, n)| > Longest(reported);
    forall m | m in reported
      ensures |ParentOf(m)| <= Longest(reported)
    {
      ParentNotLonger(m);
    }
  }

  /** What protects the members of a disk: its partitions are seen as partitions, and both the disk and
    * the parent its partitions are given are in use. */
  predicate Guarded(reported: seq<string>, disk: string) {
    !Loose(disk) && InUse(reported, disk) && InUse(reported, SharedParent(disk))
  }

  /** For every disk, whatever its name: an actual member is protected exactly when its disk is guarded. */
  lemma {:induction false} ProtectedIff(reported: seq<string>, a: Member)
    ensures Protected(reported, a) <==> Guarded(reported, a.disk)
  {
    hide PFamily, ParentOf, PartName, InUse, SharedParent, Loose;
    var host := Device(a.disk, "", WholeDisk);
    assert Carries(host, a);
    var n := SomePartFree(reported, a.disk);
    var free := Device(PartName(a.disk, n), "", Part);
    assert Carries(free, a);
    PartParent(a.disk, n);
    if Guarded(reported, a.disk) {
      forall d | Carries(d, a)
        ensures !Offered(reported, d)
      {
        if d.kind == Part {
          var k: nat :| d.name == PartName(a.disk, k);
          PartParent(a.disk, k);
        }
      }
    }
  }

  /** Across all pools, whatever the disks' names: no device that carries an actual member is offered
    * exactly when the members of the topology listing and the path listing together guard every member's
    * disk. */
  lemma {:induction false} AllProtectedIff(pools: seq<seq<Vdev>>, byPath: seq<seq<Vdev>>, actual: set<Member>)
    ensures
      var topology, paths := PoolMembers(pools), KernelNames(PoolMembers(byPath));
      (forall a | a in actual :: Protected(AllMembers(pools, byPath), a))
      <==> forall a | a in actual ::
             && !Loose(a.disk) && (InUse(topology, a.disk) || InUse(paths, a.disk))
             && (InUse(topology, SharedParent(a.disk)) || InUse(paths, SharedParent(a.disk)))
  {
    hide Loose, InUse, SharedParent, Protected, PoolMembers, KernelNames;
    forall a | a in actual
      ensures Protected(AllMembers(pools, byPath), a) <==> Guarded(AllMembers(pools, byPath), a.disk)
    {
      ProtectedIff(AllMembers(pools, byPath), a);
    }
    forall name
      ensures InUse(AllMembers(pools, byPath), name)
              <==> InUse(PoolMembers(pools), name) || InUse(KernelNames(PoolMembers(byPath)), name)
    {
      InUseEither(PoolMembers(pools), KernelNames(PoolMembers(byPath)), name);
    }
  }

  lemma {:induction false} InUseEither(x: seq<string>, y: seq<string>, name: string)
    ensures InUse(x + y, name) <==> InUse(x, name) || InUse(y, name)
  {
    hide ParentOf;
    assert forall m :: m in x + y <==> m in x || m in y;
  }

  /** On a disk whose name conforms, being guarded is being named by the listings: some reported name is
    * the disk or one of its partitions. */
  lemma {:induction false} GuardedIff(reported: seq<string>, disk: string)
    requires KernelDisk(disk)
    ensures Guarded(reported, disk) <==> Covers(reported, disk)
  {
    InUseIff(reported, disk);
    hide PFamily, EndsInDigit, InUse, Covers, LooksPartitioned, AfterLast;
  }

  /** So for disks with such names, no device that carries an actual member is offered exactly when, for
    * every actual member, the topology listing or the path listing names its disk: listings that fail or
    * show only a partition GUID leave it unprotected. */
  lemma {:induction false} ConformingProtectedIff(pools: seq<seq<Vdev>>, byPath: seq<seq<Vdev>>, actual: set<Member>)
    requires forall a | a in actual :: KernelDisk(a.disk)
    ensures (forall a | a in actual :: Protected(AllMembers(pools, byPath), a))
            <==> forall a | a in actual ::
                   Covers(PoolMembers(pools), a.disk) || Covers(KernelNames(PoolMembers(byPath)), a.disk)
  {
    hide KernelDisk, Protected, Guarded, Covers, PoolMembers, KernelNames;
    var reported := AllMembers(pools, byPath);
    forall a | a in actual
      ensures Protected(reported, a)
              <==> Covers(PoolMembers(pools), a.disk) || Covers(KernelNames(PoolMembers(byPath)), a.disk)
    {
      ProtectedIff(reported, a);
      GuardedIff(reported, a.disk);
      CoversEither(PoolMembers(pools), KernelNames(PoolMembers(byPath)), a.disk);
    }
  }

  /** The partition pmem0p1 is offered although the whole disk pmem0 is a reported pool member. */
  lemma {:induction false} PmemPartOffered(path: string)
    ensures Offered([PMEM], Device("pmem0p1", path, Part))
    ensures !Protected([PMEM], OnDisk(PMEM))
  {
    PmemNamed();
    PmemNotUnchanged();
    assert Itoa(1) == "1";
    assert PartName(PMEM, 1) == PMEM + ['p'] + "1" == "pmem0p1";
    PartParent(PMEM, 1);
    hide PFamily, ParentOf, PartName, Itoa;
    assert SharedParent(PMEM) == "pmem0p";
    var d := Device("pmem0p1", path, Part);
    assert |"pmem0p1"| == 7 && |"pmem0p"| == 6 && |PMEM| == 5 && |"pmem"| == 4;
    assert Offered([PMEM], d);
    assert IsPartOf(d.name, PMEM);
    assert Carries(d, OnDisk(PMEM));
  }

  lemma {:induction false} CoversEither(x: seq<string>, y: seq<string>, disk: string)
    ensures Covers(x + y, disk) <==> Covers(x, disk) || Covers(y, disk)
  {
    hide Names;
    assert forall m :: m in x + y <==> m in x || m in y;
  }

  /** A partition listed by its path covers its disk, whatever the other listing shows. */
  lemma {:induction false} PathListingCovers(byPath: seq<seq<Vdev>>, disk: string, n: nat)
    requires KernelDisk(disk) && DEV + PartName(disk, n) in PoolMembers(byPath)
    ensures Covers(KernelNames(PoolMembers(byPath)), disk)
  {
    var paths, name := PoolMembers(byPath), PartName(disk, n);
    hide PoolMembers, PartName, PFamily, IsPartitionName, ParentOf;
    var i :| 0 <= i < |paths| && paths[i] == DEV + name;
    assert (DEV + name)[|DEV|..] == name;
    assert KernelNames(paths)[i] == name;
    ParentRoundTripIff(disk, n);
    PartIsNotDisk(disk, n);
    ParentIff(name, disk);
    assert Names(name, disk);
  }

  /** When both listings fail, the call still succeeds, and offers every disk it is shown, members
    * included. */
  lemma {:induction false} FailedListingsOffer(disk: string, path: string)
    ensures OfferedOf(AllMembers([], []), [Device(disk, path, WholeDisk)]) == [Device(disk, path, WholeDisk)]
  {
    var d := Device(disk, path, WholeDisk);
    assert AllMembers([], []) == [];
    assert [d][..0] == [] && Offered([], d);
  }

  lemma {:induction false} PartNotEmpty(disk: string, n: nat)
    requires disk != ""
    ensures PartName(disk, n) != ""
  {
    hide Itoa;
  }

  /** A member given by path counts under its kernel name. */
  lemma {:induction false} PathMemberCounts(pools: seq<seq<Vdev>>, byPath: seq<seq<Vdev>>, name: string)
    requires DEV + name in PoolMembers(byPath)
    ensures name in AllMembers(pools, byPath)
  {
    hide PoolMembers;
    var paths := PoolMembers(byPath);
    var i :| 0 <= i < |paths| && paths[i] == DEV + name;
    assert (DEV + name)[|DEV|..] == name;
    assert KernelNames(paths)[i] == name;
  }

  // ----- The usual families -----

  /** Names such as nvme0n1 follow the convention both add-ons rely on. */
  lemma {:induction false} NvmeNames(controller: nat, namespace: nat)
    ensures
      var disk := "nvme" + Itoa(controller) + "n" + Itoa(namespace);
      PFamily(disk) && EndsInDigit(disk) && PStyle(DEV + disk)
  {
    var a, b := Itoa(controller), Itoa(namespace);
    hide Itoa;
    var disk := "nvme" + a + "n" + b;
    assert disk[|disk| - 1] == b[|b| - 1] && b[|b| - 1] in b;
    assert HasPrefix(disk, "nvme") && "nvme" in P_PREFIXES;
    ContainsAfterDev(disk, "nvme");
  }

  lemma {:induction false} LoopNames(number: nat)
    ensures
      var disk := "loop" + Itoa(number);
      PFamily(disk) && EndsInDigit(disk) && PStyle(DEV + disk)
  {
    var a := Itoa(number);
    hide Itoa;
    var disk := "loop" + a;
    assert disk[|disk| - 1] == a[|a| - 1] && a[|a| - 1] in a;
    assert HasPrefix(disk, "loop") && P_PREFIXES[2] == "loop" && "loop" in P_PREFIXES;
    ContainsAfterDev(disk, "loop");
  }

  lemma {:induction false} ContainsAfterDev(disk: string, sub: string)
    requires HasPrefix(disk, sub)
    ensures Contains(DEV + disk, sub)
  {
    ContainsAppended(DEV, disk, sub);
  }

  lemma {:induction false} ContainsAppended(before: string, s: string, sub: string)
    requires Contains(s, sub)
    ensures Contains(before + s, sub)
  {
    if before == "" {
      assert before + s == s;
    } else {
      assert (before + s)[1..] == before[1..] + s;
      ContainsAppended(before[1..], s, sub);
    }
  }

  /** Names such as sda do, too: they are in no 'p' family and end in a letter. */
  lemma {:induction false} SdNames(letters: string)
    requires letters != "" && forall c | c in letters :: 'a' <= c <= 'z'
    ensures var disk := "sd" + letters; !PFamily(disk) && !EndsInDigit(disk)
  {
    var disk := "sd" + letters;
    assert disk[|disk| - 1] in letters;
    forall p | p in P_PREFIXES
      ensures !HasPrefix(disk, p)
    {
      assert p[0] != 's' && disk[0] == 's';
    }
  }
}
