/** Partition names and their disks: the two add-ons derive one from the other in different ways. */
module Devices {
  import opened Text

  predicate EndsInDigit(s: string) {
    s != "" && IsDigit(s[|s| - 1])
  }

  predicate Contains(s: string, sub: string) {
    sub <= s || (s != "" && Contains(s[1..], sub))
  }

  /** One past the last `c` in `s`, or 0. */
  function AfterLast(s: string, c: char): (i: nat)
    ensures i <= |s|
    ensures i > 0 ==> s[i - 1] == c
    ensures forall k | i <= k < |s| :: s[k] != c
  {
    if s == "" then 0 else if s[|s| - 1] == c then |s| else AfterLast(s[..|s| - 1], c)
  }

  function StripDigits(s: string): (r: string)
    ensures r <= s && !EndsInDigit(r)
    ensures forall k | |r| <= k < |s| :: IsDigit(s[k])
  {
    if EndsInDigit(s) then StripDigits(s[..|s| - 1]) else s
  }

  // ----- burn-in: paths -----

  /** The families whose partitions take a 'p' before the number. */
  predicate PStyle(path: string) {
    Contains(path, "nvme") || Contains(path, "loop")
  }

  function InferPartitionPath(device: string, partNum: nat): string {
    if PStyle(device) then device + ['p'] + Itoa(partNum) else device + Itoa(partNum)
  }

  function DeviceOf(partition: string): string {
    var i := AfterLast(partition, 'p');
    if i > 1 && PStyle(partition[..i - 1]) then partition[..i - 1] else StripDigits(partition)
  }

  /** strings.LastIndex of a one-character string, plus one. */
  method LastIndex(s: string, c: char) returns (i: nat)
    ensures i == AfterLast(s, c)
  {
    i := |s|;
    while i > 0 && s[i - 1] != c
      invariant i <= |s| && AfterLast(s[..i], c) == AfterLast(s, c)
    {
      assert s[..i][..i - 1] == s[..i - 1];
      i := i - 1;
    }
  }

  method StripTrailingDigits(s: string) returns (end: nat)
    ensures end <= |s| && s[..end] == StripDigits(s)
  {
    end := |s|;
    assert s[..end] == s;
    while end > 0 && '0' <= s[end - 1] <= '9'
      invariant end <= |s| && StripDigits(s[..end]) == StripDigits(s)
    {
      assert s[..end][..end - 1] == s[..end - 1];
      end := end - 1;
    }
  }

  /** inferDeviceFromPartition. */
  method InferDeviceFromPartition(partition: string) returns (device: string)
    ensures device == DeviceOf(partition)
  {
    var idx := LastIndex(partition, 'p');
    if idx > 1 {
      var candidate := partition[..idx - 1];
      if PStyle(candidate) {
        return candidate;
      }
    }
    var end := StripTrailingDigits(partition);
    if end < |partition| {
      return partition[..end];
    }
    return partition;
  }

  // ----- zfs-manager: kernel names -----

  const P_PREFIXES: seq<string> := ["nvme", "mmcblk", "loop"]

  predicate PFamily(name: string) {
    exists p :: p in P_PREFIXES && HasPrefix(name, p)
  }

  function ParentOf(name: string): string {
    if PFamily(name) then
      var i := AfterLast(name, 'p');
      if i > 1 && i < |name| && IsDigit(name[i]) then name[..i - 1] else name
    else StripDigits(name)
  }

  /** parentDiskName. */
  method ParentDiskName(name: string) returns (parent: string)
    ensures parent == ParentOf(name)
  {
    for k := 0 to |P_PREFIXES|
      invariant forall j | 0 <= j < k :: !HasPrefix(name, P_PREFIXES[j])
    {
      if HasPrefix(name, P_PREFIXES[k]) {
        assert P_PREFIXES[k] in P_PREFIXES;
        var i := LastIndex(name, 'p');
        if i > 1 {
          if i < |name| && '0' <= name[i] <= '9' {
            return name[..i - 1];
          }
        }
        return name;
      }
    }
    var i := StripTrailingDigits(name);
    return name[..i];
  }

  /** The kernel's name for a partition of a disk. */
  function PartName(disk: string, n: nat): string {
    if EndsInDigit(disk) then disk + ['p'] + Itoa(n) else disk + Itoa(n)
  }

  // ----- Round trips -----

  lemma {:induction false} StripAppended(s: string, digits: string)
    requires forall c | c in digits :: IsDigit(c)
    ensures StripDigits(s + digits) == StripDigits(s)
    decreases |digits|
  {
    if digits == "" {
      assert s + digits == s;
    } else {
      assert digits[|digits| - 1] in digits;
      assert (s + digits)[..|s + digits| - 1] == s + digits[..|digits| - 1];
      StripAppended(s, digits[..|digits| - 1]);
    }
  }

  lemma {:induction false} StripIsId(s: string)
    ensures StripDigits(s) == s <==> !EndsInDigit(s)
  {
  }

  lemma {:induction false} AfterLastBefore(s: string, c: char, tail: string)
    requires c !in tail
    ensures AfterLast(s + [c] + tail, c) == |s| + 1
  {
    var w := s + [c] + tail;
    assert w[|s|] == c;
    assert forall k | |s| < k < |w| :: w[k] == tail[k - |s| - 1];
  }

  lemma {:induction false} AfterLastInside(s: string, c: char, tail: string)
    requires c !in tail
    ensures AfterLast(s + tail, c) <= |s|
  {
    var w := s + tail;
    assert forall k | |s| <= k < |w| :: w[k] == tail[k - |s|];
  }

  lemma {:induction false} ContainsInLonger(s: string, i: nat, sub: string)
    requires i <= |s| && Contains(s[..i], sub)
    ensures Contains(s, sub)
  {
    if sub <= s[..i] {
    } else {
      assert s[..i][1..] == s[1..][..i - 1];
      ContainsInLonger(s[1..], i - 1, sub);
    }
  }

  lemma {:induction false} PStyleInLonger(s: string, i: nat)
    requires i <= |s| && PStyle(s[..i])
    ensures PStyle(s)
  {
    hide Contains;
    if Contains(s[..i], "nvme") {
      ContainsInLonger(s, i, "nvme");
    } else {
      ContainsInLonger(s, i, "loop");
    }
  }

  lemma {:induction false} ItoaHasNoP(n: nat)
    ensures 'p' !in Itoa(n) && Itoa(n) != "" && forall c | c in Itoa(n) :: IsDigit(c)
  {
  }

  /** For every partition number, reading the device back from the partition path gives the device
    * exactly when its path contains nvme or loop or does not end in a digit. */
  lemma {:induction false} PathRoundTripIff(device: string, partNum: nat)
    ensures DeviceOf(InferPartitionPath(device, partNum)) == device <==> PStyle(device) || !EndsInDigit(device)
  {
    hide Itoa, PStyle, AfterLast, StripDigits, EndsInDigit, IsDigit;
    ItoaHasNoP(partNum);
    var digits := Itoa(partNum);
    if PStyle(device) {
      PStyleNotEmpty(device);
      AfterLastBefore(device, 'p', digits);
      assert (device + ['p'] + digits)[..|device|] == device;
    } else {
      PlainPathKept(device, digits);
      StripAppended(device, digits);
      StripIsId(device);
    }
  }

  /** Digits after a path of no 'p' family are not taken for a 'p' suffix. */
  lemma {:induction false} PlainPathKept(device: string, digits: string)
    requires !PStyle(device) && 'p' !in digits
    ensures DeviceOf(device + digits) == StripDigits(device + digits)
  {
    hide PStyle, StripDigits;
    var p, i := device + digits, AfterLast(device + digits, 'p');
    AfterLastInside(device, 'p', digits);
    if i > 1 && PStyle(p[..i - 1]) {
      assert p[..i - 1] == device[..i - 1];
      PStyleInLonger(device, i - 1);
    }
  }

  lemma {:induction false} PStyleNotEmpty(s: string)
    requires PStyle(s)
    ensures s != ""
  {
  }

  /** A digit or a 'p' after the name does not change its family. */
  lemma {:induction false} FamilyOfPart(disk: string, n: nat)
    ensures PFamily(PartName(disk, n)) == PFamily(disk)
  {
    ItoaHasNoP(n);
    var name, digits := PartName(disk, n), Itoa(n);
    assert digits[0] in digits;
    hide Itoa;
    forall p | p in P_PREFIXES
      ensures HasPrefix(name, p) == HasPrefix(disk, p)
    {
      assert forall k | 0 <= k < |p| :: !IsDigit(p[k]);
      assert if EndsInDigit(disk) then IsDigit(name[|disk| - 1]) else IsDigit(name[|disk|]);
    }
  }

  /** The parent of a disk's partition is the disk exactly when the disk belongs to one of the 'p'
    * families just if its name ends in a digit. */
  lemma {:induction false} ParentRoundTripIff(disk: string, n: nat)
    ensures ParentOf(PartName(disk, n)) == disk <==> (PFamily(disk) <==> EndsInDigit(disk))
  {
    hide Itoa, PFamily, AfterLast, StripDigits, IsDigit;
    FamilyOfPart(disk, n);
    ItoaHasNoP(n);
    var digits := Itoa(n);
    assert digits[0] in digits;
    if EndsInDigit(disk) {
      AfterLastBefore(disk, 'p', digits);
      var name := disk + ['p'] + digits;
      assert name[..|disk|] == disk && name[|disk| + 1] == digits[0];
      StripAppended(disk + ['p'], digits);
      StripIsId(disk + ['p']);
    } else {
      AfterLastInside(disk, 'p', digits);
      StripAppended(disk, digits);
      StripIsId(disk);
    }
  }

  /** An mmcblk disk ends in a digit and is in neither family of the path rule: its partition path
    * leads back to the wrong device. */
  lemma {:induction false} MmcblkPathLost(partNum: nat)
    ensures DeviceOf(InferPartitionPath("/dev/mmcblk0", partNum)) != "/dev/mmcblk0"
  {
    var device := "/dev/mmcblk0";
    assert device[|device| - 1] == '0';
    assert 'n' !in device && 'o' !in device && "nvme"[0] == 'n' && "loop"[1] == 'o';
    MissingLetter(device, "nvme", 'n');
    MissingLetter(device, "loop", 'o');
    PathRoundTripIff(device, partNum);
  }

  lemma {:induction false} MissingLetter(s: string, sub: string, c: char)
    requires c in sub && c !in s
    ensures !Contains(s, sub)
  {
    if s != "" {
      MissingLetter(s[1..], sub, c);
    }
  }

  /** The part of a name after its last 'p', if anything precedes that 'p', starts with a digit. */
  predicate LooksPartitioned(name: string) {
    var i := AfterLast(name, 'p');
    1 < i < |name| && IsDigit(name[i])
  }

  /** A name is left unchanged, as promised for whole disks, exactly when it does not look like a
    * partition: in a 'p' family no digit follows the last 'p', elsewhere no digit ends it. */
  lemma {:induction false} UnchangedIff(name: string)
    ensures ParentOf(name) == name <==> if PFamily(name) then !LooksPartitioned(name) else !EndsInDigit(name)
  {
    StripIsId(name);
    hide PFamily;
    var i := AfterLast(name, 'p');
    if LooksPartitioned(name) {
      assert |name[..i - 1]| < |name|;
    }
  }

  const PMEM := "pmem0"

  lemma {:induction false} PmemNamed()
    ensures !PFamily(PMEM) && EndsInDigit(PMEM) && StripDigits(PMEM) == "pmem"
  {
    assert PMEM[0] == 'p' && PMEM[4] == '0';
    assert forall p | p in P_PREFIXES :: p[0] != 'p';
    assert PMEM == "pmem" + "0";
    StripAppended("pmem", "0");
    StripIsId("pmem");
  }

  /** A pmem disk is whole, ends in a digit, and is in no 'p' family: it is given another parent. */
  lemma {:induction false} PmemNotUnchanged()
    ensures ParentOf(PMEM) == "pmem"
  {
    PmemNamed();
  }

  /** A bare loop device is taken for partition 0 of a disk called "loo". */
  lemma {:induction false} BareLoopDevice()
    ensures ParentOf("loop0") == "loo"
  {
    var name := "loop0";
    assert "loop" in P_PREFIXES && HasPrefix(name, "loop");
    assert name == "loo" + ['p'] + "0";
    AfterLastBefore("loo", 'p', "0");
    assert name[..3] == "loo";
  }

  const DEV := "/dev/"

  /** The burn-in add-on infers the kernel's partition path exactly for disks that its path rule and
    * the kernel's naming rule treat alike. */
  lemma {:induction false} InfersKernelPathIff(disk: string, n: nat)
    ensures InferPartitionPath(DEV + disk, n) == DEV + PartName(disk, n) <==> (PStyle(DEV + disk) <==> EndsInDigit(disk))
  {
    ItoaHasNoP(n);
    hide PStyle, Itoa;
    var digits := Itoa(n);
    assert DEV + disk + ['p'] + digits == DEV + (disk + ['p'] + digits);
    assert DEV + disk + digits == DEV + (disk + digits);
    assert |InferPartitionPath(DEV + disk, n)| == |DEV| + |disk| + |digits| + if PStyle(DEV + disk) then 1 else 0;
    assert |DEV + PartName(disk, n)| == |DEV| + |disk| + |digits| + if EndsInDigit(disk) then 1 else 0;
  }

  /** The two add-ons agree on a partition of a disk, on its path and on the disk read back from it,
    * exactly when the path rule, the prefix rule and the kernel's rule give the disk the same style. */
  lemma {:induction false} AddOnsAgreeIff(disk: string, n: nat)
    ensures
      && InferPartitionPath(DEV + disk, n) == DEV + PartName(disk, n)
      && DeviceOf(InferPartitionPath(DEV + disk, n)) == DEV + disk
      && ParentOf(PartName(disk, n)) == disk
      <==> (PStyle(DEV + disk) <==> EndsInDigit(disk)) && (PFamily(disk) <==> EndsInDigit(disk))
  {
    hide PFamily, PStyle, Itoa, DeviceOf, ParentOf, InferPartitionPath;
    InfersKernelPathIff(disk, n);
    PathRoundTripIff(DEV + disk, n);
    ParentRoundTripIff(disk, n);
    assert DEV + disk != "" && (disk != "" ==> (DEV + disk)[|DEV + disk| - 1] == disk[|disk| - 1]);
    assert disk == "" ==> (DEV + disk)[|DEV + disk| - 1] == '/';
  }

  /** The usual names: the number of a partition of an sd, hd, vd or xvd disk is stripped, and so is the p
    * with the number of a partition of an nvme, mmcblk or loop disk; the disks of all but the loop family
    * are left alone. */
  lemma {:induction false} UsualParents(letters: string, a: nat, b: nat, n: nat)
    requires letters != "" && forall c | c in letters :: 'a' <= c <= 'z'
    ensures forall prefix | prefix in {"sd", "hd", "vd", "xvd"} ::
        ParentOf(prefix + letters + Itoa(n)) == prefix + letters && ParentOf(prefix + letters) == prefix + letters
    ensures
      var nvme, mmc, loop := "nvme" + Itoa(a) + "n" + Itoa(b), "mmcblk" + Itoa(a), "loop" + Itoa(a);
      && ParentOf(nvme + "p" + Itoa(n)) == nvme && ParentOf(nvme) == nvme
      && ParentOf(mmc + "p" + Itoa(n)) == mmc && ParentOf(mmc) == mmc
      && ParentOf(loop + "p" + Itoa(n)) == loop
  {
    hide ParentOf, Itoa;
    forall prefix | prefix in {"sd", "hd", "vd", "xvd"}
      ensures ParentOf(prefix + letters + Itoa(n)) == prefix + letters && ParentOf(prefix + letters) == prefix + letters
    {
      LetterDisk(prefix, letters, n);
    }
    NumberedDisk("nvme" + Itoa(a) + "n", "nvme", b, n);
    NumberedDisk("mmcblk", "mmcblk", a, n);
    NumberedDisk("loop", "loop", a, n);
    NoPNumber("nvme" + Itoa(a) + "n", "nvme", b);
    NoPNumber("mmcblk", "mmcblk", a);
  }

  lemma {:induction false} LetterDisk(prefix: string, letters: string, n: nat)
    requires prefix in {"sd", "hd", "vd", "xvd"} && letters != "" && forall c | c in letters :: 'a' <= c <= 'z'
    ensures ParentOf(prefix + letters + Itoa(n)) == prefix + letters && ParentOf(prefix + letters) == prefix + letters
  {
    var disk := prefix + letters;
    assert disk[|disk| - 1] in letters;
    assert disk[0] == prefix[0] && prefix[0] !in {'n', 'm', 'l'};
    forall p | p in P_PREFIXES
      ensures !HasPrefix(disk, p)
    {
      assert p[0] in {'n', 'm', 'l'};
    }
    assert !EndsInDigit(disk);
    hide Itoa, ParentOf, PFamily;
    ParentRoundTripIff(disk, n);
    UnchangedIff(disk);
  }

  lemma {:induction false} NumberedDisk(stem: string, prefix: string, number: nat, n: nat)
    requires prefix in ["nvme", "mmcblk", "loop"] && HasPrefix(stem, prefix)
    ensures ParentOf(stem + Itoa(number) + "p" + Itoa(n)) == stem + Itoa(number)
  {
    ItoaHasNoP(number);
    var disk, digits := stem + Itoa(number), Itoa(number);
    hide Itoa;
    assert disk[|disk| - 1] == digits[|digits| - 1] && digits[|digits| - 1] in digits;
    assert prefix in P_PREFIXES && HasPrefix(disk, prefix);
    assert disk + "p" + Itoa(n) == PartName(disk, n);
    hide ParentOf, PartName;
    ParentRoundTripIff(disk, n);
  }

  lemma {:induction false} NoPNumber(stem: string, prefix: string, number: nat)
    requires prefix in ["nvme", "mmcblk"] && HasPrefix(stem, prefix) && 'p' !in stem
    ensures ParentOf(stem + Itoa(number)) == stem + Itoa(number)
  {
    ItoaHasNoP(number);
    var disk := stem + Itoa(number);
    hide Itoa;
    assert prefix in P_PREFIXES && HasPrefix(disk, prefix);
    assert 'p' !in disk;
    assert AfterLast(disk, 'p') == 0;
    hide ParentOf;
    UnchangedIff(disk);
  }

  // ----- Which names have a given disk as parent -----

  /** A disk whose partitions `parentDiskName` maps back to it. ("loo" is none: it is what the bare
    * device loop0 is mapped to.) */
  predicate KernelDisk(disk: string) {
    disk != "" && disk != "loo" && (PFamily(disk) <==> EndsInDigit(disk))
  }

  /** `name` is `disk` followed by a partition suffix in the disk's own style. */
  predicate IsPartitionName(name: string, disk: string) {
    var n := |disk|;
    if EndsInDigit(disk) then
      |name| > n + 1 && name[..n + 1] == disk + ['p'] && IsDigit(name[n + 1]) && 'p' !in name[n + 1..]
    else |name| > n && name[..n] == disk && forall c | c in name[n..] :: IsDigit(c)
  }

  lemma {:induction false} SameFamily(name: string, n: nat)
    requires n <= |name| && PFamily(name[..n])
    ensures PFamily(name)
  {
    var p :| p in P_PREFIXES && HasPrefix(name[..n], p);
    assert HasPrefix(name, p);
  }

  lemma {:induction false} DigitKeepsFamily(name: string, n: nat)
    requires n < |name| && IsDigit(name[n]) && PFamily(name)
    ensures PFamily(name[..n])
  {
    var p :| p in P_PREFIXES && HasPrefix(name, p);
    assert forall k | 0 <= k < |p| :: !IsDigit(p[k]) && name[k] == p[k];
    assert |p| <= n;
    assert HasPrefix(name[..n], p);
  }

  lemma {:induction false} PrefixInside(name: string, n: nat, p: string)
    requires n <= |name| && p in P_PREFIXES && HasPrefix(name, p)
    ensures |p| <= n ==> PFamily(name[..n])
  {
    if |p| <= n {
      assert HasPrefix(name[..n], p);
    }
  }

  /** Cutting a 'p' name before its last 'p' leaves the family only for the loop devices. */
  lemma {:induction false} CutLeavesFamily(name: string, n: nat)
    requires n < |name| && name[n] == 'p' && PFamily(name) && !PFamily(name[..n])
    ensures name[..n] == "loo"
  {
    var p :| p in P_PREFIXES && HasPrefix(name, p);
    assert P_PREFIXES[0] == "nvme" && P_PREFIXES[1] == "mmcblk" && P_PREFIXES[2] == "loop";
    PrefixInside(name, n, p);
    assert p[n] == 'p' && p == "loop" && n == 3;
  }

  lemma {:induction false} ParentIsPName(name: string, disk: string)
    requires PFamily(disk) && EndsInDigit(disk)
    ensures ParentOf(name) == disk && name != disk <==> IsPartitionName(name, disk)
  {
    var n, i := |disk|, AfterLast(name, 'p');
    assert i > 0 ==> name[..i] == name[..i - 1] + [name[i - 1]];
    if IsPartitionName(name, disk) {
      assert name == disk + ['p'] + name[n + 1..];
      AfterLastBefore(disk, 'p', name[n + 1..]);
      assert name[..n] == disk;
      SameFamily(name, n);
    }
  }

  lemma {:induction false} ParentIsPlainName(name: string, disk: string)
    requires !PFamily(disk) && !EndsInDigit(disk) && disk != "loo"
    ensures ParentOf(name) == disk && name != disk <==> IsPartitionName(name, disk)
  {
    var n := |disk|;
    if IsPartitionName(name, disk) {
      assert name[n] in name[n..] && name == disk + name[n..];
      if PFamily(name) {
        DigitKeepsFamily(name, n);
      }
      StripAppended(disk, name[n..]);
      StripIsId(disk);
    } else if ParentOf(name) == disk && name != disk {
      if PFamily(name) {
        CutLeavesFamily(name, n);
      }
    }
  }

  /** A name has a kernel disk as its parent exactly when it is that disk with a partition suffix. */
  lemma {:induction false} ParentIff(name: string, disk: string)
    requires KernelDisk(disk)
    ensures ParentOf(name) == disk && name != disk <==> IsPartitionName(name, disk)
  {
    hide PFamily, ParentOf;
    if PFamily(disk) {
      ParentIsPName(name, disk);
    } else {
      ParentIsPlainName(name, disk);
    }
  }
}
