/** The rules of the pool validator, device by device and letter by letter. */
module PoolRules {
  import opened Text
  import opened PoolSpec

  /** `s` spells the lower-case word `word` in letters of either case. */
  predicate Spells(s: string, word: string) {
    |s| == |word| && forall i | 0 <= i < |s| :: s[i] == word[i] || s[i] as int + 32 == word[i] as int
  }

  /** One of the words zpool keeps for itself, in letters of either case. */
  predicate IsKeyword(n: string) {
    || Spells(n, "mirror") || Spells(n, "raidz") || Spells(n, "raidz1") || Spells(n, "raidz2") || Spells(n, "raidz3")
    || Spells(n, "spare") || Spells(n, "log") || Spells(n, "cache") || Spells(n, "special") || Spells(n, "dedup")
    || Spells(n, "draid")
  }

  predicate NameRule(name: string) {
    var n := TrimSpace(name);
    && n != "" && ('a' <= n[0] <= 'z' || 'A' <= n[0] <= 'Z')
    && (forall i | 0 <= i < |n| ::
          'a' <= n[i] <= 'z' || 'A' <= n[i] <= 'Z' || '0' <= n[i] <= '9' || n[i] == '_' || n[i] == '-')
    && !IsKeyword(n)
  }

  predicate DeviceRule(device: string) {
    var d := TrimSpace(device);
    && d != "" && '\n' !in d && '\r' !in d && '\0' !in d && ' ' !in d && '\t' !in d
  }

  predicate ShapeRule(v: Vdev) {
    || ((v.vtype == "" || v.vtype == "stripe") && |v.devices| >= 1)
    || (v.vtype == "mirror" && |v.devices| >= 2)
    || (v.vtype == "raidz1" && |v.devices| >= 3)
    || (v.vtype == "raidz2" && |v.devices| >= 4)
    || (v.vtype == "raidz3" && |v.devices| >= 5)
  }

  predicate RoleRule(v: Vdev) {
    || v.role == "data" || v.role == "log" || v.role == "special"
    || ((v.role == "cache" || v.role == "spare") && (v.vtype == "" || v.vtype == "stripe"))
  }

  predicate VdevRule(v: Vdev) {
    RoleRule(v) && ShapeRule(v) && forall j | 0 <= j < |v.devices| :: DeviceRule(v.devices[j])
  }

  /** Slot `j` of vdev `i`. */
  predicate Slot(vdevs: seq<Vdev>, i: int, j: int) {
    0 <= i < |vdevs| && 0 <= j < |vdevs[i].devices|
  }

  /** No two slots of the layout, in one vdev or in two, name the same device up to outer white space. */
  ghost predicate NoDeviceTwice(vdevs: seq<Vdev>) {
    forall i, j, k, l | Slot(vdevs, i, j) && Slot(vdevs, k, l) && (i != k || j != l) ::
      TrimSpace(vdevs[i].devices[j]) != TrimSpace(vdevs[k].devices[l])
  }

  predicate MountpointRule(mountpoint: string) {
    || mountpoint == ""
    || (mountpoint[0] == '/' && '\n' !in mountpoint && '\r' !in mountpoint && '\0' !in mountpoint)
  }

  // ----- Names -----

  lemma {:induction false} ToLowerAt(s: string, i: nat)
    requires i < |s|
    ensures ToLower(s)[i] == if 'A' <= s[i] <= 'Z' then (s[i] as int + 32) as char else s[i]
  {
    if i > 0 {
      ToLowerAt(s[1..], i - 1);
    }
  }

  lemma {:induction false} SpellsIff(s: string, word: string)
    requires forall i | 0 <= i < |word| :: 'a' <= word[i] <= 'z' || IsDigit(word[i])
    requires forall i | 0 <= i < |s| :: IsLetter(s[i]) || IsDigit(s[i]) || s[i] == '_' || s[i] == '-'
    ensures ToLower(s) == word <==> Spells(s, word)
  {
    forall i | 0 <= i < |s|
      ensures ToLower(s)[i] == if 'A' <= s[i] <= 'Z' then (s[i] as int + 32) as char else s[i]
    {
      ToLowerAt(s, i);
    }
    hide ToLower;
  }

  lemma {:induction false} KeywordIff(n: string)
    requires forall i | 0 <= i < |n| :: IsLetter(n[i]) || IsDigit(n[i]) || n[i] == '_' || n[i] == '-'
    ensures ToLower(n) in RESERVED_NAMES <==> IsKeyword(n)
  {
    hide ToLower, Spells;
    SpellsIff(n, "mirror");
    SpellsIff(n, "raidz");
    SpellsIff(n, "raidz1");
    SpellsIff(n, "raidz2");
    SpellsIff(n, "raidz3");
    SpellsIff(n, "spare");
    SpellsIff(n, "log");
    SpellsIff(n, "cache");
    SpellsIff(n, "special");
    SpellsIff(n, "dedup");
    SpellsIff(n, "draid");
  }

  lemma {:induction false} NameRuleIff(name: string)
    ensures ValidName(name) <==> NameRule(name)
  {
    hide TrimSpace, ToLower, IsKeyword;
    var n := TrimSpace(name);
    assert (forall c | c in n :: IsLetter(c) || IsDigit(c) || c == '_' || c == '-')
           <==> forall i | 0 <= i < |n| :: IsLetter(n[i]) || IsDigit(n[i]) || n[i] == '_' || n[i] == '-';
    if forall i | 0 <= i < |n| :: IsLetter(n[i]) || IsDigit(n[i]) || n[i] == '_' || n[i] == '-' {
      KeywordIff(n);
    }
  }

  // ----- Vdevs -----

  lemma {:induction false} VdevRuleIff(v: Vdev)
    ensures ValidVdev(v) <==> VdevRule(v)
  {
    hide TrimSpace;
    assert forall d :: ValidDevice(d) <==> DeviceRule(d);
    hide ValidDevice, DeviceRule;
    assert (forall d | d in v.devices :: ValidDevice(d)) <==> forall j | 0 <= j < |v.devices| :: ValidDevice(v.devices[j]);
  }

  // ----- Devices -----

  /** Different slots have different places among all devices. */
  lemma {:induction false} PlacesDiffer(vdevs: seq<Vdev>, i: nat, j: nat, k: nat, l: nat)
    requires Slot(vdevs, i, j) && Slot(vdevs, k, l) && (i < k || (i == k && j < l))
    ensures Position(vdevs, i, j) < Position(vdevs, k, l)
  {
    if i < k {
      PositionNext(vdevs, i);
      AllDevicesPrefix(vdevs[..k], i + 1);
      assert vdevs[..k][..i + 1] == vdevs[..i + 1];
    }
  }

  /** Every device stands in some slot. */
  lemma {:induction false} SlotOf(vdevs: seq<Vdev>, n: nat) returns (i: nat, j: nat)
    requires n < |AllDevices(vdevs)|
    ensures Slot(vdevs, i, j) && Position(vdevs, i, j) == n && AllDevices(vdevs)[n] == TrimSpace(vdevs[i].devices[j])
    decreases |vdevs|
  {
    hide TrimSpace;
    var last := |vdevs| - 1;
    var init := vdevs[..last];
    if n < |AllDevices(init)| {
      i, j := SlotOf(init, n);
      assert init[..i] == vdevs[..i];
    } else {
      i, j := last, n - |AllDevices(init)|;
    }
    DeviceAt(vdevs, i, j);
  }

  lemma {:induction false} DistinctIff(vdevs: seq<Vdev>)
    ensures Distinct(AllDevices(vdevs)) <==> NoDeviceTwice(vdevs)
  {
    hide AllDevices, TrimSpace, Position;
    var all := AllDevices(vdevs);
    if Distinct(all) {
      forall i, j, k, l | Slot(vdevs, i, j) && Slot(vdevs, k, l) && (i != k || j != l)
        ensures TrimSpace(vdevs[i].devices[j]) != TrimSpace(vdevs[k].devices[l])
      {
        DeviceAt(vdevs, i, j);
        DeviceAt(vdevs, k, l);
        if i < k || (i == k && j < l) {
          PlacesDiffer(vdevs, i, j, k, l);
        } else {
          PlacesDiffer(vdevs, k, l, i, j);
        }
      }
    }
    if NoDeviceTwice(vdevs) {
      forall m, n | 0 <= m < n < |all|
        ensures all[m] != all[n]
      {
        var i, j := SlotOf(vdevs, m);
        var k, l := SlotOf(vdevs, n);
      }
    }
  }

  /** A spec is accepted exactly under these rules. */
  lemma {:induction false} SpecRules(s: Spec)
    ensures ValidSpec(s) <==>
      && NameRule(s.name)
      && (forall i | 0 <= i < |s.vdevs| :: VdevRule(s.vdevs[i]))
      && (exists i :: 0 <= i < |s.vdevs| && s.vdevs[i].role == "data")
      && NoDeviceTwice(s.vdevs)
      && (s.ashift == 0 || 9 <= s.ashift <= 16)
      && MountpointRule(s.mountpoint)
  {
    NameRuleIff(s.name);
    DistinctIff(s.vdevs);
    assert ValidMountpoint(s.mountpoint) <==> MountpointRule(s.mountpoint);
    hide ValidName, NameRule, NoDeviceTwice, Distinct, ValidMountpoint, MountpointRule, AllDevices, TrimSpace;
    forall i | 0 <= i < |s.vdevs|
      ensures ValidVdev(s.vdevs[i]) <==> VdevRule(s.vdevs[i])
    {
      VdevRuleIff(s.vdevs[i]);
    }
    hide ValidVdev, VdevRule;
    assert (forall v | v in s.vdevs :: ValidVdev(v)) <==> forall i | 0 <= i < |s.vdevs| :: ValidVdev(s.vdevs[i]);
  }

  // ----- White space -----

  /** Trimming takes white space off both ends and nothing else; within ASCII white space is the blank,
    * tabs and the characters that end or feed lines. */
  lemma {:induction false} TrimSpaceIs(s: string) returns (i: nat, j: nat)
    ensures i <= j <= |s| && TrimSpace(s) == s[i..j]
    ensures forall k | 0 <= k < |s| && !(i <= k < j) :: IsSpace(s[k])
    ensures i < j ==> !IsSpace(s[i]) && !IsSpace(s[j - 1])
    ensures forall c: char | c as int < 0x80 :: IsSpace(c) <==> c == ' ' || 9 <= c as int <= 13
  {
    assert forall c: char | c as int < 0x80 :: IsSpace(c) <==> c == ' ' || 9 <= c as int <= 13;
    var t := TrimLeft(s);
    i := TrimLeftIs(s);
    var n := TrimRightIs(t);
    j := i + n;
    hide TrimLeft, TrimRight;
    hide IsSpace;
    Within(s, i, n);
    forall k | j <= k < |s|
      ensures IsSpace(s[k])
    {
      assert t[k - i] == s[k];
    }
  }

  lemma {:induction false} Within(s: string, i: nat, n: nat)
    requires i + n <= |s|
    ensures s[i..][..n] == s[i..i + n]
  {
  }

  lemma {:induction false} TrimLeftIs(s: string) returns (i: nat)
    ensures i <= |s| && TrimLeft(s) == s[i..] && forall k | 0 <= k < i :: IsSpace(s[k])
  {
    if s != "" && IsSpace(s[0]) {
      var n := TrimLeftIs(s[1..]);
      i := n + 1;
      assert s[1..][n..] == s[i..];
      assert forall k | 0 < k < i :: s[k] == s[1..][k - 1];
    } else {
      i := 0;
    }
  }

  lemma {:induction false} TrimRightIs(s: string) returns (n: nat)
    ensures n <= |s| && TrimRight(s) == s[..n] && forall k | n <= k < |s| :: IsSpace(s[k])
  {
    if s != "" && IsSpace(s[|s| - 1]) {
      var init := s[..|s| - 1];
      n := TrimRightIs(init);
      assert init[..n] == s[..n];
      assert forall k | n <= k < |init| :: init[k] == s[k];
    } else {
      n := |s|;
    }
  }
}
