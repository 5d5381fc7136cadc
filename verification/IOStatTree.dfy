/** What the iostat parser reads: a flat row stream without indentation as pools of vdevs of disks.
  * The reading loses no row, invents none, and is the only possible one. */
module IOStatTree {
  import opened Common
  import opened Text
  import opened IOStatText

  datatype Disk = Disk(name: string, io: Counters)

  datatype Vdev = Vdev(name: string, vtype: string, alloc: nat, free: nat, io: Counters, disks: seq<Disk>)

  datatype Pool = Pool(name: string, alloc: nat, free: nat, io: Counters, vdevs: seq<Vdev>)

  // ----- Classification by name -----

  const VDEV_PREFIXES: seq<string> := ["mirror", "raidz", "spare", "cache", "log", "special"]

  predicate IsVdevType(name: string) {
    exists p :: p in VDEV_PREFIXES && HasPrefix(name, p)
  }

  predicate LooksLikeDisk(name: string) {
    || HasPrefix(name, "/")
    || HasPrefix(name, "sd") || HasPrefix(name, "nvme") || HasPrefix(name, "vd") || HasPrefix(name, "hd")
    || HasPrefix(name, "xvd") || HasPrefix(name, "wwn-") || HasPrefix(name, "scsi-") || HasPrefix(name, "ata-")
  }

  function ClassifyVdevType(name: string): string {
    if HasPrefix(name, "mirror") then "mirror"
    else if HasPrefix(name, "raidz") then
      if '-' in name && IndexOf(name, '-') > 0 then name[..IndexOf(name, '-')] else "raidz"
    else if HasPrefix(name, "spare") then "spare"
    else if HasPrefix(name, "cache") then "cache"
    else if HasPrefix(name, "log") then "log"
    else if HasPrefix(name, "special") then "special"
    else if HasPrefix(name, "dedup") then "dedup"
    else "disk"
  }

  datatype Kind = VdevRow | DiskRow | PoolRow

  function KindOf(name: string): Kind {
    if IsVdevType(name) then VdevRow else if LooksLikeDisk(name) then DiskRow else PoolRow
  }

  /** The type of a vdev row is a dash-free start of its name: the vdev prefix it was recognized by, or
    * for raidz the whole word up to the dash. */
  lemma {:induction false} TypeIsStartOfName(name: string)
    requires IsVdevType(name)
    ensures
      var t := ClassifyVdevType(name);
      && HasPrefix(name, t) && '-' !in t
      && (t in VDEV_PREFIXES || (HasPrefix(t, "raidz") && name[|t|..] != "" && name[|t|] == '-'))
  {
    assert VDEV_PREFIXES[0] == "mirror" && VDEV_PREFIXES[1] == "raidz" && VDEV_PREFIXES[2] == "spare";
    assert VDEV_PREFIXES[3] == "cache" && VDEV_PREFIXES[4] == "log" && VDEV_PREFIXES[5] == "special";
    if HasPrefix(name, "raidz") && '-' in name {
      var i := IndexOf(name, '-');
      assert forall k | 0 <= k < 5 :: name[k] == "raidz"[k] && "raidz"[k] != '-';
      assert i >= 5 && HasPrefix(name[..i], "raidz");
    }
  }

  /** Which names open a vdev, which are disks, and so which are pools: every other name. */
  lemma {:induction false} KindIff(name: string)
    ensures KindOf(name) == VdevRow
            <==> || "mirror" <= name || "raidz" <= name || "spare" <= name || "cache" <= name || "log" <= name
                 || "special" <= name
    ensures KindOf(name) == DiskRow
            <==> || "/" <= name || "sd" <= name || "nvme" <= name || "vd" <= name || "hd" <= name || "xvd" <= name
                 || "wwn-" <= name || "scsi-" <= name || "ata-" <= name
  {
    hide IsVdevType;
    VdevPrefixesIff(name);
    if name != "" {
      PrefixesDiffer(name);
    }
  }

  lemma {:induction false} VdevPrefixesIff(name: string)
    ensures IsVdevType(name)
            <==> || "mirror" <= name || "raidz" <= name || "spare" <= name || "cache" <= name || "log" <= name
                 || "special" <= name
  {
    assert VDEV_PREFIXES[0] == "mirror" && VDEV_PREFIXES[1] == "raidz" && VDEV_PREFIXES[2] == "spare";
    assert VDEV_PREFIXES[3] == "cache" && VDEV_PREFIXES[4] == "log" && VDEV_PREFIXES[5] == "special";
    assert forall k | 0 <= k < 6 :: VDEV_PREFIXES[k] in VDEV_PREFIXES && (HasPrefix(name, VDEV_PREFIXES[k]) <==> VDEV_PREFIXES[k] <= name);
    if IsVdevType(name) {
      var p :| p in VDEV_PREFIXES && HasPrefix(name, p);
      var k :| 0 <= k < 6 && VDEV_PREFIXES[k] == p;
    }
  }

  /** No disk prefix can be confused with a vdev prefix. */
  lemma {:induction false} PrefixesDiffer(name: string)
    requires name != ""
    ensures "mirror" <= name ==> name[0] == 'm'
    ensures "raidz" <= name ==> name[0] == 'r'
    ensures "spare" <= name || "special" <= name ==> name[0] == 's' && name[1] == 'p'
    ensures "cache" <= name ==> name[0] == 'c'
    ensures "log" <= name ==> name[0] == 'l'
    ensures "sd" <= name ==> name[0] == 's' && name[1] == 'd'
    ensures "scsi-" <= name ==> name[0] == 's' && name[1] == 'c'
    ensures "/" <= name ==> name[0] == '/'
    ensures "nvme" <= name ==> name[0] == 'n'
    ensures "vd" <= name ==> name[0] == 'v'
    ensures "hd" <= name ==> name[0] == 'h'
    ensures "xvd" <= name ==> name[0] == 'x'
    ensures "wwn-" <= name ==> name[0] == 'w'
    ensures "ata-" <= name ==> name[0] == 'a'
  {
    assert "mirror"[0] == 'm' && "raidz"[0] == 'r' && "cache"[0] == 'c' && "log"[0] == 'l';
    assert "spare"[0] == "special"[0] == "sd"[0] == "scsi-"[0] == 's';
    assert "spare"[1] == "special"[1] == 'p' && "sd"[1] == 'd' && "scsi-"[1] == 'c';
    assert "/"[0] == '/' && "nvme"[0] == 'n' && "vd"[0] == 'v' && "hd"[0] == 'h' && "xvd"[0] == 'x';
    assert "wwn-"[0] == 'w' && "ata-"[0] == 'a';
  }

  /** The rows zpool prints for the usual disks and vdevs, whatever their numbers. */
  lemma {:induction false} UsualNames(controller: nat, namespace: nat, letters: string, n: nat, parity: string)
    requires '-' !in parity
    ensures KindOf("nvme" + Itoa(controller) + "n" + Itoa(namespace)) == DiskRow
    ensures KindOf("sd" + letters) == DiskRow && KindOf("/dev/" + letters) == DiskRow
    ensures KindOf("mirror-" + Itoa(n)) == VdevRow && ClassifyVdevType("mirror-" + Itoa(n)) == "mirror"
    ensures KindOf("raidz" + parity + "-" + Itoa(n)) == VdevRow
    ensures ClassifyVdevType("raidz" + parity + "-" + Itoa(n)) == "raidz" + parity
  {
    hide KindOf, Itoa;
    var nvme, group := "nvme" + Itoa(controller) + "n" + Itoa(namespace), "raidz" + parity + "-" + Itoa(n);
    KindIff(nvme);
    KindIff("sd" + letters);
    KindIff("/dev/" + letters);
    KindIff("mirror-" + Itoa(n));
    KindIff(group);
    assert "nvme" <= nvme && "sd" <= "sd" + letters && "/" <= "/dev/" + letters;
    assert "mirror" <= "mirror-" + Itoa(n) && "raidz" <= group;
    RaidzType(parity, Itoa(n));
  }

  lemma {:induction false} RaidzType(parity: string, tail: string)
    requires '-' !in parity
    ensures ClassifyVdevType("raidz" + parity + "-" + tail) == "raidz" + parity
  {
    var name := "raidz" + parity + "-" + tail;
    assert name == ("raidz" + parity) + ['-'] + tail;
    assert '-' !in "raidz" + parity;
    IndexOfConcat("raidz" + parity, '-', tail);
    hide IndexOf;
    assert name[0] == 'r' && "mirror"[0] == 'm' && name[|"raidz" + parity|] == '-';
    assert "raidz" <= name;
  }

  /** The documentation counts dedup among the vdev prefixes; the code opens a new pool for it. */
  lemma {:induction false} DedupRowIsAPool()
    ensures KindOf("dedup") == PoolRow
  {
    var name := "dedup";
    assert name[0] == 'd';
    forall p | p in VDEV_PREFIXES
      ensures !HasPrefix(name, p)
    {
      assert p[0] != 'd';
    }
  }

  // ----- Trees and their rows -----

  function DiskFlat(d: Disk): Row {
    Row(d.name, 0, 0, d.io)
  }

  function DisksFlat(disks: seq<Disk>): seq<Row> {
    if disks == [] then [] else DisksFlat(disks[..|disks| - 1]) + [DiskFlat(disks[|disks| - 1])]
  }

  function VdevFlat(v: Vdev): seq<Row> {
    [Row(v.name, v.alloc, v.free, v.io)] + DisksFlat(v.disks)
  }

  function VdevsFlat(vdevs: seq<Vdev>): seq<Row> {
    if vdevs == [] then [] else VdevsFlat(vdevs[..|vdevs| - 1]) + VdevFlat(vdevs[|vdevs| - 1])
  }

  function PoolFlat(p: Pool): seq<Row> {
    [Row(p.name, p.alloc, p.free, p.io)] + VdevsFlat(p.vdevs)
  }

  /** Preorder: every pool followed by its vdevs, every vdev followed by its disks. */
  function Flatten(pools: seq<Pool>): seq<Row> {
    if pools == [] then [] else Flatten(pools[..|pools| - 1]) + PoolFlat(pools[|pools| - 1])
  }

  predicate NormalVdev(v: Vdev, first: bool) {
    && (forall d | d in v.disks :: KindOf(d.name) == DiskRow)
    && if KindOf(v.name) == VdevRow then v.vtype == ClassifyVdevType(v.name)
       else first && KindOf(v.name) == DiskRow && v.vtype == "disk"
  }

  predicate NormalPool(p: Pool) {
    KindOf(p.name) == PoolRow && forall k | 0 <= k < |p.vdevs| :: NormalVdev(p.vdevs[k], k == 0)
  }

  /** The trees that a row stream can express: names tell their level, and a bare disk stands for a
    * vdev only as the first of its pool. */
  predicate NormalForm(pools: seq<Pool>) {
    forall p | p in pools :: NormalPool(p)
  }

  // ----- The tree of a row stream -----

  function DropToPool(rows: seq<Row>): seq<Row> {
    if rows == [] || KindOf(rows[0].name) == PoolRow then rows else DropToPool(rows[1..])
  }

  /** The rows with the space columns of nested leaves blanked: those are the disk rows that follow
    * another row of the same pool. */
  function WithoutLeafSpace(rows: seq<Row>): (r: seq<Row>)
    ensures |r| == |rows|
  {
    if rows == [] then []
    else
      var n := |rows| - 1;
      WithoutLeafSpace(rows[..n])
      + [if n > 0 && KindOf(rows[n].name) == DiskRow && KindOf(rows[n - 1].name) != PoolRow then rows[n].(alloc := 0, free := 0)
         else rows[n]]
  }

  function VdevOf(r: Row, vtype: string): Vdev {
    Vdev(r.name, vtype, r.alloc, r.free, r.io, [])
  }

  function PoolOf(r: Row): Pool {
    Pool(r.name, r.alloc, r.free, r.io, [])
  }

  function PutVdev(p: Pool, v: Vdev): Pool {
    p.(vdevs := p.vdevs + [v])
  }

  function PutDisk(p: Pool, d: Disk): Pool
    requires p.vdevs != []
  {
    var n := |p.vdevs| - 1;
    p.(vdevs := p.vdevs[..n] + [p.vdevs[n].(disks := p.vdevs[n].disks + [d])])
  }

  /** The pool a row is added to, with the row added. */
  function Grow(p: Pool, r: Row): Pool {
    if KindOf(r.name) == VdevRow then PutVdev(p, VdevOf(r, ClassifyVdevType(r.name)))
    else if p.vdevs == [] then PutVdev(p, VdevOf(r, "disk"))
    else PutDisk(p, Disk(r.name, r.io))
  }

  /** What one more row does to the tree read so far. */
  function Step(pools: seq<Pool>, r: Row): seq<Pool> {
    if KindOf(r.name) == PoolRow then pools + [PoolOf(r)]
    else if pools == [] then []
    else pools[..|pools| - 1] + [Grow(pools[|pools| - 1], r)]
  }

  function Tree(rows: seq<Row>): seq<Pool> {
    if rows == [] then [] else Step(Tree(rows[..|rows| - 1]), rows[|rows| - 1])
  }

  // ----- Rows and trees -----

  predicate HasPoolRow(rows: seq<Row>) {
    exists r :: r in rows && KindOf(r.name) == PoolRow
  }

  // ----- Rows before the first pool -----

  lemma {:induction false} NoPoolNoTree(rows: seq<Row>)
    ensures Tree(rows) == [] <==> !HasPoolRow(rows)
  {
    hide KindOf;
    if rows != [] {
      var init, last := rows[..|rows| - 1], rows[|rows| - 1];
      assert rows == init + [last];
      NoPoolNoTree(init);
    }
  }

  lemma {:induction false} TreeConcat(junk: seq<Row>, rows: seq<Row>)
    requires !HasPoolRow(junk)
    ensures Tree(junk + rows) == Tree(rows)
    decreases |rows|
  {
    if rows == [] {
      assert junk + rows == junk;
      NoPoolNoTree(junk);
    } else {
      hide Step;
      assert (junk + rows)[..|junk + rows| - 1] == junk + rows[..|rows| - 1];
      TreeConcat(junk, rows[..|rows| - 1]);
    }
  }

  lemma {:induction false} DropSplits(rows: seq<Row>) returns (junk: seq<Row>)
    ensures rows == junk + DropToPool(rows) && !HasPoolRow(junk)
  {
    hide KindOf;
    if rows == [] || KindOf(rows[0].name) == PoolRow {
      junk := [];
    } else {
      var rest := DropSplits(rows[1..]);
      junk := [rows[0]] + rest;
      assert rows == [rows[0]] + rows[1..];
    }
  }

  lemma {:induction false} TreeDropsJunk(rows: seq<Row>)
    ensures Tree(rows) == Tree(DropToPool(rows))
  {
    var junk := DropSplits(rows);
    TreeConcat(junk, DropToPool(rows));
  }

  // ----- Conservation -----

  lemma {:induction false} FlattenSnoc(pools: seq<Pool>, p: Pool)
    ensures Flatten(pools + [p]) == Flatten(pools) + PoolFlat(p)
  {
    hide PoolFlat;
    assert (pools + [p])[..|pools|] == pools;
  }

  lemma {:induction false} PutVdevFlat(p: Pool, v: Vdev)
    ensures PoolFlat(PutVdev(p, v)) == PoolFlat(p) + VdevFlat(v)
  {
    hide VdevFlat;
    assert (p.vdevs + [v])[..|p.vdevs|] == p.vdevs;
  }

  lemma {:induction false} AddDiskFlat(v: Vdev, d: Disk)
    ensures VdevFlat(v.(disks := v.disks + [d])) == VdevFlat(v) + [DiskFlat(d)]
  {
    assert (v.disks + [d])[..|v.disks|] == v.disks;
  }

  lemma {:induction false} PutDiskFlat(p: Pool, d: Disk)
    requires p.vdevs != []
    ensures PoolFlat(PutDisk(p, d)) == PoolFlat(p) + [DiskFlat(d)]
  {
    var n := |p.vdevs| - 1;
    var v := p.vdevs[n];
    var w := v.(disks := v.disks + [d]);
    AddDiskFlat(v, d);
    hide VdevFlat;
    assert (p.vdevs[..n] + [w])[..n] == p.vdevs[..n];
  }

  /** The last pool of a tree has vdevs exactly when the last row was not the pool's own. */
  ghost predicate LastPoolOpen(rows: seq<Row>) {
    var t := Tree(rows);
    rows != [] && t != [] && (t[|t| - 1].vdevs == [] <==> KindOf(rows[|rows| - 1].name) == PoolRow)
  }

  lemma {:induction false} LastPool(rows: seq<Row>)
    requires rows != [] && KindOf(rows[0].name) == PoolRow
    ensures LastPoolOpen(rows)
  {
    hide KindOf, ClassifyVdevType;
    var n := |rows| - 1;
    if n > 0 {
      LastPool(rows[..n]);
    }
  }

  /** What a row adds to the flattening. */
  lemma {:induction false} GrowFlat(p: Pool, r: Row)
    requires KindOf(r.name) != PoolRow
    ensures PoolFlat(Grow(p, r)) == PoolFlat(p) + [if KindOf(r.name) == DiskRow && p.vdevs != [] then r.(alloc := 0, free := 0) else r]
  {
    hide KindOf, ClassifyVdevType, PoolFlat;
    if KindOf(r.name) == VdevRow {
      PutVdevFlat(p, VdevOf(r, ClassifyVdevType(r.name)));
    } else if p.vdevs == [] {
      PutVdevFlat(p, VdevOf(r, "disk"));
    } else {
      PutDiskFlat(p, Disk(r.name, r.io));
    }
  }

  lemma {:induction false} StepFlat(pools: seq<Pool>, r: Row)
    requires pools != [] || KindOf(r.name) == PoolRow
    ensures Flatten(Step(pools, r)) == Flatten(pools)
              + [if KindOf(r.name) == DiskRow && pools[|pools| - 1].vdevs != [] then r.(alloc := 0, free := 0) else r]
  {
    hide KindOf;
    if KindOf(r.name) == PoolRow {
      FlattenSnoc(pools, PoolOf(r));
    } else {
      hide Grow, PoolFlat;
      var n := |pools| - 1;
      var q := Grow(pools[n], r);
      GrowFlat(pools[n], r);
      FlattenSnoc(pools[..n], q);
      assert pools[..n] + [pools[n]] == pools;
    }
  }

  lemma {:induction false} ConservedFromPool(rows: seq<Row>)
    requires rows != [] ==> KindOf(rows[0].name) == PoolRow
    ensures Flatten(Tree(rows)) == WithoutLeafSpace(rows)
  {
    if rows != [] {
      hide KindOf, Step;
      var n := |rows| - 1;
      var init, last := rows[..n], rows[n];
      ConservedFromPool(init);
      if n > 0 {
        LastPool(init);
        assert init[n - 1] == rows[n - 1];
      }
      StepFlat(Tree(init), last);
    }
  }

  lemma {:induction false} DropStartsWithPool(rows: seq<Row>)
    ensures DropToPool(rows) != [] ==> KindOf(DropToPool(rows)[0].name) == PoolRow
  {
    if rows != [] && KindOf(rows[0].name) != PoolRow {
      DropStartsWithPool(rows[1..]);
    }
  }

  /** The preorder flattening of the result is the accepted rows from the first pool row on, in order
    * and exactly once, up to the space columns of leaves. */
  lemma {:induction false} TreeConserves(rows: seq<Row>)
    ensures Flatten(Tree(rows)) == WithoutLeafSpace(DropToPool(rows))
  {
    TreeDropsJunk(rows);
    DropStartsWithPool(rows);
    ConservedFromPool(DropToPool(rows));
  }

  // ----- Every result is in normal form -----

  lemma {:induction false} GrowNormal(p: Pool, r: Row)
    requires NormalPool(p) && KindOf(r.name) != PoolRow
    ensures NormalPool(Grow(p, r))
  {
    hide KindOf, ClassifyVdevType;
    var q := Grow(p, r);
    forall k | 0 <= k < |q.vdevs|
      ensures NormalVdev(q.vdevs[k], k == 0)
    {
      if k < |p.vdevs| {
        assert NormalVdev(p.vdevs[k], k == 0);
      }
    }
  }

  lemma {:induction false} TreeNormal(rows: seq<Row>)
    ensures NormalForm(Tree(rows))
  {
    if rows != [] {
      hide NormalPool, Grow;
      var init, r := rows[..|rows| - 1], rows[|rows| - 1];
      TreeNormal(init);
      if KindOf(r.name) == PoolRow {
        NewPoolNormal(r);
      } else if Tree(init) != [] {
        GrowNormal(Tree(init)[|Tree(init)| - 1], r);
      }
    }
  }

  lemma {:induction false} NewPoolNormal(r: Row)
    requires KindOf(r.name) == PoolRow
    ensures NormalPool(PoolOf(r))
  {
  }

  // ----- Reading a flattening back -----

  lemma {:induction false} TreeSnoc(rows: seq<Row>, r: Row)
    ensures Tree(rows + [r]) == Step(Tree(rows), r)
  {
    hide Step;
    assert (rows + [r])[..|rows|] == rows;
  }

  lemma {:induction false} SetLast(pools: seq<Pool>, p: Pool, q: Pool)
    ensures var ps := pools + [p]; ps[|ps| - 1] == p && ps[..|ps| - 1] + [q] == pools + [q]
  {
  }

  lemma {:induction false} VdevRowReads(rows: seq<Row>, pools: seq<Pool>, p: Pool, v: Vdev)
    requires Tree(rows) == pools + [p] && NormalVdev(v, p.vdevs == []) && v.disks == []
    ensures Tree(rows + VdevFlat(v)) == pools + [PutVdev(p, v)]
  {
    hide KindOf, ClassifyVdevType;
    var r := Row(v.name, v.alloc, v.free, v.io);
    assert VdevFlat(v) == [r] + [] == [r];
    TreeSnoc(rows, r);
    SetLast(pools, p, PutVdev(p, v));
  }

  lemma {:induction false} DiskRowReads(rows: seq<Row>, pools: seq<Pool>, p: Pool, v: Vdev, d: Disk)
    requires Tree(rows) == pools + [PutVdev(p, v)] && KindOf(d.name) == DiskRow
    ensures Tree(rows + [DiskFlat(d)]) == pools + [PutVdev(p, v.(disks := v.disks + [d]))]
  {
    hide KindOf, ClassifyVdevType;
    var q := PutVdev(p, v);
    TreeSnoc(rows, DiskFlat(d));
    SetLast(pools, q, Grow(q, DiskFlat(d)));
    assert q.vdevs[..|p.vdevs|] == p.vdevs;
  }

  lemma {:induction false} VdevInit(v: Vdev, first: bool)
    requires NormalVdev(v, first) && v.disks != []
    ensures
      var n := |v.disks| - 1;
      var w := v.(disks := v.disks[..n]);
      && NormalVdev(w, first) && KindOf(v.disks[n].name) == DiskRow
      && v == w.(disks := w.disks + [v.disks[n]]) && VdevFlat(v) == VdevFlat(w) + [DiskFlat(v.disks[n])]
  {
    hide KindOf, ClassifyVdevType;
    var n := |v.disks| - 1;
    var w := v.(disks := v.disks[..n]);
    assert v.disks == w.disks + [v.disks[n]];
    AddDiskFlat(w, v.disks[n]);
  }

  lemma {:induction false} Associative(a: seq<Row>, b: seq<Row>, c: seq<Row>)
    ensures a + b + c == a + (b + c)
  {
  }

  lemma {:induction false} VdevReads(rows: seq<Row>, pools: seq<Pool>, p: Pool, v: Vdev)
    requires Tree(rows) == pools + [p] && NormalVdev(v, p.vdevs == [])
    ensures Tree(rows + VdevFlat(v)) == pools + [PutVdev(p, v)]
    decreases |v.disks|
  {
    hide *;
    if v.disks == [] {
      VdevRowReads(rows, pools, p, v);
    } else {
      var n := |v.disks| - 1;
      var w, d := v.(disks := v.disks[..n]), v.disks[n];
      VdevInit(v, p.vdevs == []);
      VdevReads(rows, pools, p, w);
      DiskRowReads(rows + VdevFlat(w), pools, p, w, d);
      Associative(rows, VdevFlat(w), [DiskFlat(d)]);
    }
  }

  lemma {:induction false} PoolInit(p: Pool)
    requires NormalPool(p) && p.vdevs != []
    ensures
      var n := |p.vdevs| - 1;
      var q := p.(vdevs := p.vdevs[..n]);
      && NormalPool(q) && NormalVdev(p.vdevs[n], q.vdevs == [])
      && p == PutVdev(q, p.vdevs[n]) && PoolFlat(p) == PoolFlat(q) + VdevFlat(p.vdevs[n])
  {
    hide KindOf, NormalVdev, VdevFlat, PoolFlat;
    var n := |p.vdevs| - 1;
    var q := p.(vdevs := p.vdevs[..n]);
    assert NormalVdev(p.vdevs[n], n == 0);
    assert forall k | 0 <= k < n :: NormalVdev(p.vdevs[k], k == 0);
    assert p.vdevs == q.vdevs + [p.vdevs[n]];
    PutVdevFlat(q, p.vdevs[n]);
  }

  lemma {:induction false} PoolRowReads(rows: seq<Row>, p: Pool)
    requires KindOf(p.name) == PoolRow && p.vdevs == []
    ensures Tree(rows + PoolFlat(p)) == Tree(rows) + [p]
  {
    hide KindOf;
    var r := Row(p.name, p.alloc, p.free, p.io);
    assert PoolFlat(p) == [r] + [] == [r];
    TreeSnoc(rows, r);
  }

  lemma {:induction false} NextVdevReads(rows: seq<Row>, pools: seq<Pool>, q: Pool, v: Vdev)
    requires Tree(rows + PoolFlat(q)) == pools + [q] && NormalVdev(v, q.vdevs == [])
    ensures Tree(rows + (PoolFlat(q) + VdevFlat(v))) == pools + [PutVdev(q, v)]
  {
    hide KindOf, NormalVdev, Tree, PoolFlat, VdevFlat, PutVdev;
    VdevReads(rows + PoolFlat(q), pools, q, v);
    assert rows + PoolFlat(q) + VdevFlat(v) == rows + (PoolFlat(q) + VdevFlat(v));
  }

  lemma {:induction false} PoolReads(rows: seq<Row>, p: Pool)
    requires NormalPool(p)
    ensures Tree(rows + PoolFlat(p)) == Tree(rows) + [p]
    decreases |p.vdevs|
  {
    if p.vdevs == [] {
      PoolRowReads(rows, p);
    } else {
      PoolInit(p);
      hide *;
      var n := |p.vdevs| - 1;
      var q := p.(vdevs := p.vdevs[..n]);
      PoolReads(rows, q);
      NextVdevReads(rows, Tree(rows), q, p.vdevs[n]);
    }
  }

  lemma {:induction false} NormalTreeReads(pools: seq<Pool>)
    requires NormalForm(pools)
    ensures Tree(Flatten(pools)) == pools
  {
    hide NormalPool, PoolFlat, Step;
    if pools != [] {
      var n := |pools| - 1;
      assert pools[n] in pools;
      NormalTreeReads(pools[..n]);
      PoolReads(Flatten(pools[..n]), pools[n]);
      assert pools[..n] + [pools[n]] == pools;
    }
  }

  /** Parsing the flattening of a tree gives that tree back exactly for the trees in normal form. */
  lemma {:induction false} FlattenReadsBackIff(pools: seq<Pool>)
    ensures Tree(Flatten(pools)) == pools <==> NormalForm(pools)
  {
    TreeNormal(Flatten(pools));
    if NormalForm(pools) {
      NormalTreeReads(pools);
    }
  }

  // ----- The parser's result is the only one -----

  lemma {:induction false} TreeIgnoresLeafSpace(rows: seq<Row>)
    requires rows != [] ==> KindOf(rows[0].name) == PoolRow
    ensures Tree(WithoutLeafSpace(rows)) == Tree(rows)
  {
    ConservedFromPool(rows);
    TreeNormal(rows);
    NormalTreeReads(Tree(rows));
  }

  /** A normal tree that accounts for the accepted rows is the parsed one. */
  lemma {:induction false} OnlyReading(rows: seq<Row>, pools: seq<Pool>)
    requires NormalForm(pools) && Flatten(pools) == WithoutLeafSpace(DropToPool(rows))
    ensures pools == Tree(rows)
  {
    NormalTreeReads(pools);
    DropStartsWithPool(rows);
    TreeIgnoresLeafSpace(DropToPool(rows));
    TreeDropsJunk(rows);
  }

  /** From the text on: printing a normal tree and parsing the output gives the tree back. */
  lemma {:induction false} PrintedTreeParses(pools: seq<Pool>)
    requires NormalForm(pools) && forall r | r in Flatten(pools) :: Printable(r)
    ensures Tree(RowsOf(PrintRows(Flatten(pools)))) == pools
  {
    PrintRowsReadBack(Flatten(pools));
    NormalTreeReads(pools);
  }

  lemma {:induction false} OneDiskPool(pool: Row, a: Row)
    requires KindOf(pool.name) == PoolRow && KindOf(a.name) == DiskRow
    ensures Tree([pool, a]) == [PutVdev(PoolOf(pool), VdevOf(a, "disk"))]
  {
    hide KindOf;
    var p := PoolOf(pool);
    assert [pool][..0] == [] && [p][..0] == [];
    assert Tree([pool]) == [] + [p] == [p];
    TreeSnoc([pool], a);
    assert [pool, a] == [pool] + [a];
    assert [] + [Grow(p, a)] == [Grow(p, a)];
  }

  /** A striped pool keeps its first disk as the vdev and nests the second one below it. */
  lemma {:induction false} StripedPoolNests(pool: Row, a: Row, b: Row)
    requires KindOf(pool.name) == PoolRow && KindOf(a.name) == KindOf(b.name) == DiskRow
    ensures
      var t := Tree([pool, a, b]);
      && |t| == 1 && |t[0].vdevs| == 1 && t[0].name == pool.name
      && t[0].vdevs[0].name == a.name && t[0].vdevs[0].vtype == "disk" && t[0].vdevs[0].disks == [Disk(b.name, b.io)]
  {
    hide KindOf;
    OneDiskPool(pool, a);
    assert [pool, a, b] == [pool, a] + [b];
    TreeSnoc([pool, a], b);
  }
}
