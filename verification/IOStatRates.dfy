/** The hub's I/O table: the cached sample flattened to rows, with per-second rates against the
  * previous one. Rates are real numbers; timestamps are seconds, absent when they do not parse. */
module IOStatRates {
  import opened Common
  import opened IOStatText
  import opened IOStatTree

  datatype Sample = Sample(pool: Pool, timestamp: Option<real>)

  datatype Rates = Rates(readOps: real, writeOps: real, readBytes: real, writeBytes: real)

  datatype Scope = PoolScope | VdevScope | DiskScope

  datatype RateRow = RateRow(
    scope: Scope, name: string, parent: string, vdevType: string, rates: Rates, totals: Counters, alloc: nat, free: nat)

  function Rate(curr: nat, prev: nat, dt: real, havePrev: bool): real {
    if !havePrev || dt <= 0.0 || curr < prev then 0.0 else (curr - prev) as real / dt
  }

  function DeltaSeconds(curr: Option<real>, prev: Option<real>): real {
    if curr == None || prev == None || curr.value - prev.value <= 0.0 then 0.0 else curr.value - prev.value
  }

  /** The rates of one row; without a previous row they are all zero. */
  function RatesOf(curr: Counters, prev: Option<Counters>, dt: real): Rates {
    var p := if prev == None then Counters(0, 0, 0, 0) else prev.value;
    Rates(Rate(curr.readOps, p.readOps, dt, prev.Some?), Rate(curr.writeOps, p.writeOps, dt, prev.Some?),
          Rate(curr.readBytes, p.readBytes, dt, prev.Some?), Rate(curr.writeBytes, p.writeBytes, dt, prev.Some?))
  }

  // ----- Finding the previous row -----

  function SampleNamed(samples: seq<Sample>, name: string): Option<Sample> {
    if samples == [] then None
    else if samples[|samples| - 1].pool.name == name then Some(samples[|samples| - 1])
    else SampleNamed(samples[..|samples| - 1], name)
  }

  function VdevNamed(vdevs: seq<Vdev>, name: string): Option<Vdev> {
    if vdevs == [] then None
    else if vdevs[|vdevs| - 1].name == name then Some(vdevs[|vdevs| - 1])
    else VdevNamed(vdevs[..|vdevs| - 1], name)
  }

  function DiskNamed(disks: seq<Disk>, name: string): Option<Disk> {
    if disks == [] then None
    else if disks[|disks| - 1].name == name then Some(disks[|disks| - 1])
    else DiskNamed(disks[..|disks| - 1], name)
  }

  /** Sample `i` is the last one of the pool. */
  predicate IsLastOf(samples: seq<Sample>, name: string, i: nat) {
    && i < |samples| && samples[i].pool.name == name
    && forall k | i < k < |samples| :: samples[k].pool.name != name
  }

  /** The previous sample of a pool is the last one of that name. */
  lemma {:induction false} SampleNamedIsLast(samples: seq<Sample>, name: string, i: nat)
    requires IsLastOf(samples, name, i)
    ensures SampleNamed(samples, name) == Some(samples[i])
  {
    if i < |samples| - 1 {
      SampleNamedIsLast(samples[..|samples| - 1], name, i);
    }
  }

  lemma {:induction false} SampleNamedNone(samples: seq<Sample>, name: string)
    ensures SampleNamed(samples, name) == None <==> forall s | s in samples :: s.pool.name != name
  {
    if samples != [] {
      var init := samples[..|samples| - 1];
      SampleNamedNone(init, name);
      assert samples == init + [samples[|samples| - 1]];
    }
  }

  /** Likewise the last vdev of a name. */
  lemma {:induction false} VdevNamedIsLast(vdevs: seq<Vdev>, name: string, i: nat)
    requires i < |vdevs| && vdevs[i].name == name && forall k | i < k < |vdevs| :: vdevs[k].name != name
    ensures VdevNamed(vdevs, name) == Some(vdevs[i])
  {
    if i < |vdevs| - 1 {
      VdevNamedIsLast(vdevs[..|vdevs| - 1], name, i);
    }
  }

  /** And the last disk. */
  lemma {:induction false} DiskNamedIsLast(disks: seq<Disk>, name: string, i: nat)
    requires i < |disks| && disks[i].name == name && forall k | i < k < |disks| :: disks[k].name != name
    ensures DiskNamed(disks, name) == Some(disks[i])
  {
    if i < |disks| - 1 {
      DiskNamedIsLast(disks[..|disks| - 1], name, i);
    }
  }

  method IndexPools(samples: seq<Sample>) returns (out: map<string, Sample>)
    ensures forall n :: Lookup(out, n) == SampleNamed(samples, n)
  {
    out := map[];
    assert samples[..0] == [];
    for i := 0 to |samples|
      invariant forall n :: Lookup(out, n) == SampleNamed(samples[..i], n)
    {
      assert samples[..i + 1][..i] == samples[..i];
      out := out[samples[i].pool.name := samples[i]];
    }
    assert samples[..|samples|] == samples;
  }

  method IndexVdevs(vdevs: seq<Vdev>) returns (out: map<string, Vdev>)
    ensures forall n :: Lookup(out, n) == VdevNamed(vdevs, n)
  {
    out := map[];
    assert vdevs[..0] == [];
    for i := 0 to |vdevs|
      invariant forall n :: Lookup(out, n) == VdevNamed(vdevs[..i], n)
    {
      assert vdevs[..i + 1][..i] == vdevs[..i];
      out := out[vdevs[i].name := vdevs[i]];
    }
    assert vdevs[..|vdevs|] == vdevs;
  }

  method IndexDisks(disks: seq<Disk>) returns (out: map<string, Disk>)
    ensures forall n :: Lookup(out, n) == DiskNamed(disks, n)
  {
    out := map[];
    assert disks[..0] == [];
    for i := 0 to |disks|
      invariant forall n :: Lookup(out, n) == DiskNamed(disks[..i], n)
    {
      assert disks[..i + 1][..i] == disks[..i];
      out := out[disks[i].name := disks[i]];
    }
    assert disks[..|disks|] == disks;
  }

  // ----- The table -----

  function DiskRateRow(d: Disk, parent: string, prev: Option<Vdev>, dt: real): RateRow {
    var q := if prev == None then None else DiskNamed(prev.value.disks, d.name);
    RateRow(DiskScope, d.name, parent, "", RatesOf(d.io, if q == None then None else Some(q.value.io), dt), d.io, 0, 0)
  }

  function DiskRateRows(disks: seq<Disk>, parent: string, prev: Option<Vdev>, dt: real): seq<RateRow> {
    if disks == [] then []
    else DiskRateRows(disks[..|disks| - 1], parent, prev, dt) + [DiskRateRow(disks[|disks| - 1], parent, prev, dt)]
  }

  function VdevRateRows(v: Vdev, parent: string, prev: Option<Sample>, dt: real): seq<RateRow> {
    var q := if prev == None then None else VdevNamed(prev.value.pool.vdevs, v.name);
    [RateRow(VdevScope, v.name, parent, v.vtype, RatesOf(v.io, if q == None then None else Some(q.value.io), dt), v.io,
             v.alloc, v.free)]
    + DiskRateRows(v.disks, v.name, q, dt)
  }

  function AllVdevRateRows(vdevs: seq<Vdev>, parent: string, prev: Option<Sample>, dt: real): seq<RateRow> {
    if vdevs == [] then []
    else AllVdevRateRows(vdevs[..|vdevs| - 1], parent, prev, dt) + VdevRateRows(vdevs[|vdevs| - 1], parent, prev, dt)
  }

  function PoolDelta(s: Sample, prev: Option<Sample>): real {
    if prev == None then 0.0 else DeltaSeconds(s.timestamp, prev.value.timestamp)
  }

  function PoolRateRow(s: Sample, prev: Option<Sample>): RateRow {
    RateRow(PoolScope, s.pool.name, "", "",
            RatesOf(s.pool.io, if prev == None then None else Some(prev.value.pool.io), PoolDelta(s, prev)), s.pool.io,
            s.pool.alloc, s.pool.free)
  }

  function PoolRateRows(s: Sample, prev: Option<Sample>): seq<RateRow> {
    [PoolRateRow(s, prev)] + AllVdevRateRows(s.pool.vdevs, s.pool.name, prev, PoolDelta(s, prev))
  }

  function RateTable(curr: seq<Sample>, prev: seq<Sample>): seq<RateRow> {
    if curr == [] then []
    else
      var s := curr[|curr| - 1];
      RateTable(curr[..|curr| - 1], prev) + PoolRateRows(s, SampleNamed(prev, s.pool.name))
  }

  method AppendDiskRows(rows: seq<RateRow>, v: Vdev, prev: Option<Vdev>, dt: real) returns (out: seq<RateRow>)
    ensures out == rows + DiskRateRows(v.disks, v.name, prev, dt)
  {
    hide DiskNamed, RatesOf;
    out := rows;
    var prevDisks := IndexDisks(if prev == None then [] else prev.value.disks);
    assert v.disks[..0] == [];
    for i := 0 to |v.disks|
      invariant out == rows + DiskRateRows(v.disks[..i], v.name, prev, dt)
    {
      assert v.disks[..i + 1][..i] == v.disks[..i];
      var d := v.disks[i];
      var have := prev.Some? && d.name in prevDisks;
      assert have ==> DiskNamed(prev.value.disks, d.name) == Lookup(prevDisks, d.name);
      var rates := RatesOf(d.io, if have then Some(prevDisks[d.name].io) else None, dt);
      out := out + [RateRow(DiskScope, d.name, v.name, "", rates, d.io, 0, 0)];
    }
    assert v.disks[..|v.disks|] == v.disks;
  }

  method AppendVdevRows(rows: seq<RateRow>, p: Pool, prev: Option<Sample>, dt: real) returns (out: seq<RateRow>)
    ensures out == rows + AllVdevRateRows(p.vdevs, p.name, prev, dt)
  {
    hide VdevNamed, RatesOf, DiskRateRows;
    out := rows;
    var prevVdevs := IndexVdevs(if prev == None then [] else prev.value.pool.vdevs);
    assert p.vdevs[..0] == [];
    for i := 0 to |p.vdevs|
      invariant out == rows + AllVdevRateRows(p.vdevs[..i], p.name, prev, dt)
    {
      assert p.vdevs[..i + 1][..i] == p.vdevs[..i];
      var v := p.vdevs[i];
      var have := prev.Some? && v.name in prevVdevs;
      assert have ==> VdevNamed(prev.value.pool.vdevs, v.name) == Lookup(prevVdevs, v.name);
      var vPrev := if have then Some(prevVdevs[v.name]) else None;
      var rates := RatesOf(v.io, if have then Some(prevVdevs[v.name].io) else None, dt);
      out := out + [RateRow(VdevScope, v.name, p.name, v.vtype, rates, v.io, v.alloc, v.free)];
      out := AppendDiskRows(out, v, vPrev, dt);
    }
    assert p.vdevs[..|p.vdevs|] == p.vdevs;
  }

  method BuildIOStatRows(curr: seq<Sample>, prev: seq<Sample>) returns (rows: seq<RateRow>)
    ensures rows == RateTable(curr, prev)
  {
    hide SampleNamed, RatesOf, AllVdevRateRows;
    rows := [];
    var prevByPool := IndexPools(prev);
    assert curr[..0] == [];
    for i := 0 to |curr|
      invariant rows == RateTable(curr[..i], prev)
    {
      assert curr[..i + 1][..i] == curr[..i];
      var s := curr[i];
      var p := Lookup(prevByPool, s.pool.name);
      assert p == SampleNamed(prev, s.pool.name);
      var dt := if p == None then 0.0 else DeltaSeconds(s.timestamp, p.value.timestamp);
      var rates := RatesOf(s.pool.io, if p == None then None else Some(p.value.pool.io), dt);
      rows := rows + [RateRow(PoolScope, s.pool.name, "", "", rates, s.pool.io, s.pool.alloc, s.pool.free)];
      rows := AppendVdevRows(rows, s.pool, p, dt);
    }
    assert curr[..|curr|] == curr;
  }

  // ----- Conservation -----

  /** The row without its rates. */
  function Totals(r: RateRow): Row {
    Row(r.name, r.alloc, r.free, r.totals)
  }

  function AllTotals(rows: seq<RateRow>): (t: seq<Row>)
    ensures |t| == |rows|
  {
    seq(|rows|, i requires 0 <= i < |rows| => Totals(rows[i]))
  }

  function PoolsOf(samples: seq<Sample>): seq<Pool> {
    seq(|samples|, i requires 0 <= i < |samples| => samples[i].pool)
  }

  lemma {:induction false} AllTotalsConcat(a: seq<RateRow>, b: seq<RateRow>)
    ensures AllTotals(a + b) == AllTotals(a) + AllTotals(b)
  {
  }

  lemma {:induction false} DiskTotals(disks: seq<Disk>, parent: string, prev: Option<Vdev>, dt: real)
    ensures AllTotals(DiskRateRows(disks, parent, prev, dt)) == DisksFlat(disks)
  {
    if disks != [] {
      hide RatesOf, DiskNamed;
      var n := |disks| - 1;
      DiskTotals(disks[..n], parent, prev, dt);
      AllTotalsConcat(DiskRateRows(disks[..n], parent, prev, dt), [DiskRateRow(disks[n], parent, prev, dt)]);
    }
  }

  lemma {:induction false} VdevTotals(v: Vdev, parent: string, prev: Option<Sample>, dt: real)
    ensures AllTotals(VdevRateRows(v, parent, prev, dt)) == VdevFlat(v)
  {
    hide RatesOf, VdevNamed, DiskRateRows, DisksFlat, AllTotals;
    var q := if prev == None then None else VdevNamed(prev.value.pool.vdevs, v.name);
    var rates := RatesOf(v.io, if q == None then None else Some(q.value.io), dt);
    var head := RateRow(VdevScope, v.name, parent, v.vtype, rates, v.io, v.alloc, v.free);
    DiskTotals(v.disks, v.name, q, dt);
    AllTotalsConcat([head], DiskRateRows(v.disks, v.name, q, dt));
    OneTotal(head);
  }

  lemma {:induction false} OneTotal(r: RateRow)
    ensures AllTotals([r]) == [Totals(r)]
  {
  }

  lemma {:induction false} AllVdevTotals(vdevs: seq<Vdev>, parent: string, prev: Option<Sample>, dt: real)
    ensures AllTotals(AllVdevRateRows(vdevs, parent, prev, dt)) == VdevsFlat(vdevs)
  {
    if vdevs != [] {
      hide VdevRateRows, VdevFlat, AllTotals;
      var n := |vdevs| - 1;
      AllVdevTotals(vdevs[..n], parent, prev, dt);
      VdevTotals(vdevs[n], parent, prev, dt);
      AllTotalsConcat(AllVdevRateRows(vdevs[..n], parent, prev, dt), VdevRateRows(vdevs[n], parent, prev, dt));
    }
  }

  lemma {:induction false} PoolTotals(s: Sample, prev: Option<Sample>)
    ensures AllTotals(PoolRateRows(s, prev)) == PoolFlat(s.pool)
  {
    hide RatesOf, AllVdevRateRows, VdevsFlat, AllTotals;
    AllVdevTotals(s.pool.vdevs, s.pool.name, prev, PoolDelta(s, prev));
    AllTotalsConcat([PoolRateRow(s, prev)], AllVdevRateRows(s.pool.vdevs, s.pool.name, prev, PoolDelta(s, prev)));
    OneTotal(PoolRateRow(s, prev));
  }

  /** Whatever the previous sample was, the table shows exactly the rows of the current one, each once
    * and in order, with their totals untouched. */
  lemma {:induction false} TableConserves(curr: seq<Sample>, prev: seq<Sample>)
    ensures AllTotals(RateTable(curr, prev)) == Flatten(PoolsOf(curr))
  {
    if curr == [] {
      assert PoolsOf(curr) == [];
    } else {
      var n := |curr| - 1;
      var s := curr[n];
      assert PoolsOf(curr) == PoolsOf(curr[..n]) + [s.pool];
      hide PoolsOf, PoolRateRows, PoolFlat, AllTotals, SampleNamed;
      FlattenSnoc(PoolsOf(curr[..n]), s.pool);
      TableConserves(curr[..n], prev);
      PoolTotals(s, SampleNamed(prev, s.pool.name));
      AllTotalsConcat(RateTable(curr[..n], prev), PoolRateRows(s, SampleNamed(prev, s.pool.name)));
    }
  }

  // ----- The rates -----

  datatype Metric = ReadOps | WriteOps | ReadBytes | WriteBytes

  function Count(c: Counters, m: Metric): nat {
    match m
    case ReadOps => c.readOps
    case WriteOps => c.writeOps
    case ReadBytes => c.readBytes
    case WriteBytes => c.writeBytes
  }

  function PerSecond(r: Rates, m: Metric): real {
    match m
    case ReadOps => r.readOps
    case WriteOps => r.writeOps
    case ReadBytes => r.readBytes
    case WriteBytes => r.writeBytes
  }

  predicate NonNegative(rows: seq<RateRow>) {
    forall r | r in rows :: forall m :: PerSecond(r.rates, m) >= 0.0
  }

  lemma {:induction false} RatesNonNegative(curr: Counters, prev: Option<Counters>, dt: real, m: Metric)
    ensures PerSecond(RatesOf(curr, prev, dt), m) >= 0.0
  {
  }

  lemma {:induction false} NonNegativeConcat(a: seq<RateRow>, b: seq<RateRow>)
    requires NonNegative(a) && NonNegative(b)
    ensures NonNegative(a + b)
  {
  }

  lemma {:induction false} DisksNonNegative(disks: seq<Disk>, parent: string, prev: Option<Vdev>, dt: real)
    ensures NonNegative(DiskRateRows(disks, parent, prev, dt))
  {
    if disks != [] {
      hide RatesOf, PerSecond, DiskNamed;
      var n := |disks| - 1;
      DisksNonNegative(disks[..n], parent, prev, dt);
      var row := DiskRateRow(disks[n], parent, prev, dt);
      OneNonNegative(row, disks[n].io, if prev == None then None else
        match DiskNamed(prev.value.disks, disks[n].name) case None => None case Some(q) => Some(q.io), dt);
      NonNegativeConcat(DiskRateRows(disks[..n], parent, prev, dt), [row]);
    }
  }

  lemma {:induction false} OneNonNegative(r: RateRow, curr: Counters, prev: Option<Counters>, dt: real)
    requires r.rates == RatesOf(curr, prev, dt)
    ensures NonNegative([r])
  {
    forall m
      ensures PerSecond(r.rates, m) >= 0.0
    {
      RatesNonNegative(curr, prev, dt, m);
    }
  }

  lemma {:induction false} VdevsNonNegative(vdevs: seq<Vdev>, parent: string, prev: Option<Sample>, dt: real)
    ensures NonNegative(AllVdevRateRows(vdevs, parent, prev, dt))
  {
    if vdevs != [] {
      hide RatesOf, PerSecond, VdevNamed, DiskRateRows, NonNegative;
      var n := |vdevs| - 1;
      var v := vdevs[n];
      VdevsNonNegative(vdevs[..n], parent, prev, dt);
      var q := if prev == None then None else VdevNamed(prev.value.pool.vdevs, v.name);
      var p := if q == None then None else Some(q.value.io);
      var head := RateRow(VdevScope, v.name, parent, v.vtype, RatesOf(v.io, p, dt), v.io, v.alloc, v.free);
      OneNonNegative(head, v.io, p, dt);
      DisksNonNegative(v.disks, v.name, q, dt);
      NonNegativeConcat([head], DiskRateRows(v.disks, v.name, q, dt));
      NonNegativeConcat(AllVdevRateRows(vdevs[..n], parent, prev, dt), VdevRateRows(v, parent, prev, dt));
    }
  }

  /** No row ever shows a negative rate, whatever the two samples contain. */
  lemma {:induction false} TableNonNegative(curr: seq<Sample>, prev: seq<Sample>)
    ensures NonNegative(RateTable(curr, prev))
  {
    if curr != [] {
      hide RatesOf, PerSecond, SampleNamed, AllVdevRateRows, NonNegative;
      var n := |curr| - 1;
      var s := curr[n];
      var p := SampleNamed(prev, s.pool.name);
      TableNonNegative(curr[..n], prev);
      OneNonNegative(PoolRateRow(s, p), s.pool.io, if p == None then None else Some(p.value.pool.io), PoolDelta(s, p));
      VdevsNonNegative(s.pool.vdevs, s.pool.name, p, PoolDelta(s, p));
      NonNegativeConcat([PoolRateRow(s, p)], AllVdevRateRows(s.pool.vdevs, s.pool.name, p, PoolDelta(s, p)));
      NonNegativeConcat(RateTable(curr[..n], prev), PoolRateRows(s, p));
    } else {
      assert NonNegative([]);
    }
  }

  // ----- Telescoping -----

  /** A row of one pool's part of the table. */
  datatype Place = AtPool | AtVdev(vdev: string) | AtDisk(vdev: string, disk: string)

  /** The counters a sample shows at a place, if it shows it. */
  function CountersAt(s: Sample, place: Place): Option<Counters> {
    match place
    case AtPool => Some(s.pool.io)
    case AtVdev(v) =>
      (match VdevNamed(s.pool.vdevs, v) case None => None case Some(q) => Some(q.io))
    case AtDisk(v, d) =>
      (match VdevNamed(s.pool.vdevs, v)
       case None => None
       case Some(q) => match DiskNamed(q.disks, d) case None => None case Some(e) => Some(e.io))
  }

  /** The rates shown at a place: of its counters against those the previous sample shows there. */
  function RatesAt(prev: Sample, curr: Sample, place: Place): Rates
    requires CountersAt(curr, place).Some?
  {
    RatesOf(CountersAt(curr, place).value, CountersAt(prev, place), PoolDelta(curr, Some(prev)))
  }

  predicate IsRowAt(r: RateRow, pool: string, place: Place) {
    match place
    case AtPool => r.scope == PoolScope && r.name == pool
    case AtVdev(v) => r.scope == VdevScope && r.name == v && r.parent == pool
    case AtDisk(v, d) => r.scope == DiskScope && r.name == d && r.parent == v
  }

  lemma {:induction false} DiskRowShown(disks: seq<Disk>, parent: string, prev: Option<Vdev>, dt: real, d: string)
    requires DiskNamed(disks, d).Some?
    ensures DiskNamed(disks, d).value.name == d
    ensures DiskRateRow(DiskNamed(disks, d).value, parent, prev, dt) in DiskRateRows(disks, parent, prev, dt)
  {
    hide DiskRateRow;
    if disks[|disks| - 1].name != d {
      DiskRowShown(disks[..|disks| - 1], parent, prev, dt, d);
    }
  }

  lemma {:induction false} VdevRowsShown(vdevs: seq<Vdev>, parent: string, prev: Option<Sample>, dt: real, v: string)
    requires VdevNamed(vdevs, v).Some?
    ensures VdevNamed(vdevs, v).value.name == v
    ensures forall r | r in VdevRateRows(VdevNamed(vdevs, v).value, parent, prev, dt) :: r in AllVdevRateRows(vdevs, parent, prev, dt)
  {
    hide VdevRateRows;
    if vdevs[|vdevs| - 1].name != v {
      VdevRowsShown(vdevs[..|vdevs| - 1], parent, prev, dt, v);
    }
  }

  /** The table has a row for every place its sample shows, with those counters and those rates. */
  lemma {:induction false} RowShown(prev: Sample, curr: Sample, place: Place) returns (r: RateRow)
    requires CountersAt(curr, place).Some?
    ensures r in PoolRateRows(curr, Some(prev)) && IsRowAt(r, curr.pool.name, place)
    ensures r.totals == CountersAt(curr, place).value && r.rates == RatesAt(prev, curr, place)
  {
    hide RatesOf, DeltaSeconds;
    var dt := PoolDelta(curr, Some(prev));
    if place.AtPool? {
      r := PoolRateRow(curr, Some(prev));
    } else {
      VdevRowsShown(curr.pool.vdevs, curr.pool.name, Some(prev), dt, place.vdev);
      var v, q := VdevNamed(curr.pool.vdevs, place.vdev).value, VdevNamed(prev.pool.vdevs, place.vdev);
      var rows := VdevRateRows(v, curr.pool.name, Some(prev), dt);
      if place.AtVdev? {
        r := rows[0];
      } else {
        DiskRowShown(v.disks, v.name, q, dt, place.disk);
        r := DiskRateRow(DiskNamed(v.disks, place.disk).value, v.name, q, dt);
        hide DiskRateRows;
        assert r in rows;
      }
    }
  }

  function CountAt(s: Sample, place: Place, m: Metric): Option<nat> {
    match CountersAt(s, place) case None => None case Some(c) => Some(Count(c, m))
  }

  /** The second sample is later than the first, as far as their timestamps say. */
  predicate Later(prev: Sample, curr: Sample) {
    prev.timestamp.Some? && curr.timestamp.Some? && prev.timestamp.value < curr.timestamp.value
  }

  /** The seconds between two samples, or none if the second is not known to be later. */
  function Seconds(prev: Sample, curr: Sample): real {
    if Later(prev, curr) then curr.timestamp.value - prev.timestamp.value else 0.0
  }

  /** What the row of a place accounts for between two samples: its rate times the seconds between them. */
  function Accounted(prev: Sample, curr: Sample, place: Place, m: Metric): real {
    if CountersAt(curr, place) == None then 0.0 else PerSecond(RatesAt(prev, curr, place), m) * Seconds(prev, curr)
  }

  /** All that the rows of a place account for over a run of samples. */
  function TotalAccounted(samples: seq<Sample>, place: Place, m: Metric): real {
    if |samples| < 2 then 0.0
    else
      var n := |samples| - 1;
      TotalAccounted(samples[..n], place, m) + Accounted(samples[n - 1], samples[n], place, m)
  }

  function FirstCount(samples: seq<Sample>, place: Place, m: Metric): Option<nat> {
    if samples == [] then None
    else
      var before := FirstCount(samples[..|samples| - 1], place, m);
      if before == None then CountAt(samples[|samples| - 1], place, m) else before
  }

  function LastCount(samples: seq<Sample>, place: Place, m: Metric): Option<nat> {
    if samples == [] then None
    else
      var now := CountAt(samples[|samples| - 1], place, m);
      if now == None then LastCount(samples[..|samples| - 1], place, m) else now
  }

  /** The gap can be rated: the earlier sample shows the place, and time advanced between the two. */
  predicate Rated(prev: Sample, curr: Sample, place: Place) {
    CountersAt(prev, place).Some? && Later(prev, curr)
  }

  /** What the counter lost across gaps that can be rated. */
  function Drops(samples: seq<Sample>, place: Place, m: Metric): nat {
    if |samples| < 2 then 0
    else
      var n := |samples| - 1;
      var before, now := LastCount(samples[..n], place, m), CountAt(samples[n], place, m);
      Drops(samples[..n], place, m)
      + if before.Some? && now.Some? && Rated(samples[n - 1], samples[n], place) && now.value < before.value
        then before.value - now.value else 0
  }

  /** What the counter gained or lost across all other gaps: no time passed, a timestamp does not parse,
    * or the place was not shown in between. */
  function Unrated(samples: seq<Sample>, place: Place, m: Metric): int {
    if |samples| < 2 then 0
    else
      var n := |samples| - 1;
      var before, now := LastCount(samples[..n], place, m), CountAt(samples[n], place, m);
      Unrated(samples[..n], place, m)
      + if before.Some? && now.Some? && !Rated(samples[n - 1], samples[n], place) then now.value - before.value else 0
  }

  lemma {:induction false} RateTimesGap(curr: nat, prev: nat, dt: real)
    requires dt > 0.0
    ensures Rate(curr, prev, dt, true) * dt == if curr < prev then 0.0 else (curr - prev) as real
  {
  }

  lemma {:induction false} RatedIs(curr: Counters, prev: Counters, dt: real, m: Metric)
    requires dt > 0.0
    ensures PerSecond(RatesOf(curr, Some(prev), dt), m) * dt
            == if Count(curr, m) < Count(prev, m) then 0.0 else (Count(curr, m) - Count(prev, m)) as real
  {
    hide Rate;
    RateTimesGap(Count(curr, m), Count(prev, m), dt);
  }

  lemma {:induction false} NoRate(curr: Counters, prev: Option<Counters>, dt: real, m: Metric)
    requires prev == None || dt <= 0.0
    ensures PerSecond(RatesOf(curr, prev, dt), m) * dt == 0.0
  {
    assert PerSecond(RatesOf(curr, prev, dt), m) == 0.0;
    hide PerSecond, RatesOf;
  }

  /** The gap the table divides by is that of the two stamps. */
  lemma {:induction false} DeltaIsSeconds(prev: Sample, curr: Sample)
    ensures PoolDelta(curr, Some(prev)) == Seconds(prev, curr)
    ensures Seconds(prev, curr) > 0.0 <==> Later(prev, curr)
    ensures Seconds(prev, curr) >= 0.0
  {
  }

  lemma {:induction false} AccountedIs(prev: Sample, curr: Sample, place: Place, m: Metric)
    ensures
      var before, now := CountAt(prev, place, m), CountAt(curr, place, m);
      Accounted(prev, curr, place, m)
      == if now == None || !Rated(prev, curr, place) || now.value < before.value then 0.0
         else (now.value - before.value) as real
  {
    hide CountersAt, PoolDelta, Seconds, Later, PerSecond, RatesOf, Count;
    var c, p, dt := CountersAt(curr, place), CountersAt(prev, place), Seconds(prev, curr);
    DeltaIsSeconds(prev, curr);
    if c.Some? {
      assert Accounted(prev, curr, place, m) == PerSecond(RatesOf(c.value, p, dt), m) * dt;
      if Rated(prev, curr, place) {
        RatedIs(c.value, p.value, dt, m);
      } else {
        NoRate(c.value, p, dt, m);
      }
    }
  }

  lemma {:induction false} LastCountIs(samples: seq<Sample>, place: Place, m: Metric)
    requires samples != []
    ensures CountAt(samples[|samples| - 1], place, m).Some? ==> LastCount(samples, place, m) == CountAt(samples[|samples| - 1], place, m)
    ensures CountAt(samples[|samples| - 1], place, m).Some? <==> CountersAt(samples[|samples| - 1], place).Some?
  {
  }

  lemma {:induction false} KnownTogether(samples: seq<Sample>, place: Place, m: Metric)
    ensures FirstCount(samples, place, m).Some? <==> LastCount(samples, place, m).Some?
  {
    if samples != [] {
      hide CountAt;
      KnownTogether(samples[..|samples| - 1], place, m);
    }
  }

  /** The growth of the counter, if the place was ever shown. */
  function Growth(samples: seq<Sample>, place: Place, m: Metric): int {
    var first, last := FirstCount(samples, place, m), LastCount(samples, place, m);
    if first.Some? && last.Some? then last.value - first.value else 0
  }

  /** For every pool, vdev and disk row, over any run of samples with any timestamps: what the rows account
    * for, with what changed across gaps that cannot be rated, is the growth of the counter and what it
    * lost on the way. */
  lemma {:induction false} RatesConserve(samples: seq<Sample>, place: Place, m: Metric)
    ensures TotalAccounted(samples, place, m) + Unrated(samples, place, m) as real
            == (Growth(samples, place, m) + Drops(samples, place, m)) as real
  {
    if |samples| > 1 {
      var n := |samples| - 1;
      var init := samples[..n];
      RatesConserve(init, place, m);
      AccountedIs(samples[n - 1], samples[n], place, m);
      LastCountIs(init, place, m);
      KnownTogether(init, place, m);
      hide CountAt, CountersAt, Seconds, Accounted, Rated;
      RatesConserveStep(samples, place, m);
    } else {
      NoGrowthYet(samples, place, m);
    }
  }

  lemma {:induction false} NoGrowthYet(samples: seq<Sample>, place: Place, m: Metric)
    requires |samples| < 2
    ensures Growth(samples, place, m) == 0
  {
    hide CountAt;
    if samples != [] {
      assert samples[..0] == [];
      assert FirstCount([], place, m) == None == LastCount([], place, m);
    }
  }

  /** One more sample adds the same to both sides. */
  lemma {:induction false} RatesConserveStep(samples: seq<Sample>, place: Place, m: Metric)
    requires |samples| > 1
    requires
      var n := |samples| - 1;
      var before, now := CountAt(samples[n - 1], place, m), CountAt(samples[n], place, m);
      && (Rated(samples[n - 1], samples[n], place) ==> before.Some? && LastCount(samples[..n], place, m) == before)
      && (FirstCount(samples[..n], place, m).Some? <==> LastCount(samples[..n], place, m).Some?)
      && (Accounted(samples[n - 1], samples[n], place, m)
          == if now == None || !Rated(samples[n - 1], samples[n], place) || now.value < before.value then 0.0
             else (now.value - before.value) as real)
    ensures
      var init := samples[..|samples| - 1];
      TotalAccounted(samples, place, m) - TotalAccounted(init, place, m)
      + (Unrated(samples, place, m) - Unrated(init, place, m)) as real
      == (Growth(samples, place, m) - Growth(init, place, m) + Drops(samples, place, m) - Drops(init, place, m)) as real
  {
    hide CountAt, CountersAt, Seconds, Accounted, Rated;
  }

  /** So the rows account for exactly the growth if and only if the counter lost as much across rated gaps
    * as it gained across the others. */
  lemma {:induction false} RatesAddUpIff(samples: seq<Sample>, place: Place, m: Metric)
    ensures TotalAccounted(samples, place, m) == Growth(samples, place, m) as real
            <==> Drops(samples, place, m) == Unrated(samples, place, m)
  {
    hide TotalAccounted, Growth, Drops, Unrated;
    RatesConserve(samples, place, m);
  }

  /** The samples of one pool over time: readable, strictly increasing timestamps, and the place in each. */
  predicate Series(samples: seq<Sample>, place: Place) {
    && (forall i | 0 <= i < |samples| :: samples[i].timestamp.Some? && CountersAt(samples[i], place).Some?)
    && forall i | 0 <= i < |samples| - 1 :: samples[i].timestamp.value < samples[i + 1].timestamp.value
  }

  predicate NeverDecreases(samples: seq<Sample>, place: Place, m: Metric)
    requires Series(samples, place)
  {
    forall i | 0 <= i < |samples| - 1 :: CountAt(samples[i], place, m).value <= CountAt(samples[i + 1], place, m).value
  }

  lemma {:induction false} SeriesIsRated(samples: seq<Sample>, place: Place, m: Metric)
    requires Series(samples, place)
    ensures Unrated(samples, place, m) == 0
    ensures Drops(samples, place, m) == 0 <==> NeverDecreases(samples, place, m)
  {
    if |samples| > 1 {
      hide CountersAt, CountAt, LastCount, Rated, Series, NeverDecreases;
      var n := |samples| - 1;
      var init := samples[..n];
      SeriesStep(samples, place, m);
      SeriesIsRated(init, place, m);
      LastCountIs(init, place, m);
    } else {
      hide CountersAt, CountAt;
    }
  }

  lemma {:induction false} SeriesStep(samples: seq<Sample>, place: Place, m: Metric)
    requires |samples| > 1 && Series(samples, place)
    ensures
      var n := |samples| - 1;
      && Series(samples[..n], place) && Rated(samples[n - 1], samples[n], place)
      && CountAt(samples[n - 1], place, m).Some? && CountAt(samples[n], place, m).Some?
      && (NeverDecreases(samples, place, m)
          <==> NeverDecreases(samples[..n], place, m)
               && CountAt(samples[n - 1], place, m).value <= CountAt(samples[n], place, m).value)
  {
    hide CountersAt, CountAt, NeverDecreases;
    var init := samples[..|samples| - 1];
    assert forall i | 0 <= i < |init| :: init[i] == samples[i];
    SeriesShown(samples, place, m);
    NeverDecreasesSnoc(samples, place, m);
  }

  lemma {:induction false} NeverDecreasesSnoc(samples: seq<Sample>, place: Place, m: Metric)
    requires |samples| > 1 && Series(samples, place) && Series(samples[..|samples| - 1], place)
    requires forall i | 0 <= i < |samples| :: CountAt(samples[i], place, m).Some?
    ensures
      var n := |samples| - 1;
      NeverDecreases(samples, place, m)
      <==> NeverDecreases(samples[..n], place, m)
           && CountAt(samples[n - 1], place, m).value <= CountAt(samples[n], place, m).value
  {
    hide CountAt, Series;
    var init := samples[..|samples| - 1];
    assert forall i | 0 <= i < |init| :: init[i] == samples[i];
  }

  lemma {:induction false} SeriesShown(samples: seq<Sample>, place: Place, m: Metric)
    requires Series(samples, place)
    ensures forall i | 0 <= i < |samples| :: CountAt(samples[i], place, m).Some?
  {
    hide CountersAt;
  }

  /** Over strictly increasing timestamps rates times gaps telescope: their total is never less than the
    * net growth, and equal to it exactly when the counter never decreased. */
  lemma {:induction false} TelescopesIff(samples: seq<Sample>, place: Place, m: Metric)
    requires Series(samples, place)
    ensures
      var growth := Growth(samples, place, m) as real;
      && TotalAccounted(samples, place, m) >= growth
      && (TotalAccounted(samples, place, m) == growth <==> NeverDecreases(samples, place, m))
  {
    hide TotalAccounted, Growth, Drops, Unrated, NeverDecreases, Series;
    RatesConserve(samples, place, m);
    SeriesIsRated(samples, place, m);
  }
}
