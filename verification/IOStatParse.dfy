/** The iostat parser: one pass over the lines with an open pool and an open vdev. */
module IOStatParse {
  import opened Common
  import opened Text
  import opened IOStatText
  import opened IOStatTree

  /** The tree as it would be with the open vdev and the open pool closed. */
  ghost function Closed(pools: seq<Pool>, pool: Option<Pool>, vdev: Option<Vdev>): seq<Pool> {
    match pool
    case None => pools
    case Some(p) => pools + [match vdev case None => p case Some(v) => PutVdev(p, v)]
  }

  /** A vdev is open exactly when the open pool has met a row of its own. */
  ghost predicate OpenState(pools: seq<Pool>, pool: Option<Pool>, vdev: Option<Vdev>) {
    && (pool == None ==> pools == [] && vdev == None)
    && (pool.Some? && vdev == None ==> pool.value.vdevs == [])
  }

  method FlushVdev(pool: Pool, vdev: Option<Vdev>) returns (p: Pool)
    ensures p == match vdev case None => pool case Some(v) => PutVdev(pool, v)
  {
    p := pool;
    if vdev.Some? {
      p := p.(vdevs := p.vdevs + [vdev.value]);
    }
  }

  method FlushPool(pools: seq<Pool>, pool: Option<Pool>, vdev: Option<Vdev>) returns (out: seq<Pool>)
    ensures out == Closed(pools, pool, vdev)
  {
    out := pools;
    if pool.Some? {
      var p := FlushVdev(pool.value, vdev);
      out := out + [p];
    }
  }

  /** The branch of the row loop. */
  method AddRow(pools: seq<Pool>, pool: Option<Pool>, vdev: Option<Vdev>, r: Row)
    returns (pools': seq<Pool>, pool': Option<Pool>, vdev': Option<Vdev>)
    requires OpenState(pools, pool, vdev)
    ensures OpenState(pools', pool', vdev')
    ensures Closed(pools', pool', vdev') == Step(Closed(pools, pool, vdev), r)
  {
    hide KindOf, ClassifyVdevType;
    pools', pool', vdev' := pools, pool, vdev;
    if KindOf(r.name) == VdevRow {
      if pool == None {
        return;
      }
      var p := FlushVdev(pool.value, vdev);
      pool' := Some(p);
      vdev' := Some(VdevOf(r, ClassifyVdevType(r.name)));
    } else if KindOf(r.name) == DiskRow {
      if pool == None {
        return;
      }
      if vdev == None {
        vdev' := Some(VdevOf(r, "disk"));
      } else {
        vdev' := Some(vdev.value.(disks := vdev.value.disks + [Disk(r.name, r.io)]));
        assert PutVdev(pool.value, vdev.value).vdevs[..|pool.value.vdevs|] == pool.value.vdevs;
      }
    } else {
      pools' := FlushPool(pools, pool, vdev);
      pool' := Some(PoolOf(r));
      vdev' := None;
    }
  }

  lemma {:induction false} NothingRead(lines: seq<string>)
    ensures lines == [] ==> Tree(RowsOfLines(lines)) == []
  {
  }

  /** What one more line does to the tree. */
  lemma {:induction false} LineRead(lines: seq<string>, i: nat)
    requires i < |lines|
    ensures
      var before, row := RowsOfLines(lines[..i]), RowOf(lines[i]);
      Tree(RowsOfLines(lines[..i + 1])) == if row == None then Tree(before) else Step(Tree(before), row.value)
  {
    hide RowOf, Step, Tree;
    var before, row := RowsOfLines(lines[..i]), RowOf(lines[i]);
    assert lines[..i + 1][..i] == lines[..i];
    if row == None {
      assert RowsOfLines(lines[..i + 1]) == before + [] == before;
    } else {
      assert RowsOfLines(lines[..i + 1]) == before + [row.value];
      TreeSnoc(before, row.value);
    }
  }

  /** Fails exactly on text without a pool row, and otherwise returns the one normal tree that accounts
    * for every accepted row. */
  method ParseIOStat(output: string) returns (r: Result<seq<Pool>, string>)
    ensures r.Err? <==> !HasPoolRow(RowsOf(output))
    ensures r.Ok? ==> r.value == Tree(RowsOf(output))
    ensures r.Ok? ==> NormalForm(r.value) && Flatten(r.value) == WithoutLeafSpace(DropToPool(RowsOf(output)))
  {
    hide KindOf, RowOf, Step, NormalForm, Flatten, WithoutLeafSpace, DropToPool, HasPoolRow, Tree, RowsOfLines, Split;
    NoPoolNoTree(RowsOf(output));
    TreeConserves(RowsOf(output));
    TreeNormal(RowsOf(output));
    var pools, pool, vdev := [], None, None;
    var lines := Split(output, '\n');
    NothingRead(lines[..0]);
    for i := 0 to |lines|
      invariant OpenState(pools, pool, vdev)
      invariant Closed(pools, pool, vdev) == Tree(RowsOfLines(lines[..i]))
    {
      LineRead(lines, i);
      var row := RowOf(lines[i]);
      if row == None {
        continue;
      }
      pools, pool, vdev := AddRow(pools, pool, vdev, row.value);
    }
    assert lines[..|lines|] == lines;
    pools := FlushPool(pools, pool, vdev);
    if |pools| == 0 {
      return Err("iostat: no pools parsed");
    }
    return Ok(pools);
  }
}
