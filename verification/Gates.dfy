/** The pre-flight safety gates of a snapraid maintenance run. */
module Gates {

  datatype SmartDisk = SmartDisk(diskName: string, status: string, failureProbability: real)

  datatype DiffReport = DiffReport(added: nat, removed: nat, updated: nat)

  /** Limits below zero are disabled; a zero ratio or probability is disabled. */
  datatype Thresholds = Thresholds(maxDeleted: int, maxUpdated: int, addDelRatio: real, smartFailProbability: int)

  datatype Reason = SmartStatus(diskName: string) | SmartProbability(diskName: string) | TooManyDeleted | TooManyUpdated

  datatype GateResult = Passed | Blocked(reason: Reason)

  function ToUpper(s: string): (r: string)
    ensures |r| == |s|
  {
    if s == [] then []
    else [if 'a' <= s[0] <= 'z' then (s[0] as int - 32) as char else s[0]] + ToUpper(s[1..])
  }

  predicate ReportsFailure(d: SmartDisk) {
    var status := ToUpper(d.status);
    status == "FAIL" || status == "PREFAIL"
  }

  predicate ExceedsProbability(d: SmartDisk, th: Thresholds) {
    th.smartFailProbability > 0 && d.failureProbability >= th.smartFailProbability as real
  }

  /** The first failing disk, in report order, blocks the run. */
  function CheckSMART(disks: seq<SmartDisk>, th: Thresholds): GateResult {
    if disks == [] then Passed
    else if ReportsFailure(disks[0]) then Blocked(SmartStatus(disks[0].diskName))
    else if ExceedsProbability(disks[0], th) then Blocked(SmartProbability(disks[0].diskName))
    else CheckSMART(disks[1..], th)
  }

  function CheckDiffThresholds(report: DiffReport, th: Thresholds): GateResult {
    if th.maxDeleted >= 0 && report.removed > th.maxDeleted then
      if th.addDelRatio > 0.0 && report.removed > 0
         && report.added as real / report.removed as real >= th.addDelRatio then Passed
      else Blocked(TooManyDeleted)
    else if th.maxUpdated >= 0 && report.updated > th.maxUpdated then Blocked(TooManyUpdated)
    else Passed
  }

  // ----- What the gates mean -----

  /** `s` spells the upper-case word `word` in letters of either case. */
  predicate Spells(s: string, word: string) {
    |s| == |word| && forall i | 0 <= i < |s| :: s[i] == word[i] || s[i] as int == word[i] as int + 32
  }

  predicate IsHealthy(d: SmartDisk, th: Thresholds) {
    && !Spells(d.status, "FAIL") && !Spells(d.status, "PREFAIL")
    && (th.smartFailProbability > 0 ==> d.failureProbability < th.smartFailProbability as real)
  }

  lemma {:induction false} ToUpperAt(s: string, i: nat)
    requires i < |s|
    ensures ToUpper(s)[i] == if 'a' <= s[i] <= 'z' then (s[i] as int - 32) as char else s[i]
  {
    if i > 0 {
      ToUpperAt(s[1..], i - 1);
    }
  }

  lemma {:induction false} SpellsIff(s: string, word: string)
    requires forall c | c in word :: 'A' <= c <= 'Z'
    ensures ToUpper(s) == word <==> Spells(s, word)
  {
    forall i | 0 <= i < |s|
      ensures ToUpper(s)[i] == if 'a' <= s[i] <= 'z' then (s[i] as int - 32) as char else s[i]
    {
      ToUpperAt(s, i);
    }
    hide ToUpper;
    assert forall i | 0 <= i < |word| :: word[i] in word;
  }

  lemma {:induction false} HealthyIff(d: SmartDisk, th: Thresholds)
    ensures ReportsFailure(d) <==> Spells(d.status, "FAIL") || Spells(d.status, "PREFAIL")
    ensures IsHealthy(d, th) <==> !ReportsFailure(d) && !ExceedsProbability(d, th)
  {
    hide ToUpper, Spells;
    SpellsIff(d.status, "FAIL");
    SpellsIff(d.status, "PREFAIL");
  }

  /** Disk `i` is the first unhealthy one, and `reason` says what is wrong with it. */
  predicate Blames(disks: seq<SmartDisk>, th: Thresholds, i: int, reason: Reason) {
    && 0 <= i < |disks|
    && (forall j | 0 <= j < i :: IsHealthy(disks[j], th))
    && !IsHealthy(disks[i], th)
    && reason == if Spells(disks[i].status, "FAIL") || Spells(disks[i].status, "PREFAIL")
                 then SmartStatus(disks[i].diskName) else SmartProbability(disks[i].diskName)
  }

  /** Deletions and updates within their limits, or deletions over theirs but matched by enough additions;
    * a limit below zero and a ratio of zero are disabled. */
  predicate WithinLimits(report: DiffReport, th: Thresholds) {
    if th.maxDeleted >= 0 && report.removed > th.maxDeleted
    then th.addDelRatio > 0.0 && report.added as real >= th.addDelRatio * report.removed as real
    else th.maxUpdated >= 0 ==> report.updated <= th.maxUpdated
  }

  /** The SMART gate passes exactly when every disk is healthy, and otherwise blames the first that
    * is not. */
  lemma {:induction false} SmartGateIff(disks: seq<SmartDisk>, th: Thresholds)
    ensures CheckSMART(disks, th) == Passed <==> forall d | d in disks :: IsHealthy(d, th)
    ensures CheckSMART(disks, th).Blocked? ==> exists i :: Blames(disks, th, i, CheckSMART(disks, th).reason)
  {
    hide IsHealthy, Spells, ReportsFailure, ExceedsProbability;
    if disks != [] {
      HealthyIff(disks[0], th);
    }
    if disks == [] {
    } else if !IsHealthy(disks[0], th) {
      assert disks[0] in disks;
      assert Blames(disks, th, 0, CheckSMART(disks, th).reason);
    } else {
      var rest := disks[1..];
      SmartGateIff(rest, th);
      assert disks == [disks[0]] + rest;
      if CheckSMART(disks, th).Blocked? {
        var i :| Blames(rest, th, i, CheckSMART(rest, th).reason);
        forall j | 0 <= j < i + 1
          ensures IsHealthy(disks[j], th)
        {
          assert j > 0 ==> disks[j] == rest[j - 1];
        }
        assert Blames(disks, th, i + 1, CheckSMART(disks, th).reason);
      }
    }
  }

  /** Exactly when the diff gate passes: deletions within their limit and updates within theirs, or
    * deletions over the limit but matched by enough additions. */
  lemma {:induction false} DiffGateIff(report: DiffReport, th: Thresholds)
    ensures CheckDiffThresholds(report, th) == Passed <==> WithinLimits(report, th)
    ensures
      CheckDiffThresholds(report, th) == Blocked(TooManyDeleted)
      <==> th.maxDeleted >= 0 && report.removed > th.maxDeleted && !WithinLimits(report, th)
  {
    if report.removed > 0 {
      var a, r, k := report.added as real, report.removed as real, th.addDelRatio;
      assert a == (a / r) * r;
      if a / r >= k {
        assert (a / r - k) * r >= 0.0;
      } else {
        assert (k - a / r) * r > 0.0;
      }
    }
  }

  /** A run over its update limit is let through exactly when it is also over its deletion limit and
    * the additions compensate: the override returns before the update limit is looked at. */
  lemma {:induction false} UpdateLimitBypass(report: DiffReport, th: Thresholds)
    requires th.maxUpdated >= 0 && report.updated > th.maxUpdated
    ensures
      CheckDiffThresholds(report, th) == Passed
      <==> && th.maxDeleted >= 0 && report.removed > th.maxDeleted
           && th.addDelRatio > 0.0 && report.added as real >= th.addDelRatio * report.removed as real
  {
    DiffGateIff(report, th);
  }
}
