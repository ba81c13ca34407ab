/**
 ReplicationStreamObserver: a table of 32-bit stream counters that grows to the index
 reported. The new size is computed in 32 bits, so an index whose 9/8 growth overflows
 makes the report panic.
 */
module StreamCounter {
  import opened ShardRemap

  datatype Report = Report(index: int, value: int)

  /** The size the table is grown to for an index, as the source computes it. */
  function GrownSize(index: int): int {
    var scaled := Wrap32(Wrap32(index + 1) * 9);
    Quo(if scaled < MAX_INT32 then scaled else MAX_INT32, 8)
  }

  /** The index needs no growth, or its growth does not overflow. */
  predicate Reportable(length: nat, index: int) {
    index < length || (index + 1) * 9 <= MAX_INT32
  }

  lemma GrowthFitsIff(index: int)
    requires 0 <= index && IsInt32(index)
    ensures index < GrownSize(index) <==> (index + 1) * 9 <= MAX_INT32
    ensures index < GrownSize(index) ==> GrownSize(index) == (index + 1) * 9 / 8
  {
  }

  /** Sum of the values reported for one index. */
  function Total(reports: seq<Report>, index: int): int {
    if reports == [] then 0
    else Total(reports[..|reports| - 1], index)
         + if reports[|reports| - 1].index == index then reports[|reports| - 1].value else 0
  }

  /** The table's length after a run of reports. */
  function TableLength(reports: seq<Report>): nat {
    if reports == [] then 1024
    else
      var n := TableLength(reports[..|reports| - 1]);
      var index := reports[|reports| - 1].index;
      if index < n || GrownSize(index) < n then n else GrownSize(index)
  }

  /** A report is applied, or ignored for its negative index, rather than panicking. */
  predicate Applies(length: nat, index: int) {
    index < 0 || Reportable(length, index)
  }

  /** What the counter held; the part the table grew by holds zero. */
  function Before(counts: seq<int>, i: nat): int {
    if i < |counts| then counts[i] else 0
  }

  /** The table kept its counters and covers `index`, whose counter alone rose by `value`. */
  ghost predicate Credited(was: seq<int>, now: seq<int>, index: int, value: int) {
    && index < |now| && |was| <= |now|
    && forall i :: 0 <= i < |now| ==>
      now[i] == if i == index then Wrap32(Before(was, i) + value) else Before(was, i)
  }

  /** The report at `i` applies to the table as the earlier ones left it. */
  ghost predicate AppliesAt(reports: seq<Report>, i: nat)
    requires i < |reports|
  {
    Applies(TableLength(reports[..i]), reports[i].index)
  }

  class Observer {
    var counts: seq<int>
    var locked: bool

    constructor ()
      ensures |counts| == 1024 && !locked && forall i :: 0 <= i < 1024 ==> counts[i] == 0
    {
      counts, locked := seq(1024, _ => 0), false;
    }

    /**
     ReportStreamValue; `ok` is false where the source panics. A panic leaves the lock held,
     after a reslice that may already have cut the table.
     */
    method ReportStreamValue(index: int, value: int) returns (ok: bool)
      requires IsInt32(index) && IsInt32(value) && !locked
      modifies this
      ensures ok <==> Applies(old(|counts|), index)
      ensures ok <==> index < old(|counts|) || (index + 1) * 9 <= MAX_INT32
      ensures locked <==> !ok
      ensures index < 0 ==> counts == old(counts)
      ensures ok ==> |counts| == if index < old(|counts|) then old(|counts|) else GrownSize(index)
      ensures ok ==> Credited(old(counts), counts, index, value)
      ensures ok && index >= old(|counts|) ==> |counts| == (index + 1) * 9 / 8
      ensures ok && index >= 0 ==>
                counts[index] == Wrap32((if index < old(|counts|) then old(counts)[index] else 0) + value)
      ensures ok ==> forall i :: 0 <= i < |counts| && i != index ==>
                counts[i] == if i < old(|counts|) then old(counts)[i] else 0
    {
      if index < 0 {
        return true;
      }
      locked := true;
      if index >= |counts| {
        var newSize := GrownSize(index);
        GrowthFitsIff(index);
        if newSize < 0 {
          return false;
        }
        counts := (counts + seq(newSize, _ => 0))[..newSize];
        if newSize <= index {
          return false;
        }
      }
      counts := counts[index := Wrap32(counts[index] + value)];
      locked := false;
      ok := true;
    }
  }

  lemma WrapSum(x: int, v: int)
    ensures Wrap32(Wrap32(x) + v) == Wrap32(x + v)
  {
  }

  /** Every counter is the 32-bit sum of its reports, and every report has a counter. */
  ghost predicate Sums(reports: seq<Report>, counts: seq<int>) {
    && |counts| == TableLength(reports)
    && (forall k :: 0 <= k < |counts| ==> counts[k] == Wrap32(Total(reports, k)))
    && forall i :: 0 <= i < |reports| ==> reports[i].index < |counts|
  }

  lemma {:induction false} NothingReportedBeyond(reports: seq<Report>, k: int)
    requires forall i :: 0 <= i < |reports| ==> reports[i].index < k
    ensures Total(reports, k) == 0
  {
    if reports != [] {
      NothingReportedBeyond(reports[..|reports| - 1], k);
    }
  }

  lemma OneMoreReport(reports: seq<Report>, r: Report, was: seq<int>, now: seq<int>)
    requires Sums(reports, was) && Credited(was, now, r.index, r.value)
    requires |now| == if r.index < |was| then |was| else GrownSize(r.index)
    ensures Sums(reports + [r], now)
  {
    var more := reports + [r];
    assert more[..|more| - 1] == reports;
    forall k | 0 <= k < |now|
      ensures now[k] == Wrap32(Total(more, k))
    {
      if k >= |was| {
        NothingReportedBeyond(reports, k);
      }
      WrapSum(Total(reports, k), if r.index == k then r.value else 0);
    }
  }

  /**
   Over a whole run of reports: no panic exactly when each report applies to the table as the
   earlier ones left it, and then every counter is the 32-bit sum of its reports across all growths.
   */
  method Run(reports: seq<Report>) returns (ok: bool, counts: seq<int>)
    requires forall i :: 0 <= i < |reports| ==> IsInt32(reports[i].index) && IsInt32(reports[i].value)
    ensures ok <==> forall i :: 0 <= i < |reports| ==> AppliesAt(reports, i)
    ensures ok ==> Sums(reports, counts)
  {
    var o := new Observer();
    for i := 0 to |reports|
      invariant fresh(o) && !o.locked && Sums(reports[..i], o.counts)
      invariant forall j :: 0 <= j < i ==> AppliesAt(reports, j)
    {
      ghost var was := o.counts;
      ok := o.ReportStreamValue(reports[i].index, reports[i].value);
      if !ok {
        assert !AppliesAt(reports, i);
        return false, o.counts;
      }
      OneMoreReport(reports[..i], reports[i], was, o.counts);
      assert reports[..i] + [reports[i]] == reports[..i + 1];
    }
    assert reports[..|reports|] == reports;
    ok, counts := true, o.counts;
  }
}
