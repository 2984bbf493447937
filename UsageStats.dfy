/**
 * The native screen-off tracker (UsageStatsModule): a module object that
 * keeps the instant the screen was last seen in use and, on each poll,
 * reports either "in use" or how long the screen has been off since then.
 * The wall clock and the power/keyguard managers are parameters.
 */
module UsageStats {

  /** What one getUsageStats call resolves its promise with. */
  datatype UsageReport = UsageReport(isUsing: bool, nonUsageTime: int)

  /** The module's two private fields. */
  datatype Fields = Fields(lastCheckTime: int, nonUsageStartTime: int)

  /** One poll: the clock reading and what the power and keyguard managers say. */
  datatype ScreenSample = ScreenSample(time: int, isInteractive: bool, isKeyguardLocked: bool)

  /** The device counts as in use when it is interactive and not behind the keyguard. */
  predicate IsScreenOnAndUnlocked(isInteractive: bool, isKeyguardLocked: bool) {
    isInteractive && !isKeyguardLocked
  }

  /** Both fields start at the construction time. */
  function Initial(now: int): Fields {
    Fields(now, now)
  }

  /** The report and the new fields of one getUsageStats call. */
  function Poll(f: Fields, s: ScreenSample): (UsageReport, Fields) {
    if IsScreenOnAndUnlocked(s.isInteractive, s.isKeyguardLocked) then
      (UsageReport(true, 0), Fields(s.time, s.time))
    else
      (UsageReport(false, s.time - f.nonUsageStartTime), Fields(s.time, f.nonUsageStartTime))
  }

  /** The reports of a sequence of polls, in order. */
  function Reports(f: Fields, samples: seq<ScreenSample>): (r: seq<UsageReport>)
    ensures |r| == |samples|
    decreases samples
  {
    if samples == [] then [] else [Poll(f, samples[0]).0] + Reports(Poll(f, samples[0]).1, samples[1..])
  }

  /** The fields after a sequence of polls. */
  function After(f: Fields, samples: seq<ScreenSample>): Fields
    decreases samples
  {
    if samples == [] then f else After(Poll(f, samples[0]).1, samples[1..])
  }

  /** The clock never runs backwards across the polls. */
  predicate NonDecreasing(samples: seq<ScreenSample>) {
    forall i, j :: 0 <= i < j < |samples| ==> samples[i].time <= samples[j].time
  }

  /** The start of the off period never lies after the last check. */
  predicate Ordered(f: Fields) {
    f.nonUsageStartTime <= f.lastCheckTime
  }

  lemma {:induction false} AfterSnoc(f: Fields, samples: seq<ScreenSample>, s: ScreenSample)
    ensures After(f, samples + [s]) == Poll(After(f, samples), s).1
    decreases samples
  {
    if samples != [] {
      assert (samples + [s])[1..] == samples[1..] + [s];
      AfterSnoc(Poll(f, samples[0]).1, samples[1..], s);
    }
  }

  /** The k-th report is the poll of the k-th sample on the fields left by the earlier ones. */
  lemma {:induction false} ReportAt(f: Fields, samples: seq<ScreenSample>, k: nat)
    requires k < |samples|
    ensures Reports(f, samples)[k] == Poll(After(f, samples[..k]), samples[k]).0
    decreases k
  {
    if k > 0 {
      assert samples[..k][1..] == samples[1..][..k - 1];
      ReportAt(Poll(f, samples[0]).1, samples[1..], k - 1);
    }
  }

  /** Every poll records its own time as the last check. */
  lemma LastCheckIsLastPoll(f: Fields, samples: seq<ScreenSample>)
    requires samples != []
    ensures After(f, samples).lastCheckTime == samples[|samples| - 1].time
  {
    var n := |samples| - 1;
    assert samples == samples[..n] + [samples[n]];
    AfterSnoc(f, samples[..n], samples[n]);
  }

  /**
   * With a clock that never runs backwards, the fields stay ordered and the
   * last check is never after the next poll.
   */
  lemma {:induction false} OrderedBeforeEachPoll(f: Fields, samples: seq<ScreenSample>, k: nat)
    requires Ordered(f) && NonDecreasing(samples)
    requires samples != [] ==> f.lastCheckTime <= samples[0].time
    requires k <= |samples|
    ensures Ordered(After(f, samples[..k]))
    ensures k < |samples| ==> After(f, samples[..k]).lastCheckTime <= samples[k].time
  {
    if k > 0 {
      OrderedBeforeEachPoll(f, samples, k - 1);
      assert samples[..k] == samples[..k - 1] + [samples[k - 1]];
      AfterSnoc(f, samples[..k - 1], samples[k - 1]);
    }
  }

  /** With a non-decreasing clock no poll reports a negative off time. */
  lemma NonUsageTimeNeverNegative(now: int, samples: seq<ScreenSample>, k: nat)
    requires NonDecreasing(samples)
    requires samples != [] ==> now <= samples[0].time
    requires k < |samples|
    ensures Reports(Initial(now), samples)[k].nonUsageTime >= 0
  {
    OrderedBeforeEachPoll(Initial(now), samples, k);
    ReportAt(Initial(now), samples, k);
  }

  /** Across two consecutive off polls the reported off time does not decrease. */
  lemma OffTimeGrowsAcrossOffPolls(f: Fields, samples: seq<ScreenSample>, k: nat)
    requires NonDecreasing(samples)
    requires k + 1 < |samples|
    requires !IsScreenOnAndUnlocked(samples[k].isInteractive, samples[k].isKeyguardLocked)
    requires !IsScreenOnAndUnlocked(samples[k + 1].isInteractive, samples[k + 1].isKeyguardLocked)
    ensures !Reports(f, samples)[k].isUsing && !Reports(f, samples)[k + 1].isUsing
    ensures Reports(f, samples)[k].nonUsageTime <= Reports(f, samples)[k + 1].nonUsageTime
  {
    ReportAt(f, samples, k);
    ReportAt(f, samples, k + 1);
    assert samples[..k + 1] == samples[..k] + [samples[k]];
    AfterSnoc(f, samples[..k], samples[k]);
  }

  /** An off poll right after an in-use poll at t reports the time elapsed since t. */
  lemma OffTimeMeasuredFromLastUse(f: Fields, samples: seq<ScreenSample>, k: nat)
    requires k + 1 < |samples|
    requires IsScreenOnAndUnlocked(samples[k].isInteractive, samples[k].isKeyguardLocked)
    requires !IsScreenOnAndUnlocked(samples[k + 1].isInteractive, samples[k + 1].isKeyguardLocked)
    ensures Reports(f, samples)[k] == UsageReport(true, 0)
    ensures Reports(f, samples)[k + 1] == UsageReport(false, samples[k + 1].time - samples[k].time)
  {
    ReportAt(f, samples, k);
    ReportAt(f, samples, k + 1);
    assert samples[..k + 1] == samples[..k] + [samples[k]];
    AfterSnoc(f, samples[..k], samples[k]);
  }

  /** While no poll has seen the screen in use, the off time runs from construction. */
  lemma {:induction false} OffTimeFromConstruction(now: int, samples: seq<ScreenSample>, k: nat)
    requires k < |samples|
    requires forall i :: 0 <= i <= k ==> !IsScreenOnAndUnlocked(samples[i].isInteractive, samples[i].isKeyguardLocked)
    ensures Reports(Initial(now), samples)[k] == UsageReport(false, samples[k].time - now)
  {
    StartUnchangedWhileOff(Initial(now), samples, k);
    ReportAt(Initial(now), samples, k);
  }

  lemma {:induction false} StartUnchangedWhileOff(f: Fields, samples: seq<ScreenSample>, k: nat)
    requires k <= |samples|
    requires forall i :: 0 <= i < k ==> !IsScreenOnAndUnlocked(samples[i].isInteractive, samples[i].isKeyguardLocked)
    ensures After(f, samples[..k]).nonUsageStartTime == f.nonUsageStartTime
  {
    if k > 0 {
      StartUnchangedWhileOff(f, samples, k - 1);
      assert samples[..k] == samples[..k - 1] + [samples[k - 1]];
      AfterSnoc(f, samples[..k - 1], samples[k - 1]);
    }
  }

  /** The native module object; the clock reading is passed to each call. */
  class UsageStatsModule {
    var lastCheckTime: int
    var nonUsageStartTime: int

    function State(): Fields
      reads this
    {
      Fields(lastCheckTime, nonUsageStartTime)
    }

    constructor (now: int)
      ensures State() == Initial(now)
      ensures lastCheckTime == now && nonUsageStartTime == now
    {
      lastCheckTime := now;
      nonUsageStartTime := now;
    }

    method GetUsageStats(currentTime: int, isInteractive: bool, isKeyguardLocked: bool) returns (report: UsageReport)
      modifies this
      ensures (report, State()) == Poll(old(State()), ScreenSample(currentTime, isInteractive, isKeyguardLocked))
      ensures report.isUsing == IsScreenOnAndUnlocked(isInteractive, isKeyguardLocked)
      ensures report.isUsing ==> report.nonUsageTime == 0 && nonUsageStartTime == currentTime
      ensures !report.isUsing ==> report.nonUsageTime == currentTime - old(nonUsageStartTime)
      ensures !report.isUsing ==> nonUsageStartTime == old(nonUsageStartTime)
      ensures lastCheckTime == currentTime
    {
      var inUse := IsScreenOnAndUnlocked(isInteractive, isKeyguardLocked);
      if inUse {
        nonUsageStartTime := currentTime;
        report := UsageReport(true, 0);
      } else {
        var nonUsageTime := currentTime - nonUsageStartTime;
        report := UsageReport(false, nonUsageTime);
      }
      lastCheckTime := currentTime;
    }
  }
}
