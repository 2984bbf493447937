/**
 * The JavaScript side of screen tracking (usageTracker.js): a module-level
 * flag that makes setup and stop idempotent, and on Android a background
 * timer that polls the native tracker. The platform is a parameter; the
 * timer is modelled by how many background timers are running.
 */
module UsageTracker {

  datatype Platform = Android | IOS

  /** The module-level flag and the background timers now running. */
  datatype Tracking = Tracking(isTrackingSetup: bool, runningTimers: nat)

  /** State when the module is first loaded. */
  function Idle(): Tracking {
    Tracking(false, 0)
  }

  /** Interval of the background poll, in milliseconds. */
  const POLL_INTERVAL_MS: nat := 1000

  /** setupUsageTracking: a no-op when already set up; the timer starts on Android only. */
  function Setup(t: Tracking, os: Platform): Tracking {
    if t.isTrackingSetup then t
    else Tracking(true, if os == Android then t.runningTimers + 1 else t.runningTimers)
  }

  /** stopUsageTracking: a no-op when not set up; on Android the background timer stops. */
  function Stop(t: Tracking, os: Platform): Tracking {
    if !t.isTrackingSetup then t
    else Tracking(false, if os == Android then 0 else t.runningTimers)
  }

  /** On Android exactly one timer runs while tracking is set up; elsewhere none ever runs. */
  predicate OneTimerWhileSetUp(t: Tracking, os: Platform) {
    t.runningTimers == (if os == Android && t.isTrackingSetup then 1 else 0)
  }

  datatype Command = SetupCommand | StopCommand

  function Apply(t: Tracking, c: Command, os: Platform): Tracking {
    match c
    case SetupCommand => Setup(t, os)
    case StopCommand => Stop(t, os)
  }

  /** The state after a sequence of setup and stop calls. */
  function Run(t: Tracking, cs: seq<Command>, os: Platform): Tracking
    decreases |cs|
  {
    if cs == [] then t else Apply(Run(t, cs[..|cs| - 1], os), cs[|cs| - 1], os)
  }

  lemma SetupIsIdempotent(t: Tracking, os: Platform)
    ensures Setup(Setup(t, os), os) == Setup(t, os)
    ensures Setup(t, os).isTrackingSetup
  {
  }

  lemma StopIsIdempotent(t: Tracking, os: Platform)
    ensures Stop(Stop(t, os), os) == Stop(t, os)
    ensures !Stop(t, os).isTrackingSetup
  {
  }

  /** Setup followed by stop returns to where an idle tracker started. */
  lemma SetupThenStopRestores(t: Tracking, os: Platform)
    requires OneTimerWhileSetUp(t, os) && !t.isTrackingSetup
    ensures Stop(Setup(t, os), os) == t
  {
  }

  lemma SetupAndStopKeepOneTimer(t: Tracking, os: Platform)
    requires OneTimerWhileSetUp(t, os)
    ensures OneTimerWhileSetUp(Setup(t, os), os)
    ensures OneTimerWhileSetUp(Stop(t, os), os)
  {
  }

  /**
   * Whatever the calls, starting from the idle module: on Android the timer
   * runs exactly when tracking is set up, so at most one timer ever exists.
   */
  lemma {:induction false} AtMostOneTimer(cs: seq<Command>, os: Platform)
    ensures OneTimerWhileSetUp(Run(Idle(), cs, os), os)
    ensures Run(Idle(), cs, os).runningTimers <= 1
    ensures os == Android ==> (Run(Idle(), cs, os).runningTimers == 1 <==> Run(Idle(), cs, os).isTrackingSetup)
    decreases |cs|
  {
    if cs != [] {
      AtMostOneTimer(cs[..|cs| - 1], os);
      SetupAndStopKeepOneTimer(Run(Idle(), cs[..|cs| - 1], os), os);
    }
  }

  /** What the poll callback received from the native module. */
  datatype PollResult =
    | Resolved(value: JsValue)
    | Rejected

  /** The shapes of value the callback distinguishes. */
  datatype JsValue =
    | Undefined
    | Null
    | Primitive
    | Stats(isUsing: bool, nonUsageTime: real)

  /**
   * Which branch the callback takes. It keeps no state, and it logs only
   * invalid data and rejections: the screen-on and screen-off log lines are
   * commented out.
   */
  datatype PollOutcome =
    | ScreenOff(nonUsageSeconds: real)
    | ScreenOn
    | InvalidDataLogged
    | ErrorLogged

  /**
   * The callback of each background poll. It touches no tracker state: a
   * missing or non-object result and a rejection are logged, and the off
   * duration is computed and discarded without being logged.
   */
  function OnPollResult(r: PollResult): (o: PollOutcome)
    ensures o.InvalidDataLogged? <==> r.Resolved? && !r.value.Stats?
    ensures o.ErrorLogged? <==> r.Rejected?
    ensures o.ScreenOff? <==> r.Resolved? && r.value.Stats? && !r.value.isUsing
    ensures o.ScreenOff? ==> o.nonUsageSeconds * 1000.0 == r.value.nonUsageTime
  {
    match r
    case Rejected => ErrorLogged
    case Resolved(v) =>
      match v
      case Stats(isUsing, nonUsageTime) =>
        if !isUsing then ScreenOff(nonUsageTime / 1000.0) else ScreenOn
      case _ => InvalidDataLogged
  }

  /** The JavaScript module, with its flag and the background timer. */
  class UsageTrackerModule {
    const os: Platform
    var isTrackingSetup: bool
    var runningTimers: nat

    function State(): Tracking
      reads this
    {
      Tracking(isTrackingSetup, runningTimers)
    }

    predicate Valid()
      reads this
    {
      OneTimerWhileSetUp(State(), os)
    }

    constructor (os: Platform)
      ensures this.os == os && State() == Idle() && Valid()
    {
      this.os := os;
      isTrackingSetup := false;
      runningTimers := 0;
    }

    method SetupUsageTracking()
      requires Valid()
      modifies this
      ensures Valid()
      ensures State() == Setup(old(State()), os)
      ensures old(isTrackingSetup) ==> runningTimers == old(runningTimers)
      ensures isTrackingSetup && runningTimers <= 1
    {
      if isTrackingSetup {
        return;
      }
      isTrackingSetup := true;
      if os == Android {
        StartScreenStateTracking();
      }
    }

    /** runBackgroundTimer with the poll callback, every POLL_INTERVAL_MS. */
    method StartScreenStateTracking()
      modifies this
      ensures runningTimers == old(runningTimers) + 1
      ensures isTrackingSetup == old(isTrackingSetup)
    {
      runningTimers := runningTimers + 1;
    }

    method StopUsageTracking()
      requires Valid()
      modifies this
      ensures Valid()
      ensures State() == Stop(old(State()), os)
      ensures !isTrackingSetup && runningTimers == 0
    {
      if !isTrackingSetup {
        return;
      }
      isTrackingSetup := false;
      if os == Android {
        runningTimers := 0;
      }
    }
  }
}
