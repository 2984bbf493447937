/**
 * The gyroscope listener (GyroSensorManager): each sensor event is compared
 * against fixed thresholds, and the shock and fall callbacks, when set, are
 * invoked. Sensor readings are reals; the invoked callbacks are recorded
 * in order.
 */
module GyroSensor {
  import opened JsText

  /** Shock threshold on any axis (rad/s). */
  const THRESHOLD: real := 0.1
  /** Fall threshold on the y axis (rad/s). */
  const FALL_THRESHOLD: real := 0.1

  /** The three angular-rate values of one event. */
  datatype SensorEvent = SensorEvent(x: real, y: real, z: real)

  datatype Callback = ShockDetected | FallDetected

  function Abs(v: real): (r: real)
    ensures r >= 0.0 && (r == v || r == -v)
  {
    if v < 0.0 then -v else v
  }

  predicate IsShock(e: SensorEvent) {
    Abs(e.x) > THRESHOLD || Abs(e.y) > THRESHOLD || Abs(e.z) > THRESHOLD
  }

  predicate IsFall(e: SensorEvent) {
    Abs(e.y) > FALL_THRESHOLD
  }

  /**
   * The callbacks one onSensorChanged call invokes, in order; `shockSet`
   * and `fallSet` say whether the nullable callback variables hold a function.
   */
  function Invoked(event: Option<SensorEvent>, shockSet: bool, fallSet: bool): seq<Callback> {
    match event
    case None => []
    case Some(e) =>
      (if IsShock(e) && shockSet then [ShockDetected] else []) +
      (if IsFall(e) && fallSet then [FallDetected] else [])
  }

  function Count(s: seq<Callback>, c: Callback): (n: nat)
    ensures n <= |s|
  {
    if s == [] then 0 else (if s[0] == c then 1 else 0) + Count(s[1..], c)
  }

  lemma {:induction false} CountAppend(a: seq<Callback>, b: seq<Callback>, c: Callback)
    ensures Count(a + b, c) == Count(a, c) + Count(b, c)
  {
    if a != [] {
      assert (a + b)[1..] == a[1..] + b;
      CountAppend(a[1..], b, c);
    } else {
      assert a + b == b;
    }
  }

  /** The shock callback runs exactly once iff some axis strictly exceeds THRESHOLD and it is set. */
  lemma ShockInvokedOnceIff(event: Option<SensorEvent>, shockSet: bool, fallSet: bool)
    ensures Count(Invoked(event, shockSet, fallSet), ShockDetected) ==
            (if event.Some? && shockSet && IsShock(event.value) then 1 else 0)
  {
    if event.Some? {
      var e := event.value;
      CountAppend(if IsShock(e) && shockSet then [ShockDetected] else [],
                  if IsFall(e) && fallSet then [FallDetected] else [], ShockDetected);
    }
  }

  /** The fall callback runs exactly once iff |y| strictly exceeds FALL_THRESHOLD and it is set. */
  lemma FallInvokedOnceIff(event: Option<SensorEvent>, shockSet: bool, fallSet: bool)
    ensures Count(Invoked(event, shockSet, fallSet), FallDetected) ==
            (if event.Some? && fallSet && IsFall(event.value) then 1 else 0)
  {
    if event.Some? {
      var e := event.value;
      CountAppend(if IsShock(e) && shockSet then [ShockDetected] else [],
                  if IsFall(e) && fallSet then [FallDetected] else [], FallDetected);
    }
  }

  /** The shock callback, when both fire, runs before the fall callback. */
  lemma ShockBeforeFall(e: SensorEvent, shockSet: bool, fallSet: bool)
    requires shockSet && fallSet && IsFall(e)
    ensures Invoked(Some(e), shockSet, fallSet) == [ShockDetected, FallDetected]
  {
  }

  /**
   * The tests are strict: a sample whose axes are all at or below the
   * thresholds, even exactly at them, triggers nothing; with the shock
   * callback set, that is the only way nothing is triggered.
   */
  lemma AtThresholdNothingFires(e: SensorEvent, shockSet: bool, fallSet: bool)
    ensures Abs(e.x) <= THRESHOLD && Abs(e.y) <= FALL_THRESHOLD && Abs(e.z) <= THRESHOLD ==>
      Invoked(Some(e), shockSet, fallSet) == []
    ensures shockSet ==>
      (Invoked(Some(e), shockSet, fallSet) == [] <==>
       Abs(e.x) <= THRESHOLD && Abs(e.y) <= THRESHOLD && Abs(e.z) <= THRESHOLD)
    ensures Invoked(Some(SensorEvent(THRESHOLD, -FALL_THRESHOLD, -THRESHOLD)), shockSet, fallSet) == []
  {
  }

  /** A null event and unset callbacks invoke nothing. */
  lemma NothingWithoutEventOrCallbacks(event: Option<SensorEvent>)
    ensures Invoked(None, true, true) == []
    ensures Invoked(event, false, false) == []
  {
  }

  /** The thresholds are equal, so every fall is also a shock. */
  lemma FallImpliesShock(e: SensorEvent)
    ensures IsFall(e) ==> IsShock(e)
    ensures IsFall(e) <==> Abs(e.y) > THRESHOLD
  {
  }

  /** The listener object; `gyroPresent` stands for getDefaultSensor(TYPE_GYROSCOPE) != null. */
  class GyroSensorManager {
    const gyroPresent: bool
    var listenerRegistered: bool
    var onShockDetected: bool
    var onFallDetected: bool
    var invoked: seq<Callback>

    /** The init block: register with the sensor manager only when a gyroscope exists. */
    constructor (gyroPresent: bool)
      ensures this.gyroPresent == gyroPresent
      ensures listenerRegistered == gyroPresent
      ensures !onShockDetected && !onFallDetected && invoked == []
    {
      this.gyroPresent := gyroPresent;
      listenerRegistered := gyroPresent;
      onShockDetected := false;
      onFallDetected := false;
      invoked := [];
    }

    /** Assign or clear the shock callback from outside. */
    method SetOnShockDetected(isSet: bool)
      modifies this`onShockDetected
      ensures onShockDetected == isSet
    {
      onShockDetected := isSet;
    }

    /** Assign or clear the fall callback from outside. */
    method SetOnFallDetected(isSet: bool)
      modifies this`onFallDetected
      ensures onFallDetected == isSet
    {
      onFallDetected := isSet;
    }

    method Unregister()
      modifies this`listenerRegistered
      ensures !listenerRegistered
    {
      listenerRegistered := false;
    }

    method OnSensorChanged(event: Option<SensorEvent>)
      modifies this`invoked
      ensures invoked == old(invoked) + Invoked(event, onShockDetected, onFallDetected)
    {
      if event.Some? {
        var e := event.value;
        if Abs(e.x) > THRESHOLD || Abs(e.y) > THRESHOLD || Abs(e.z) > THRESHOLD {
          if onShockDetected {
            invoked := invoked + [ShockDetected];
          }
        }
        if Abs(e.y) > FALL_THRESHOLD {
          if onFallDetected {
            invoked := invoked + [FallDetected];
          }
        }
      }
    }
  }
}
