/**
 * A wall-clock stopwatch: `Start` records the begin time, `Stop` the end
 * time, and `GetElapsedTime` reports the seconds between the two. Every
 * reading of the clock is passed in as a parameter.
 */
module Stopwatch {
  /** Microseconds in one second. */
  const MicrosPerSecond := 1000000

  /** A `struct timeval`: whole seconds and the microseconds past them. */
  datatype TimeVal = TimeVal(sec: int, usec: int)

  /** A reading as the clock delivers it: the microsecond part is below one second. */
  predicate Normalized(t: TimeVal) {
    0 <= t.usec < MicrosPerSecond
  }

  /** The reading counted in microseconds, as `getElapsedTime` folds it. */
  function Micros(t: TimeVal): int {
    t.sec * MicrosPerSecond + t.usec
  }

  /** `a` is strictly earlier than `b`: fewer seconds, or as many and fewer microseconds. */
  predicate Before(a: TimeVal, b: TimeVal) {
    a.sec < b.sec || (a.sec == b.sec && a.usec < b.usec)
  }

  /**
   * On normalized readings, folding into microseconds keeps the order of the
   * clock and tells different readings apart.
   */
  lemma MicrosPreservesOrder(a: TimeVal, b: TimeVal)
    requires Normalized(a) && Normalized(b)
    ensures Micros(a) < Micros(b) <==> Before(a, b)
    ensures Micros(a) == Micros(b) <==> a == b
  {
    if a.sec < b.sec {
      assert (b.sec - a.sec) * MicrosPerSecond >= MicrosPerSecond;
    } else if b.sec < a.sec {
      assert (a.sec - b.sec) * MicrosPerSecond >= MicrosPerSecond;
    }
  }

  /** Why a timer operation refused to run. */
  datatype TimerError =
    | AlreadyStarted  // start() on a running timer
    | NotStarted      // stop() on a timer that is not running
    | EmptyInterval   // getElapsedTime() with the end equal to the begin
    | NegativeInterval // getElapsedTime() with the end before the begin

  /** The end of an operation that returns nothing but may fail. */
  datatype Outcome = Pass | Fail(error: TimerError)

  /** The end of an operation that returns a value or fails. */
  datatype Result<T> = Ok(value: T) | Err(error: TimerError)

  class Timer {
    var timerWasStarted: bool
    var beginTime: TimeVal
    var duration: TimeVal

    /**
     * A timer that is not running, with the begin and end times set from two
     * consecutive readings of the clock.
     */
    constructor (clock1: TimeVal, clock2: TimeVal)
      ensures !timerWasStarted && beginTime == clock1 && duration == clock2
    {
      timerWasStarted := false;
      beginTime := clock1;
      duration := clock2;
    }

    /**
     * Starts the timer at `now`. A running timer refuses, and then nothing
     * changes: the refusal comes before the running flag is set.
     */
    method Start(now: TimeVal) returns (outcome: Outcome)
      modifies this
      ensures outcome.Fail? <==> old(timerWasStarted)
      ensures outcome.Fail? ==> outcome.error == AlreadyStarted
      ensures outcome.Pass? ==> timerWasStarted && beginTime == now && duration == old(duration)
      ensures outcome.Fail? ==> timerWasStarted == old(timerWasStarted) && beginTime == old(beginTime) && duration == old(duration)
    {
      if !timerWasStarted {
        beginTime := now;
      } else {
        return Fail(AlreadyStarted);
      }
      timerWasStarted := true;
      outcome := Pass;
    }

    /**
     * Stops the timer at `now`. A timer that is not running refuses, and then
     * nothing changes.
     */
    method Stop(now: TimeVal) returns (outcome: Outcome)
      modifies this
      ensures outcome.Fail? <==> !old(timerWasStarted)
      ensures outcome.Fail? ==> outcome.error == NotStarted
      ensures outcome.Pass? ==> !timerWasStarted && duration == now && beginTime == old(beginTime)
      ensures outcome.Fail? ==> timerWasStarted == old(timerWasStarted) && beginTime == old(beginTime) && duration == old(duration)
    {
      if timerWasStarted {
        duration := now;
      } else {
        return Fail(NotStarted);
      }
      timerWasStarted := false;
      outcome := Pass;
    }

    /**
     * The seconds from the begin time to the end time. An empty interval and
     * one that ends before it begins are refused; the running flag is not
     * consulted.
     */
    function GetElapsedTime(): (r: Result<real>)
      reads this
      ensures r.Ok? <==> Micros(beginTime) < Micros(duration)
      ensures r.Ok? ==> r.value > 0.0 && r.value * 1000000.0 == (Micros(duration) - Micros(beginTime)) as real
      ensures r == Err(EmptyInterval) <==> Micros(duration) == Micros(beginTime)
      ensures r == Err(NegativeInterval) <==> Micros(duration) < Micros(beginTime)
    {
      var t1 := Micros(duration);
      var t2 := Micros(beginTime);
      if t1 == t2 then
        Err(EmptyInterval)
      else if t1 - t2 < 0 then
        Err(NegativeInterval)
      else
        Ok((t1 - t2) as real / 1000000.0)
    }
  }

  /**
   * A whole measurement: a timer built from two boot readings, started at
   * `t1` and stopped at `t2`. With normalized readings it reports a time
   * exactly when `t2` is later than `t1`, and then the seconds between them.
   */
  method MeasureInterval(boot1: TimeVal, boot2: TimeVal, t1: TimeVal, t2: TimeVal) returns (r: Result<real>)
    requires Normalized(t1) && Normalized(t2)
    ensures r.Ok? <==> Before(t1, t2)
    ensures r.Ok? ==> r.value * 1000000.0 == (Micros(t2) - Micros(t1)) as real
    ensures r == Err(EmptyInterval) <==> t1 == t2
    ensures r == Err(NegativeInterval) <==> Before(t2, t1)
  {
    var timer := new Timer(boot1, boot2);
    var started := timer.Start(t1);
    var stopped := timer.Stop(t2);
    r := timer.GetElapsedTime();
    MicrosPreservesOrder(t1, t2);
    MicrosPreservesOrder(t2, t1);
  }

  /** Starting a timer that is already running fails, whatever the clock says. */
  method StartTwice(boot1: TimeVal, boot2: TimeVal, t1: TimeVal, t2: TimeVal) returns (first: Outcome, second: Outcome)
    ensures first == Pass && second == Fail(AlreadyStarted)
  {
    var timer := new Timer(boot1, boot2);
    first := timer.Start(t1);
    second := timer.Start(t2);
  }

  /** Stopping a fresh timer fails, and so does stopping one twice. */
  method StopWithoutStart(boot1: TimeVal, boot2: TimeVal, t1: TimeVal, t2: TimeVal, t3: TimeVal)
    returns (early: Outcome, started: Outcome, stopped: Outcome, again: Outcome)
    ensures early == Fail(NotStarted)
    ensures started == Pass && stopped == Pass
    ensures again == Fail(NotStarted)
  {
    var timer := new Timer(boot1, boot2);
    early := timer.Stop(t1);
    started := timer.Start(t2);
    stopped := timer.Stop(t3);
    again := timer.Stop(t3);
  }

  /**
   * Reading a fresh timer reports the gap between the two boot readings; two
   * equal readings are refused as an empty interval, reversed ones as a
   * negative interval.
   */
  method ElapsedOfFreshTimer(boot1: TimeVal, boot2: TimeVal) returns (r: Result<real>)
    requires Normalized(boot1) && Normalized(boot2)
    ensures r.Ok? <==> Before(boot1, boot2)
    ensures r.Ok? ==> r.value * 1000000.0 == (Micros(boot2) - Micros(boot1)) as real
    ensures r == Err(EmptyInterval) <==> boot1 == boot2
    ensures r == Err(NegativeInterval) <==> Before(boot2, boot1)
  {
    var timer := new Timer(boot1, boot2);
    r := timer.GetElapsedTime();
    MicrosPreservesOrder(boot1, boot2);
    MicrosPreservesOrder(boot2, boot1);
  }
}
