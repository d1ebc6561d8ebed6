/** The busy handler `GRDBStorage` installs on its pool configuration
    (`configuration.busyMode = .callback { retryCount in ... }`): each call
    sleeps a fixed step, logs a warning at every multiple of the warning
    interval, and always asks the engine to retry. */
module BusyRetry {

  /** Milliseconds slept by one call of the callback. */
  const StepMillis: int := 50

  /** A warning is logged whenever the accumulated wait is a positive
      multiple of this many milliseconds. */
  const WarnIntervalMillis: int := 250

  /** What one call of the busy callback does. */
  datatype BusyDecision = BusyDecision(
    retry: bool,                  // the callback's return value
    sleptMillis: int,             // the `usleep` of this call
    accumulatedWaitMillis: int,   // `millis * (retryCount + 1)`
    warns: bool)                  // whether "Database busy for ..." is logged

  /** The callback for the engine's `retryCount`-th retry (0 for the first). */
  function BusyCallback(retryCount: int): (d: BusyDecision)
    ensures d.retry
    ensures d.sleptMillis == StepMillis
    ensures d.accumulatedWaitMillis == StepMillis * (retryCount + 1)
    ensures d.warns <==> retryCount + 1 > 0 && (retryCount + 1) % 5 == 0
  {
    var accumulatedWait := StepMillis * (retryCount + 1);
    var warns := accumulatedWait > 0 && accumulatedWait % WarnIntervalMillis == 0;
    if retryCount + 1 > 0 then WarnMultipleIsEveryFifthStep(retryCount + 1); BusyDecision(true, StepMillis, accumulatedWait, warns)
    else BusyDecision(true, StepMillis, accumulatedWait, warns)
  }

  /** A wait of `steps` steps is a multiple of the warning interval exactly when
      the number of steps is a multiple of five. */
  lemma WarnMultipleIsEveryFifthStep(steps: int)
    requires steps > 0
    ensures (StepMillis * steps) % WarnIntervalMillis == 0 <==> steps % 5 == 0
  {
    var q, r := steps / 5, steps % 5;
    assert steps == 5 * q + r;
    assert StepMillis * steps == WarnIntervalMillis * q + StepMillis * r;
    assert 0 <= StepMillis * r < WarnIntervalMillis;
    var a := StepMillis * steps;
    var q', r' := a / WarnIntervalMillis, a % WarnIntervalMillis;
    assert a == WarnIntervalMillis * q' + r';
    assert WarnIntervalMillis * (q - q') == r' - StepMillis * r;
    assert q == q';
  }

  /** Total milliseconds slept by the first `calls` calls of the callback,
      when the engine numbers its retries 0, 1, 2, ... */
  function TotalSleptMillis(calls: nat): int
  {
    if calls == 0 then 0 else TotalSleptMillis(calls - 1) + BusyCallback(calls - 1).sleptMillis
  }

  /** Number of warnings logged by the first `calls` calls. */
  function WarningCount(calls: nat): nat
  {
    if calls == 0 then 0 else WarningCount(calls - 1) + (if BusyCallback(calls - 1).warns then 1 else 0)
  }

  /** The accumulated wait the callback reports is what has really been slept
      so far. */
  lemma {:induction false} AccumulatedWaitIsTimeSlept(retryCount: nat)
    ensures BusyCallback(retryCount).accumulatedWaitMillis == TotalSleptMillis(retryCount + 1)
  {
    if retryCount > 0 {
      AccumulatedWaitIsTimeSlept(retryCount - 1);
    }
  }

  /** A lock held for `calls` busy attempts never makes the callback give up,
      costs `calls` steps of sleep, and logs one warning per five attempts. */
  lemma {:induction false} BusyRetryNeverGivesUp(calls: nat)
    ensures forall i :: 0 <= i < calls ==> BusyCallback(i).retry
    ensures TotalSleptMillis(calls) == StepMillis * calls
    ensures WarningCount(calls) == calls / 5
  {
    if calls > 0 {
      BusyRetryNeverGivesUp(calls - 1);
      var n := calls - 1;
      if calls % 5 == 0 {
        assert calls / 5 == n / 5 + 1;
      } else {
        assert calls / 5 == n / 5;
      }
    }
  }
}
