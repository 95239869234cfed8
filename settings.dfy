/** Session constants and the process-wide termination flag. Times of day are seconds
    after midnight on the session's own date (all three share it). */
module Settings {

  const START_TIME: int := 9 * 3600 + 15 * 60
  const STOP_BUYING_TIME: int := 15 * 3600 + 10 * 60
  const END_TIME: int := 15 * 3600 + 13 * 60

  /** Seconds slept between two ticks of the background loop. */
  const SLEEP_INTERVAL: int := 45

  const DELIVERY_INITIAL_RETURN: real := 0.008
  const DELIVERY_INCREMENTAL_RETURN: real := 0.006
  const DRAWDOWN_ALLOWED: real := 0.03
  const INTRADAY_INITIAL_RETURN: real := 0.008
  const INTRADAY_INCREMENTAL_RETURN: real := 0.008

  /** The buying window of a tick: strictly after the open and strictly before the cutoff. */
  predicate InBuyingWindow(now: int) {
    START_TIME < now < STOP_BUYING_TIME
  }

  /** The buying window closes before the session ends, so the last minutes of a
      session only evaluate exits. */
  lemma {:induction false} SessionTimesOrdered(now: int)
    ensures START_TIME < STOP_BUYING_TIME < END_TIME
    ensures InBuyingWindow(now) ==> START_TIME < now < END_TIME
    ensures STOP_BUYING_TIME <= now < END_TIME ==> !InBuyingWindow(now)
    ensures END_TIME - STOP_BUYING_TIME == 3 * 60 && SLEEP_INTERVAL == 45
  {
  }

  /** The return schedule's constants. */
  lemma ReturnConstants()
    ensures DELIVERY_INITIAL_RETURN == 0.008 && DELIVERY_INCREMENTAL_RETURN == 0.006
    ensures INTRADAY_INITIAL_RETURN == 0.008 && INTRADAY_INCREMENTAL_RETURN == 0.008
  {
  }

  /** The module-level END_PROCESS flag, as an object the loop and the price feed share. */
  class Process {
    var endProcess: bool

    /** The flag starts cleared when the settings module is loaded. */
    constructor ()
      ensures !endProcess
    {
      endProcess := false;
    }

    /** `end_process()`: the last value set, false until a set. */
    function EndProcess(): bool
      reads this
    {
      endProcess
    }

    /** `set_end_process(value)`. */
    method SetEndProcess(value: bool)
      modifies this
      ensures EndProcess() == value
    {
      endProcess := value;
    }
  }
}
