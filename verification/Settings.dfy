/** The normalisation of the probe settings that `Config` applies before a run starts. */
module ProbeSettings {
  import AlertSchedule

  /** One minute, in nanoseconds. */
  const DEFAULT_PROBE_INTERVAL := 60_000_000_000

  datatype Thresholds = Thresholds(failure: int, success: int)

  /** The local value wins when it is valid, then the global one, then the default. */
  function Normalize(globalValue: int, localValue: int, valid: int, defaultValue: int): (r: int)
    ensures defaultValue > valid ==> r > valid
    ensures r in {globalValue, localValue, defaultValue}
    ensures localValue > valid ==> r == localValue
    ensures localValue <= valid < globalValue ==> r == globalValue
    ensures localValue <= valid && globalValue <= valid ==> r == defaultValue
  {
    if localValue <= valid then
      if globalValue > valid then globalValue else defaultValue
    else localValue
  }

  function NormalizeInterval(globalInterval: int, interval: int): (r: int)
    ensures r > 0
    ensures interval > 0 ==> r == interval
    ensures interval <= 0 < globalInterval ==> r == globalInterval
    ensures interval <= 0 && globalInterval <= 0 ==> r == 60 * 1_000_000_000
  {
    Normalize(globalInterval, interval, 0, DEFAULT_PROBE_INTERVAL)
  }

  function NormalizeThreshold(g: Thresholds, t: Thresholds): (r: Thresholds)
    ensures r.failure >= 1 && r.success >= 1
    ensures t.failure >= 1 ==> r.failure == t.failure
    ensures t.success >= 1 ==> r.success == t.success
    ensures t.failure < 1 <= g.failure ==> r.failure == g.failure
    ensures t.success < 1 <= g.success ==> r.success == g.success
    ensures t.failure < 1 && g.failure < 1 ==> r.failure == 1
    ensures t.success < 1 && g.success < 1 ==> r.success == 1
  {
    Thresholds(Normalize(g.failure, t.failure, 0, 1), Normalize(g.success, t.success, 0, 1))
  }

  function NormalizeNotificationStrategy(g: AlertSchedule.Settings, t: AlertSchedule.Settings): (r: AlertSchedule.Settings)
    ensures r.strategy >= AlertSchedule.REGULAR && r.factor >= 1 && r.maxTimes >= 1
    ensures t.strategy >= 1 ==> r.strategy == t.strategy
    ensures t.strategy < 1 <= g.strategy ==> r.strategy == g.strategy
    ensures t.strategy < 1 && g.strategy < 1 ==> r.strategy == AlertSchedule.REGULAR
    ensures t.factor >= 1 ==> r.factor == t.factor
    ensures t.factor < 1 <= g.factor ==> r.factor == g.factor
    ensures t.factor < 1 && g.factor < 1 ==> r.factor == 1
    ensures t.maxTimes >= 1 ==> r.maxTimes == t.maxTimes
    ensures t.maxTimes < 1 <= g.maxTimes ==> r.maxTimes == g.maxTimes
    ensures t.maxTimes < 1 && g.maxTimes < 1 ==> r.maxTimes == 1
  {
    AlertSchedule.Settings(
      Normalize(g.strategy, t.strategy, 0, AlertSchedule.REGULAR),
      Normalize(g.factor, t.factor, 0, 1),
      Normalize(g.maxTimes, t.maxTimes, 0, 1))
  }
}
