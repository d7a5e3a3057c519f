/**
 The prober as objects: a result that every round updates in place, and the snapshots handed to the saver and
 the channels. A snapshot copies the statistics map but shares the backing array of the status history.
 */
module Probers {
  import opened CounterSpec
  import opened Pipeline
  import opened StatusCounters
  import opened NotificationStrategy
  import AlertSchedule
  import ProbeSettings

  /** The map of rounds by status, a reference shared by whoever holds it. */
  class StatusMap {
    var entries: map<Status, int>

    constructor (entries: map<Status, int>)
      ensures this.entries == entries
    {
      this.entries := entries;
    }
  }

  /** The value returned by `Probe` and sent to the saver and the channels. */
  datatype Snapshot = Snapshot(
    status: Status, preStatus: Status, counter: CounterCopy, alert: AlertSchedule.Alert,
    total: int, counts: StatusMap, upTime: int, downTime: int, latestDownTime: int, recoveryDuration: int)
  {
    ghost function View(): Result
      requires counter.Valid()
      reads counter.backing, counts
    {
      Result(status, preStatus, counter.View(), alert, total, counts.entries, upTime, downTime,
             latestDownTime, recoveryDuration)
    }
  }

  class ProbeResult {
    var status: Status
    var preStatus: Status
    const counter: StatusCounter
    const alert: NotificationStrategyData
    var total: int
    const counts: StatusMap
    var upTime: int
    var downTime: int
    var latestDownTime: int
    var recoveryDuration: int

    ghost predicate Valid()
      reads this, counter
    {
      counter.Valid()
    }

    ghost function View(): Result
      requires Valid()
      reads this, counter, counter.backing, alert, counts
    {
      Result(status, preStatus, counter.View(), alert.View(), total, counts.entries, upTime, downTime,
             latestDownTime, recoveryDuration)
    }

    /** A new result, with the default bound of the history and the default strategy. */
    constructor ()
      ensures Valid() && fresh(counter) && fresh(counter.backing) && fresh(alert) && fresh(counts)
      ensures View() == NewResult()
    {
      status, preStatus := Init, Init;
      counter := new StatusCounter(1);
      alert := new NotificationStrategyData(AlertSchedule.REGULAR, 1, 1);
      total := 0;
      counts := new StatusMap(map[Up := 0, Down := 0]);
      upTime, downTime, latestDownTime, recoveryDuration := 0, 0, NO_TIME, 0;
    }

    /** A copy of a stored result. */
    constructor Restore(stored: Snapshot)
      requires stored.counter.Valid()
      ensures Valid() && fresh(counter) && fresh(alert) && fresh(counts)
      ensures View() == stored.View()
      ensures counter.backing == stored.counter.backing && counter.Covers(stored.counter)
    {
      status, preStatus := stored.status, stored.preStatus;
      counter := new StatusCounter.Restore(stored.counter);
      alert := new NotificationStrategyData.Restore(stored.alert);
      total := stored.total;
      counts := new StatusMap(stored.counts.entries);
      upTime, downTime := stored.upTime, stored.downTime;
      latestDownTime, recoveryDuration := stored.latestDownTime, stored.recoveryDuration;
    }

    /** Installs the settings in the machine and the counter. */
    method Install(cfg: Config)
      requires Valid() && Normalized(cfg)
      modifies alert`settings, counter`maxLen, counter`start, counter`len
      ensures Valid()
      ensures View() == Installed(cfg, old(View()))
      ensures counter.start + counter.len == old(counter.start + counter.len)
    {
      alert.settings := cfg.alert;
      var maxLen := cfg.failure;
      if cfg.success > maxLen {
        maxLen := cfg.success;
      }
      counter.SetMaxLen(maxLen);
    }

    method DoStat(interval: int)
      requires Valid()
      modifies this, counts
      ensures Valid()
      ensures View() == Pipeline.DoStat(old(View()), interval)
    {
      total := total + 1;
      counts.entries := counts.entries[status := CountOf(counts.entries, status) + 1];
      if status == Up {
        upTime := upTime + interval;
      } else {
        downTime := downTime + interval;
      }
    }

    method DownTimeCalculation(newStatus: Status, at: int)
      requires Valid() && newStatus == status
      modifies this`latestDownTime, this`recoveryDuration
      ensures View() == Pipeline.DownTimeCalculation(old(View()), at)
    {
      if preStatus != Down && newStatus == Down {
        latestDownTime := at;
      }
      if preStatus == Down && newStatus == Up {
        recoveryDuration := at - latestDownTime;
      }
    }

    /** The end of a round, once the new status is known. */
    method Conclude(newStatus: Status, at: int, interval: int)
      requires Valid()
      modifies this, counts
      ensures Valid()
      ensures View() == Pipeline.DoStat(
                Pipeline.DownTimeCalculation(old(View()).(preStatus := old(status), status := newStatus), at), interval)
    {
      preStatus := status;
      status := newStatus;
      DownTimeCalculation(newStatus, at);
      DoStat(interval);
    }

    method Clone() returns (copy: Snapshot)
      requires Valid()
      ensures counter.Covers(copy.counter)
      ensures copy.View() == View()
      ensures fresh(copy.counts) && copy.counter.backing == counter.backing
    {
      var history := counter.Clone();
      var strategy := alert.Clone();
      var statistics := new StatusMap(counts.entries);
      copy := Snapshot(status, preStatus, history, strategy, total, statistics, upTime, downTime,
                       latestDownTime, recoveryDuration);
    }
  }

  class DefaultProbe {
    var settings: Config
    var result: ProbeResult

    ghost predicate Valid()
      reads this, result, result.counter
    {
      result.Valid()
    }

    /** A copy of the stored result of the probe, if there is one, or a new result. */
    static method NewResultWithName(stored: seq<Snapshot>) returns (r: ProbeResult)
      requires |stored| <= 1 && forall s :: s in stored ==> s.counter.Valid()
      ensures r.Valid() && fresh(r) && fresh(r.counter) && fresh(r.alert) && fresh(r.counts)
      ensures stored == [] ==> r.View() == NewResult() && fresh(r.counter.backing)
      ensures stored != [] ==> r.View() == stored[0].View() && r.counter.Covers(stored[0].counter)
    {
      if stored == [] {
        r := new ProbeResult();
      } else {
        r := new ProbeResult.Restore(stored[0]);
      }
    }

    /** Normalises the settings and installs them in the stored result of the probe, if there is one, or a new one. */
    constructor Config(globalThresholds: ProbeSettings.Thresholds, globalAlert: AlertSchedule.Settings, globalInterval: int,
                       thresholds: ProbeSettings.Thresholds, strategy: AlertSchedule.Settings, interval: int,
                       stored: seq<Snapshot>)
      requires |stored| <= 1 && forall s :: s in stored ==> s.counter.Valid()
      ensures Valid() && fresh(result) && fresh(result.counter) && fresh(result.alert) && fresh(result.counts)
      ensures Normalized(settings)
      ensures settings.interval == ProbeSettings.NormalizeInterval(globalInterval, interval)
      ensures settings.alert == ProbeSettings.NormalizeNotificationStrategy(globalAlert, strategy)
      ensures ProbeSettings.Thresholds(settings.failure, settings.success)
           == ProbeSettings.NormalizeThreshold(globalThresholds, thresholds)
      ensures stored == [] ==> result.View() == Configured(settings) && fresh(result.counter.backing)
      ensures stored != [] ==> result.View() == Installed(settings, stored[0].View()) && Isolated(stored[0])
    {
      var t := ProbeSettings.NormalizeThreshold(globalThresholds, thresholds);
      var s := ProbeSettings.NormalizeNotificationStrategy(globalAlert, strategy);
      var cfg := Pipeline.Config(t.failure, t.success, s, ProbeSettings.NormalizeInterval(globalInterval, interval));
      var r := NewResultWithName(stored);
      r.Install(cfg);
      settings := cfg;
      result := r;
    }

    method CheckStatusThreshold() returns (status: Status)
      requires Valid()
      ensures status == Pipeline.CheckStatusThreshold(settings, result.counter.View(), result.preStatus)
    {
      var c := result.counter;
      if c.current && c.count >= settings.success {
        return Up;
      }
      if !c.current && c.count >= settings.failure {
        return Down;
      }
      return result.preStatus;
    }

    /**
     One round. The new state and the returned snapshot are one step of the pipeline; nothing that an earlier
     snapshot can see is written.
     */
    method Probe(r: Round) returns (copy: Snapshot)
      requires Valid()
      modifies result, result.counter, result.counter.backing, result.alert, result.counts
      ensures Valid()
      ensures result.View() == Step(settings, old(result.View()), r)
      ensures result.counter.Covers(copy.counter) && copy.View() == result.View()
      ensures fresh(copy.counts)
      ensures result.counter.KeepsHistory()
    {
      ghost var before := result.View();
      result.counter.AppendStatus(r.ok, r.message);
      var status := CheckStatusThreshold();
      result.alert.ProcessStatus(status == Up);
      assert result.View() == before.(counter := Append(before.counter, Entry(r.ok, r.message)),
                                      alert := AlertSchedule.Process(before.alert, status == Up));
      result.Conclude(status, r.at, settings.interval);
      copy := result.Clone();
    }

    /** `copy` owns its statistics and sees nothing that later rounds will write. */
    ghost predicate Isolated(copy: Snapshot)
      reads this, result, result.counter
    {
      result.counter.Covers(copy.counter) && copy.counts != result.counts
    }

    /** The snapshots are isolated and still show the given results. */
    ghost predicate Records(copies: seq<Snapshot>, results: seq<Result>)
      reads this, result, result.counter
      reads set c | c in copies :: c.counter.backing
      reads set c | c in copies :: c.counts
    {
      |copies| == |results| &&
      forall i :: 0 <= i < |copies| ==> Isolated(copies[i]) && copies[i].View() == results[i]
    }

    lemma {:induction false} RecordsOneMore(copies: seq<Snapshot>, results: seq<Result>, copy: Snapshot)
      requires Records(copies, results) && Isolated(copy)
      ensures Records(copies + [copy], results + [copy.View()])
    {
    }

    /** One round, with the snapshots of the rounds before it looked at again. */
    method ProbeAgain(r: Round, ghost copies: seq<Snapshot>, ghost results: seq<Result>) returns (copy: Snapshot)
      requires Valid() && Records(copies, results)
      modifies result, result.counter, result.counter.backing, result.alert, result.counts
      ensures Valid() && result.View() == Step(settings, old(result.View()), r)
      ensures Isolated(copy) && copy.View() == result.View()
      ensures Records(copies, results)
      ensures result.counter.backing == old(result.counter.backing) || fresh(result.counter.backing)
    {
      copy := Probe(r);
      ghost var backing := old(result.counter.backing);
      forall i | 0 <= i < |copies|
        ensures Isolated(copies[i]) && copies[i].View() == results[i]
      {
        var c := copies[i].counter;
        if c.backing == backing {
          assert backing[c.start..c.start + c.len] == old(backing[c.start..c.start + c.len]);
        }
      }
    }

    /**
     The rounds of a prober goroutine. When the loop ends, every snapshot taken on the way still shows the
     result of its own round, although later rounds wrote to the array it shares.
     */
    method ProbeLoop(rounds: seq<Round>) returns (copies: seq<Snapshot>)
      requires Valid() && result.View() == Configured(settings)
      modifies result, result.counter, result.counter.backing, result.alert, result.counts
      ensures Valid() && result.View() == Run(settings, rounds)
      ensures Records(copies, Results(settings, rounds))
    {
      copies := [];
      ghost var results := [];
      for n := 0 to |rounds|
        invariant Valid() && result.View() == Run(settings, rounds[..n])
        invariant result.counter.backing == old(result.counter.backing) || fresh(result.counter.backing)
        invariant results == Results(settings, rounds[..n])
        invariant Records(copies, results)
      {
        var copy := ProbeAgain(rounds[n], copies, results);
        RecordsOneMore(copies, results, copy);
        ResultsPrefix(settings, rounds, n);
        copies := copies + [copy];
        results := results + [copy.View()];
      }
      assert rounds[..|rounds|] == rounds;
    }
  }
}
