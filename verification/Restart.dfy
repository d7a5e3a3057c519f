/**
 A probe that starts from a result of the data file: the settings are installed in whatever was stored, and the
 rounds go on from there.
 */
module Restart {
  import opened Runs
  import opened AlertSchedule
  import opened CounterSpec
  import opened Pipeline
  import opened Alerting
  import opened Statistics

  /** The result after the rounds that follow the restart. */
  function Restarted(cfg: Config, p: Result, rounds: seq<Round>): Result
    requires Normalized(cfg)
  {
    RunFrom(cfg, Installed(cfg, p), rounds)
  }

  lemma {:induction false} RestartedStep(cfg: Config, p: Result, rounds: seq<Round>)
    requires Normalized(cfg) && rounds != []
    ensures var before, q := Restarted(cfg, p, ButLast(rounds)), Restarted(cfg, p, rounds);
            && q == Step(cfg, before, Last(rounds))
            && q.counter == Append(before.counter, Entry(Last(rounds).ok, Last(rounds).message))
            && q.status == CheckStatusThreshold(cfg, q.counter, before.preStatus)
            && q.preStatus == before.status
            && q.alert == Process(before.alert, q.status == Up)
  {
    StepShifts(cfg, Restarted(cfg, p, ButLast(rounds)), Last(rounds));
  }

  // ----- unchanged settings

  /** What the data file keeps of a result: everything but the flag that the alert has just been sent. */
  function Persisted(p: Result): Result {
    p.(alert := p.alert.(isSent := false))
  }

  lemma {:induction false} AlertSettingsOfRun(cfg: Config, rounds: seq<Round>)
    ensures Run(cfg, rounds).alert.settings == cfg.alert
  {
    if rounds != [] {
      AlertSettingsOfRun(cfg, ButLast(rounds));
      StepShifts(cfg, Run(cfg, ButLast(rounds)), Last(rounds));
    }
  }

  /** Installing the same settings again changes nothing: the history is within its bound already. */
  lemma {:induction false} InstalledAgain(cfg: Config, rounds: seq<Round>)
    requires Normalized(cfg)
    ensures Installed(cfg, Persisted(Run(cfg, rounds))) == Persisted(Run(cfg, rounds))
  {
    CounterOfRun(cfg, rounds);
    AlertSettingsOfRun(cfg, rounds);
  }

  /** The flag is set anew by every round, whatever it was before. */
  lemma {:induction false} StepIgnoresFlag(cfg: Config, p: Result, r: Round)
    ensures Step(cfg, Persisted(p), r) == Step(cfg, p, r)
  {
  }

  /**
   A restart with unchanged settings goes unnoticed: the first round after it, and so every later one, has the
   result it would have had without the restart, in the middle of a stretch as well.
   */
  lemma {:induction false} RestartIsUnnoticed(cfg: Config, rounds: seq<Round>, r: Round)
    requires Normalized(cfg)
    ensures Step(cfg, Installed(cfg, Persisted(Run(cfg, rounds))), r) == Run(cfg, rounds + [r])
  {
    InstalledAgain(cfg, rounds);
    StepIgnoresFlag(cfg, Run(cfg, rounds), r);
    assert ButLast(rounds + [r]) == rounds;
  }

  // ----- the status, for any stored result and any new thresholds

  /** The run of outcomes `v` that ends the stream; one that reaches back to the restart goes on from the stored count. */
  function Carried(c: Counter, oks: seq<bool>, v: bool): int {
    Trailing(oks, v) + if Trailing(oks, v) == |oks| && c.current == v then c.count else 0
  }

  lemma {:induction false} CarriedPush(c: Counter, oks: seq<bool>, v: bool)
    ensures Carried(c, oks + [v], v) == Carried(c, oks, v) + 1
  {
    assert ButLast(oks + [v]) == oks;
  }

  /** The current outcome of the counter, and its count up to the bound. */
  ghost predicate CountsFrom(c: Counter, stored: Counter, oks: seq<bool>, bound: int) {
    && c.maxLen == bound
    && c.current == (if oks == [] then stored.current else Last(oks))
    && Min(c.count, bound) == Min(Carried(stored, oks, c.current), bound)
  }

  lemma {:induction false} NothingCarried(c: Counter, stored: Counter, oks: seq<bool>, bound: int)
    requires CountsFrom(c, stored, oks, bound)
    ensures Carried(stored, oks, !c.current) == 0
  {
  }

  lemma {:induction false} CountedStep(c: Counter, e: Entry, carried: int)
    requires c.maxLen >= 1
    requires if c.current == e.status then Min(c.count, c.maxLen) == Min(carried, c.maxLen) else carried == 0
    ensures var d := Append(c, e);
            d.maxLen == c.maxLen && d.current == e.status && Min(d.count, c.maxLen) == Min(carried + 1, c.maxLen)
  {
  }

  lemma {:induction false} PushCountsFrom(c: Counter, stored: Counter, oks: seq<bool>, bound: int, e: Entry)
    requires bound >= 1 && CountsFrom(c, stored, oks, bound)
    ensures CountsFrom(Append(c, e), stored, oks + [e.status], bound)
  {
    NothingCarried(c, stored, oks, bound);
    CountedStep(c, e, Carried(stored, oks, e.status));
    CarriedPush(stored, oks, e.status);
  }

  lemma {:induction false} CounterOfRestart(cfg: Config, p: Result, rounds: seq<Round>)
    requires Normalized(cfg)
    ensures CountsFrom(Restarted(cfg, p, rounds).counter, p.counter, Outcomes(rounds), Max(cfg.failure, cfg.success))
  {
    if rounds != [] {
      var r, before := Last(rounds), ButLast(rounds);
      CounterOfRestart(cfg, p, before);
      RestartedStep(cfg, p, rounds);
      PushCountsFrom(Restarted(cfg, p, before).counter, p.counter, Outcomes(before), Max(cfg.failure, cfg.success),
                     Entry(r.ok, r.message));
    }
  }

  /** The history is the last of the stored and the later entries together, as many as the new bound allows. */
  lemma {:induction false} HistoryOfRestart(cfg: Config, p: Result, rounds: seq<Round>)
    requires Normalized(cfg)
    ensures Restarted(cfg, p, rounds).counter.history
         == Suffix(p.counter.history + Entries(rounds), Max(cfg.failure, cfg.success))
  {
    var bound := Max(cfg.failure, cfg.success);
    if rounds == [] {
      assert p.counter.history + Entries(rounds) == p.counter.history;
    } else {
      var e, stream := Entry(Last(rounds).ok, Last(rounds).message), p.counter.history + Entries(ButLast(rounds));
      HistoryOfRestart(cfg, p, ButLast(rounds));
      CounterOfRestart(cfg, p, ButLast(rounds));
      RestartedStep(cfg, p, rounds);
      SuffixPush(stream, e, bound);
      assert p.counter.history + Entries(rounds) == stream + [e];
    }
  }

  /** The plain status: by the runs carried over the restart, and otherwise that of two rounds earlier. */
  function StatusSince(cfg: Config, p: Result, oks: seq<bool>): Status {
    if oks == [] then p.status
    else if Carried(p.counter, oks, true) >= cfg.success then Up
    else if Carried(p.counter, oks, false) >= cfg.failure then Down
    else if |oks| == 1 then p.preStatus
    else StatusSince(cfg, p, oks[..|oks| - 2])
  }

  function StatusBeforeSince(cfg: Config, p: Result, oks: seq<bool>): Status {
    if oks == [] then p.preStatus else StatusSince(cfg, p, ButLast(oks))
  }

  lemma {:induction false} StatusSinceUnfolds(cfg: Config, p: Result, oks: seq<bool>)
    requires oks != []
    ensures StatusSince(cfg, p, oks)
         == (if Carried(p.counter, oks, true) >= cfg.success then Up
             else if Carried(p.counter, oks, false) >= cfg.failure then Down
             else StatusBeforeSince(cfg, p, ButLast(oks)))
  {
    if |oks| >= 2 {
      assert ButLast(ButLast(oks)) == oks[..|oks| - 2];
    }
  }

  lemma {:induction false} CheckIsCarried(cfg: Config, c: Counter, stored: Counter, oks: seq<bool>, fallback: Status)
    requires Normalized(cfg) && oks != [] && CountsFrom(c, stored, oks, Max(cfg.failure, cfg.success))
    ensures CheckStatusThreshold(cfg, c, fallback)
         == (if Carried(stored, oks, true) >= cfg.success then Up
             else if Carried(stored, oks, false) >= cfg.failure then Down
             else fallback)
  {
  }

  /** For every stored result and all new thresholds the status is the plain one, on every stream. */
  lemma {:induction false} StatusOfRestart(cfg: Config, p: Result, rounds: seq<Round>)
    requires Normalized(cfg)
    ensures Restarted(cfg, p, rounds).status == StatusSince(cfg, p, Outcomes(rounds))
    ensures Restarted(cfg, p, rounds).preStatus == StatusBeforeSince(cfg, p, Outcomes(rounds))
  {
    if rounds != [] {
      var before, oks := ButLast(rounds), Outcomes(rounds);
      StatusOfRestart(cfg, p, before);
      OutcomesButLast(rounds);
      RestartedStep(cfg, p, rounds);
      CounterOfRestart(cfg, p, rounds);
      CheckIsCarried(cfg, Restarted(cfg, p, rounds).counter, p.counter, oks, Restarted(cfg, p, before).preStatus);
      StatusSinceUnfolds(cfg, p, oks);
    }
  }

  /**
   The new thresholds are in force at once: as many equal outcomes since the restart as a threshold asks for
   decide the status, whatever was stored and whatever the thresholds were before.
   */
  lemma {:induction false} NewThresholdsDecide(cfg: Config, p: Result, rounds: seq<Round>)
    requires Normalized(cfg) && p.counter.count >= 0
    ensures Trailing(Outcomes(rounds), true) >= cfg.success ==> Restarted(cfg, p, rounds).status == Up
    ensures Trailing(Outcomes(rounds), false) >= cfg.failure ==> Restarted(cfg, p, rounds).status == Down
  {
    StatusOfRestart(cfg, p, rounds);
    if rounds != [] {
      OneRunOnly(Outcomes(rounds));
    }
  }

  /** Only one of the two runs that end a stream is not empty. */
  lemma {:induction false} OneRunOnly(oks: seq<bool>)
    requires oks != []
    ensures Trailing(oks, true) == 0 <==> Trailing(oks, false) >= 1
  {
    if Last(oks) {
      assert Trailing(oks, true) >= 1 && Trailing(oks, false) == 0;
    } else {
      assert Trailing(oks, false) >= 1 && Trailing(oks, true) == 0;
    }
  }

  // ----- the alerts

  /** Whether the status was Up, round by round since the restart. */
  function UpsSince(cfg: Config, p: Result, oks: seq<bool>): (r: seq<bool>)
    ensures |r| == |oks|
  {
    if oks == [] then [] else UpsSince(cfg, p, ButLast(oks)) + [StatusSince(cfg, p, oks) == Up]
  }

  lemma {:induction false} UpsSinceStep(cfg: Config, p: Result, rounds: seq<Round>)
    requires Normalized(cfg) && rounds != []
    ensures var ups, before := UpsSince(cfg, p, Outcomes(rounds)), UpsSince(cfg, p, Outcomes(ButLast(rounds)));
            ups == before + [Restarted(cfg, p, rounds).status == Up]
  {
    OutcomesButLast(rounds);
    StatusOfRestart(cfg, p, rounds);
  }

  /** A round that is Up, and every round after one, leaves the machine as a run of its own would. */
  lemma {:induction false} ProcessCatchesUp(a: Alert, s: Settings, before: seq<bool>, up: bool)
    requires a.settings == s && (true in before ==> a == AlertRun(s, before))
    ensures Process(a, up).settings == s
    ensures true in before + [up] ==> Process(a, up) == AlertRun(s, before + [up])
  {
    RunTracks(s, before);
    assert ButLast(before + [up]) == before && Last(before + [up]) == up;
    assert true in before + [up] <==> true in before || up;
  }

  lemma {:induction false} AlertOfRestart(cfg: Config, p: Result, rounds: seq<Round>)
    requires Normalized(cfg)
    ensures Restarted(cfg, p, rounds).alert.settings == cfg.alert
    ensures true in UpsSince(cfg, p, Outcomes(rounds)) ==>
              Restarted(cfg, p, rounds).alert == AlertRun(cfg.alert, UpsSince(cfg, p, Outcomes(rounds)))
  {
    if rounds != [] {
      var before := UpsSince(cfg, p, Outcomes(ButLast(rounds)));
      var up := Restarted(cfg, p, rounds).status == Up;
      AlertOfRestart(cfg, p, ButLast(rounds));
      UpsSinceStep(cfg, p, rounds);
      RestartedStep(cfg, p, rounds);
      ProcessCatchesUp(Restarted(cfg, p, ButLast(rounds)).alert, cfg.alert, before, up);
    }
  }

  /** From the first Up round on, the alerts follow the new settings, as if the machine had never had others. */
  lemma {:induction false} NewScheduleHolds(cfg: Config, p: Result, rounds: seq<Round>)
    requires Normalized(cfg) && true in UpsSince(cfg, p, Outcomes(rounds))
    ensures Restarted(cfg, p, rounds).alert.isSent
            <==> AlertDue(cfg.alert, Trailing(UpsSince(cfg, p, Outcomes(rounds)), false))
  {
    AlertOfRestart(cfg, p, rounds);
    ScheduleIsExact(cfg.alert, UpsSince(cfg, p, Outcomes(rounds)));
  }

  /**
   Until then the stretch goes on: nothing is sent before the round that was planned when the result was stored,
   and at that round an alert is sent exactly when the new budget still allows one.
   */
  lemma {:induction false} PlannedAlertStands(cfg: Config, p: Result, rounds: seq<Round>)
    requires Normalized(cfg) && rounds != [] && true !in UpsSince(cfg, p, Outcomes(rounds))
    requires p.alert.failed + |rounds| <= p.alert.next
    ensures var a := Restarted(cfg, p, rounds).alert;
            && a.failed == p.alert.failed + |rounds|
            && (a.isSent <==> p.alert.failed + |rounds| == p.alert.next && p.alert.notified < cfg.alert.maxTimes)
            && (a.failed < p.alert.next ==> a.next == p.alert.next && a.notified == p.alert.notified && a.interval == p.alert.interval)
  {
    UpsSinceStep(cfg, p, rounds);
    RestartedStep(cfg, p, rounds);
    AlertOfRestart(cfg, p, ButLast(rounds));
    assert !Last(UpsSince(cfg, p, Outcomes(rounds)));
    if |rounds| > 1 {
      PlannedAlertStands(cfg, p, ButLast(rounds));
    }
  }

  /** The notifications on the outcome stream since the restart. */
  ghost predicate RuleSince(cfg: Config, p: Result, oks: seq<bool>) {
    var now, before := StatusSince(cfg, p, oks), StatusBeforeSince(cfg, p, oks);
    if now == Up then before != Init && before != Up
    else if now == Init then before != Init
    else now == Down ==> AlertDue(cfg.alert, Trailing(UpsSince(cfg, p, oks), false))
  }

  /** From the first Up round after the restart on, every round is notified exactly when the rule says. */
  lemma {:induction false} NotifiesByRuleSince(cfg: Config, p: Result, rounds: seq<Round>)
    requires Normalized(cfg) && true in UpsSince(cfg, p, Outcomes(rounds))
    ensures ShouldNotify(Restarted(cfg, p, rounds)) == RuleSince(cfg, p, Outcomes(rounds))
  {
    StatusOfRestart(cfg, p, rounds);
    NewScheduleHolds(cfg, p, rounds);
    SilentIff(Restarted(cfg, p, rounds));
  }

  // ----- the statistics

  function StatusesSince(cfg: Config, p: Result, oks: seq<bool>): (r: seq<Status>)
    ensures |r| == |oks|
  {
    if oks == [] then [] else StatusesSince(cfg, p, ButLast(oks)) + [StatusSince(cfg, p, oks)]
  }

  /** The number of rounds since the restart after which the status was `s`. */
  function RoundsSince(cfg: Config, p: Result, oks: seq<bool>, s: Status): (n: nat)
    ensures n <= |oks|
  {
    if oks == [] then 0
    else RoundsSince(cfg, p, ButLast(oks), s) + if StatusSince(cfg, p, oks) == s then 1 else 0
  }

  lemma {:induction false} RoundsOfIsRoundsSince(cfg: Config, p: Result, rounds: seq<Round>, s: Status)
    requires Normalized(cfg)
    ensures RoundsOf(cfg, Installed(cfg, p), rounds, s) == RoundsSince(cfg, p, Outcomes(rounds), s)
  {
    if rounds != [] {
      RoundsOfIsRoundsSince(cfg, p, ButLast(rounds), s);
      OutcomesButLast(rounds);
      StatusOfRestart(cfg, p, rounds);
    }
  }

  /** The statistics go on from the stored ones: every later round is counted once, under its status. */
  lemma {:induction false} CountsGoOn(cfg: Config, p: Result, rounds: seq<Round>, s: Status)
    requires Normalized(cfg)
    ensures Restarted(cfg, p, rounds).total == p.total + |rounds|
    ensures CountOf(Restarted(cfg, p, rounds).counts, s) == CountOf(p.counts, s) + RoundsSince(cfg, p, Outcomes(rounds), s)
  {
    TotalOfRun(cfg, Installed(cfg, p), rounds);
    CountsAreRounds(cfg, Installed(cfg, p), rounds, s);
    RoundsOfIsRoundsSince(cfg, p, rounds, s);
  }

  /** And its interval is added to the up or the down time. */
  lemma {:induction false} TimesGoOn(cfg: Config, p: Result, rounds: seq<Round>)
    requires Normalized(cfg)
    ensures var q := Restarted(cfg, p, rounds);
            && q.upTime == p.upTime + Elapsed(cfg.interval, RoundsSince(cfg, p, Outcomes(rounds), Up))
            && q.upTime + q.downTime == p.upTime + p.downTime + Elapsed(cfg.interval, |rounds|)
  {
    UpTimeAddsUp(cfg, Installed(cfg, p), rounds);
    TimesShareElapsed(cfg, Installed(cfg, p), rounds);
    RoundsOfIsRoundsSince(cfg, p, rounds, Up);
  }

  /** A Down that was stored and lasts over the restart is timed from its own beginning. */
  lemma {:induction false} RecoverySpansRestart(cfg: Config, p: Result, rounds: seq<Round>)
    requires Normalized(cfg) && p.status == Down && rounds != []
    requires forall k :: 0 <= k < |rounds| - 1 ==> StatusesSince(cfg, p, Outcomes(rounds))[k] == Down
    ensures Last(StatusesSince(cfg, p, Outcomes(rounds))) == Down ==>
              Restarted(cfg, p, rounds).latestDownTime == p.latestDownTime
    ensures Last(StatusesSince(cfg, p, Outcomes(rounds))) == Up ==>
              Restarted(cfg, p, rounds).recoveryDuration == Last(rounds).at - p.latestDownTime
  {
    var before := ButLast(rounds);
    OutcomesButLast(rounds);
    StatusOfRestart(cfg, p, rounds);
    StatusOfRestart(cfg, p, before);
    StepClock(cfg, Restarted(cfg, p, before), Last(rounds));
    if before != [] {
      var since := StatusesSince(cfg, p, Outcomes(before));
      assert StatusesSince(cfg, p, Outcomes(rounds))[..|before|] == since;
      assert Last(since) == StatusesSince(cfg, p, Outcomes(rounds))[|rounds| - 2] == Down;
      assert forall k :: 0 <= k < |before| - 1 ==> since[k] == StatusesSince(cfg, p, Outcomes(rounds))[k];
      RecoverySpansRestart(cfg, p, before);
    }
  }
}
