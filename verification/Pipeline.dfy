/**
 One probe round as a function on values: the raw outcome is counted, a status is derived from two
 thresholds, the alert machine is driven by it, and the statistics are updated.
 The same status is then given a plain definition on the outcome stream, and the two are proved equal.
 */
module Pipeline {
  import opened Runs
  import opened CounterSpec
  import opened AlertSchedule

  datatype Status = Init | Up | Down | Unknown | Bad

  datatype Config = Config(failure: int, success: int, alert: Settings, interval: int)

  /** What normalisation guarantees of the thresholds. */
  predicate Normalized(cfg: Config) {
    cfg.failure >= 1 && cfg.success >= 1
  }

  /** One raw outcome, and the clock reading taken while it is processed. */
  datatype Round = Round(ok: bool, message: string, at: int)

  datatype Result = Result(
    status: Status, preStatus: Status, counter: Counter, alert: Alert,
    total: int, counts: map<Status, int>, upTime: int, downTime: int,
    latestDownTime: int, recoveryDuration: int)

  const NO_TIME := 0

  /** What `NewResult` returns: a history bounded by one and the default strategy. */
  function NewResult(): Result {
    Result(Init, Init, Empty(1), Fresh(Settings(REGULAR, 1, 1)), 0, map[Up := 0, Down := 0], 0, 0, NO_TIME, 0)
  }

  /** `Config` installs the settings in a new result or in one loaded from the data file. */
  function Installed(cfg: Config, p: Result): Result
    requires Normalized(cfg)
  {
    p.(alert := p.alert.(settings := cfg.alert), counter := Resize(p.counter, Max(cfg.failure, cfg.success)))
  }

  /** A new result after `Config` has installed the settings. */
  function Configured(cfg: Config): Result {
    Result(Init, Init, Empty(Max(cfg.failure, cfg.success)), Fresh(cfg.alert),
           0, map[Up := 0, Down := 0], 0, 0, NO_TIME, 0)
  }

  function CheckStatusThreshold(cfg: Config, c: Counter, fallback: Status): Status {
    if c.current && c.count >= cfg.success then Up
    else if !c.current && c.count >= cfg.failure then Down
    else fallback
  }

  function CountOf(counts: map<Status, int>, s: Status): int {
    if s in counts then counts[s] else 0
  }

  function DoStat(p: Result, interval: int): Result {
    p.(total := p.total + 1,
       counts := p.counts[p.status := CountOf(p.counts, p.status) + 1],
       upTime := if p.status == Up then p.upTime + interval else p.upTime,
       downTime := if p.status == Up then p.downTime else p.downTime + interval)
  }

  function DownTimeCalculation(p: Result, at: int): Result {
    if p.preStatus != Down && p.status == Down then p.(latestDownTime := at)
    else if p.preStatus == Down && p.status == Up then p.(recoveryDuration := at - p.latestDownTime)
    else p
  }

  /** One call of `Probe`. */
  function Step(cfg: Config, p: Result, r: Round): Result {
    var counter := Append(p.counter, Entry(r.ok, r.message));
    var status := CheckStatusThreshold(cfg, counter, p.preStatus);
    var shifted := p.(counter := counter, alert := Process(p.alert, status == Up),
                      preStatus := p.status, status := status);
    DoStat(DownTimeCalculation(shifted, r.at), cfg.interval)
  }

  /** The prober's result after rounds that start from the result `p`. */
  function RunFrom(cfg: Config, p: Result, rounds: seq<Round>): Result {
    if rounds == [] then p else Step(cfg, RunFrom(cfg, p, ButLast(rounds)), Last(rounds))
  }

  /** The same from a freshly configured result. */
  function Run(cfg: Config, rounds: seq<Round>): Result {
    RunFrom(cfg, Configured(cfg), rounds)
  }

  /** The snapshots emitted by a run, one a round. */
  function Results(cfg: Config, rounds: seq<Round>): (r: seq<Result>)
    ensures |r| == |rounds|
  {
    if rounds == [] then [] else Results(cfg, ButLast(rounds)) + [Run(cfg, rounds)]
  }

  lemma {:induction false} ResultsAt(cfg: Config, rounds: seq<Round>, i: nat)
    requires i < |rounds|
    ensures Results(cfg, rounds)[i] == Run(cfg, rounds[..i + 1])
  {
    if i == |rounds| - 1 {
      assert rounds[..i + 1] == rounds;
    } else {
      ResultsAt(cfg, ButLast(rounds), i);
      assert ButLast(rounds)[..i + 1] == rounds[..i + 1];
    }
  }

  lemma {:induction false} ResultsPrefix(cfg: Config, rounds: seq<Round>, n: nat)
    requires n < |rounds|
    ensures Run(cfg, rounds[..n + 1]) == Step(cfg, Run(cfg, rounds[..n]), rounds[n])
    ensures Results(cfg, rounds[..n + 1]) == Results(cfg, rounds[..n]) + [Run(cfg, rounds[..n + 1])]
  {
    assert ButLast(rounds[..n + 1]) == rounds[..n];
  }

  function Outcomes(rounds: seq<Round>): (r: seq<bool>)
    ensures |r| == |rounds|
    ensures forall i :: 0 <= i < |r| ==> r[i] == rounds[i].ok
  {
    if rounds == [] then [] else Outcomes(ButLast(rounds)) + [Last(rounds).ok]
  }

  // ----- the plain definition of the status

  /**
   The status after a stream of outcomes: decided by the trailing run of equal outcomes, and otherwise the
   status of two rounds earlier.
   */
  function StatusAfter(cfg: Config, oks: seq<bool>): Status {
    if oks == [] then Init
    else if Trailing(oks, true) >= cfg.success then Up
    else if Trailing(oks, false) >= cfg.failure then Down
    else if |oks| == 1 then Init
    else StatusAfter(cfg, oks[..|oks| - 2])
  }

  /** The status before the last of a stream of outcomes. */
  function StatusBefore(cfg: Config, oks: seq<bool>): Status {
    if oks == [] then Init else StatusAfter(cfg, ButLast(oks))
  }

  /** The number of rounds at the end of the stream after which the status was not Up. */
  function NotUpStretch(cfg: Config, oks: seq<bool>): nat {
    if oks == [] || StatusAfter(cfg, oks) == Up then 0 else 1 + NotUpStretch(cfg, ButLast(oks))
  }

  /** Whether the status was Up, round by round. */
  function UpTrace(cfg: Config, oks: seq<bool>): (r: seq<bool>)
    ensures |r| == |oks|
  {
    if oks == [] then [] else UpTrace(cfg, ButLast(oks)) + [StatusAfter(cfg, oks) == Up]
  }

  function Entries(rounds: seq<Round>): (r: seq<Entry>)
    ensures |r| == |rounds|
    ensures forall i :: 0 <= i < |r| ==> r[i] == Entry(rounds[i].ok, rounds[i].message)
  {
    if rounds == [] then [] else Entries(ButLast(rounds)) + [Entry(Last(rounds).ok, Last(rounds).message)]
  }

  // ----- refinement

  lemma {:induction false} OutcomesButLast(rounds: seq<Round>)
    requires rounds != []
    ensures ButLast(Outcomes(rounds)) == Outcomes(ButLast(rounds))
    ensures Last(Outcomes(rounds)) == Last(rounds).ok
  {
    assert Outcomes(rounds) == Outcomes(ButLast(rounds)) + [Last(rounds).ok];
  }

  lemma {:induction false} StatusesAreOutcomes(rounds: seq<Round>)
    ensures Statuses(Entries(rounds)) == Outcomes(rounds)
  {
  }

  lemma {:induction false} CounterOfRun(cfg: Config, rounds: seq<Round>)
    requires Normalized(cfg)
    ensures Represents(Run(cfg, rounds).counter, Entries(rounds))
    ensures Run(cfg, rounds).counter.maxLen == Max(cfg.failure, cfg.success)
  {
    if rounds != [] {
      var r := Last(rounds);
      CounterOfRun(cfg, ButLast(rounds));
      PushKeepsRepresentation(Run(cfg, ButLast(rounds)).counter, Entries(ButLast(rounds)), Entry(r.ok, r.message));
    }
  }

  /** The thresholds of the bounded counter decide like the unbounded trailing runs. */
  lemma {:induction false} CheckIsNaive(cfg: Config, rounds: seq<Round>, fallback: Status)
    requires Normalized(cfg)
    ensures CheckStatusThreshold(cfg, Run(cfg, rounds).counter, fallback)
         == (if Trailing(Outcomes(rounds), true) >= cfg.success then Up
             else if Trailing(Outcomes(rounds), false) >= cfg.failure then Down
             else fallback)
  {
    CounterOfRun(cfg, rounds);
    StatusesAreOutcomes(rounds);
    ThresholdComparisonIsExact(Run(cfg, rounds).counter, Entries(rounds), cfg.success);
    ThresholdComparisonIsExact(Run(cfg, rounds).counter, Entries(rounds), cfg.failure);
  }

  lemma {:induction false} StatusAfterUnfolds(cfg: Config, oks: seq<bool>)
    requires oks != []
    ensures StatusAfter(cfg, oks)
         == (if Trailing(oks, true) >= cfg.success then Up
             else if Trailing(oks, false) >= cfg.failure then Down
             else StatusBefore(cfg, ButLast(oks)))
  {
    if |oks| >= 2 {
      assert ButLast(ButLast(oks)) == oks[..|oks| - 2];
    }
  }

  lemma {:induction false} StepShifts(cfg: Config, p: Result, r: Round)
    ensures var q := Step(cfg, p, r);
            && q.counter == Append(p.counter, Entry(r.ok, r.message))
            && q.status == CheckStatusThreshold(cfg, q.counter, p.preStatus)
            && q.preStatus == p.status
            && q.alert == Process(p.alert, q.status == Up)
  {
  }

  /** The status the program computes with its bounded counter is the plain one, for every stream and thresholds. */
  lemma {:induction false} StatusRefinement(cfg: Config, rounds: seq<Round>)
    requires Normalized(cfg)
    ensures Run(cfg, rounds).status == StatusAfter(cfg, Outcomes(rounds))
    ensures Run(cfg, rounds).preStatus == StatusBefore(cfg, Outcomes(rounds))
  {
    if rounds != [] {
      var before := ButLast(rounds);
      StatusRefinement(cfg, before);
      OutcomesButLast(rounds);
      StepShifts(cfg, Run(cfg, before), Last(rounds));
      CheckIsNaive(cfg, rounds, Run(cfg, before).preStatus);
      StatusAfterUnfolds(cfg, Outcomes(rounds));
    }
  }

  /** The alert machine of a run is the machine driven by the plain statuses. */
  lemma {:induction false} AlertOfRun(cfg: Config, rounds: seq<Round>)
    requires Normalized(cfg)
    ensures Run(cfg, rounds).alert == AlertRun(cfg.alert, UpTrace(cfg, Outcomes(rounds)))
  {
    if rounds != [] {
      AlertOfRun(cfg, ButLast(rounds));
      OutcomesButLast(rounds);
      StatusRefinement(cfg, rounds);
      var trace := UpTrace(cfg, Outcomes(rounds));
      assert ButLast(trace) == UpTrace(cfg, Outcomes(ButLast(rounds)));
    }
  }

  lemma {:induction false} NotUpStretchIsTrailing(cfg: Config, oks: seq<bool>)
    ensures Trailing(UpTrace(cfg, oks), false) == NotUpStretch(cfg, oks)
  {
    if oks != [] {
      NotUpStretchIsTrailing(cfg, ButLast(oks));
      assert ButLast(UpTrace(cfg, oks)) == UpTrace(cfg, ButLast(oks));
    }
  }

  /** In a run the machine alerts exactly at the alert rounds of the current not-Up stretch. */
  lemma {:induction false} AlertOfRunIsDue(cfg: Config, rounds: seq<Round>)
    requires Normalized(cfg)
    ensures Run(cfg, rounds).alert.isSent <==> AlertDue(cfg.alert, NotUpStretch(cfg, Outcomes(rounds)))
  {
    AlertOfRun(cfg, rounds);
    NotUpStretchIsTrailing(cfg, Outcomes(rounds));
    ScheduleIsExact(cfg.alert, UpTrace(cfg, Outcomes(rounds)));
  }

  // ----- what the status means

  lemma {:induction false} StatusRange(cfg: Config, oks: seq<bool>)
    ensures StatusAfter(cfg, oks) in {Init, Up, Down}
  {
    if |oks| >= 2 {
      StatusRange(cfg, oks[..|oks| - 2]);
    }
  }

  /** Up and Down never appear without an earlier run of as many equal outcomes as the threshold asks for. */
  lemma {:induction false} StatusHasEvidence(cfg: Config, oks: seq<bool>)
    ensures StatusAfter(cfg, oks) == Up ==> exists i :: 0 <= i <= |oks| && Trailing(oks[..i], true) >= cfg.success
    ensures StatusAfter(cfg, oks) == Down ==> exists i :: 0 <= i <= |oks| && Trailing(oks[..i], false) >= cfg.failure
  {
    var n := |oks|;
    assert oks[..n] == oks;
    if n >= 2 && Trailing(oks, true) < cfg.success && Trailing(oks, false) < cfg.failure {
      var earlier := oks[..n - 2];
      StatusHasEvidence(cfg, earlier);
      assert forall i :: 0 <= i <= n - 2 ==> earlier[..i] == oks[..i];
    }
  }

  /** None of the outcomes `quiet` that follow `oks` completes a run that reaches a threshold. */
  ghost predicate Quiet(cfg: Config, oks: seq<bool>, quiet: seq<bool>) {
    quiet == [] ||
    (Trailing(oks + quiet, true) < cfg.success && Trailing(oks + quiet, false) < cfg.failure &&
     Quiet(cfg, oks, ButLast(quiet)))
  }

  function Even(n: nat): bool {
    n == 0 || !Even(n - 1)
  }

  /** Below both thresholds the status does not hold: it alternates between the last two statuses. */
  lemma {:induction false} FallbackAlternates(cfg: Config, oks: seq<bool>, quiet: seq<bool>)
    requires Quiet(cfg, oks, quiet)
    ensures StatusAfter(cfg, oks + quiet) == if Even(|quiet|) then StatusAfter(cfg, oks) else StatusBefore(cfg, oks)
  {
    if quiet == [] {
      assert oks + quiet == oks;
    } else {
      var fewer := ButLast(quiet);
      StatusAfterUnfolds(cfg, oks + quiet);
      assert ButLast(oks + quiet) == oks + fewer;
      if fewer == [] {
        assert oks + fewer == oks;
      } else {
        assert ButLast(oks + fewer) == oks + ButLast(fewer);
        FallbackAlternates(cfg, oks, ButLast(fewer));
      }
    }
  }

  lemma {:induction false} QuietPrefix(cfg: Config, oks: seq<bool>, quiet: seq<bool>, i: nat)
    requires Quiet(cfg, oks, quiet) && i <= |quiet|
    ensures Quiet(cfg, oks, quiet[..i])
  {
    if i == |quiet| {
      assert quiet[..i] == quiet;
    } else {
      QuietPrefix(cfg, oks, ButLast(quiet), i);
      assert ButLast(quiet)[..i] == quiet[..i];
    }
  }

  lemma {:induction false} StatusInQuiet(cfg: Config, oks: seq<bool>, quiet: seq<bool>, i: nat)
    requires Quiet(cfg, oks, quiet) && i <= |quiet|
    ensures StatusAfter(cfg, oks + quiet[..i]) == if Even(i) then StatusAfter(cfg, oks) else StatusBefore(cfg, oks)
  {
    QuietPrefix(cfg, oks, quiet, i);
    FallbackAlternates(cfg, oks, quiet[..i]);
  }

  /** The status holds at every point of the quiet outcomes. */
  ghost predicate StaysAt(cfg: Config, oks: seq<bool>, quiet: seq<bool>, v: Status) {
    forall i :: 0 <= i <= |quiet| ==> StatusAfter(cfg, oks + quiet[..i]) == v
  }

  /**
   Hysteresis, with its exact condition: while no threshold is reached the status stays what it was if and
   only if the result was settled, that is if its last two statuses agree.
   */
  lemma {:induction false} HysteresisIffSettled(cfg: Config, rounds: seq<Round>, quiet: seq<bool>)
    requires Normalized(cfg) && quiet != [] && Quiet(cfg, Outcomes(rounds), quiet)
    ensures StaysAt(cfg, Outcomes(rounds), quiet, Run(cfg, rounds).status)
            <==> Run(cfg, rounds).preStatus == Run(cfg, rounds).status
  {
    var oks := Outcomes(rounds);
    StatusRefinement(cfg, rounds);
    forall i | 0 <= i <= |quiet|
      ensures StatusAfter(cfg, oks + quiet[..i]) == if Even(i) then StatusAfter(cfg, oks) else StatusBefore(cfg, oks)
    {
      StatusInQuiet(cfg, oks, quiet, i);
    }
    assert StatusAfter(cfg, oks + quiet[..1]) == StatusBefore(cfg, oks);
  }
}
