/**
 End to end: which rounds of a prober's run make a channel notify, in terms of the outcome stream alone.
 */
module Alerting {
  import opened Runs
  import opened AlertSchedule
  import opened Pipeline

  /** The decision a watcher takes on one snapshot. */
  predicate ShouldNotify(p: Result) {
    if p.preStatus == Init && p.status == Up then false
    else if p.preStatus == p.status && (p.status == Up || p.status == Init) then false
    else if p.status == Down then p.alert.isSent
    else true
  }

  /**
   A snapshot, of a run or not, is passed over in three cases only: the probe is up and was up or is new, it is
   still new, or it is down at a round without an alert.
   */
  lemma {:induction false} SilentIff(p: Result)
    ensures !ShouldNotify(p) <==>
              || (p.status == Up && (p.preStatus == Init || p.preStatus == Up))
              || (p.status == Init && p.preStatus == Init)
              || (p.status == Down && !p.alert.isSent)
  {
  }

  /** The same on the outcome stream: recoveries, the alert rounds of a Down stretch, and falling back to Init. */
  ghost predicate NotifyRule(cfg: Config, oks: seq<bool>) {
    match StatusAfter(cfg, oks)
    case Up => StatusBefore(cfg, oks) == Down
    case Down => AlertDue(cfg.alert, NotUpStretch(cfg, oks))
    case _ => StatusBefore(cfg, oks) != Init
  }

  /** For every stream, thresholds, strategy, factor and budget, every round is notified exactly when the rule says. */
  lemma {:induction false} NotifiesByRule(cfg: Config, rounds: seq<Round>)
    requires Normalized(cfg)
    ensures ShouldNotify(Run(cfg, rounds)) <==> NotifyRule(cfg, Outcomes(rounds))
  {
    var oks := Outcomes(rounds);
    StatusRefinement(cfg, rounds);
    AlertOfRunIsDue(cfg, rounds);
    StatusRange(cfg, oks);
    if oks != [] {
      StatusRange(cfg, ButLast(oks));
    }
  }

  // ----- edge-triggered notification

  /** The status changed, and not from Init to Up. */
  ghost predicate Edge(cfg: Config, oks: seq<bool>) {
    && StatusAfter(cfg, oks) != StatusBefore(cfg, oks)
    && !(StatusBefore(cfg, oks) == Init && StatusAfter(cfg, oks) == Up)
  }

  lemma {:induction false} FirstAlertRound(s: Settings)
    ensures AlertRound(s, 1) == 1
  {
  }

  /** With one alert per stretch only its first round is reported. */
  lemma {:induction false} SingleAlert(s: Settings, n: int)
    requires s.maxTimes == 1
    ensures AlertDue(s, n) <==> n == 1
  {
    FirstAlertRound(s);
    if n == 1 {
      assert AlertRound(s, 1) == n;
    }
  }

  lemma {:induction false} NotUpStretchUnfolds(cfg: Config, oks: seq<bool>)
    requires oks != [] && StatusAfter(cfg, oks) != Up
    ensures NotUpStretch(cfg, oks) == 1 <==> StatusBefore(cfg, oks) == Up || |oks| == 1
  {
  }

  /**
   With a budget of one alert the notifications are the status edges, except that a Down reached from Init
   after the first round is swallowed. The exception can be read off the snapshot.
   */
  lemma {:induction false} EdgeTriggeredExactly(cfg: Config, rounds: seq<Round>)
    requires Normalized(cfg) && cfg.alert.maxTimes == 1 && rounds != []
    ensures (ShouldNotify(Run(cfg, rounds)) <==> Edge(cfg, Outcomes(rounds)))
            <==> !(Run(cfg, rounds).preStatus == Init && Run(cfg, rounds).status == Down && |rounds| >= 2)
  {
    var oks := Outcomes(rounds);
    NotifiesByRule(cfg, rounds);
    StatusRefinement(cfg, rounds);
    StatusRange(cfg, oks);
    StatusRange(cfg, ButLast(oks));
    SingleAlert(cfg.alert, NotUpStretch(cfg, oks));
    if StatusAfter(cfg, oks) != Up {
      NotUpStretchUnfolds(cfg, oks);
    }
  }

  ghost predicate EdgeTriggered(cfg: Config) {
    forall rounds: seq<Round> :: rounds != [] ==> (ShouldNotify(Run(cfg, rounds)) <==> Edge(cfg, Outcomes(rounds)))
  }

  lemma {:induction false} UnitStatus(cfg: Config, oks: seq<bool>)
    requires cfg.failure == 1 && cfg.success == 1 && oks != []
    ensures StatusAfter(cfg, oks) == if Last(oks) then Up else Down
  {
  }

  lemma {:induction false} RunStatus(cfg: Config, rounds: seq<Round>)
    requires Normalized(cfg) && rounds != []
    ensures Run(cfg, rounds).status == StatusAfter(cfg, Outcomes(rounds))
    ensures Run(cfg, rounds).preStatus == StatusAfter(cfg, Outcomes(ButLast(rounds)))
  {
    StatusRefinement(cfg, rounds);
    OutcomesButLast(rounds);
  }

  /** With unit thresholds the not-Up stretch is the run of failures. */
  lemma {:induction false} UnitStretch(cfg: Config, oks: seq<bool>)
    requires cfg.failure == 1 && cfg.success == 1
    ensures NotUpStretch(cfg, oks) == Trailing(oks, false)
  {
    if oks != [] {
      UnitStatus(cfg, oks);
      UnitStretch(cfg, ButLast(oks));
    }
  }

  /**
   Level-triggered notification: with unit thresholds and any budget, a notification is a recovery or one of
   the alert rounds of the current run of failures.
   */
  lemma {:induction false} LevelTriggered(cfg: Config, rounds: seq<Round>)
    requires cfg.failure == 1 && cfg.success == 1 && rounds != []
    ensures var oks := Outcomes(rounds);
            ShouldNotify(Run(cfg, rounds)) <==>
              if Last(oks) then |oks| >= 2 && !oks[|oks| - 2]
              else AlertDue(cfg.alert, Trailing(oks, false))
  {
    var oks := Outcomes(rounds);
    NotifiesByRule(cfg, rounds);
    UnitStatus(cfg, oks);
    UnitStretch(cfg, oks);
    if |oks| >= 2 {
      UnitStatus(cfg, ButLast(oks));
    }
  }

  // ----- runs of equal outcomes

  /** Every round of the block has the raw outcome `v`. */
  ghost predicate AllRounds(block: seq<Round>, v: bool) {
    forall i :: 0 <= i < |block| ==> block[i].ok == v
  }

  lemma {:induction false} OutcomesOfBlock(rounds: seq<Round>, block: seq<Round>, v: bool)
    requires AllRounds(block, v)
    ensures Outcomes(rounds + block) == Outcomes(rounds) + Repeat(v, |block|)
  {
  }

  lemma {:induction false} NotifiesAfterBlock(cfg: Config, rounds: seq<Round>, block: seq<Round>, v: bool)
    requires Normalized(cfg) && AllRounds(block, v)
    ensures ShouldNotify(Run(cfg, rounds + block)) <==> NotifyRule(cfg, Outcomes(rounds) + Repeat(v, |block|))
  {
    OutcomesOfBlock(rounds, block, v);
    NotifiesByRule(cfg, rounds + block);
  }

  lemma {:induction false} BlockButLast(oks: seq<bool>, v: bool, n: nat)
    requires n >= 1
    ensures ButLast(oks + Repeat(v, n)) == oks + Repeat(v, n - 1)
  {
  }

  lemma {:induction false} BlockTrailing(oks: seq<bool>, v: bool, n: nat)
    requires n >= 1
    ensures Trailing(oks + Repeat(v, n), v) == Trailing(oks, v) + n
    ensures Trailing(oks + Repeat(v, n), !v) == 0
  {
    TrailingAppend(oks, Repeat(v, n), v);
    assert Last(oks + Repeat(v, n)) == v;
  }

  /** Inside a block the status is decided by the length of the block, or taken from two rounds earlier. */
  lemma {:induction false} StatusInBlock(cfg: Config, oks: seq<bool>, v: bool, n: nat)
    requires Normalized(cfg) && n >= 1 && oks != [] && Last(oks) != v
    ensures StatusAfter(cfg, oks + Repeat(v, n))
         == (if v && n >= cfg.success then Up
             else if !v && n >= cfg.failure then Down
             else if n == 1 then StatusBefore(cfg, oks)
             else StatusAfter(cfg, oks + Repeat(v, n - 2)))
  {
    StatusAfterUnfolds(cfg, oks + Repeat(v, n));
    BlockTrailing(oks, v, n);
    BlockButLast(oks, v, n);
    if n == 1 {
      assert oks + Repeat(v, 0) == oks;
    } else {
      BlockButLast(oks, v, n - 1);
    }
  }

  /** The last two statuses agree, and the last outcome agrees with them. */
  ghost predicate Settled(cfg: Config, oks: seq<bool>, v: bool) {
    && oks != [] && Last(oks) == v
    && StatusAfter(cfg, oks) == StatusBefore(cfg, oks) == if v then Up else Down
  }

  lemma {:induction false} FailingRunStatus(cfg: Config, oks: seq<bool>, n: nat)
    requires Normalized(cfg) && Settled(cfg, oks, true)
    ensures StatusAfter(cfg, oks + Repeat(false, n)) == if n < cfg.failure then Up else Down
  {
    if n == 0 {
      assert oks + Repeat(false, n) == oks;
    } else {
      StatusInBlock(cfg, oks, false, n);
      if n >= 2 {
        FailingRunStatus(cfg, oks, n - 2);
      }
    }
  }

  lemma {:induction false} FailingRunStretch(cfg: Config, oks: seq<bool>, n: nat)
    requires Normalized(cfg) && Settled(cfg, oks, true)
    ensures NotUpStretch(cfg, oks + Repeat(false, n)) == Max(0, n + 1 - cfg.failure)
  {
    FailingRunStatus(cfg, oks, n);
    if n >= 1 {
      BlockButLast(oks, false, n);
      FailingRunStretch(cfg, oks, n - 1);
    }
  }

  lemma {:induction false} FailingRule(cfg: Config, oks: seq<bool>, n: nat)
    requires Normalized(cfg) && Settled(cfg, oks, true) && n >= 1
    ensures NotifyRule(cfg, oks + Repeat(false, n)) <==> AlertDue(cfg.alert, n - (cfg.failure - 1))
  {
    FailingRunStatus(cfg, oks, n);
    FailingRunStatus(cfg, oks, n - 1);
    FailingRunStretch(cfg, oks, n);
    BlockButLast(oks, false, n);
    if n < cfg.failure {
      NoAlertBeforeFirst(cfg.alert, n - (cfg.failure - 1));
    }
  }

  /**
   A run of failures of any length after a settled Up is reported exactly at its rounds F-1+r_k: never before
   the threshold F, at the threshold, and then by the back-off schedule until the budget is used up.
   */
  lemma {:induction false} FailingRunFromSettledUp(cfg: Config, rounds: seq<Round>, failing: seq<Round>)
    requires Normalized(cfg) && failing != [] && AllRounds(failing, false)
    requires Settled(cfg, Outcomes(rounds), true)
    ensures ShouldNotify(Run(cfg, rounds + failing)) <==> AlertDue(cfg.alert, |failing| - (cfg.failure - 1))
  {
    NotifiesAfterBlock(cfg, rounds, failing, false);
    FailingRule(cfg, Outcomes(rounds), |failing|);
  }

  lemma {:induction false} NoAlertBeforeFirst(s: Settings, n: int)
    requires n <= 0
    ensures !AlertDue(s, n)
  {
    forall k: nat | 1 <= k <= s.maxTimes
      ensures AlertRound(s, k) > 0
    {
      AlertRoundsOrdered(s, 0, k);
    }
  }

  lemma {:induction false} RecoveringRunStatus(cfg: Config, oks: seq<bool>, n: nat)
    requires Normalized(cfg) && Settled(cfg, oks, false)
    ensures StatusAfter(cfg, oks + Repeat(true, n)) == if n < cfg.success then Down else Up
  {
    if n == 0 {
      assert oks + Repeat(true, n) == oks;
    } else {
      StatusInBlock(cfg, oks, true, n);
      if n >= 2 {
        RecoveringRunStatus(cfg, oks, n - 2);
      }
    }
  }

  lemma {:induction false} RecoveringRunStretch(cfg: Config, oks: seq<bool>, n: nat)
    requires Normalized(cfg) && Settled(cfg, oks, false) && n < cfg.success
    ensures NotUpStretch(cfg, oks + Repeat(true, n)) == NotUpStretch(cfg, oks) + n
  {
    if n == 0 {
      assert oks + Repeat(true, n) == oks;
    } else {
      RecoveringRunStatus(cfg, oks, n);
      BlockButLast(oks, true, n);
      RecoveringRunStretch(cfg, oks, n - 1);
    }
  }

  lemma {:induction false} SlowRecoveryRule(cfg: Config, oks: seq<bool>, n: nat)
    requires Normalized(cfg) && Settled(cfg, oks, false) && 1 <= n < cfg.success
    ensures NotifyRule(cfg, oks + Repeat(true, n)) == AlertDue(cfg.alert, NotUpStretch(cfg, oks) + n)
  {
    RecoveringRunStatus(cfg, oks, n);
    RecoveringRunStretch(cfg, oks, n);
  }

  lemma {:induction false} RecoveryRule(cfg: Config, oks: seq<bool>, n: nat)
    requires Normalized(cfg) && Settled(cfg, oks, false) && n >= cfg.success
    ensures NotifyRule(cfg, oks + Repeat(true, n)) <==> n == cfg.success
  {
    RecoveringRunStatus(cfg, oks, n);
    RecoveringRunStatus(cfg, oks, n - 1);
    BlockButLast(oks, true, n);
  }

  /**
   A run of successes after a settled Down, below the success threshold: the status stays Down and the back-off
   schedule of the stretch simply goes on.
   */
  lemma {:induction false} SlowRecoveryStillAlerts(cfg: Config, rounds: seq<Round>, good: seq<Round>, stretch: nat)
    requires Normalized(cfg) && good != [] && AllRounds(good, true) && |good| < cfg.success
    requires Settled(cfg, Outcomes(rounds), false) && NotUpStretch(cfg, Outcomes(rounds)) == stretch
    ensures ShouldNotify(Run(cfg, rounds + good)) <==> AlertDue(cfg.alert, stretch + |good|)
  {
    NotifiesAfterBlock(cfg, rounds, good, true);
    SlowRecoveryRule(cfg, Outcomes(rounds), |good|);
  }

  /** The recovery is notified once, when the success threshold is reached; then there is silence. */
  lemma {:induction false} RecoveryIsNotifiedOnce(cfg: Config, rounds: seq<Round>, good: seq<Round>)
    requires Normalized(cfg) && AllRounds(good, true) && |good| >= cfg.success
    requires Settled(cfg, Outcomes(rounds), false)
    ensures ShouldNotify(Run(cfg, rounds + good)) <==> |good| == cfg.success
  {
    NotifiesAfterBlock(cfg, rounds, good, true);
    RecoveryRule(cfg, Outcomes(rounds), |good|);
  }

  // ----- where the promise fails

  /** Failures from the start leave the status at Init until the threshold is reached. */
  lemma {:induction false} FailuresFromStart(cfg: Config, oks: seq<bool>)
    requires Normalized(cfg) && forall i :: 0 <= i < |oks| ==> !oks[i]
    ensures StatusAfter(cfg, oks) == if |oks| >= cfg.failure then Down else Init
    ensures NotUpStretch(cfg, oks) == |oks|
  {
    assert [] + oks == oks;
    TrailingAppend([], oks, false);
    if oks != [] {
      FailuresFromStart(cfg, ButLast(oks));
      if |oks| >= 2 {
        FailuresFromStart(cfg, oks[..|oks| - 2]);
      }
    }
  }

  /**
   The Down edge of a probe that fails from the start. It is reported only if the failure threshold is itself
   an alert round, since the rounds before it have used up the earlier ones.
   */
  lemma {:induction false} EdgeAfterSlowFailure(cfg: Config, down: Round)
    requires Normalized(cfg) && !down.ok
    ensures var rounds := Repeat(down, cfg.failure);
            && Edge(cfg, Outcomes(rounds))
            && (ShouldNotify(Run(cfg, rounds)) <==> AlertDue(cfg.alert, cfg.failure))
  {
    var rounds := Repeat(down, cfg.failure);
    NotifiesByRule(cfg, rounds);
    FailuresFromStart(cfg, Outcomes(rounds));
    FailuresFromStart(cfg, ButLast(Outcomes(rounds)));
  }

  /** A first success, below its threshold, leaves the status at Init, so a failure after it is the second round. */
  lemma {:induction false} StatusAfterSlowSuccess(cfg: Config)
    requires cfg.failure == 1 && cfg.success >= 2
    ensures StatusAfter(cfg, [true]) == Init && StatusAfter(cfg, [true, false]) == Down
    ensures NotUpStretch(cfg, [true, false]) == 2
  {
    assert ButLast([true, false]) == [true] && ButLast([true]) == [];
    assert Trailing([true], true) == 1 && Trailing([true], false) == 0;
    assert Trailing([true, false], false) == 1 && Trailing([true, false], true) == 0;
    assert NotUpStretch(cfg, [true]) == 1;
  }

  /**
   The Down edge after a single success below its threshold, at a failure threshold of one. It is reported only
   if round two is an alert round, since the success has used up the first one.
   */
  lemma {:induction false} EdgeAfterSlowSuccess(cfg: Config, up: Round, down: Round)
    requires cfg.failure == 1 && cfg.success >= 2 && up.ok && !down.ok
    ensures Edge(cfg, Outcomes([up, down]))
    ensures ShouldNotify(Run(cfg, [up, down])) <==> AlertDue(cfg.alert, 2)
  {
    assert Outcomes([up, down]) == [true, false];
    assert ButLast([true, false]) == [true];
    StatusAfterSlowSuccess(cfg);
    NotifiesByRule(cfg, [up, down]);
  }

  lemma {:induction false} SuccessesFromStart(cfg: Config, oks: seq<bool>)
    requires |oks| >= cfg.success >= 1 && forall i :: 0 <= i < |oks| ==> oks[i]
    ensures StatusAfter(cfg, oks) == Up
  {
    TrailingAppend([], oks, true);
    assert [] + oks == oks;
  }

  /** Successes from the start settle the status at Up. */
  lemma {:induction false} SuccessesSettle(cfg: Config, rounds: seq<Round>)
    requires Normalized(cfg) && AllRounds(rounds, true) && |rounds| > cfg.success
    ensures Settled(cfg, Outcomes(rounds), true)
  {
    SuccessesFromStart(cfg, Outcomes(rounds));
    SuccessesFromStart(cfg, ButLast(Outcomes(rounds)));
  }

  lemma {:induction false} LaterFailureIsNoEdge(cfg: Config, oks: seq<bool>, n: nat)
    requires Normalized(cfg) && Settled(cfg, oks, true) && n > cfg.failure
    ensures !Edge(cfg, oks + Repeat(false, n))
  {
    FailingRunStatus(cfg, oks, n);
    FailingRunStatus(cfg, oks, n - 1);
    BlockButLast(oks, false, n);
  }

  /** With a budget of two or more a probe that stays down is reported again, without an edge. */
  lemma {:induction false} SecondAlertIsNoEdge(cfg: Config) returns (rounds: seq<Round>)
    requires Normalized(cfg) && cfg.alert.maxTimes >= 2
    ensures rounds != [] && ShouldNotify(Run(cfg, rounds)) && !Edge(cfg, Outcomes(rounds))
  {
    var up, down, second := Round(true, "", 0), Round(false, "", 0), AlertRound(cfg.alert, 2);
    AlertRoundsOrdered(cfg.alert, 0, 1);
    AlertRoundsOrdered(cfg.alert, 1, 2);
    var good, failing := Repeat(up, cfg.success + 1), Repeat(down, cfg.failure - 1 + second);
    SuccessesSettle(cfg, good);
    FailingRunFromSettledUp(cfg, good, failing);
    assert AlertDue(cfg.alert, second);
    LaterFailureIsNoEdge(cfg, Outcomes(good), |failing|);
    OutcomesOfBlock(good, failing, false);
    rounds := good + failing;
  }

  /** With unit thresholds and a budget of one every round is reported exactly on an edge. */
  lemma {:induction false} UnitSettingsAreEdgeTriggered(cfg: Config)
    requires cfg.failure == 1 && cfg.success == 1 && cfg.alert.maxTimes == 1
    ensures EdgeTriggered(cfg)
  {
    forall rounds: seq<Round> | rounds != []
      ensures ShouldNotify(Run(cfg, rounds)) <==> Edge(cfg, Outcomes(rounds))
    {
      EdgeTriggeredExactly(cfg, rounds);
      RunStatus(cfg, rounds);
      if |rounds| >= 2 {
        UnitStatus(cfg, Outcomes(ButLast(rounds)));
      }
    }
  }

  /** Any other settings have a stream with an unreported edge, or with a report that is none. */
  lemma {:induction false} NotEdgeTriggered(cfg: Config) returns (rounds: seq<Round>)
    requires Normalized(cfg) && !(cfg.failure == 1 && cfg.success == 1 && cfg.alert.maxTimes == 1)
    ensures rounds != [] && !(ShouldNotify(Run(cfg, rounds)) <==> Edge(cfg, Outcomes(rounds)))
  {
    var up, down := Round(true, "", 0), Round(false, "", 0);
    if cfg.alert.maxTimes >= 2 {
      rounds := SecondAlertIsNoEdge(cfg);
    } else if cfg.alert.maxTimes <= 0 || cfg.failure >= 2 {
      rounds := Repeat(down, cfg.failure);
      EdgeAfterSlowFailure(cfg, down);
      AtMostFirstIsDue(cfg.alert, cfg.failure);
    } else {
      rounds := [up, down];
      EdgeAfterSlowSuccess(cfg, up, down);
      AtMostFirstIsDue(cfg.alert, 2);
    }
  }

  lemma {:induction false} AtMostFirstIsDue(s: Settings, n: int)
    requires s.maxTimes <= 1 && (s.maxTimes <= 0 || n != 1)
    ensures !AlertDue(s, n)
  {
    FirstAlertRound(s);
  }

  /**
   The documentation promises edge-triggered notification by default. On all streams this holds exactly when
   both thresholds and the budget are one.
   */
  lemma {:induction false} EdgeTriggeredIffUnitSettings(cfg: Config)
    requires Normalized(cfg)
    ensures EdgeTriggered(cfg) <==> cfg.failure == 1 && cfg.success == 1 && cfg.alert.maxTimes == 1
  {
    if cfg.failure == 1 && cfg.success == 1 && cfg.alert.maxTimes == 1 {
      UnitSettingsAreEdgeTriggered(cfg);
    } else {
      var rounds := NotEdgeTriggered(cfg);
    }
  }

  /**
   A probe that fails from the start spends its alert budget while its status is still Init: it is reported
   only at alert rounds that are not below the failure threshold.
   */
  lemma {:induction false} ColdStart(cfg: Config, rounds: seq<Round>)
    requires Normalized(cfg) && rounds != [] && AllRounds(rounds, false)
    ensures ShouldNotify(Run(cfg, rounds)) <==> |rounds| >= cfg.failure && AlertDue(cfg.alert, |rounds|)
  {
    var oks := Outcomes(rounds);
    NotifiesByRule(cfg, rounds);
    FailuresFromStart(cfg, oks);
    FailuresFromStart(cfg, ButLast(oks));
  }

  lemma {:induction false} LastAlertIsLargest(s: Settings, n: int)
    requires AlertDue(s, n)
    ensures s.maxTimes >= 1 && AlertRound(s, s.maxTimes) >= n
  {
    var k: nat :| 1 <= k <= s.maxTimes && AlertRound(s, k) == n;
    if k < s.maxTimes {
      AlertRoundsOrdered(s, k, s.maxTimes);
    }
  }

  /** Such a probe is ever reported exactly when its last alert round is not below the failure threshold. */
  lemma {:induction false} ColdStartIsReportedIff(cfg: Config)
    requires Normalized(cfg)
    ensures (exists rounds :: rounds != [] && AllRounds(rounds, false) && ShouldNotify(Run(cfg, rounds)))
            <==> cfg.alert.maxTimes >= 1 && AlertRound(cfg.alert, cfg.alert.maxTimes) >= cfg.failure
  {
    var m := cfg.alert.maxTimes;
    if m >= 1 && AlertRound(cfg.alert, m) >= cfg.failure {
      var rounds := Repeat(Round(false, "", 0), AlertRound(cfg.alert, m));
      ColdStart(cfg, rounds);
      assert rounds != [] && AllRounds(rounds, false) && ShouldNotify(Run(cfg, rounds));
    }
    forall rounds | rounds != [] && AllRounds(rounds, false) && ShouldNotify(Run(cfg, rounds))
      ensures m >= 1 && AlertRound(cfg.alert, m) >= cfg.failure
    {
      ColdStart(cfg, rounds);
      LastAlertIsLargest(cfg.alert, |rounds|);
    }
  }

  /** Once a run of failures has reached the threshold, further failures keep the status Down. */
  lemma {:induction false} DownContinues(cfg: Config, oks: seq<bool>, n: nat)
    requires Normalized(cfg) && Trailing(oks, false) >= cfg.failure
    ensures StatusAfter(cfg, oks + Repeat(false, n)) == Down
    ensures NotUpStretch(cfg, oks + Repeat(false, n)) == NotUpStretch(cfg, oks) + n
  {
    TrailingAppend(oks, Repeat(false, n), false);
    if n == 0 {
      assert oks + Repeat(false, n) == oks;
    } else {
      BlockButLast(oks, false, n);
      DownContinues(cfg, oks, n - 1);
    }
  }

  lemma {:induction false} DownRule(cfg: Config, oks: seq<bool>, n: nat)
    requires Normalized(cfg) && Trailing(oks, false) >= cfg.failure
    ensures NotifyRule(cfg, oks + Repeat(false, n)) == AlertDue(cfg.alert, NotUpStretch(cfg, oks) + n)
  {
    DownContinues(cfg, oks, n);
  }

  /** Some continuation by failures falls under the rule. */
  ghost predicate EverDue(cfg: Config, oks: seq<bool>) {
    exists n: nat :: NotifyRule(cfg, oks + Repeat(false, n))
  }

  /** The not-Up stretch has not gone past the last alert round yet. */
  ghost predicate AlertsLeft(s: Settings, stretch: nat) {
    s.maxTimes >= 1 && AlertRound(s, s.maxTimes) >= stretch
  }

  ghost predicate DueFrom(s: Settings, stretch: nat) {
    exists n: int :: n >= stretch && AlertDue(s, n)
  }

  lemma {:induction false} AlertsLeftIff(s: Settings, stretch: nat)
    ensures AlertsLeft(s, stretch) == DueFrom(s, stretch)
  {
    if AlertsLeft(s, stretch) {
      assert AlertDue(s, AlertRound(s, s.maxTimes));
    }
    if n: int :| n >= stretch && AlertDue(s, n) {
      LastAlertIsLargest(s, n);
    }
  }

  lemma {:induction false} EverDueIff(cfg: Config, oks: seq<bool>, stretch: nat)
    requires Normalized(cfg) && Trailing(oks, false) >= cfg.failure && stretch == NotUpStretch(cfg, oks)
    ensures EverDue(cfg, oks) == DueFrom(cfg.alert, stretch)
  {
    if n: nat :| NotifyRule(cfg, oks + Repeat(false, n)) {
      DownRule(cfg, oks, n);
    }
    if n: int :| n >= stretch && AlertDue(cfg.alert, n) {
      DownRule(cfg, oks, n - stretch);
    }
  }

  /** Some continuation by failures is reported. */
  ghost predicate EverReported(cfg: Config, rounds: seq<Round>) {
    exists failing :: AllRounds(failing, false) && ShouldNotify(Run(cfg, rounds + failing))
  }

  lemma {:induction false} EverReportedIff(cfg: Config, rounds: seq<Round>)
    requires Normalized(cfg)
    ensures EverReported(cfg, rounds) == EverDue(cfg, Outcomes(rounds))
  {
    if failing :| AllRounds(failing, false) && ShouldNotify(Run(cfg, rounds + failing)) {
      NotifiesAfterBlock(cfg, rounds, failing, false);
    }
    if n: nat :| NotifyRule(cfg, Outcomes(rounds) + Repeat(false, n)) {
      NotifiesAfterBlock(cfg, rounds, Repeat(Round(false, "", 0), n), false);
    }
  }

  /**
   After any run of rounds that ends in enough failures for Down: from this round on the failures are ever
   reported exactly when the not-Up stretch has not gone past the last alert round yet.
   */
  lemma {:induction false} DownIsReportedIff(cfg: Config, rounds: seq<Round>)
    requires Normalized(cfg) && Trailing(Outcomes(rounds), false) >= cfg.failure
    ensures EverReported(cfg, rounds) == AlertsLeft(cfg.alert, NotUpStretch(cfg, Outcomes(rounds)))
  {
    var stretch := NotUpStretch(cfg, Outcomes(rounds));
    EverReportedIff(cfg, rounds);
    EverDueIff(cfg, Outcomes(rounds), stretch);
    AlertsLeftIff(cfg.alert, stretch);
  }

  /**
   Hysteresis is not unconditional. With both thresholds two, two successes and one failure take a new probe
   from Init to Up and back to Init, and the fall back to Init is notified.
   */
  lemma {:induction false} UnsettledUpFallsBack(cfg: Config, up: Round, down: Round)
    requires cfg.failure == 2 && cfg.success == 2 && up.ok && !down.ok
    ensures Run(cfg, [up, up]).status == Up
    ensures Run(cfg, [up, up, down]).status == Init
    ensures ShouldNotify(Run(cfg, [up, up, down]))
  {
    assert Outcomes([up, up]) == [true, true] && Outcomes([up, up, down]) == [true, true, false];
    assert ButLast([true, true, false]) == [true, true];
    TwoUpsOneDown(cfg);
    StatusRefinement(cfg, [up, up]);
    StatusRefinement(cfg, [up, up, down]);
    NotifiesByRule(cfg, [up, up, down]);
  }

  lemma {:induction false} TwoUpsOneDown(cfg: Config)
    requires cfg.failure == 2 && cfg.success == 2
    ensures StatusAfter(cfg, [true, true]) == Up
    ensures StatusAfter(cfg, [true, true, false]) == Init
  {
    assert ButLast([true, true]) == [true] && ButLast([true]) == [] && ButLast([true, true, false]) == [true, true];
    assert Trailing([true], true) == 1 && Trailing([true], false) == 0;
    assert Trailing([true, true], true) == 2;
    assert Trailing([true, true, false], true) == 0 && Trailing([true, true, false], false) == 1;
    assert [true, true, false][..1] == [true];
  }
}
