/** What the statistics of a run mean: conservation of the counts and times, SLA, and the recovery time. */
module Statistics {
  import opened Runs
  import opened Pipeline

  // ----- conservation

  /** The number of rounds after which the plain status was `s`. */
  function RoundsIn(cfg: Config, oks: seq<bool>, s: Status): (n: nat)
    ensures n <= |oks|
  {
    if oks == [] then 0
    else RoundsIn(cfg, ButLast(oks), s) + if StatusAfter(cfg, oks) == s then 1 else 0
  }

  function SumOfCounts(counts: map<Status, int>): int {
    CountOf(counts, Init) + CountOf(counts, Up) + CountOf(counts, Down) + CountOf(counts, Unknown) + CountOf(counts, Bad)
  }

  lemma {:induction false} StepStatistics(cfg: Config, p: Result, r: Round)
    ensures var q := Step(cfg, p, r);
            && q.total == p.total + 1
            && (forall s :: CountOf(q.counts, s) == CountOf(p.counts, s) + if s == q.status then 1 else 0)
            && q.upTime == p.upTime + (if q.status == Up then cfg.interval else 0)
            && q.downTime == p.downTime + (if q.status == Up then 0 else cfg.interval)
  {
  }

  /** The same count for rounds that start from any result, read off the statuses the program computed. */
  function RoundsOf(cfg: Config, p: Result, rounds: seq<Round>, s: Status): (n: nat)
    ensures n <= |rounds|
  {
    if rounds == [] then 0
    else RoundsOf(cfg, p, ButLast(rounds), s) + if RunFrom(cfg, p, rounds).status == s then 1 else 0
  }

  lemma {:induction false} RoundsOfIsRoundsIn(cfg: Config, rounds: seq<Round>, s: Status)
    requires Normalized(cfg)
    ensures RoundsOf(cfg, Configured(cfg), rounds, s) == RoundsIn(cfg, Outcomes(rounds), s)
  {
    if rounds != [] {
      RoundsOfIsRoundsIn(cfg, ButLast(rounds), s);
      OutcomesButLast(rounds);
      StatusRefinement(cfg, rounds);
    }
  }

  lemma {:induction false} CountsAreRounds(cfg: Config, p: Result, rounds: seq<Round>, s: Status)
    ensures CountOf(RunFrom(cfg, p, rounds).counts, s) == CountOf(p.counts, s) + RoundsOf(cfg, p, rounds, s)
  {
    if rounds != [] {
      CountsAreRounds(cfg, p, ButLast(rounds), s);
      StepStatistics(cfg, RunFrom(cfg, p, ButLast(rounds)), Last(rounds));
    }
  }

  lemma {:induction false} RoundsAddUp(cfg: Config, oks: seq<bool>)
    ensures RoundsIn(cfg, oks, Init) + RoundsIn(cfg, oks, Up) + RoundsIn(cfg, oks, Down)
          + RoundsIn(cfg, oks, Unknown) + RoundsIn(cfg, oks, Bad) == |oks|
  {
    if oks != [] {
      RoundsAddUp(cfg, ButLast(oks));
    }
  }

  /** `n` intervals, added up one by one. */
  function Elapsed(interval: int, n: nat): int {
    if n == 0 then 0 else Elapsed(interval, n - 1) + interval
  }

  lemma {:induction false} ElapsedIsProduct(interval: int, n: nat)
    ensures Elapsed(interval, n) == interval * n
  {
    if n > 0 {
      ElapsedIsProduct(interval, n - 1);
    }
  }

  lemma {:induction false} UpTimeAddsUp(cfg: Config, p: Result, rounds: seq<Round>)
    ensures RunFrom(cfg, p, rounds).upTime == p.upTime + Elapsed(cfg.interval, RoundsOf(cfg, p, rounds, Up))
  {
    if rounds != [] {
      UpTimeAddsUp(cfg, p, ButLast(rounds));
      StepStatistics(cfg, RunFrom(cfg, p, ButLast(rounds)), Last(rounds));
    }
  }

  /** Up and down time share the elapsed intervals. */
  lemma {:induction false} TimesShareElapsed(cfg: Config, p: Result, rounds: seq<Round>)
    ensures var q := RunFrom(cfg, p, rounds);
            q.upTime + q.downTime == p.upTime + p.downTime + Elapsed(cfg.interval, |rounds|)
  {
    if rounds != [] {
      TimesShareElapsed(cfg, p, ButLast(rounds));
      StepStatistics(cfg, RunFrom(cfg, p, ButLast(rounds)), Last(rounds));
    }
  }

  lemma {:induction false} Distribute(d: int, k: int, n: int)
    ensures d * n == d * k + d * (n - k)
  {
  }

  lemma {:induction false} TimesOfRun(cfg: Config, rounds: seq<Round>)
    requires Normalized(cfg)
    ensures Run(cfg, rounds).upTime == cfg.interval * RoundsIn(cfg, Outcomes(rounds), Up)
    ensures Run(cfg, rounds).downTime == cfg.interval * (|rounds| - RoundsIn(cfg, Outcomes(rounds), Up))
  {
    var up, n := RoundsIn(cfg, Outcomes(rounds), Up), |rounds|;
    UpTimeAddsUp(cfg, Configured(cfg), rounds);
    TimesShareElapsed(cfg, Configured(cfg), rounds);
    RoundsOfIsRoundsIn(cfg, rounds, Up);
    ElapsedIsProduct(cfg.interval, up);
    ElapsedIsProduct(cfg.interval, n);
    Distribute(cfg.interval, up, n);
  }

  lemma {:induction false} TotalOfRun(cfg: Config, p: Result, rounds: seq<Round>)
    ensures RunFrom(cfg, p, rounds).total == p.total + |rounds|
  {
    if rounds != [] {
      TotalOfRun(cfg, p, ButLast(rounds));
      StepStatistics(cfg, RunFrom(cfg, p, ButLast(rounds)), Last(rounds));
    }
  }

  /**
   Every round is accounted for once: each status has its number of rounds, the counts add up to the total,
   and up and down time share the elapsed intervals.
   */
  lemma {:induction false} StatisticsConservation(cfg: Config, rounds: seq<Round>)
    requires Normalized(cfg)
    ensures Run(cfg, rounds).total == |rounds| == SumOfCounts(Run(cfg, rounds).counts)
    ensures forall s :: CountOf(Run(cfg, rounds).counts, s) == RoundsIn(cfg, Outcomes(rounds), s)
    ensures Run(cfg, rounds).upTime == cfg.interval * RoundsIn(cfg, Outcomes(rounds), Up)
    ensures Run(cfg, rounds).downTime == cfg.interval * (|rounds| - RoundsIn(cfg, Outcomes(rounds), Up))
  {
    forall s: Status
      ensures CountOf(Run(cfg, rounds).counts, s) == RoundsIn(cfg, Outcomes(rounds), s)
    {
      CountsAreRounds(cfg, Configured(cfg), rounds, s);
      RoundsOfIsRoundsIn(cfg, rounds, s);
    }
    RoundsAddUp(cfg, Outcomes(rounds));
    TotalOfRun(cfg, Configured(cfg), rounds);
    TimesOfRun(cfg, rounds);
  }

  // ----- SLA

  const NANOSECONDS := 1000000000.0

  function Seconds(d: int): real {
    d as real / NANOSECONDS
  }

  function SLAPercent(p: Result): real {
    var up, down := Seconds(p.upTime), Seconds(p.downTime);
    if up + down <= 0.0 then
      if p.status == Up then 100.0 else 0.0
    else up / (up + down) * 100.0
  }

  /** A quotient of durations is the quotient of the round counts. */
  lemma {:induction false} ShareOfRounds(d: int, up: nat, n: nat)
    requires d > 0 && 0 < n && up <= n
    ensures Seconds(d * up) + Seconds(d * (n - up)) > 0.0
    ensures Seconds(d * up) / (Seconds(d * up) + Seconds(d * (n - up))) == up as real / n as real
    ensures 0.0 <= up as real / n as real <= 1.0
  {
    var unit := d as real / NANOSECONDS;
    assert Seconds(d * up) == unit * up as real;
    assert d * up + d * (n - up) == d * n;
    assert Seconds(d * up) + Seconds(d * (n - up)) == unit * n as real;
    assert unit * n as real > 0.0;
    assert (unit * up as real) / (unit * n as real) == up as real / n as real;
  }

  /** After at least one round the SLA is the percentage of rounds that were Up. */
  lemma {:induction false} SlaIsShareOfUpRounds(cfg: Config, rounds: seq<Round>)
    requires Normalized(cfg) && cfg.interval > 0 && rounds != []
    ensures SLAPercent(Run(cfg, rounds))
         == RoundsIn(cfg, Outcomes(rounds), Up) as real / |rounds| as real * 100.0
    ensures 0.0 <= SLAPercent(Run(cfg, rounds)) <= 100.0
  {
    TimesOfRun(cfg, rounds);
    ShareOfRounds(cfg.interval, RoundsIn(cfg, Outcomes(rounds), Up), |rounds|);
  }

  lemma {:induction false} NothingCounted(cfg: Config, rounds: seq<Round>)
    requires rounds == [] || cfg.interval == 0
    ensures Run(cfg, rounds).upTime == 0 && Run(cfg, rounds).downTime == 0
  {
    if rounds != [] {
      NothingCounted(cfg, ButLast(rounds));
      StepStatistics(cfg, Run(cfg, ButLast(rounds)), Last(rounds));
    }
  }

  lemma {:induction false} SlaOfNoTime(p: Result)
    requires p.upTime == 0 && p.downTime == 0
    ensures SLAPercent(p) == if p.status == Up then 100.0 else 0.0
  {
    assert Seconds(0) == 0.0;
  }

  /** Without any counted time, before the first round above all, the SLA is all or nothing, by the status. */
  lemma {:induction false} SlaWithoutTime(cfg: Config, rounds: seq<Round>)
    requires Normalized(cfg) && (rounds == [] || cfg.interval == 0)
    ensures SLAPercent(Run(cfg, rounds)) == if StatusAfter(cfg, Outcomes(rounds)) == Up then 100.0 else 0.0
  {
    NothingCounted(cfg, rounds);
    SlaOfNoTime(Run(cfg, rounds));
    StatusRefinement(cfg, rounds);
  }

  // ----- recovery time

  /** The plain status after the first `k` rounds. */
  function StatusAt(cfg: Config, rounds: seq<Round>, k: nat): Status
    requires k <= |rounds|
  {
    StatusAfter(cfg, Outcomes(rounds[..k]))
  }

  /** The status was Down after each of the rounds `first`, ..., `end` - 1 and not before them. */
  ghost predicate DownStretch(cfg: Config, rounds: seq<Round>, first: nat, end: nat) {
    && first < end <= |rounds|
    && (forall k :: first < k <= end ==> StatusAt(cfg, rounds, k) == Down)
    && StatusAt(cfg, rounds, first) != Down
  }

  lemma {:induction false} StatusAtButLast(cfg: Config, rounds: seq<Round>, k: nat)
    requires k < |rounds|
    ensures StatusAt(cfg, ButLast(rounds), k) == StatusAt(cfg, rounds, k)
  {
    assert ButLast(rounds)[..k] == rounds[..k];
  }

  lemma {:induction false} StretchButLast(cfg: Config, rounds: seq<Round>, first: nat, end: nat)
    requires end < |rounds| && DownStretch(cfg, rounds, first, end)
    ensures DownStretch(cfg, ButLast(rounds), first, end)
  {
    forall k | first <= k <= end
      ensures StatusAt(cfg, ButLast(rounds), k) == StatusAt(cfg, rounds, k)
    {
      StatusAtButLast(cfg, rounds, k);
    }
  }

  lemma {:induction false} StepClock(cfg: Config, p: Result, r: Round)
    ensures var q := Step(cfg, p, r);
            && q.latestDownTime == (if p.status != Down && q.status == Down then r.at else p.latestDownTime)
            && q.recoveryDuration == (if p.status == Down && q.status == Up then r.at - p.latestDownTime else p.recoveryDuration)
  {
  }

  /** The clock fields after the last round, in terms of the plain statuses around it. */
  lemma {:induction false} ClockOfRun(cfg: Config, rounds: seq<Round>)
    requires Normalized(cfg) && rounds != []
    ensures var p, n := Run(cfg, ButLast(rounds)), |rounds|;
            var before, now := StatusAt(cfg, rounds, n - 1), StatusAt(cfg, rounds, n);
            && Run(cfg, rounds).latestDownTime == (if before != Down && now == Down then Last(rounds).at else p.latestDownTime)
            && Run(cfg, rounds).recoveryDuration == (if before == Down && now == Up then Last(rounds).at - p.latestDownTime else p.recoveryDuration)
  {
    assert rounds[..|rounds|] == rounds;
    StatusRefinement(cfg, rounds);
    StatusRefinement(cfg, ButLast(rounds));
    StepClock(cfg, Run(cfg, ButLast(rounds)), Last(rounds));
  }

  /** While the status is Down, the remembered time is the reading of the first round of the stretch. */
  lemma {:induction false} DownTimeIsStretchStart(cfg: Config, rounds: seq<Round>, first: nat)
    requires Normalized(cfg) && DownStretch(cfg, rounds, first, |rounds|)
    ensures Run(cfg, rounds).latestDownTime == rounds[first].at
  {
    var n := |rounds|;
    ClockOfRun(cfg, rounds);
    assert StatusAt(cfg, rounds, n) == Down;
    if first < n - 1 {
      assert DownStretch(cfg, rounds, first, n - 1);
      StretchButLast(cfg, rounds, first, n - 1);
      DownTimeIsStretchStart(cfg, ButLast(rounds), first);
    }
  }

  ghost predicate ClockNeverGoesBack(rounds: seq<Round>) {
    forall i, j :: 0 <= i <= j < |rounds| ==> rounds[i].at <= rounds[j].at
  }

  /**
   At a recovery the reported duration reaches from the first round of the maximal Down stretch just ended to
   the recovering round.
   */
  lemma {:induction false} RecoveryDurationIsStretch(cfg: Config, rounds: seq<Round>, first: nat)
    requires Normalized(cfg) && rounds != []
    requires DownStretch(cfg, rounds, first, |rounds| - 1)
    requires StatusAt(cfg, rounds, |rounds|) == Up
    ensures Run(cfg, rounds).recoveryDuration == Last(rounds).at - rounds[first].at
    ensures ClockNeverGoesBack(rounds) ==> Run(cfg, rounds).recoveryDuration >= 0
  {
    var n := |rounds|;
    ClockOfRun(cfg, rounds);
    assert StatusAt(cfg, rounds, n - 1) == Down;
    StretchButLast(cfg, rounds, first, n - 1);
    DownTimeIsStretchStart(cfg, ButLast(rounds), first);
  }

  lemma {:induction false} StatusAtStart(cfg: Config, rounds: seq<Round>)
    ensures StatusAt(cfg, rounds, 0) == Init
  {
    assert rounds[..0] == [];
  }

  lemma {:induction false} StretchExtends(cfg: Config, rounds: seq<Round>, first: nat, end: nat)
    requires end < |rounds| && DownStretch(cfg, rounds, first, end) && StatusAt(cfg, rounds, end + 1) == Down
    ensures DownStretch(cfg, rounds, first, end + 1)
  {
  }

  /** Every Down round lies in such a stretch, so the law above speaks about every recovery. */
  lemma {:induction false} DownRoundHasStretch(cfg: Config, rounds: seq<Round>, end: nat) returns (first: nat)
    requires end < |rounds| && StatusAt(cfg, rounds, end + 1) == Down
    ensures DownStretch(cfg, rounds, first, end + 1)
  {
    if StatusAt(cfg, rounds, end) != Down {
      first := end;
    } else if end == 0 {
      StatusAtStart(cfg, rounds);
      assert false;
    } else {
      first := DownRoundHasStretch(cfg, rounds, end - 1);
      StretchExtends(cfg, rounds, first, end);
    }
  }

  // ----- the clock fields between the edges

  /** Round `k`, counted from one, went from Down to Up. */
  ghost predicate Recovers(cfg: Config, rounds: seq<Round>, k: nat) {
    1 <= k <= |rounds| && StatusAt(cfg, rounds, k - 1) == Down && StatusAt(cfg, rounds, k) == Up
  }

  /** Round `k`, counted from one, went to Down. */
  ghost predicate Falls(cfg: Config, rounds: seq<Round>, k: nat) {
    1 <= k <= |rounds| && StatusAt(cfg, rounds, k - 1) != Down && StatusAt(cfg, rounds, k) == Down
  }

  ghost predicate NoRecoveryAfter(cfg: Config, rounds: seq<Round>, k: nat) {
    forall j :: k < j <= |rounds| ==> !Recovers(cfg, rounds, j)
  }

  ghost predicate NoFallAfter(cfg: Config, rounds: seq<Round>, k: nat) {
    forall j :: k < j <= |rounds| ==> !Falls(cfg, rounds, j)
  }

  lemma {:induction false} EdgesButLast(cfg: Config, rounds: seq<Round>, k: nat)
    requires k < |rounds|
    ensures Recovers(cfg, ButLast(rounds), k) == Recovers(cfg, rounds, k)
    ensures Falls(cfg, ButLast(rounds), k) == Falls(cfg, rounds, k)
  {
    StatusAtButLast(cfg, rounds, k);
    if k >= 1 {
      StatusAtButLast(cfg, rounds, k - 1);
    }
  }

  lemma {:induction false} NoRecoveryButLast(cfg: Config, rounds: seq<Round>, k: nat)
    requires rounds != [] && NoRecoveryAfter(cfg, rounds, k)
    ensures NoRecoveryAfter(cfg, ButLast(rounds), k)
  {
    forall j | k < j <= |ButLast(rounds)|
      ensures !Recovers(cfg, ButLast(rounds), j)
    {
      EdgesButLast(cfg, rounds, j);
    }
  }

  lemma {:induction false} NoFallButLast(cfg: Config, rounds: seq<Round>, k: nat)
    requires rounds != [] && NoFallAfter(cfg, rounds, k)
    ensures NoFallAfter(cfg, ButLast(rounds), k)
  {
    forall j | k < j <= |ButLast(rounds)|
      ensures !Falls(cfg, ButLast(rounds), j)
    {
      EdgesButLast(cfg, rounds, j);
    }
  }

  /** A last round that is no recovery keeps the reported duration, and one that is no fall the remembered time. */
  lemma {:induction false} ClockStays(cfg: Config, rounds: seq<Round>)
    requires Normalized(cfg) && rounds != []
    ensures !Recovers(cfg, rounds, |rounds|) ==> Run(cfg, rounds).recoveryDuration == Run(cfg, ButLast(rounds)).recoveryDuration
    ensures !Falls(cfg, rounds, |rounds|) ==> Run(cfg, rounds).latestDownTime == Run(cfg, ButLast(rounds)).latestDownTime
    ensures Falls(cfg, rounds, |rounds|) ==> Run(cfg, rounds).latestDownTime == Last(rounds).at
  {
    ClockOfRun(cfg, rounds);
  }

  /** As long as no round has gone from Down to Up, no recovery time is reported. */
  lemma {:induction false} NoRecoveryYet(cfg: Config, rounds: seq<Round>)
    requires Normalized(cfg) && NoRecoveryAfter(cfg, rounds, 0)
    ensures Run(cfg, rounds).recoveryDuration == 0
  {
    if rounds != [] {
      NoRecoveryButLast(cfg, rounds, 0);
      NoRecoveryYet(cfg, ButLast(rounds));
      ClockStays(cfg, rounds);
    }
  }

  /**
   After every run the recovery time is that of the last recovery: from the first round of the Down stretch it
   ended to the round it happened in, however many rounds have followed.
   */
  lemma {:induction false} RecoveryDurationOfRun(cfg: Config, rounds: seq<Round>, last: nat, first: nat)
    requires Normalized(cfg) && Recovers(cfg, rounds, last) && NoRecoveryAfter(cfg, rounds, last)
    requires DownStretch(cfg, rounds, first, last - 1)
    ensures Run(cfg, rounds).recoveryDuration == rounds[last - 1].at - rounds[first].at
  {
    if last == |rounds| {
      RecoveryDurationIsStretch(cfg, rounds, first);
    } else {
      NoRecoveryButLast(cfg, rounds, last);
      EdgesButLast(cfg, rounds, last);
      StretchButLast(cfg, rounds, first, last - 1);
      RecoveryDurationOfRun(cfg, ButLast(rounds), last, first);
      ClockStays(cfg, rounds);
    }
  }

  /** As long as no round has gone to Down, no time of it is remembered. */
  lemma {:induction false} NoFallYet(cfg: Config, rounds: seq<Round>)
    requires Normalized(cfg) && NoFallAfter(cfg, rounds, 0)
    ensures Run(cfg, rounds).latestDownTime == NO_TIME
  {
    if rounds != [] {
      NoFallButLast(cfg, rounds, 0);
      NoFallYet(cfg, ButLast(rounds));
      ClockStays(cfg, rounds);
    }
  }

  /** After every run the remembered time is the reading of the last round that went to Down. */
  lemma {:induction false} LatestDownTimeOfRun(cfg: Config, rounds: seq<Round>, last: nat)
    requires Normalized(cfg) && Falls(cfg, rounds, last) && NoFallAfter(cfg, rounds, last)
    ensures Run(cfg, rounds).latestDownTime == rounds[last - 1].at
  {
    ClockStays(cfg, rounds);
    if last < |rounds| {
      NoFallButLast(cfg, rounds, last);
      EdgesButLast(cfg, rounds, last);
      LatestDownTimeOfRun(cfg, ButLast(rounds), last);
    }
  }
}
