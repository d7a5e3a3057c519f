/**
 The alert back-off machine as a function on values, and the rounds at which it alerts.

 A probe that stays down is reported at rounds 1 = r_1 < r_2 < ... of the failing stretch, at most
 `maxTimes` times. The machine keeps the next round incrementally; `AlertRound` gives r_k in closed form.
 */
module AlertSchedule {
  import opened Runs

  const REGULAR := 1
  const INCREMENT := 2
  const EXPONENTIAL := 3

  /** `strategy` is any integer: every code but the three above takes the default branch. */
  datatype Settings = Settings(strategy: int, factor: int, maxTimes: int)

  datatype Alert = Alert(settings: Settings, notified: int, failed: int, next: int, interval: int, isSent: bool)

  function Fresh(s: Settings): Alert {
    Alert(s, 0, 0, 1, 0, false)
  }

  function Interval(a: Alert): int {
    if a.settings.strategy == REGULAR then a.settings.factor
    else if a.settings.strategy == INCREMENT then a.interval + a.settings.factor
    else if a.settings.strategy == EXPONENTIAL then a.failed * a.settings.factor
    else 1
  }

  function Reschedule(a: Alert): Alert {
    a.(interval := Interval(a), next := a.failed + Interval(a))
  }

  /** One round: `up` tells whether the derived status is Up. */
  function Process(a: Alert, up: bool): Alert {
    if up then
      Fresh(a.settings)
    else
      var counted := a.(isSent := false, failed := a.failed + 1);
      if counted.failed < counted.next then counted
      else
        var due := counted.(notified := counted.notified + 1);
        if due.notified > due.settings.maxTimes then due else Reschedule(due).(isSent := true)
  }

  /** The machine after a whole stream of up / not-up rounds, starting from a reset machine. */
  function AlertRun(s: Settings, ups: seq<bool>): Alert {
    if ups == [] then Fresh(s) else Process(AlertRun(s, ButLast(ups)), Last(ups))
  }

  function Pow(b: int, e: nat): int {
    if e == 0 then 1 else b * Pow(b, e - 1)
  }

  /**
   The round of a not-up stretch at which the k-th alert is due, and 0 for k == 0.
   A factor that is not positive never delays an alert.
   */
  function AlertRound(s: Settings, k: nat): int {
    if k == 0 then 0
    else if s.factor <= 0 then k
    else if s.strategy == REGULAR then 1 + (k - 1) * s.factor
    else if s.strategy == INCREMENT then 1 + s.factor * (k * (k - 1) / 2)
    else if s.strategy == EXPONENTIAL then Pow(1 + s.factor, k - 1)
    else k
  }

  /** Round `n` of a stretch is one of the first `maxTimes` alert rounds. */
  ghost predicate AlertDue(s: Settings, n: int) {
    exists k: nat :: 1 <= k <= s.maxTimes && AlertRound(s, k) == n
  }

  /** The number of alerts issued so far in the not-up stretch that ends `ups`. */
  function SentInStretch(s: Settings, ups: seq<bool>): nat {
    if ups == [] || Last(ups) then 0
    else SentInStretch(s, ButLast(ups)) + if AlertRun(s, ups).isSent then 1 else 0
  }

  // ----- the closed form obeys the recurrence of the machine

  lemma {:induction false} MulMonotone(c: int, x: int, y: int)
    requires c >= 0 && x <= y
    ensures c * x <= c * y
  {
  }

  lemma {:induction false} Triangle(k: nat)
    ensures (k + 1) * k / 2 == k * (k - 1) / 2 + k
  {
    assert (k + 1) * k == k * (k - 1) + 2 * k;
  }

  lemma {:induction false} PowPositive(b: int, e: nat)
    requires b >= 1
    ensures Pow(b, e) >= 1
  {
    if e > 0 {
      PowPositive(b, e - 1);
    }
  }

  lemma {:induction false} AlertRoundStep(s: Settings, k: nat)
    requires k >= 1 && s.factor > 0
    ensures s.strategy == REGULAR ==> AlertRound(s, k + 1) == AlertRound(s, k) + s.factor
    ensures s.strategy == INCREMENT ==> AlertRound(s, k + 1) == AlertRound(s, k) + k * s.factor
    ensures s.strategy == EXPONENTIAL ==> AlertRound(s, k + 1) == AlertRound(s, k) + AlertRound(s, k) * s.factor
  {
    if s.strategy == INCREMENT {
      var t := k * (k - 1) / 2;
      Triangle(k);
      assert s.factor * (t + k) == s.factor * t + k * s.factor;
    }
  }

  lemma {:induction false} AlertRoundsIncrease(s: Settings, k: nat)
    ensures AlertRound(s, k) < AlertRound(s, k + 1)
  {
    if k >= 1 && s.factor > 0 {
      AlertRoundStep(s, k);
      PowPositive(1 + s.factor, k - 1);
      if s.strategy == INCREMENT {
        assert k * s.factor >= 1;
      } else if s.strategy == EXPONENTIAL {
        assert AlertRound(s, k) * s.factor >= 1;
      }
    }
  }

  lemma {:induction false} AlertRoundsOrdered(s: Settings, j: nat, k: nat)
    requires j < k
    ensures AlertRound(s, j) < AlertRound(s, k)
  {
    AlertRoundsIncrease(s, k - 1);
    if j < k - 1 {
      AlertRoundsOrdered(s, j, k - 1);
    }
  }

  /** A round that has reached the `sent`-th alert round can only be a later one. */
  lemma {:induction false} AlertRoundIndex(s: Settings, n: int, sent: nat, k: nat)
    requires AlertRound(s, sent) <= n == AlertRound(s, k)
    ensures k == sent || (k > sent && n >= AlertRound(s, sent + 1))
  {
    if k < sent {
      AlertRoundsOrdered(s, k, sent);
    } else if k > sent + 1 {
      AlertRoundsOrdered(s, sent + 1, k);
    }
  }

  // ----- the invariant of a not-up stretch

  /**
   After `n` rounds of a not-up stretch with `sent` alerts: `n` lies between two neighbouring alert
   rounds, or the budget is used up and the machine stays silent for the rest of the stretch.
   */
  ghost predicate Tracks(a: Alert, s: Settings, n: nat, sent: nat) {
    && a.settings == s
    && a.failed == n
    && sent <= Max(0, s.maxTimes)
    && AlertRound(s, sent) <= n
    && (s.strategy == INCREMENT ==> a.interval == sent * s.factor)
    && (if s.factor <= 0 then a.next <= AlertRound(s, sent + 1) else a.next == AlertRound(s, sent + 1))
    && a.next == (if sent == 0 then 1 else AlertRound(s, sent) + a.interval)
    && (sent == 0 ==> a.interval == 0)
    && if n < AlertRound(s, sent + 1) then
         && a.notified == sent
         && a.isSent == (sent >= 1 && n == AlertRound(s, sent))
       else
         && sent == Max(0, s.maxTimes)
         && a.notified == sent + (n + 1 - AlertRound(s, sent + 1))
         && !a.isSent
  }

  /** Rescheduling at the k-th alert round aims at the next one. */
  lemma {:induction false} RescheduleHitsNext(a: Alert, s: Settings, k: nat)
    requires a.settings == s && k >= 1 && a.failed == AlertRound(s, k)
    requires s.strategy == INCREMENT ==> a.interval == (k - 1) * s.factor
    ensures var b := Reschedule(a);
            && (s.strategy == INCREMENT ==> b.interval == k * s.factor)
            && (if s.factor <= 0 then b.next <= AlertRound(s, k + 1) else b.next == AlertRound(s, k + 1))
  {
    assert (k - 1) * s.factor + s.factor == k * s.factor;
    if s.factor > 0 {
      AlertRoundStep(s, k);
    } else {
      MulMonotone(k, s.factor, 0);
    }
  }

  /** A round between two alert rounds changes nothing but the failure count. */
  lemma {:induction false} QuietStep(a: Alert, s: Settings, n: nat, sent: nat)
    requires Tracks(a, s, n, sent) && n + 1 < AlertRound(s, sent + 1)
    ensures Tracks(Process(a, false), s, n + 1, sent) && !Process(a, false).isSent
  {
  }

  /** At an alert round within the budget the alert is sent. */
  lemma {:induction false} AlertStep(a: Alert, s: Settings, n: nat, sent: nat)
    requires Tracks(a, s, n, sent) && n + 1 == AlertRound(s, sent + 1) && sent < s.maxTimes
    ensures Tracks(Process(a, false), s, n + 1, sent + 1) && Process(a, false).isSent
  {
    var due := a.(isSent := false, failed := n + 1, notified := sent + 1);
    RescheduleHitsNext(due, s, sent + 1);
    AlertRoundsIncrease(s, sent + 1);
    assert Process(a, false) == Reschedule(due).(isSent := true);
  }

  /** From the alert round after the budget on, the machine counts but stays silent. */
  lemma {:induction false} ExhaustedStep(a: Alert, s: Settings, n: nat, sent: nat)
    requires Tracks(a, s, n, sent) && n + 1 >= AlertRound(s, sent + 1) && sent == Max(0, s.maxTimes)
    ensures Tracks(Process(a, false), s, n + 1, sent) && !Process(a, false).isSent
  {
  }

  lemma {:induction false} TracksStep(a: Alert, s: Settings, n: nat, sent: nat)
    requires Tracks(a, s, n, sent)
    ensures var b := Process(a, false);
            Tracks(b, s, n + 1, sent + if b.isSent then 1 else 0)
  {
    if n + 1 < AlertRound(s, sent + 1) {
      QuietStep(a, s, n, sent);
    } else if n + 1 == AlertRound(s, sent + 1) && sent < s.maxTimes {
      AlertStep(a, s, n, sent);
    } else {
      ExhaustedStep(a, s, n, sent);
    }
  }

  lemma {:induction false} FreshTracks(s: Settings)
    ensures Tracks(Fresh(s), s, 0, 0)
  {
    AlertRoundsIncrease(s, 0);
  }

  lemma {:induction false} RunTracks(s: Settings, ups: seq<bool>)
    ensures Tracks(AlertRun(s, ups), s, Trailing(ups, false), SentInStretch(s, ups))
  {
    if ups == [] {
      FreshTracks(s);
    } else {
      var before := ButLast(ups);
      RunTracks(s, before);
      if Last(ups) {
        FreshTracks(s);
      } else {
        TracksStep(AlertRun(s, before), s, Trailing(before, false), SentInStretch(s, before));
      }
    }
  }

  lemma {:induction false} SentMeansDue(a: Alert, s: Settings, n: nat, sent: nat)
    requires Tracks(a, s, n, sent) && a.isSent
    ensures AlertDue(s, n)
  {
    var k := sent;
    assert 1 <= k <= s.maxTimes && AlertRound(s, k) == n;
  }

  lemma {:induction false} DueMeansSent(a: Alert, s: Settings, n: nat, sent: nat, k: nat)
    requires Tracks(a, s, n, sent)
    requires 1 <= k <= s.maxTimes && AlertRound(s, k) == n
    ensures a.isSent
  {
    AlertRoundIndex(s, n, sent, k);
    AlertRoundsIncrease(s, sent);
  }

  // ----- main results

  /**
   For every stream, strategy, factor and budget the machine alerts after a round exactly when the
   length of the current not-up stretch is one of r_1, ..., r_maxTimes.
   */
  lemma {:induction false} ScheduleIsExact(s: Settings, ups: seq<bool>)
    ensures AlertRun(s, ups).isSent <==> AlertDue(s, Trailing(ups, false))
  {
    var a, n, sent := AlertRun(s, ups), Trailing(ups, false), SentInStretch(s, ups);
    RunTracks(s, ups);
    if a.isSent {
      SentMeansDue(a, s, n, sent);
    }
    if AlertDue(s, n) {
      var k: nat :| 1 <= k <= s.maxTimes && AlertRound(s, k) == n;
      DueMeansSent(a, s, n, sent, k);
    }
  }

  /** The number of alerts in a stretch is the number of alert rounds it has passed, capped by the budget. */
  lemma {:induction false} AlertsPassed(s: Settings, ups: seq<bool>, k: nat)
    ensures SentInStretch(s, ups) >= k <==> k <= Max(0, s.maxTimes) && AlertRound(s, k) <= Trailing(ups, false)
  {
    var n := Trailing(ups, false);
    var sent := SentInStretch(s, ups);
    RunTracks(s, ups);
    if k < sent {
      AlertRoundsOrdered(s, k, sent);
    } else if k > sent + 1 {
      AlertRoundsOrdered(s, sent + 1, k);
    }
  }

  /**
   The bookkeeping of the machine after any stream: the failures are the rounds of the stretch, the next round is
   the alert round behind those sent, one interval behind the last of them, and once that round is reached with
   the budget used up every further round is counted as a notification that was not sent.
   */
  lemma {:induction false} BookkeepingOfRun(s: Settings, ups: seq<bool>)
    ensures var a, n, sent := AlertRun(s, ups), Trailing(ups, false), SentInStretch(s, ups);
            && a.failed == n
            && a.notified == sent + Max(0, n + 1 - AlertRound(s, sent + 1))
            && (s.factor > 0 ==> a.next == AlertRound(s, sent + 1))
            && (sent >= 1 ==> a.next == AlertRound(s, sent) + a.interval)
            && (sent == 0 ==> a.next == 1 && a.interval == 0)
  {
    RunTracks(s, ups);
  }

  /** The budget counts as exceeded exactly from the alert round behind the last one it pays for. */
  lemma {:induction false} BudgetExceededIff(s: Settings, ups: seq<bool>)
    ensures AlertRun(s, ups).notified > s.maxTimes
            <==> s.maxTimes < 0 || Trailing(ups, false) >= AlertRound(s, s.maxTimes + 1)
  {
    var sent := SentInStretch(s, ups);
    RunTracks(s, ups);
    if sent < s.maxTimes {
      AlertRoundsOrdered(s, sent + 1, s.maxTimes + 1);
    }
  }

  /** The step of the inequality below, for t == m(m-1)/2 and q == f*t. */
  lemma {:induction false} BernoulliStep(f: int, m: int, t: int, q: int, p: int)
    requires f >= 1 && m >= 1 && t >= m - 1 && q == f * t && p >= 1 + q
    ensures (1 + f) * p >= 1 + f * (t + m)
  {
    MulMonotone(1 + f, 1 + q, p);
    MulMonotone(f, m - 1, t);
    MulMonotone(f, 0, m - 1);
    MulMonotone(q, 1, f);
    assert (1 + f) * (1 + q) == 1 + q + f + q * f;
    assert f * (t + m) == q + f * (m - 1) + f;
  }

  lemma {:induction false} TriangleAtLeast(k: nat)
    ensures k * (k - 1) / 2 >= k - 1
  {
    if k >= 2 {
      assert k * (k - 1) >= 2 * (k - 1);
    }
  }

  /** (1+f)^m >= 1 + f*m(m+1)/2: the exponential schedule is never ahead of the incremental one. */
  lemma {:induction false} SecondOrderBernoulli(f: int, m: nat)
    requires f >= 1
    ensures Pow(1 + f, m) >= 1 + f * ((m + 1) * m / 2)
  {
    if m > 0 {
      SecondOrderBernoulli(f, m - 1);
      Triangle(m);
      TriangleAtLeast(m);
      var t := m * (m - 1) / 2;
      BernoulliStep(f, m, t, f * t, Pow(1 + f, m - 1));
    }
  }

  /** The k-th alert of a slower strategy is never due before that of a faster one. */
  lemma {:induction false} SlowerStrategiesAlertLater(f: int, m: int, k: nat)
    ensures AlertRound(Settings(REGULAR, f, m), k)
         <= AlertRound(Settings(INCREMENT, f, m), k)
         <= AlertRound(Settings(EXPONENTIAL, f, m), k)
  {
    if k >= 1 && f >= 1 {
      var t := k * (k - 1) / 2;
      TriangleAtLeast(k);
      assert f * (k - 1) <= f * t;
      SecondOrderBernoulli(f, k - 1);
    }
  }

  /** On every stream, at every round, the slower back-off has issued at most as many alerts in the stretch. */
  lemma {:induction false} BackoffOrder(f: int, m: int, ups: seq<bool>)
    ensures SentInStretch(Settings(EXPONENTIAL, f, m), ups)
         <= SentInStretch(Settings(INCREMENT, f, m), ups)
         <= SentInStretch(Settings(REGULAR, f, m), ups)
         <= Max(0, m)
  {
    var r, i, e := Settings(REGULAR, f, m), Settings(INCREMENT, f, m), Settings(EXPONENTIAL, f, m);
    var se, si, sr := SentInStretch(e, ups), SentInStretch(i, ups), SentInStretch(r, ups);
    AlertsPassed(e, ups, se);
    SlowerStrategiesAlertLater(f, m, se);
    AlertsPassed(i, ups, se);
    AlertsPassed(i, ups, si);
    SlowerStrategiesAlertLater(f, m, si);
    AlertsPassed(r, ups, si);
    AlertsPassed(r, ups, sr);
  }
}
