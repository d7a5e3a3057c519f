/**
 The status counter as a function on values: a bounded history of raw outcomes together with the saturated
 length of the current run of equal outcomes.
 */
module CounterSpec {
  import opened Runs

  datatype Entry = Entry(status: bool, message: string)

  datatype Counter = Counter(history: seq<Entry>, maxLen: int, current: bool, count: int)

  function Empty(maxLen: int): Counter {
    Counter([], maxLen, true, 0)
  }

  function Counted(c: Counter, status: bool): Counter {
    var kept := if status != c.current then 0 else c.count;
    c.(current := status, count := if kept < c.maxLen then kept + 1 else kept)
  }

  function Append(c: Counter, e: Entry): Counter {
    var grown := c.history + [e];
    Counted(c, e.status).(history := if |grown| > c.maxLen then grown[1..] else grown)
  }

  function Resize(c: Counter, maxLen: nat): Counter {
    c.(maxLen := maxLen, history := Suffix(c.history, maxLen))
  }

  // ----- arbitrary interleavings of the two operations

  datatype Op = Push(entry: Entry) | SetMaxLen(maxLen: nat)

  function Apply(c: Counter, op: Op): Counter {
    match op
    case Push(e) => Append(c, e)
    case SetMaxLen(n) => Resize(c, n)
  }

  function RunOps(c: Counter, ops: seq<Op>): Counter {
    if ops == [] then c else Apply(RunOps(c, ButLast(ops)), Last(ops))
  }

  /** All entries ever pushed, in order. */
  function Stream(ops: seq<Op>): seq<Entry> {
    if ops == [] then []
    else match Last(ops)
      case Push(e) => Stream(ButLast(ops)) + [e]
      case SetMaxLen(n) => Stream(ButLast(ops))
  }

  /** The bound never grows, except before the first entry, when a probe is configured. */
  ghost predicate Shrinking(c: Counter, ops: seq<Op>) {
    ops == [] ||
    (Shrinking(c, ButLast(ops)) &&
     (Last(ops).SetMaxLen? ==>
        Last(ops).maxLen <= RunOps(c, ButLast(ops)).maxLen || Stream(ButLast(ops)) == []))
  }

  function Statuses(entries: seq<Entry>): (r: seq<bool>)
    ensures |r| == |entries|
    ensures forall i :: 0 <= i < |r| ==> r[i] == entries[i].status
  {
    if entries == [] then [] else Statuses(ButLast(entries)) + [Last(entries).status]
  }

  /** The length of the run of outcomes `v` that ends the entries. */
  function RunLength(entries: seq<Entry>, v: bool): nat {
    Trailing(Statuses(entries), v)
  }

  /** The counter stands for the stream: its history is a suffix and its count the run length, up to `maxLen`. */
  ghost predicate Represents(c: Counter, stream: seq<Entry>) {
    && c.maxLen >= 0
    && c.history == Suffix(stream, c.maxLen)
    && Min(c.count, c.maxLen) == Min(RunLength(stream, c.current), c.maxLen)
    && (if stream == [] then c.count == 0 else c.current == Last(stream).status)
  }

  lemma {:induction false} RunLengthPush(stream: seq<Entry>, e: Entry, v: bool)
    ensures RunLength(stream + [e], v) == if e.status == v then RunLength(stream, v) + 1 else 0
  {
    assert ButLast(Statuses(stream + [e])) == Statuses(stream);
  }

  /** Cutting the entries to the last `n` caps every run at `n`. */
  lemma {:induction false} RunLengthOfSuffix(stream: seq<Entry>, n: nat, v: bool)
    ensures RunLength(Suffix(stream, n), v) == Min(RunLength(stream, v), n)
  {
    assert Statuses(Suffix(stream, n)) == Suffix(Statuses(stream), n);
    TrailingOfSuffix(Statuses(stream), n, v);
  }

  lemma {:induction false} SuffixPush(stream: seq<Entry>, e: Entry, n: nat)
    ensures var grown := Suffix(stream, n) + [e];
            Suffix(stream + [e], n) == if |grown| > n then grown[1..] else grown
  {
  }

  lemma {:induction false} PushKeepsRepresentation(c: Counter, stream: seq<Entry>, e: Entry)
    requires Represents(c, stream)
    ensures Represents(Append(c, e), stream + [e])
  {
    SuffixPush(stream, e, c.maxLen);
    RunLengthPush(stream, e, e.status);
  }

  lemma {:induction false} ResizeKeepsRepresentation(c: Counter, stream: seq<Entry>, n: nat)
    requires Represents(c, stream)
    requires n <= c.maxLen || stream == []
    ensures Represents(Resize(c, n), stream)
  {
  }

  lemma {:induction false} OpsKeepRepresentation(maxLen: nat, ops: seq<Op>)
    requires Shrinking(Empty(maxLen), ops)
    ensures Represents(RunOps(Empty(maxLen), ops), Stream(ops))
  {
    if ops != [] {
      var c, stream := RunOps(Empty(maxLen), ButLast(ops)), Stream(ButLast(ops));
      OpsKeepRepresentation(maxLen, ButLast(ops));
      match Last(ops) {
        case Push(e) => PushKeepsRepresentation(c, stream, e);
        case SetMaxLen(n) => ResizeKeepsRepresentation(c, stream, n);
      }
    }
  }

  // ----- main results

  /**
   Over every interleaving of appends and shrinking resizes the history is the last `maxLen` entries of the
   stream, and the saturated count is the run length of that history.
   */
  lemma {:induction false} CounterRepresentation(maxLen: nat, ops: seq<Op>)
    requires Shrinking(Empty(maxLen), ops)
    ensures var c := RunOps(Empty(maxLen), ops);
            && c.maxLen >= 0
            && c.history == Suffix(Stream(ops), c.maxLen)
            && Min(c.count, c.maxLen) == RunLength(c.history, c.current)
  {
    OpsKeepRepresentation(maxLen, ops);
    var c := RunOps(Empty(maxLen), ops);
    RunLengthOfSuffix(Stream(ops), c.maxLen, c.current);
  }

  /** Comparing the saturated count with a threshold within the bound is comparing the true run length. */
  lemma {:induction false} ThresholdComparisonIsExact(c: Counter, stream: seq<Entry>, threshold: int)
    requires Represents(c, stream) && 1 <= threshold <= c.maxLen
    ensures (c.current && c.count >= threshold) <==> RunLength(stream, true) >= threshold
    ensures (!c.current && c.count >= threshold) <==> RunLength(stream, false) >= threshold
  {
  }

  // ----- changing the bound

  ghost predicate DecidesAt(c: Counter, stream: seq<Entry>, threshold: int) {
    c.count >= threshold <==> RunLength(stream, c.current) >= threshold
  }

  /** Every threshold within the bound decides on the count as it would on the true run length. */
  ghost predicate Decides(c: Counter, stream: seq<Entry>) {
    forall t :: 1 <= t <= c.maxLen ==> DecidesAt(c, stream, t)
  }

  /** Over every interleaving, also with growing bounds, the count never exceeds the run length. */
  ghost predicate Undercounts(c: Counter, stream: seq<Entry>) {
    && 0 <= c.count <= RunLength(stream, c.current)
    && (stream != [] ==> c.current == Last(stream).status)
  }

  lemma {:induction false} PushUndercounts(c: Counter, stream: seq<Entry>, e: Entry)
    requires Undercounts(c, stream)
    ensures Undercounts(Append(c, e), stream + [e])
  {
    RunLengthPush(stream, e, e.status);
  }

  lemma {:induction false} OpsUndercount(maxLen: nat, ops: seq<Op>)
    ensures Undercounts(RunOps(Empty(maxLen), ops), Stream(ops))
  {
    if ops != [] {
      OpsUndercount(maxLen, ButLast(ops));
      if Last(ops).Push? {
        PushUndercounts(RunOps(Empty(maxLen), ButLast(ops)), Stream(ButLast(ops)), Last(ops).entry);
      }
    }
  }

  lemma {:induction false} DecidesIffExact(c: Counter, stream: seq<Entry>)
    requires Undercounts(c, stream)
    ensures Decides(c, stream) <==> c.count == RunLength(stream, c.current) || c.count >= c.maxLen
  {
    if c.count < c.maxLen && c.count < RunLength(stream, c.current) {
      assert !DecidesAt(c, stream, c.count + 1);
    }
  }

  /**
   After any operations at all the thresholds decide right exactly when no outcome of the current run was
   left uncounted, or the count has reached the bound.
   */
  lemma {:induction false} OpsDecideIff(maxLen: nat, ops: seq<Op>)
    ensures var c := RunOps(Empty(maxLen), ops);
            Decides(c, Stream(ops)) <==> c.count == RunLength(Stream(ops), c.current) || c.count >= c.maxLen
  {
    OpsUndercount(maxLen, ops);
    DecidesIffExact(RunOps(Empty(maxLen), ops), Stream(ops));
  }

  /** The operations lead to the counter, with a bound that only shrinks. */
  ghost predicate LeadsTo(maxLen: nat, ops: seq<Op>, c: Counter) {
    Shrinking(Empty(maxLen), ops) && RunOps(Empty(maxLen), ops) == c
  }

  lemma {:induction false} RunOpsPush(c: Counter, ops: seq<Op>, e: Entry)
    ensures RunOps(c, ops + [Push(e)]) == Append(RunOps(c, ops), e)
    ensures Stream(ops + [Push(e)]) == Stream(ops) + [e]
  {
    assert ButLast(ops + [Push(e)]) == ops;
  }

  lemma {:induction false} PushAgain(maxLen: nat, ops: seq<Op>, e: Entry)
    requires Shrinking(Empty(maxLen), ops)
    ensures var more, c := ops + [Push(e)], RunOps(Empty(maxLen), ops);
            LeadsTo(maxLen, more, Append(c, e)) && Stream(more) == Stream(ops) + [e]
  {
    RunOpsPush(Empty(maxLen), ops, e);
    assert ButLast(ops + [Push(e)]) == ops;
  }

  /** A full history of current outcomes, turned by `k` places. */
  function Turned(c: Counter, k: nat): Counter
    requires k <= |c.history|
  {
    c.(history := c.history[k..] + c.history[..k])
  }

  /** A counter that has reached its bound over a history of current outcomes. */
  ghost predicate Saturated(c: Counter) {
    && c.count >= c.maxLen == |c.history|
    && forall i :: 0 <= i < |c.history| ==> c.history[i].status == c.current
  }

  lemma {:induction false} TurnOnce(c: Counter, k: nat)
    requires Saturated(c) && k < |c.history|
    ensures Append(Turned(c, k), c.history[k]) == Turned(c, k + 1)
  {
    var h := c.history;
    var grown := Turned(c, k).history + [h[k]];
    assert grown == [h[k]] + (h[k + 1..] + h[..k + 1]);
  }

  /** Pushing the entries of a saturated history again, the first `k` of them, cannot be seen in the counter. */
  lemma {:induction false} TurnHistory(maxLen: nat, ops: seq<Op>, k: nat) returns (more: seq<Op>)
    requires Shrinking(Empty(maxLen), ops)
    requires var c := RunOps(Empty(maxLen), ops); Saturated(c) && k <= |c.history|
    ensures var c := RunOps(Empty(maxLen), ops);
            && LeadsTo(maxLen, more, Turned(c, k))
            && RunLength(Stream(more), c.current) == RunLength(Stream(ops), c.current) + k
  {
    var c := RunOps(Empty(maxLen), ops);
    if k == 0 {
      more := ops;
      assert Turned(c, 0) == c;
    } else {
      var fewer := TurnHistory(maxLen, ops, k - 1);
      PushAgain(maxLen, fewer, c.history[k - 1]);
      TurnOnce(c, k - 1);
      RunLengthPush(Stream(fewer), c.history[k - 1], c.current);
      more := fewer + [Push(c.history[k - 1])];
    }
  }

  /** Behind a bound of zero nothing of a push can be seen. */
  lemma {:induction false} LongerHiddenRun(maxLen: nat, ops: seq<Op>) returns (more: seq<Op>)
    requires Shrinking(Empty(maxLen), ops)
    requires var c := RunOps(Empty(maxLen), ops); Saturated(c) && c.history == []
    ensures var c := RunOps(Empty(maxLen), ops);
            LeadsTo(maxLen, more, c) && RunLength(Stream(more), c.current) > RunLength(Stream(ops), c.current)
  {
    var c := RunOps(Empty(maxLen), ops);
    var e := Entry(c.current, "");
    PushAgain(maxLen, ops, e);
    assert ([] + [e])[1..] == [];
    RunLengthPush(Stream(ops), e, c.current);
    more := ops + [Push(e)];
  }

  /** The same counter with a longer run behind it. */
  lemma {:induction false} LongerRun(maxLen: nat, ops: seq<Op>) returns (more: seq<Op>)
    requires Shrinking(Empty(maxLen), ops) && Saturated(RunOps(Empty(maxLen), ops))
    ensures var c := RunOps(Empty(maxLen), ops);
            LeadsTo(maxLen, more, c) && RunLength(Stream(more), c.current) > RunLength(Stream(ops), c.current)
  {
    var c := RunOps(Empty(maxLen), ops);
    if c.history == [] {
      more := LongerHiddenRun(maxLen, ops);
    } else {
      more := TurnHistory(maxLen, ops, |c.history|);
      assert Turned(c, |c.history|) == c;
    }
  }

  lemma {:induction false} WholeRun(history: seq<Entry>, v: bool)
    requires RunLength(history, v) >= |history|
    ensures forall i :: 0 <= i < |history| ==> history[i].status == v
  {
    var statuses := Statuses(history);
    TrailingElements(statuses, v);
    assert forall i :: 0 <= i < |history| ==> statuses[i] == v;
  }

  /** Once the count has reached the bound, the history is full of current outcomes. */
  lemma {:induction false} FullCountSaturates(maxLen: nat, ops: seq<Op>)
    requires Shrinking(Empty(maxLen), ops)
    requires var c := RunOps(Empty(maxLen), ops); c.count >= c.maxLen
    ensures Saturated(RunOps(Empty(maxLen), ops))
  {
    var c := RunOps(Empty(maxLen), ops);
    CounterRepresentation(maxLen, ops);
    HistoryFits(Stream(ops), c.maxLen, c.current);
    WholeRun(c.history, c.current);
  }

  lemma {:induction false} HistoryFits(stream: seq<Entry>, n: nat, v: bool)
    ensures RunLength(Suffix(stream, n), v) <= |Suffix(stream, n)| <= n
  {
  }

  /** Growing the bound of this counter is safe, whatever operations have led to it. */
  ghost predicate SafeToGrow(maxLen: nat, c: Counter, n: nat) {
    forall ops :: LeadsTo(maxLen, ops, c) ==> Decides(Resize(c, n), Stream(ops))
  }

  /** After any operations a new bound decides right exactly when the whole run has been counted, or enough of it. */
  lemma {:induction false} ResizeDecidesIff(maxLen: nat, ops: seq<Op>, n: nat)
    ensures var c := RunOps(Empty(maxLen), ops);
            Decides(Resize(c, n), Stream(ops)) <==> c.count == RunLength(Stream(ops), c.current) || c.count >= n
  {
    var c := RunOps(Empty(maxLen), ops);
    OpsUndercount(maxLen, ops);
    DecidesIffExact(Resize(c, n), Stream(ops));
  }

  /**
   Growing the bound after entries have been counted can be told safe from the counter itself exactly when the
   count is below the old bound, or is a leftover of an earlier, larger bound that reaches the new one.
   Otherwise outcomes may have gone uncounted, and the new threshold is reached too late.
   */
  lemma {:induction false} SafeToGrowIff(maxLen: nat, ops: seq<Op>, n: nat)
    requires Shrinking(Empty(maxLen), ops) && n > RunOps(Empty(maxLen), ops).maxLen
    ensures var c := RunOps(Empty(maxLen), ops);
            SafeToGrow(maxLen, c, n) <==> c.count < c.maxLen || c.count >= n
  {
    var c := RunOps(Empty(maxLen), ops);
    if c.count < c.maxLen || c.count >= n {
      forall other | LeadsTo(maxLen, other, c)
        ensures Decides(Resize(c, n), Stream(other))
      {
        OpsKeepRepresentation(maxLen, other);
        ResizeDecidesIff(maxLen, other, n);
      }
    } else {
      FullCountSaturates(maxLen, ops);
      var more := LongerRun(maxLen, ops);
      OpsUndercount(maxLen, ops);
      ResizeDecidesIff(maxLen, more, n);
      assert LeadsTo(maxLen, more, c) && !Decides(Resize(c, n), Stream(more));
    }
  }

  /** Failures behind a bound of one are counted once. */
  lemma {:induction false} FailuresBehindOne(e: Entry, ops: seq<Op>)
    requires !e.status && ops != [] && forall i :: 0 <= i < |ops| ==> ops[i] == Push(e)
    ensures RunOps(Empty(1), ops) == Counter([e], 1, false, 1)
    ensures RunLength(Stream(ops), false) == |ops|
  {
    var before := ButLast(ops);
    assert ops == before + [Push(e)];
    RunOpsPush(Empty(1), before, e);
    RunLengthPush(Stream(before), e, false);
    if before != [] {
      FailuresBehindOne(e, before);
    }
  }

  /** Three failures behind a bound of one count as one: with a new bound of three the Down comes two rounds late. */
  lemma {:induction false} GrowLosesFailures(e: Entry)
    requires !e.status
    ensures var ops := [Push(e), Push(e), Push(e), SetMaxLen(3)];
            && RunOps(Empty(1), ops) == Counter([e], 3, false, 1)
            && RunLength(Stream(ops), false) == 3
  {
    var pushes := [Push(e), Push(e), Push(e)];
    FailuresBehindOne(e, pushes);
    assert ButLast([Push(e), Push(e), Push(e), SetMaxLen(3)]) == pushes;
  }
}
