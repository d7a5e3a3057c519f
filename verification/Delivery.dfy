/**
 What the protocol delivers: in every reachable state each buffer and its reader together hold exactly a prefix
 of every prober's own results, so the watchers and the saver see each prober as if it ran alone.
 */
module Delivery {
  import opened Runs
  import opened Pipeline
  import opened Alerting
  import opened Protocol
  import ResultStore

  /** The results of prober `p` among the messages, in order. */
  function From(messages: seq<Message>, p: nat): seq<Result> {
    if messages == [] then []
    else From(ButLast(messages), p) + if Last(messages).prober == p then [Last(messages).result] else []
  }

  lemma {:induction false} FromAppend(messages: seq<Message>, m: Message, p: nat)
    ensures From(messages + [m], p) == From(messages, p) + if m.prober == p then [m.result] else []
  {
    assert ButLast(messages + [m]) == messages;
  }

  lemma {:induction false} FromConcat(a: seq<Message>, b: seq<Message>, p: nat)
    ensures From(a + b, p) == From(a, p) + From(b, p)
  {
    if b == [] {
      assert a + b == a;
    } else {
      FromConcat(a, ButLast(b), p);
      assert a + b == (a + ButLast(b)) + [Last(b)];
      FromAppend(a + ButLast(b), Last(b), p);
    }
  }

  /** The number of results of a prober that the save channel has accepted. */
  function Accepted(q: Prober): int {
    |q.produced| - if q.pc == Saving then 1 else 0
  }

  /** The number of results of a prober that it has sent to a channel on its list. */
  function Sent(q: Prober, route: seq<nat>, c: nat): int {
    |q.produced| - if q.pc == Saving || (q.pc.Sending? && q.pc.next <= |route| && c !in route[..q.pc.next]) then 1 else 0
  }

  ghost predicate ProberOk(setup: Setup, s: State, p: nat)
    requires Fits(setup, s) && p < |s.probers|
  {
    var q := s.probers[p];
    && (q.pc == Saving || q.pc.Sending? ==> q.produced != [] && q.result == Last(q.produced))
    && (q.pc.Sending? ==> q.pc.next <= |setup.routes[p]|)
  }

  ghost predicate SavedOk(setup: Setup, s: State, p: nat)
    requires Fits(setup, s) && p < |s.probers| && ProberOk(setup, s, p)
  {
    From(s.folded + s.saveBuffer, p) == s.probers[p].produced[..Accepted(s.probers[p])]
  }

  ghost predicate SentOk(setup: Setup, s: State, c: nat, p: nat)
    requires Fits(setup, s) && p < |s.probers| && c < |s.channels| && ProberOk(setup, s, p)
  {
    From(s.channels[c].consumed + s.channels[c].buffer, p) ==
      if c in setup.routes[p] then s.probers[p].produced[..Sent(s.probers[p], setup.routes[p], c)] else []
  }

  /** The messages as the events the saver receives, under the number of the prober. */
  function Saves(messages: seq<Message>): seq<ResultStore.Event<nat>> {
    if messages == [] then []
    else Saves(ButLast(messages)) + [ResultStore.Save(Last(messages).prober, Last(messages).result)]
  }

  ghost predicate Delivers(setup: Setup, s: State) {
    && Fits(setup, s)
    && (forall p :: 0 <= p < |s.probers| ==> ProberOk(setup, s, p) && SavedOk(setup, s, p))
    && (forall c, p :: 0 <= c < |s.channels| && 0 <= p < |s.probers| ==> SentOk(setup, s, c, p))
    && |s.saveBuffer| <= setup.capacity
    && (forall c :: 0 <= c < |s.channels| ==> |s.channels[c].buffer| <= Room(setup, c))
    && s.data == ResultStore.Folded(Saves(s.folded), map[])
  }

  // ----- one step

  /** A prober whose counter moves without a result being produced or sent. */
  lemma {:induction false} PcStep(setup: Setup, s: State, p: nat, pc: ProberPc)
    requires Delivers(setup, s) && p < |s.probers| && DistinctRoutes(setup)
    requires pc.Probing? || pc.Waiting? || pc.Exited?
    requires var before := s.probers[p].pc;
             before.Delaying? || before.Waiting? || before == Sending(|setup.routes[p]|)
    ensures Delivers(setup, SetPc(s, p, pc))
  {
    var t := SetPc(s, p, pc);
    var route := setup.routes[p];
    forall k | 0 <= k < |t.probers|
      ensures ProberOk(setup, t, k) && SavedOk(setup, t, k)
    {
      assert ProberOk(setup, s, k) && SavedOk(setup, s, k);
    }
    assert route[..|route|] == route;
    forall c, k | 0 <= c < |t.channels| && 0 <= k < |t.probers|
      ensures SentOk(setup, t, c, k)
    {
      assert SentOk(setup, s, c, k);
    }
  }

  lemma {:induction false} ProbeStep(setup: Setup, s: State, p: nat, r: Round)
    requires Delivers(setup, s) && Enabled(setup, s, Probe(p, r))
    ensures Delivers(setup, Apply(setup, s, Probe(p, r)))
  {
    RoundStep(setup, s, p, r, Step(setup.configs[p], s.probers[p].result, r));
  }

  /** The new result changes nothing for the readers until it is sent. */
  lemma {:induction false} RoundStep(setup: Setup, s: State, p: nat, r: Round, result: Result)
    requires Delivers(setup, s) && ProberAt(s, p, Probing)
    ensures Delivers(setup, s.(probers := s.probers[p := AfterRound(s.probers[p], r, result)]))
  {
    var t := s.(probers := s.probers[p := AfterRound(s.probers[p], r, result)]);
    var earlier := s.probers[p].produced;
    assert t.probers[p].produced[..|earlier|] == earlier == earlier[..|earlier|];
    forall k | 0 <= k < |t.probers|
      ensures ProberOk(setup, t, k) && SavedOk(setup, t, k)
    {
      assert ProberOk(setup, s, k) && SavedOk(setup, s, k);
    }
    forall c, k | 0 <= c < |t.channels| && 0 <= k < |t.probers|
      ensures SentOk(setup, t, c, k)
    {
      assert SentOk(setup, s, c, k);
    }
  }

  /** A pending result is the last one its prober has produced. */
  lemma {:induction false} PendingIsLast(setup: Setup, s: State, p: nat)
    requires Fits(setup, s) && p < |s.probers| && ProberOk(setup, s, p)
    requires s.probers[p].pc == Saving || s.probers[p].pc.Sending?
    ensures var all := s.probers[p].produced;
            all != [] && all == all[..|all| - 1] + [s.probers[p].result] == all[..|all|]
  {
  }

  lemma {:induction false} SaveStep(setup: Setup, s: State, p: nat)
    requires Delivers(setup, s) && Enabled(setup, s, Save(p))
    ensures Delivers(setup, Apply(setup, s, Save(p)))
  {
    var t := Apply(setup, s, Save(p));
    var m := Message(p, s.probers[p].result);
    PendingIsLast(setup, s, p);
    assert t.folded + t.saveBuffer == (s.folded + s.saveBuffer) + [m];
    forall k | 0 <= k < |t.probers|
      ensures ProberOk(setup, t, k) && SavedOk(setup, t, k)
    {
      assert ProberOk(setup, s, k) && SavedOk(setup, s, k);
      FromAppend(s.folded + s.saveBuffer, m, k);
    }
    forall c, k | 0 <= c < |t.channels| && 0 <= k < |t.probers|
      ensures SentOk(setup, t, c, k)
    {
      assert SentOk(setup, s, c, k);
    }
  }

  /** Sending to channel number `next` adds one result for that channel and none for the others. */
  lemma {:induction false} SentAfter(q: Prober, route: seq<nat>, c: nat, next: nat)
    requires q.pc == Sending(next) && next < |route|
    requires forall i, j :: 0 <= i < j < |route| ==> route[i] != route[j]
    ensures Sent(q.(pc := Sending(next + 1)), route, c) == Sent(q, route, c) + if c == route[next] then 1 else 0
    ensures c == route[next] ==> Sent(q, route, c) == |q.produced| - 1
  {
    assert route[..next + 1] == route[..next] + [route[next]];
  }

  lemma {:induction false} SendStepProber(setup: Setup, s: State, p: nat, k: nat)
    requires Delivers(setup, s) && Enabled(setup, s, Send(p)) && k < |s.probers|
    ensures var t := Apply(setup, s, Send(p));
            ProberOk(setup, t, k) && SavedOk(setup, t, k) && t.probers[k].produced == s.probers[k].produced
  {
    assert ProberOk(setup, s, k) && SavedOk(setup, s, k);
  }

  /** On the channel that is sent to, the prober's last result arrives. */
  lemma {:induction false} SendStepOwn(setup: Setup, s: State, p: nat)
    requires Delivers(setup, s) && Enabled(setup, s, Send(p)) && DistinctRoutes(setup)
    requires ProberOk(setup, Apply(setup, s, Send(p)), p)
    ensures SentOk(setup, Apply(setup, s, Send(p)), setup.routes[p][s.probers[p].pc.next], p)
  {
    var t := Apply(setup, s, Send(p));
    var q, route := s.probers[p], setup.routes[p];
    var c := route[q.pc.next];
    var m, held := Message(p, q.result), s.channels[c].consumed + s.channels[c].buffer;
    assert ProberOk(setup, s, p) && SentOk(setup, s, c, p);
    assert t.channels[c].consumed + t.channels[c].buffer == held + [m];
    FromAppend(held, m, p);
    SentAfter(q, route, c, q.pc.next);
    PendingIsLast(setup, s, p);
  }

  /** And the results of the other probers on it stay. */
  lemma {:induction false} SendStepHere(setup: Setup, s: State, p: nat, k: nat)
    requires Delivers(setup, s) && Enabled(setup, s, Send(p)) && DistinctRoutes(setup) && k < |s.probers|
    requires ProberOk(setup, Apply(setup, s, Send(p)), k)
    ensures SentOk(setup, Apply(setup, s, Send(p)), setup.routes[p][s.probers[p].pc.next], k)
  {
    if k == p {
      SendStepOwn(setup, s, p);
    } else {
      var t := Apply(setup, s, Send(p));
      var c := setup.routes[p][s.probers[p].pc.next];
      var m, held := Message(p, s.probers[p].result), s.channels[c].consumed + s.channels[c].buffer;
      assert ProberOk(setup, s, k) && SentOk(setup, s, c, k);
      assert t.channels[c].consumed + t.channels[c].buffer == held + [m];
      FromAppend(held, m, k);
    }
  }

  /** On every other channel nothing changes. */
  lemma {:induction false} SendStepElsewhere(setup: Setup, s: State, p: nat, c: nat, k: nat)
    requires Delivers(setup, s) && Enabled(setup, s, Send(p)) && DistinctRoutes(setup)
    requires c < |s.channels| && k < |s.probers| && c != setup.routes[p][s.probers[p].pc.next]
    requires ProberOk(setup, Apply(setup, s, Send(p)), k)
    ensures SentOk(setup, Apply(setup, s, Send(p)), c, k)
  {
    assert ProberOk(setup, s, k) && SentOk(setup, s, c, k);
    SentAfter(s.probers[p], setup.routes[p], c, s.probers[p].pc.next);
  }

  lemma {:induction false} SendStep(setup: Setup, s: State, p: nat)
    requires Delivers(setup, s) && Enabled(setup, s, Send(p)) && DistinctRoutes(setup)
    ensures Delivers(setup, Apply(setup, s, Send(p)))
  {
    var t := Apply(setup, s, Send(p));
    forall k | 0 <= k < |t.probers|
      ensures ProberOk(setup, t, k) && SavedOk(setup, t, k)
    {
      SendStepProber(setup, s, p, k);
    }
    forall c, k | 0 <= c < |t.channels| && 0 <= k < |t.probers|
      ensures SentOk(setup, t, c, k)
    {
      if c == setup.routes[p][s.probers[p].pc.next] {
        SendStepHere(setup, s, p, k);
      } else {
        SendStepElsewhere(setup, s, p, c, k);
      }
    }
  }

  lemma {:induction false} SavesAppend(messages: seq<Message>, m: Message)
    ensures ResultStore.Folded(Saves(messages + [m]), map[])
         == ResultStore.Folded(Saves(messages), map[])[m.prober := m.result]
  {
    assert ButLast(messages + [m]) == messages;
    assert ButLast(Saves(messages + [m])) == Saves(messages);
  }

  lemma {:induction false} FoldStep(setup: Setup, s: State)
    requires Delivers(setup, s) && Enabled(setup, s, Fold)
    ensures Delivers(setup, Apply(setup, s, Fold))
  {
    var t := Apply(setup, s, Fold);
    assert t.folded + t.saveBuffer == s.folded + s.saveBuffer;
    SavesAppend(s.folded, s.saveBuffer[0]);
    forall k | 0 <= k < |t.probers|
      ensures ProberOk(setup, t, k) && SavedOk(setup, t, k)
    {
      assert ProberOk(setup, s, k) && SavedOk(setup, s, k);
    }
    forall c, k | 0 <= c < |t.channels| && 0 <= k < |t.probers|
      ensures SentOk(setup, t, c, k)
    {
      assert SentOk(setup, s, c, k);
    }
  }

  /** Any change of channels that keeps what each reader and its buffer hold together. */
  lemma {:induction false} ReaderStep(setup: Setup, s: State, t: State)
    requires Delivers(setup, s) && Fits(setup, t)
    requires t.probers == s.probers && t.folded == s.folded && t.saveBuffer == s.saveBuffer && t.data == s.data
    requires forall c :: 0 <= c < |s.channels| ==>
               && t.channels[c].consumed + t.channels[c].buffer == s.channels[c].consumed + s.channels[c].buffer
               && |t.channels[c].buffer| <= |s.channels[c].buffer|
    ensures Delivers(setup, t)
  {
    forall k | 0 <= k < |t.probers|
      ensures ProberOk(setup, t, k) && SavedOk(setup, t, k)
    {
      assert ProberOk(setup, s, k) && SavedOk(setup, s, k);
    }
    forall c, k | 0 <= c < |t.channels| && 0 <= k < |t.probers|
      ensures SentOk(setup, t, c, k)
    {
      assert SentOk(setup, s, c, k);
    }
  }

  lemma {:induction false} ConsumeStep(setup: Setup, s: State, c: nat)
    requires Delivers(setup, s) && Enabled(setup, s, Consume(c))
    ensures Delivers(setup, Apply(setup, s, Consume(c)))
  {
    var t := Apply(setup, s, Consume(c));
    assert t.channels[c].consumed + t.channels[c].buffer == s.channels[c].consumed + s.channels[c].buffer;
    ReaderStep(setup, s, t);
  }

  lemma {:induction false} TakeTokenStep(setup: Setup, s: State, p: nat)
    requires Delivers(setup, s) && Enabled(setup, s, TakeToken(p)) && DistinctRoutes(setup)
    ensures Delivers(setup, Apply(setup, s, TakeToken(p)))
  {
    PcStep(setup, s, p, Exited);
    ReaderStep(setup, SetPc(s, p, Exited), Apply(setup, s, TakeToken(p)));
  }

  /** Actions of the exit sequence and of watchers that start or stop. */
  predicate IsControl(a: Action) {
    a.StartWatcher? || a.StopWatcher? || a.BeginExit? || a.SendToken? || a.TokensSent? || a.ProbersGone? ||
    a.TellWatcher? || a.WatchersTold? || a.WatchersGone? || a.StopSaver? || a.StopRotate?
  }

  lemma {:induction false} ControlStep(setup: Setup, s: State, a: Action)
    requires Delivers(setup, s) && Enabled(setup, s, a) && IsControl(a)
    ensures Delivers(setup, Apply(setup, s, a))
  {
    var t := Apply(setup, s, a);
    forall c | 0 <= c < |s.channels|
      ensures t.channels[c].consumed == s.channels[c].consumed && t.channels[c].buffer == s.channels[c].buffer
    {
    }
    ReaderStep(setup, s, t);
  }

  /** Every action of every goroutine keeps the delivery invariant. */
  lemma {:induction false} StepDelivers(setup: Setup, s: State, a: Action)
    requires Delivers(setup, s) && Enabled(setup, s, a) && DistinctRoutes(setup)
    ensures Delivers(setup, Apply(setup, s, a))
  {
    if IsControl(a) {
      ControlStep(setup, s, a);
    } else {
      match a {
        case WakeUp(p) => PcStep(setup, s, p, Probing);
        case Probe(p, r) => ProbeStep(setup, s, p, r);
        case Save(p) => SaveStep(setup, s, p);
        case Send(p) => SendStep(setup, s, p);
        case EndSend(p) => PcStep(setup, s, p, Waiting);
        case Tick(p) => PcStep(setup, s, p, Probing);
        case TakeToken(p) => TakeTokenStep(setup, s, p);
        case Fold => FoldStep(setup, s);
        case Consume(c) => ConsumeStep(setup, s, c);
      }
    }
  }

  lemma {:induction false} InitialDelivers(setup: Setup, s: State)
    requires Initial(setup, s)
    ensures Delivers(setup, s)
  {
  }

  /** The invariant holds in every reachable state, whatever the interleaving and the outcomes. */
  lemma {:induction false} AlwaysDelivers(setup: Setup, actions: seq<Action>, s: State)
    requires Reaches(setup, actions, s) && DistinctRoutes(setup)
    ensures Delivers(setup, s)
  {
    if actions == [] {
      InitialDelivers(setup, s);
    } else {
      var before :| Reaches(setup, ButLast(actions), before) && Enabled(setup, before, Last(actions)) &&
                    s == Apply(setup, before, Last(actions));
      AlwaysDelivers(setup, ButLast(actions), before);
      StepDelivers(setup, before, Last(actions));
    }
  }

  // ----- what a prober produces

  /** The results a prober has returned are those of its own outcomes, run alone. */
  ghost predicate RunsAlone(setup: Setup, s: State, p: nat)
    requires Fits(setup, s) && p < |s.probers|
  {
    var q := s.probers[p];
    q.result == Run(setup.configs[p], q.rounds) && q.produced == Results(setup.configs[p], q.rounds)
  }

  lemma {:induction false} RoundRunsAlone(cfg: Config, q: Prober, r: Round)
    requires q.result == Run(cfg, q.rounds) && q.produced == Results(cfg, q.rounds)
    ensures var t := AfterRound(q, r, Step(cfg, q.result, r));
            t.result == Run(cfg, t.rounds) && t.produced == Results(cfg, t.rounds)
  {
    assert ButLast(q.rounds + [r]) == q.rounds;
  }

  lemma {:induction false} StepRunsAlone(setup: Setup, s: State, a: Action, p: nat)
    requires Fits(setup, s) && p < |s.probers| && RunsAlone(setup, s, p) && Enabled(setup, s, a)
    ensures RunsAlone(setup, Apply(setup, s, a), p)
  {
    if a.Probe? && a.p == p {
      RoundRunsAlone(setup.configs[p], s.probers[p], a.round);
    } else {
      var q, t := s.probers[p], Apply(setup, s, a).probers[p];
      assert t.rounds == q.rounds && t.produced == q.produced && t.result == q.result;
    }
  }

  lemma {:induction false} AlwaysRunsAlone(setup: Setup, actions: seq<Action>, s: State, p: nat)
    requires Reaches(setup, actions, s) && p < |s.probers|
    ensures RunsAlone(setup, s, p)
  {
    if actions != [] {
      var before :| Reaches(setup, ButLast(actions), before) && Enabled(setup, before, Last(actions)) &&
                    s == Apply(setup, before, Last(actions));
      AlwaysRunsAlone(setup, ButLast(actions), before, p);
      StepRunsAlone(setup, before, Last(actions), p);
    }
  }

  // ----- when a prober probes

  /** How often the prober has been started: at the end of its delay, and at every tick of its timer. */
  function Starts(actions: seq<Action>, p: nat): nat {
    if actions == [] then 0
    else Starts(ButLast(actions), p) + if Last(actions) == WakeUp(p) || Last(actions) == Tick(p) then 1 else 0
  }

  ghost predicate Started(q: Prober, starts: nat) {
    && |q.rounds| + (if q.pc == Probing then 1 else 0) == starts
    && (q.pc == Delaying <==> starts == 0)
  }

  lemma {:induction false} StepStarts(setup: Setup, s: State, a: Action, p: nat, starts: nat)
    requires Fits(setup, s) && Enabled(setup, s, a) && p < |s.probers| && Started(s.probers[p], starts)
    ensures Started(Apply(setup, s, a).probers[p], starts + if a == WakeUp(p) || a == Tick(p) then 1 else 0)
  {
  }

  /**
   Every end of the delay and every tick of the timer starts exactly one round, and nothing else does: a prober
   that waits or has exited has had a round for each of them, and so at least one.
   */
  lemma {:induction false} RoundsAreStarted(setup: Setup, actions: seq<Action>, s: State, p: nat)
    requires Reaches(setup, actions, s) && p < |s.probers|
    ensures |s.probers[p].rounds| + (if s.probers[p].pc == Probing then 1 else 0) == Starts(actions, p)
    ensures s.probers[p].pc == Delaying <==> Starts(actions, p) == 0
  {
    if actions != [] {
      var before :| Reaches(setup, ButLast(actions), before) && Enabled(setup, before, Last(actions)) &&
                    s == Apply(setup, before, Last(actions));
      RoundsAreStarted(setup, ButLast(actions), before, p);
      StepStarts(setup, before, Last(actions), p, Starts(ButLast(actions), p));
    }
  }

  ghost predicate UnwatchedIsUnread(s: State) {
    forall c :: 0 <= c < |s.channels| ==> s.channels[c].watcher == Starting ==> s.channels[c].consumed == []
  }

  lemma {:induction false} StepUnwatched(setup: Setup, s: State, a: Action)
    requires Fits(setup, s) && Enabled(setup, s, a) && UnwatchedIsUnread(s)
    ensures UnwatchedIsUnread(Apply(setup, s, a))
  {
  }

  /** A channel whose watcher has not taken the flag yet has had nothing consumed. */
  lemma {:induction false} NothingConsumedUnwatched(setup: Setup, actions: seq<Action>, s: State)
    requires Reaches(setup, actions, s)
    ensures UnwatchedIsUnread(s)
  {
    if actions != [] {
      var before :| Reaches(setup, ButLast(actions), before) && Enabled(setup, before, Last(actions)) &&
                    s == Apply(setup, before, Last(actions));
      NothingConsumedUnwatched(setup, ButLast(actions), before);
      StepUnwatched(setup, before, Last(actions));
    }
  }

  // ----- where the messages come from

  ghost predicate Known(messages: seq<Message>, probers: nat) {
    forall i :: 0 <= i < |messages| ==> messages[i].prober < probers
  }

  /** Every message is from one of the probers. */
  ghost predicate AllKnown(s: State) {
    && Known(s.folded + s.saveBuffer, |s.probers|)
    && forall c :: 0 <= c < |s.channels| ==> Known(s.channels[c].consumed + s.channels[c].buffer, |s.probers|)
  }

  lemma {:induction false} SaverStepKnown(setup: Setup, s: State, a: Action)
    requires Fits(setup, s) && Enabled(setup, s, a) && AllKnown(s)
    ensures var t := Apply(setup, s, a); Known(t.folded + t.saveBuffer, |t.probers|)
  {
    var t := Apply(setup, s, a);
    if a.Save? {
      assert t.folded + t.saveBuffer == (s.folded + s.saveBuffer) + [Message(a.p, s.probers[a.p].result)];
    } else {
      assert t.folded + t.saveBuffer == s.folded + s.saveBuffer;
    }
  }

  lemma {:induction false} StepKnown(setup: Setup, s: State, a: Action)
    requires Fits(setup, s) && Enabled(setup, s, a) && AllKnown(s)
    ensures AllKnown(Apply(setup, s, a))
  {
    var t := Apply(setup, s, a);
    SaverStepKnown(setup, s, a);
    forall c | 0 <= c < |t.channels|
      ensures Known(t.channels[c].consumed + t.channels[c].buffer, |t.probers|)
    {
      var held := s.channels[c].consumed + s.channels[c].buffer;
      assert Known(held, |s.probers|);
      if a.Send? && c == setup.routes[a.p][s.probers[a.p].pc.next] {
        assert t.channels[c].consumed + t.channels[c].buffer == held + [Message(a.p, s.probers[a.p].result)];
      } else {
        assert t.channels[c].consumed + t.channels[c].buffer == held;
      }
    }
  }

  lemma {:induction false} AlwaysKnown(setup: Setup, actions: seq<Action>, s: State)
    requires Reaches(setup, actions, s)
    ensures AllKnown(s)
  {
    if actions != [] {
      var before :| Reaches(setup, ButLast(actions), before) && Enabled(setup, before, Last(actions)) &&
                    s == Apply(setup, before, Last(actions));
      AlwaysKnown(setup, ButLast(actions), before);
      StepKnown(setup, before, Last(actions));
    }
  }

  lemma {:induction false} MessageIsFromItsProber(messages: seq<Message>, i: nat)
    requires i < |messages|
    ensures messages[i].result in From(messages, messages[i].prober)
  {
    if i < |messages| - 1 {
      MessageIsFromItsProber(ButLast(messages), i);
    }
  }

  // ----- main results

  lemma {:induction false} HeadOfTaken<T>(a: seq<T>, b: seq<T>, all: seq<T>, k: nat)
    requires k <= |all| && a + b == all[..k]
    ensures a <= all
  {
    assert a == (a + b)[..|a|];
  }

  lemma {:induction false} HeldIsPrefix(setup: Setup, s: State, c: nat, p: nat)
    requires Delivers(setup, s) && c < |s.channels| && p < |s.probers|
    ensures From(s.channels[c].consumed, p) <= s.probers[p].produced
    ensures c !in setup.routes[p] ==> From(s.channels[c].consumed, p) == []
  {
    assert ProberOk(setup, s, p) && SentOk(setup, s, c, p);
    FromConcat(s.channels[c].consumed, s.channels[c].buffer, p);
    if c in setup.routes[p] {
      HeadOfTaken(From(s.channels[c].consumed, p), From(s.channels[c].buffer, p), s.probers[p].produced,
                  Sent(s.probers[p], setup.routes[p], c));
    }
  }

  lemma {:induction false} ConsumedIsPrefix(setup: Setup, actions: seq<Action>, s: State, c: nat, p: nat)
    requires Reaches(setup, actions, s) && DistinctRoutes(setup) && c < |s.channels| && p < |s.probers|
    ensures From(s.channels[c].consumed, p) <= s.probers[p].produced
    ensures c !in setup.routes[p] ==> From(s.channels[c].consumed, p) == []
  {
    AlwaysDelivers(setup, actions, s);
    HeldIsPrefix(setup, s, c, p);
  }

  /**
   The decision on the i-th result a watcher has consumed from a prober depends only on that prober's first
   i + 1 outcomes, and is the one the rule gives.
   */
  lemma {:induction false} WatcherDecidesByRule(setup: Setup, actions: seq<Action>, s: State, c: nat, p: nat, i: nat)
    requires Reaches(setup, actions, s) && DistinctRoutes(setup) && c < |s.channels| && p < |s.probers|
    requires i < |From(s.channels[c].consumed, p)|
    ensures i < |s.probers[p].rounds|
    ensures ShouldNotify(From(s.channels[c].consumed, p)[i])
            <==> NotifyRule(setup.configs[p], Outcomes(s.probers[p].rounds[..i + 1]))
  {
    ConsumedIsPrefix(setup, actions, s, c, p);
    AlwaysRunsAlone(setup, actions, s, p);
    ResultsAt(setup.configs[p], s.probers[p].rounds, i);
    NotifiesByRule(setup.configs[p], s.probers[p].rounds[..i + 1]);
  }

  /** The last result saved for a prober is the last of its messages. */
  lemma {:induction false} LastSavedIsLast(messages: seq<Message>, p: nat)
    ensures ResultStore.LastSaved(Saves(messages), p)
         == if From(messages, p) == [] then [] else [Last(From(messages, p))]
  {
    if messages != [] {
      LastSavedIsLast(ButLast(messages), p);
      assert ButLast(Saves(messages)) == Saves(ButLast(messages));
    }
  }

  /**
   Saver conservation: what the saver has folded and what its buffer still holds are together exactly the
   results accepted from each prober, in order, all of them unless one is just being sent; the buffer stays
   within its capacity, and the saved entry of a prober is its last folded result.
   */
  lemma {:induction false} SaverConservation(setup: Setup, actions: seq<Action>, s: State, p: nat)
    requires Reaches(setup, actions, s) && DistinctRoutes(setup) && p < |s.probers|
    ensures s.probers[p].produced == Results(setup.configs[p], s.probers[p].rounds)
    ensures ProberOk(setup, s, p)
    ensures From(s.folded, p) + From(s.saveBuffer, p) == s.probers[p].produced[..Accepted(s.probers[p])]
    ensures |s.saveBuffer| <= setup.capacity
    ensures p in s.data <==> From(s.folded, p) != []
    ensures p in s.data ==> s.data[p] == Last(From(s.folded, p))
  {
    AlwaysDelivers(setup, actions, s);
    AlwaysRunsAlone(setup, actions, s, p);
    assert ProberOk(setup, s, p) && SavedOk(setup, s, p);
    FromConcat(s.folded, s.saveBuffer, p);
    LastSavedIsLast(s.folded, p);
    ResultStore.StoreHoldsTheLatest(Saves(s.folded), map[], p);
  }

  /** A result is handed to the saver before any channel gets it. */
  lemma {:induction false} SavedBeforeSent(setup: Setup, actions: seq<Action>, s: State, c: nat, p: nat)
    requires Reaches(setup, actions, s) && DistinctRoutes(setup) && c < |s.channels| && p < |s.probers|
    ensures From(s.channels[c].consumed + s.channels[c].buffer, p) <= From(s.folded + s.saveBuffer, p)
  {
    AlwaysDelivers(setup, actions, s);
    assert ProberOk(setup, s, p) && SavedOk(setup, s, p) && SentOk(setup, s, c, p);
  }

  lemma {:induction false} FromBounded(messages: seq<Message>, p: nat)
    ensures |From(messages, p)| <= |messages|
  {
    if messages != [] {
      FromBounded(ButLast(messages), p);
    }
  }

  /**
   Shutdown may leave results behind: select picks freely between data and the done signal. But once a prober
   has exited, every channel on its list has been sent all of its results, and the saver and each of these
   channels have missed at most as many of them as their buffers hold.
   */
  lemma {:induction false} LeftBehindIsBounded(setup: Setup, actions: seq<Action>, s: State, p: nat)
    requires Reaches(setup, actions, s) && DistinctRoutes(setup) && p < |s.probers| && s.probers[p].pc == Exited
    ensures From(s.folded + s.saveBuffer, p) == Results(setup.configs[p], s.probers[p].rounds)
    ensures |s.probers[p].rounds| - |From(s.folded, p)| <= setup.capacity
    ensures forall c :: 0 <= c < |s.channels| && c in setup.routes[p] ==>
              && From(s.channels[c].consumed + s.channels[c].buffer, p) == Results(setup.configs[p], s.probers[p].rounds)
              && |s.probers[p].rounds| - |From(s.channels[c].consumed, p)| <= |Listing(setup, c)|
  {
    AlwaysDelivers(setup, actions, s);
    AlwaysRunsAlone(setup, actions, s, p);
    var all := s.probers[p].produced;
    assert all[..|all|] == all;
    assert ProberOk(setup, s, p) && SavedOk(setup, s, p);
    FromConcat(s.folded, s.saveBuffer, p);
    FromBounded(s.saveBuffer, p);
    forall c | 0 <= c < |s.channels| && c in setup.routes[p]
      ensures From(s.channels[c].consumed + s.channels[c].buffer, p) == all
      ensures |all| - |From(s.channels[c].consumed, p)| <= |Listing(setup, c)|
    {
      assert SentOk(setup, s, c, p);
      FromConcat(s.channels[c].consumed, s.channels[c].buffer, p);
      FromBounded(s.channels[c].buffer, p);
    }
  }
}
