/**
 The probers make progress until they take their done tokens: from every reachable state every prober that is still
 running can be taken through any further rounds, and whatever it has produced can be carried to the saver and to
 every channel on its list.
 */
module Serving {
  import opened Runs
  import opened Pipeline
  import opened Protocol
  import opened Delivery
  import opened Shutdown

  // ----- paths

  lemma {:induction false} TailOfConcat<T>(a: seq<T>, b: seq<T>)
    requires a != []
    ensures (a + b)[0] == a[0] && (a + b)[1..] == a[1..] + b
  {
  }

  lemma {:induction false} PathConcat(setup: Setup, s: State, a: seq<Action>, t: State, b: seq<Action>, u: State)
    requires Fits(setup, s) && Path(setup, s, a, t) && Fits(setup, t) && Path(setup, t, b, u)
    ensures Path(setup, s, a + b, u)
    decreases |a|
  {
    if a == [] {
      assert a + b == b;
    } else {
      TailOfConcat(a, b);
      PathConcat(setup, Apply(setup, s, a[0]), a[1..], t, b, u);
    }
  }

  lemma {:induction false} ReachesNext(setup: Setup, actions: seq<Action>, s: State, a: Action)
    requires Reaches(setup, actions, s) && Enabled(setup, s, a)
    ensures Reaches(setup, actions + [a], Apply(setup, s, a))
  {
    assert ButLast(actions + [a]) == actions && Last(actions + [a]) == a;
  }

  lemma {:induction false} MoveFirst<T>(a: seq<T>, b: seq<T>)
    requires b != []
    ensures a + [b[0]] + b[1..] == a + b
  {
  }

  /** A path from a reachable state leads to a reachable state. */
  lemma {:induction false} ReachesPath(setup: Setup, actions: seq<Action>, s: State, more: seq<Action>, t: State)
    requires Reaches(setup, actions, s) && Path(setup, s, more, t)
    ensures Reaches(setup, actions + more, t)
    decreases |more|
  {
    if more == [] {
      assert actions + more == actions;
    } else {
      MoveFirst(actions, more);
      ReachesNext(setup, actions, s, more[0]);
      ReachesPath(setup, actions + [more[0]], Apply(setup, s, more[0]), more[1..], t);
    }
  }

  // ----- draining

  /** The exit has not begun, or still waits for probers. */
  predicate Open(exit: ExitPc) {
    exit.Serving? || exit.Tokens? || exit.AwaitProbers?
  }

  /** Nothing is on its way: all buffers are empty and no prober is sending. */
  ghost predicate Quiet(s: State) {
    && s.saveBuffer == []
    && (forall c :: 0 <= c < |s.channels| ==> s.channels[c].buffer == [])
    && (forall p :: 0 <= p < |s.probers| ==> s.probers[p].pc != Saving && !s.probers[p].pc.Sending?)
  }

  /** The same probers are running, and none has had another round. */
  ghost predicate SameRounds(s: State, t: State) {
    && |t.probers| == |s.probers|
    && (forall p :: 0 <= p < |s.probers| ==> t.probers[p].rounds == s.probers[p].rounds)
    && (forall p :: 0 <= p < |s.probers| ==> (t.probers[p].pc == Exited <==> s.probers[p].pc == Exited))
  }

  /** Actions that carry what has been produced, and start watchers. */
  predicate Carries(a: Action) {
    a.Save? || a.Send? || a.EndSend? || a.Fold? || a.StartWatcher? || a.Consume?
  }

  lemma {:induction false} CarriesKeepsRounds(setup: Setup, s: State, a: Action)
    requires Fits(setup, s) && Enabled(setup, s, a) && Carries(a)
    ensures var t := Apply(setup, s, a);
            t.exit == s.exit && SameRounds(s, t)
  {
  }

  lemma {:induction false} ChannelCanCarry(setup: Setup, s: State, c: nat) returns (a: Action)
    requires Controls(setup, s) && Open(s.exit) && c < |s.channels| && s.channels[c].buffer != []
    ensures Carries(a) && Enabled(setup, s, a)
  {
    a := if s.channels[c].watcher == Starting then StartWatcher(c) else Consume(c);
  }

  lemma {:induction false} ProberCanCarry(setup: Setup, s: State, p: nat) returns (a: Action)
    requires Controls(setup, s) && p < |s.probers| && s.saveBuffer == []
    requires forall c :: 0 <= c < |s.channels| ==> s.channels[c].buffer == []
    requires s.probers[p].pc == Saving || s.probers[p].pc.Sending?
    ensures Carries(a) && Enabled(setup, s, a)
  {
    if s.probers[p].pc == Saving {
      a := Save(p);
    } else if s.probers[p].pc.next == |setup.routes[p]| {
      a := EndSend(p);
    } else {
      RoutedChannelHasRoom(setup, p, s.probers[p].pc.next);
      a := Send(p);
    }
  }

  /** As long as something is on its way, some goroutine can carry it on. */
  lemma {:induction false} SomethingCarries(setup: Setup, s: State) returns (a: Action)
    requires Controls(setup, s) && Open(s.exit) && !Quiet(s)
    ensures Carries(a) && Enabled(setup, s, a)
  {
    if s.saveBuffer != [] {
      a := Fold;
    } else if c: nat :| c < |s.channels| && s.channels[c].buffer != [] {
      a := ChannelCanCarry(setup, s, c);
    } else {
      var p: nat :| p < |s.probers| && (s.probers[p].pc == Saving || s.probers[p].pc.Sending?);
      a := ProberCanCarry(setup, s, p);
    }
  }

  /** Everything that is on its way can be brought to where it goes, without another round and without an exit. */
  lemma {:induction false} Drain(setup: Setup, s: State) returns (actions: seq<Action>, t: State)
    requires Controls(setup, s) && Open(s.exit)
    ensures Path(setup, s, actions, t) && Controls(setup, t) && t.exit == s.exit && Quiet(t) && SameRounds(s, t)
    decreases Work(setup, s)
  {
    WorkNonNegative(setup, s);
    if Quiet(s) {
      actions, t := [], s;
    } else {
      var a := SomethingCarries(setup, s);
      var next := Apply(setup, s, a);
      StepControls(setup, s, a);
      StepWork(setup, s, a);
      WorkNonNegative(setup, next);
      CarriesKeepsRounds(setup, s, a);
      var rest;
      rest, t := Drain(setup, next);
      actions := [a] + rest;
      assert actions[0] == a && actions[1..] == rest;
    }
  }

  // ----- rounds

  /** A prober before a round: its delay or its timer has to run out, or it is about to probe. */
  lemma {:induction false} CanProbe(setup: Setup, s: State, p: nat) returns (actions: seq<Action>, t: State)
    requires Controls(setup, s) && Open(s.exit) && Quiet(s) && p < |s.probers| && s.probers[p].pc != Exited
    ensures Path(setup, s, actions, t) && Controls(setup, t) && t.exit == s.exit && SameRounds(s, t)
    ensures t.probers[p].pc == Probing
  {
    match s.probers[p].pc {
      case Probing =>
        actions, t := [], s;
      case Delaying =>
        actions, t := [WakeUp(p)], Apply(setup, s, WakeUp(p));
        StepControls(setup, s, WakeUp(p));
        assert actions[1..] == [];
      case Waiting =>
        actions, t := [Tick(p)], Apply(setup, s, Tick(p));
        StepControls(setup, s, Tick(p));
        assert actions[1..] == [];
    }
  }

  /** `t` is like `s` after the further rounds `more` of prober `p`. */
  ghost predicate OneProberWentOn(s: State, t: State, p: nat, more: seq<Round>) {
    && |t.probers| == |s.probers| && p < |s.probers|
    && t.probers[p].rounds == s.probers[p].rounds + more
    && (forall k :: 0 <= k < |s.probers| && k != p ==> t.probers[k].rounds == s.probers[k].rounds)
    && (forall k :: 0 <= k < |s.probers| ==> (t.probers[k].pc == Exited <==> s.probers[k].pc == Exited))
  }

  lemma {:induction false} ProbeAddsRound(setup: Setup, s: State, ready: State, p: nat, r: Round, t: State)
    requires Fits(setup, s) && Fits(setup, ready) && Enabled(setup, ready, Probe(p, r))
    requires SameRounds(s, ready) && SameRounds(Apply(setup, ready, Probe(p, r)), t)
    ensures OneProberWentOn(s, t, p, [r])
  {
  }

  lemma {:induction false} RoundWhenReady(setup: Setup, s: State, p: nat, r: Round) returns (actions: seq<Action>, t: State)
    requires Controls(setup, s) && Open(s.exit) && p < |s.probers| && s.probers[p].pc == Probing
    ensures Path(setup, s, actions, t) && Controls(setup, t) && t.exit == s.exit && Quiet(t)
    ensures SameRounds(Apply(setup, s, Probe(p, r)), t)
  {
    var rest;
    StepControls(setup, s, Probe(p, r));
    rest, t := Drain(setup, Apply(setup, s, Probe(p, r)));
    actions := [Probe(p, r)] + rest;
    assert actions[0] == Probe(p, r) && actions[1..] == rest;
  }

  /** One round of one prober, with any outcome, and everything it produces delivered. */
  lemma {:induction false} OneRound(setup: Setup, s: State, p: nat, r: Round) returns (actions: seq<Action>, t: State)
    requires Controls(setup, s) && Open(s.exit) && Quiet(s) && p < |s.probers| && s.probers[p].pc != Exited
    ensures Path(setup, s, actions, t) && Controls(setup, t) && t.exit == s.exit && Quiet(t)
    ensures OneProberWentOn(s, t, p, [r])
  {
    var before, ready := CanProbe(setup, s, p);
    var after;
    after, t := RoundWhenReady(setup, ready, p, r);
    ProbeAddsRound(setup, s, ready, p, r, t);
    PathConcat(setup, s, before, ready, after, t);
    actions := before + after;
  }

  lemma {:induction false} OneRoundMore(s: State, middle: State, t: State, p: nat, more: seq<Round>)
    requires more != [] && OneProberWentOn(s, middle, p, ButLast(more)) && OneProberWentOn(middle, t, p, [Last(more)])
    ensures OneProberWentOn(s, t, p, more)
  {
    assert more == ButLast(more) + [Last(more)];
  }

  lemma {:induction false} ManyRounds(setup: Setup, s: State, p: nat, more: seq<Round>)
    returns (actions: seq<Action>, t: State)
    requires Controls(setup, s) && Open(s.exit) && Quiet(s) && p < |s.probers| && s.probers[p].pc != Exited
    ensures Path(setup, s, actions, t) && t.exit == s.exit && Quiet(t)
    ensures OneProberWentOn(s, t, p, more)
    decreases |more|
  {
    if more == [] {
      actions, t := [], s;
    } else {
      var before, middle := ManyRounds(setup, s, p, ButLast(more));
      PathControls(setup, s, before, middle);
      var last;
      last, t := OneRound(setup, middle, p, Last(more));
      PathConcat(setup, s, before, middle, last, t);
      actions := before + last;
      OneRoundMore(s, middle, t, p, more);
    }
  }

  lemma {:induction false} ManyRoundsIfRunning(setup: Setup, s: State, p: nat, more: seq<Round>)
    returns (actions: seq<Action>, t: State)
    requires Controls(setup, s) && Open(s.exit) && Quiet(s) && p < |s.probers|
    requires s.probers[p].pc == Exited ==> more == []
    ensures Path(setup, s, actions, t) && t.exit == s.exit && Quiet(t)
    ensures OneProberWentOn(s, t, p, more)
  {
    if s.probers[p].pc == Exited {
      actions, t := [], s;
    } else {
      actions, t := ManyRounds(setup, s, p, more);
    }
  }

  /** `t` is like `s` after the further rounds `more[p]` of each of the first `n` probers. */
  ghost predicate WentOn(s: State, t: State, more: seq<seq<Round>>, n: nat) {
    && |t.probers| == |s.probers| == |more| && n <= |more|
    && (forall p :: 0 <= p < n ==> t.probers[p].rounds == s.probers[p].rounds + more[p])
    && (forall p :: n <= p < |more| ==> t.probers[p].rounds == s.probers[p].rounds)
    && (forall p :: 0 <= p < |more| ==> (t.probers[p].pc == Exited <==> s.probers[p].pc == Exited))
  }

  /** No further rounds are asked of probers that have exited. */
  ghost predicate RunningOnly(s: State, more: seq<seq<Round>>) {
    forall p :: 0 <= p < |more| && p < |s.probers| && s.probers[p].pc == Exited ==> more[p] == []
  }

  lemma {:induction false} OneProberMore(s: State, middle: State, t: State, more: seq<seq<Round>>, n: nat)
    requires n < |more| && WentOn(s, middle, more, n) && OneProberWentOn(middle, t, n, more[n])
    ensures WentOn(s, t, more, n + 1)
  {
  }

  lemma {:induction false} AllProbers(setup: Setup, s: State, more: seq<seq<Round>>, n: nat)
    returns (actions: seq<Action>, t: State)
    requires Controls(setup, s) && Open(s.exit) && Quiet(s) && n <= |more| == |s.probers| && RunningOnly(s, more)
    ensures Path(setup, s, actions, t) && t.exit == s.exit && Quiet(t)
    ensures WentOn(s, t, more, n)
    decreases n
  {
    if n == 0 {
      actions, t := [], s;
    } else {
      var before, middle := AllProbers(setup, s, more, n - 1);
      PathControls(setup, s, before, middle);
      var last;
      last, t := ManyRoundsIfRunning(setup, middle, n - 1, more[n - 1]);
      PathConcat(setup, s, before, middle, last, t);
      actions := before + last;
      OneProberMore(s, middle, t, more, n - 1);
    }
  }

  // ----- main results

  /** Everything a prober has produced has been folded by the saver and consumed by each channel on its list. */
  ghost predicate AllDelivered(setup: Setup, s: State)
    requires Fits(setup, s)
  {
    forall p :: 0 <= p < |s.probers| ==>
      var results := Results(setup.configs[p], s.probers[p].rounds);
      && From(s.folded, p) == results
      && forall c :: 0 <= c < |s.channels| && c in setup.routes[p] ==> From(s.channels[c].consumed, p) == results
  }

  lemma {:induction false} QuietIsDelivered(setup: Setup, actions: seq<Action>, s: State)
    requires Reaches(setup, actions, s) && DistinctRoutes(setup) && Quiet(s)
    ensures AllDelivered(setup, s)
  {
    AlwaysDelivers(setup, actions, s);
    forall p | 0 <= p < |s.probers|
      ensures From(s.folded, p) == Results(setup.configs[p], s.probers[p].rounds)
      ensures forall c :: 0 <= c < |s.channels| && c in setup.routes[p] ==>
                From(s.channels[c].consumed, p) == Results(setup.configs[p], s.probers[p].rounds)
    {
      AlwaysRunsAlone(setup, actions, s, p);
      var all := s.probers[p].produced;
      assert all[..|all|] == all;
      assert ProberOk(setup, s, p) && SavedOk(setup, s, p);
      assert s.folded + s.saveBuffer == s.folded;
      forall c | 0 <= c < |s.channels| && c in setup.routes[p]
        ensures From(s.channels[c].consumed, p) == all
      {
        assert SentOk(setup, s, c, p);
        assert s.channels[c].consumed + s.channels[c].buffer == s.channels[c].consumed;
      }
    }
  }

  lemma {:induction false} WentOnFrom(s: State, quiet: State, t: State, more: seq<seq<Round>>, n: nat)
    requires SameRounds(s, quiet) && WentOn(quiet, t, more, n)
    ensures WentOn(s, t, more, n)
  {
  }

  lemma {:induction false} ServingPath(setup: Setup, s: State, more: seq<seq<Round>>) returns (next: seq<Action>, t: State)
    requires Controls(setup, s) && Open(s.exit) && |more| == |s.probers| && RunningOnly(s, more)
    ensures Path(setup, s, next, t) && t.exit == s.exit && Quiet(t) && WentOn(s, t, more, |more|)
  {
    var draining, quiet := Drain(setup, s);
    var serving;
    serving, t := AllProbers(setup, quiet, more, |more|);
    WentOnFrom(s, quiet, t, more, |more|);
    PathConcat(setup, s, draining, quiet, serving, t);
    next := draining + serving;
  }

  /**
   Probing goes on: from every reachable state, also while the exit waits for the probers, whatever rounds the
   running probers are to go through next, some execution takes each of them through exactly these, and delivers
   all their results. A token that is waiting does not stop a prober whose timer runs out first.
   */
  lemma {:induction false} ProbingGoesOn(setup: Setup, actions: seq<Action>, s: State, more: seq<seq<Round>>)
    requires Reaches(setup, actions, s) && DistinctRoutes(setup) && Open(s.exit)
    requires |more| == |s.probers| && RunningOnly(s, more)
    ensures exists next, t :: && Reaches(setup, actions + next, t) && t.exit == s.exit && Quiet(t)
                              && WentOn(s, t, more, |more|) && AllDelivered(setup, t)
  {
    AlwaysControls(setup, actions, s);
    var next, t := ServingPath(setup, s, more);
    ReachesPath(setup, actions, s, next, t);
    QuietIsDelivered(setup, actions + next, t);
  }

  ghost function FreshProbers(configs: seq<Config>): (r: seq<Prober>)
    ensures |r| == |configs|
    ensures forall p :: 0 <= p < |r| ==> r[p] == Prober(Delaying, [], [], Configured(configs[p]))
  {
    if configs == [] then []
    else FreshProbers(ButLast(configs)) + [Prober(Delaying, [], [], Configured(Last(configs)))]
  }

  ghost function Start(setup: Setup): State {
    State(FreshProbers(setup.configs), Repeat(Channel([], [], Starting), setup.channels), [], [], map[], true, 0, Serving)
  }

  ghost predicate Served(setup: Setup, s: State, streams: seq<seq<Round>>) {
    && Fits(setup, s) && s.exit == Serving && AllDelivered(setup, s) && |s.probers| == |streams|
    && forall p :: 0 <= p < |streams| ==> s.probers[p].rounds == streams[p]
  }

  /** From the start, any streams of outcomes, one for each prober, can be probed, saved and watched to their end. */
  lemma {:induction false} AnyStreamsCanBeServed(setup: Setup, streams: seq<seq<Round>>)
    requires WellFormed(setup) && DistinctRoutes(setup) && |streams| == |setup.configs|
    ensures exists actions, s :: Reaches(setup, actions, s) && Served(setup, s, streams)
  {
    var s := Start(setup);
    assert Reaches(setup, [], s);
    ProbingGoesOn(setup, [], s, streams);
    var next, t :| && Reaches(setup, [] + next, t) && t.exit == Serving && Quiet(t)
                   && WentOn(s, t, streams, |streams|) && AllDelivered(setup, t);
    assert Served(setup, t, streams);
  }
}
