/**
 What the capacities of the buffers are good for: one round of every prober fits into them without any reader. It
 follows that the bounds on what an exit may leave behind are reached.
 */
module Capacities {
  import opened Runs
  import opened Pipeline
  import opened Protocol
  import opened Delivery
  import opened Shutdown
  import opened Serving

  // ----- counting messages by their probers

  ghost predicate AtMostOneEach(messages: seq<Message>) {
    forall p: nat :: |From(messages, p)| <= 1
  }

  lemma {:induction false} OneEachButLast(messages: seq<Message>)
    requires messages != [] && AtMostOneEach(messages)
    ensures AtMostOneEach(ButLast(messages))
    ensures forall i :: 0 <= i < |messages| - 1 ==> messages[i].prober != Last(messages).prober
  {
    forall p: nat
      ensures |From(ButLast(messages), p)| <= 1
    {
      assert |From(messages, p)| <= 1;
    }
    var p := Last(messages).prober;
    assert |From(messages, p)| <= 1;
    assert From(ButLast(messages), p) == [];
    forall i | 0 <= i < |messages| - 1
      ensures messages[i].prober != p
    {
      MessageIsFromItsProber(ButLast(messages), i);
    }
  }

  /** Messages of different probers are at most as many as the probers. */
  lemma {:induction false} AsManyAsProbers(messages: seq<Message>, probers: set<int>)
    requires AtMostOneEach(messages) && forall i :: 0 <= i < |messages| ==> messages[i].prober in probers
    ensures |messages| <= |probers|
  {
    if messages != [] {
      OneEachButLast(messages);
      AsManyAsProbers(ButLast(messages), probers - {Last(messages).prober});
    }
  }

  lemma {:induction false} FromUnknown(messages: seq<Message>, n: nat, p: nat)
    requires Known(messages, n) && p >= n
    ensures From(messages, p) == []
  {
    if messages != [] {
      FromUnknown(ButLast(messages), n, p);
    }
  }

  ghost predicate FirstRounds(s: State) {
    forall p :: 0 <= p < |s.probers| ==> |s.probers[p].rounds| <= 1
  }

  lemma {:induction false} ProducedOnce(setup: Setup, actions: seq<Action>, s: State, p: nat)
    requires Reaches(setup, actions, s) && FirstRounds(s) && p < |s.probers|
    ensures |s.probers[p].produced| == |s.probers[p].rounds| <= 1
  {
    AlwaysRunsAlone(setup, actions, s, p);
  }

  /** What of a channel's or the saver's messages is still in the buffer is at most one for each prober. */
  lemma {:induction false} BufferOneEach(read: seq<Message>, buffer: seq<Message>)
    requires AtMostOneEach(read + buffer)
    ensures AtMostOneEach(buffer)
  {
    forall p: nat
      ensures |From(buffer, p)| <= 1
    {
      FromConcat(read, buffer, p);
      assert |From(read + buffer, p)| <= 1;
    }
  }

  lemma {:induction false} SavedOnceEach(setup: Setup, actions: seq<Action>, s: State)
    requires Reaches(setup, actions, s) && DistinctRoutes(setup) && FirstRounds(s)
    ensures AtMostOneEach(s.folded + s.saveBuffer)
  {
    AlwaysDelivers(setup, actions, s);
    AlwaysKnown(setup, actions, s);
    forall p: nat
      ensures |From(s.folded + s.saveBuffer, p)| <= 1
    {
      if p < |s.probers| {
        ProducedOnce(setup, actions, s, p);
        assert ProberOk(setup, s, p) && SavedOk(setup, s, p);
      } else {
        FromUnknown(s.folded + s.saveBuffer, |s.probers|, p);
      }
    }
  }

  lemma {:induction false} SentOnceEach(setup: Setup, actions: seq<Action>, s: State, c: nat)
    requires Reaches(setup, actions, s) && DistinctRoutes(setup) && FirstRounds(s) && c < |s.channels|
    ensures AtMostOneEach(s.channels[c].consumed + s.channels[c].buffer)
  {
    AlwaysDelivers(setup, actions, s);
    AlwaysKnown(setup, actions, s);
    var held := s.channels[c].consumed + s.channels[c].buffer;
    forall p: nat
      ensures |From(held, p)| <= 1
    {
      if p < |s.probers| {
        ProducedOnce(setup, actions, s, p);
        assert ProberOk(setup, s, p) && SentOk(setup, s, c, p);
      } else {
        FromUnknown(held, |s.probers|, p);
      }
    }
  }

  /** A message that is not among those of a prober is not from that prober. */
  lemma {:induction false} NotFrom(messages: seq<Message>, p: nat, i: nat)
    requires i < |messages| && From(messages, p) == []
    ensures messages[i].prober != p
  {
    MessageIsFromItsProber(messages, i);
  }

  function Below(n: nat): (r: set<int>)
    ensures |r| == n && forall k :: k in r <==> 0 <= k < n
  {
    if n == 0 then {} else Below(n - 1) + {n - 1}
  }

  // ----- first rounds never block

  lemma {:induction false} SaveHasRoom(setup: Setup, actions: seq<Action>, s: State, p: nat)
    requires Reaches(setup, actions, s) && DistinctRoutes(setup) && FirstRounds(s)
    requires p < |s.probers| && s.probers[p].pc == Saving
    ensures Enabled(setup, s, Save(p))
  {
    AlwaysDelivers(setup, actions, s);
    AlwaysKnown(setup, actions, s);
    SavedOnceEach(setup, actions, s);
    ProducedOnce(setup, actions, s, p);
    BufferOneEach(s.folded, s.saveBuffer);
    assert ProberOk(setup, s, p) && SavedOk(setup, s, p);
    var held := s.folded + s.saveBuffer;
    forall i | 0 <= i < |s.saveBuffer|
      ensures s.saveBuffer[i].prober in Below(|s.probers|) - {p}
    {
      assert held[|s.folded| + i] == s.saveBuffer[i];
      NotFrom(held, p, |s.folded| + i);
    }
    AsManyAsProbers(s.saveBuffer, Below(|s.probers|) - {p});
  }

  /** Before its first result has been sent to a channel, the channel holds none of the prober. */
  lemma {:induction false} NothingSentYet(setup: Setup, actions: seq<Action>, s: State, p: nat)
    requires Reaches(setup, actions, s) && DistinctRoutes(setup) && FirstRounds(s)
    requires p < |s.probers| && s.probers[p].pc.Sending? && s.probers[p].pc.next < |setup.routes[p]|
    ensures var ch := s.channels[setup.routes[p][s.probers[p].pc.next]];
            From(ch.consumed + ch.buffer, p) == []
  {
    AlwaysDelivers(setup, actions, s);
    ProducedOnce(setup, actions, s, p);
    var q, route := s.probers[p], setup.routes[p];
    assert ProberOk(setup, s, p) && SentOk(setup, s, route[q.pc.next], p);
    SentAfter(q, route, route[q.pc.next], q.pc.next);
  }

  lemma {:induction false} SenderIsListed(setup: Setup, actions: seq<Action>, s: State, c: nat, i: nat)
    requires Reaches(setup, actions, s) && DistinctRoutes(setup) && c < |s.channels| && i < |s.channels[c].buffer|
    ensures s.channels[c].buffer[i].prober in Listing(setup, c)
  {
    AlwaysDelivers(setup, actions, s);
    AlwaysKnown(setup, actions, s);
    var ch := s.channels[c];
    var held := ch.consumed + ch.buffer;
    var p := ch.buffer[i].prober;
    assert held[|ch.consumed| + i] == ch.buffer[i];
    assert Known(held, |s.probers|);
    MessageIsFromItsProber(held, |ch.consumed| + i);
    assert ProberOk(setup, s, p) && SentOk(setup, s, c, p);
  }

  lemma {:induction false} SendHasRoom(setup: Setup, actions: seq<Action>, s: State, p: nat)
    requires Reaches(setup, actions, s) && DistinctRoutes(setup) && FirstRounds(s)
    requires p < |s.probers| && s.probers[p].pc.Sending? && s.probers[p].pc.next < |setup.routes[p]|
    ensures Enabled(setup, s, Send(p))
  {
    var c := setup.routes[p][s.probers[p].pc.next];
    var ch := s.channels[c];
    var held := ch.consumed + ch.buffer;
    SentOnceEach(setup, actions, s, c);
    BufferOneEach(ch.consumed, ch.buffer);
    NothingSentYet(setup, actions, s, p);
    forall i | 0 <= i < |ch.buffer|
      ensures ch.buffer[i].prober in Listing(setup, c) - {p}
    {
      SenderIsListed(setup, actions, s, c, i);
      assert held[|ch.consumed| + i] == ch.buffer[i];
      NotFrom(held, p, |ch.consumed| + i);
    }
    AsManyAsProbers(ch.buffer, Listing(setup, c) - {p});
    assert p in Listing(setup, c);
  }

  /**
   In their first rounds the probers never have to wait for a reader: however little the saver and the watchers
   have read, the next send finds room.
   */
  lemma {:induction false} FirstRoundsNeverBlock(setup: Setup, actions: seq<Action>, s: State, p: nat)
    requires Reaches(setup, actions, s) && DistinctRoutes(setup) && FirstRounds(s) && p < |s.probers|
    ensures s.probers[p].pc == Saving ==> Enabled(setup, s, Save(p))
    ensures s.probers[p].pc.Sending? ==> Enabled(setup, s, Send(p)) || Enabled(setup, s, EndSend(p))
  {
    if s.probers[p].pc == Saving {
      SaveHasRoom(setup, actions, s, p);
    } else if s.probers[p].pc.Sending? {
      AlwaysControls(setup, actions, s);
      if s.probers[p].pc.next < |setup.routes[p]| {
        SendHasRoom(setup, actions, s, p);
      }
    }
  }

  // ----- an execution that reads nothing

  ghost predicate Unread(s: State) {
    s.folded == [] && forall c :: 0 <= c < |s.channels| ==> s.channels[c].consumed == []
  }

  /** Each prober has had the one round given. */
  ghost predicate OneRoundEach(s: State, outcomes: seq<Round>) {
    |s.probers| == |outcomes| && forall p :: 0 <= p < |outcomes| ==> s.probers[p].rounds == [outcomes[p]]
  }

  /** Every prober is sending or waits after a round. */
  ghost predicate Busy(s: State) {
    forall p :: 0 <= p < |s.probers| ==>
      s.probers[p].pc == Saving || s.probers[p].pc.Sending? || s.probers[p].pc == Waiting
  }

  predicate IsSending(a: Action) {
    a.Save? || a.Send? || a.EndSend?
  }

  lemma {:induction false} SendingReadsNothing(setup: Setup, s: State, a: Action, outcomes: seq<Round>)
    requires Fits(setup, s) && Enabled(setup, s, a) && IsSending(a)
    requires Unread(s) && Busy(s) && OneRoundEach(s, outcomes)
    ensures var t := Apply(setup, s, a); Unread(t) && Busy(t) && OneRoundEach(t, outcomes) && t.exit == s.exit
  {
  }

  /** All sends of the first rounds, without a reader. */
  lemma {:induction false} SendAll(setup: Setup, actions: seq<Action>, s: State, outcomes: seq<Round>)
    returns (more: seq<Action>, t: State)
    requires Reaches(setup, actions, s) && DistinctRoutes(setup)
    requires Unread(s) && Busy(s) && OneRoundEach(s, outcomes) && s.exit == Serving
    ensures Reaches(setup, more, t) && Unread(t) && Resting(t) && OneRoundEach(t, outcomes) && t.exit == Serving
    decreases Work(setup, s)
  {
    AlwaysControls(setup, actions, s);
    WorkNonNegative(setup, s);
    if p: nat :| p < |s.probers| && s.probers[p].pc != Waiting {
      FirstRoundsNeverBlock(setup, actions, s, p);
      var a := if s.probers[p].pc == Saving then Save(p) else if Enabled(setup, s, Send(p)) then Send(p) else EndSend(p);
      SendingReadsNothing(setup, s, a, outcomes);
      StepWork(setup, s, a);
      ReachesNext(setup, actions, s, a);
      more, t := SendAll(setup, actions + [a], Apply(setup, s, a), outcomes);
    } else {
      more, t := actions, s;
    }
  }

  /** The first `n` probers have probed and are about to save, the others are still delayed. */
  ghost predicate Woken(setup: Setup, s: State, outcomes: seq<Round>, n: nat) {
    && Fits(setup, s) && |s.probers| == |outcomes| && n <= |outcomes| && Unread(s) && s.exit == Serving
    && (forall p :: 0 <= p < n ==> s.probers[p].pc == Saving && s.probers[p].rounds == [outcomes[p]])
    && (forall p :: n <= p < |outcomes| ==> s.probers[p].pc == Delaying && s.probers[p].rounds == [])
  }

  lemma {:induction false} WokenNext(setup: Setup, s: State, outcomes: seq<Round>, n: nat)
    requires Woken(setup, s, outcomes, n) && n < |outcomes|
    ensures Enabled(setup, s, WakeUp(n)) && Enabled(setup, Apply(setup, s, WakeUp(n)), Probe(n, outcomes[n]))
    ensures Woken(setup, Apply(setup, Apply(setup, s, WakeUp(n)), Probe(n, outcomes[n])), outcomes, n + 1)
  {
  }

  lemma {:induction false} WakeOne(setup: Setup, actions: seq<Action>, s: State, outcomes: seq<Round>, n: nat)
    returns (more: seq<Action>, t: State)
    requires Reaches(setup, actions, s) && Woken(setup, s, outcomes, n) && n < |outcomes|
    ensures Reaches(setup, more, t) && Woken(setup, t, outcomes, n + 1)
  {
    var awake := Apply(setup, s, WakeUp(n));
    WokenNext(setup, s, outcomes, n);
    ReachesNext(setup, actions, s, WakeUp(n));
    ReachesNext(setup, actions + [WakeUp(n)], awake, Probe(n, outcomes[n]));
    more, t := actions + [WakeUp(n)] + [Probe(n, outcomes[n])], Apply(setup, awake, Probe(n, outcomes[n]));
  }

  lemma {:induction false} WakeAll(setup: Setup, outcomes: seq<Round>, n: nat) returns (actions: seq<Action>, s: State)
    requires WellFormed(setup) && n <= |outcomes| == |setup.configs|
    ensures Reaches(setup, actions, s) && Woken(setup, s, outcomes, n)
    decreases n
  {
    if n == 0 {
      actions, s := [], Start(setup);
    } else {
      var before, t := WakeAll(setup, outcomes, n - 1);
      actions, s := WakeOne(setup, before, t, outcomes, n - 1);
    }
  }

  lemma {:induction false} RestingReadsNothing(setup: Setup, s: State, a: Action, outcomes: seq<Round>)
    requires Fits(setup, s) && Enabled(setup, s, a) && !a.Fold? && !a.Consume? && !a.Tick?
    requires Unread(s) && Resting(s) && OneRoundEach(s, outcomes)
    ensures var t := Apply(setup, s, a); Unread(t) && Resting(t) && OneRoundEach(t, outcomes)
  {
  }

  /** The exit runs to its end without anything being read. */
  lemma {:induction false} ExitUnread(setup: Setup, actions: seq<Action>, s: State, outcomes: seq<Round>)
    returns (more: seq<Action>, t: State)
    requires Reaches(setup, actions, s) && !s.exit.Serving?
    requires Unread(s) && Resting(s) && OneRoundEach(s, outcomes)
    ensures Reaches(setup, more, t) && t.exit == Finished && Unread(t) && OneRoundEach(t, outcomes)
    decreases Work(setup, s)
  {
    AlwaysControls(setup, actions, s);
    WorkNonNegative(setup, s);
    if s.exit.Finished? {
      more, t := actions, s;
    } else {
      var a := ExitAdvancesSomehow(setup, s);
      RestingReadsNothing(setup, s, a, outcomes);
      ReachesNext(setup, actions, s, a);
      more, t := ExitUnread(setup, actions + [a], Apply(setup, s, a), outcomes);
    }
  }

  /**
   Nothing at all need be read: for every set of probers and whatever their first outcomes, some execution sends
   one result of each of them to the saver and to its channels and comes to the end of the exit with all of them
   left behind in the buffers.
   */
  lemma {:induction false} ExitMayLeaveEverything(setup: Setup, outcomes: seq<Round>)
    requires WellFormed(setup) && DistinctRoutes(setup) && |outcomes| == |setup.configs|
    ensures exists actions, t :: Reaches(setup, actions, t) && t.exit == Finished && Unread(t) && OneRoundEach(t, outcomes)
  {
    var waking, woken := WakeAll(setup, outcomes, |outcomes|);
    var sending, sent := SendAll(setup, waking, woken, outcomes);
    ReachesNext(setup, sending, sent, BeginExit);
    var more, t := ExitUnread(setup, sending + [BeginExit], Apply(setup, sent, BeginExit), outcomes);
  }
}
