/**
 What the watchers of the protocol issue: the messages a channel has consumed are put through the watcher loop,
 and the notifications that come out are, prober by prober, those of its own run alone.
 */
module Notifications {
  import opened Runs
  import opened Pipeline
  import opened Alerting
  import opened Protocol
  import opened Delivery
  import Watcher = Channel

  /** The consumed messages as the events of the watcher loop. */
  function Events(messages: seq<Message>): (r: seq<Watcher.Event>)
    ensures |r| == |messages|
    ensures forall i :: 0 <= i < |r| ==> r[i] == Watcher.Data(messages[i].result)
  {
    if messages == [] then [] else Events(ButLast(messages)) + [Watcher.Data(Last(messages).result)]
  }

  /** The messages that are notified. */
  function NotifiedMessages(messages: seq<Message>): seq<Message> {
    if messages == [] then []
    else if ShouldNotify(Last(messages).result) then NotifiedMessages(ButLast(messages)) + [Last(messages)]
    else NotifiedMessages(ButLast(messages))
  }

  /** Every message to every notifier. */
  function FanOut(notifiers: seq<string>, messages: seq<Message>): seq<Watcher.Notification> {
    if messages == [] then []
    else FanOut(notifiers, ButLast(messages)) + Watcher.ForAll(notifiers, Last(messages).result)
  }

  /** The results of the rounds of a run that the rule on its outcomes notifies. */
  ghost function RuleNotified(cfg: Config, rounds: seq<Round>): seq<Result> {
    if rounds == [] then []
    else if NotifyRule(cfg, Outcomes(rounds)) then RuleNotified(cfg, ButLast(rounds)) + [Run(cfg, rounds)]
    else RuleNotified(cfg, ButLast(rounds))
  }

  // ----- every message is a result of a run

  /** A prefix of the results of a run is the results of a prefix of the run. */
  lemma {:induction false} ResultsOfPrefix(cfg: Config, rounds: seq<Round>, n: nat)
    requires n <= |rounds|
    ensures Results(cfg, rounds)[..n] == Results(cfg, rounds[..n])
  {
    if n == |rounds| {
      assert rounds[..n] == rounds;
    } else {
      ResultsOfPrefix(cfg, ButLast(rounds), n);
      assert ButLast(rounds)[..n] == rounds[..n];
    }
  }

  /** The results of a run are delivered as they are. */
  lemma {:induction false} ResultDeliveredUnchanged(cfg: Config, rounds: seq<Round>, r: Result)
    requires r in Results(cfg, rounds)
    ensures Watcher.Delivered(r) == r
  {
    var i: nat :| i < |rounds| && Results(cfg, rounds)[i] == r;
    ResultsAt(cfg, rounds, i);
    Watcher.RunIsDeliveredUnchanged(cfg, rounds[..i + 1]);
  }

  ghost predicate DeliveredUnchanged(messages: seq<Message>) {
    forall i :: 0 <= i < |messages| ==> Watcher.Delivered(messages[i].result) == messages[i].result
  }

  lemma {:induction false} ConsumedDeliveredUnchanged(setup: Setup, actions: seq<Action>, s: State, c: nat)
    requires Reaches(setup, actions, s) && DistinctRoutes(setup) && c < |s.channels|
    ensures DeliveredUnchanged(s.channels[c].consumed)
  {
    var consumed := s.channels[c].consumed;
    AlwaysKnown(setup, actions, s);
    forall i | 0 <= i < |consumed|
      ensures Watcher.Delivered(consumed[i].result) == consumed[i].result
    {
      assert (consumed + s.channels[c].buffer)[i] == consumed[i];
      var p := consumed[i].prober;
      MessageIsFromItsProber(consumed, i);
      ConsumedIsPrefix(setup, actions, s, c, p);
      AlwaysRunsAlone(setup, actions, s, p);
      ResultDeliveredUnchanged(setup.configs[p], s.probers[p].rounds, consumed[i].result);
    }
  }

  // ----- what the watcher loop makes of them

  /** What the watcher loop issues is the notified messages, each to every notifier, in the order of arrival. */
  lemma {:induction false} IssuedFansOut(notifiers: seq<string>, messages: seq<Message>)
    requires DeliveredUnchanged(messages)
    ensures Watcher.Issued(notifiers, Events(messages)) == FanOut(notifiers, NotifiedMessages(messages))
  {
    if messages != [] {
      IssuedFansOut(notifiers, ButLast(messages));
      assert ButLast(Events(messages)) == Events(ButLast(messages));
    }
  }

  /** The loop handles the consumed messages, whether or not a done signal has followed them. */
  lemma {:induction false} ConsumedIsHandled(messages: seq<Message>, rest: seq<Watcher.Event>)
    requires rest == [] || rest[0].Done?
    ensures Watcher.Handled(Events(messages) + rest) == Events(messages)
  {
    var events := Events(messages) + rest;
    if rest == [] {
      assert events == Events(messages);
      Watcher.HandledAll(events);
    } else {
      Watcher.HandledStep(events, |messages|);
      assert events[|messages|..] == rest && events[..|messages|] == Events(messages);
    }
  }

  /** One prober's share of the notified messages. */
  lemma {:induction false} NotifiedOfProber(messages: seq<Message>, p: nat, cfg: Config, rounds: seq<Round>)
    requires Normalized(cfg) && From(messages, p) == Results(cfg, rounds)
    ensures From(NotifiedMessages(messages), p) == RuleNotified(cfg, rounds)
  {
    if messages != [] {
      var m := Last(messages);
      FromAppend(NotifiedMessages(ButLast(messages)), m, p);
      if m.prober == p {
        assert ButLast(From(messages, p)) == ButLast(Results(cfg, rounds));
        NotifiedOfProber(ButLast(messages), p, cfg, ButLast(rounds));
        NotifiesByRule(cfg, rounds);
      } else {
        NotifiedOfProber(ButLast(messages), p, cfg, rounds);
      }
    }
  }

  /**
   The notifications a watcher issues in the protocol are exactly the consumed messages that call for one, sent
   to every notifier, whatever follows them after a done signal.
   */
  lemma {:induction false} WatcherIssues(setup: Setup, actions: seq<Action>, s: State, c: nat,
                                         notifiers: seq<string>, rest: seq<Watcher.Event>)
    requires Reaches(setup, actions, s) && DistinctRoutes(setup) && c < |s.channels|
    requires rest == [] || rest[0].Done?
    ensures Watcher.Issued(notifiers, Watcher.Handled(Events(s.channels[c].consumed) + rest))
         == FanOut(notifiers, NotifiedMessages(s.channels[c].consumed))
  {
    ConsumedDeliveredUnchanged(setup, actions, s, c);
    ConsumedIsHandled(s.channels[c].consumed, rest);
    IssuedFansOut(notifiers, s.channels[c].consumed);
  }

  /**
   Interleaving independence: whatever the other probers, the other channels and the scheduler do, the results a
   watcher has consumed from a prober are those of the first n rounds of that prober run alone, and the ones
   among them that it notifies are exactly the rounds that the rule picks from their outcomes.
   */
  lemma {:induction false} InterleavingIndependence(setup: Setup, actions: seq<Action>, s: State, c: nat, p: nat)
    requires Reaches(setup, actions, s) && DistinctRoutes(setup) && c < |s.channels| && p < |s.probers|
    ensures var consumed, rounds := s.channels[c].consumed, s.probers[p].rounds;
            var n := |From(consumed, p)|;
            && n <= |rounds|
            && From(consumed, p) == Results(setup.configs[p], rounds[..n])
            && From(NotifiedMessages(consumed), p) == RuleNotified(setup.configs[p], rounds[..n])
  {
    var consumed, rounds := s.channels[c].consumed, s.probers[p].rounds;
    var n := |From(consumed, p)|;
    ConsumedIsPrefix(setup, actions, s, c, p);
    AlwaysRunsAlone(setup, actions, s, p);
    ResultsOfPrefix(setup.configs[p], rounds, n);
    NotifiedOfProber(consumed, p, setup.configs[p], rounds[..n]);
  }
}
