/**
 The exit sequence never deadlocks: its done signals never block for good, no result is sent to a channel whose
 watcher has been told to stop, and from every reachable state after the exit has begun the program can run to
 the end in a bounded number of steps.
 */
module Shutdown {
  import opened Runs
  import opened Pipeline
  import opened Protocol

  function ExitedCount(probers: seq<Prober>): (n: nat)
    ensures n <= |probers|
  {
    if probers == [] then 0
    else ExitedCount(ButLast(probers)) + if Last(probers).pc == Exited then 1 else 0
  }

  lemma {:induction false} ExitedCountUpdate(probers: seq<Prober>, p: nat, q: Prober)
    requires p < |probers|
    ensures ExitedCount(probers[p := q])
         == ExitedCount(probers) - (if probers[p].pc == Exited then 1 else 0) + (if q.pc == Exited then 1 else 0)
  {
    if p == |probers| - 1 {
      assert ButLast(probers[p := q]) == ButLast(probers);
    } else {
      assert ButLast(probers[p := q]) == ButLast(probers)[p := q];
      ExitedCountUpdate(ButLast(probers), p, q);
    }
  }

  lemma {:induction false} AllExitedCount(probers: seq<Prober>)
    ensures ExitedCount(probers) == |probers| <==> forall p :: 0 <= p < |probers| ==> probers[p].pc == Exited
  {
    if probers != [] {
      AllExitedCount(ButLast(probers));
      assert forall p :: 0 <= p < |probers| - 1 ==> ButLast(probers)[p] == probers[p];
    }
  }

  /** The number of done tokens sent to the probers so far. */
  function TokensSentBy(exit: ExitPc, probers: nat): nat {
    match exit
    case Serving => 0
    case Tokens(sent) => sent
    case _ => probers
  }

  predicate ProbersDone(exit: ExitPc) {
    !(exit.Serving? || exit.Tokens? || exit.AwaitProbers?)
  }

  /** The watchers that have not been told to stop yet are starting or watching, and no others. */
  ghost predicate WatchersOk(s: State) {
    forall c {:trigger s.channels[c]} :: 0 <= c < |s.channels| ==>
      var w := s.channels[c].watcher;
      match s.exit
      case TellWatchers(rest) => (w == Starting || w == Watching) == (c in rest)
      case AwaitWatchers => w == Leaving || w == Stopped
      case TellSaver => w == Stopped
      case TellRotate => w == Stopped
      case Finished => w == Stopped
      case _ => w == Starting || w == Watching
  }

  ghost predicate RestOk(s: State) {
    s.exit.TellWatchers? ==>
      && (forall i :: 0 <= i < |s.exit.rest| ==> s.exit.rest[i] < |s.channels|)
      && (forall i, j :: 0 <= i < j < |s.exit.rest| ==> s.exit.rest[i] != s.exit.rest[j])
  }

  ghost predicate Controls(setup: Setup, s: State) {
    && Fits(setup, s)
    && (s.exit.Tokens? ==> s.exit.sent <= |s.probers|)
    && s.tokens + ExitedCount(s.probers) == TokensSentBy(s.exit, |s.probers|)
    && (ProbersDone(s.exit) ==> ExitedCount(s.probers) == |s.probers|)
    && WatchersOk(s) && RestOk(s)
    && s.saverOn == !(s.exit.TellRotate? || s.exit.Finished?)
    && |s.saveBuffer| <= setup.capacity
    && (forall c :: 0 <= c < |s.channels| ==> |s.channels[c].buffer| <= Room(setup, c))
    && (forall p :: 0 <= p < |s.probers| ==> s.probers[p].pc.Sending? ==> s.probers[p].pc.next <= |setup.routes[p]|)
  }

  // ----- every action keeps the invariant

  predicate IsProberAction(a: Action) {
    a.WakeUp? || a.Probe? || a.Save? || a.Send? || a.EndSend? || a.Tick? || a.TakeToken?
  }

  predicate IsReaderAction(a: Action) {
    a.Fold? || a.StartWatcher? || a.Consume? || a.StopWatcher?
  }

  lemma {:induction false} ProberActionControls(setup: Setup, s: State, a: Action)
    requires Controls(setup, s) && Enabled(setup, s, a) && IsProberAction(a)
    ensures Controls(setup, Apply(setup, s, a))
  {
    var t := Apply(setup, s, a);
    ExitedCountUpdate(s.probers, a.p, t.probers[a.p]);
    AllExitedCount(s.probers);
    forall c | 0 <= c < |t.channels|
      ensures t.channels[c].watcher == s.channels[c].watcher && |t.channels[c].buffer| <= Room(setup, c)
    {
    }
  }

  lemma {:induction false} ReaderActionControls(setup: Setup, s: State, a: Action)
    requires Controls(setup, s) && Enabled(setup, s, a) && IsReaderAction(a)
    ensures Controls(setup, Apply(setup, s, a))
  {
  }

  lemma {:induction false} TellWatcherControls(setup: Setup, s: State)
    requires Controls(setup, s) && Enabled(setup, s, TellWatcher)
    ensures Controls(setup, Apply(setup, s, TellWatcher))
  {
    var t := Apply(setup, s, TellWatcher);
    var rest := s.exit.rest;
    forall c | 0 <= c < |t.channels|
      ensures c in rest[1..] <==> c in rest && c != rest[0]
    {
    }
  }

  lemma {:induction false} ExitActionControls(setup: Setup, s: State, a: Action)
    requires Controls(setup, s) && Enabled(setup, s, a)
    requires !IsProberAction(a) && !IsReaderAction(a) && !a.TellWatcher?
    ensures Controls(setup, Apply(setup, s, a))
  {
    AllExitedCount(s.probers);
  }

  lemma {:induction false} StepControls(setup: Setup, s: State, a: Action)
    requires Controls(setup, s) && Enabled(setup, s, a)
    ensures Controls(setup, Apply(setup, s, a))
  {
    if IsProberAction(a) {
      ProberActionControls(setup, s, a);
    } else if IsReaderAction(a) {
      ReaderActionControls(setup, s, a);
    } else if a.TellWatcher? {
      TellWatcherControls(setup, s);
    } else {
      ExitActionControls(setup, s, a);
    }
  }

  lemma {:induction false} NoneExitedInitially(probers: seq<Prober>)
    requires forall p :: 0 <= p < |probers| ==> probers[p].pc == Delaying
    ensures ExitedCount(probers) == 0
  {
    if probers != [] {
      NoneExitedInitially(ButLast(probers));
    }
  }

  lemma {:induction false} AlwaysControls(setup: Setup, actions: seq<Action>, s: State)
    requires Reaches(setup, actions, s)
    ensures Controls(setup, s)
  {
    if actions == [] {
      NoneExitedInitially(s.probers);
    } else {
      var before :| Reaches(setup, ButLast(actions), before) && Enabled(setup, before, Last(actions)) &&
                    s == Apply(setup, before, Last(actions));
      AlwaysControls(setup, ButLast(actions), before);
      StepControls(setup, before, Last(actions));
    }
  }

  // ----- safety of the exit sequence

  /** Sending the next done token to the probers never blocks: the done channel is never full then. */
  lemma {:induction false} TokenSendNeverBlocks(setup: Setup, actions: seq<Action>, s: State)
    requires Reaches(setup, actions, s) && s.exit.Tokens? && s.exit.sent < |s.probers|
    ensures Enabled(setup, s, SendToken)
  {
    AlwaysControls(setup, actions, s);
  }

  /** The tokens are conserved: those queued and those that made a prober exit are the ones sent. */
  lemma {:induction false} TokensAreConserved(setup: Setup, actions: seq<Action>, s: State)
    requires Reaches(setup, actions, s)
    ensures s.tokens + ExitedCount(s.probers) == TokensSentBy(s.exit, |s.probers|) <= setup.capacity
  {
    AlwaysControls(setup, actions, s);
  }

  /** A result is only ever sent to a channel whose watcher has not been told to stop. */
  lemma {:induction false} NoSendToStoppedWatcher(setup: Setup, actions: seq<Action>, s: State, p: nat)
    requires Reaches(setup, actions, s) && p < |s.probers| && s.probers[p].pc != Exited
    ensures forall c :: 0 <= c < |s.channels| ==> s.channels[c].watcher == Starting || s.channels[c].watcher == Watching
    ensures s.saverOn
  {
    AlwaysControls(setup, actions, s);
    AllExitedCount(s.probers);
  }

  /** When the exit has finished, everything it waited for has stopped and no token is left over. */
  lemma {:induction false} FinishedMeansStopped(setup: Setup, actions: seq<Action>, s: State)
    requires Reaches(setup, actions, s) && s.exit.Finished?
    ensures forall p :: 0 <= p < |s.probers| ==> s.probers[p].pc == Exited
    ensures forall c :: 0 <= c < |s.channels| ==> s.channels[c].watcher == Stopped
    ensures !s.saverOn && s.tokens == 0
  {
    AlwaysControls(setup, actions, s);
    AllExitedCount(s.probers);
  }

  predicate HasStopped(w: WatcherPc) {
    w == Leaving || w == Stopped
  }

  /** What `s` has stopped does nothing more up to `t`. */
  ghost predicate StoppedIdles(s: State, t: State) {
    && |t.probers| == |s.probers| && |t.channels| == |s.channels|
    && (!s.saverOn ==> !t.saverOn && t.folded == s.folded && t.data == s.data)
    && (forall c :: 0 <= c < |s.channels| && HasStopped(s.channels[c].watcher) ==>
          HasStopped(t.channels[c].watcher) && t.channels[c].consumed == s.channels[c].consumed)
    && (forall p :: 0 <= p < |s.probers| && s.probers[p].pc == Exited ==> t.probers[p] == s.probers[p])
  }

  lemma {:induction false} StepIdles(setup: Setup, s: State, a: Action)
    requires Fits(setup, s) && Enabled(setup, s, a)
    ensures StoppedIdles(s, Apply(setup, s, a))
  {
  }

  lemma {:induction false} IdlesOn(s: State, t: State, u: State)
    requires StoppedIdles(s, t) && StoppedIdles(t, u)
    ensures StoppedIdles(s, u)
  {
  }

  /**
   What has stopped stays so: after its done signal the saver folds nothing, a watcher consumes nothing and a
   prober does not probe, whatever else happens.
   */
  lemma {:induction false} StoppedStaysStopped(setup: Setup, s: State, actions: seq<Action>, t: State)
    requires Fits(setup, s) && Path(setup, s, actions, t)
    ensures StoppedIdles(s, t)
    decreases |actions|
  {
    if actions != [] {
      var next := Apply(setup, s, actions[0]);
      StepIdles(setup, s, actions[0]);
      StoppedStaysStopped(setup, next, actions[1..], t);
      IdlesOn(s, next, t);
    }
  }

  /** The number of probers still running. */
  function Live(s: State): int {
    |s.probers| - ExitedCount(s.probers)
  }

  /** The number of channels whose watcher has not been told to stop. */
  function Watched(channels: seq<Channel>): nat {
    if channels == [] then 0
    else Watched(ButLast(channels)) + WatchedAt(Last(channels))
  }

  function WatchedAt(c: Channel): nat {
    if c.watcher == Starting || c.watcher == Watching then 1 else 0
  }

  lemma {:induction false} WatchedUpdate(channels: seq<Channel>, c: nat, ch: Channel)
    requires c < |channels|
    ensures Watched(channels[c := ch]) == Watched(channels) - WatchedAt(channels[c]) + WatchedAt(ch)
  {
    if c == |channels| - 1 {
      assert ButLast(channels[c := ch]) == ButLast(channels);
    } else {
      assert ButLast(channels[c := ch]) == ButLast(channels)[c := ch];
      WatchedUpdate(ButLast(channels), c, ch);
    }
  }

  lemma {:induction false} LiveAfter(setup: Setup, s: State, a: Action)
    requires Fits(setup, s) && Enabled(setup, s, a)
    ensures Live(Apply(setup, s, a)) == Live(s) - (if a.TakeToken? then 1 else 0)
  {
    if IsProberAction(a) {
      ExitedCountUpdate(s.probers, a.p, Apply(setup, s, a).probers[a.p]);
    } else {
      assert Apply(setup, s, a).probers == s.probers;
    }
  }

  lemma {:induction false} WatchedAfter(setup: Setup, s: State, a: Action)
    requires Fits(setup, s) && Enabled(setup, s, a)
    ensures Watched(Apply(setup, s, a).channels) == Watched(s.channels) - (if a.TellWatcher? then 1 else 0)
  {
    var t := Apply(setup, s, a);
    if a.Send? {
      var c := setup.routes[a.p][s.probers[a.p].pc.next];
      WatchedUpdate(s.channels, c, t.channels[c]);
    } else if a.StartWatcher? || a.Consume? || a.StopWatcher? {
      WatchedUpdate(s.channels, a.c, t.channels[a.c]);
    } else if a.TellWatcher? {
      WatchedUpdate(s.channels, s.exit.rest[0], t.channels[s.exit.rest[0]]);
    } else {
      assert t.channels == s.channels;
    }
  }

  /**
   No step brings a prober or a watcher back, and each receipt of a done signal takes exactly one away: at most
   as many receipts happen as there are probers and channels.
   */
  lemma {:induction false} DoneReceiptsAreFinal(setup: Setup, s: State, a: Action)
    requires Fits(setup, s) && Enabled(setup, s, a)
    ensures var t := Apply(setup, s, a);
            && Live(t) == Live(s) - (if a.TakeToken? then 1 else 0)
            && Watched(t.channels) == Watched(s.channels) - (if a.TellWatcher? then 1 else 0)
  {
    LiveAfter(setup, s, a);
    WatchedAfter(setup, s, a);
  }

  // ----- progress

  function ProberWork(q: Prober, route: seq<nat>): int {
    match q.pc
    case Exited => 0
    case Waiting => 1
    case Sending(next) => 2 * (|route| - next) + 2
    case Saving => 2 * |route| + 4
    case Probing => 2 * |route| + 5
    case Delaying => 2 * |route| + 6
  }

  function ProbersWork(probers: seq<Prober>, routes: seq<seq<nat>>): int
    requires |probers| <= |routes|
  {
    if probers == [] then 0
    else ProbersWork(ButLast(probers), routes) + ProberWork(Last(probers), routes[|probers| - 1])
  }

  function ChannelWork(ch: Channel): nat {
    |ch.buffer| + match ch.watcher case Starting => 2 case Watching => 1 case Leaving => 1 case Stopped => 0
  }

  function ChannelsWork(channels: seq<Channel>): nat {
    if channels == [] then 0 else ChannelsWork(ButLast(channels)) + ChannelWork(Last(channels))
  }

  function ExitWork(exit: ExitPc, probers: nat, channels: nat): int {
    match exit
    case Serving => probers + channels + 7
    case Tokens(sent) => probers - sent + channels + 6
    case AwaitProbers => channels + 5
    case TellWatchers(rest) => |rest| + 4
    case AwaitWatchers => 3
    case TellSaver => 2
    case TellRotate => 1
    case Finished => 0
  }

  /** What is left to be done before the program has ended, if no timer starts another round. */
  ghost function Work(setup: Setup, s: State): int
    requires Fits(setup, s)
  {
    ProbersWork(s.probers, setup.routes) + ChannelsWork(s.channels) + |s.saveBuffer| +
    ExitWork(s.exit, |s.probers|, |s.channels|)
  }

  lemma {:induction false} ProbersWorkUpdate(probers: seq<Prober>, routes: seq<seq<nat>>, p: nat, q: Prober)
    requires p < |probers| <= |routes|
    ensures ProbersWork(probers[p := q], routes)
         == ProbersWork(probers, routes) - ProberWork(probers[p], routes[p]) + ProberWork(q, routes[p])
  {
    if p == |probers| - 1 {
      assert ButLast(probers[p := q]) == ButLast(probers);
    } else {
      assert ButLast(probers[p := q]) == ButLast(probers)[p := q];
      ProbersWorkUpdate(ButLast(probers), routes, p, q);
    }
  }

  lemma {:induction false} ChannelsWorkUpdate(channels: seq<Channel>, c: nat, ch: Channel)
    requires c < |channels|
    ensures ChannelsWork(channels[c := ch]) == ChannelsWork(channels) - ChannelWork(channels[c]) + ChannelWork(ch)
  {
    if c == |channels| - 1 {
      assert ButLast(channels[c := ch]) == ButLast(channels);
    } else {
      assert ButLast(channels[c := ch]) == ButLast(channels)[c := ch];
      ChannelsWorkUpdate(ButLast(channels), c, ch);
    }
  }

  lemma {:induction false} ProbersWorkNonNegative(probers: seq<Prober>, routes: seq<seq<nat>>)
    requires |probers| <= |routes|
    requires forall p :: 0 <= p < |probers| ==> probers[p].pc.Sending? ==> probers[p].pc.next <= |routes[p]|
    ensures ProbersWork(probers, routes) >= 0
  {
    if probers != [] {
      ProbersWorkNonNegative(ButLast(probers), routes);
      assert Last(probers) == probers[|probers| - 1];
    }
  }

  lemma {:induction false} WorkNonNegative(setup: Setup, s: State)
    requires Controls(setup, s)
    ensures Work(setup, s) >= 0
  {
    ProbersWorkNonNegative(s.probers, setup.routes);
  }

  /** A channel on some prober's list has room for at least one result. */
  lemma {:induction false} RoutedChannelHasRoom(setup: Setup, p: nat, j: nat)
    requires p < |setup.routes| && j < |setup.routes[p]|
    ensures Room(setup, setup.routes[p][j]) >= 1
  {
    assert p in Listing(setup, setup.routes[p][j]);
  }

  /** An action that is enabled, keeps the exit going, and leaves less to be done. */
  ghost predicate Advances(setup: Setup, s: State, a: Action)
    requires Fits(setup, s)
  {
    && Enabled(setup, s, a)
    && Work(setup, Apply(setup, s, a)) < Work(setup, s)
    && !Apply(setup, s, a).exit.Serving?
  }

  /** What a timer tick adds: one more round of a prober. */
  ghost function TickCost(setup: Setup, a: Action): nat {
    if a.Tick? && a.p < |setup.routes| then 2 * |setup.routes[a.p]| + 5 else 0
  }

  lemma {:induction false} SendWork(setup: Setup, s: State, p: nat)
    requires Fits(setup, s) && Enabled(setup, s, Send(p))
    ensures Work(setup, Apply(setup, s, Send(p))) == Work(setup, s) - 1
  {
    var t := Apply(setup, s, Send(p));
    var c := setup.routes[p][s.probers[p].pc.next];
    ProbersWorkUpdate(s.probers, setup.routes, p, t.probers[p]);
    ChannelsWorkUpdate(s.channels, c, t.channels[c]);
  }

  lemma {:induction false} ProberStepWork(setup: Setup, s: State, a: Action)
    requires Fits(setup, s) && Enabled(setup, s, a) && IsProberAction(a) && !a.Send?
    ensures Work(setup, Apply(setup, s, a)) == Work(setup, s) + TickCost(setup, a) - 1
  {
    var t := Apply(setup, s, a);
    ProbersWorkUpdate(s.probers, setup.routes, a.p, t.probers[a.p]);
    assert t.channels == s.channels && t.exit == s.exit;
  }

  lemma {:induction false} ReaderStepWork(setup: Setup, s: State, a: Action)
    requires Fits(setup, s) && Enabled(setup, s, a) && IsReaderAction(a)
    ensures Work(setup, Apply(setup, s, a)) == Work(setup, s) - 1
  {
    var t := Apply(setup, s, a);
    assert t.probers == s.probers && t.exit == s.exit;
    if !a.Fold? {
      ChannelsWorkUpdate(s.channels, a.c, t.channels[a.c]);
    }
  }

  lemma {:induction false} TellWatcherWork(setup: Setup, s: State)
    requires Fits(setup, s) && Enabled(setup, s, TellWatcher)
    ensures Work(setup, Apply(setup, s, TellWatcher)) == Work(setup, s) - 1
  {
    var c := s.exit.rest[0];
    ChannelsWorkUpdate(s.channels, c, Apply(setup, s, TellWatcher).channels[c]);
  }

  /** Every step of every goroutine takes exactly one off what is to be done; a timer tick first adds a round. */
  lemma {:induction false} StepWork(setup: Setup, s: State, a: Action)
    requires Fits(setup, s) && Enabled(setup, s, a)
    ensures Work(setup, Apply(setup, s, a)) == Work(setup, s) + TickCost(setup, a) - 1
  {
    if a.Send? {
      SendWork(setup, s, a.p);
    } else if IsProberAction(a) {
      ProberStepWork(setup, s, a);
    } else if IsReaderAction(a) {
      ReaderStepWork(setup, s, a);
    } else if a.TellWatcher? {
      TellWatcherWork(setup, s);
    } else {
      assert Apply(setup, s, a).probers == s.probers && Apply(setup, s, a).channels == s.channels;
    }
  }

  lemma {:induction false} EnabledAdvances(setup: Setup, s: State, a: Action)
    requires Fits(setup, s) && Enabled(setup, s, a) && !a.Tick? && !s.exit.Serving?
    ensures Advances(setup, s, a)
  {
    StepWork(setup, s, a);
  }

  /** Every prober waits for its timer or its token, or has taken the token. */
  ghost predicate Resting(s: State) {
    forall p :: 0 <= p < |s.probers| ==> s.probers[p].pc == Waiting || s.probers[p].pc == Exited
  }

  /** While a prober is running, some step brings it closer to its exit. */
  lemma {:induction false} LiveProberAdvances(setup: Setup, s: State, p: nat) returns (a: Action)
    requires Controls(setup, s) && s.exit.AwaitProbers? && p < |s.probers| && s.probers[p].pc != Exited
    ensures Advances(setup, s, a)
    ensures s.probers[p].pc == Waiting ==> a == TakeToken(p)
  {
    AllExitedCount(s.probers);
    match s.probers[p].pc {
      case Delaying => a := WakeUp(p); EnabledAdvances(setup, s, a);
      case Probing => a := Probe(p, Round(true, "", 0)); EnabledAdvances(setup, s, a);
      case Saving =>
        if |s.saveBuffer| < setup.capacity {
          a := Save(p);
          EnabledAdvances(setup, s, a);
        } else {
          a := Fold;
          EnabledAdvances(setup, s, a);
        }
      case Sending(next) => a := SendingProberAdvances(setup, s, p);
      case Waiting => a := TakeToken(p); EnabledAdvances(setup, s, a);
    }
  }

  lemma {:induction false} SendingProberAdvances(setup: Setup, s: State, p: nat) returns (a: Action)
    requires Controls(setup, s) && s.exit.AwaitProbers? && p < |s.probers| && s.probers[p].pc.Sending?
    ensures Advances(setup, s, a)
  {
    var next := s.probers[p].pc.next;
    if next == |setup.routes[p]| {
      a := EndSend(p);
      EnabledAdvances(setup, s, a);
    } else {
      var c := setup.routes[p][next];
      RoutedChannelHasRoom(setup, p, next);
      assert s.channels[c].watcher == Starting || s.channels[c].watcher == Watching;
      if |s.channels[c].buffer| < Room(setup, c) {
        a := Send(p);
        EnabledAdvances(setup, s, a);
      } else {
        a := if s.channels[c].watcher == Starting then StartWatcher(c) else Consume(c);
        EnabledAdvances(setup, s, a);
      }
    }
  }

  ghost function FirstOrder(n: nat): (order: seq<nat>)
    ensures |order| == n && forall i :: 0 <= i < n ==> order[i] == i
  {
    if n == 0 then [] else FirstOrder(n - 1) + [n - 1]
  }

  lemma {:induction false} FirstOrderIsOrder(n: nat)
    ensures IsOrder(FirstOrder(n), n)
  {
    var order := FirstOrder(n);
    forall c | 0 <= c < n
      ensures c in order
    {
      assert order[c] == c;
    }
  }

  /** In the middle of the exit sequence the program is never stuck. */
  lemma {:induction false} ExitAdvancesSomehow(setup: Setup, s: State) returns (a: Action)
    requires Controls(setup, s) && !s.exit.Serving? && !s.exit.Finished?
    ensures Advances(setup, s, a)
    ensures Resting(s) ==> !a.Fold? && !a.Consume? && !a.Tick?
  {
    AllExitedCount(s.probers);
    match s.exit {
      case Tokens(sent) =>
        a := if sent < |s.probers| then SendToken else TokensSent;
        EnabledAdvances(setup, s, a);
      case AwaitProbers =>
        if p :| 0 <= p < |s.probers| && s.probers[p].pc != Exited {
          a := LiveProberAdvances(setup, s, p);
        } else {
          FirstOrderIsOrder(|s.channels|);
          a := ProbersGone(FirstOrder(|s.channels|));
          EnabledAdvances(setup, s, a);
        }
      case TellWatchers(rest) =>
        a := TellingAdvances(setup, s);
      case AwaitWatchers =>
        if c :| 0 <= c < |s.channels| && s.channels[c].watcher != Stopped {
          a := StopWatcher(c);
          EnabledAdvances(setup, s, a);
        } else {
          a := WatchersGone;
          EnabledAdvances(setup, s, a);
        }
      case TellSaver => a := StopSaver; EnabledAdvances(setup, s, a);
      case TellRotate => a := StopRotate; EnabledAdvances(setup, s, a);
    }
  }

  lemma {:induction false} TellingAdvances(setup: Setup, s: State) returns (a: Action)
    requires Controls(setup, s) && s.exit.TellWatchers?
    ensures Advances(setup, s, a) && !a.Fold? && !a.Consume? && !a.Tick?
  {
    if s.exit.rest == [] {
      a := WatchersTold;
      EnabledAdvances(setup, s, a);
    } else {
      var c := s.exit.rest[0];
      assert c in s.exit.rest;
      assert s.channels[c].watcher == Starting || s.channels[c].watcher == Watching;
      if s.channels[c].watcher == Starting {
        a := StartWatcher(c);
        EnabledAdvances(setup, s, a);
      } else {
        a := TellWatcher;
        EnabledAdvances(setup, s, a);
      }
    }
  }

  lemma {:induction false} PathToEnd(setup: Setup, s: State) returns (actions: seq<Action>, t: State)
    requires Controls(setup, s) && !s.exit.Serving?
    ensures Path(setup, s, actions, t) && t.exit == Finished && |actions| <= Work(setup, s)
    decreases Work(setup, s)
  {
    WorkNonNegative(setup, s);
    if s.exit.Finished? {
      actions, t := [], s;
    } else {
      var a := ExitAdvancesSomehow(setup, s);
      StepControls(setup, s, a);
      WorkNonNegative(setup, Apply(setup, s, a));
      var rest;
      rest, t := PathToEnd(setup, Apply(setup, s, a));
      actions := [a] + rest;
      assert actions[0] == a && actions[1..] == rest;
    }
  }

  /**
   Shutdown never deadlocks: from every reachable state in which the exit has begun, whatever has happened
   before, some continuation finishes the exit, in at most `Work` steps.
   */
  lemma {:induction false} ShutdownNeverDeadlocks(setup: Setup, actions: seq<Action>, s: State)
    requires Reaches(setup, actions, s) && !s.exit.Serving?
    ensures exists more, t :: Path(setup, s, more, t) && t.exit == Finished && |more| <= Work(setup, s)
  {
    AlwaysControls(setup, actions, s);
    var more, t := PathToEnd(setup, s);
  }

  /** And until it has finished some step of the way is enabled. */
  lemma {:induction false} SomeStepIsEnabled(setup: Setup, actions: seq<Action>, s: State)
    requires Reaches(setup, actions, s) && !s.exit.Serving? && !s.exit.Finished?
    ensures exists a :: Advances(setup, s, a)
  {
    AlwaysControls(setup, actions, s);
    var a := ExitAdvancesSomehow(setup, s);
  }

  /** What all timer ticks among the actions add. */
  ghost function TickCosts(setup: Setup, actions: seq<Action>): nat {
    if actions == [] then 0 else TickCost(setup, actions[0]) + TickCosts(setup, actions[1..])
  }

  /**
   Only timer ticks can put off the end: every execution, whatever the scheduler does, has exactly as many steps
   as it takes off the work it starts with and the rounds its ticks have started.
   */
  lemma {:induction false} ExecutionsAreAccountedFor(setup: Setup, s: State, actions: seq<Action>, t: State)
    requires Fits(setup, s) && Path(setup, s, actions, t)
    ensures Fits(setup, t) && |actions| + Work(setup, t) == Work(setup, s) + TickCosts(setup, actions)
    decreases |actions|
  {
    if actions != [] {
      StepWork(setup, s, actions[0]);
      ExecutionsAreAccountedFor(setup, Apply(setup, s, actions[0]), actions[1..], t);
    }
  }

  lemma {:induction false} PathControls(setup: Setup, s: State, actions: seq<Action>, t: State)
    requires Controls(setup, s) && Path(setup, s, actions, t)
    ensures Controls(setup, t)
    decreases |actions|
  {
    if actions != [] {
      StepControls(setup, s, actions[0]);
      PathControls(setup, Apply(setup, s, actions[0]), actions[1..], t);
    }
  }

  /** So no execution is longer than that. */
  lemma {:induction false} ExecutionsAreBounded(setup: Setup, s: State, actions: seq<Action>, t: State)
    requires Controls(setup, s) && Path(setup, s, actions, t)
    ensures |actions| <= Work(setup, s) + TickCosts(setup, actions)
  {
    ExecutionsAreAccountedFor(setup, s, actions, t);
    PathControls(setup, s, actions, t);
    WorkNonNegative(setup, t);
  }
}
