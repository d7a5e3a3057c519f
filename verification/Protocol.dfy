/**
 The goroutines of the program as an explicit transition system: probers, the saver, one watcher a channel, and
 the exit sequence, communicating through bounded buffers and done signals. Every interleaving is a sequence
 of actions; the outcome of each probe is chosen freely.
 */
module Protocol {
  import opened Runs
  import opened Pipeline

  /**
   The running probers with their settings and channel lists, the number of channels, and the capacity of the
   save channel and of the done channel of the probers, which is the length of the configured prober list.
   */
  datatype Setup = Setup(configs: seq<Config>, routes: seq<seq<nat>>, channels: nat, capacity: nat)

  ghost predicate WellFormed(setup: Setup) {
    && |setup.routes| == |setup.configs| <= setup.capacity
    && (forall p :: 0 <= p < |setup.configs| ==> Normalized(setup.configs[p]))
    && (forall p, j :: 0 <= p < |setup.routes| && 0 <= j < |setup.routes[p]| ==> setup.routes[p][j] < setup.channels)
  }

  /** No prober lists a channel twice. */
  ghost predicate DistinctRoutes(setup: Setup) {
    forall p, i, j :: 0 <= p < |setup.routes| && 0 <= i < j < |setup.routes[p]| ==> setup.routes[p][i] != setup.routes[p][j]
  }

  function Listing(setup: Setup, c: nat): set<int> {
    set p | 0 <= p < |setup.routes| && c in setup.routes[p]
  }

  /** The buffer of a channel has one place for each prober that lists it. */
  function Room(setup: Setup, c: nat): nat {
    |Listing(setup, c)|
  }

  datatype Message = Message(prober: nat, result: Result)

  datatype ProberPc =
    | Delaying             // sleeping before the first round
    | Probing
    | Saving               // about to send the result to the saver
    | Sending(next: nat)   // about to send it to channel number `next` of the list
    | Waiting              // in the select on the done channel and the timer
    | Exited

  datatype WatcherPc = Starting | Watching | Leaving | Stopped

  datatype ExitPc =
    | Serving                      // no exit requested yet
    | Tokens(sent: nat)            // sending one done token for each prober
    | AwaitProbers
    | TellWatchers(rest: seq<nat>) // the channels still to be told
    | AwaitWatchers
    | TellSaver
    | TellRotate
    | Finished

  /** A prober with the outcomes of its rounds so far and the results it has returned, one a round. */
  datatype Prober = Prober(pc: ProberPc, rounds: seq<Round>, produced: seq<Result>, result: Result)

  datatype Channel = Channel(buffer: seq<Message>, consumed: seq<Message>, watcher: WatcherPc)

  datatype State = State(
    probers: seq<Prober>, channels: seq<Channel>,
    saveBuffer: seq<Message>, folded: seq<Message>, data: map<nat, Result>, saverOn: bool,
    tokens: nat, exit: ExitPc)

  ghost predicate Fits(setup: Setup, s: State) {
    WellFormed(setup) && |s.probers| == |setup.configs| && |s.channels| == setup.channels
  }

  ghost predicate Initial(setup: Setup, s: State) {
    && Fits(setup, s)
    && (forall p :: 0 <= p < |s.probers| ==> s.probers[p] == Prober(Delaying, [], [], Configured(setup.configs[p])))
    && (forall c :: 0 <= c < |s.channels| ==> s.channels[c] == Channel([], [], Starting))
    && s.saveBuffer == [] && s.folded == [] && s.data == map[] && s.saverOn
    && s.tokens == 0 && s.exit == Serving
  }

  datatype Action =
    // probers
    | WakeUp(p: nat)
    | Probe(p: nat, round: Round)
    | Save(p: nat)
    | Send(p: nat)
    | EndSend(p: nat)
    | Tick(p: nat)
    | TakeToken(p: nat)
    // the saver
    | Fold
    // watchers
    | StartWatcher(c: nat)
    | Consume(c: nat)
    | StopWatcher(c: nat)
    // the exit sequence
    | BeginExit
    | SendToken
    | TokensSent
    | ProbersGone(order: seq<nat>)
    | TellWatcher
    | WatchersTold
    | WatchersGone
    | StopSaver
    | StopRotate

  /** A map of channels is walked in an arbitrary order, each channel once. */
  ghost predicate IsOrder(order: seq<nat>, n: nat) {
    && |order| == n
    && (forall c :: 0 <= c < n ==> c in order)
    && (forall i :: 0 <= i < |order| ==> order[i] < n)
    && (forall i, j :: 0 <= i < j < |order| ==> order[i] != order[j])
  }

  ghost predicate ProberAt(s: State, p: nat, pc: ProberPc) {
    p < |s.probers| && s.probers[p].pc == pc
  }

  ghost predicate SendReady(setup: Setup, s: State, p: nat)
    requires Fits(setup, s)
  {
    && p < |s.probers| && s.probers[p].pc.Sending? && s.probers[p].pc.next < |setup.routes[p]|
    && var c := setup.routes[p][s.probers[p].pc.next];
       |s.channels[c].buffer| < Room(setup, c)
  }

  ghost predicate Enabled(setup: Setup, s: State, a: Action)
    requires Fits(setup, s)
  {
    match a
    case WakeUp(p) => ProberAt(s, p, Delaying)
    case Probe(p, _) => ProberAt(s, p, Probing)
    case Save(p) => ProberAt(s, p, Saving) && |s.saveBuffer| < setup.capacity
    case Send(p) => SendReady(setup, s, p)
    case EndSend(p) => p < |s.probers| && s.probers[p].pc == Sending(|setup.routes[p]|)
    case Tick(p) => ProberAt(s, p, Waiting)
    case TakeToken(p) => ProberAt(s, p, Waiting) && s.tokens > 0
    case Fold => s.saverOn && s.saveBuffer != []
    case StartWatcher(c) => c < |s.channels| && s.channels[c].watcher == Starting
    case Consume(c) => c < |s.channels| && s.channels[c].watcher == Watching && s.channels[c].buffer != []
    case StopWatcher(c) => c < |s.channels| && s.channels[c].watcher == Leaving
    case BeginExit => s.exit == Serving
    case SendToken => s.exit.Tokens? && s.exit.sent < |s.probers| && s.tokens < setup.capacity
    case TokensSent => s.exit == Tokens(|s.probers|)
    case ProbersGone(order) =>
      s.exit == AwaitProbers && IsOrder(order, |s.channels|) &&
      forall p :: 0 <= p < |s.probers| ==> s.probers[p].pc == Exited
    case TellWatcher =>
      s.exit.TellWatchers? && s.exit.rest != [] && s.exit.rest[0] < |s.channels| &&
      s.channels[s.exit.rest[0]].watcher == Watching
    case WatchersTold => s.exit == TellWatchers([])
    case WatchersGone => s.exit == AwaitWatchers && forall c :: 0 <= c < |s.channels| ==> s.channels[c].watcher == Stopped
    case StopSaver => s.exit == TellSaver && s.saverOn
    case StopRotate => s.exit == TellRotate
  }

  function AfterRound(q: Prober, r: Round, result: Result): Prober {
    Prober(Saving, q.rounds + [r], q.produced + [result], result)
  }

  function SetPc(s: State, p: nat, pc: ProberPc): State
    requires p < |s.probers|
  {
    s.(probers := s.probers[p := s.probers[p].(pc := pc)])
  }

  function SetWatcher(s: State, c: nat, pc: WatcherPc): State
    requires c < |s.channels|
  {
    s.(channels := s.channels[c := s.channels[c].(watcher := pc)])
  }

  ghost function Apply(setup: Setup, s: State, a: Action): (t: State)
    requires Fits(setup, s) && Enabled(setup, s, a)
    ensures Fits(setup, t)
  {
    match a
    case WakeUp(p) => SetPc(s, p, Probing)
    case Probe(p, r) =>
      s.(probers := s.probers[p := AfterRound(s.probers[p], r, Step(setup.configs[p], s.probers[p].result, r))])
    case Save(p) =>
      SetPc(s.(saveBuffer := s.saveBuffer + [Message(p, s.probers[p].result)]), p, Sending(0))
    case Send(p) =>
      var next := s.probers[p].pc.next;
      var c := setup.routes[p][next];
      var full := s.channels[c].(buffer := s.channels[c].buffer + [Message(p, s.probers[p].result)]);
      SetPc(s.(channels := s.channels[c := full]), p, Sending(next + 1))
    case EndSend(p) => SetPc(s, p, Waiting)
    case Tick(p) => SetPc(s, p, Probing)
    case TakeToken(p) => SetPc(s.(tokens := s.tokens - 1), p, Exited)
    case Fold =>
      var m := s.saveBuffer[0];
      s.(saveBuffer := s.saveBuffer[1..], folded := s.folded + [m], data := s.data[m.prober := m.result])
    case StartWatcher(c) => SetWatcher(s, c, Watching)
    case Consume(c) =>
      var ch := s.channels[c];
      s.(channels := s.channels[c := ch.(buffer := ch.buffer[1..], consumed := ch.consumed + [ch.buffer[0]])])
    case StopWatcher(c) => SetWatcher(s, c, Stopped)
    case BeginExit => s.(exit := Tokens(0))
    case SendToken => s.(tokens := s.tokens + 1, exit := Tokens(s.exit.sent + 1))
    case TokensSent => s.(exit := AwaitProbers)
    case ProbersGone(order) => s.(exit := TellWatchers(order))
    case TellWatcher => SetWatcher(s.(exit := TellWatchers(s.exit.rest[1..])), s.exit.rest[0], Leaving)
    case WatchersTold => s.(exit := AwaitWatchers)
    case WatchersGone => s.(exit := TellSaver)
    case StopSaver => s.(saverOn := false, exit := TellRotate)
    case StopRotate => s.(exit := Finished)
  }

  /** `t` is reached from `s` by the actions, each enabled in its turn. */
  ghost predicate Path(setup: Setup, s: State, actions: seq<Action>, t: State)
    requires Fits(setup, s)
    decreases |actions|
  {
    if actions == [] then s == t
    else Enabled(setup, s, actions[0]) && Path(setup, Apply(setup, s, actions[0]), actions[1..], t)
  }

  /** `s` is the state after the actions from an initial state. */
  ghost predicate Reaches(setup: Setup, actions: seq<Action>, s: State) {
    Fits(setup, s) &&
    if actions == [] then Initial(setup, s)
    else exists p :: Reaches(setup, ButLast(actions), p) && Enabled(setup, p, Last(actions)) &&
                     s == Apply(setup, p, Last(actions))
  }
}
