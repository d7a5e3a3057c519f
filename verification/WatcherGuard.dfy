/**
 Any number of goroutines calling `WatchEvent` on one channel, interleaved arbitrarily. The guard is the atomic
 flag `isWatch`: a compare-and-swap on entry and a deferred store of zero on the winner's way out.
 */
module WatcherGuard {
  import opened Runs

  /**
   A call has started; it lost the compare-and-swap and returns; it is in the loop; it has received the done
   signal and owes the store; it has stored and returned.
   */
  datatype Pc = Called | Lost | InLoop | Leaving | Returned

  datatype State = State(isWatch: int, threads: seq<Pc>)

  datatype Action =
    | Call                  // one more goroutine calls WatchEvent
    | CompareAndSwap(t: nat)
    | ReceiveDone(t: nat)
    | StoreZero(t: nat)

  const START := State(0, [])

  predicate Enabled(s: State, a: Action) {
    match a
    case Call => true
    case CompareAndSwap(t) => t < |s.threads| && s.threads[t] == Called
    case ReceiveDone(t) => t < |s.threads| && s.threads[t] == InLoop
    case StoreZero(t) => t < |s.threads| && s.threads[t] == Leaving
  }

  function Apply(s: State, a: Action): State
    requires Enabled(s, a)
  {
    match a
    case Call => s.(threads := s.threads + [Called])
    case CompareAndSwap(t) =>
      if s.isWatch == 0 then State(1, s.threads[t := InLoop]) else s.(threads := s.threads[t := Lost])
    case ReceiveDone(t) => s.(threads := s.threads[t := Leaving])
    case StoreZero(t) => State(0, s.threads[t := Returned])
  }

  /** The state after the actions, if each was enabled in its turn. */
  ghost predicate Reaches(actions: seq<Action>, s: State) {
    if actions == [] then s == START
    else exists p :: Reaches(ButLast(actions), p) && Enabled(p, Last(actions)) && s == Apply(p, Last(actions))
  }

  predicate Watching(pc: Pc) {
    pc == InLoop || pc == Leaving
  }

  /** The number of goroutines past a successful compare-and-swap and before their store. */
  function Watchers(threads: seq<Pc>): nat {
    if threads == [] then 0
    else Watchers(ButLast(threads)) + if Watching(Last(threads)) then 1 else 0
  }

  lemma {:induction false} WatchersUpdate(threads: seq<Pc>, t: nat, pc: Pc)
    requires t < |threads|
    ensures Watchers(threads[t := pc])
         == Watchers(threads) - (if Watching(threads[t]) then 1 else 0) + (if Watching(pc) then 1 else 0)
  {
    if t == |threads| - 1 {
      assert ButLast(threads[t := pc]) == ButLast(threads);
    } else {
      assert ButLast(threads[t := pc]) == ButLast(threads)[t := pc];
      WatchersUpdate(ButLast(threads), t, pc);
    }
  }

  lemma {:induction false} StepKeepsGuard(s: State, a: Action)
    requires Watchers(s.threads) == s.isWatch <= 1 && Enabled(s, a)
    ensures Watchers(Apply(s, a).threads) == Apply(s, a).isWatch <= 1
  {
    match a {
      case Call =>
        assert ButLast(s.threads + [Called]) == s.threads;
      case CompareAndSwap(t) =>
        WatchersUpdate(s.threads, t, if s.isWatch == 0 then InLoop else Lost);
      case ReceiveDone(t) =>
        WatchersUpdate(s.threads, t, Leaving);
      case StoreZero(t) =>
        WatchersUpdate(s.threads, t, Returned);
        AtLeastOne(s.threads, t);
    }
  }

  lemma {:induction false} AtLeastOne(threads: seq<Pc>, t: nat)
    requires t < |threads| && Watching(threads[t])
    ensures Watchers(threads) >= 1
  {
    if t < |threads| - 1 {
      AtLeastOne(ButLast(threads), t);
    }
  }

  lemma {:induction false} AtLeastTwo(threads: seq<Pc>, t: nat, u: nat)
    requires t < u < |threads| && Watching(threads[t]) && Watching(threads[u])
    ensures Watchers(threads) >= 2
  {
    if u == |threads| - 1 {
      AtLeastOne(ButLast(threads), t);
    } else {
      AtLeastTwo(ButLast(threads), t, u);
    }
  }

  /** In every reachable state the flag counts the goroutines that watch, and there is at most one. */
  lemma {:induction false} FlagCountsWatchers(actions: seq<Action>, s: State)
    requires Reaches(actions, s)
    ensures Watchers(s.threads) == s.isWatch <= 1
  {
    if actions != [] {
      var p :| Reaches(ButLast(actions), p) && Enabled(p, Last(actions)) && s == Apply(p, Last(actions));
      FlagCountsWatchers(ButLast(actions), p);
      StepKeepsGuard(p, Last(actions));
    }
  }

  /** Two goroutines never watch the same channel, however many call, start and stop. */
  lemma {:induction false} SingleWatcher(actions: seq<Action>, s: State, t: nat, u: nat)
    requires Reaches(actions, s) && t < |s.threads| && u < |s.threads|
    requires Watching(s.threads[t]) && Watching(s.threads[u])
    ensures t == u
  {
    FlagCountsWatchers(actions, s);
    if t < u {
      AtLeastTwo(s.threads, t, u);
    } else if u < t {
      AtLeastTwo(s.threads, u, t);
    }
  }

  /**
   The flag is cleared only by the goroutine that watches: a step that clears it is the store of a winner, and
   as long as one watches, every compare-and-swap loses and leaves the flag alone.
   */
  lemma {:induction false} LosersLeaveTheFlag(actions: seq<Action>, s: State, a: Action, t: nat)
    requires Reaches(actions, s) && Enabled(s, a)
    requires t < |s.threads| && Watching(s.threads[t])
    ensures a != StoreZero(t) ==> Apply(s, a).isWatch == 1 && Watching(Apply(s, a).threads[t])
    ensures a.CompareAndSwap? ==> Apply(s, a).threads[a.t] == Lost
  {
    FlagCountsWatchers(actions, s);
    AtLeastOne(s.threads, t);
    if a.StoreZero? {
      SingleWatcher(actions, s, t, a.t);
    }
  }

  ghost predicate Watched(threads: seq<Pc>) {
    exists t :: 0 <= t < |threads| && Watching(threads[t])
  }

  lemma {:induction false} WatchedIff(threads: seq<Pc>)
    ensures Watched(threads) <==> Watchers(threads) >= 1
  {
    if t :| 0 <= t < |threads| && Watching(threads[t]) {
      AtLeastOne(threads, t);
    }
    if threads != [] && !Watched(threads) {
      assert !Watching(threads[|threads| - 1]);
      assert forall t :: 0 <= t < |threads| - 1 ==> ButLast(threads)[t] == threads[t];
      WatchedIff(ButLast(threads));
    }
  }

  /** A call wins exactly when nobody watches the channel; otherwise it loses. */
  lemma {:induction false} SwapWinsIffUnwatched(actions: seq<Action>, s: State, t: nat)
    requires Reaches(actions, s) && Enabled(s, CompareAndSwap(t))
    ensures Apply(s, CompareAndSwap(t)).threads[t] == if Watched(s.threads) then Lost else InLoop
  {
    FlagCountsWatchers(actions, s);
    WatchedIff(s.threads);
  }

  lemma {:induction false} ReachesNext(actions: seq<Action>, s: State, a: Action)
    requires Reaches(actions, s) && Enabled(s, a)
    ensures Reaches(actions + [a], Apply(s, a))
  {
    assert ButLast(actions + [a]) == actions;
  }

  /** After the store of the winner the next call wins. */
  lemma {:induction false} NextSwapWins(actions: seq<Action>, s: State, t: nat, u: nat)
    requires Reaches(actions, s) && Enabled(s, StoreZero(t))
    requires Enabled(Apply(s, StoreZero(t)), CompareAndSwap(u))
    ensures Apply(Apply(s, StoreZero(t)), CompareAndSwap(u)).threads[u] == InLoop
  {
    var freed := Apply(s, StoreZero(t));
    ReachesNext(actions, s, StoreZero(t));
    FlagCountsWatchers(actions + [StoreZero(t)], freed);
    WatchedIff(freed.threads);
    SwapWinsIffUnwatched(actions + [StoreZero(t)], freed, u);
  }

  /** Whoever watches can be stopped by a done signal, after which nobody does; no other thread has moved. */
  lemma {:induction false} CanBeFreed(actions: seq<Action>, s: State) returns (more: seq<Action>, t: State)
    requires Reaches(actions, s)
    ensures Reaches(actions + more, t) && !Watched(t.threads) && |t.threads| == |s.threads|
    ensures forall u :: 0 <= u < |s.threads| && !Watching(s.threads[u]) ==> t.threads[u] == s.threads[u]
  {
    if w: nat :| w < |s.threads| && Watching(s.threads[w]) {
      var acts, leaving := actions, s;
      more := [];
      if s.threads[w] == InLoop {
        ReachesNext(actions, s, ReceiveDone(w));
        acts, leaving, more := actions + [ReceiveDone(w)], Apply(s, ReceiveDone(w)), [ReceiveDone(w)];
      }
      ReachesNext(acts, leaving, StoreZero(w));
      t := Apply(leaving, StoreZero(w));
      assert acts + [StoreZero(w)] == actions + (more + [StoreZero(w)]);
      more := more + [StoreZero(w)];
      FlagCountsWatchers(acts, leaving);
      FlagCountsWatchers(actions + more, t);
      WatchedIff(t.threads);
    } else {
      more, t := [], s;
      assert actions + [] == actions;
    }
  }

  lemma {:induction false} WatchWhenFree(actions: seq<Action>, s: State, u: nat)
    requires Reaches(actions, s) && !Watched(s.threads) && u < |s.threads| && s.threads[u] == Called
    ensures var t := Apply(s, CompareAndSwap(u));
            Reaches(actions + [CompareAndSwap(u)], t) && |t.threads| == |s.threads| && t.threads[u] == InLoop
  {
    SwapWinsIffUnwatched(actions, s, u);
    ReachesNext(actions, s, CompareAndSwap(u));
  }

  /** From every reachable state a further call can come to watch the channel. */
  lemma {:induction false} CanBeWatchedAgain(actions: seq<Action>, s: State)
    requires Reaches(actions, s)
    ensures exists more, t :: Reaches(more, t) && actions <= more && |t.threads| == |s.threads| + 1 && t.threads[|s.threads|] == InLoop
  {
    var u := |s.threads|;
    ReachesNext(actions, s, Call);
    var freeing, free := CanBeFreed(actions + [Call], Apply(s, Call));
    WatchWhenFree(actions + [Call] + freeing, free, u);
    var more := actions + [Call] + freeing + [CompareAndSwap(u)];
    assert actions <= more;
  }
}
