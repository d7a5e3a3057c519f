/** The store of the latest result of every probe, and the saver loop that feeds it. */
module ResultStore {
  import opened Runs
  import opened Pipeline

  /** What the saver receives: a result under the name of its probe, the timer, or the done signal. */
  datatype Event<K> = Save(name: K, result: Result) | Tick | Done

  type Store<K> = map<K, Result>

  /** The answer to a query: the stored result, or nothing. */
  function Lookup<K(==)>(store: Store<K>, name: K): seq<Result> {
    if name in store then [store[name]] else []
  }

  /** The store after the events. */
  function Folded<K(==)>(events: seq<Event<K>>, before: Store<K>): Store<K> {
    if events == [] then before
    else match Last(events)
      case Save(name, result) => Folded(ButLast(events), before)[name := result]
      case _ => Folded(ButLast(events), before)
  }

  /** What has been written to the data file: at the start, at every tick and at the done signal. */
  function Writes<K(==)>(events: seq<Event<K>>, before: Store<K>): seq<Store<K>> {
    if events == [] then [before]
    else if Last(events).Save? then Writes(ButLast(events), before)
    else Writes(ButLast(events), before) + [Folded(ButLast(events), before)]
  }

  /** The last result sent under `name` among the events, if any. */
  function LastSaved<K(==)>(events: seq<Event<K>>, name: K): seq<Result> {
    if events == [] then []
    else if Last(events).Save? && Last(events).name == name then [Last(events).result]
    else LastSaved(ButLast(events), name)
  }

  /** A query answers with the last result received under the name, and as before when none was received. */
  lemma {:induction false} StoreHoldsTheLatest<K>(events: seq<Event<K>>, before: Store<K>, name: K)
    ensures
      var saved := LastSaved(events, name);
      Lookup(Folded(events, before), name) == if saved != [] then saved else Lookup(before, name)
  {
    if events != [] {
      StoreHoldsTheLatest(ButLast(events), before, name);
    }
  }

  /** The number of ticks and done signals. */
  function Signals<K>(events: seq<Event<K>>): nat {
    if events == [] then 0
    else Signals(ButLast(events)) + if Last(events).Save? then 0 else 1
  }

  /**
   The file is written once at the start and once at every tick and done signal; the write at event `i` is the
   store of everything received before it.
   */
  lemma {:induction false} EverySignalWrites<K>(events: seq<Event<K>>, before: Store<K>, i: nat)
    requires i < |events| && !events[i].Save?
    ensures |Writes(events, before)| == 1 + Signals(events)
    ensures Signals(events[..i]) < Signals(events)
    ensures Writes(events, before)[1 + Signals(events[..i])] == Folded(events[..i], before)
  {
    WritesCounted(events, before);
    if i == |events| - 1 {
      assert events[..i] == ButLast(events);
      WritesCounted(ButLast(events), before);
    } else {
      EverySignalWrites(ButLast(events), before, i);
      assert ButLast(events)[..i] == events[..i];
    }
  }

  lemma {:induction false} WritesCounted<K>(events: seq<Event<K>>, before: Store<K>)
    ensures |Writes(events, before)| == 1 + Signals(events)
    ensures Writes(events, before)[0] == before
  {
    if events != [] {
      WritesCounted(ButLast(events), before);
    }
  }

  /** The write at the done signal is the store itself: nothing received before it is lost. */
  lemma {:induction false} DoneWritesEverything<K>(events: seq<Event<K>>, before: Store<K>)
    ensures Last(Writes(events + [Done], before)) == Folded(events, before)
  {
    assert ButLast(events + [Done]) == events;
  }

  /** The index of the first done signal, or the number of events. */
  function DoneAt<K>(events: seq<Event<K>>): (n: nat)
    ensures n <= |events|
    ensures forall i :: 0 <= i < n ==> !events[i].Done?
    ensures n < |events| ==> events[n].Done?
  {
    if events == [] || events[0].Done? then 0 else 1 + DoneAt(events[1..])
  }

  class ResultData {
    var data: Store<string>

    constructor ()
      ensures data == map[]
    {
      data := map[];
    }

    method SetResultData(name: string, result: Result)
      modifies this
      ensures data == old(data)[name := result]
    {
      data := data[name := result];
    }

    /** A missing name yields an empty answer. */
    method GetResultData(name: string) returns (found: seq<Result>)
      ensures found == Lookup(data, name)
    {
      if name in data {
        found := [data[name]];
      } else {
        found := [];
      }
    }

    /** The saver: it stops at the first done signal, and leaves the events behind it unread. */
    method SaveLoop(events: seq<Event<string>>) returns (written: seq<Store<string>>)
      modifies this
      ensures data == Folded(events[..DoneAt(events)], old(data))
      ensures written == Writes(events[..Min(DoneAt(events) + 1, |events|)], old(data))
    {
      written := [data];
      var n := 0;
      while n < |events|
        invariant 0 <= n <= DoneAt(events)
        invariant data == Folded(events[..n], old(data))
        invariant written == Writes(events[..n], old(data))
      {
        assert ButLast(events[..n + 1]) == events[..n];
        match events[n] {
          case Save(name, result) =>
            SetResultData(name, result);
          case Done =>
            written := written + [data];
            assert n == DoneAt(events);
            return;
          case Tick =>
            written := written + [data];
        }
        n := n + 1;
      }
    }
  }
}
