/** The watcher of a channel: the loop that turns the snapshots it receives into notifications. */
module Channel {
  import opened Runs
  import opened AlertSchedule
  import opened Pipeline
  import opened Alerting

  /** What the select statement of the watcher picks: the done signal or a result. */
  datatype Event = Done | Data(result: Result)

  datatype Notification = Notification(notifier: string, result: Result)

  /** The events the watcher handles: everything in front of the first done signal. */
  function Handled(events: seq<Event>): seq<Event> {
    if events == [] || events[0].Done? then [] else [events[0]] + Handled(events[1..])
  }

  /** One notification for each notifier and each handled result that calls for one, in order of arrival. */
  function Issued(notifiers: seq<string>, handled: seq<Event>): seq<Notification> {
    if handled == [] then []
    else
      var e := Last(handled);
      Issued(notifiers, ButLast(handled)) +
      if e.Data? && ShouldNotify(e.result) then ForAll(notifiers, Delivered(e.result)) else []
  }

  /** A recovery is delivered with its alert machine reset. */
  function Delivered(result: Result): (d: Result)
    ensures d.(alert := result.alert) == result
    ensures result.status != Up ==> d == result
    ensures result.status == Up ==> !d.alert.isSent && d.alert.failed == 0 && d.alert.notified == 0 && d.alert.next == 1
  {
    if result.status == Up then result.(alert := Fresh(result.alert.settings)) else result
  }

  /** The results of a run are delivered as they are: an Up round has reset the machine already. */
  lemma {:induction false} RunIsDeliveredUnchanged(cfg: Config, rounds: seq<Round>)
    requires rounds != []
    ensures Delivered(Run(cfg, rounds)) == Run(cfg, rounds)
  {
    StepShifts(cfg, Run(cfg, ButLast(rounds)), Last(rounds));
  }

  function ForAll(notifiers: seq<string>, result: Result): (r: seq<Notification>)
    ensures |r| == |notifiers|
    ensures forall i :: 0 <= i < |r| ==> r[i] == Notification(notifiers[i], result)
  {
    if notifiers == [] then []
    else ForAll(ButLast(notifiers), result) + [Notification(Last(notifiers), result)]
  }

  lemma {:induction false} HandledStep(events: seq<Event>, n: nat)
    requires n < |events| && forall i :: 0 <= i < n ==> events[i].Data?
    ensures Handled(events) == events[..n] + Handled(events[n..])
  {
    if n == 0 {
      assert events[..0] == [] && events[0..] == events;
    } else {
      HandledStep(events[1..], n - 1);
      assert events[1..][n - 1..] == events[n..];
      assert [events[0]] + events[1..][..n - 1] == events[..n];
    }
  }

  lemma {:induction false} HandledAll(events: seq<Event>)
    requires forall i :: 0 <= i < |events| ==> events[i].Data?
    ensures Handled(events) == events
  {
    if events != [] {
      HandledAll(events[1..]);
    }
  }

  class Channel {
    const name: string
    const notifiers: seq<string>
    var isWatch: int
    /** Everything handed to the notifiers so far. */
    var issued: seq<Notification>

    constructor (name: string, notifiers: seq<string>)
      ensures this.name == name && this.notifiers == notifiers && isWatch == 0 && issued == []
    {
      this.name := name;
      this.notifiers := notifiers;
      isWatch := 0;
      issued := [];
    }

    method CompareAndSwap(expected: int, replacement: int) returns (swapped: bool)
      modifies this`isWatch
      ensures swapped == (old(isWatch) == expected)
      ensures isWatch == if swapped then replacement else old(isWatch)
    {
      swapped := isWatch == expected;
      if swapped {
        isWatch := replacement;
      }
    }

    method NotifyAll(result: Result)
      modifies this`issued
      ensures issued == old(issued) + ForAll(notifiers, result)
    {
      for i := 0 to |notifiers|
        invariant issued == old(issued) + ForAll(notifiers[..i], result)
      {
        issued := issued + [Notification(notifiers[i], result)];
        assert ButLast(notifiers[..i + 1]) == notifiers[..i];
      }
      assert notifiers[..|notifiers|] == notifiers;
    }

    /**
     A watcher that finds the channel already watched returns without touching anything. Otherwise it issues
     exactly the notifications that the handled results call for, and gives the flag back only when it has
     received the done signal.
     */
    method WatchEvent(events: seq<Event>) returns (stopped: bool)
      modifies this
      ensures old(isWatch) != 0 ==> stopped && isWatch == old(isWatch) && issued == old(issued)
      ensures old(isWatch) == 0 ==>
                && issued == old(issued) + Issued(notifiers, Handled(events))
                && stopped == (Done in events)
                && isWatch == if stopped then 0 else 1
    {
      var won := CompareAndSwap(0, 1);
      if !won {
        return true;
      }
      var n := 0;
      while n < |events|
        invariant 0 <= n <= |events|
        invariant forall i :: 0 <= i < n ==> events[i].Data?
        invariant isWatch == 1
        invariant issued == old(issued) + Issued(notifiers, events[..n])
      {
        if events[n].Done? {
          HandledStep(events, n);
          assert Handled(events) == events[..n];
          isWatch := 0;
          return true;
        }
        var result := events[n].result;
        n := n + 1;
        assert ButLast(events[..n]) == events[..n - 1];
        if result.preStatus == Init && result.status == Up {
          continue;
        }
        if result.preStatus == result.status && (result.status == Up || result.status == Init) {
          continue;
        }
        if result.status == Up {
          result := result.(alert := Fresh(result.alert.settings));
        }
        if result.status == Down {
          if !result.alert.isSent {
            continue;
          }
        }
        NotifyAll(result);
      }
      HandledAll(events);
      assert events[..|events|] == events;
      stopped := false;
    }
  }
}
