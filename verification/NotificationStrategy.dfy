/** The alert back-off machine in the form of the program: an object whose methods update its fields. */
module NotificationStrategy {
  import opened AlertSchedule

  class NotificationStrategyData {
    var settings: Settings
    var notified: int
    var failed: int
    var next: int
    var interval: int
    var isSent: bool

    ghost function View(): Alert
      reads this
    {
      Alert(settings, notified, failed, next, interval, isSent)
    }

    constructor (strategy: int, maxTimes: int, factor: int)
      ensures View() == Fresh(Settings(strategy, factor, maxTimes))
    {
      settings := Settings(strategy, factor, maxTimes);
      new;
      Reset();
    }

    /** The machine of a stored result. */
    constructor Restore(stored: Alert)
      ensures View() == stored
    {
      settings := stored.settings;
      notified, failed, next, interval := stored.notified, stored.failed, stored.next, stored.interval;
      isSent := stored.isSent;
    }

    /** The copy held by a snapshot is a value. */
    method Clone() returns (copy: Alert)
      ensures copy == View()
    {
      copy := Alert(settings, notified, failed, next, interval, isSent);
    }

    method Reset()
      modifies this
      ensures View() == Fresh(old(settings))
    {
      failed := 0;
      notified := 0;
      next := 1;
      interval := 0;
      isSent := false;
    }

    method IsExceedMaxTimes() returns (exceeded: bool)
      ensures exceeded <==> notified > settings.maxTimes
    {
      exceeded := notified > settings.maxTimes;
    }

    method NextNotification()
      modifies this`interval, this`next
      ensures View() == Reschedule(old(View()))
    {
      if settings.strategy == REGULAR {
        interval := settings.factor;
      } else if settings.strategy == INCREMENT {
        interval := interval + settings.factor;
      } else if settings.strategy == EXPONENTIAL {
        interval := failed * settings.factor;
      } else {
        interval := 1;
      }
      next := failed + interval;
    }

    method ProcessStatus(status: bool)
      modifies this
      ensures View() == Process(old(View()), status)
    {
      isSent := false;
      if status {
        Reset();
        return;
      }
      failed := failed + 1;
      if failed < next {
        return;
      }
      notified := notified + 1;
      var exceeded := IsExceedMaxTimes();
      if exceeded {
        return;
      }
      NextNotification();
      isSent := true;
    }
  }
}
