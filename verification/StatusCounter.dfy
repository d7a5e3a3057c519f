/**
 The status counter as an object. Its history is a slice: a backing array, an offset and a length, so that a
 clone shares the backing array with the counter that keeps appending to it.
 */
module StatusCounters {
  import opened CounterSpec

  /** The copy that a snapshot holds: the slice header is copied, the backing array is shared. */
  datatype CounterCopy = CounterCopy(
    backing: array<Entry>, start: nat, len: nat, maxLen: int, current: bool, count: int)
  {
    ghost predicate Valid() {
      start + len <= backing.Length
    }

    /** What a reader of the copy sees now. */
    ghost function View(): Counter
      requires Valid()
      reads backing
    {
      Counter(backing[start..start + len], maxLen, current, count)
    }
  }

  class StatusCounter {
    var backing: array<Entry>
    var start: nat
    var len: nat
    var maxLen: int
    var current: bool
    var count: int

    ghost predicate Valid()
      reads this
    {
      start + len <= backing.Length
    }

    ghost function View(): Counter
      requires Valid()
      reads this, backing
    {
      Counter(backing[start..start + len], maxLen, current, count)
    }

    /** `copy` was cloned from this counter or does not share its backing array. */
    ghost predicate Covers(copy: CounterCopy)
      reads this
    {
      copy.Valid() && (copy.backing == backing ==> copy.start + copy.len <= start + len)
    }

    /** Since the old state the backing array was only written behind the old end of the slice, or replaced. */
    twostate predicate KeepsHistory()
      requires old(Valid())
      reads *
    {
      && (backing == old(backing) || fresh(backing))
      && (backing == old(backing) ==> start + len >= old(start + len))
      && forall i :: 0 <= i < old(start + len) ==> old(backing)[i] == old(backing[i])
    }

    constructor (maxLen: int)
      ensures Valid() && fresh(backing)
      ensures View() == Empty(maxLen)
    {
      backing := new Entry[0];
      start, len := 0, 0;
      this.maxLen := maxLen;
      current, count := true, 0;
    }

    /** The counter of a stored result; it shares the backing array of the stored slice. */
    constructor Restore(stored: CounterCopy)
      requires stored.Valid()
      ensures Valid() && backing == stored.backing
      ensures View() == stored.View() && Covers(stored)
    {
      backing, start, len := stored.backing, stored.start, stored.len;
      maxLen, current, count := stored.maxLen, stored.current, stored.count;
    }

    /** Moves the slice to the front of a larger backing array; Go does not promise its size. */
    method Grow()
      requires Valid()
      modifies this`backing, this`start
      ensures Valid() && View() == old(View())
      ensures fresh(backing) && start == 0 && len < backing.Length
    {
      var capacity: nat :| capacity > len;
      var larger := new Entry[capacity](_ => Entry(false, ""));
      forall i | 0 <= i < len {
        larger[i] := backing[start + i];
      }
      assert larger[0..len] == backing[start..start + len];
      backing, start := larger, 0;
    }

    /**
     Go's append: writes behind the slice when the backing array has room, otherwise moves the slice to a
     larger array. Either way nothing in front of the old end of the slice changes.
     */
    method AppendEntry(e: Entry)
      requires Valid()
      modifies this`backing, this`start, this`len, backing
      ensures Valid()
      ensures len == old(len) + 1
      ensures View() == old(View()).(history := old(View()).history + [e])
      ensures KeepsHistory()
    {
      if start + len >= backing.Length {
        Grow();
      }
      ghost var kept := backing[start..start + len];
      backing[start + len] := e;
      len := len + 1;
      assert backing[start..start + len] == kept + [e];
    }

    /** The reslice `h[1:]`. */
    method PopFront()
      requires Valid() && len > 0
      modifies this`start, this`len
      ensures Valid() && start + len == old(start + len)
      ensures View() == old(View()).(history := old(View()).history[1..])
    {
      start, len := start + 1, len - 1;
    }

    method CountStatus(status: bool)
      requires Valid()
      modifies this`current, this`count
      ensures View() == Counted(old(View()), status)
    {
      if status != current {
        count := 0;
        current := status;
      }
      if count < maxLen {
        count := count + 1;
      }
    }

    method AppendStatus(status: bool, message: string)
      requires Valid()
      modifies this, backing
      ensures Valid()
      ensures View() == Append(old(View()), Entry(status, message))
      ensures KeepsHistory()
    {
      CountStatus(status);
      AppendEntry(Entry(status, message));
      if len > maxLen {
        PopFront();
      }
    }

    method SetMaxLen(maxLen: nat)
      requires Valid()
      modifies this`maxLen, this`start, this`len
      ensures Valid()
      ensures View() == Resize(old(View()), maxLen)
      ensures start + len == old(start + len)
    {
      this.maxLen := maxLen;
      if len > maxLen {
        start, len := start + len - maxLen, maxLen;
      }
    }

    method Clone() returns (copy: CounterCopy)
      requires Valid()
      ensures copy.Valid() && Covers(copy)
      ensures copy.View() == View()
      ensures copy.backing == backing
    {
      copy := CounterCopy(backing, start, len, maxLen, current, count);
    }
  }
}
