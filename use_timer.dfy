/**
 * The game timer of src/hooks/useTimer.ts. The hook keeps an append-only stack
 * of `play`/`pause` entries stamped with the clock, and every tick folds the
 * stack into the time spent playing. Times are integer milliseconds.
 */
module UseTimer {

  datatype EntryStatus = PlayEntry | PauseEntry

  datatype TimerEntry = TimerEntry(timestamp: int, status: EntryStatus)

  /** The variables of the accumulation loop: `totalTime`, `prevStatus`, `prevTimestamp`. */
  datatype Tally = Tally(total: int, prevStatus: EntryStatus, prevTimestamp: int)

  /** The loop's initial values. */
  const Initial: Tally := Tally(0, PauseEntry, 0)

  /**
   * One iteration: a `play` right after a counted `play` is skipped; a `pause`
   * adds the time since the previous counted entry; every counted entry
   * becomes the previous one.
   */
  function Step(t: Tally, entry: TimerEntry): (r: Tally)
    ensures r.prevStatus == entry.status
    ensures entry.status == PlayEntry ==> r.total == t.total
    ensures entry.status == PauseEntry ==> r.total - t.total == entry.timestamp - t.prevTimestamp && r.prevTimestamp == entry.timestamp
  {
    if entry.status == PlayEntry && t.prevStatus == PlayEntry then t
    else if entry.status == PauseEntry then Tally(t.total + entry.timestamp - t.prevTimestamp, PauseEntry, entry.timestamp)
    else Tally(t.total, entry.status, entry.timestamp)
  }

  /** The loop over the stack, front to back. */
  function Run(t: Tally, entries: seq<TimerEntry>): (r: Tally)
    ensures entries == [] ==> r == t
    ensures entries != [] ==> r.prevStatus == entries[|entries| - 1].status
    decreases |entries|
  {
    if entries == [] then t else Run(Step(t, entries[0]), entries[1..])
  }

  /** After the loop: a timer still running adds the time since its last counted entry. */
  function Finish(t: Tally, now: int): (r: int)
    ensures t.prevStatus == PauseEntry ==> r == t.total
    ensures t.prevStatus == PlayEntry && t.prevTimestamp <= now ==> t.total <= r
  {
    if t.prevStatus == PlayEntry then t.total + now - t.prevTimestamp else t.total
  }

  /** The time spent playing, as one tick computes it at clock value `now`. */
  function ElapsedTime(entries: seq<TimerEntry>, now: int): (r: int)
    ensures entries == [] ==> r == 0
    ensures entries != [] && entries[|entries| - 1].status == PauseEntry ==> r == Run(Initial, entries).total
  {
    Finish(Run(Initial, entries), now)
  }

  /** Running the loop over one more entry is one more step. */
  lemma {:induction false} RunAppend(t: Tally, entries: seq<TimerEntry>, entry: TimerEntry)
    ensures Run(t, entries + [entry]) == Step(Run(t, entries), entry)
    decreases |entries|
  {
    if entries != [] {
      assert (entries + [entry])[1..] == entries[1..] + [entry];
      RunAppend(Step(t, entries[0]), entries[1..], entry);
    }
  }

  /** A `play` entry pushed while the last counted entry is `play` changes nothing. */
  lemma RepeatedPlayIgnored(entries: seq<TimerEntry>, timestamp: int, now: int)
    requires Run(Initial, entries).prevStatus == PlayEntry
    ensures Run(Initial, entries + [TimerEntry(timestamp, PlayEntry)]) == Run(Initial, entries)
    ensures ElapsedTime(entries + [TimerEntry(timestamp, PlayEntry)], now) == ElapsedTime(entries, now)
  {
    RunAppend(Initial, entries, TimerEntry(timestamp, PlayEntry));
  }

  /** A `pause` entry adds its distance from the previous counted entry and stops the clock. */
  lemma PauseAddsInterval(entries: seq<TimerEntry>, timestamp: int, now: int)
    ensures var before := Run(Initial, entries);
      ElapsedTime(entries + [TimerEntry(timestamp, PauseEntry)], now) == before.total + timestamp - before.prevTimestamp
  {
    RunAppend(Initial, entries, TimerEntry(timestamp, PauseEntry));
  }

  /** A `play` entry after a counted `pause` adds nothing yet but restarts the clock at its timestamp. */
  lemma PlayRestartsClock(entries: seq<TimerEntry>, timestamp: int, now: int)
    requires Run(Initial, entries).prevStatus == PauseEntry
    ensures ElapsedTime(entries + [TimerEntry(timestamp, PlayEntry)], now) == Run(Initial, entries).total + now - timestamp
  {
    RunAppend(Initial, entries, TimerEntry(timestamp, PlayEntry));
  }

  ghost predicate Sorted(entries: seq<TimerEntry>) {
    forall i, j :: 0 <= i < j < |entries| ==> entries[i].timestamp <= entries[j].timestamp
  }

  /** Entries alternate `play`, `pause`, `play`, ... starting with `play`. */
  ghost predicate Alternating(entries: seq<TimerEntry>) {
    forall i :: 0 <= i < |entries| ==> entries[i].status == (if i % 2 == 0 then PlayEntry else PauseEntry)
  }

  /** Reference definition: the sum of the closed play intervals plus the open one, if any. */
  ghost function PlayIntervals(entries: seq<TimerEntry>, now: int): int
    decreases |entries|
  {
    if |entries| == 0 then 0
    else if |entries| == 1 then now - entries[0].timestamp
    else entries[1].timestamp - entries[0].timestamp + PlayIntervals(entries[2..], now)
  }

  lemma {:induction false} RunAlternating(t: Tally, entries: seq<TimerEntry>, now: int)
    requires t.prevStatus == PauseEntry && Alternating(entries)
    ensures Finish(Run(t, entries), now) == t.total + PlayIntervals(entries, now)
    decreases |entries|
  {
    if |entries| == 1 {
      assert entries[1..] == [];
    } else if |entries| >= 2 {
      var afterPause := Step(Step(t, entries[0]), entries[1]);
      assert entries[1..][1..] == entries[2..];
      assert Alternating(entries[2..]) by {
        forall i | 0 <= i < |entries[2..]|
          ensures entries[2..][i].status == (if i % 2 == 0 then PlayEntry else PauseEntry)
        {
          assert entries[2..][i] == entries[i + 2];
          assert (i + 2) % 2 == i % 2;
        }
      }
      RunAlternating(afterPause, entries[2..], now);
    }
  }

  /** For strictly alternating entries the tick's total is the sum of the play intervals. */
  lemma AlternatingElapsedTime(entries: seq<TimerEntry>, now: int)
    requires Alternating(entries)
    ensures ElapsedTime(entries, now) == PlayIntervals(entries, now)
  {
    RunAlternating(Initial, entries, now);
  }

  /**
   * From a tally whose previous timestamp is not after any entry nor after
   * `now`, the loop and the final step add between 0 and `now - prevTimestamp`.
   */
  lemma {:induction false} RunBounds(t: Tally, entries: seq<TimerEntry>, now: int)
    requires Sorted(entries)
    requires forall i :: 0 <= i < |entries| ==> t.prevTimestamp <= entries[i].timestamp <= now
    requires t.prevTimestamp <= now
    ensures t.total <= Finish(Run(t, entries), now) <= t.total + now - t.prevTimestamp
    decreases |entries|
  {
    if entries != [] {
      var next := Step(t, entries[0]);
      assert forall i :: 0 <= i < |entries[1..]| ==> entries[1..][i] == entries[i + 1];
      RunBounds(next, entries[1..], now);
    }
  }

  /**
   * A stack that starts with `play`, with nondecreasing timestamps none later
   * than `now`, yields a total between 0 and `now` minus the first timestamp.
   */
  lemma ElapsedTimeBounds(entries: seq<TimerEntry>, now: int)
    requires |entries| > 0 && entries[0].status == PlayEntry
    requires Sorted(entries)
    requires entries[|entries| - 1].timestamp <= now
    ensures 0 <= ElapsedTime(entries, now) <= now - entries[0].timestamp
  {
    var first := Step(Initial, entries[0]);
    assert forall i :: 0 <= i < |entries[1..]| ==> entries[1..][i] == entries[i + 1];
    RunBounds(first, entries[1..], now);
  }

  /** The hook's state: the stack kept in a ref and the displayed time. */
  class Timer {
    var stack: seq<TimerEntry>
    var time: int

    /** The push rule keeps `pause` off an empty stack, so the first entry is always `play`. */
    ghost predicate Valid()
      reads this
    {
      |stack| > 0 ==> stack[0].status == PlayEntry
    }

    constructor ()
      ensures Valid() && stack == [] && time == 0
    {
      stack := [];
      time := 0;
    }

    /**
     * The effect run when `pause` changes: nothing while the stack is empty and
     * the timer is paused, otherwise one entry stamped `now` is appended.
     */
    method Push(pause: bool, now: int)
      requires Valid()
      modifies this`stack
      ensures Valid()
      ensures old(stack) == [] && pause ==> stack == []
      ensures !(old(stack) == [] && pause) ==>
        stack == old(stack) + [TimerEntry(now, if pause then PauseEntry else PlayEntry)]
      ensures Sorted(old(stack)) && (old(stack) != [] ==> old(stack)[|old(stack)| - 1].timestamp <= now) ==>
        Sorted(stack)
    {
      if stack == [] && pause {
        return;
      }
      stack := stack + [TimerEntry(now, if pause then PauseEntry else PlayEntry)];
    }

    /** The accumulation loop of one tick. */
    method Elapsed(now: int) returns (totalTime: int)
      ensures totalTime == ElapsedTime(stack, now)
    {
      totalTime := 0;
      var prevStatus := PauseEntry;
      var prevTimestamp := 0;
      for i := 0 to |stack|
        invariant Run(Tally(totalTime, prevStatus, prevTimestamp), stack[i..]) == Run(Initial, stack)
      {
        var entry := stack[i];
        assert stack[i..][1..] == stack[i + 1..];
        if entry.status == PlayEntry && prevStatus == PlayEntry {
          continue;
        } else if entry.status == PauseEntry {
          totalTime := totalTime + entry.timestamp - prevTimestamp;
        }
        prevStatus := entry.status;
        prevTimestamp := entry.timestamp;
      }
      if prevStatus == PlayEntry {
        totalTime := totalTime + now - prevTimestamp;
      }
    }

    /**
     * One tick of the interval: the displayed time becomes the fold of the
     * stack. On a valid, sorted stack read no earlier than its last entry, it
     * lies between 0 and the time since the first `play`.
     */
    method Tick(now: int)
      modifies this`time
      ensures time == ElapsedTime(stack, now)
      ensures Valid() && Sorted(stack) && (stack != [] ==> stack[|stack| - 1].timestamp <= now) ==>
        0 <= time && (stack != [] ==> time <= now - stack[0].timestamp)
    {
      time := Elapsed(now);
      if Valid() && Sorted(stack) && stack != [] && stack[|stack| - 1].timestamp <= now {
        ElapsedTimeBounds(stack, now);
      }
    }

    /** `reset`: an empty stack and a zero time. */
    method Reset()
      modifies this
      ensures Valid() && stack == [] && time == 0
    {
      stack := [];
      time := 0;
    }
  }
}
