/**
 * The `days` resolver: every order's Unix-seconds `time` mapped to the start of
 * its calendar day, reported in milliseconds. The clock is a fixed offset from
 * UTC, given in minutes as moment's `utcOffset()` reports it.
 */
module Days {
  import opened Model

  /** Length of a calendar day in milliseconds. */
  const DayMs: int := 86_400_000

  /** One `days` entry; its `start` is the day's first instant in Unix milliseconds. */
  datatype Day = Day(start: int)

  /** True when `start` is a local midnight (for `offsetMinutes`) in Unix milliseconds. */
  predicate IsMidnight(start: int, offsetMinutes: int)
  {
    (start + offsetMinutes * 60_000) % DayMs == 0
  }

  /** True when the local day beginning at `start` contains the instant `time` (in seconds). */
  predicate DayContains(start: int, time: int, offsetMinutes: int)
  {
    IsMidnight(start, offsetMinutes) && start <= time * 1000 < start + DayMs
  }

  /** moment.unix(time).startOf('day').valueOf() on a clock `offsetMinutes` ahead of UTC. */
  function StartOfDay(time: int, offsetMinutes: int): (start: int)
    ensures DayContains(start, time, offsetMinutes)
  {
    var local := time * 1000 + offsetMinutes * 60_000;
    local - local % DayMs - offsetMinutes * 60_000
  }

  /** Exactly one local midnight lies in the day-long window ending at any instant. */
  lemma StartOfDayUnique(time: int, offsetMinutes: int, start: int)
    requires DayContains(start, time, offsetMinutes)
    ensures start == StartOfDay(time, offsetMinutes)
  {
  }

  /** Two instants share a day entry exactly when they fall in the same local day. */
  lemma SameDayIff(t1: int, t2: int, offsetMinutes: int)
    ensures StartOfDay(t1, offsetMinutes) == StartOfDay(t2, offsetMinutes)
        <==> DayContains(StartOfDay(t1, offsetMinutes), t2, offsetMinutes)
  {
  }

  /** The `days` resolver: one entry per order, in the order of the data, without deduplication. */
  function Days(data: seq<Order>, offsetMinutes: int): (days: seq<Day>)
    ensures |days| == |data|
    ensures forall i :: 0 <= i < |data| ==> DayContains(days[i].start, data[i].time, offsetMinutes)
  {
    if data == [] then []
    else [Day(StartOfDay(data[0].time, offsetMinutes))] + Days(data[1..], offsetMinutes)
  }

  /** `days` is a map over the data: it commutes with concatenation, so it keeps order and duplicates. */
  lemma {:induction false} DaysAppend(a: seq<Order>, b: seq<Order>, offsetMinutes: int)
    ensures Days(a + b, offsetMinutes) == Days(a, offsetMinutes) + Days(b, offsetMinutes)
  {
    if a != [] {
      assert (a + b)[1..] == a[1..] + b;
      DaysAppend(a[1..], b, offsetMinutes);
    } else {
      assert a + b == b;
    }
  }

  /** Each entry is the start of the day of the order at the same position. */
  lemma DaysAt(data: seq<Order>, offsetMinutes: int, i: int)
    requires 0 <= i < |data|
    ensures Days(data, offsetMinutes)[i] == Day(StartOfDay(data[i].time, offsetMinutes))
  {
    StartOfDayUnique(data[i].time, offsetMinutes, Days(data, offsetMinutes)[i].start);
  }

  /** Orders at two positions that fall in the same local day give equal entries: `days` does not deduplicate. */
  lemma DaysKeepsDuplicates(data: seq<Order>, offsetMinutes: int, i: int, j: int)
    requires 0 <= i < |data| && 0 <= j < |data| && i != j
    requires DayContains(StartOfDay(data[i].time, offsetMinutes), data[j].time, offsetMinutes)
    ensures Days(data, offsetMinutes)[i] == Days(data, offsetMinutes)[j]
  {
    DaysAt(data, offsetMinutes, i);
    DaysAt(data, offsetMinutes, j);
    StartOfDayUnique(data[j].time, offsetMinutes, StartOfDay(data[i].time, offsetMinutes));
  }
}
