/** `QueryableDateTime`: a point in time with the bounds of its day, and the
    enumeration of day starts from a watermark up to "now".

    Time is integer epoch seconds and every day has exactly 86400 seconds
    (no local time zone, no daylight-saving shifts). An ISO date string is an
    injective rendering of the day number, so it is kept as that number. */
module Clock {

  const SecondsPerDay: int := 86400

  /** Start of the day containing `t`. */
  function Midnight(t: int): int {
    t - t % SecondsPerDay
  }

  /** Day number of `t` (days since the epoch, rounded down). */
  function DayOf(t: int): int {
    t / SecondsPerDay
  }

  /** `date.date().isoformat()`: the calendar day of an instant. */
  datatype IsoDate = IsoDate(day: int)

  function DateIso(t: int): IsoDate {
    IsoDate(DayOf(t))
  }

  /** A `QueryableDateTime` built from an epoch. */
  datatype Moment = Moment(epoch: int)

  /** `from_time`: the instant itself, in whole seconds. */
  function FromTime(q: Moment): int {
    q.epoch
  }

  /** `to_time`: 23:59:59 of the same day. */
  function ToTime(q: Moment): int {
    Midnight(q.epoch) + 23 * 3600 + 59 * 60 + 59
  }

  /** `to_time` is the last second of `q`'s day: on that day, and followed by the next day. */
  lemma ToTimeEndsDay(q: Moment, t: int)
    ensures DayOf(ToTime(q)) == DayOf(q.epoch)
    ensures DayOf(ToTime(q) + 1) == DayOf(q.epoch) + 1
    ensures DayOf(t) == DayOf(q.epoch) ==> t <= ToTime(q)
    ensures q.epoch % SecondsPerDay == 0 ==> ToTime(q) == FromTime(q) + 86399
  {
  }

  /** `(today - start_date).days`: whole 24-hour periods elapsed, rounded down. */
  function DaysSince(start: int, now: int): int {
    (now - start) / SecondsPerDay
  }

  /** The day starts `_get_epoch_since` returns: the midnight of `start + i` days
      for `i` in `range(days_since + 1)`. */
  function DayStarts(start: int, now: int): (r: seq<int>)
    ensures |r| == if now < start then 0 else DaysSince(start, now) + 1
    ensures forall i :: 0 <= i < |r| ==> r[i] == Midnight(start) + i * SecondsPerDay
  {
    var n := DaysSince(start, now) + 1;
    if n <= 0 then []
    else
      var r := seq(n, i requires 0 <= i < n => Midnight(start + i * SecondsPerDay));
      assert forall i :: 0 <= i < n ==> r[i] == Midnight(start) + i * SecondsPerDay by {
        forall i | 0 <= i < n ensures r[i] == Midnight(start) + i * SecondsPerDay {
          ShiftByDays(start, i);
        }
      }
      r
  }

  lemma ShiftByDays(t: int, i: int)
    ensures Midnight(t + i * SecondsPerDay) == Midnight(t) + i * SecondsPerDay
  {
    var q := t / SecondsPerDay;
    assert t == q * SecondsPerDay + t % SecondsPerDay;
    assert t + i * SecondsPerDay == (q + i) * SecondsPerDay + t % SecondsPerDay;
    assert (t + i * SecondsPerDay) % SecondsPerDay == t % SecondsPerDay;
  }

  /** `_get_epoch_since`, loop as written. */
  method EpochsSince(start: int, now: int) returns (dates: seq<int>)
    ensures dates == DayStarts(start, now)
  {
    var daysSince := (now - start) / SecondsPerDay;
    dates := [];
    var i := 0;
    while i < daysSince + 1
      invariant 0 <= i && (daysSince + 1 <= 0 ==> i == 0)
      invariant daysSince + 1 > 0 ==> i <= daysSince + 1
      invariant |dates| == i
      invariant forall j :: 0 <= j < i ==> dates[j] == Midnight(start) + j * SecondsPerDay
    {
      var day := start + i * SecondsPerDay;
      ShiftByDays(start, i);
      dates := dates + [day - day % SecondsPerDay];
      i := i + 1;
    }
  }

  /** The enumeration is empty exactly when the watermark lies in the future;
      otherwise it starts at the watermark's midnight, steps by one day, and
      never passes `now`. */
  lemma {:induction false} DayStartsShape(start: int, now: int)
    ensures DayStarts(start, now) == [] <==> now < start
    ensures DayStarts(start, now) != [] ==> DayStarts(start, now)[0] == Midnight(start)
    ensures forall i :: 0 <= i < |DayStarts(start, now)| - 1 ==>
      DayStarts(start, now)[i + 1] == DayStarts(start, now)[i] + SecondsPerDay
    ensures forall i :: 0 <= i < |DayStarts(start, now)| ==>
      DayStarts(start, now)[i] % SecondsPerDay == 0 && DayStarts(start, now)[i] <= now
  {
    var r := DayStarts(start, now);
    forall i | 0 <= i < |r|
      ensures r[i] % SecondsPerDay == 0 && r[i] <= now
    {
      var d := DaysSince(start, now);
      assert i <= d;
      assert d * SecondsPerDay <= now - start;
      assert Midnight(start) <= start;
      assert r[i] == (start / SecondsPerDay + i) * SecondsPerDay;
    }
  }

  /** Strictly increasing, so the enumeration never repeats a day. */
  lemma DayStartsIncreasing(start: int, now: int, i: int, j: int)
    requires 0 <= i < j < |DayStarts(start, now)|
    ensures DayStarts(start, now)[i] < DayStarts(start, now)[j]
    ensures DateIso(DayStarts(start, now)[i]) != DateIso(DayStarts(start, now)[j])
  {
    var r := DayStarts(start, now);
    var m := Midnight(start);
    assert m == (start / SecondsPerDay) * SecondsPerDay;
    assert r[i] == (start / SecondsPerDay + i) * SecondsPerDay;
    assert r[j] == (start / SecondsPerDay + j) * SecondsPerDay;
    assert DayOf(r[i]) == start / SecondsPerDay + i;
    assert DayOf(r[j]) == start / SecondsPerDay + j;
  }

  /** The last day enumerated is today or yesterday. */
  lemma DayStartsEndNearNow(start: int, now: int)
    requires start <= now
    ensures var r := DayStarts(start, now);
      Midnight(now) - SecondsPerDay <= r[|r| - 1] <= Midnight(now)
  {
    var r := DayStarts(start, now);
    var d := DaysSince(start, now);
    DayStartsShape(start, now);
    assert r[|r| - 1] == Midnight(start) + d * SecondsPerDay;
    assert now - start < (d + 1) * SecondsPerDay;
    assert start - Midnight(start) < SecondsPerDay;
    assert r[|r| - 1] % SecondsPerDay == 0;
    assert Midnight(now) == (now / SecondsPerDay) * SecondsPerDay;
    assert r[|r| - 1] == (start / SecondsPerDay + d) * SecondsPerDay;
  }

  /** From a midnight watermark (the only kind the sync writes) the enumeration
      reaches today's midnight. */
  lemma DayStartsFromMidnightReachToday(start: int, now: int)
    requires start <= now && start % SecondsPerDay == 0
    ensures var r := DayStarts(start, now); r[|r| - 1] == Midnight(now)
  {
    var r := DayStarts(start, now);
    var d := DaysSince(start, now);
    assert start == (start / SecondsPerDay) * SecondsPerDay;
    assert r[|r| - 1] == start + d * SecondsPerDay;
    assert now == start + d * SecondsPerDay + (now - start) % SecondsPerDay;
  }

  /** From a non-midnight start, whole 24-hour periods are counted, not calendar
      days: 23:00 on day 0 to 01:00 on day 1 yields day 0 only. */
  lemma DayStartsCanStopBeforeToday()
    ensures DayStarts(82800, 90000) == [0] && Midnight(90000) == 86400
  {
    assert DaysSince(82800, 90000) == 0;
  }

  /** `get_all_since`: one `QueryableDateTime` per enumerated day start; each
      round-trips its epoch and spans that whole day. */
  function GetAllSince(q: Moment, now: int): (r: seq<Moment>)
    ensures |r| == |DayStarts(q.epoch, now)|
    ensures forall i :: 0 <= i < |r| ==>
      FromTime(r[i]) == DayStarts(q.epoch, now)[i]
      && ToTime(r[i]) == DayStarts(q.epoch, now)[i] + 86399
  {
    var epochs := DayStarts(q.epoch, now);
    DayStartsShape(q.epoch, now);
    seq(|epochs|, i requires 0 <= i < |epochs| => Moment(epochs[i]))
  }
}
