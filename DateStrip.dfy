/**
 * The strip of quick-pick date buttons: starting today, the next seven days
 * that are not Fridays (the clinic takes no appointments on Fridays).
 */
module DateStrip {
  import opened Calendar

  const StripLength: nat := 7

  predicate IsFriday(d: Date)
    requires ValidDate(d)
  {
    Weekday(d) == Friday
  }

  /** The day after a Friday is not a Friday. */
  lemma AfterFriday(d: Date)
    requires ValidDate(d) && IsFriday(d)
    ensures !IsFriday(NextDay(d))
  {
    NextWeekday(d);
  }

  /** The first n days from d on that are not Fridays, in calendar order. */
  function NonFridaysFrom(d: Date, n: nat): (r: seq<Date>)
    requires ValidDate(d)
    ensures |r| == n
    ensures forall i :: 0 <= i < n ==> ValidDate(r[i]) && !IsFriday(r[i])
    decreases 2 * n + (if IsFriday(d) then 1 else 0)
  {
    if n == 0 then []
    else if IsFriday(d) then
      AfterFriday(d);
      NonFridaysFrom(NextDay(d), n)
    else [d] + NonFridaysFrom(NextDay(d), n - 1)
  }

  /**
   * The strip as the screen builds it: walk forward a day at a time, keeping
   * every day that is not a Friday, until seven are kept.
   */
  method BuildDateStrip(today: Date) returns (dates: seq<Date>)
    requires ValidDate(today)
    ensures dates == NonFridaysFrom(today, StripLength)
  {
    dates := [];
    var current := today;
    while |dates| < StripLength
      invariant ValidDate(current)
      invariant |dates| <= StripLength
      invariant dates + NonFridaysFrom(current, StripLength - |dates|) == NonFridaysFrom(today, StripLength)
      decreases 2 * (StripLength - |dates|) + (if IsFriday(current) then 1 else 0)
    {
      var next := NextDay(current);
      if !IsFriday(current) {
        assert NonFridaysFrom(current, StripLength - |dates|)
            == [current] + NonFridaysFrom(next, StripLength - |dates| - 1);
        dates := dates + [current];
      } else {
        AfterFriday(current);
      }
      current := next;
    }
  }

  /** The strip starts today, or tomorrow when today is a Friday. */
  lemma StripStart(d: Date, n: nat)
    requires ValidDate(d) && n > 0
    ensures NonFridaysFrom(d, n)[0] == if IsFriday(d) then NextDay(d) else d
  {
    if IsFriday(d) {
      AfterFriday(d);
    }
  }

  /**
   * Each date of the strip is followed by the next day, or, when the next day is
   * a Friday, by the day after it: no non-Friday day is skipped.
   */
  lemma {:induction false} StripConsecutive(d: Date, n: nat, i: nat)
    requires ValidDate(d) && i + 1 < n
    ensures var r := NonFridaysFrom(d, n);
      var next := NextDay(r[i]);
      if IsFriday(next) then r[i + 1] == NextDay(next) else r[i + 1] == next
    decreases 2 * n + (if IsFriday(d) then 1 else 0)
  {
    var r := NonFridaysFrom(d, n);
    if IsFriday(d) {
      AfterFriday(d);
      StripConsecutive(NextDay(d), n, i);
    } else if i == 0 {
      StripStart(NextDay(d), n - 1);
      var next := NextDay(d);
      if IsFriday(next) {
        AfterFriday(next);
      }
    } else {
      StripConsecutive(NextDay(d), n - 1, i - 1);
    }
  }

  /** Later dates of the strip are later days: the strip is strictly increasing. */
  lemma StripIncreasing(d: Date, n: nat, i: nat, j: nat)
    requires ValidDate(d) && i < j < n
    ensures DayNumber(NonFridaysFrom(d, n)[i]) < DayNumber(NonFridaysFrom(d, n)[j])
    decreases j - i
  {
    var r := NonFridaysFrom(d, n);
    StripConsecutive(d, n, j - 1);
    var next := NextDay(r[j - 1]);
    NextDayNumber(r[j - 1]);
    if IsFriday(next) {
      NextDayNumber(next);
    }
    if i < j - 1 {
      StripIncreasing(d, n, i, j - 1);
    }
  }

  /** The seven buttons: seven dates, no Friday among them, ascending from today. */
  lemma StripShape(today: Date)
    requires ValidDate(today)
    ensures var r := NonFridaysFrom(today, StripLength);
      && |r| == 7
      && (forall i :: 0 <= i < 7 ==> !IsFriday(r[i]))
      && DayNumber(today) <= DayNumber(r[0])
      && (forall i, j :: 0 <= i < j < 7 ==> DayNumber(r[i]) < DayNumber(r[j]))
  {
    StripStart(today, StripLength);
    if IsFriday(today) {
      NextDayNumber(today);
    }
    forall i, j | 0 <= i < j < 7
      ensures DayNumber(NonFridaysFrom(today, StripLength)[i]) < DayNumber(NonFridaysFrom(today, StripLength)[j])
    {
      StripIncreasing(today, StripLength, i, j);
    }
  }
}
