/** Business-day arithmetic over day numbers, weekends only (src/ap_agent/domain/rules/_shared.py). */
module BusinessDays {
  import opened Prelude

  /** Monday is 0, Sunday is 6. */
  function Weekday(day: int): int {
    day % 7
  }

  predicate IsBusinessDay(day: int) {
    Weekday(day) < 5
  }

  /** Day 0 is a Monday: the sixth and seventh day of every week are not business days, the others are. */
  lemma WeekendsAre(day: int, week: int)
    requires 7 * week <= day < 7 * week + 7
    ensures IsBusinessDay(day) <==> day != 7 * week + 5 && day != 7 * week + 6
  {
    assert day % 7 == day - 7 * week;
  }

  /** How many business days lie in the half-open interval (after, upTo]. */
  function CountIn(after: int, upTo: int): (n: int)
    decreases upTo - after
  {
    if upTo <= after then 0
    else CountIn(after, upTo - 1) + (if IsBusinessDay(upTo) then 1 else 0)
  }

  function NextBusinessDay(day: int): (next: int)
    ensures day < next <= day + 3 && IsBusinessDay(next)
    ensures forall d :: day < d < next ==> !IsBusinessDay(d)
  {
    if IsBusinessDay(day + 1) then day + 1
    else if IsBusinessDay(day + 2) then day + 2
    else day + 3
  }

  /** The date reached by stepping from one business day to the next. */
  function Advance(start: int, days: nat): int
    decreases days
  {
    if days == 0 then start else Advance(NextBusinessDay(start), days - 1)
  }

  /** `None` is the program's ValueError for a negative count. */
  method AddBusinessDays(start: int, days: int) returns (reached: Option<int>)
    ensures days < 0 ==> reached == None
    ensures days >= 0 ==> reached == Some(Advance(start, days))
  {
    if days < 0 {
      return None;
    }
    var current, remaining := start, days;
    while remaining > 0
      invariant remaining >= 0
      invariant Advance(current, remaining) == Advance(start, days)
      decreases remaining, NextBusinessDay(current) - current
    {
      current := current + 1;
      if Weekday(current) < 5 {
        remaining := remaining - 1;
      }
    }
    reached := Some(current);
  }

  /** The latest business day on or before a date. */
  function LatestBusinessDay(start: int): (day: int)
    ensures day <= start && IsBusinessDay(day)
    ensures forall d :: day < d <= start ==> !IsBusinessDay(d)
  {
    if IsBusinessDay(start) then start
    else if IsBusinessDay(start - 1) then start - 1
    else start - 2
  }

  method PreviousBusinessDay(start: int) returns (day: int)
    ensures day == LatestBusinessDay(start)
  {
    day := start;
    while Weekday(day) >= 5
      invariant day <= start
      invariant forall d :: day < d <= start ==> !IsBusinessDay(d)
      decreases Weekday(day)
    {
      day := day - 1;
    }
  }

  // ---- what the stepping means --------------------------------------------------------

  lemma {:induction false} CountNonNegative(after: int, upTo: int)
    ensures 0 <= CountIn(after, upTo)
    decreases upTo - after
  {
    if after < upTo {
      CountNonNegative(after, upTo - 1);
    }
  }

  lemma {:induction false} CountSplits(a: int, b: int, c: int)
    requires a <= b <= c
    ensures CountIn(a, c) == CountIn(a, b) + CountIn(b, c)
    decreases c - b
  {
    if b < c {
      CountSplits(a, b, c - 1);
    }
  }

  lemma {:induction false} CountOfNone(a: int, b: int)
    requires forall d :: a < d <= b ==> !IsBusinessDay(d)
    ensures CountIn(a, b) == 0
    decreases b - a
  {
    if a < b {
      CountOfNone(a, b - 1);
    }
  }

  lemma NextCountsOne(day: int)
    ensures CountIn(day, NextBusinessDay(day)) == 1
    ensures forall e :: day <= e < NextBusinessDay(day) ==> CountIn(day, e) == 0
  {
    var next := NextBusinessDay(day);
    forall e | day <= e < next ensures CountIn(day, e) == 0 {
      CountOfNone(day, e);
    }
    assert CountIn(day, next) == CountIn(day, next - 1) + 1;
  }

  /** Adding n >= 1 business days gives the least date with exactly n business days after the start
      and up to it; that date is itself a business day. */
  lemma {:induction false} AdvanceIsLeastDate(start: int, days: nat)
    requires days >= 1
    ensures start < Advance(start, days) && IsBusinessDay(Advance(start, days))
    ensures CountIn(start, Advance(start, days)) == days
    ensures forall e :: start <= e < Advance(start, days) ==> CountIn(start, e) < days
    decreases days
  {
    var next := NextBusinessDay(start);
    var end := Advance(start, days);
    NextCountsOne(start);
    if days == 1 {
      assert end == next;
    } else {
      AdvanceIsLeastDate(next, days - 1);
      CountSplits(start, next, end);
      forall e | start <= e < end ensures CountIn(start, e) < days {
        if next <= e {
          CountSplits(start, next, e);
        }
      }
    }
  }

  lemma {:induction false} AdvanceAdds(start: int, m: nat, n: nat)
    ensures Advance(start, m + n) == Advance(Advance(start, m), n)
    decreases m
  {
    if m > 0 {
      AdvanceAdds(NextBusinessDay(start), m - 1, n);
    }
  }

  /** From a business day, up to five further ones cross at most one weekend. */
  lemma {:induction false} AdvanceWithinWeek(day: int, n: nat)
    requires IsBusinessDay(day) && n <= 5
    ensures Advance(day, n) == day + n + (if Weekday(day) + n >= 5 then 2 else 0)
    decreases n
  {
    if n > 0 {
      var next := NextBusinessDay(day);
      if Weekday(day) == 4 {
        assert next == day + 3 && Weekday(next) == 0;
      } else {
        assert next == day + 1 && Weekday(next) == Weekday(day) + 1;
      }
      AdvanceWithinWeek(next, n - 1);
    }
  }

  /** Five further business days are always exactly one week, once at least one day was added. */
  lemma FiveMoreIsAWeek(start: int, n: nat)
    requires n >= 1
    ensures Advance(start, n + 5) == Advance(start, n) + 7
  {
    AdvanceIsLeastDate(start, n);
    AdvanceAdds(start, n, 5);
    AdvanceWithinWeek(Advance(start, n), 5);
  }

  /** From a weekend the first five business days end on the Friday, so the week law needs n >= 1. */
  lemma FiveFromWeekendIsShorter(day: int)
    requires !IsBusinessDay(day)
    ensures Advance(day, 5) == Advance(day, 0) + 11 - Weekday(day)
  {
    var monday := NextBusinessDay(day);
    assert Weekday(monday) == 0 && monday == day + 7 - Weekday(day);
    AdvanceWithinWeek(monday, 4);
  }

  lemma {:induction false} AdvanceMonotone(d: int, e: int, n: nat)
    requires d <= e
    ensures Advance(d, n) <= Advance(e, n)
    decreases n
  {
    if n > 0 {
      assert NextBusinessDay(d) <= NextBusinessDay(e);
      AdvanceMonotone(NextBusinessDay(d), NextBusinessDay(e), n - 1);
    }
  }
}
