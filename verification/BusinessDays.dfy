/** Business-day arithmetic of risk-engine/risk_engine/settlement/tracker.py. A date is its day number in the
    proleptic calendar, in which day 1 is a Monday. */
module BusinessDays {

  type Date = int

  function Weekday(d: Date): nat {
    (d + 6) % 7
  }

  /** Monday is 0, Friday is 4. */
  predicate IsBusinessDay(d: Date) {
    Weekday(d) < 5
  }

  function NextBusinessDay(d: Date): (r: Date)
    ensures d < r <= d + 3 && IsBusinessDay(r) && forall e | d < e < r :: !IsBusinessDay(e)
  {
    if IsBusinessDay(d + 1) then d + 1 else if IsBusinessDay(d + 2) then d + 2 else d + 3
  }

  function Plus(start: Date, n: nat): Date {
    if n == 0 then start else NextBusinessDay(Plus(start, n - 1))
  }

  /** Steps a day at a time and counts the business days. Each step either counts one or comes closer to
      the next. */
  method AddBusinessDays(start: Date, days: int) returns (current: Date)
    ensures current == if days <= 0 then start else Plus(start, days)
  {
    current := start;
    var added := 0;
    while added < days
      invariant 0 <= added && (0 <= days ==> added <= days)
      invariant NextBusinessDay(current) == NextBusinessDay(Plus(start, added))
      invariant added == days ==> current == Plus(start, added)
      invariant days <= 0 ==> current == start
      decreases days - added, NextBusinessDay(current) - current
    {
      current := current + 1;
      if Weekday(current) < 5 {
        added := added + 1;
      }
    }
  }

  // ---------------------------------------------------------------- what it computes

  /** The business days after `from` and not after `to`. */
  function BusinessDaysIn(from: Date, to: Date): nat
    decreases to - from
  {
    if to <= from then 0 else BusinessDaysIn(from, to - 1) + if IsBusinessDay(to) then 1 else 0
  }

  lemma {:induction false} CountSplits(a: Date, b: Date, c: Date)
    requires a <= b <= c
    ensures BusinessDaysIn(a, c) == BusinessDaysIn(a, b) + BusinessDaysIn(b, c)
    decreases c - b
  {
    if b < c {
      CountSplits(a, b, c - 1);
    }
  }

  lemma UpToNext(d: Date)
    ensures BusinessDaysIn(d, NextBusinessDay(d)) == 1
    ensures forall e | d <= e < NextBusinessDay(d) :: BusinessDaysIn(d, e) == 0
  {
    assert BusinessDaysIn(d, d + 1) == if IsBusinessDay(d + 1) then 1 else 0;
    assert BusinessDaysIn(d, d + 2) == BusinessDaysIn(d, d + 1) + if IsBusinessDay(d + 2) then 1 else 0;
    assert BusinessDaysIn(d, d + 3) == BusinessDaysIn(d, d + 2) + if IsBusinessDay(d + 3) then 1 else 0;
  }

  /** The result is the least date with exactly n business days after the start, and for a positive n a
      business day itself. */
  lemma {:induction false} LeastDateWithCount(start: Date, n: nat)
    ensures start <= Plus(start, n) && BusinessDaysIn(start, Plus(start, n)) == n
    ensures forall e | start <= e < Plus(start, n) :: BusinessDaysIn(start, e) < n
    ensures 0 < n ==> IsBusinessDay(Plus(start, n))
  {
    if n > 0 {
      var before := Plus(start, n - 1);
      LeastDateWithCount(start, n - 1);
      UpToNext(before);
      CountSplits(start, before, NextBusinessDay(before));
      forall e | start <= e < NextBusinessDay(before) ensures BusinessDaysIn(start, e) < n {
        if before <= e {
          CountSplits(start, before, e);
        }
      }
    }
  }

  lemma NextMonotone(d: Date, e: Date)
    requires d <= e
    ensures NextBusinessDay(d) <= NextBusinessDay(e)
  {}

  lemma {:induction false} PlusMonotone(s: Date, t: Date, n: nat)
    requires s <= t
    ensures Plus(s, n) <= Plus(t, n)
  {
    if n > 0 {
      PlusMonotone(s, t, n - 1);
      NextMonotone(Plus(s, n - 1), Plus(t, n - 1));
    }
  }

  /** Adding a days and then b days is adding a + b days. */
  lemma {:induction false} PlusAdditive(s: Date, a: nat, b: nat)
    ensures Plus(Plus(s, a), b) == Plus(s, a + b)
  {
    if b > 0 {
      PlusAdditive(s, a, b - 1);
    }
  }

  /** From a business day the next one is tomorrow, or Monday after a Friday. */
  predicate StepFrom(d: Date, w: nat, e: Date, v: nat) {
    w < 5 && if w == 4 then e == d + 3 && v == 0 else e == d + 1 && v == w + 1
  }

  lemma NextStep(d: Date)
    requires IsBusinessDay(d)
    ensures StepFrom(d, Weekday(d), NextBusinessDay(d), Weekday(NextBusinessDay(d)))
  {}

  lemma FiveSteps(
      d0: Date, w0: nat, d1: Date, w1: nat, d2: Date, w2: nat, d3: Date, w3: nat, d4: Date, w4: nat, d5: Date, w5: nat)
    requires StepFrom(d0, w0, d1, w1) && StepFrom(d1, w1, d2, w2) && StepFrom(d2, w2, d3, w3)
    requires StepFrom(d3, w3, d4, w4) && StepFrom(d4, w4, d5, w5)
    ensures d5 == d0 + 7
  {}

  lemma FiveFromBusinessDay(d: Date)
    requires IsBusinessDay(d)
    ensures Plus(d, 5) == d + 7
  {
    var d1 := NextBusinessDay(d);
    var d2 := NextBusinessDay(d1);
    var d3 := NextBusinessDay(d2);
    var d4 := NextBusinessDay(d3);
    var d5 := NextBusinessDay(d4);
    assert Plus(d, 5) == d5 by {
      assert Plus(d, 1) == d1;
      assert Plus(d, 2) == d2;
      assert Plus(d, 3) == d3;
      assert Plus(d, 4) == d4;
    }
    NextStep(d);
    NextStep(d1);
    NextStep(d2);
    NextStep(d3);
    NextStep(d4);
    FiveSteps(d, Weekday(d), d1, Weekday(d1), d2, Weekday(d2), d3, Weekday(d3), d4, Weekday(d4), d5, Weekday(d5));
  }

  /** Five more business days are one more week, wherever one starts, once at least one has been added. */
  lemma WeekAhead(s: Date, n: nat)
    requires 1 <= n
    ensures Plus(s, n + 5) == Plus(s, n) + 7
  {
    LeastDateWithCount(s, n);
    PlusAdditive(s, n, 5);
    FiveFromBusinessDay(Plus(s, n));
  }

  /** Added to nothing, five business days are a week exactly when the start is a business day. */
  lemma WeekFromStart(s: Date)
    ensures Plus(s, 5) == s + 7 <==> IsBusinessDay(s)
  {
    if IsBusinessDay(s) {
      FiveFromBusinessDay(s);
    } else {
      LeastDateWithCount(s, 5);
    }
  }

  // ---------------------------------------------------------------- the closed form

  lemma DayOfWeek(monday: Date, q: int, r: nat)
    requires (monday + 6) % 7 == 0 && r < 5
    ensures NextBusinessDay(monday + 7 * q + r) == if r < 4 then monday + 7 * q + r + 1 else monday + 7 * (q + 1)
  {}

  lemma OneMoreOfFive(x: nat)
    ensures if x % 5 < 4 then (x + 1) / 5 == x / 5 && (x + 1) % 5 == x % 5 + 1
            else (x + 1) / 5 == x / 5 + 1 && (x + 1) % 5 == 0
  {}

  /** So many business days after a Monday: whole weeks of five, and the rest. */
  function InWeeks(monday: Date, days: nat): Date {
    monday + 7 * (days / 5) + days % 5
  }

  lemma InWeeksNext(monday: Date, days: nat)
    requires (monday + 6) % 7 == 0
    ensures NextBusinessDay(InWeeks(monday, days)) == InWeeks(monday, days + 1)
  {
    DayOfWeek(monday, days / 5, days % 5);
    OneMoreOfFive(days);
  }

  lemma {:induction false} PlusFromMonday(monday: Date, w: nat, n: nat)
    requires (monday + 6) % 7 == 0 && w < 5
    ensures Plus(monday + w, n) == InWeeks(monday, w + n)
  {
    if n > 0 {
      PlusFromMonday(monday, w, n - 1);
      InWeeksNext(monday, w + n - 1);
    }
  }

  /** The first business day after a weekend is the one after the Friday before. */
  lemma WeekendAsFriday(d: Date, w: nat)
    requires (d + 6) % 7 == w && 5 <= w
    ensures NextBusinessDay(d) == NextBusinessDay(d - w + 4)
  {}

  lemma MondayOf(d: Date, w: nat)
    requires (d + 6) % 7 == w
    ensures (d - w + 6) % 7 == 0
  {}

  lemma FromWeekday(start: Date, w: nat, n: nat)
    requires (start + 6) % 7 == w && w < 5
    ensures Plus(start, n) == InWeeks(start - w, n + w)
  {
    MondayOf(start, w);
    PlusFromMonday(start - w, w, n);
  }

  lemma FromWeekend(start: Date, w: nat, n: nat)
    requires (start + 6) % 7 == w && 5 <= w && 1 <= n
    ensures Plus(start, n) == InWeeks(start - w, n + 4)
  {
    MondayOf(start, w);
    PlusFromMonday(start - w, 4, n);
    WeekendAsFriday(start, w);
    SameFirstStep(start, start - w + 4, n);
  }

  /** The date in one formula: every five business days are a week. Day 1 is a Monday, so (d + 6) % 7 is the place of
      a day in its week; a start on a Saturday or Sunday counts from the Friday before. */
  lemma PlusInWeeks(start: Date, n: nat)
    requires 1 <= n
    ensures var w := (start + 6) % 7;
      Plus(start, n) == InWeeks(start - w, n + if w < 5 then w else 4)
  {
    var w: nat := (start + 6) % 7;
    if w < 5 {
      FromWeekday(start, w, n);
    } else {
      FromWeekend(start, w, n);
    }
  }

  lemma {:induction false} SameFirstStep(s: Date, t: Date, n: nat)
    requires 1 <= n && NextBusinessDay(s) == NextBusinessDay(t)
    ensures Plus(s, n) == Plus(t, n)
  {
    if n > 1 {
      SameFirstStep(s, t, n - 1);
    } else {
      assert Plus(s, 0) == s && Plus(t, 0) == t;
    }
  }
}
