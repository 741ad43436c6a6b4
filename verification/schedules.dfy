/** The "upcoming schedules" panel of the home screen
    (src/screens/Home/index.tsx): schedules dated today or later, earliest
    first, at most three. */
module Schedules {
  import opened Wrappers
  import opened StringOrder

  /** A schedule of the schedule context; `date` is a `YYYY-MM-DD` text. */
  datatype Schedule = Schedule(id: string, date: string, title: string, description: Option<string>)

  /** How many entries the panel shows. */
  const MaxUpcoming: nat := 3

  predicate IsUpcoming(x: Schedule, today: string) {
    LessEq(today, x.date)
  }

  /** `schedules.filter(schedule => schedule.date >= today)`: keeps exactly
      the upcoming schedules, each as often as it occurs. */
  function FilterUpcoming(schedules: seq<Schedule>, today: string): (r: seq<Schedule>)
    ensures forall x :: multiset(r)[x] == if IsUpcoming(x, today) then multiset(schedules)[x] else 0
    ensures forall x :: x in r ==> x in schedules && IsUpcoming(x, today)
    decreases |schedules|
  {
    if |schedules| == 0 then []
    else
      var rest := FilterUpcoming(schedules[1..], today);
      assert schedules == [schedules[0]] + schedules[1..];
      if IsUpcoming(schedules[0], today) then [schedules[0]] + rest else rest
  }

  /** Every earlier entry's date is at most every later entry's date. */
  predicate SortedByDate(s: seq<Schedule>) {
    forall i, j :: 0 <= i < j < |s| ==> LessEq(s[i].date, s[j].date)
  }

  /** Inserts `x` into a date-sorted list after every entry not later than
      it, so that entries with equal dates keep their input order. */
  function Insert(s: seq<Schedule>, x: Schedule): (r: seq<Schedule>)
    ensures multiset(r) == multiset(s) + multiset{x}
    decreases |s|
  {
    if |s| == 0 then [x]
    else if LessEq(s[|s| - 1].date, x.date) then s + [x]
    else
      assert s == s[..|s| - 1] + [s[|s| - 1]];
      Insert(s[..|s| - 1], x) + [s[|s| - 1]]
  }

  /** `sort((a, b) => a.date.localeCompare(b.date))`, as a stable insertion
      sort. */
  function SortByDate(s: seq<Schedule>): (r: seq<Schedule>)
    ensures multiset(r) == multiset(s)
    decreases |s|
  {
    if |s| == 0 then []
    else
      assert s == s[..|s| - 1] + [s[|s| - 1]];
      Insert(SortByDate(s[..|s| - 1]), s[|s| - 1])
  }

  lemma {:induction false} InsertSorted(s: seq<Schedule>, x: Schedule)
    requires SortedByDate(s)
    ensures SortedByDate(Insert(s, x))
    decreases |s|
  {
    if |s| > 0 {
      var last := s[|s| - 1];
      if LessEq(last.date, x.date) {
        forall i | 0 <= i < |s| - 1
          ensures LessEq(s[i].date, x.date)
        {
          LessEqTransitive(s[i].date, last.date, x.date);
        }
      } else {
        var init := s[..|s| - 1];
        InsertSorted(init, x);
        var t := Insert(init, x);
        LessEqTotal(last.date, x.date);
        forall y | y in t
          ensures LessEq(y.date, last.date)
        {
          assert y in multiset(t);
          assert y == x || y in init;
        }
        assert forall i :: 0 <= i < |t| ==> t[i] in t;
      }
    }
  }

  lemma {:induction false} SortByDateSorted(s: seq<Schedule>)
    ensures SortedByDate(SortByDate(s))
    decreases |s|
  {
    if |s| > 0 {
      SortByDateSorted(s[..|s| - 1]);
      InsertSorted(SortByDate(s[..|s| - 1]), s[|s| - 1]);
    }
  }

  /** A filtered list holds no more of anything than the list it came
      from. */
  lemma FilterWithin(schedules: seq<Schedule>, today: string)
    ensures multiset(FilterUpcoming(schedules, today)) <= multiset(schedules)
  {
    var f := FilterUpcoming(schedules, today);
    forall x
      ensures multiset(f)[x] <= multiset(schedules)[x]
    {
    }
  }

  /** In a date-sorted list, whatever lies beyond a prefix is dated no
      earlier than anything in the prefix. */
  lemma SortedPrefixFirst(t: seq<Schedule>, k: nat)
    requires SortedByDate(t) && k <= |t|
    ensures forall x, i :: x in multiset(t) - multiset(t[..k]) && 0 <= i < k ==> LessEq(t[i].date, x.date)
  {
    assert t == t[..k] + t[k..];
    assert multiset(t) - multiset(t[..k]) == multiset(t[k..]);
    forall x, i | x in multiset(t[k..]) && 0 <= i < k
      ensures LessEq(t[i].date, x.date)
    {
      var j :| k <= j < |t| && t[j] == x;
    }
  }

  /** Filter, sort and `slice(0, 3)`, before anything is proved about
      them. */
  function FirstUpcoming(schedules: seq<Schedule>, today: string): seq<Schedule> {
    var sorted := SortByDate(FilterUpcoming(schedules, today));
    sorted[..if |sorted| < MaxUpcoming then |sorted| else MaxUpcoming]
  }

  lemma FirstUpcomingBounded(schedules: seq<Schedule>, today: string)
    ensures var r := FirstUpcoming(schedules, today);
      && |r| == (if |FilterUpcoming(schedules, today)| < MaxUpcoming
                 then |FilterUpcoming(schedules, today)| else MaxUpcoming)
      && multiset(r) <= multiset(FilterUpcoming(schedules, today))
      && forall i :: 0 <= i < |r| ==> r[i] in schedules && IsUpcoming(r[i], today)
  {
    var f := FilterUpcoming(schedules, today);
    var t := SortByDate(f);
    var r := FirstUpcoming(schedules, today);
    assert t == r + t[|r|..];
    forall i | 0 <= i < |r|
      ensures r[i] in schedules && IsUpcoming(r[i], today)
    {
      assert r[i] in multiset(f);
    }
  }

  lemma FirstUpcomingSorted(schedules: seq<Schedule>, today: string)
    ensures SortedByDate(FirstUpcoming(schedules, today))
  {
    SortByDateSorted(FilterUpcoming(schedules, today));
  }

  lemma FirstUpcomingEarliest(schedules: seq<Schedule>, today: string)
    ensures var r := FirstUpcoming(schedules, today);
      && (forall x, i :: x in multiset(FilterUpcoming(schedules, today)) - multiset(r) && 0 <= i < |r| ==>
                           LessEq(r[i].date, x.date))
      && (|r| < MaxUpcoming ==> multiset(r) == multiset(FilterUpcoming(schedules, today)))
  {
    var f := FilterUpcoming(schedules, today);
    var t := SortByDate(f);
    SortByDateSorted(f);
    var r := FirstUpcoming(schedules, today);
    SortedPrefixFirst(t, |r|);
    if |r| < MaxUpcoming {
      assert r == t;
    }
  }

  /** The `upcomingSchedules` list: filter, sort, `slice(0, 3)`. `today` is
      the date part of the current ISO timestamp. The panel shows at most
      three schedules, all from the list and dated today or later, in date
      order; none of the upcoming schedules left out is dated before one
      that is shown, and when fewer than three are shown, every upcoming
      schedule is. */
  function UpcomingSchedules(schedules: seq<Schedule>, today: string): (r: seq<Schedule>)
    ensures |r| <= MaxUpcoming
    ensures |r| == if |FilterUpcoming(schedules, today)| < MaxUpcoming
                   then |FilterUpcoming(schedules, today)| else MaxUpcoming
    ensures multiset(r) <= multiset(FilterUpcoming(schedules, today)) <= multiset(schedules)
    ensures forall i :: 0 <= i < |r| ==> r[i] in schedules && IsUpcoming(r[i], today)
    ensures SortedByDate(r)
    ensures forall x, i :: x in multiset(FilterUpcoming(schedules, today)) - multiset(r) && 0 <= i < |r| ==>
                             LessEq(r[i].date, x.date)
    ensures |r| < MaxUpcoming ==> multiset(r) == multiset(FilterUpcoming(schedules, today))
  {
    FirstUpcomingBounded(schedules, today);
    FirstUpcomingSorted(schedules, today);
    FirstUpcomingEarliest(schedules, today);
    FilterWithin(schedules, today);
    FirstUpcoming(schedules, today)
  }

  /** A schedule dated today counts as upcoming: the comparison is `>=`. */
  lemma TodayIsUpcoming(x: Schedule, today: string)
    requires x.date == today
    ensures IsUpcoming(x, today)
  {
    LessEqReflexive(today);
  }
}
