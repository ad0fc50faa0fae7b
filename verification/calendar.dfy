/** The content calendar page (src/pages/Calendar.tsx): a month grid of
    leading blank cells followed by one cell per day, each holding the posts
    scheduled on that day, and previous/next month navigation. */
module CalendarView {
  import opened Wrappers
  import opened Types
  import Dates
  import Seqs

  /** The instant falls on calendar day (y, m, d): same `getDate()`,
      `getMonth()` and `getFullYear()`. */
  predicate OnDay(t: DateTime, y: int, m: int, d: int)
  {
    t.year == y && t.month == m && t.day == d
  }

  /** `getPostsForDay`: the posts scheduled on day (y, m, d), in store order. */
  function PostsForDay(posts: seq<Post>, y: int, m: int, d: int): (r: seq<Post>)
    ensures forall i :: 0 <= i < |r| ==> OnDay(r[i].scheduled, y, m, d) && r[i] in posts
  {
    Seqs.Filter((p: Post) => OnDay(p.scheduled, y, m, d), posts)
  }

  /** Exactly the posts of that day, each as often as the store holds it, and
      the posts of two stretches of the store in the order of the stretches. */
  lemma PostsForDayExact(posts: seq<Post>, more: seq<Post>, y: int, m: int, d: int, p: Post)
    ensures multiset(PostsForDay(posts, y, m, d))[p]
            == if OnDay(p.scheduled, y, m, d) then multiset(posts)[p] else 0
    ensures PostsForDay(posts + more, y, m, d) == PostsForDay(posts, y, m, d) + PostsForDay(more, y, m, d)
  {
    Seqs.FilterMultiplicity((q: Post) => OnDay(q.scheduled, y, m, d), posts, p);
    Seqs.FilterConcat((q: Post) => OnDay(q.scheduled, y, m, d), posts, more);
  }

  /** One day of the grid: the day (at midnight), its posts, and whether it is today. */
  datatype DayCell = DayCell(day: DateTime, posts: seq<Post>, isToday: bool)

  /** The rendered month: `blanks` empty cells, then the day cells. */
  datatype MonthGrid = MonthGrid(blanks: nat, days: seq<DayCell>)

  /** The month grid for month m of year y, given the posts and the current
      instant `now` (`new Date()`, read afresh on every render). */
  function Materialize(y: int, m: int, posts: seq<Post>, now: DateTime): (g: MonthGrid)
    requires Dates.ValidMonth(m)
    ensures g.blanks == Dates.DayOfWeek(y, m, 1)
    ensures |g.days| == Dates.DaysInMonth(y, m)
    ensures forall i :: 0 <= i < |g.days| ==>
              && g.days[i].day == DateTime(y, m, i + 1, 0, 0)
              && g.days[i].posts == PostsForDay(posts, y, m, i + 1)
              && (g.days[i].isToday <==> OnDay(now, y, m, i + 1))
  {
    MonthGrid(
      Dates.DayOfWeek(y, m, 1),
      seq(Dates.DaysInMonth(y, m), i requires 0 <= i =>
        DayCell(DateTime(y, m, i + 1, 0, 0), PostsForDay(posts, y, m, i + 1), OnDay(now, y, m, i + 1))))
  }

  /** The grid has one cell per weekday offset of the 1st plus one per day of
      the month, and its day cells count 1, 2, ... up to the last day. */
  lemma GridShape(y: int, m: int, posts: seq<Post>, now: DateTime)
    requires Dates.ValidMonth(m)
    ensures var g := Materialize(y, m, posts, now);
      && g.blanks + |g.days| == Dates.DayOfWeek(y, m, 1) + Dates.DaysInMonth(y, m)
      && g.blanks < 7
      && (forall i :: 0 <= i < |g.days| ==> Dates.ValidDate(y, m, g.days[i].day.day))
      && (forall i, j :: 0 <= i < j < |g.days| ==> g.days[i].day.day < g.days[j].day.day)
  {
  }

  /** A post shows in a cell of the month exactly when it is scheduled on a day
      of that month; it then shows in the cell of its day only, as often as
      the store holds it. */
  lemma PostInExactlyOneCell(y: int, m: int, posts: seq<Post>, now: DateTime, p: Post)
    requires Dates.ValidMonth(m)
    requires p in posts
    ensures var g := Materialize(y, m, posts, now);
      && ((exists i :: 0 <= i < |g.days| && p in g.days[i].posts)
          <==> p.scheduled.year == y && p.scheduled.month == m && Dates.ValidDate(y, m, p.scheduled.day))
      && (forall i :: 0 <= i < |g.days| && p in g.days[i].posts ==> i == p.scheduled.day - 1)
      && (Dates.ValidDate(y, m, p.scheduled.day) && p.scheduled.year == y && p.scheduled.month == m
          ==> multiset(g.days[p.scheduled.day - 1].posts)[p] == multiset(posts)[p])
  {
    var g := Materialize(y, m, posts, now);
    var d := p.scheduled.day;
    if p.scheduled.year == y && p.scheduled.month == m && Dates.ValidDate(y, m, d) {
      PostsForDayExact(posts, [], y, m, d, p);
      assert p in g.days[d - 1].posts;
    }
  }

  /** At most one cell is marked today, and one is exactly when the current
      date lies in the displayed month. */
  lemma AtMostOneToday(y: int, m: int, posts: seq<Post>, now: DateTime)
    requires Dates.ValidMonth(m)
    ensures var g := Materialize(y, m, posts, now);
      && (forall i, j :: 0 <= i < |g.days| && 0 <= j < |g.days| && g.days[i].isToday && g.days[j].isToday ==> i == j)
      && ((exists i :: 0 <= i < |g.days| && g.days[i].isToday)
          <==> now.year == y && now.month == m && Dates.ValidDate(y, m, now.day))
  {
    var g := Materialize(y, m, posts, now);
    if now.year == y && now.month == m && Dates.ValidDate(y, m, now.day) {
      assert g.days[now.day - 1].isToday;
    }
  }

  /** `new Date(year, month - 1, 1)`: midnight of the 1st of the month before,
      January rolling back to December of the previous year. */
  function PreviousMonthStart(t: DateTime): (r: DateTime)
    requires Dates.ValidMonth(t.month)
    ensures Dates.ValidMonth(r.month) && r.day == 1 && r.hour == 0 && r.minute == 0
    ensures r.year * 12 + r.month == t.year * 12 + t.month - 1
  {
    if t.month == 0 then DateTime(t.year - 1, 11, 1, 0, 0) else DateTime(t.year, t.month - 1, 1, 0, 0)
  }

  /** `new Date(year, month + 1, 1)`: midnight of the 1st of the month after,
      December rolling forward to January of the next year. */
  function NextMonthStart(t: DateTime): (r: DateTime)
    requires Dates.ValidMonth(t.month)
    ensures Dates.ValidMonth(r.month) && r.day == 1 && r.hour == 0 && r.minute == 0
    ensures r.year * 12 + r.month == t.year * 12 + t.month + 1
  {
    if t.month == 11 then DateTime(t.year + 1, 0, 1, 0, 0) else DateTime(t.year, t.month + 1, 1, 0, 0)
  }

  /** Next then previous, or previous then next, returns to the 1st of the starting month. */
  lemma NavigationRoundTrip(t: DateTime)
    requires Dates.ValidMonth(t.month)
    ensures PreviousMonthStart(NextMonthStart(t)) == DateTime(t.year, t.month, 1, 0, 0)
    ensures NextMonthStart(PreviousMonthStart(t)) == DateTime(t.year, t.month, 1, 0, 0)
  {
  }

  /** The page's state: the displayed date and the fetched posts. */
  class CalendarPage {
    var current: DateTime
    var posts: seq<Post>

    ghost predicate Valid()
      reads this
    {
      Dates.ValidMonth(current.month)
    }

    /** Opens on today's month; the posts are those fetched, or none when the fetch failed. */
    constructor (now: DateTime, fetched: Option<seq<Post>>)
      requires Dates.ValidMonth(now.month)
      ensures Valid()
      ensures current == now
      ensures posts == if fetched.Some? then fetched.value else []
    {
      current := now;
      posts := if fetched.Some? then fetched.value else [];
    }

    /** `handlePreviousMonth`. */
    method PreviousMonth()
      requires Valid()
      modifies this`current
      ensures Valid()
      ensures current == PreviousMonthStart(old(current))
    {
      current := PreviousMonthStart(current);
    }

    /** `handleNextMonth`. */
    method NextMonth()
      requires Valid()
      modifies this`current
      ensures Valid()
      ensures current == NextMonthStart(old(current))
    {
      current := NextMonthStart(current);
    }

    /** The grid rendered for the displayed month: laid out for that month,
        and every post in a cell is a fetched post of that cell's day. */
    function Grid(now: DateTime): (g: MonthGrid)
      reads this
      requires Valid()
      ensures g.blanks == Dates.DayOfWeek(current.year, current.month, 1)
      ensures |g.days| == Dates.DaysInMonth(current.year, current.month)
      ensures forall i, p :: 0 <= i < |g.days| && p in g.days[i].posts ==>
                p in posts && OnDay(p.scheduled, current.year, current.month, i + 1)
    {
      Materialize(current.year, current.month, posts, now)
    }
  }
}
