/** Month arithmetic and window construction of backend/backtest_engine/walk_forward_advanced.py. */
module WalkForward {

  /** A point in time; `time` is the time of day. Years are unbounded. */
  datatype Date = Date(year: int, month: int, day: int, time: nat)

  predicate IsDate(d: Date) {
    1 <= d.month <= 12 && 1 <= d.day <= 31
  }

  const DAYS := [31, 28, 31, 30, 31, 30, 31, 31, 30, 31, 30, 31]

  function Min(a: int, b: int): int {
    if a <= b then a else b
  }

  function AddMonths(d: Date, months: int): Date {
    var m := d.month - 1 + months;
    Date(d.year + m / 12, m % 12 + 1, Min(d.day, DAYS[m % 12]), d.time)
  }

  predicate IsLeap(year: int) {
    year % 4 == 0 && (year % 100 != 0 || year % 400 == 0)
  }

  /** A day that the calendar has. */
  predicate IsRealDate(d: Date) {
    && 1 <= d.month <= 12
    && 1 <= d.day <= DAYS[d.month - 1] + if d.month == 2 && IsLeap(d.year) then 1 else 0
  }

  /** Months since year 0. */
  function MonthIndex(d: Date): int {
    d.year * 12 + d.month - 1
  }

  predicate Less(a: Date, b: Date) {
    || MonthIndex(a) < MonthIndex(b)
    || (MonthIndex(a) == MonthIndex(b) && (a.day < b.day || (a.day == b.day && a.time < b.time)))
  }

  // ---------------------------------------------------------------- month arithmetic

  lemma AddMonthsIndex(d: Date, months: int)
    requires IsDate(d)
    ensures IsDate(AddMonths(d, months)) && MonthIndex(AddMonths(d, months)) == MonthIndex(d) + months
    ensures AddMonths(d, months).day == Min(d.day, DAYS[(MonthIndex(d) + months) % 12])
  {
    var m := d.month - 1 + months;
    assert MonthIndex(d) + months == d.year * 12 + m;
    assert (d.year * 12 + m) % 12 == m % 12;
  }

  lemma SameDate(a: Date, b: Date)
    requires IsDate(a) && IsDate(b) && MonthIndex(a) == MonthIndex(b) && a.day == b.day && a.time == b.time
    ensures a == b
  {
  }

  /** The month is exactly so many months on, and the day is kept or, in a shorter month, cut to its last. */
  lemma AddMonthsMeans(d: Date, months: int)
    requires IsDate(d)
    ensures var r := AddMonths(d, months);
            && r.year * 12 + r.month == d.year * 12 + d.month + months && 1 <= r.month <= 12 && r.time == d.time
            && r.day == Min(d.day, match r.month
                                   case 2 => 28
                                   case 4 => 30
                                   case 6 => 30
                                   case 9 => 30
                                   case 11 => 30
                                   case _ => 31)
  {
    AddMonthsIndex(d, months);
    var r := AddMonths(d, months);
    assert r.day == Min(d.day, DAYS[r.month - 1]);
  }

  /** Going forward by at least a month goes forward in time, from any day. */
  lemma StrictlyIncreasing(d: Date, months: int)
    requires IsDate(d) && months >= 1
    ensures Less(d, AddMonths(d, months))
  {
    AddMonthsIndex(d, months);
  }

  lemma EarlyDayAdds(d: Date, a: int, b: int)
    requires IsDate(d) && d.day <= 28
    ensures AddMonths(AddMonths(d, a), b) == AddMonths(d, a + b)
    ensures AddMonths(d, a).day == d.day
  {
    AddMonthsIndex(d, a);
    AddMonthsIndex(AddMonths(d, a), b);
    AddMonthsIndex(d, a + b);
    SameDate(AddMonths(AddMonths(d, a), b), AddMonths(d, a + b));
  }

  lemma KeepsEarlyDay(d: Date, months: int)
    requires IsDate(d)
    ensures d.day <= 28 ==> AddMonths(d, months).day == d.day
    ensures AddMonths(d, months).time == d.time
  {
  }

  /** Adding months is additive exactly from the days that every month of every year has. */
  lemma AdditiveIff(d: Date)
    requires IsRealDate(d)
    ensures d.day <= 28 <==> forall a, b :: AddMonths(AddMonths(d, a), b) == AddMonths(d, a + b)
  {
    if d.day <= 28 {
      forall a, b
        ensures AddMonths(AddMonths(d, a), b) == AddMonths(d, a + b)
      {
        EarlyDayAdds(d, a, b);
      }
    } else {
      // by way of February to a month with 31 days
      var a := 1 - (d.month - 1);
      assert AddMonths(d, a).day == 28;
      assert AddMonths(AddMonths(d, a), 1).day == 28;
      assert AddMonths(d, a + 1).day == d.day;
    }
  }

  // ---------------------------------------------------------------- windows

  datatype Window = Window(id: nat, isStart: Date, isEnd: Date, oosStart: Date, oosEnd: Date)

  /** `start` moved by `step` months, `n` times over. */
  function Advance(start: Date, step: int, n: nat): Date {
    if n == 0 then start else AddMonths(Advance(start, step, n - 1), step)
  }

  function Earlier(a: Date, b: Date): Date {
    if Less(b, a) then b else a
  }

  /** The rolling windows: all that fit before `end`, one step apart. */
  predicate Rolling(ws: seq<Window>, start: Date, end: Date, isMonths: int, oosMonths: int, step: int) {
    && (forall i | 0 <= i < |ws| ::
          && ws[i].id == i && ws[i].isStart == Advance(start, step, i)
          && ws[i].isEnd == AddMonths(ws[i].isStart, isMonths)
          && ws[i].oosStart == ws[i].isEnd
          && ws[i].oosEnd == AddMonths(ws[i].oosStart, oosMonths)
          && !Less(end, ws[i].oosEnd))
    && Less(end, AddMonths(AddMonths(Advance(start, step, |ws|), isMonths), oosMonths))
  }

  /** The anchored windows: test periods from the anchor on, the last one cut at `end`. */
  predicate Anchored(ws: seq<Window>, start: Date, end: Date, isMonths: int, oosMonths: int, step: int) {
    var first := AddMonths(start, isMonths);
    && (forall i | 0 <= i < |ws| ::
          && ws[i].id == i && ws[i].isStart == start
          && ws[i].oosStart == Advance(first, step, i)
          && ws[i].isEnd == ws[i].oosStart
          && Less(ws[i].oosStart, end)
          && ws[i].oosEnd == Earlier(AddMonths(ws[i].oosStart, oosMonths), end))
    && !Less(Advance(first, step, |ws|), end)
  }

  /** The test periods follow one another without gap or overlap. */
  predicate Tiled(ws: seq<Window>) {
    && (forall i | 0 <= i < |ws| :: Less(ws[i].oosStart, ws[i].oosEnd))
    && (forall i | 0 < i < |ws| :: ws[i - 1].oosEnd == ws[i].oosStart)
  }

  predicate Covers(w: Window, t: Date) {
    !Less(t, w.oosStart) && Less(t, w.oosEnd)
  }

  lemma {:induction false} AdvanceIndex(start: Date, step: int, n: nat)
    requires IsDate(start)
    ensures IsDate(Advance(start, step, n)) && MonthIndex(Advance(start, step, n)) == MonthIndex(start) + step * n
    ensures start.day <= 28 ==> Advance(start, step, n).day == start.day
  {
    hide AddMonths;
    if n > 0 {
      AdvanceIndex(start, step, n - 1);
      AddMonthsIndex(Advance(start, step, n - 1), step);
      KeepsEarlyDay(Advance(start, step, n - 1), step);
      assert step * (n - 1) + step == step * n;
    }
  }

  /**
   Rolling windows from a day up to the 28th: a test period ends exactly where the next one
   begins if and only if the step is the length of the test period.
   */
  lemma RollingMeetIff(ws: seq<Window>, start: Date, end: Date, isMonths: int, oosMonths: int, step: int, i: nat)
    requires IsDate(start) && start.day <= 28 && Rolling(ws, start, end, isMonths, oosMonths, step)
    requires 0 < i < |ws|
    ensures ws[i - 1].oosEnd == ws[i].oosStart <==> step == oosMonths
    ensures Less(ws[i - 1].oosEnd, ws[i].oosStart) <==> oosMonths < step
    ensures Less(ws[i].oosStart, ws[i - 1].oosEnd) <==> step < oosMonths
  {
    hide AddMonths;
    var s := Advance(start, step, i - 1);
    AdvanceIndex(start, step, i - 1);
    EarlyDayAdds(s, isMonths, oosMonths);
    EarlyDayAdds(s, step, isMonths);
    AddMonthsIndex(s, isMonths + oosMonths);
    AddMonthsIndex(s, step + isMonths);
    EarlyDayAdds(s, isMonths + oosMonths, 0);
    EarlyDayAdds(s, step + isMonths, 0);
    assert ws[i].isStart == AddMonths(s, step);
  }

  /** The months from a date to the next February. */
  function ToFebruary(d: Date): int {
    if d.month == 1 then 1 else 14 - d.month
  }

  lemma IndexMonth(d: Date)
    requires IsDate(d)
    ensures MonthIndex(d) % 12 == d.month - 1
  {
  }

  /** A test that starts in February loses the late days, and the next test, two months on or one, has them again. */
  lemma LateDaysReturn(start: Date)
    requires IsRealDate(start) && start.day > 28
    ensures var oos := if start.month == 12 then 1 else 2;
            var first := AddMonths(AddMonths(start, ToFebruary(start)), oos);
            var next := AddMonths(AddMonths(start, oos), ToFebruary(start));
            first.day == 28 && next.day > 28 && MonthIndex(next) == MonthIndex(first)
  {
    var oos := if start.month == 12 then 1 else 2;
    var february := AddMonths(start, ToFebruary(start));
    var first, later := AddMonths(february, oos), AddMonths(start, oos);
    hide AddMonths, IsRealDate, ToFebruary;
    FebruaryTest(start, oos);
    StillLate(start);
    AddMonthsIndex(start, ToFebruary(start));
    AddMonthsIndex(february, oos);
    AddMonthsIndex(start, oos);
    AddMonthsIndex(later, ToFebruary(start));
    IndexMonth(first);
  }

  lemma FebruaryTest(d: Date, oos: int)
    requires IsRealDate(d) && d.day > 28 && 1 <= oos <= 2
    ensures var first := AddMonths(AddMonths(d, ToFebruary(d)), oos);
            first.month == 2 + oos && first.day == 28
    ensures IsDate(d)
  {
    assert AddMonths(d, ToFebruary(d)).month == 2 && AddMonths(d, ToFebruary(d)).day == 28;
  }

  lemma StillLate(d: Date)
    requires IsRealDate(d) && d.day > 28
    ensures AddMonths(d, if d.month == 12 then 1 else 2).day > 28
  {
    assert d.month == 11 ==> (d.month - 1 + 2) % 12 == 0;
    assert d.month == 12 ==> (d.month - 1 + 1) % 12 == 0;
  }

  /** From every later day there are rolling windows of which the first test ends before the second begins. */
  lemma LateStartLeavesGap(start: Date) returns (ws: seq<Window>, end: Date, isMonths: int, oosMonths: int)
    requires IsRealDate(start) && start.day > 28
    ensures isMonths >= 1 && oosMonths >= 1 && Rolling(ws, start, end, isMonths, oosMonths, oosMonths)
    ensures |ws| == 2 && Less(ws[0].oosEnd, ws[1].oosStart)
  {
    isMonths, oosMonths := ToFebruary(start), if start.month == 12 then 1 else 2;
    LateDaysReturn(start);
    ws, end := TwoWindows(start, isMonths, oosMonths);
    hide Rolling, AddMonths;
  }

  lemma TwoWindows(start: Date, isMonths: int, oosMonths: int) returns (ws: seq<Window>, end: Date)
    requires IsDate(start) && oosMonths >= 1
    ensures Rolling(ws, start, end, isMonths, oosMonths, oosMonths) && |ws| == 2
    ensures ws[0].oosEnd == AddMonths(AddMonths(start, isMonths), oosMonths)
    ensures ws[1].oosStart == AddMonths(AddMonths(start, oosMonths), isMonths)
  {
    hide AddMonths, IsDate;
    var s1, s2 := AddMonths(start, oosMonths), AddMonths(AddMonths(start, oosMonths), oosMonths);
    assert Advance(start, oosMonths, 0) == start;
    assert Advance(start, oosMonths, 1) == s1;
    assert Advance(start, oosMonths, 2) == s2;
    hide Advance;
    AddMonthsIndex(start, oosMonths);
    AddMonthsIndex(s1, oosMonths);
    EndIndex(start, isMonths, oosMonths);
    EndIndex(s1, isMonths, oosMonths);
    EndIndex(s2, isMonths, oosMonths);
    hide MonthIndex;
    ws := [WindowFrom(0, start, isMonths, oosMonths), WindowFrom(1, s1, isMonths, oosMonths)];
    end := ws[1].oosEnd;
  }

  function WindowFrom(id: nat, isStart: Date, isMonths: int, oosMonths: int): Window {
    var oosStart := AddMonths(isStart, isMonths);
    Window(id, isStart, oosStart, oosStart, AddMonths(oosStart, oosMonths))
  }

  lemma EndIndex(s: Date, isMonths: int, oosMonths: int)
    requires IsDate(s)
    ensures MonthIndex(AddMonths(AddMonths(s, isMonths), oosMonths)) == MonthIndex(s) + isMonths + oosMonths
  {
    AddMonthsIndex(s, isMonths);
    AddMonthsIndex(AddMonths(s, isMonths), oosMonths);
  }

  /** With a step of one test period, rolling windows always tile exactly from the days up to the 28th. */
  lemma RollingTilesIff(start: Date)
    requires IsRealDate(start)
    ensures start.day <= 28
            <==> forall ws, end, isMonths, oosMonths |
                   oosMonths >= 1 && Rolling(ws, start, end, isMonths, oosMonths, oosMonths) :: Tiled(ws)
  {
    if start.day <= 28 {
      forall ws, end, isMonths, oosMonths |
        oosMonths >= 1 && Rolling(ws, start, end, isMonths, oosMonths, oosMonths)
        ensures Tiled(ws)
      {
        RollingTiles(ws, start, end, isMonths, oosMonths);
      }
    } else {
      hide Rolling, AddMonths;
      var ws, end, isMonths, oosMonths := LateStartLeavesGap(start);
      assert !Tiled(ws);
    }
  }

  lemma RollingTiles(ws: seq<Window>, start: Date, end: Date, isMonths: int, oosMonths: int)
    requires IsDate(start) && start.day <= 28 && oosMonths >= 1
    requires Rolling(ws, start, end, isMonths, oosMonths, oosMonths)
    ensures Tiled(ws)
  {
    hide AddMonths;
    forall i | 0 <= i < |ws|
      ensures Less(ws[i].oosStart, ws[i].oosEnd)
      ensures i > 0 ==> ws[i - 1].oosEnd == ws[i].oosStart
    {
      AdvanceIndex(start, oosMonths, i);
      AddMonthsIndex(ws[i].isStart, isMonths);
      StrictlyIncreasing(ws[i].oosStart, oosMonths);
      if i > 0 {
        RollingMeetIff(ws, start, end, isMonths, oosMonths, oosMonths, i);
      }
    }
  }

  /** Anchored windows tile from the first test start to `end`, from any day of the month. */
  lemma AnchoredTiles(ws: seq<Window>, start: Date, end: Date, isMonths: int, oosMonths: int)
    requires IsDate(start) && IsDate(end) && oosMonths >= 1 && Anchored(ws, start, end, isMonths, oosMonths, oosMonths)
    ensures Tiled(ws)
    ensures ws == [] <==> !Less(AddMonths(start, isMonths), end)
    ensures ws != [] ==> ws[0].oosStart == AddMonths(start, isMonths) && ws[|ws| - 1].oosEnd == end
  {
    hide AddMonths;
    var first := AddMonths(start, isMonths);
    AddMonthsIndex(start, isMonths);
    forall i | 0 <= i < |ws|
      ensures Less(ws[i].oosStart, ws[i].oosEnd)
      ensures i > 0 ==> ws[i - 1].oosEnd == ws[i].oosStart
    {
      AdvanceIndex(first, oosMonths, i);
      StrictlyIncreasing(ws[i].oosStart, oosMonths);
    }
    if ws != [] {
      assert ws[0].oosStart == Advance(first, oosMonths, 0);
      var last := |ws| - 1;
      assert Advance(first, oosMonths, |ws|) == AddMonths(ws[last].oosStart, oosMonths);
      AdvanceIndex(first, oosMonths, |ws|);
      assert Less(ws[0].oosStart, end);
      EarlierIsEnd(AddMonths(ws[last].oosStart, oosMonths), end);
    }
  }

  lemma EarlierIsEnd(a: Date, end: Date)
    requires IsDate(a) && IsDate(end) && !Less(a, end)
    ensures Earlier(a, end) == end
  {
    if !Less(end, a) {
      SameDate(a, end);
    }
  }

  lemma {:induction false} TiledInOrder(ws: seq<Window>, i: nat, j: nat)
    requires Tiled(ws) && i < j < |ws|
    ensures !Less(ws[j].oosStart, ws[i].oosEnd)
  {
    if i + 1 < j {
      TiledInOrder(ws, i, j - 1);
      assert Less(ws[j - 1].oosStart, ws[j - 1].oosEnd);
    }
  }

  /** Every instant between the first test start and the last test end is tested in exactly one window. */
  lemma {:induction false} TiledCoversOnce(ws: seq<Window>, t: Date)
    requires Tiled(ws) && ws != [] && !Less(t, ws[0].oosStart) && Less(t, ws[|ws| - 1].oosEnd)
    ensures exists i :: 0 <= i < |ws| && Covers(ws[i], t)
    ensures forall i, j | 0 <= i < |ws| && 0 <= j < |ws| && Covers(ws[i], t) && Covers(ws[j], t) :: i == j
  {
    var last := |ws| - 1;
    if !Less(t, ws[last].oosStart) {
      assert Covers(ws[last], t);
    } else {
      TiledCoversOnce(ws[..last], t);
      var i :| 0 <= i < last && Covers(ws[..last][i], t);
      assert Covers(ws[i], t);
    }
    forall i, j | 0 <= i < j < |ws| && Covers(ws[i], t)
      ensures !Covers(ws[j], t)
    {
      TiledInOrder(ws, i, j);
    }
  }

  /**
   Rolling windows, counted in months: window i trains for `isMonths` from `step * i` months after
   the start, its test begins where the training ends and lasts `oosMonths`, and window |ws| is the
   first whose test would end after `end`.
   */
  lemma RollingMeans(ws: seq<Window>, start: Date, end: Date, isMonths: int, oosMonths: int, step: int)
    requires IsDate(start) && Rolling(ws, start, end, isMonths, oosMonths, step)
    ensures forall i | 0 <= i < |ws| ::
              && ws[i].id == i && ws[i].oosStart == ws[i].isEnd && !Less(end, ws[i].oosEnd)
              && MonthIndex(ws[i].isStart) == MonthIndex(start) + step * i
              && MonthIndex(ws[i].isEnd) == MonthIndex(start) + step * i + isMonths
              && MonthIndex(ws[i].oosEnd) == MonthIndex(start) + step * i + isMonths + oosMonths
    ensures MonthIndex(end) <= MonthIndex(start) + step * |ws| + isMonths + oosMonths
    ensures ws != [] ==> ws[0].isStart == start
  {
    hide AddMonths;
    forall i: nat | i <= |ws|
      ensures IsDate(Advance(start, step, i)) && MonthIndex(Advance(start, step, i)) == MonthIndex(start) + step * i
    {
      AdvanceIndex(start, step, i);
    }
    forall i: nat | i <= |ws|
      ensures MonthIndex(AddMonths(Advance(start, step, i), isMonths)) == MonthIndex(start) + step * i + isMonths
      ensures MonthIndex(AddMonths(AddMonths(Advance(start, step, i), isMonths), oosMonths))
              == MonthIndex(start) + step * i + isMonths + oosMonths
    {
      AddMonthsIndex(Advance(start, step, i), isMonths);
      EndIndex(Advance(start, step, i), isMonths, oosMonths);
    }
  }

  /**
   Anchored windows, counted in months: every window trains from the start to where its test
   begins, `isMonths + step * i` months on; the test lasts `oosMonths` or to `end`.
   */
  lemma AnchoredMeans(ws: seq<Window>, start: Date, end: Date, isMonths: int, oosMonths: int, step: int)
    requires IsDate(start) && Anchored(ws, start, end, isMonths, oosMonths, step)
    ensures forall i | 0 <= i < |ws| ::
              && ws[i].id == i && ws[i].isStart == start && ws[i].isEnd == ws[i].oosStart && Less(ws[i].oosStart, end)
              && MonthIndex(ws[i].oosStart) == MonthIndex(start) + isMonths + step * i
              && !Less(end, ws[i].oosEnd)
              && (ws[i].oosEnd == end || MonthIndex(ws[i].oosEnd) == MonthIndex(ws[i].oosStart) + oosMonths)
    ensures MonthIndex(start) + isMonths + step * |ws| >= MonthIndex(end)
  {
    hide AddMonths;
    AddMonthsIndex(start, isMonths);
    var first := AddMonths(start, isMonths);
    forall i: nat | i <= |ws|
      ensures IsDate(Advance(first, step, i)) && MonthIndex(Advance(first, step, i)) == MonthIndex(first) + step * i
    {
      AdvanceIndex(first, step, i);
    }
    forall i | 0 <= i < |ws|
      ensures MonthIndex(AddMonths(ws[i].oosStart, oosMonths)) == MonthIndex(ws[i].oosStart) + oosMonths
    {
      AddMonthsIndex(ws[i].oosStart, oosMonths);
    }
  }

  // ---------------------------------------------------------------- which configurations tile

  /** The days of a month, by its index. */
  function Length(month: int): int {
    DAYS[month % 12]
  }

  /**
   Going `a` and then `b` months on from a day in a month reaches the same day as going `b` and
   then `a`: the months in between are as long as each other, or long enough for the day that the
   last month leaves.
   */
  predicate Commutes(day: int, month: int, a: int, b: int) {
    var kept := Min(day, Length(month + a + b));
    Length(month + a) == Length(month + b) || (kept <= Length(month + a) && kept <= Length(month + b))
  }

  lemma CommutesIff(s: Date, a: int, b: int)
    requires IsDate(s)
    ensures AddMonths(AddMonths(s, a), b) == AddMonths(AddMonths(s, b), a)
            <==> Commutes(s.day, MonthIndex(s), a, b)
  {
    hide AddMonths;
    AddMonthsIndex(s, a);
    AddMonthsIndex(AddMonths(s, a), b);
    AddMonthsIndex(s, b);
    AddMonthsIndex(AddMonths(s, b), a);
    KeepsEarlyDay(s, a);
    KeepsEarlyDay(AddMonths(s, a), b);
    KeepsEarlyDay(s, b);
    KeepsEarlyDay(AddMonths(s, b), a);
    var x, y := AddMonths(AddMonths(s, a), b), AddMonths(AddMonths(s, b), a);
    var m := MonthIndex(s);
    assert m + a + b == m + b + a;
    assert x.day == Min(Min(s.day, Length(m + a)), Length(m + a + b));
    assert y.day == Min(Min(s.day, Length(m + b)), Length(m + a + b));
    if x.day == y.day {
      SameDate(x, y);
    }
  }

  /** The day and month at which window `i` starts let its test meet the next one. */
  predicate MeetsNext(start: Date, isMonths: int, oosMonths: int, i: nat) {
    var s := Advance(start, oosMonths, i);
    Commutes(s.day, MonthIndex(s), isMonths, oosMonths)
  }

  lemma LengthPeriodic(month: int, years: int)
    ensures Length(month + 12 * years) == Length(month)
  {
    assert (month + 12 * years) % 12 == month % 12;
  }

  /** No window starts on a later day than a month it has come through has. */
  lemma {:induction false} DayBelow(start: Date, step: int, j: nat, i: nat)
    requires IsDate(start) && 1 <= j <= i
    ensures Advance(start, step, i).day <= Length(MonthIndex(start) + step * j)
    decreases i
  {
    hide AddMonths;
    AdvanceIndex(start, step, i - 1);
    AddMonthsIndex(Advance(start, step, i - 1), step);
    assert step * (i - 1) + step == step * i;
    if j < i {
      DayBelow(start, step, j, i - 1);
    }
  }

  /** After a year of steps the day does not change any more. */
  lemma {:induction false} DaySettles(start: Date, step: int, i: nat)
    requires IsDate(start) && i >= 12
    ensures Advance(start, step, i).day == Advance(start, step, 12).day
    decreases i
  {
    hide AddMonths;
    if i > 12 {
      DaySettles(start, step, i - 1);
      DayBelow(start, step, i - 12, i - 1);
      AdvanceIndex(start, step, i - 1);
      AddMonthsIndex(Advance(start, step, i - 1), step);
      var m := MonthIndex(start) + step * (i - 12);
      assert MonthIndex(start) + step * (i - 1) + step == m + 12 * step by { TwelveSteps(step, i); }
      LengthPeriodic(m, step);
    }
  }

  lemma TwelveSteps(step: int, i: int)
    ensures step * (i - 1) + step == step * (i - 12) + 12 * step
    ensures step * i == step * (i - 12) + 12 * step
  {
  }

  /** From the third year on, windows meet or miss as a year of steps before. */
  lemma MeetsAsBefore(start: Date, isMonths: int, oosMonths: int, i: nat)
    requires IsDate(start) && i >= 24
    ensures MeetsNext(start, isMonths, oosMonths, i) <==> MeetsNext(start, isMonths, oosMonths, i - 12)
  {
    hide AddMonths, Advance, Length;
    DaySettles(start, oosMonths, i);
    DaySettles(start, oosMonths, i - 12);
    AdvanceIndex(start, oosMonths, i);
    AdvanceIndex(start, oosMonths, i - 12);
    TwelveSteps(oosMonths, i);
    var m := MonthIndex(Advance(start, oosMonths, i - 12));
    LengthPeriodic(m + isMonths, oosMonths);
    LengthPeriodic(m + oosMonths, oosMonths);
    LengthPeriodic(m + isMonths + oosMonths, oosMonths);
  }

  lemma {:induction false} MeetsAlways(start: Date, isMonths: int, oosMonths: int, i: nat)
    requires IsDate(start) && forall j | 0 <= j < 24 :: MeetsNext(start, isMonths, oosMonths, j)
    ensures MeetsNext(start, isMonths, oosMonths, i)
  {
    if i >= 24 {
      MeetsAsBefore(start, isMonths, oosMonths, i);
      hide MeetsNext;
      MeetsAlways(start, isMonths, oosMonths, i - 12);
    }
  }

  /** There are ranges with any number of windows. */
  lemma ManyWindows(start: Date, isMonths: int, oosMonths: int, n: nat) returns (ws: seq<Window>, end: Date)
    requires IsDate(start) && oosMonths >= 1 && n >= 1
    ensures Rolling(ws, start, end, isMonths, oosMonths, oosMonths) && |ws| == n
  {
    hide AddMonths, Advance;
    ws := seq(n, i requires 0 <= i < n => WindowFrom(i, Advance(start, oosMonths, i), isMonths, oosMonths));
    end := ws[n - 1].oosEnd;
    forall i: nat | i <= n
      ensures MonthIndex(WindowFrom(i, Advance(start, oosMonths, i), isMonths, oosMonths).oosEnd)
              == MonthIndex(start) + isMonths + oosMonths + oosMonths * i
    {
      AdvanceIndex(start, oosMonths, i);
      EndIndex(Advance(start, oosMonths, i), isMonths, oosMonths);
    }
    forall i | 0 <= i < n
      ensures !Less(end, ws[i].oosEnd)
    {
      assert oosMonths * i <= oosMonths * (n - 1);
    }
    assert oosMonths * (n - 1) < oosMonths * n;
  }

  /** Two consecutive windows meet exactly when the months say so. */
  lemma RollingMeetsNext(ws: seq<Window>, start: Date, end: Date, isMonths: int, oosMonths: int, i: nat)
    requires IsDate(start) && Rolling(ws, start, end, isMonths, oosMonths, oosMonths) && i + 1 < |ws|
    ensures ws[i].oosEnd == ws[i + 1].oosStart <==> MeetsNext(start, isMonths, oosMonths, i)
  {
    hide AddMonths;
    AdvanceIndex(start, oosMonths, i);
    CommutesIff(Advance(start, oosMonths, i), isMonths, oosMonths);
    assert ws[i + 1].isStart == AddMonths(Advance(start, oosMonths, i), oosMonths);
  }

  lemma MeetingTiles(ws: seq<Window>, start: Date, end: Date, isMonths: int, oosMonths: int)
    requires IsDate(start) && oosMonths >= 1 && Rolling(ws, start, end, isMonths, oosMonths, oosMonths)
    requires forall i: nat :: MeetsNext(start, isMonths, oosMonths, i)
    ensures Tiled(ws)
  {
    hide AddMonths, MeetsNext;
    forall i | 0 <= i < |ws|
      ensures Less(ws[i].oosStart, ws[i].oosEnd)
      ensures i > 0 ==> ws[i - 1].oosEnd == ws[i].oosStart
    {
      AdvanceIndex(start, oosMonths, i);
      AddMonthsIndex(ws[i].isStart, isMonths);
      StrictlyIncreasing(ws[i].oosStart, oosMonths);
      if i > 0 {
        assert MeetsNext(start, isMonths, oosMonths, i - 1);
        RollingMeetsNext(ws, start, end, isMonths, oosMonths, i - 1);
      }
    }
  }

  /** Rolling windows of this configuration tile, however far they go. */
  ghost predicate AlwaysTiles(start: Date, isMonths: int, oosMonths: int) {
    forall ws, end | Rolling(ws, start, end, isMonths, oosMonths, oosMonths) :: Tiled(ws)
  }

  /**
   With a step of one test period, rolling windows of a start and two lengths tile for every end
   exactly when the lengths of the months agree at the first 24 windows.
   */
  lemma ConfigurationTilesIff(start: Date, isMonths: int, oosMonths: int)
    requires IsDate(start) && oosMonths >= 1
    ensures AlwaysTiles(start, isMonths, oosMonths)
            <==> forall i: nat | i < 24 :: MeetsNext(start, isMonths, oosMonths, i)
  {
    hide AddMonths, MeetsNext, Rolling;
    if AlwaysTiles(start, isMonths, oosMonths) {
      forall i: nat | i < 24
        ensures MeetsNext(start, isMonths, oosMonths, i)
      {
        var ws, end := ManyWindows(start, isMonths, oosMonths, i + 2);
        assert Tiled(ws);
        assert ws[i].oosEnd == ws[i + 1].oosStart;
        RollingMeetsNext(ws, start, end, isMonths, oosMonths, i);
      }
    }
    if forall i: nat | i < 24 :: MeetsNext(start, isMonths, oosMonths, i) {
      forall i: nat
        ensures MeetsNext(start, isMonths, oosMonths, i)
      {
        MeetsAlways(start, isMonths, oosMonths, i);
      }
      forall ws, end | Rolling(ws, start, end, isMonths, oosMonths, oosMonths)
        ensures Tiled(ws)
      {
        MeetingTiles(ws, start, end, isMonths, oosMonths);
      }
    }
  }

  /** Training over whole years tiles from every day that is in its month every year, the defaults 12 and 3 included. */
  lemma WholeYearsTile(start: Date, years: int, oosMonths: int)
    requires IsDate(start) && start.day <= Length(start.month - 1) && oosMonths >= 1
    ensures AlwaysTiles(start, 12 * years, oosMonths)
  {
    forall i: nat | i < 24
      ensures MeetsNext(start, 12 * years, oosMonths, i)
    {
      WholeYearsMeet(start, years, oosMonths, i);
    }
    ConfigurationTilesIff(start, 12 * years, oosMonths);
  }

  lemma WholeYearsMeet(start: Date, years: int, oosMonths: int, i: nat)
    requires IsDate(start) && (i > 0 || start.day <= Length(start.month - 1))
    ensures MeetsNext(start, 12 * years, oosMonths, i)
  {
    hide AddMonths;
    var s := Advance(start, oosMonths, i);
    AdvanceIndex(start, oosMonths, i);
    IndexMonth(start);
    if i > 0 {
      DayBelow(start, oosMonths, i, i);
    }
    assert s.day <= Length(MonthIndex(s));
    LengthPeriodic(MonthIndex(s), years);
    LengthPeriodic(MonthIndex(s) + oosMonths, years);
    hide Advance, Length;
    assert MonthIndex(s) + 12 * years + oosMonths == MonthIndex(s) + oosMonths + 12 * years;
  }

  /** From 29 February, training over whole years tiles exactly when the tests take whole years too. */
  lemma LeapDayTilesIff(start: Date, years: int, oosMonths: int)
    requires IsRealDate(start) && start.month == 2 && start.day == 29 && oosMonths >= 1
    ensures AlwaysTiles(start, 12 * years, oosMonths) <==> oosMonths % 12 == 0
  {
    var m := MonthIndex(start);
    IndexMonth(start);
    LengthPeriodic(m, years);
    LengthPeriodic(m + oosMonths, years);
    assert Advance(start, oosMonths, 0) == start;
    assert Length(m) == 28;
    assert oosMonths % 12 == 0 <==> Length(m + oosMonths) == 28 by { FebruaryAgain(m, oosMonths); }
    assert m + 12 * years + oosMonths == m + oosMonths + 12 * years;
    assert MeetsNext(start, 12 * years, oosMonths, 0) <==> oosMonths % 12 == 0;
    forall i: nat | 0 < i < 24
      ensures MeetsNext(start, 12 * years, oosMonths, i)
    {
      WholeYearsMeet(start, years, oosMonths, i);
    }
    hide MeetsNext;
    ConfigurationTilesIff(start, 12 * years, oosMonths);
  }

  lemma FebruaryAgain(m: int, months: int)
    requires m % 12 == 1
    ensures Length(m + months) == 28 <==> months % 12 == 0
  {
    assert (m + months) % 12 == (1 + months % 12) % 12;
  }

  // ---------------------------------------------------------------- termination

  /** `a` is `b` or a date before it with the same or an earlier day of the month, or an earlier month. */
  predicate NotAfter(a: Date, b: Date) {
    MonthIndex(a) < MonthIndex(b) || (MonthIndex(a) == MonthIndex(b) && a.day <= b.day && a.time == b.time)
  }

  lemma AddMonthsMonotone(a: Date, b: Date, months: int)
    requires IsDate(a) && IsDate(b) && NotAfter(a, b)
    ensures NotAfter(AddMonths(a, months), AddMonths(b, months))
  {
    AddMonthsIndex(a, months);
    AddMonthsIndex(b, months);
  }

  /** Steps that do not go forward never get past the start. */
  lemma {:induction false} AdvanceNotAfter(start: Date, step: int, n: nat)
    requires IsDate(start) && step <= 0
    ensures IsDate(Advance(start, step, n)) && NotAfter(Advance(start, step, n), start)
  {
    if n > 0 {
      AdvanceNotAfter(start, step, n - 1);
      AddMonthsIndex(Advance(start, step, n - 1), step);
    }
  }

  /** Steps that go forward get past any month. */
  lemma AdvancePasses(start: Date, step: int, month: int) returns (n: nat)
    requires IsDate(start) && step >= 1
    ensures IsDate(Advance(start, step, n)) && MonthIndex(Advance(start, step, n)) > month
  {
    hide AddMonths, Advance, MonthIndex;
    n := if MonthIndex(start) > month then 0 else month - MonthIndex(start) + 1;
    AdvanceIndex(start, step, n);
    Grows(step, n);
  }

  lemma {:induction false} Grows(step: int, n: nat)
    requires step >= 1
    ensures step * n >= n
  {
    if n > 0 {
      Grows(step, n - 1);
      assert step * n == step * (n - 1) + step;
    }
  }

  /** Rolling windows run out exactly when the step goes forward or not even the first one fits. */
  lemma RollingStopsIff(start: Date, end: Date, isMonths: int, oosMonths: int, step: int)
    requires IsDate(start)
    ensures (exists n: nat :: Less(end, WindowFrom(n, Advance(start, step, n), isMonths, oosMonths).oosEnd))
            <==> step >= 1 || Less(end, WindowFrom(0, start, isMonths, oosMonths).oosEnd)
  {
    hide AddMonths;
    assert Advance(start, step, 0) == start;
    if step >= 1 {
      var n := AdvancePasses(start, step, MonthIndex(end) - isMonths - oosMonths);
      EndIndex(Advance(start, step, n), isMonths, oosMonths);
      assert Less(end, WindowFrom(n, Advance(start, step, n), isMonths, oosMonths).oosEnd);
    } else {
      forall n: nat
        ensures NotAfter(WindowFrom(n, Advance(start, step, n), isMonths, oosMonths).oosEnd,
                         WindowFrom(0, start, isMonths, oosMonths).oosEnd)
      {
        var s := Advance(start, step, n);
        AdvanceNotAfter(start, step, n);
        AddMonthsMonotone(s, start, isMonths);
        AddMonthsIndex(s, isMonths);
        AddMonthsIndex(start, isMonths);
        AddMonthsMonotone(AddMonths(s, isMonths), AddMonths(start, isMonths), oosMonths);
      }
    }
  }

  /** Anchored windows run out exactly when the step goes forward or the first test starts too late. */
  lemma AnchoredStopsIff(first: Date, end: Date, step: int)
    requires IsDate(first)
    ensures (exists n: nat :: !Less(Advance(first, step, n), end)) <==> step >= 1 || !Less(first, end)
  {
    hide AddMonths;
    assert Advance(first, step, 0) == first;
    if step >= 1 {
      var n := AdvancePasses(first, step, MonthIndex(end));
      assert !Less(Advance(first, step, n), end);
    } else {
      forall n: nat
        ensures NotAfter(Advance(first, step, n), first)
      {
        AdvanceNotAfter(first, step, n);
      }
    }
  }

  // ---------------------------------------------------------------- the loops themselves

  class WalkForwardAdvanced {
    const isMonths: int
    const oosMonths: int
    const stepMonths: int
    const anchored: bool

    constructor (isMonths: int, oosMonths: int, stepMonths: int, anchored: bool)
      ensures this.isMonths == isMonths && this.oosMonths == oosMonths
      ensures this.stepMonths == stepMonths && this.anchored == anchored
    {
      this.isMonths, this.oosMonths, this.stepMonths, this.anchored := isMonths, oosMonths, stepMonths, anchored;
    }

    /** The loop for this mode ends. */
    predicate Stops(start: Date, end: Date)
      reads this
    {
      || stepMonths >= 1
      || (if anchored then !Less(AddMonths(start, isMonths), end)
          else Less(end, AddMonths(AddMonths(start, isMonths), oosMonths)))
    }

    method BuildWindows(start: Date, end: Date) returns (ws: seq<Window>)
      requires IsDate(start) && IsDate(end) && Stops(start, end)
      ensures if anchored then Anchored(ws, start, end, isMonths, oosMonths, stepMonths)
              else Rolling(ws, start, end, isMonths, oosMonths, stepMonths)
    {
      if anchored {
        ws := BuildAnchored(start, end);
      } else {
        ws := BuildRolling(start, end);
      }
    }

    method BuildAnchored(start: Date, end: Date) returns (ws: seq<Window>)
      requires IsDate(start) && anchored && Stops(start, end)
      ensures Anchored(ws, start, end, isMonths, oosMonths, stepMonths)
    {
      hide AddMonths;
      ws := [];
      var idx := 0;
      var oosS := AddMonths(start, isMonths);
      ghost var first := oosS;
      AddMonthsIndex(start, isMonths);
      while Less(oosS, end)
        invariant idx == |ws| && IsDate(oosS) && oosS == Advance(first, stepMonths, idx)
        invariant stepMonths >= 1 || !Less(oosS, end)
        invariant forall i | 0 <= i < |ws| ::
                    && ws[i].id == i && ws[i].isStart == start
                    && ws[i].oosStart == Advance(first, stepMonths, i)
                    && ws[i].isEnd == ws[i].oosStart
                    && Less(ws[i].oosStart, end)
                    && ws[i].oosEnd == Earlier(AddMonths(ws[i].oosStart, oosMonths), end)
        decreases MonthIndex(end) - MonthIndex(oosS)
      {
        var oosE := Earlier(AddMonths(oosS, oosMonths), end);
        ws := ws + [Window(idx, start, oosS, oosS, oosE)];
        AddMonthsIndex(oosS, stepMonths);
        oosS := AddMonths(oosS, stepMonths);
        idx := idx + 1;
      }
    }

    method BuildRolling(start: Date, end: Date) returns (ws: seq<Window>)
      requires IsDate(start) && !anchored && Stops(start, end)
      ensures Rolling(ws, start, end, isMonths, oosMonths, stepMonths)
    {
      hide AddMonths;
      ws := [];
      var idx := 0;
      var isS := start;
      while true
        invariant idx == |ws| && IsDate(isS) && isS == Advance(start, stepMonths, idx)
        invariant stepMonths >= 1 || isS == start
        invariant forall i | 0 <= i < |ws| ::
                    && ws[i].id == i && ws[i].isStart == Advance(start, stepMonths, i)
                    && ws[i].isEnd == AddMonths(ws[i].isStart, isMonths)
                    && ws[i].oosStart == ws[i].isEnd
                    && ws[i].oosEnd == AddMonths(ws[i].oosStart, oosMonths)
                    && !Less(end, ws[i].oosEnd)
        decreases MonthIndex(end) - MonthIndex(isS) - isMonths - oosMonths
      {
        var isE := AddMonths(isS, isMonths);
        AddMonthsIndex(isS, isMonths);
        var oosE := AddMonths(isE, oosMonths);
        AddMonthsIndex(isE, oosMonths);
        if Less(end, oosE) {
          break;
        }
        ws := ws + [Window(idx, isS, isE, isE, oosE)];
        AddMonthsIndex(isS, stepMonths);
        isS := AddMonths(isS, stepMonths);
        idx := idx + 1;
      }
    }
  }
}
