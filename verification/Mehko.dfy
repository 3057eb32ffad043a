/**
 * The home-kitchen (MEHKO) caps: one check on every path that creates or changes a listing, and what it
 * guarantees over serial runs. A local date is represented by its day number; module Calendar relates the
 * two. The time zone is an arbitrary function from instants to local dates.
 */
module Mehko {
  import opened Tables
  import opened Calendar

  type Zone = int -> int

  datatype Caps = Caps(listingsPerDay: nat, mealsPerDay: nat, mealsPerWeek: nat)

  datatype Meal = Meal(host: nat, start: int, localDate: int, seats: int, active: bool)

  datatype CapError = InvalidSeats | DailyListingLimit | DailyMealLimit | WeeklyMealLimit

  datatype Checked = Within(localDate: int) | Exceeds(error: CapError)

  // ---- sums over the listings table ------------------------------------------------------------

  /** SELECT sum(f) FROM rows WHERE id <> exclude. */
  function Sum(rows: seq<Meal>, f: Meal -> int, exclude: Option<nat>): int
  {
    if rows == [] then 0
    else
      var n := |rows| - 1;
      Sum(rows[..n], f, exclude) + (if exclude == Some(n) then 0 else f(rows[n]))
  }

  function SeatsBetween(host: nat, first: int, last: int): Meal -> int
  {
    (m: Meal) => if m.host == host && m.active && first <= m.localDate <= last && m.seats > 0 then m.seats else 0
  }

  function ListingsOn(host: nat, day: int): Meal -> int
  {
    (m: Meal) => if m.host == host && m.active && m.localDate == day then 1 else 0
  }

  lemma {:induction false} SumReplace(rows: seq<Meal>, id: nat, row: Meal, f: Meal -> int)
    requires id < |rows|
    ensures Sum(rows[id := row], f, None) == Sum(rows, f, Some(id)) + f(row)
    ensures Sum(rows, f, None) == Sum(rows, f, Some(id)) + f(rows[id])
  {
    var n := |rows| - 1;
    if id == n {
      assert rows[id := row][..n] == rows[..n];
      SumOthers(rows[..n], id, f);
    } else {
      assert rows[id := row][..n] == rows[..n][id := row];
      SumReplace(rows[..n], id, row, f);
    }
  }

  lemma {:induction false} SumOthers(rows: seq<Meal>, id: nat, f: Meal -> int)
    requires |rows| <= id
    ensures Sum(rows, f, Some(id)) == Sum(rows, f, None)
  {
    if rows != [] {
      SumOthers(rows[..|rows| - 1], id, f);
    }
  }

  /** A sum is at most the sum of two others if that is so row by row. */
  lemma {:induction false} SumBounded(rows: seq<Meal>, f: Meal -> int, g: Meal -> int, h: Meal -> int)
    requires forall m :: f(m) <= g(m) + h(m)
    ensures Sum(rows, f, None) <= Sum(rows, g, None) + Sum(rows, h, None)
  {
    if rows != [] {
      SumBounded(rows[..|rows| - 1], f, g, h);
    }
  }

  // ---- the check -------------------------------------------------------------------------------

  function AssertWithinCaps(caps: Caps, zone: Zone, rows: seq<Meal>, host: nat, start: int, seats: int, exclude: Option<nat>): Checked
  {
    var day := zone(start);
    var monday := WeekStart(day);
    if seats < 1 then Exceeds(InvalidSeats)
    else if Sum(rows, ListingsOn(host, day), exclude) >= caps.listingsPerDay then Exceeds(DailyListingLimit)
    else if seats > caps.mealsPerDay || Sum(rows, SeatsBetween(host, day, day), exclude) + seats > caps.mealsPerDay then
      Exceeds(DailyMealLimit)
    else if Sum(rows, SeatsBetween(host, monday, monday + 6), exclude) + seats > caps.mealsPerWeek then Exceeds(WeeklyMealLimit)
    else Within(day)
  }

  ghost predicate DayWithin(caps: Caps, rows: seq<Meal>, host: nat, day: int)
  {
    && Sum(rows, ListingsOn(host, day), None) <= caps.listingsPerDay
    && Sum(rows, SeatsBetween(host, day, day), None) <= caps.mealsPerDay
  }

  ghost predicate WeekWithin(caps: Caps, rows: seq<Meal>, host: nat, monday: int)
  {
    Sum(rows, SeatsBetween(host, monday, monday + 6), None) <= caps.mealsPerWeek
  }

  ghost predicate Dated(zone: Zone, rows: seq<Meal>)
  {
    forall i :: 0 <= i < |rows| ==> rows[i].localDate == zone(rows[i].start) && rows[i].seats >= 1
  }

  ghost predicate CapsHold(caps: Caps, zone: Zone, rows: seq<Meal>)
  {
    && Dated(zone, rows)
    && (forall host: nat, day: int :: DayWithin(caps, rows, host, day))
    && (forall host: nat, monday: int :: WeekDay(monday) == 1 ==> WeekWithin(caps, rows, host, monday))
  }

  // ---- writes that pass through it -------------------------------------------------------------

  datatype Change =
    | Create(host: nat, start: int, seats: int)
    | Update(id: nat, newStart: Option<int>, newSeats: Option<int>)
    | Cancel(id: nat)

  /** The row an update writes: local_date is rewritten only together with the start. */
  function Rewritten(row: Meal, start: Option<int>, seats: Option<int>, localDate: int): Meal
  {
    var moved := if start.Some? && start.value != row.start then row.(start := start.value, localDate := localDate) else row;
    if seats.Some? && seats.value != row.seats then moved.(seats := seats.value) else moved
  }

  /** One transaction; a refused one changes nothing. */
  function Changed(caps: Caps, zone: Zone, rows: seq<Meal>, change: Change): seq<Meal>
  {
    match change
    case Create(host, start, seats) =>
      var checked := AssertWithinCaps(caps, zone, rows, host, start, seats, None);
      if checked.Exceeds? then rows else rows + [Meal(host, start, checked.localDate, seats, true)]
    case Update(id, start, seats) =>
      if id >= |rows| || !rows[id].active then rows
      else
        var checked := AssertWithinCaps(caps, zone, rows, rows[id].host, Or(start, rows[id].start), Or(seats, rows[id].seats), Some(id));
        if checked.Exceeds? then rows else rows[id := Rewritten(rows[id], start, seats, checked.localDate)]
    case Cancel(id) =>
      if id >= |rows| then rows else rows[id := rows[id].(active := false)]
  }

  function ChangedAll(caps: Caps, zone: Zone, rows: seq<Meal>, run: seq<Change>): seq<Meal>
  {
    if run == [] then rows
    else Changed(caps, zone, ChangedAll(caps, zone, rows, run[..|run| - 1]), run[|run| - 1])
  }

  // ---- exactness of the check ------------------------------------------------------------------

  /** rows' is rows with one row inserted or rewritten. */
  ghost predicate Writes(rows: seq<Meal>, rows': seq<Meal>, id: nat)
  {
    && id < |rows'|
    && if id < |rows| then rows' == rows[id := rows'[id]] else id == |rows| && rows' == rows + [rows'[id]]
  }

  function Excluded(rows: seq<Meal>, id: nat): Option<nat>
  {
    if id < |rows| then Some(id) else None
  }

  /** The row written adds its own part to the sum over the others. */
  lemma WriteSum(rows: seq<Meal>, rows': seq<Meal>, id: nat, f: Meal -> int)
    requires Writes(rows, rows', id) && forall m :: f(m) >= 0
    ensures Sum(rows', f, None) == Sum(rows, f, Excluded(rows, id)) + f(rows'[id])
    ensures 0 <= Sum(rows, f, Excluded(rows, id)) <= Sum(rows, f, None)
  {
    SumNonNegative(rows, f, Excluded(rows, id));
    if id < |rows| {
      SumReplace(rows, id, rows'[id], f);
    }
  }

  lemma {:induction false} SumNonNegative(rows: seq<Meal>, f: Meal -> int, exclude: Option<nat>)
    requires forall m :: f(m) >= 0
    ensures Sum(rows, f, exclude) >= 0
  {
    if rows != [] {
      SumNonNegative(rows[..|rows| - 1], f, exclude);
    }
  }

  lemma DayAfter(caps: Caps, rows: seq<Meal>, rows': seq<Meal>, id: nat, host: nat, day: int)
    requires Writes(rows, rows', id) && DayWithin(caps, rows, host, day)
    ensures DayWithin(caps, rows', host, day) <==>
              (rows'[id].host == host && rows'[id].active && rows'[id].localDate == day ==>
                 && Sum(rows, ListingsOn(host, day), Excluded(rows, id)) < caps.listingsPerDay
                 && Sum(rows, SeatsBetween(host, day, day), Excluded(rows, id)) + SeatsBetween(host, day, day)(rows'[id])
                    <= caps.mealsPerDay)
  {
    WriteSum(rows, rows', id, ListingsOn(host, day));
    WriteSum(rows, rows', id, SeatsBetween(host, day, day));
  }

  lemma WeekAfter(caps: Caps, rows: seq<Meal>, rows': seq<Meal>, id: nat, host: nat, monday: int)
    requires Writes(rows, rows', id) && WeekWithin(caps, rows, host, monday)
    ensures WeekWithin(caps, rows', host, monday) <==>
              (rows'[id].host == host && rows'[id].active && monday <= rows'[id].localDate <= monday + 6 ==>
                 Sum(rows, SeatsBetween(host, monday, monday + 6), Excluded(rows, id))
                 + SeatsBetween(host, monday, monday + 6)(rows'[id]) <= caps.mealsPerWeek)
  {
    WriteSum(rows, rows', id, SeatsBetween(host, monday, monday + 6));
  }

  /** The check passes exactly when the write it guards leaves every cap of every host respected. */
  lemma CheckIsExact(caps: Caps, zone: Zone, rows: seq<Meal>, rows': seq<Meal>, id: nat)
    requires CapsHold(caps, zone, rows) && Writes(rows, rows', id)
    requires var row := rows'[id]; row.active && row.seats >= 1 && row.localDate == zone(row.start)
    ensures var row := rows'[id];
      AssertWithinCaps(caps, zone, rows, row.host, row.start, row.seats, Excluded(rows, id)).Within? <==> CapsHold(caps, zone, rows')
  {
    var row := rows'[id];
    var ok := AssertWithinCaps(caps, zone, rows, row.host, row.start, row.seats, Excluded(rows, id)).Within?;
    MondayBlock(row.localDate);
    SumNonNegative(rows, SeatsBetween(row.host, row.localDate, row.localDate), Excluded(rows, id));
    DayAfter(caps, rows, rows', id, row.host, row.localDate);
    WeekAfter(caps, rows, rows', id, row.host, WeekStart(row.localDate));
    assert DayWithin(caps, rows, row.host, row.localDate) && WeekWithin(caps, rows, row.host, WeekStart(row.localDate));
    assert ok <==> DayWithin(caps, rows', row.host, row.localDate) && WeekWithin(caps, rows', row.host, WeekStart(row.localDate));
    if ok {
      OthersWithin(caps, zone, rows, rows', id);
    }
  }

  /** A refusal names the first cap, of the day's listings, the day's seats and the week's seats, that the write would break. */
  lemma RefusalNamesTheCap(caps: Caps, zone: Zone, rows: seq<Meal>, rows': seq<Meal>, id: nat)
    requires CapsHold(caps, zone, rows) && Writes(rows, rows', id)
    requires var row := rows'[id]; row.active && row.seats >= 1 && row.localDate == zone(row.start)
    ensures var row := rows'[id]; var day, monday := row.localDate, WeekStart(row.localDate);
      var listings, meals := Sum(rows', ListingsOn(row.host, day), None), Sum(rows', SeatsBetween(row.host, day, day), None);
      var week := Sum(rows', SeatsBetween(row.host, monday, monday + 6), None);
      AssertWithinCaps(caps, zone, rows, row.host, row.start, row.seats, Excluded(rows, id)) ==
      if listings > caps.listingsPerDay then Exceeds(DailyListingLimit)
      else if meals > caps.mealsPerDay then Exceeds(DailyMealLimit)
      else if week > caps.mealsPerWeek then Exceeds(WeeklyMealLimit)
      else Within(day)
  {
    var row := rows'[id];
    MondayBlock(row.localDate);
    WriteSum(rows, rows', id, ListingsOn(row.host, row.localDate));
    WriteSum(rows, rows', id, SeatsBetween(row.host, row.localDate, row.localDate));
    WriteSum(rows, rows', id, SeatsBetween(row.host, WeekStart(row.localDate), WeekStart(row.localDate) + 6));
  }

  lemma OthersWithin(caps: Caps, zone: Zone, rows: seq<Meal>, rows': seq<Meal>, id: nat)
    requires CapsHold(caps, zone, rows) && Writes(rows, rows', id)
    requires rows'[id].localDate == zone(rows'[id].start) && rows'[id].seats >= 1
    requires rows'[id].active ==> DayWithin(caps, rows', rows'[id].host, rows'[id].localDate)
                                  && WeekWithin(caps, rows', rows'[id].host, WeekStart(rows'[id].localDate))
    ensures CapsHold(caps, zone, rows')
  {
    forall host: nat, day: int
      ensures DayWithin(caps, rows', host, day)
    {
      assert DayWithin(caps, rows, host, day);
      DayAfter(caps, rows, rows', id, host, day);
    }
    forall host: nat, monday: int | WeekDay(monday) == 1
      ensures WeekWithin(caps, rows', host, monday)
    {
      assert WeekWithin(caps, rows, host, monday);
      WeekAfter(caps, rows, rows', id, host, monday);
      MondayBlock(rows'[id].localDate);
    }
  }

  // ---- every serial run ------------------------------------------------------------------------

  lemma ChangeKeeps(caps: Caps, zone: Zone, rows: seq<Meal>, change: Change)
    requires CapsHold(caps, zone, rows)
    ensures CapsHold(caps, zone, Changed(caps, zone, rows, change))
  {
    var rows' := Changed(caps, zone, rows, change);
    if rows' != rows {
      match change
      case Create(_, _, _) => CheckIsExact(caps, zone, rows, rows', |rows|);
      case Update(id, _, _) => CheckIsExact(caps, zone, rows, rows', id);
      case Cancel(id) => OthersWithin(caps, zone, rows, rows', id);
    }
  }

  /** The caps hold after any serial run of creates, updates and cancellations, for every host, day and week. */
  lemma {:induction false} CapsAlwaysHold(caps: Caps, zone: Zone, rows: seq<Meal>, run: seq<Change>)
    requires CapsHold(caps, zone, rows)
    ensures CapsHold(caps, zone, ChangedAll(caps, zone, rows, run))
  {
    if run != [] {
      var before := run[..|run| - 1];
      CapsAlwaysHold(caps, zone, rows, before);
      ChangeKeeps(caps, zone, ChangedAll(caps, zone, rows, before), run[|run| - 1]);
    }
  }

  // ---- windows that cross a week boundary ------------------------------------------------------

  /** Any seven days in a row hold at most twice the weekly cap: the accepted residual of calendar weeks. */
  lemma RollingWeek(caps: Caps, zone: Zone, run: seq<Change>, host: nat, first: int)
    ensures Sum(ChangedAll(caps, zone, [], run), SeatsBetween(host, first, first + 6), None) <= 2 * caps.mealsPerWeek
  {
    CapsAlwaysHold(caps, zone, [], run);
    TwoWeeks(caps, zone, ChangedAll(caps, zone, [], run), host, first, WeekStart(first));
  }

  lemma TwoWeeks(caps: Caps, zone: Zone, rows: seq<Meal>, host: nat, first: int, monday: int)
    requires CapsHold(caps, zone, rows) && monday == WeekStart(first)
    ensures Sum(rows, SeatsBetween(host, first, first + 6), None) <= 2 * caps.mealsPerWeek
  {
    MondayBlock(first);
    assert WeekWithin(caps, rows, host, monday);
    assert WeekDay(monday + 7) == 1 && WeekWithin(caps, rows, host, monday + 7);
    SumBounded(rows, SeatsBetween(host, first, first + 6), SeatsBetween(host, monday, monday + 6),
               SeatsBetween(host, monday + 7, monday + 7 + 6));
  }

  /** Any k days in a row hold at most k times the daily cap. */
  lemma {:induction false} DaysInARow(caps: Caps, zone: Zone, rows: seq<Meal>, host: nat, first: int, k: nat)
    requires CapsHold(caps, zone, rows)
    ensures Sum(rows, SeatsBetween(host, first, first + k - 1), None) <= k * caps.mealsPerDay
  {
    if k == 0 {
      SumBounded(rows, SeatsBetween(host, first, first - 1), Nothing(), Nothing());
      SumOfNothing(rows);
    } else {
      var day := first + k - 1;
      DaysInARow(caps, zone, rows, host, first, k - 1);
      assert DayWithin(caps, rows, host, day);
      SumBounded(rows, SeatsBetween(host, first, day), SeatsBetween(host, first, day - 1), SeatsBetween(host, day, day));
      assert k * caps.mealsPerDay == (k - 1) * caps.mealsPerDay + caps.mealsPerDay;
    }
  }

  function Nothing(): Meal -> int
  {
    (m: Meal) => 0
  }

  lemma {:induction false} SumOfNothing(rows: seq<Meal>)
    ensures Sum(rows, Nothing(), None) == 0
  {
    if rows != [] {
      SumOfNothing(rows[..|rows| - 1]);
    }
  }

  /** The caps the service is configured with. */
  const Configured := Caps(1, 30, 90)

  /**
   * Under the configured caps no four days in a row can hold twice the weekly cap, as a note beside the code
   * says they can: five days cannot either, and RollingWeekIsTight shows that six can.
   */
  lemma FourDaysFallShort(zone: Zone, run: seq<Change>, host: nat, first: int)
    ensures var rows := ChangedAll(Configured, zone, [], run);
      && Sum(rows, SeatsBetween(host, first, first + 3), None) <= 120 < 2 * Configured.mealsPerWeek
      && Sum(rows, SeatsBetween(host, first, first + 4), None) <= 150 < 2 * Configured.mealsPerWeek
  {
    var rows := ChangedAll(Configured, zone, [], run);
    CapsAlwaysHold(Configured, zone, [], run);
    DaysInARow(Configured, zone, rows, host, first, 4);
    DaysInARow(Configured, zone, rows, host, first, 5);
  }

  /** A full table, one listing a day from day first on. */
  function FullDays(host: nat, first: int, days: nat, seats: int): seq<Meal>
  {
    seq(days, i requires 0 <= i < days => Meal(host, first + i, first + i, seats, true))
  }

  function FullRun(host: nat, first: int, days: nat, seats: int): seq<Change>
  {
    if days == 0 then [] else FullRun(host, first, days - 1, seats) + [Create(host, first + days - 1, seats)]
  }

  function SameDay(): Zone
  {
    (instant: int) => instant
  }

  /** How many of the days first, first + 1, ... (k of them) lie between a and b. */
  function Overlap(first: int, k: nat, a: int, b: int): nat
  {
    if k == 0 then 0 else Overlap(first, k - 1, a, b) + if a <= first + k - 1 <= b then 1 else 0
  }

  lemma {:induction false} SumOfFullDays(host: nat, first: int, k: nat, a: int, b: int)
    ensures Sum(FullDays(host, first, k, 30), SeatsBetween(host, a, b), None) == 30 * Overlap(first, k, a, b)
    ensures forall day :: day >= first + k ==> Sum(FullDays(host, first, k, 30), ListingsOn(host, day), None) == 0
  {
    if k > 0 {
      SumOfFullDays(host, first, k - 1, a, b);
      assert FullDays(host, first, k, 30)[..k - 1] == FullDays(host, first, k - 1, 30);
    }
  }

  lemma {:induction false} OverlapIs(first: int, k: nat, a: int, b: int)
    ensures var from, to := if a < first then first else a, if b < first + k - 1 then b else first + k - 1;
      Overlap(first, k, a, b) == if from <= to then to - from + 1 else 0
  {
    if k > 0 {
      OverlapIs(first, k - 1, a, b);
    }
  }

  lemma FullDayFits(host: nat, friday: int, k: nat)
    requires WeekDay(friday) == 5 && k < 6
    ensures Changed(Configured, SameDay(), FullDays(host, friday, k, 30), Create(host, friday + k, 30)) == FullDays(host, friday, k + 1, 30)
  {
    var rows, day := FullDays(host, friday, k, 30), friday + k;
    var monday := if k < 3 then friday - 4 else friday + 3;
    MondayBlock(day);
    assert WeekStart(day) == monday;
    OverlapIs(friday, k, day, day);
    OverlapIs(friday, k, monday, monday + 6);
    SumOfFullDays(host, friday, k, day, day);
    SumOfFullDays(host, friday, k, monday, monday + 6);
    assert FullDays(host, friday, k + 1, 30) == rows + [Meal(host, day, day, 30, true)];
  }

  lemma {:induction false} FullDaysFit(host: nat, friday: int, k: nat)
    requires WeekDay(friday) == 5 && k <= 6
    ensures ChangedAll(Configured, SameDay(), [], FullRun(host, friday, k, 30)) == FullDays(host, friday, k, 30)
  {
    if k == 0 {
      assert FullDays(host, friday, 0, 30) == [];
    } else {
      FullDaysFit(host, friday, k - 1);
      FullDayFits(host, friday, k - 1);
      var run, before := FullRun(host, friday, k, 30), FullRun(host, friday, k - 1, 30);
      assert run[..|run| - 1] == before;
    }
  }

  /** The residual bound is reached: three full days on each side of a week boundary, Friday to Wednesday. */
  lemma RollingWeekIsTight(host: nat, friday: int)
    requires WeekDay(friday) == 5
    ensures var rows := ChangedAll(Configured, SameDay(), [], FullRun(host, friday, 6, 30));
      && Sum(rows, SeatsBetween(host, friday, friday + 5), None) == 2 * Configured.mealsPerWeek
      && Sum(rows, SeatsBetween(host, friday, friday + 6), None) == 2 * Configured.mealsPerWeek
  {
    FullDaysFit(host, friday, 6);
    SumOfFullDays(host, friday, 6, friday, friday + 5);
    SumOfFullDays(host, friday, 6, friday, friday + 6);
    OverlapIs(friday, 6, friday, friday + 5);
    OverlapIs(friday, 6, friday, friday + 6);
  }
}
