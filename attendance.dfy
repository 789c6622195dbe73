/**
 * The attendance table (widgets/attendance_widget.py): the nested
 * year → month → day → visits answer flattened into rows of
 * (date, subject, attended, theme), in iteration order. The table is the
 * sequence `rows`; each cell keeps the JSON value the code renders with
 * `str()`.
 */
module Attendance {
  import opened Json
  import opened Text

  datatype Row = Row(date: Json, subject: Json, was: Json, theme: Json)

  /** The date shown when a visit has no `date_vizit`: `year-MM-DD`. */
  function FallbackDate(year: string, month: string, day: string): string
  {
    year + "-" + ZFill(month, 2) + "-" + ZFill(day, 2)
  }

  /** How many zeros `zfill(2)` puts in front of a text. */
  function PadWidth(s: string): nat
  {
    if |s| >= 2 then 0 else 2 - |s|
  }

  /**
   * The fallback is the year, a dash, the month and day each left-padded
   * with zeros to two characters (never cut), separated by a dash.
   */
  lemma FallbackDateShape(year: string, month: string, day: string)
    requires month == [] || (month[0] != '+' && month[0] != '-')
    requires day == [] || (day[0] != '+' && day[0] != '-')
    ensures FallbackDate(year, month, day)
         == year + "-" + Zeros(PadWidth(month)) + month + "-" + Zeros(PadWidth(day)) + day
  {
    ZFillUnsigned(month, 2);
    ZFillUnsigned(day, 2);
    var m, d := ZFill(month, 2), ZFill(day, 2);
    assert m == Zeros(PadWidth(month)) + month;
    assert d == Zeros(PadWidth(day)) + day;
    assert FallbackDate(year, month, day) == year + "-" + m + "-" + d;
  }

  /** With one- or two-character month and day, the fallback is `YYYY-MM-DD` laid out around the year. */
  lemma FallbackDateLayout(year: string, month: string, day: string)
    requires |month| <= 2 && |day| <= 2
    ensures var s := FallbackDate(year, month, day);
      |s| == |year| + 6 && s[..|year|] == year && s[|year|] == '-' && s[|year| + 3] == '-'
  {
    var m, d := ZFill(month, 2), ZFill(day, 2);
    var s := FallbackDate(year, month, day);
    assert |m| == 2 && |d| == 2;
    assert s == (year + "-" + m + "-") + d;
    assert s[..|year|] == year;
  }

  /** The row for one visit, with the defaults for missing fields. */
  function VisitRow(year: string, month: string, day: string, visit: Json): Row
  {
    Row(GetOr(visit, "date_vizit", JStr(FallbackDate(year, month, day))),
        GetOr(GetOr(visit, "spec", JObj([])), "name_spec", JStr("")),
        GetOr(visit, "was", JStr("-")),
        GetOr(visit, "theme", JStr("")))
  }

  /** A visit that carries none of its fields reads the defaults in every cell. */
  lemma BareVisitRow(year: string, month: string, day: string)
    ensures VisitRow(year, month, day, JObj([])) == Row(JStr(FallbackDate(year, month, day)), JStr(""), JStr("-"), JStr(""))
  {
  }

  /** `info.get("visits", [])`, as iterated. */
  function Visits(info: Json): seq<Json>
  {
    Elements(GetOr(info, "visits", JArr([])))
  }

  function VisitRows(year: string, month: string, day: string, visits: seq<Json>): (r: seq<Row>)
    ensures |r| == |visits|
  {
    if visits == [] then []
    else VisitRows(year, month, day, visits[..|visits| - 1]) + [VisitRow(year, month, day, visits[|visits| - 1])]
  }

  /** A day's rows are its visits' rows, one per visit, in the order of the visits. */
  lemma {:induction false} VisitRowsInOrder(year: string, month: string, day: string, visits: seq<Json>)
    ensures forall i :: 0 <= i < |visits| ==>
      VisitRows(year, month, day, visits)[i] == VisitRow(year, month, day, visits[i])
    decreases |visits|
  {
    if visits != [] {
      var init := visits[..|visits| - 1];
      VisitRowsInOrder(year, month, day, init);
      var rows, before := VisitRows(year, month, day, visits), VisitRows(year, month, day, init);
      assert rows == before + [VisitRow(year, month, day, visits[|visits| - 1])];
      forall i | 0 <= i < |init|
        ensures rows[i] == VisitRow(year, month, day, visits[i])
      {
        assert rows[i] == before[i];
        assert init[i] == visits[i];
      }
    }
  }

  function DayRows(year: string, month: string, days: seq<(string, Json)>): seq<Row>
  {
    if days == [] then []
    else
      var (day, info) := days[|days| - 1];
      DayRows(year, month, days[..|days| - 1]) + VisitRows(year, month, day, Visits(info))
  }

  function MonthRows(year: string, months: seq<(string, Json)>): seq<Row>
  {
    if months == [] then []
    else
      var (month, days) := months[|months| - 1];
      MonthRows(year, months[..|months| - 1]) + DayRows(year, month, Items(days))
  }

  /** All rows of the table, year by year, month by month, day by day, visit by visit. */
  function YearRows(years: seq<(string, Json)>): seq<Row>
  {
    if years == [] then []
    else
      var (year, months) := years[|years| - 1];
      YearRows(years[..|years| - 1]) + MonthRows(year, Items(months))
  }

  // ---- the number of visits, counted independently of the rows ----

  function DayVisits(days: seq<(string, Json)>): nat
  {
    if days == [] then 0 else DayVisits(days[1..]) + |Visits(days[0].1)|
  }

  function MonthVisits(months: seq<(string, Json)>): nat
  {
    if months == [] then 0 else MonthVisits(months[1..]) + DayVisits(Items(months[0].1))
  }

  function TotalVisits(years: seq<(string, Json)>): nat
  {
    if years == [] then 0 else TotalVisits(years[1..]) + MonthVisits(Items(years[0].1))
  }

  lemma {:induction false} DayVisitsLast(days: seq<(string, Json)>)
    requires days != []
    ensures DayVisits(days) == DayVisits(days[..|days| - 1]) + |Visits(days[|days| - 1].1)|
    decreases |days|
  {
    if |days| > 1 {
      DayVisitsLast(days[1..]);
      assert days[1..][..|days| - 2] == days[..|days| - 1][1..];
    }
  }

  lemma {:induction false} MonthVisitsLast(months: seq<(string, Json)>)
    requires months != []
    ensures MonthVisits(months) == MonthVisits(months[..|months| - 1]) + DayVisits(Items(months[|months| - 1].1))
    decreases |months|
  {
    if |months| > 1 {
      MonthVisitsLast(months[1..]);
      assert months[1..][..|months| - 2] == months[..|months| - 1][1..];
    }
  }

  lemma {:induction false} TotalVisitsLast(years: seq<(string, Json)>)
    requires years != []
    ensures TotalVisits(years) == TotalVisits(years[..|years| - 1]) + MonthVisits(Items(years[|years| - 1].1))
    decreases |years|
  {
    if |years| > 1 {
      TotalVisitsLast(years[1..]);
      assert years[1..][..|years| - 2] == years[..|years| - 1][1..];
    }
  }

  lemma {:induction false} DayRowCount(year: string, month: string, days: seq<(string, Json)>)
    ensures |DayRows(year, month, days)| == DayVisits(days)
    decreases |days|
  {
    if days != [] {
      DayRowCount(year, month, days[..|days| - 1]);
      DayVisitsLast(days);
    }
  }

  lemma {:induction false} MonthRowCount(year: string, months: seq<(string, Json)>)
    ensures |MonthRows(year, months)| == MonthVisits(months)
    decreases |months|
  {
    if months != [] {
      MonthRowCount(year, months[..|months| - 1]);
      DayRowCount(year, months[|months| - 1].0, Items(months[|months| - 1].1));
      MonthVisitsLast(months);
    }
  }

  /** The table gets exactly one row per visit across all years, months and days. */
  lemma {:induction false} RowCount(years: seq<(string, Json)>)
    ensures |YearRows(years)| == TotalVisits(years)
    decreases |years|
  {
    if years != [] {
      RowCount(years[..|years| - 1]);
      MonthRowCount(years[|years| - 1].0, Items(years[|years| - 1].1));
      TotalVisitsLast(years);
    }
  }

  // ---- the four nested loops ----

  method AddVisits(year: string, month: string, day: string, visits: seq<Json>) returns (added: seq<Row>)
    ensures added == VisitRows(year, month, day, visits)
  {
    added := [];
    var i := 0;
    while i < |visits|
      invariant 0 <= i <= |visits|
      invariant added == VisitRows(year, month, day, visits[..i])
    {
      assert visits[..i + 1][..i] == visits[..i];
      added := added + [VisitRow(year, month, day, visits[i])];
      i := i + 1;
    }
    assert visits[..i] == visits;
  }

  method AddDays(year: string, month: string, days: seq<(string, Json)>) returns (added: seq<Row>)
    ensures added == DayRows(year, month, days)
  {
    added := [];
    var i := 0;
    while i < |days|
      invariant 0 <= i <= |days|
      invariant added == DayRows(year, month, days[..i])
    {
      assert days[..i + 1][..i] == days[..i];
      var more := AddVisits(year, month, days[i].0, Visits(days[i].1));
      added := added + more;
      i := i + 1;
    }
    assert days[..i] == days;
  }

  method AddMonths(year: string, months: seq<(string, Json)>) returns (added: seq<Row>)
    ensures added == MonthRows(year, months)
  {
    added := [];
    var i := 0;
    while i < |months|
      invariant 0 <= i <= |months|
      invariant added == MonthRows(year, months[..i])
    {
      assert months[..i + 1][..i] == months[..i];
      var more := AddDays(year, months[i].0, Items(months[i].1));
      added := added + more;
      i := i + 1;
    }
    assert months[..i] == months;
  }

  method AddYears(years: seq<(string, Json)>) returns (added: seq<Row>)
    ensures added == YearRows(years)
  {
    added := [];
    var i := 0;
    while i < |years|
      invariant 0 <= i <= |years|
      invariant added == YearRows(years[..i])
    {
      assert years[..i + 1][..i] == years[..i];
      var more := AddMonths(years[i].0, Items(years[i].1));
      added := added + more;
      i := i + 1;
    }
    assert years[..i] == years;
  }

  class AttendanceWidget {
    /** Whether the table widget exists; the constructor always creates it. */
    var hasTable: bool
    var rows: seq<Row>

    constructor ()
      ensures hasTable && rows == []
    {
      hasTable := true;
      rows := [];
    }

    /**
     * `update_data`: falsy input or a missing table changes nothing;
     * otherwise the table is emptied and, when the input is an object with a
     * `data` key, refilled with one row per visit.
     */
    method UpdateData(attendance: Json)
      modifies this`rows
      ensures !Truthy(attendance) || !hasTable ==> rows == old(rows)
      ensures Truthy(attendance) && hasTable ==>
        rows == (if attendance.JObj? && HasKey(attendance, "data")
                 then YearRows(Items(GetOr(attendance, "data", JNull))) else [])
      ensures Truthy(attendance) && hasTable ==>
        |rows| == (if attendance.JObj? && HasKey(attendance, "data")
                   then TotalVisits(Items(GetOr(attendance, "data", JNull))) else 0)
    {
      if !Truthy(attendance) || !hasTable {
        return;
      }
      rows := [];
      if attendance.JObj? && HasKey(attendance, "data") {
        var years := Items(GetOr(attendance, "data", JNull));
        var added := AddYears(years);
        rows := rows + added;
        RowCount(years);
      }
    }
  }
}
