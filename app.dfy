/**
 * The application shell (main.py): the login window's guard, the dashboard's
 * counters, average and capped tables, and the main window's loaders that
 * gather data from the session. Tables are sequences of rows, each row the
 * sequence of JSON values its cells render with `str()`.
 */
module App {
  import opened Json
  import opened Text
  import opened Dates
  import opened Core
  import opened Session
  import opened Messages
  import Calendar

  // ---- count_tasks / count_overdue_tasks ----

  /** The task list both counters read: `homework["data"]` of a non-empty dict that has it. */
  function Tasks(homework: Json): seq<Json>
  {
    if Truthy(homework) && homework.JObj? && HasKey(homework, "data")
    then Elements(GetOr(homework, "data", JNull)) else []
  }

  /** `count_tasks`: 0 unless the input is a non-empty dict with `data`, else `len(data)`. */
  function CountTasks(homework: Json): (n: nat)
    ensures n == |Tasks(homework)|
    ensures !(Truthy(homework) && homework.JObj? && HasKey(homework, "data")) ==> n == 0
  {
    if !Truthy(homework) || !homework.JObj? || !HasKey(homework, "data") then 0
    else Len(GetOr(homework, "data", JNull))
  }

  /** A task counts as overdue when its lower-cased status mentions one of three words. */
  predicate Overdue(task: Json)
  {
    var status := TextOf(GetOr(task, "status", JStr("")));
    Calendar.Mentions(status, "просрочено") || Calendar.Mentions(status, "overdue") || Calendar.Mentions(status, "expired")
  }

  function OverdueIn(tasks: seq<Json>): seq<Json>
  {
    if tasks == [] then []
    else OverdueIn(tasks[..|tasks| - 1]) + (if Overdue(tasks[|tasks| - 1]) then [tasks[|tasks| - 1]] else [])
  }

  /** The overdue tasks are exactly the tasks with an overdue status, and never more than all tasks. */
  lemma {:induction false} OverdueExactly(tasks: seq<Json>)
    ensures forall t :: t in OverdueIn(tasks) <==> t in tasks && Overdue(t)
    ensures |OverdueIn(tasks)| <= |tasks|
    decreases |tasks|
  {
    if tasks != [] {
      OverdueExactly(tasks[..|tasks| - 1]);
      assert tasks == tasks[..|tasks| - 1] + [tasks[|tasks| - 1]];
    }
  }

  /** The overdue count never exceeds the task count, and is 0 exactly when no task is overdue. */
  lemma OverdueBounded(homework: Json)
    ensures |OverdueIn(Tasks(homework))| <= CountTasks(homework)
    ensures |OverdueIn(Tasks(homework))| == 0 <==> forall t :: t in Tasks(homework) ==> !Overdue(t)
  {
    OverdueExactly(Tasks(homework));
    if |OverdueIn(Tasks(homework))| != 0 {
      assert OverdueIn(Tasks(homework))[0] in OverdueIn(Tasks(homework));
    }
  }

  /** One more task adds one to the overdue count exactly when it is overdue. */
  lemma OverdueStep(tasks: seq<Json>, i: nat)
    requires i < |tasks|
    ensures |OverdueIn(tasks[..i + 1])| == |OverdueIn(tasks[..i])| + (if Overdue(tasks[i]) then 1 else 0)
  {
    assert tasks[..i + 1][..i] == tasks[..i];
    assert tasks[..i + 1][i] == tasks[i];
  }

  /** `count_overdue_tasks`: the loop counting overdue statuses. */
  method CountOverdueTasks(homework: Json) returns (n: nat)
    ensures n == |OverdueIn(Tasks(homework))|
  {
    if !Truthy(homework) || !homework.JObj? || !HasKey(homework, "data") {
      return 0;
    }
    var tasks := Elements(GetOr(homework, "data", JNull));
    n := 0;
    var i := 0;
    while i < |tasks|
      invariant 0 <= i <= |tasks|
      invariant n == |OverdueIn(tasks[..i])|
    {
      OverdueStep(tasks, i);
      if Overdue(tasks[i]) {
        n := n + 1;
      }
      i := i + 1;
    }
    assert tasks[..i] == tasks;
  }

  // ---- calculate_average_grade ----

  /** `float(grade['mark'])` of a dict grade, kept only when it parses and is above 0. */
  function PositiveMark(grade: Json, parse: string -> Option<real>): (m: seq<real>)
    ensures |m| <= 1 && forall i :: 0 <= i < |m| ==> m[i] > 0.0
  {
    if grade.JObj? && HasKey(grade, "mark") then
      match ToFloat(GetOr(grade, "mark", JNull), parse)
      case Some(v) => if v > 0.0 then [v] else []
      case None => []
    else []
  }

  function PositiveMarks(grades: seq<Json>, parse: string -> Option<real>): (ms: seq<real>)
    ensures |ms| <= |grades| && forall i :: 0 <= i < |ms| ==> ms[i] > 0.0
  {
    if grades == [] then []
    else PositiveMarks(grades[..|grades| - 1], parse) + PositiveMark(grades[|grades| - 1], parse)
  }

  /** The dashboard average: the mean of the positive marks of a non-empty list, else 0.0. */
  function AverageGrade(grades: Json, parse: string -> Option<real>): real
  {
    if !Truthy(grades) || !grades.JArr? then 0.0
    else
      var ms := PositiveMarks(grades.items, parse);
      if ms == [] then 0.0 else Mean(ms)
  }

  /** One more grade adds its kept mark, if any, to the total and the count. */
  lemma PositiveMarksStep(items: seq<Json>, i: nat, parse: string -> Option<real>, kept: bool, mark: real)
    requires i < |items| && PositiveMark(items[i], parse) == if kept then [mark] else []
    ensures Sum(PositiveMarks(items[..i + 1], parse)) == Sum(PositiveMarks(items[..i], parse)) + (if kept then mark else 0.0)
    ensures |PositiveMarks(items[..i + 1], parse)| == |PositiveMarks(items[..i], parse)| + (if kept then 1 else 0)
  {
    assert items[..i + 1][..i] == items[..i];
    var before := PositiveMarks(items[..i], parse);
    var m := PositiveMark(items[i], parse);
    assert PositiveMarks(items[..i + 1], parse) == before + m;
    if kept {
      assert (before + m)[..|before|] == before;
    } else {
      assert before + m == before;
    }
  }

  /** The body of the `calculate_average_grade` loop: whether a grade's mark is kept, and its value. */
  method ReadMark(grade: Json, parse: string -> Option<real>) returns (kept: bool, mark: real)
    ensures PositiveMark(grade, parse) == if kept then [mark] else []
  {
    kept, mark := false, 0.0;
    if grade.JObj? && HasKey(grade, "mark") {
      var parsed := ToFloat(GetOr(grade, "mark", JNull), parse);
      if parsed.Some? && parsed.value > 0.0 {
        kept, mark := true, parsed.value;
      }
    }
  }

  /** `total` and `count` are the sum and number of the kept marks of the first `i` grades. */
  predicate Totals(items: seq<Json>, i: nat, parse: string -> Option<real>, total: real, count: nat)
    requires i <= |items|
  {
    total == Sum(PositiveMarks(items[..i], parse)) && count == |PositiveMarks(items[..i], parse)|
  }

  /** One pass of the `calculate_average_grade` loop: the i-th grade's mark, if kept, is added. */
  method AddMark(items: seq<Json>, i: nat, parse: string -> Option<real>, total: real, count: nat)
    returns (total': real, count': nat)
    requires i < |items| && Totals(items, i, parse, total, count)
    ensures Totals(items, i + 1, parse, total', count')
  {
    var kept, mark := ReadMark(items[i], parse);
    PositiveMarksStep(items, i, parse, kept, mark);
    total', count' := total, count;
    if kept {
      total' := total + mark;
      count' := count + 1;
    }
  }

  /** The `calculate_average_grade` loop: the running total and count of the kept marks. */
  method TotalMarks(items: seq<Json>, parse: string -> Option<real>) returns (total: real, count: nat)
    ensures total == Sum(PositiveMarks(items, parse)) && count == |PositiveMarks(items, parse)|
  {
    total, count := 0.0, 0;
    var i := 0;
    while i < |items|
      invariant 0 <= i <= |items|
      invariant Totals(items, i, parse, total, count)
    {
      total, count := AddMark(items, i, parse, total, count);
      i := i + 1;
    }
    assert items[..i] == items;
  }

  method CalculateAverageGrade(grades: Json, parse: string -> Option<real>) returns (avg: real)
    ensures avg == AverageGrade(grades, parse)
  {
    if !Truthy(grades) || !grades.JArr? {
      return 0.0;
    }
    var total, count := TotalMarks(grades.items, parse);
    avg := if count > 0 then total / (count as real) else 0.0;
  }

  lemma {:induction false} SumPositive(xs: seq<real>)
    requires xs != [] && forall i :: 0 <= i < |xs| ==> xs[i] > 0.0
    ensures Sum(xs) > 0.0
    decreases |xs|
  {
    if |xs| > 1 {
      SumPositive(xs[..|xs| - 1]);
    } else {
      assert Sum(xs[..0]) == 0.0;
    }
  }

  lemma QuotientPositive(a: real, b: real)
    requires a > 0.0 && b > 0.0
    ensures a / b > 0.0
  {
  }

  /** The average is above 0 exactly when the input is a list holding some positive parseable mark. */
  lemma AverageGradePositive(grades: Json, parse: string -> Option<real>)
    ensures AverageGrade(grades, parse) > 0.0 <==>
      grades.JArr? && PositiveMarks(grades.items, parse) != []
  {
    if grades.JArr? && PositiveMarks(grades.items, parse) != [] {
      var ms := PositiveMarks(grades.items, parse);
      SumPositive(ms);
      assert grades.items != [];
      QuotientPositive(Sum(ms), |ms| as real);
    } else if grades.JArr? {
      var ms := PositiveMarks(grades.items, parse);
      assert ms == [];
      assert AverageGrade(grades, parse) == 0.0;
    }
  }

  /** When every kept mark lies in [lo, hi], so does the average. */
  lemma AverageGradeBounds(grades: Json, parse: string -> Option<real>, lo: real, hi: real)
    requires grades.JArr? && PositiveMarks(grades.items, parse) != []
    requires forall m :: m in PositiveMarks(grades.items, parse) ==> lo <= m <= hi
    ensures lo <= AverageGrade(grades, parse) <= hi
  {
    var ms := PositiveMarks(grades.items, parse);
    assert forall i :: 0 <= i < |ms| ==> ms[i] in ms;
    MeanBounds(ms, lo, hi);
  }

  // ---- the dashboard tables ----

  type Table = seq<seq<Json>>

  /** Python's `xs[:n]`. */
  function Take<T>(xs: seq<T>, n: nat): seq<T>
  {
    if |xs| <= n then xs else xs[..n]
  }

  function RowsOf(items: seq<Json>, row: Json -> seq<Json>): Table
  {
    seq(|items|, i requires 0 <= i < |items| => row(items[i]))
  }

  /** The items a `[:n]` slice reads from a list; other values are read as empty. */
  function ListItems(j: Json): seq<Json>
  {
    if j.JArr? then j.items else []
  }

  /**
   * The loop shared by the dashboard tables: one row per item of `items[:cap]`,
   * in order, so at most `cap` rows.
   */
  method FillTable(items: seq<Json>, cap: nat, row: Json -> seq<Json>) returns (table: Table)
    ensures |table| == (if |items| <= cap then |items| else cap)
    ensures forall i :: 0 <= i < |table| ==> table[i] == row(items[i])
  {
    var shown := Take(items, cap);
    table := [];
    var i := 0;
    while i < |shown|
      invariant 0 <= i <= |shown|
      invariant |table| == i && forall k :: 0 <= k < i ==> table[k] == row(shown[k])
    {
      table := table + [row(shown[i])];
      i := i + 1;
    }
  }

  /** Subject, mark and date of one mark. */
  function MarkRow(grade: Json): seq<Json>
  {
    [GetOr(grade, "name_spec", JStr("")), GetOr(grade, "mark", JStr("")), GetOr(grade, "mark_date", JStr(""))]
  }

  /** Place, name and points of one leaderboard entry. */
  function LeaderRow(leader: Json): seq<Json>
  {
    [GetOr(leader, "position", JStr("")), GetOr(leader, "fio_stud", JStr("-")), GetOr(leader, "amount", JNum(0.0))]
  }

  /** `"start - finish"` when both times are truthy, else the empty text. */
  function TimeCell(entry: Json): (t: string)
    ensures t == "" <==> !(Truthy(GetOr(entry, "started_at", JStr(""))) && Truthy(GetOr(entry, "finished_at", JStr(""))))
  {
    var started, finished := GetOr(entry, "started_at", JStr("")), GetOr(entry, "finished_at", JStr(""));
    if Truthy(started) && Truthy(finished) then TextOf(started) + " - " + TextOf(finished) else ""
  }

  /**
   * Date, time and subject of one lesson. The code also sets a teacher cell
   * in a fourth column, which the three-column table does not have.
   */
  function ScheduleRow(entry: Json): seq<Json>
  {
    [GetOr(entry, "date", JStr("")), JStr(TimeCell(entry)), GetOr(entry, "subject_name", JStr(""))]
  }

  /** The grades table after `update_dashboard_grades`: the first 8 marks, or unchanged for falsy input. */
  function GradesAfter(grades: Json, before: Table): Table
  {
    if !Truthy(grades) then before else RowsOf(Take(ListItems(grades), 8), MarkRow)
  }

  predicate HasTop(leaderboard: Json)
  {
    HasKey(leaderboard, "group") && HasKey(GetOr(leaderboard, "group", JNull), "top")
  }

  function TopOf(leaderboard: Json): seq<Json>
  {
    ListItems(GetOr(GetOr(leaderboard, "group", JNull), "top", JNull))
  }

  /** The leaderboard table: the first 8 of `group.top`, emptied when either key is missing. */
  function LeadersAfter(leaderboard: Json, before: Table): Table
  {
    if !Truthy(leaderboard) then before
    else if HasTop(leaderboard) then RowsOf(Take(TopOf(leaderboard), 8), LeaderRow)
    else []
  }

  /** The schedule table: the first 10 lessons of a list, emptied for anything else truthy. */
  function ScheduleAfter(schedule: Json, before: Table): Table
  {
    if !Truthy(schedule) then before
    else if schedule.JArr? then RowsOf(Take(schedule.items, 10), ScheduleRow)
    else []
  }

  /**
   * The three tables hold the leading 8, 8 and 10 entries, in order, or all
   * of them when there are fewer; a falsy input leaves its table as it was,
   * and a leaderboard without `group.top` or a schedule that is not a list
   * empties it.
   */
  lemma TableCaps(grades: Json, leaderboard: Json, schedule: Json, before: Table)
    ensures !Truthy(grades) ==> GradesAfter(grades, before) == before
    ensures Truthy(grades) ==>
      var t := GradesAfter(grades, before);
      |t| == (if |ListItems(grades)| <= 8 then |ListItems(grades)| else 8)
      && forall i :: 0 <= i < |t| ==> t[i] == MarkRow(ListItems(grades)[i])
    ensures !Truthy(leaderboard) ==> LeadersAfter(leaderboard, before) == before
    ensures Truthy(leaderboard) && !HasTop(leaderboard) ==> LeadersAfter(leaderboard, before) == []
    ensures Truthy(leaderboard) && HasTop(leaderboard) ==>
      var t := LeadersAfter(leaderboard, before);
      |t| == (if |TopOf(leaderboard)| <= 8 then |TopOf(leaderboard)| else 8)
      && forall i :: 0 <= i < |t| ==> t[i] == LeaderRow(TopOf(leaderboard)[i])
    ensures !Truthy(schedule) ==> ScheduleAfter(schedule, before) == before
    ensures Truthy(schedule) && !schedule.JArr? ==> ScheduleAfter(schedule, before) == []
    ensures Truthy(schedule) && schedule.JArr? ==>
      var t := ScheduleAfter(schedule, before);
      |t| == (if |schedule.items| <= 10 then |schedule.items| else 10)
      && forall i :: 0 <= i < |t| ==> t[i] == ScheduleRow(schedule.items[i])
  {
  }

  class DashboardWidget {
    /** The four stat labels; None while they still show "-". */
    var tasksCount: Option<nat>
    var overdueCount: Option<nat>
    var averageGrade: Option<real>
    var gradesTable: Table
    var leaderboardTable: Table
    var scheduleTable: Table

    constructor ()
      ensures tasksCount == None && overdueCount == None && averageGrade == None
      ensures gradesTable == [] && leaderboardTable == [] && scheduleTable == []
    {
      tasksCount := None;
      overdueCount := None;
      averageGrade := None;
      gradesTable := [];
      leaderboardTable := [];
      scheduleTable := [];
    }

    /**
     * What the dashboard shows after `update_data(data)`, given the tables
     * before: the counters and average always, each table only when its key
     * is present.
     */
    ghost predicate Shows(data: Json, parse: string -> Option<real>, grades: Table, leaders: Table, schedule: Table)
      reads this
    {
      var homework := GetOr(data, "homework", JArr([]));
      tasksCount == Some(CountTasks(homework))
      && overdueCount == Some(|OverdueIn(Tasks(homework))|)
      && averageGrade == Some(AverageGrade(GetOr(data, "grades", JArr([])), parse))
      && scheduleTable == (if HasKey(data, "schedule") then ScheduleAfter(GetOr(data, "schedule", JNull), schedule) else schedule)
      && leaderboardTable == (if HasKey(data, "leaderboard") then LeadersAfter(GetOr(data, "leaderboard", JNull), leaders) else leaders)
      && gradesTable == (if HasKey(data, "grades") then GradesAfter(GetOr(data, "grades", JNull), grades) else grades)
    }

    method UpdateDashboardGrades(grades: Json)
      modifies this`gradesTable
      ensures gradesTable == GradesAfter(grades, old(gradesTable))
    {
      if !Truthy(grades) {
        return;
      }
      gradesTable := [];
      var rows := FillTable(ListItems(grades), 8, MarkRow);
      gradesTable := rows;
    }

    method UpdateDashboardLeaderboard(leaderboard: Json)
      modifies this`leaderboardTable
      ensures leaderboardTable == LeadersAfter(leaderboard, old(leaderboardTable))
    {
      if !Truthy(leaderboard) {
        return;
      }
      leaderboardTable := [];
      if HasTop(leaderboard) {
        var rows := FillTable(TopOf(leaderboard), 8, LeaderRow);
        leaderboardTable := rows;
      }
    }

    method UpdateScheduleDisplay(schedule: Json)
      modifies this`scheduleTable
      ensures scheduleTable == ScheduleAfter(schedule, old(scheduleTable))
    {
      if !Truthy(schedule) {
        return;
      }
      scheduleTable := [];
      if schedule.JArr? {
        var rows := FillTable(schedule.items, 10, ScheduleRow);
        scheduleTable := rows;
      }
    }

    /** `update_data`: refreshes the counters and average, and each table whose key is present. */
    method UpdateData(data: Json, parse: string -> Option<real>)
      modifies this`tasksCount, this`overdueCount, this`averageGrade, this`gradesTable, this`leaderboardTable, this`scheduleTable
      ensures Shows(data, parse, old(gradesTable), old(leaderboardTable), old(scheduleTable))
    {
      var homework := GetOr(data, "homework", JArr([]));
      tasksCount := Some(CountTasks(homework));
      var overdue := CountOverdueTasks(homework);
      overdueCount := Some(overdue);
      var avg := CalculateAverageGrade(GetOr(data, "grades", JArr([])), parse);
      averageGrade := Some(avg);
      if HasKey(data, "schedule") {
        UpdateScheduleDisplay(GetOr(data, "schedule", JNull));
      }
      if HasKey(data, "leaderboard") {
        UpdateDashboardLeaderboard(GetOr(data, "leaderboard", JNull));
      }
      if HasKey(data, "grades") {
        UpdateDashboardGrades(GetOr(data, "grades", JNull));
      }
    }
  }

  // ---- load_dashboard_data ----

  const DashboardKeys: seq<string> := ["grades", "leaderboard", "homework", "schedule", "attendance"]

  /** The dict `load_dashboard_data` builds: each fetched value under its key, only when truthy. */
  function Collect(fetched: seq<(string, Json)>): seq<(string, Json)>
  {
    if fetched == [] then []
    else
      var last := fetched[|fetched| - 1];
      Collect(fetched[..|fetched| - 1]) + (if Truthy(last.1) then [last] else [])
  }

  /**
   * With distinct keys, a key is present in the collected dict exactly when
   * its fetch returned a truthy value, and then it maps to that value.
   */
  lemma {:induction false} CollectKeys(fetched: seq<(string, Json)>, key: string)
    requires forall i, j :: 0 <= i < j < |fetched| ==> fetched[i].0 != fetched[j].0
    ensures Lookup(Collect(fetched), key).Some? <==>
      exists i :: 0 <= i < |fetched| && fetched[i].0 == key && Truthy(fetched[i].1)
    ensures forall i :: 0 <= i < |fetched| && fetched[i].0 == key && Truthy(fetched[i].1) ==>
      Lookup(Collect(fetched), key) == Some(fetched[i].1)
    decreases |fetched|
  {
    if fetched != [] {
      var init := fetched[..|fetched| - 1];
      var last := fetched[|fetched| - 1];
      CollectKeys(init, key);
      var tail: seq<(string, Json)> := if Truthy(last.1) then [last] else [];
      LookupAppend(Collect(init), tail, key);
      if last.0 == key {
        assert forall i :: 0 <= i < |init| ==> init[i].0 != key;
      }
      forall i | 0 <= i < |fetched| - 1
        ensures fetched[i] == init[i]
      {
      }
    }
  }

  /** Each fetched entry carries the key of its position in the fetch order. */
  ghost predicate FetchedInOrder(fetched: seq<(string, Json)>)
  {
    |fetched| <= |DashboardKeys| && forall i :: 0 <= i < |fetched| ==> fetched[i].0 == DashboardKeys[i]
  }

  /** One `if value: dashboard_data[key] = value` step. */
  method Collected(ghost fetched: seq<(string, Json)>, data: seq<(string, Json)>, entry: (string, Json))
    returns (r: seq<(string, Json)>)
    requires data == Collect(fetched)
    ensures r == Collect(fetched + [entry])
  {
    assert (fetched + [entry])[..|fetched|] == fetched;
    r := if Truthy(entry.1) then data + [entry] else data;
  }

  /**
   * The call the i-th accessor of `load_dashboard_data` makes from request
   * number `at` on, with the accessors' default arguments; nothing without a
   * token.
   */
  function DashboardCall(api: Api, i: nat, token: Option<string>, campus: string, net: Network, at: nat)
    : Call<Outcome<Json>>
    requires i < 5
  {
    if !Held(token) then Call(Return(JNull), [])
    else if i == 0 then api.marks(token, campus, net, at)
    else if i == 1 then api.leaderboard(token, campus, net, at)
    else if i == 2 then api.homework(token, campus, 3, 1000, "-hw.time", net, at)
    else if i == 3 then api.schedule(token, true, None, campus, net, at)
    else api.attendance(token, campus, "month", net, at)
  }

  /** The first fetches of `load_dashboard_data`: the values they returned, the requests sent, and whether one raised. */
  datatype Fetched = Fetched(values: seq<(string, Json)>, sent: seq<Request>, raised: bool)

  /**
   * The i-th fetch of `load_dashboard_data` after the fetches `p`, from
   * request number `at` on: nothing once one raised; otherwise the call, and
   * its value under `DashboardKeys[i]` when it returns.
   */
  function FetchStep(api: Api, token: Option<string>, campus: string, net: Network, at: nat, i: nat, p: Fetched)
    : Fetched
    requires i < 5
  {
    if p.raised then p
    else
      var c := DashboardCall(api, i, token, campus, net, at + |p.sent|);
      if c.result.Throw? then Fetched(p.values, p.sent + c.sent, true)
      else Fetched(p.values + [(DashboardKeys[i], c.result.value)], p.sent + c.sent, false)
  }

  /**
   * The first `n` fetches of `load_dashboard_data` from request number `at`
   * on: each returned value under its key, in order, until one raises, after
   * which nothing more is fetched.
   */
  function FetchRun(api: Api, token: Option<string>, campus: string, net: Network, at: nat, n: nat): (f: Fetched)
    requires n <= 5
    ensures FetchedInOrder(f.values)
    ensures !f.raised ==> |f.values| == n
    ensures f.raised ==> |f.values| < n
    decreases n
  {
    if n == 0 then Fetched([], [], false)
    else
      var p := FetchRun(api, token, campus, net, at, n - 1);
      var f := FetchStep(api, token, campus, net, at, n - 1, p);
      assert !p.raised ==> f.values[..n - 1] == p.values;
      f
  }

  /** Without a token no fetch raises or sends anything, and nothing is collected. */
  lemma {:induction false} FetchRunNoToken(api: Api, token: Option<string>, campus: string, net: Network, at: nat, n: nat)
    requires n <= 5 && !Held(token)
    ensures var f := FetchRun(api, token, campus, net, at, n);
      !f.raised && f.sent == [] && Collect(f.values) == []
    decreases n
  {
    if n > 0 {
      FetchRunNoToken(api, token, campus, net, at, n - 1);
      var p := FetchRun(api, token, campus, net, at, n - 1);
      var values := p.values + [(DashboardKeys[n - 1], JNull)];
      assert FetchStep(api, token, campus, net, at, n - 1, p) == Fetched(values, [], false);
      assert values[..|values| - 1] == p.values;
    }
  }

  /** Once a fetch raised, the later fetches are never made: the run stays as it was. */
  lemma {:induction false} RaisedStops(api: Api, token: Option<string>, campus: string, net: Network, at: nat, m: nat, n: nat)
    requires m <= n <= 5 && FetchRun(api, token, campus, net, at, m).raised
    ensures FetchRun(api, token, campus, net, at, n) == FetchRun(api, token, campus, net, at, m)
    decreases n
  {
    if m < n {
      RaisedStops(api, token, campus, net, at, m, n - 1);
    }
  }

  class MainWindow {
    const client: MystatInterface
    const dashboard: DashboardWidget
    const calendar: Calendar.CalendarWidget

    /** The widgets the main window builds on the session it is given; `today` is the calendar's start date. */
    constructor (client: MystatInterface, today: Date)
      requires Valid(today)
      ensures this.client == client && fresh(dashboard) && fresh(calendar) && calendar.Inv()
    {
      this.client := client;
      dashboard := new DashboardWidget();
      calendar := new Calendar.CalendarWidget(today);
    }

    /** The i-th accessor `load_dashboard_data` calls, for the key `DashboardKeys[i]`. */
    method Fetch(i: nat) returns (r: Outcome<Json>)
      requires i < 5
      modifies client`sent
      ensures var c := DashboardCall(client.api, i, client.token, client.campus, client.net, |old(client.sent)|);
        r == c.result && client.sent == old(client.sent) + c.sent
      ensures !Held(client.token) ==> r == Return(JNull) && client.sent == old(client.sent)
    {
      if i == 0 {
        r := client.Marks();
      } else if i == 1 {
        r := client.Leaderboard();
      } else if i == 2 {
        r := client.Homework();
      } else if i == 3 {
        r := client.Schedule();
      } else {
        r := client.Attendance();
      }
    }

    /**
     * One fetch of `load_dashboard_data`, after the first `i` returned: calls
     * the i-th accessor and, when it returns, puts a truthy value under
     * `DashboardKeys[i]`. `ok` is false when the accessor raised. `before` is
     * what the session had sent before the first fetch, and `p` the fetches
     * made since.
     */
    method FetchInto(i: nat, ghost before: seq<Request>, ghost p: Fetched, collected: seq<(string, Json)>)
      returns (ok: bool, collected': seq<(string, Json)>)
      requires i < 5 && !p.raised && client.sent == before + p.sent && collected == Collect(p.values)
      modifies client`sent
      ensures var f := FetchStep(client.api, client.token, client.campus, client.net, |before|, i, p);
        client.sent == before + f.sent && ok == !f.raised && (ok ==> collected' == Collect(f.values))
    {
      ghost var c := DashboardCall(client.api, i, client.token, client.campus, client.net, |client.sent|);
      collected' := collected;
      var r := Fetch(i);
      assert before + (p.sent + c.sent) == (before + p.sent) + c.sent;
      ok := r.Return?;
      if ok {
        collected' := Collected(p.values, collected, (DashboardKeys[i], r.value));
      }
    }

    /**
     * The fetches of `load_dashboard_data`: marks, leaderboard, homework,
     * schedule and attendance in that order, each truthy value put under its
     * key. A fetch that raises abandons the rest (None). Without a token
     * every fetch is empty and nothing is sent.
     */
    method FetchDashboardData() returns (ghost fetched: seq<(string, Json)>, data: Option<seq<(string, Json)>>)
      modifies client`sent
      ensures var f := FetchRun(client.api, client.token, client.campus, client.net, |old(client.sent)|, 5);
        fetched == f.values && client.sent == old(client.sent) + f.sent && (data.Some? <==> !f.raised)
      ensures |fetched| <= 5 && FetchedInOrder(fetched)
      ensures data.Some? <==> |fetched| == 5
      ensures data.Some? ==> data.value == Collect(fetched)
      ensures !Held(client.token) ==> data == Some([]) && client.sent == old(client.sent)
    {
      ghost var before := client.sent;
      ghost var at := |before|;
      if !Held(client.token) {
        FetchRunNoToken(client.api, client.token, client.campus, client.net, at, 5);
      }
      data := None;
      var collected: seq<(string, Json)> := [];
      var ok;
      ok, collected := FetchInto(0, before, FetchRun(client.api, client.token, client.campus, client.net, at, 0),
                                 collected);
      if !ok {
        RaisedStops(client.api, client.token, client.campus, client.net, at, 1, 5);
        fetched := FetchRun(client.api, client.token, client.campus, client.net, at, 5).values;
        return;
      }
      ok, collected := FetchInto(1, before, FetchRun(client.api, client.token, client.campus, client.net, at, 1),
                                 collected);
      if !ok {
        RaisedStops(client.api, client.token, client.campus, client.net, at, 2, 5);
        fetched := FetchRun(client.api, client.token, client.campus, client.net, at, 5).values;
        return;
      }
      ok, collected := FetchInto(2, before, FetchRun(client.api, client.token, client.campus, client.net, at, 2),
                                 collected);
      if !ok {
        RaisedStops(client.api, client.token, client.campus, client.net, at, 3, 5);
        fetched := FetchRun(client.api, client.token, client.campus, client.net, at, 5).values;
        return;
      }
      ok, collected := FetchInto(3, before, FetchRun(client.api, client.token, client.campus, client.net, at, 3),
                                 collected);
      if !ok {
        RaisedStops(client.api, client.token, client.campus, client.net, at, 4, 5);
        fetched := FetchRun(client.api, client.token, client.campus, client.net, at, 5).values;
        return;
      }
      ok, collected := FetchInto(4, before, FetchRun(client.api, client.token, client.campus, client.net, at, 4),
                                 collected);
      if !ok {
        RaisedStops(client.api, client.token, client.campus, client.net, at, 5, 5);
        fetched := FetchRun(client.api, client.token, client.campus, client.net, at, 5).values;
        return;
      }
      fetched := FetchRun(client.api, client.token, client.campus, client.net, at, 5).values;
      data := Some(collected);
    }

    /**
     * `load_dashboard_data`: hands the collected data to the dashboard once
     * all five fetches returned; otherwise the dashboard is left as it was.
     */
    method LoadDashboardData(parse: string -> Option<real>) returns (ghost fetched: seq<(string, Json)>)
      modifies client`sent, dashboard`tasksCount, dashboard`overdueCount, dashboard`averageGrade
      modifies dashboard`gradesTable, dashboard`leaderboardTable, dashboard`scheduleTable
      ensures var f := FetchRun(client.api, client.token, client.campus, client.net, |old(client.sent)|, 5);
        fetched == f.values && client.sent == old(client.sent) + f.sent && (|fetched| == 5 <==> !f.raised)
      ensures |fetched| <= 5 && FetchedInOrder(fetched)
      ensures |fetched| < 5 ==>
        dashboard.tasksCount == old(dashboard.tasksCount) && dashboard.overdueCount == old(dashboard.overdueCount)
        && dashboard.averageGrade == old(dashboard.averageGrade) && dashboard.gradesTable == old(dashboard.gradesTable)
        && dashboard.leaderboardTable == old(dashboard.leaderboardTable) && dashboard.scheduleTable == old(dashboard.scheduleTable)
      ensures |fetched| == 5 ==>
        dashboard.Shows(JObj(Collect(fetched)), parse,
          old(dashboard.gradesTable), old(dashboard.leaderboardTable), old(dashboard.scheduleTable))
      ensures !Held(client.token) ==> |fetched| == 5 && Collect(fetched) == [] && client.sent == old(client.sent)
    {
      var data;
      fetched, data := FetchDashboardData();
      if data.Some? {
        dashboard.UpdateData(JObj(data.value), parse);
      }
    }

    /**
     * `load_calendar_data`: fetches the schedule and the homework and passes
     * them on when either is truthy; a fetch that raises abandons the update.
     */
    method LoadCalendarData() returns (ghost schedule: Option<Json>, ghost homework: Option<Json>)
      requires calendar.Inv()
      modifies client`sent, calendar`scheduleData, calendar`homeworkData, calendar`events, calendar`eventsCount
      ensures schedule.None? || homework.None? || !(Truthy(schedule.value) || Truthy(homework.value)) ==>
        calendar.scheduleData == old(calendar.scheduleData) && calendar.homeworkData == old(calendar.homeworkData)
        && calendar.events == old(calendar.events) && calendar.eventsCount == old(calendar.eventsCount)
      ensures schedule.Some? && homework.Some? && (Truthy(schedule.value) || Truthy(homework.value)) ==>
        calendar.scheduleData == (if Truthy(schedule.value) then schedule.value else old(calendar.scheduleData))
        && calendar.homeworkData == (if Truthy(homework.value) then homework.value else old(calendar.homeworkData))
        && calendar.events == Calendar.EventsOn(calendar.scheduleData, calendar.homeworkData, IsoText(calendar.selected))
        && calendar.eventsCount == Calendar.EventCount(calendar.scheduleData, calendar.homeworkData, IsoText(calendar.selected))
      ensures !Held(client.token) ==> schedule == Some(JNull) && homework == Some(JNull) && client.sent == old(client.sent)
      ensures Held(client.token) ==>
        var s := client.api.schedule(client.token, true, None, client.campus, client.net, |old(client.sent)|);
        (s.result.Throw? ==> schedule.None? && client.sent == old(client.sent) + s.sent)
        && (s.result.Return? ==>
              var h := client.api.homework(client.token, client.campus, 3, 1000, "-hw.time", client.net,
                                           |old(client.sent)| + |s.sent|);
              schedule == Some(s.result.value) && client.sent == old(client.sent) + s.sent + h.sent
              && homework == (if h.result.Return? then Some(h.result.value) else None))
    {
      schedule, homework := None, None;
      var s := client.Schedule();
      if s.Throw? {
        return;
      }
      schedule := Some(s.value);
      var h := client.Homework();
      if h.Throw? {
        return;
      }
      homework := Some(h.value);
      if Truthy(s.value) || Truthy(h.value) {
        calendar.UpdateData(s.value, h.value);
      }
    }
  }

  // ---- the login window ----

  const LoginMissing: string := "Введите логин и пароль"
  const LoginRejected: string := "Неверный логин или пароль"

  class LoginWindow {
    var loginText: string
    var passwordText: string
    var notices: seq<Notice>
    /** The authenticated session the main window is opened on, once login succeeds. */
    var session: MystatInterface?
    var closed: bool

    constructor (loginText: string, passwordText: string)
      ensures this.loginText == loginText && this.passwordText == passwordText
      ensures notices == [] && session == null && !closed
    {
      this.loginText := loginText;
      this.passwordText := passwordText;
      notices := [];
      session := null;
      closed := false;
    }

    /**
     * `login`: an empty login or password is refused with a warning and no
     * session is created. Otherwise a new session authenticates; success
     * opens the main window on it and closes this one, a rejection shows an
     * error, and a failed request raises out of the handler with nothing
     * shown: `r` is that exception, and a normal return otherwise.
     */
    method Login(net: Network) returns (r: Outcome<()>)
      modifies this`notices, this`session, this`closed
      ensures loginText == [] || passwordText == [] ==>
        r == Return(()) && notices == old(notices) + [Warning("Ошибка", LoginMissing)]
        && session == old(session) && closed == old(closed)
      ensures loginText != [] && passwordText != [] ==>
        var c := GetAuth(loginText, passwordText, net, 0);
        (r.Throw? <==> c.result.Throw?)
        && (c.result.Throw? ==>
              r == Throw(c.result.error) && notices == old(notices) && session == old(session) && closed == old(closed))
        && (c.result.Return? && !c.result.value.0 ==>
              notices == old(notices) + [Critical("Ошибка", LoginRejected)] && session == old(session) && closed == old(closed))
        && (c.result.Return? && c.result.value.0 ==>
              notices == old(notices) && closed && session != null && fresh(session)
              && session.login == loginText && session.password == passwordText && session.campus == DefaultCampus
              && session.token == c.result.value.1 && session.sent == c.sent)
    {
      r := Return(());
      if loginText == [] || passwordText == [] {
        notices := notices + [Warning("Ошибка", LoginMissing)];
        return;
      }
      var client := new MystatInterface(loginText, passwordText, net);
      var ok := client.Authenticate();
      if ok.Throw? {
        return Throw(ok.error);
      }
      if ok.value {
        session := client;
        closed := true;
      } else {
        notices := notices + [Critical("Ошибка", LoginRejected)];
      }
    }
  }
}
