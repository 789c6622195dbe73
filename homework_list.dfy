/**
 * The homework page (widgets/homework_widget.py): the subject filter built
 * from the fetched homework, filtering by subject, the four-column card grid
 * with its task-count label, and the deadline status shown on each card.
 * The combo box is the sequence `filterItems`; the grid is the sequence
 * `cards`, each card with the cell it was placed in.
 */
module HomeworkList {
  import opened Json
  import opened Text
  import opened Dates
  import opened HomeworkDetail

  const AllSubjects: string := "Предмет"
  const NoSubject: Json := JStr("Не указан")
  const CountPrefix: string := "Всего задач: "

  function SubjectOf(task: Json): Json
  {
    GetOr(task, "name_spec", NoSubject)
  }

  function Subjects(tasks: seq<Json>): (r: seq<Json>)
    ensures |r| == |tasks| && forall i :: 0 <= i < |r| ==> r[i] == SubjectOf(tasks[i])
  {
    if tasks == [] then [] else Subjects(tasks[..|tasks| - 1]) + [SubjectOf(tasks[|tasks| - 1])]
  }

  // ---- distinct values in first-appearance order ----

  function Distinct(xs: seq<Json>): seq<Json>
  {
    if xs == [] then []
    else
      var d := Distinct(xs[..|xs| - 1]);
      if xs[|xs| - 1] in d then d else d + [xs[|xs| - 1]]
  }

  /** Where a value first occurs. */
  function First(xs: seq<Json>, x: Json): (k: nat)
    requires x in xs
    ensures k < |xs| && xs[k] == x && x !in xs[..k]
  {
    if xs[0] == x then 0
    else
      var k := First(xs[1..], x);
      assert xs[..k + 1] == [xs[0]] + xs[1..][..k];
      k + 1
  }

  lemma FirstInPrefix(xs: seq<Json>, x: Json, n: nat)
    requires n <= |xs| && x in xs[..n]
    ensures First(xs, x) == First(xs[..n], x)
  {
    var k := First(xs[..n], x);
    assert xs[..n][..k] == xs[..k];
    assert xs[k] == x;
  }

  /**
   * The distinct values hold exactly the values of the input, each once, in
   * the order of their first appearance.
   */
  lemma {:induction false} DistinctSpec(xs: seq<Json>)
    ensures forall x :: x in Distinct(xs) <==> x in xs
    ensures forall i, j :: 0 <= i < j < |Distinct(xs)| ==> Distinct(xs)[i] != Distinct(xs)[j]
    ensures forall i, j :: 0 <= i < j < |Distinct(xs)| ==> First(xs, Distinct(xs)[i]) < First(xs, Distinct(xs)[j])
    decreases |xs|
  {
    if xs != [] {
      var init := xs[..|xs| - 1];
      var x := xs[|xs| - 1];
      var d := Distinct(init);
      DistinctSpec(init);
      assert xs == init + [x];
      assert forall y :: y in d ==> First(xs, y) == First(init, y) by {
        forall y | y in d
          ensures First(xs, y) == First(init, y)
        {
          FirstInPrefix(xs, y, |init|);
        }
      }
      if x !in d {
        assert x !in init;
        assert First(xs, x) == |init|;
        var r := d + [x];
        forall i, j | 0 <= i < j < |r|
          ensures First(xs, r[i]) < First(xs, r[j])
        {
          if j == |d| {
            assert r[i] in d;
          } else {
            assert r[i] == d[i] && r[j] == d[j];
          }
        }
      }
    }
  }

  // ---- the grid ----

  datatype Card = Card(row: nat, column: nat, task: Json)

  /** Card i goes to row i // 4, column i % 4. */
  function Grid(tasks: seq<Json>): seq<Card>
  {
    seq(|tasks|, i requires 0 <= i < |tasks| => Card(i / 4, i % 4, tasks[i]))
  }

  /** The grid shows every task once, in order, at most four to a row, no two in one cell. */
  lemma GridPlacement(tasks: seq<Json>)
    ensures |Grid(tasks)| == |tasks|
    ensures forall i :: 0 <= i < |tasks| ==> Grid(tasks)[i].task == tasks[i] && Grid(tasks)[i].column < 4
    ensures forall i, j :: 0 <= i < j < |tasks| ==>
      (Grid(tasks)[i].row, Grid(tasks)[i].column) != (Grid(tasks)[j].row, Grid(tasks)[j].column)
  {
    forall i, j | 0 <= i < j < |tasks|
      ensures (Grid(tasks)[i].row, Grid(tasks)[i].column) != (Grid(tasks)[j].row, Grid(tasks)[j].column)
    {
      assert i == 4 * (i / 4) + i % 4;
      assert j == 4 * (j / 4) + j % 4;
    }
  }

  /** The list `display_all_homework` enumerates, when given a truthy value. */
  function CardsFor(list: Json, before: seq<Card>): seq<Card>
  {
    if Truthy(list) then Grid(Elements(list)) else before
  }

  function LabelFor(list: Json, before: string): string
  {
    if Truthy(list) then CountPrefix + IntToString(Len(list)) else before
  }

  predicate HasData(homeworkData: Json)
  {
    homeworkData.JObj? && HasKey(homeworkData, "data")
  }

  function TaskList(homeworkData: Json): seq<Json>
  {
    if HasData(homeworkData) then Elements(GetOr(homeworkData, "data", JNull)) else []
  }

  /** The filter comprehension: the tasks of one subject, in their order. */
  function OfSubject(tasks: seq<Json>, subject: Json): seq<Json>
  {
    if tasks == [] then []
    else
      var last := tasks[|tasks| - 1];
      OfSubject(tasks[..|tasks| - 1], subject) + (if SubjectOf(last) == subject then [last] else [])
  }

  /** Filtering keeps exactly the tasks of the subject. */
  lemma {:induction false} OfSubjectExactly(tasks: seq<Json>, subject: Json)
    ensures forall t :: t in OfSubject(tasks, subject) <==> t in tasks && SubjectOf(t) == subject
    decreases |tasks|
  {
    if tasks != [] {
      var init := tasks[..|tasks| - 1];
      OfSubjectExactly(init, subject);
      assert tasks == init + [tasks[|tasks| - 1]];
    }
  }

  /**
   * The `update_data` loop over the tasks: each subject is added to the set
   * and to the filter the first time it is met.
   */
  method CollectSubjects(tasks: seq<Json>) returns (found: set<Json>, items: seq<Json>)
    ensures items == Distinct(Subjects(tasks))
    ensures forall s :: s in found <==> s in Subjects(tasks)
  {
    found := {};
    items := [];
    var i := 0;
    while i < |tasks|
      invariant 0 <= i <= |tasks|
      invariant items == Distinct(Subjects(tasks[..i]))
      invariant forall s :: s in found <==> s in Subjects(tasks[..i])
    {
      var subject := SubjectOf(tasks[i]);
      ghost var before := Subjects(tasks[..i]);
      assert Subjects(tasks[..i + 1]) == before + [subject] by {
        assert tasks[..i + 1][..i] == tasks[..i];
      }
      assert (before + [subject])[..|before|] == before;
      DistinctSpec(before);
      if subject !in found {
        found := found + {subject};
        items := items + [subject];
      }
      i := i + 1;
    }
    assert tasks[..i] == tasks;
  }

  class HomeworkWidget {
    var homeworkData: Json
    var subjects: set<Json>
    var filterItems: seq<Json>
    var cards: seq<Card>
    var countLabel: string

    constructor ()
      ensures homeworkData == JNull && subjects == {} && filterItems == [JStr(AllSubjects)]
      ensures cards == [] && countLabel == CountPrefix + "0"
    {
      homeworkData := JNull;
      subjects := {};
      filterItems := [JStr(AllSubjects)];
      cards := [];
      countLabel := CountPrefix + "0";
    }

    /**
     * `display_all_homework`: a falsy list changes nothing; otherwise the
     * grid is replaced by one card per task and the label shows their number.
     */
    method DisplayAllHomework(list: Json)
      modifies this`cards, this`countLabel
      ensures cards == CardsFor(list, old(cards)) && countLabel == LabelFor(list, old(countLabel))
    {
      if !Truthy(list) {
        return;
      }
      var tasks := Elements(list);
      var placed: seq<Card> := [];
      var i := 0;
      while i < |tasks|
        invariant 0 <= i <= |tasks|
        invariant |placed| == i && forall k :: 0 <= k < i ==> placed[k] == Card(k / 4, k % 4, tasks[k])
      {
        placed := placed + [Card(i / 4, i % 4, tasks[i])];
        i := i + 1;
      }
      cards := placed;
      countLabel := CountPrefix + IntToString(Len(list));
    }

    /**
     * `update_data`: a falsy argument changes nothing. Otherwise the data is
     * stored, the grid cleared, and the filter rebuilt as "Предмет" followed by
     * each subject once, in order of first appearance; then the tasks are shown.
     * When the data has no tasks the grid stays empty and the label keeps its
     * previous count.
     */
    method UpdateData(data: Json)
      modifies this`homeworkData, this`subjects, this`filterItems, this`cards, this`countLabel
      ensures !Truthy(data) ==>
        homeworkData == old(homeworkData) && subjects == old(subjects) && filterItems == old(filterItems)
        && cards == old(cards) && countLabel == old(countLabel)
      ensures Truthy(data) ==>
        homeworkData == data
        && filterItems == [JStr(AllSubjects)] + Distinct(Subjects(TaskList(data)))
        && (forall s :: s in subjects <==> s in Subjects(TaskList(data)))
      ensures Truthy(data) && HasData(data) ==>
        cards == CardsFor(GetOr(data, "data", JNull), []) && countLabel == LabelFor(GetOr(data, "data", JNull), old(countLabel))
      ensures Truthy(data) && !HasData(data) ==> cards == [] && countLabel == old(countLabel)
    {
      if !Truthy(data) {
        return;
      }
      homeworkData := data;
      cards := [];
      subjects := {};
      filterItems := [JStr(AllSubjects)];
      if HasData(data) {
        var found, items := CollectSubjects(Elements(GetOr(data, "data", JNull)));
        subjects := found;
        filterItems := filterItems + items;
        DisplayAllHomework(GetOr(data, "data", JNull));
      }
    }

    /**
     * `filter_by_subject`: "Предмет" (or no data) shows every task; any other
     * subject shows exactly its tasks, in order.
     */
    method FilterBySubject(subject: string)
      modifies this`cards, this`countLabel
      ensures !HasData(homeworkData) ==> cards == old(cards) && countLabel == old(countLabel)
      ensures HasData(homeworkData) && (subject == AllSubjects || !Truthy(homeworkData)) ==>
        var all := GetOr(homeworkData, "data", JNull);
        cards == CardsFor(all, old(cards)) && countLabel == LabelFor(all, old(countLabel))
      ensures HasData(homeworkData) && subject != AllSubjects && Truthy(homeworkData) ==>
        var chosen := JArr(OfSubject(TaskList(homeworkData), JStr(subject)));
        cards == CardsFor(chosen, old(cards)) && countLabel == LabelFor(chosen, old(countLabel))
    {
      if subject == AllSubjects || !Truthy(homeworkData) {
        if HasData(homeworkData) {
          DisplayAllHomework(GetOr(homeworkData, "data", JNull));
        }
        return;
      }
      if HasData(homeworkData) {
        DisplayAllHomework(JArr(OfSubject(TaskList(homeworkData), JStr(subject))));
      }
    }
  }

  // ---- get_status_info ----

  datatype StatusInfo = StatusInfo(text: string, colour: string)

  const Grey: string := "#7f8c8d"
  const Red: string := "#F75325"
  const Orange: string := "#f39c12"
  const Green: string := "#27ae60"

  /** The deadline a card reads: a non-empty `completion_time` text in `day.month.year` form. */
  function StatusDue(task: Json, toInt: string -> Option<int>): Option<Date>
  {
    var c := GetOr(task, "completion_time", JStr(""));
    if Truthy(c) && c.JStr? then DottedDate(c.s, toInt) else None
  }

  function StatusFor(n: int): StatusInfo
  {
    if n < 0 then StatusInfo("Просрочено: " + IntToString(-n) + " дней", Red)
    else if n == 0 then StatusInfo("Сегодня", Orange)
    else StatusInfo("В дедлайн: " + IntToString(n) + " дней", Green)
  }

  /** `get_status_info` with the day difference taken between calendar dates. */
  function GetStatusInfo(task: Json, now: Moment, toInt: string -> Option<int>): StatusInfo
    requires ValidMoment(now)
  {
    match StatusDue(task, toInt)
    case None => StatusInfo(Unspecified, Grey)
    case Some(due) => StatusFor(DaysUntil(due, now))
  }

  /** `get_status_info` as written: the difference is taken against the current moment. */
  function StatusInfoAsWritten(task: Json, now: Moment, toInt: string -> Option<int>): StatusInfo
    requires ValidMoment(now)
  {
    match StatusDue(task, toInt)
    case None => StatusInfo(Unspecified, Grey)
    case Some(due) => StatusFor(DaysDiffAsWritten(due, now))
  }

  /**
   * Grey exactly when no deadline is read; otherwise red, orange and green
   * for a deadline before, on and after today.
   */
  lemma StatusColours(task: Json, now: Moment, toInt: string -> Option<int>)
    requires ValidMoment(now)
    ensures var info := GetStatusInfo(task, now, toInt);
      (info.colour == Grey <==> StatusDue(task, toInt).None?)
      && (StatusDue(task, toInt).Some? ==>
            var due := StatusDue(task, toInt).value;
            (info.colour == Red <==> Ordinal(due) < Ordinal(now.date))
            && (info.colour == Orange <==> due == now.date)
            && (info.colour == Green <==> Ordinal(due) > Ordinal(now.date)))
  {
    if StatusDue(task, toInt).Some? {
      var due := StatusDue(task, toInt).value;
      OrdinalInjective(due, now.date);
    }
  }

  /**
   * Any card whose deadline is today, looked at after midnight: the code as
   * written paints it red as overdue by one day, the calendar difference
   * paints it orange as due today.
   */
  lemma DueTodayCardsRed(task: Json, now: Moment, toInt: string -> Option<int>)
    requires ValidMoment(now) && now.elapsed > 0
    requires StatusDue(task, toInt) == Some(now.date)
    ensures StatusInfoAsWritten(task, now, toInt) == StatusInfo("Просрочено: 1 дней", Red)
    ensures GetStatusInfo(task, now, toInt) == StatusInfo("Сегодня", Orange)
  {
    DaysDiffOneShort(now.date, now);
    assert IntToString(1) == "1";
  }

  lemma DottedToday(toInt: string -> Option<int>)
    requires toInt("20") == Some(20) && toInt("05") == Some(5) && toInt("2024") == Some(2024)
    ensures DottedDate("20.05.2024", toInt) == Some(Date(2024, 5, 20))
  {
    var a, b, c := "20", "05", "2024";
    assert '.' !in a && '.' !in b && '.' !in c;
    assert PyValid(Date(2024, 5, 20)) by {
      assert DaysInMonth(2024, 5) == 31;
    }
    DottedParts(a, b, c, Date(2024, 5, 20), toInt);
    assert a + "." + b + "." + c == "20.05.2024";
  }

  /** The card for a task due "20.05.2024", looked at at noon that day. */
  lemma DueTodayCardRed(toInt: string -> Option<int>)
    requires toInt("20") == Some(20) && toInt("05") == Some(5) && toInt("2024") == Some(2024)
    ensures var task := JObj([("completion_time", JStr("20.05.2024"))]);
      var now := Moment(Date(2024, 5, 20), 43_200_000_000);
      StatusInfoAsWritten(task, now, toInt) == StatusInfo("Просрочено: 1 дней", Red)
      && GetStatusInfo(task, now, toInt) == StatusInfo("Сегодня", Orange)
  {
    var task := JObj([("completion_time", JStr("20.05.2024"))]);
    var now := Moment(Date(2024, 5, 20), 43_200_000_000);
    assert ValidMoment(now) by {
      assert DaysInMonth(2024, 5) == 31;
    }
    var c := GetOr(task, "completion_time", JStr(""));
    assert c == JStr("20.05.2024");
    assert Truthy(c);
    assert StatusDue(task, toInt) == DottedDate(c.s, toInt);
    DottedToday(toInt);
    DueTodayCardsRed(task, now, toInt);
  }
}
