/**
 * The calendar page (widgets/calendar_widget.py): the stored schedule and
 * homework, the selected day, and the event list rebuilt for that day. The
 * list widget is the sequence `events`, cleared and appended to; each item
 * keeps the values its text is made from (rendering the text is left to Qt).
 */
module Calendar {
  import opened Json
  import opened Text
  import opened Dates

  /**
   * A list item, by the data it carries (`{'type': ..., 'data': entry}`); its
   * text is made from the entry by `LessonSubject`, `TimeText`,
   * `LessonTeacher`, `Icon` and `TaskTitle`.
   */
  datatype Event =
    | Lesson(entry: Json)
    | Task(entry: Json)
    | NoEvents

  const NoTime: string := "Время не указано"

  // ---- which entries belong to a day ----

  /** A schedule entry is listed when it is a dict whose `date` is exactly the day's text. */
  predicate LessonOn(entry: Json, day: string)
  {
    entry.JObj? && GetOr(entry, "date", JNull) == JStr(day)
  }

  /** A homework entry is listed when its `due_date` is a non-empty text starting with the day's text. */
  predicate TaskDueOn(entry: Json, day: string)
  {
    entry.JObj?
    && var due := GetOr(entry, "due_date", JStr(""));
    due.JStr? && due.s != [] && StartsWith(due.s, day)
  }

  function Lessons(entries: seq<Json>, day: string): (r: seq<Json>)
    ensures |r| <= |entries|
  {
    if entries == [] then []
    else
      var last := entries[|entries| - 1];
      Lessons(entries[..|entries| - 1], day) + (if LessonOn(last, day) then [last] else [])
  }

  function TasksDue(entries: seq<Json>, day: string): (r: seq<Json>)
    ensures |r| <= |entries|
  {
    if entries == [] then []
    else
      var last := entries[|entries| - 1];
      TasksDue(entries[..|entries| - 1], day) + (if TaskDueOn(last, day) then [last] else [])
  }

  /** The listed schedule entries are exactly the entries that fall on the day. */
  lemma {:induction false} LessonsExactly(entries: seq<Json>, day: string)
    ensures forall x :: x in Lessons(entries, day) <==> x in entries && LessonOn(x, day)
    decreases |entries|
  {
    if entries != [] {
      var init := entries[..|entries| - 1];
      LessonsExactly(init, day);
      assert entries == init + [entries[|entries| - 1]];
    }
  }

  /** The listed homework entries are exactly the entries due on the day. */
  lemma {:induction false} TasksDueExactly(entries: seq<Json>, day: string)
    ensures forall x :: x in TasksDue(entries, day) <==> x in entries && TaskDueOn(x, day)
    decreases |entries|
  {
    if entries != [] {
      var init := entries[..|entries| - 1];
      TasksDueExactly(init, day);
      assert entries == init + [entries[|entries| - 1]];
    }
  }

  /** The schedule entries `update_events_for_date` walks: none when the stored schedule is falsy. */
  function ScheduleEntries(scheduleData: Json): seq<Json>
  {
    if Truthy(scheduleData) then Elements(scheduleData) else []
  }

  /** The homework entries it walks: the `data` list of a non-empty dict that has one. */
  function HomeworkEntries(homeworkData: Json): seq<Json>
  {
    if Truthy(homeworkData) && homeworkData.JObj? && HasKey(homeworkData, "data")
    then Elements(GetOr(homeworkData, "data", JNull))
    else []
  }

  // ---- the items ----

  /** "start - finish" when both are given, the fixed text otherwise. */
  function TimeText(entry: Json): (t: string)
    ensures t == NoTime <==> !(Truthy(GetOr(entry, "started_at", JStr(""))) && Truthy(GetOr(entry, "finished_at", JStr(""))))
  {
    var started := GetOr(entry, "started_at", JStr(""));
    var finished := GetOr(entry, "finished_at", JStr(""));
    if Truthy(started) && Truthy(finished) then
      var t := TextOf(started) + " - " + TextOf(finished);
      assert t[|TextOf(started)| + 1] == '-';
      assert '-' !in NoTime;
      t
    else NoTime
  }

  function LessonSubject(entry: Json): Json
  {
    GetOr(entry, "subject_name", JStr("Неизвестный предмет"))
  }

  function LessonTeacher(entry: Json): Json
  {
    GetOr(entry, "teacher_name", JStr("Преподаватель не указан"))
  }

  predicate Mentions(status: string, word: string)
  {
    Contains(Lower(status), word)
  }

  /** The homework icon: overdue wins over completed, which wins over the plain task icon. */
  function Icon(status: string): (icon: string)
    ensures icon == "[ПРОСРОЧЕНО]" <==> Mentions(status, "просрочено") || Mentions(status, "overdue")
    ensures icon == "[ВЫПОЛНЕНО]" <==>
      !(Mentions(status, "просрочено") || Mentions(status, "overdue"))
      && (Mentions(status, "выполнено") || Mentions(status, "completed"))
  {
    if Mentions(status, "просрочено") || Mentions(status, "overdue") then "[ПРОСРОЧЕНО]"
    else if Mentions(status, "выполнено") || Mentions(status, "completed") then "[ВЫПОЛНЕНО]"
    else "[ЗАДАНИЕ]"
  }

  function TaskIcon(entry: Json): string
  {
    Icon(TextOf(GetOr(entry, "status", JStr(""))))
  }

  function TaskTitle(entry: Json): Json
  {
    GetOr(entry, "title", JStr("Без названия"))
  }

  function LessonEvents(entries: seq<Json>): (r: seq<Event>)
    ensures |r| == |entries| && forall i :: 0 <= i < |r| ==> r[i] == Lesson(entries[i])
  {
    if entries == [] then [] else LessonEvents(entries[..|entries| - 1]) + [Lesson(entries[|entries| - 1])]
  }

  function TaskEvents(entries: seq<Json>): (r: seq<Event>)
    ensures |r| == |entries| && forall i :: 0 <= i < |r| ==> r[i] == Task(entries[i])
  {
    if entries == [] then [] else TaskEvents(entries[..|entries| - 1]) + [Task(entries[|entries| - 1])]
  }

  /** One more entry walked: the day's items grow by that entry's item, if it matches. */
  lemma LessonStep(entries: seq<Json>, i: nat, day: string)
    requires i < |entries|
    ensures LessonEvents(Lessons(entries[..i + 1], day))
         == LessonEvents(Lessons(entries[..i], day)) + (if LessonOn(entries[i], day) then [Lesson(entries[i])] else [])
  {
    assert entries[..i + 1][..i] == entries[..i];
    var before := Lessons(entries[..i], day);
    if LessonOn(entries[i], day) {
      assert (before + [entries[i]])[..|before|] == before;
    }
  }

  lemma TaskStep(entries: seq<Json>, i: nat, day: string)
    requires i < |entries|
    ensures TaskEvents(TasksDue(entries[..i + 1], day))
         == TaskEvents(TasksDue(entries[..i], day)) + (if TaskDueOn(entries[i], day) then [Task(entries[i])] else [])
  {
    assert entries[..i + 1][..i] == entries[..i];
    var before := TasksDue(entries[..i], day);
    if TaskDueOn(entries[i], day) {
      assert (before + [entries[i]])[..|before|] == before;
    }
  }

  /** The list shown for a day: its lessons, then its homework, or the single placeholder. */
  function EventsOn(scheduleData: Json, homeworkData: Json, day: string): seq<Event>
  {
    var found := LessonEvents(Lessons(ScheduleEntries(scheduleData), day))
               + TaskEvents(TasksDue(HomeworkEntries(homeworkData), day));
    if found == [] then [NoEvents] else found
  }

  function EventCount(scheduleData: Json, homeworkData: Json, day: string): nat
  {
    |Lessons(ScheduleEntries(scheduleData), day)| + |TasksDue(HomeworkEntries(homeworkData), day)|
  }

  /** The list holds max(count, 1) items, and the placeholder appears exactly when nothing matched. */
  lemma EventListLength(scheduleData: Json, homeworkData: Json, day: string)
    ensures var n := EventCount(scheduleData, homeworkData, day);
      |EventsOn(scheduleData, homeworkData, day)| == (if n == 0 then 1 else n)
      && (EventsOn(scheduleData, homeworkData, day) == [NoEvents] <==> n == 0)
  {
    var n := EventCount(scheduleData, homeworkData, day);
    var found := LessonEvents(Lessons(ScheduleEntries(scheduleData), day))
               + TaskEvents(TasksDue(HomeworkEntries(homeworkData), day));
    assert |found| == n;
    if n > 0 {
      assert found[0] != NoEvents;
    }
  }

  /** Moving a week back and a week forward, in either order, returns to the same day. */
  lemma WeekRoundTrip(d: Date)
    requires Valid(d)
    ensures AddDays(AddDays(d, -7), 7) == d && AddDays(AddDays(d, 7), -7) == d
    ensures Ordinal(AddDays(d, 7)) == Ordinal(d) + 7
  {
    AddDaysInverse(d, -7);
    AddDaysInverse(d, 7);
    OrdinalForward(d, 7);
  }

  /** The schedule loop of `update_events_for_date`: the day's lessons, in order, and their number. */
  method ListLessons(schedule: seq<Json>, day: string) returns (found: seq<Event>, count: nat)
    ensures found == LessonEvents(Lessons(schedule, day)) && count == |Lessons(schedule, day)|
  {
    found, count := [], 0;
    var i := 0;
    while i < |schedule|
      invariant 0 <= i <= |schedule|
      invariant found == LessonEvents(Lessons(schedule[..i], day))
      invariant count == |Lessons(schedule[..i], day)|
    {
      LessonStep(schedule, i, day);
      if LessonOn(schedule[i], day) {
        count := count + 1;
        found := found + [Lesson(schedule[i])];
      }
      i := i + 1;
    }
    assert schedule[..i] == schedule;
  }

  /** The homework loop of `update_events_for_date`: the day's homework, in order, and their number. */
  method ListTasks(homework: seq<Json>, day: string) returns (found: seq<Event>, count: nat)
    ensures found == TaskEvents(TasksDue(homework, day)) && count == |TasksDue(homework, day)|
  {
    found, count := [], 0;
    var j := 0;
    while j < |homework|
      invariant 0 <= j <= |homework|
      invariant found == TaskEvents(TasksDue(homework[..j], day))
      invariant count == |TasksDue(homework[..j], day)|
    {
      TaskStep(homework, j, day);
      if TaskDueOn(homework[j], day) {
        count := count + 1;
        found := found + [Task(homework[j])];
      }
      j := j + 1;
    }
    assert homework[..j] == homework;
  }

  /** The body of `update_events_for_date` for the day written `text`: the lessons, then the homework, then the count. */
  method ListEvents(scheduleData: Json, homeworkData: Json, text: string) returns (events: seq<Event>, count: nat)
    ensures events == EventsOn(scheduleData, homeworkData, text)
    ensures count == EventCount(scheduleData, homeworkData, text)
  {
    var schedule, homework := ScheduleEntries(scheduleData), HomeworkEntries(homeworkData);
    var lessons, lessonCount := ListLessons(schedule, text);
    var tasks, taskCount := ListTasks(homework, text);
    assert |lessons + tasks| == lessonCount + taskCount;
    events := lessons + tasks;
    count := lessonCount + taskCount;
    if count == 0 {
      events := events + [NoEvents];
    }
  }

  class CalendarWidget {
    var scheduleData: Json
    var homeworkData: Json
    var selected: Date
    var events: seq<Event>
    var eventsCount: nat

    ghost predicate Inv()
      reads this
    {
      Valid(selected)
    }

    /**
     * A new calendar stores empty lists and has the given day selected; building
     * the events panel ends with `on_date_selected`, which lists the placeholder.
     */
    constructor (today: Date)
      requires Valid(today)
      ensures Inv() && selected == today
      ensures scheduleData == JArr([]) && homeworkData == JArr([])
      ensures events == EventsOn(scheduleData, homeworkData, IsoText(today)) && events == [NoEvents]
      ensures eventsCount == EventCount(scheduleData, homeworkData, IsoText(today)) && eventsCount == 0
    {
      scheduleData := JArr([]);
      homeworkData := JArr([]);
      selected := today;
      events := [];
      eventsCount := 0;
      new;
      OnDateSelected();
    }

    /** `update_events_for_date`: clears the list, lists the day's lessons and homework, counts them. */
    method UpdateEventsForDate(day: Date)
      requires Valid(day)
      modifies this`events, this`eventsCount
      ensures events == EventsOn(scheduleData, homeworkData, IsoText(day))
      ensures eventsCount == EventCount(scheduleData, homeworkData, IsoText(day))
    {
      events, eventsCount := ListEvents(scheduleData, homeworkData, IsoText(day));
    }

    /** `on_date_selected`: rebuilds the list for the selected day. */
    method OnDateSelected()
      requires Inv()
      modifies this`events, this`eventsCount
      ensures events == EventsOn(scheduleData, homeworkData, IsoText(selected))
      ensures eventsCount == EventCount(scheduleData, homeworkData, IsoText(selected))
    {
      UpdateEventsForDate(selected);
    }

    /** `go_to_previous_week`: selects the day seven days earlier, which refreshes the list. */
    method GoToPreviousWeek()
      requires Inv()
      modifies this`selected, this`events, this`eventsCount
      ensures Inv() && selected == AddDays(old(selected), -7)
      ensures events == EventsOn(scheduleData, homeworkData, IsoText(selected))
      ensures eventsCount == EventCount(scheduleData, homeworkData, IsoText(selected))
    {
      selected := AddDays(selected, -7);
      OnDateSelected();
    }

    /** `go_to_next_week`: selects the day seven days later, which refreshes the list. */
    method GoToNextWeek()
      requires Inv()
      modifies this`selected, this`events, this`eventsCount
      ensures Inv() && selected == AddDays(old(selected), 7)
      ensures events == EventsOn(scheduleData, homeworkData, IsoText(selected))
      ensures eventsCount == EventCount(scheduleData, homeworkData, IsoText(selected))
    {
      selected := AddDays(selected, 7);
      OnDateSelected();
    }

    /** `update_data`: a falsy argument keeps the stored value; the list is then rebuilt. */
    method UpdateData(schedule: Json := JNull, homework: Json := JNull)
      requires Inv()
      modifies this`scheduleData, this`homeworkData, this`events, this`eventsCount
      ensures scheduleData == (if Truthy(schedule) then schedule else old(scheduleData))
      ensures homeworkData == (if Truthy(homework) then homework else old(homeworkData))
      ensures events == EventsOn(scheduleData, homeworkData, IsoText(selected))
      ensures eventsCount == EventCount(scheduleData, homeworkData, IsoText(selected))
    {
      if Truthy(schedule) {
        scheduleData := schedule;
      }
      if Truthy(homework) {
        homeworkData := homework;
      }
      OnDateSelected();
    }
  }
}
