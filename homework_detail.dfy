/**
 * The homework detail dialog (widgets/homework_detail_window.py): the
 * submission pipeline, the task-file download with its file name derivation,
 * and the "days left" text for the deadline.
 *
 * Message boxes are recorded as `notices` in the order they are shown; the
 * `homework_submitted` signal is recorded in `emitted`. File dialogs become
 * parameters (the chosen path, "" when cancelled), and the clock and
 * `strptime`/`int()` are passed in.
 */
module HomeworkDetail {
  import opened Json
  import opened Text
  import opened Dates
  import opened Core
  import opened Session
  import opened Messages

  // ---- the theme sanitiser and file name ----

  /** Characters a theme keeps in a file name: `isalnum()` or one of ' ', '-', '_'. */
  predicate IsThemeChar(c: char)
  {
    IsAlnum(c) || c == ' ' || c == '-' || c == '_'
  }

  /** The generator `c for c in theme if ...`, joined. */
  function KeepThemeChars(s: string): (r: string)
    ensures |r| <= |s|
    ensures forall i :: 0 <= i < |r| ==> IsThemeChar(r[i])
  {
    if s == [] then []
    else
      var rest := KeepThemeChars(s[..|s| - 1]);
      if IsThemeChar(s[|s| - 1]) then rest + [s[|s| - 1]] else rest
  }

  /** Filtering works character by character and keeps the order. */
  lemma {:induction false} KeepThemeCharsAppend(a: string, b: string)
    ensures KeepThemeChars(a + b) == KeepThemeChars(a) + KeepThemeChars(b)
    decreases |b|
  {
    if b == [] {
      assert a + b == a;
    } else {
      var b' := b[..|b| - 1];
      assert (a + b)[..|a + b| - 1] == a + b';
      KeepThemeCharsAppend(a, b');
    }
  }

  /** A text made of theme characters only passes the filter unchanged. */
  lemma {:induction false} KeepThemeCharsAllowed(s: string)
    requires forall i :: 0 <= i < |s| ==> IsThemeChar(s[i])
    ensures KeepThemeChars(s) == s
    decreases |s|
  {
    if s != [] {
      KeepThemeCharsAllowed(s[..|s| - 1]);
      assert s[..|s| - 1] + [s[|s| - 1]] == s;
    }
  }

  /** The theme as it appears in the saved file's name. */
  function SafeTheme(theme: string): (r: string)
    ensures forall i :: 0 <= i < |r| ==> IsThemeChar(r[i])
    ensures r != [] ==> !IsSpace(r[|r| - 1])
  {
    var kept := KeepThemeChars(theme);
    RStripSpec(kept);
    var r := RStrip(kept);
    assert forall i :: 0 <= i < |r| ==> r[i] == kept[i];
    r
  }

  lemma RStripClean(s: string)
    requires s == [] || !IsSpace(s[|s| - 1])
    ensures RStrip(s) == s
  {
  }

  /** Sanitising a sanitised theme changes nothing. */
  lemma SafeThemeIdempotent(theme: string)
    ensures SafeTheme(SafeTheme(theme)) == SafeTheme(theme)
  {
    var r := SafeTheme(theme);
    KeepThemeCharsAllowed(r);
    RStripClean(r);
  }

  /**
   * `get_file_extension`: the text after the last '.', cut at the first '?',
   * with a leading '.', when it is at most five characters; ".pdf" otherwise.
   */
  function FileExtension(url: string): (e: string)
    ensures 0 < |e| <= 6 && e[0] == '.'
    ensures e == ".pdf" || ('.' in url && '.' !in e[1..] && '?' !in e[1..])
    ensures '.' !in url ==> e == ".pdf"
  {
    if '.' in url then
      var parts := Split(url, '.');
      var ext := Split(parts[|parts| - 1], '?')[0];
      SplitParts(url, '.');
      SplitFirst(parts[|parts| - 1], '?');
      assert '.' !in ext;
      if |ext| <= 5 then "." + ext else ".pdf"
    else ".pdf"
  }

  /**
   * The extension is read from whatever follows the last '.', up to its first
   * '?': that text with a leading '.' when it is at most five characters long,
   * ".pdf" when it is longer.
   */
  lemma ExtensionAfterLastDot(name: string, tail: string, ext: string)
    requires '.' !in tail && Split(tail, '?')[0] == ext
    ensures |ext| <= 5 ==> FileExtension(name + "." + tail) == "." + ext
    ensures |ext| > 5 ==> FileExtension(name + "." + tail) == ".pdf"
  {
    LastDotPart(name, tail);
  }

  /** A text `name.tail`, with no '.' in `tail`, holds a '.' and splits into parts the last of which is `tail`. */
  lemma LastDotPart(name: string, tail: string)
    requires '.' !in tail
    ensures var url := name + "." + tail;
      '.' in url && Split(url, '.')[|Split(url, '.')| - 1] == tail
  {
    var url := name + "." + tail;
    assert url == name + ['.'] + tail;
    assert url[|name|] == '.';
    SplitLast(name, tail, '.');
  }

  /** A URL ending in `.ext`, optionally followed by a query, yields `.ext` for a short `ext`. */
  lemma FileExtensionOf(name: string, ext: string, query: string)
    requires '.' !in ext && '?' !in ext && '.' !in query && |ext| <= 5
    ensures FileExtension(name + "." + ext) == "." + ext
    ensures FileExtension(name + "." + ext + "?" + query) == "." + ext
  {
    assert Split(ext, '?') == [ext];
    ExtensionAfterLastDot(name, ext, ext);
    var tail := ext + "?" + query;
    assert tail == ext + ['?'] + query;
    SplitCons(ext, query, '?');
    ExtensionAfterLastDot(name, tail, ext);
    assert name + "." + ext + "?" + query == name + "." + tail;
  }

  /** `os.path.basename`: the part after the last '/'. */
  function BaseName(path: string): (b: string)
    ensures '/' !in b
  {
    var parts := Split(path, '/');
    SplitParts(path, '/');
    parts[|parts| - 1]
  }

  /** `os.path.join(directory, name)` for a relative name. */
  function PathJoin(directory: string, name: string): string
  {
    if directory != [] && directory[|directory| - 1] == '/' then directory + name else directory + "/" + name
  }

  /** The save path `download_file` builds: `<dir>/<safe theme><extension>`. */
  function SavePath(directory: string, theme: string, fileUrl: string): string
  {
    PathJoin(directory, SafeTheme(theme) + FileExtension(fileUrl))
  }

  // ---- calculate_days_left ----

  /** The `strptime` formats, in the order they are tried. */
  datatype DateFormat = DayDotMonthDotYear | YearDashMonthDashDay | DaySlashMonthSlashYear

  const Formats: seq<DateFormat> := [DayDotMonthDotYear, YearDashMonthDashDay, DaySlashMonthSlashYear]

  type Strptime = (string, DateFormat) -> Option<Date>

  /** `strptime` with one format; it never yields a day `datetime` would reject. */
  function ParseWith(s: string, f: DateFormat, strptime: Strptime): (d: Option<Date>)
    ensures d.Some? ==> PyValid(d.value)
  {
    match strptime(s, f)
    case Some(d) => if PyValid(d) then Some(d) else None
    case None => None
  }

  /** The first format that parses, trying them in order. */
  function FirstParse(s: string, fmts: seq<DateFormat>, strptime: Strptime): (d: Option<Date>)
    ensures d.Some? ==> PyValid(d.value)
  {
    if fmts == [] then None
    else
      match ParseWith(s, fmts[0], strptime)
      case Some(d) => Some(d)
      case None => FirstParse(s, fmts[1..], strptime)
  }

  /**
   * The `day.month.year` reading both deadline parsers fall back on: the text
   * must contain '.', split into exactly three parts that `int()` accepts, and
   * name a day `datetime` accepts; None wherever the code gives up or raises.
   */
  function DottedDate(s: string, toInt: string -> Option<int>): (d: Option<Date>)
    ensures d.Some? ==> PyValid(d.value) && |Split(s, '.')| == 3
  {
    if '.' in s then
      var parts := Split(s, '.');
      if |parts| == 3 then
        var day, month, year := toInt(parts[0]), toInt(parts[1]), toInt(parts[2]);
        if day.Some? && month.Some? && year.Some? && PyValid(Date(year.value, month.value, day.value)) then
          Some(Date(year.value, month.value, day.value))
        else None
      else None
    else None
  }

  /** Written out as `day.month.year` in decimal, a valid day reads back as itself. */
  lemma DottedDateOf(day: int, month: int, year: int, toInt: string -> Option<int>)
    requires PyValid(Date(year, month, day))
    requires toInt(IntToString(day)) == Some(day) && toInt(IntToString(month)) == Some(month)
    requires toInt(IntToString(year)) == Some(year)
    ensures DottedDate(IntToString(day) + "." + IntToString(month) + "." + IntToString(year), toInt)
         == Some(Date(year, month, day))
  {
    NoDotInNumber(day);
    NoDotInNumber(month);
    NoDotInNumber(year);
    DottedParts(IntToString(day), IntToString(month), IntToString(year), Date(year, month, day), toInt);
  }

  /** Three dot-free parts that `int()` reads as a valid day, month and year make that date. */
  lemma DottedParts(a: string, b: string, c: string, d: Date, toInt: string -> Option<int>)
    requires '.' !in a && '.' !in b && '.' !in c && PyValid(d)
    requires toInt(a) == Some(d.day) && toInt(b) == Some(d.month) && toInt(c) == Some(d.year)
    ensures DottedDate(a + "." + b + "." + c, toInt) == Some(d)
  {
    SplitThreeParts(a, b, c, '.');
    var s := a + "." + b + "." + c;
    assert s[|a|] == '.';
  }

  lemma NoDotInNumber(n: int)
    ensures '.' !in IntToString(n)
  {
    var t := IntToString(n);
    if n < 0 {
      assert t == "-" + NatToString(-n);
      assert forall i :: 0 <= i < |t| ==> t[i] == '-' || '0' <= t[i] <= '9';
    }
  }

  /** The date a deadline text names, or None where the code falls back to "Не указан". */
  function DueDate(s: string, strptime: Strptime, toInt: string -> Option<int>): (d: Option<Date>)
    ensures d.Some? ==> PyValid(d.value)
  {
    match FirstParse(s, Formats, strptime)
    case Some(d) => Some(d)
    case None => DottedDate(s, toInt)
  }

  /** The first format wins: when day.month.year parses, the other formats are never consulted. */
  lemma FirstFormatWins(s: string, strptime: Strptime, toInt: string -> Option<int>, d: Date)
    requires strptime(s, DayDotMonthDotYear) == Some(d) && PyValid(d)
    ensures DueDate(s, strptime, toInt) == Some(d)
  {
  }

  /** A later format is used only when every earlier one fails. */
  lemma LaterFormat(s: string, strptime: Strptime, toInt: string -> Option<int>, d: Date)
    requires ParseWith(s, DayDotMonthDotYear, strptime).None?
    requires strptime(s, YearDashMonthDashDay) == Some(d) && PyValid(d)
    ensures DueDate(s, strptime, toInt) == Some(d)
  {
    assert Formats[0] == DayDotMonthDotYear;
    assert Formats[1..] == [YearDashMonthDashDay, DaySlashMonthSlashYear];
    assert FirstParse(s, Formats[1..], strptime) == Some(d);
  }

  /** The text for a day difference: future, "Сегодня", or overdue by its absolute value. */
  function DaysText(n: int): string
  {
    if n > 0 then IntToString(n) + " дней"
    else if n == 0 then "Сегодня"
    else "Просрочено на " + IntToString(-n) + " дней"
  }

  const Unspecified: string := "Не указан"

  /** `calculate_days_left` as written: the day difference is taken against the current moment. */
  function DaysLeftAsWritten(completion: Json, now: Moment, strptime: Strptime, toInt: string -> Option<int>): string
    requires ValidMoment(now)
  {
    if !Truthy(completion) || !completion.JStr? then Unspecified
    else
      match DueDate(completion.s, strptime, toInt)
      case None => Unspecified
      case Some(due) => DaysText(DaysDiffAsWritten(due, now))
  }

  /** `calculate_days_left` with the day difference taken between calendar dates. */
  function DaysLeft(completion: Json, now: Moment, strptime: Strptime, toInt: string -> Option<int>): (s: string)
    requires ValidMoment(now)
    ensures !Truthy(completion) ==> s == Unspecified
  {
    if !Truthy(completion) || !completion.JStr? then Unspecified
    else
      match DueDate(completion.s, strptime, toInt)
      case None => Unspecified
      case Some(due) => DaysText(DaysUntil(due, now))
  }

  /**
   * The days-left text: "Не указан" for an empty, non-text or unreadable
   * deadline; otherwise, with `n` the calendar days from today, "<n> дней" for
   * a later deadline, "Сегодня" for today and "Просрочено на <-n> дней" for an
   * earlier one.
   */
  lemma DaysLeftCases(completion: Json, now: Moment, strptime: Strptime, toInt: string -> Option<int>)
    requires ValidMoment(now)
    ensures var s := DaysLeft(completion, now, strptime, toInt);
      (!Truthy(completion) || !completion.JStr? || DueDate(completion.s, strptime, toInt).None? ==> s == Unspecified)
      && (Truthy(completion) && completion.JStr? && DueDate(completion.s, strptime, toInt).Some? ==>
            var due := DueDate(completion.s, strptime, toInt).value;
            var n := Ordinal(due) - Ordinal(now.date);
            Valid(due)
            && (Ordinal(due) > Ordinal(now.date) ==> s == IntToString(n) + " дней")
            && (due == now.date ==> s == "Сегодня")
            && (Ordinal(due) < Ordinal(now.date) ==> s == "Просрочено на " + IntToString(-n) + " дней"))
  {
    if Truthy(completion) && completion.JStr? && DueDate(completion.s, strptime, toInt).Some? {
      var due := DueDate(completion.s, strptime, toInt).value;
      assert DaysUntil(due, now) == Ordinal(due) - Ordinal(now.date);
    }
  }

  /** "Сегодня" is shown exactly when the deadline is today's date. */
  lemma DaysLeftToday(completion: Json, now: Moment, strptime: Strptime, toInt: string -> Option<int>)
    requires ValidMoment(now) && completion.JStr? && completion.s != []
    requires DueDate(completion.s, strptime, toInt).Some?
    ensures DaysLeft(completion, now, strptime, toInt) == "Сегодня"
        <==> DueDate(completion.s, strptime, toInt).value == now.date
  {
    var due := DueDate(completion.s, strptime, toInt).value;
    var n := DaysUntil(due, now);
    if n > 0 {
      assert IntToString(n)[|IntToString(n)| - 1] != 'я' by {
        assert IntToString(n) == NatToString(n);
      }
      assert (IntToString(n) + " дней") != "Сегодня" by {
        assert "Сегодня"[0] == 'С';
        assert '0' <= (IntToString(n) + " дней")[0] <= '9';
      }
    } else if n < 0 {
      assert ("Просрочено на " + IntToString(-n) + " дней")[0] == 'П';
    }
  }

  /**
   * A deadline of today read at noon: the code as written reports one day
   * overdue, the calendar difference reports "Сегодня".
   */
  lemma DueTodayReadsOverdue(strptime: Strptime, toInt: string -> Option<int>)
    requires strptime("20.05.2024", DayDotMonthDotYear) == Some(Date(2024, 5, 20))
    ensures var now := Moment(Date(2024, 5, 20), 43_200_000_000);
      DaysLeftAsWritten(JStr("20.05.2024"), now, strptime, toInt) == "Просрочено на 1 дней"
      && DaysLeft(JStr("20.05.2024"), now, strptime, toInt) == "Сегодня"
  {
    DueTodayAtNoon();
    assert IntToString(1) == "1";
  }

  // ---- the dialog ----

  datatype Step = TokenCheck | FileToken | BundleCheck | Upload | Submit

  /** The steps of a submission, in order; the file steps only when a file is selected. */
  function Plan(withFile: bool): seq<Step>
  {
    if withFile then [TokenCheck, FileToken, BundleCheck, Upload, Submit] else [TokenCheck, Submit]
  }

  /**
   * A run of the pipeline: the steps taken are the first steps of the plan,
   * each step but the last passed, and a run that stops early stopped on a
   * failure.
   */
  predicate FollowsPlan(t: seq<(Step, bool)>, plan: seq<Step>)
  {
    |t| <= |plan|
    && (forall k :: 0 <= k < |t| ==> t[k].0 == plan[k])
    && (forall k :: 0 <= k < |t| - 1 ==> t[k].1)
    && (0 < |t| < |plan| ==> !t[|t| - 1].1)
  }

  predicate Completed(t: seq<(Step, bool)>)
  {
    |t| > 0 && t[|t| - 1] == (Submit, true)
  }

  /** The answer text sent: the stripped text, or None when it is blank. */
  function AnswerText(text: string): Json
  {
    var stripped := Strip(text);
    if stripped != [] then JStr(stripped) else JNull
  }

  /** No answer text is sent exactly when the text is all whitespace. */
  lemma AnswerTextBlank(text: string)
    ensures AnswerText(text) == JNull <==> forall i :: 0 <= i < |text| ==> IsSpace(text[i])
  {
    StripEmpty(text);
  }

  predicate FileSelected(path: Option<string>)
  {
    path.Some? && path.value != ""
  }

  /** The steps before submission that a passed token check leads to. */
  function Before(withFile: bool): seq<Step>
  {
    if withFile then [TokenCheck, FileToken, BundleCheck, Upload] else [TokenCheck]
  }

  predicate AllPassed(t: seq<(Step, bool)>, plan: seq<Step>)
  {
    |t| == |plan| && forall k :: 0 <= k < |t| ==> t[k] == (plan[k], true)
  }

  /** Concatenation regroups; stated once so that the pipeline methods need not rediscover it. */
  lemma AppendAssociates<T>(a: seq<T>, b: seq<T>, d: seq<T>)
    ensures (a + b) + d == a + (b + d)
  {
  }

  /** A passed token check followed by the file steps is a run of the file plan up to its end. */
  lemma FileStepsFollow(steps: seq<(Step, bool)>, passed: bool)
    requires 1 <= |steps| && FollowsPlan(steps, [FileToken, BundleCheck, Upload])
    requires passed <==> |steps| == 3 && steps[2].1
    ensures passed ==> AllPassed([(TokenCheck, true)] + steps, Before(true))
    ensures !passed ==> FollowsPlan([(TokenCheck, true)] + steps, Plan(true))
  {
    var t := [(TokenCheck, true)] + steps;
    assert forall k :: 1 <= k < |t| ==> t[k] == steps[k - 1];
  }

  /** Adding the submission to a fully passed run completes the plan. */
  lemma SubmitStepFollows(run: seq<(Step, bool)>, withFile: bool, ok: bool)
    requires AllPassed(run, Before(withFile))
    ensures FollowsPlan(run + [(Submit, ok)], Plan(withFile))
    ensures Completed(run + [(Submit, ok)]) <==> ok
  {
    assert Plan(withFile) == Before(withFile) + [Submit];
  }

  /** All requests are GETs: no upload and no submission among them. */
  predicate Gets(sent: seq<Request>)
  {
    forall k :: 0 <= k < |sent| ==> sent[k].HttpGet?
  }

  /** No request is the JSON post of a submission. */
  predicate NoSubmission(sent: seq<Request>)
  {
    forall k :: 0 <= k < |sent| ==> !sent[k].HttpPostJson?
  }

  /** No request is a file upload. */
  predicate NoUpload(sent: seq<Request>)
  {
    forall k :: 0 <= k < |sent| ==> !sent[k].HttpPostFile?
  }

  /**
   * The file-token step of `submit_homework` and the check that the token and
   * directory it returns are non-empty, given what the session's
   * `get_file_token` returned and sent: the requests sent, the steps taken,
   * the token and directory read, and the message box of a failure.
   */
  datatype Bundle = Bundle(sent: seq<Request>, steps: seq<(Step, bool)>, fileToken: Json, homeworkDirId: Json,
                           failure: Option<Notice>)

  function BundleFrom(t: Call<Outcome<Reported>>): Bundle
  {
    if t.result.Throw? then
      Bundle(t.sent, [(FileToken, false)], JNull, JNull, Some(Critical("Ошибка", "Произошла ошибка: " + t.result.error)))
    else if !t.result.value.ok then
      Bundle(t.sent, [(FileToken, false)], JNull, JNull,
             Some(Critical("Ошибка", "Не удалось получить create-token: " + TextOf(t.result.value.payload))))
    else
      var fileToken := GetOr(t.result.value.payload, "token", JStr(""));
      var homeworkDirId := GetOr(t.result.value.payload, "homework_dir_id", JStr(""));
      if !Truthy(fileToken) || !Truthy(homeworkDirId) then
        Bundle(t.sent, [(FileToken, true), (BundleCheck, false)], fileToken, homeworkDirId,
               Some(Critical("Ошибка", "Create-token или директория пусты")))
      else Bundle(t.sent, [(FileToken, true), (BundleCheck, true)], fileToken, homeworkDirId, None)
  }

  /**
   * The bundle steps pass exactly when the session answered ok with a
   * non-empty token and directory, which are then the ones used; a failure is
   * a critical box; nothing but the session's own requests is sent.
   */
  lemma BundleSteps(t: Call<Outcome<Reported>>)
    ensures var b := BundleFrom(t);
      b.sent == t.sent
      && (b.failure.None? <==> b.steps == [(FileToken, true), (BundleCheck, true)])
      && (b.failure.None? <==>
            t.result.Return? && t.result.value.ok
            && Truthy(GetOr(t.result.value.payload, "token", JStr("")))
            && Truthy(GetOr(t.result.value.payload, "homework_dir_id", JStr(""))))
      && (b.failure.None? ==> b.fileToken == GetOr(t.result.value.payload, "token", JStr(""))
                              && b.homeworkDirId == GetOr(t.result.value.payload, "homework_dir_id", JStr("")))
      && (b.failure.Some? ==> b.failure.value.Critical?
                              && (b.steps == [(FileToken, false)] || b.steps == [(FileToken, true), (BundleCheck, false)]))
  {
  }

  /** The file half of `submit_homework`: the bundle steps, then the upload `u`. */
  datatype Attached = Attached(sent: seq<Request>, steps: seq<(Step, bool)>, fileUrl: Json, failure: Option<Notice>)

  function AttachFrom(b: Bundle, u: Call<Reported>): Attached
  {
    if b.failure.Some? then Attached(b.sent, b.steps, JNull, b.failure)
    else if !u.result.ok then
      Attached(b.sent + u.sent, b.steps + [(Upload, false)], JNull,
               Some(Critical("Ошибка", "Не удалось загрузить файл: " + TextOf(u.result.payload))))
    else Attached(b.sent + u.sent, b.steps + [(Upload, true)], u.result.payload, None)
  }

  /** An upload sends no submission, and a passed upload yields a non-empty link. */
  predicate UploadShape(u: Call<Reported>)
  {
    NoSubmission(u.sent) && (u.result.ok ==> Truthy(u.result.payload))
  }

  /** The session's upload has that shape. */
  lemma UploadCallShape(filePath: string, fileToken: Json, homeworkDirId: Json, net: Network, at: nat,
                        read: string -> Option<string>)
    ensures UploadShape(CoreApi.upload(filePath, fileToken, homeworkDirId, net, at, read))
  {
  }

  /**
   * The file steps run in order, each only after the previous passed. No
   * upload is sent before both bundle steps passed, the upload's outcome is
   * the last step's, success yields a non-empty file URL, and nothing of the
   * file half is a submission.
   */
  lemma AttachSteps(t: Call<Outcome<Reported>>, u: Call<Reported>)
    requires Gets(t.sent)
    requires BundleFrom(t).failure.None? ==> UploadShape(u)
    ensures var a := AttachFrom(BundleFrom(t), u);
      1 <= |a.steps| && FollowsPlan(a.steps, [FileToken, BundleCheck, Upload])
      && (a.failure.None? <==> |a.steps| == 3 && a.steps[2].1)
      && (a.failure.None? ==> Truthy(a.fileUrl))
      && (a.failure.Some? ==> a.failure.value.Critical?)
      && NoSubmission(a.sent)
      && (|a.steps| < 3 ==> NoUpload(a.sent) && a.sent == t.sent)
      && (|a.steps| == 3 ==> a.sent == t.sent + u.sent && (a.steps[2].1 <==> u.result.ok))
  {
    var b := BundleFrom(t);
    BundleSteps(t);
    var a := AttachFrom(b, u);
    if b.failure.None? {
      assert a.sent == t.sent + u.sent;
      forall k | 0 <= k < |a.sent|
        ensures !a.sent[k].HttpPostJson?
      {
        if k >= |t.sent| {
          assert a.sent[k] == u.sent[k - |t.sent|];
        }
      }
      if !u.result.ok {
        assert a.steps == [(FileToken, true), (BundleCheck, true), (Upload, false)];
      }
    }
  }

  /** What a run of `submit_homework` past its guards sends, the steps it takes and the one box it shows. */
  datatype Run = Run(sent: seq<Request>, taken: seq<(Step, bool)>, shown: Notice)

  /**
   * What the session's calls returned and sent in one run: the token check,
   * the file token, the upload and the submission (the last three only where
   * the run reached them).
   */
  datatype Calls = Calls(check: Call<Outcome<Reported>>, fileToken: Call<Outcome<Reported>>,
                         upload: Call<Reported>, submit: Call<Reported>)

  predicate Passed(check: Call<Outcome<Reported>>)
  {
    check.result.Return? && check.result.value.ok
  }

  function Attachment(calls: Calls): Attached
  {
    AttachFrom(BundleFrom(calls.fileToken), calls.upload)
  }

  /** The run reaches the submission: the check passed and, with a file, every file step did. */
  predicate Reached(withFile: bool, calls: Calls)
  {
    Passed(calls.check) && (!withFile || Attachment(calls).failure.None?)
  }

  /** The file URL submitted: the uploaded link with a file, None without. */
  function FileUrlOf(withFile: bool, calls: Calls): Json
  {
    if withFile then Attachment(calls).fileUrl else JNull
  }

  /** The submission, after the steps `run` passed. */
  function FinishFrom(s: Call<Reported>, run: seq<(Step, bool)>): Run
  {
    Run(s.sent, run + [(Submit, s.result.ok)],
        if s.result.ok then Information("Успех", TextOf(s.result.payload)) else Critical("Ошибка", TextOf(s.result.payload)))
  }

  /**
   * After a passed token check, given the file token `t`, the upload `u` and
   * the submission `s`: the file half when a file is selected, then the
   * submission.
   */
  function ProceedFrom(withFile: bool, t: Call<Outcome<Reported>>, u: Call<Reported>, s: Call<Reported>): Run
  {
    if !withFile then FinishFrom(s, [(TokenCheck, true)])
    else
      var a := AttachFrom(BundleFrom(t), u);
      var f := AfterFile(a, s);
      Run(a.sent + f.sent, f.taken, f.shown)
  }

  /**
   * What follows the file half `a` of a run: nothing more after a failure,
   * otherwise the submission. The steps are the whole run's after its check.
   */
  function AfterFile(a: Attached, s: Call<Reported>): Run
  {
    if a.failure.Some? then Run([], [(TokenCheck, true)] + a.steps, a.failure.value)
    else FinishFrom(s, [(TokenCheck, true)] + a.steps)
  }

  /** The run of `submit_homework` past its guards: the token check first. */
  function SubmissionRun(withFile: bool, calls: Calls): Run
  {
    var check := calls.check;
    if check.result.Throw? then
      Run(check.sent, [(TokenCheck, false)], Critical("Ошибка", "Произошла ошибка: " + check.result.error))
    else if !check.result.value.ok then
      Run(check.sent, [(TokenCheck, false)],
          Critical("Ошибка авторизации", "Токен недействителен: " + TextOf(check.result.value.payload)))
    else
      var p := ProceedFrom(withFile, calls.fileToken, calls.upload, calls.submit);
      Run(check.sent + p.sent, p.taken, p.shown)
  }

  /** The calls of a run have the shapes the session's calls have. */
  predicate Shaped(withFile: bool, calls: Calls)
  {
    Gets(calls.check.sent)
    && (Passed(calls.check) && withFile ==>
          Gets(calls.fileToken.sent) && (BundleFrom(calls.fileToken).failure.None? ==> UploadShape(calls.upload)))
    && (Reached(withFile, calls) ==> |calls.submit.sent| == 1 && calls.submit.sent[0].HttpPostJson?)
  }

  /** The steps of a run are the first steps of the plan, stopping at the first failure. */
  lemma RunFollowsPlan(withFile: bool, calls: Calls)
    requires Shaped(withFile, calls)
    ensures FollowsPlan(SubmissionRun(withFile, calls).taken, Plan(withFile))
  {
    if Passed(calls.check) {
      if !withFile {
        SubmitStepFollows([(TokenCheck, true)], false, calls.submit.result.ok);
      } else {
        var a := Attachment(calls);
        AttachSteps(calls.fileToken, calls.upload);
        FileStepsFollow(a.steps, a.failure.None?);
        if a.failure.None? {
          SubmitStepFollows([(TokenCheck, true)] + a.steps, true, calls.submit.result.ok);
        }
      }
    }
  }

  /**
   * A failed token check ends the run: nothing is sent after the check, and a
   * check that answered "not valid" shows the authorisation error.
   */
  lemma TokenCheckStops(withFile: bool, calls: Calls)
    requires Shaped(withFile, calls)
    ensures var r := SubmissionRun(withFile, calls);
      0 < |r.taken| && (r.taken[0].1 <==> Passed(calls.check))
      && (!Passed(calls.check) ==> r.sent == calls.check.sent && r.taken == [(TokenCheck, false)] && r.shown.Critical?)
      && (calls.check.result.Return? && !Passed(calls.check) ==>
            r.shown == Critical("Ошибка авторизации", "Токен недействителен: " + TextOf(calls.check.result.value.payload)))
  {
    if Passed(calls.check) && withFile {
      var a := Attachment(calls);
      AttachSteps(calls.fileToken, calls.upload);
      var r := SubmissionRun(withFile, calls);
      assert r.taken[0] == ([(TokenCheck, true)] + a.steps)[0];
    }
  }

  /**
   * The submission is sent only by a run that reached it, as its last request
   * and last step. A run that stops earlier sends no submission.
   */
  lemma SubmitOnlyWhenReached(withFile: bool, calls: Calls)
    requires Shaped(withFile, calls)
    ensures var r := SubmissionRun(withFile, calls);
      0 < |r.taken|
      && (Reached(withFile, calls) <==> r.taken[|r.taken| - 1].0 == Submit)
      && (!Reached(withFile, calls) ==> NoSubmission(r.sent))
      && (Reached(withFile, calls) ==>
            0 < |r.sent| && NoSubmission(r.sent[..|r.sent| - 1]) && r.sent[|r.sent| - 1] == calls.submit.sent[0])
  {
    var check := calls.check;
    if Passed(check) {
      if withFile {
        FileRunSubmitsLast(calls);
      } else {
        var r := SubmissionRun(withFile, calls);
        assert r.sent == check.sent + calls.submit.sent;
        assert r.sent[..|r.sent| - 1] == check.sent;
      }
    }
  }

  /** `SubmitOnlyWhenReached` for a run with a file whose token check passed. */
  lemma FileRunSubmitsLast(calls: Calls)
    requires Shaped(true, calls) && Passed(calls.check)
    ensures var r := SubmissionRun(true, calls);
      0 < |r.taken|
      && (Reached(true, calls) <==> r.taken[|r.taken| - 1].0 == Submit)
      && (!Reached(true, calls) ==> NoSubmission(r.sent))
      && (Reached(true, calls) ==>
            0 < |r.sent| && NoSubmission(r.sent[..|r.sent| - 1]) && r.sent[|r.sent| - 1] == calls.submit.sent[0])
  {
    var check := calls.check;
    var a := Attachment(calls);
    AttachSteps(calls.fileToken, calls.upload);
    NoSubmissionJoin(check.sent, a.sent);
    var r := SubmissionRun(true, calls);
    if a.failure.Some? {
      assert r.sent == check.sent + a.sent;
      assert r.taken == [(TokenCheck, true)] + a.steps;
    } else {
      assert r.sent == (check.sent + a.sent) + calls.submit.sent;
      assert r.sent[..|r.sent| - 1] == check.sent + a.sent;
    }
  }

  /** Two request lists without a submission join into one without. */
  lemma NoSubmissionJoin(x: seq<Request>, y: seq<Request>)
    requires NoSubmission(x) && NoSubmission(y)
    ensures NoSubmission(x + y)
  {
    forall k | 0 <= k < |x + y|
      ensures !(x + y)[k].HttpPostJson?
    {
      if k >= |x| {
        assert (x + y)[k] == y[k - |x|];
      }
    }
  }

  /**
   * A run completes exactly when it reached the submission and the
   * submission passed, and exactly then it shows the success box.
   */
  lemma CompletedIffAccepted(withFile: bool, calls: Calls)
    requires Shaped(withFile, calls)
    ensures var r := SubmissionRun(withFile, calls);
      (Completed(r.taken) <==> r.shown.Information?)
      && (Completed(r.taken) <==> Reached(withFile, calls) && calls.submit.result.ok)
  {
    if Passed(calls.check) && withFile {
      var a := Attachment(calls);
      AttachSteps(calls.fileToken, calls.upload);
    }
  }

  /**
   * The calls a run makes from request number `at` on, when the file half
   * runs: the file token, then the upload only after the bundle passed.
   */
  ghost predicate FileCalls(t: Call<Outcome<Reported>>, u: Call<Reported>, api: Api, token: Option<string>, campus: string,
                            net: Network, at: nat, path: string, read: string -> Option<string>)
  {
    t == FileTokenCall(api, token, campus, net, at)
    && var b := BundleFrom(t);
    (b.failure.None? ==> u == api.upload(path, b.fileToken, b.homeworkDirId, net, at + |b.sent|, read))
  }

  /** The calls after a passed token check: the file half with a file, then the submission if reached. */
  ghost predicate ProceedCalls(t: Call<Outcome<Reported>>, u: Call<Reported>, s: Call<Reported>, api: Api,
                               token: Option<string>, campus: string, net: Network, at: nat,
                               homeworkId: Json, answerText: Json, path: Option<string>, read: string -> Option<string>)
  {
    var withFile := FileSelected(path);
    var a := AttachFrom(BundleFrom(t), u);
    (withFile ==> FileCalls(t, u, api, token, campus, net, at, path.value, read))
    && ((!withFile || a.failure.None?) ==>
          s == SubmitCall(api, token, campus, homeworkId, if withFile then a.fileUrl else JNull, answerText, net,
                          at + if withFile then |a.sent| else 0))
  }

  /** The calls of a whole run from request number `at` on: the token check first. */
  ghost predicate DeliverCalls(calls: Calls, api: Api, token: Option<string>, campus: string, net: Network, at: nat,
                               homeworkId: Json, answerText: Json, path: Option<string>, read: string -> Option<string>)
  {
    calls.check == CheckCall(api, token, campus, net, at)
    && (Passed(calls.check) ==>
          ProceedCalls(calls.fileToken, calls.upload, calls.submit, api, token, campus, net, at + |calls.check.sent|,
                       homeworkId, answerText, path, read))
  }

  /** The session's calls have the shapes the run lemmas assume. */
  lemma SessionCallsShaped(calls: Calls, token: Option<string>, campus: string, net: Network, at: nat,
                           homeworkId: Json, answerText: Json, path: Option<string>, read: string -> Option<string>)
    requires DeliverCalls(calls, CoreApi, token, campus, net, at, homeworkId, answerText, path, read)
    ensures Shaped(FileSelected(path), calls)
  {
    var withFile := FileSelected(path);
    CheckCallGets(token, campus, net, at);
    if Passed(calls.check) {
      var at' := at + |calls.check.sent|;
      assert Held(token);
      if withFile {
        FileTokenCallGets(token, campus, net, at');
        var b := BundleFrom(calls.fileToken);
        if b.failure.None? {
          UploadCallShape(path.value, b.fileToken, b.homeworkDirId, net, at' + |b.sent|, read);
        }
      }
      if Reached(withFile, calls) {
        SubmitCallShape(token, campus, homeworkId, FileUrlOf(withFile, calls), answerText, net,
                        at' + if withFile then |Attachment(calls).sent| else 0);
      }
    }
  }

  /**
   * With a file, a run that reached the submission sends it with the
   * uploaded link, which is non-empty, and the submission passes exactly
   * when the server answers it 200 or 201. `t`, `u` and `s` are the session's
   * file-token, upload and submission calls from request number `at` on.
   */
  lemma FileSubmission(t: Call<Outcome<Reported>>, u: Call<Reported>, s: Call<Reported>, token: Option<string>,
                       campus: string, net: Network, at: nat, homeworkId: Json, answerText: Json, path: string,
                       read: string -> Option<string>)
    requires Held(token) && FileCalls(t, u, CoreApi, token, campus, net, at, path, read)
    requires AttachFrom(BundleFrom(t), u).failure.None?
    requires var a := AttachFrom(BundleFrom(t), u);
      s == SubmitCall(CoreApi, token, campus, homeworkId, a.fileUrl, answerText, net, at + |a.sent|)
    ensures var a := AttachFrom(BundleFrom(t), u);
      var req := SubmitRequest(token, campus, homeworkId, a.fileUrl, answerText);
      Truthy(a.fileUrl) && s.sent == [req]
      && (s.result.ok <==> var reply := net(at + |a.sent|, req); reply.Answer? && reply.response.status in {200, 201})
  {
    FileTokenCallGets(token, campus, net, at);
    var b := BundleFrom(t);
    UploadCallShape(path, b.fileToken, b.homeworkDirId, net, at + |b.sent|, read);
    AttachSteps(t, u);
    var a := AttachFrom(b, u);
    SubmitCallShape(token, campus, homeworkId, a.fileUrl, answerText, net, at + |a.sent|);
  }

  /** The run the session's calls make follows the plan. */
  lemma SessionRunFollowsPlan(core: bool, calls: Calls, api: Api, token: Option<string>, campus: string, net: Network,
                              at: nat, homeworkId: Json, answerText: Json, path: Option<string>,
                              read: string -> Option<string>)
    requires core ==> api == CoreApi
    requires DeliverCalls(calls, api, token, campus, net, at, homeworkId, answerText, path, read)
    ensures core ==> FollowsPlan(SubmissionRun(FileSelected(path), calls).taken, Plan(FileSelected(path)))
  {
    if !core {
      return;
    }
    SessionCallsShaped(calls, token, campus, net, at, homeworkId, answerText, path, read);
    RunFollowsPlan(FileSelected(path), calls);
  }

  /** The session's token check sends only GETs. */
  lemma CheckCallGets(token: Option<string>, campus: string, net: Network, at: nat)
    ensures Gets(CheckCall(CoreApi, token, campus, net, at).sent)
  {
  }

  /** The session's file-token call sends only GETs: the token check and the file-token request. */
  lemma FileTokenCallGets(token: Option<string>, campus: string, net: Network, at: nat)
    ensures Gets(FileTokenCall(CoreApi, token, campus, net, at).sent)
  {
    if Held(token) {
      CheckCallGets(token, campus, net, at);
    }
  }

  /** With a token held, the session's submission sends its one request and passes exactly on 200 or 201. */
  lemma SubmitCallShape(token: Option<string>, campus: string, homeworkId: Json, fileUrl: Json, answerText: Json,
                        net: Network, at: nat)
    requires Held(token)
    ensures var req := SubmitRequest(token, campus, homeworkId, fileUrl, answerText);
      var s := SubmitCall(CoreApi, token, campus, homeworkId, fileUrl, answerText, net, at);
      s.sent == [req] && (s.result.ok <==> net(at, req).Answer? && net(at, req).response.status in {200, 201})
  {
  }

  /** The file-token request of `submit_homework` and the check that the token and directory are non-empty. */
  method FileBundle(c: MystatInterface) returns (ghost t: Call<Outcome<Reported>>, ghost steps: seq<(Step, bool)>,
                                                 fileToken: Json, homeworkDirId: Json, failure: Option<Notice>)
    modifies c`sent
    ensures t == FileTokenCall(c.api, c.token, c.campus, c.net, |old(c.sent)|)
    ensures c.sent == old(c.sent) + t.sent
    ensures BundleFrom(t) == Bundle(t.sent, steps, fileToken, homeworkDirId, failure)
    ensures failure.Some? ==> 0 < |steps| && !steps[|steps| - 1].1
  {
    t := FileTokenCall(c.api, c.token, c.campus, c.net, |c.sent|);
    fileToken, homeworkDirId := JNull, JNull;
    var tokenData := c.GetFileToken();
    if tokenData.Throw? {
      return t, [(FileToken, false)], fileToken, homeworkDirId, Some(Critical("Ошибка", "Произошла ошибка: " + tokenData.error));
    }
    if !tokenData.value.ok {
      return t, [(FileToken, false)], fileToken, homeworkDirId,
        Some(Critical("Ошибка", "Не удалось получить create-token: " + TextOf(tokenData.value.payload)));
    }
    fileToken := GetOr(tokenData.value.payload, "token", JStr(""));
    homeworkDirId := GetOr(tokenData.value.payload, "homework_dir_id", JStr(""));
    if !Truthy(fileToken) || !Truthy(homeworkDirId) {
      return t, [(FileToken, true), (BundleCheck, false)], fileToken, homeworkDirId,
        Some(Critical("Ошибка", "Create-token или директория пусты"));
    }
    steps, failure := [(FileToken, true), (BundleCheck, true)], None;
  }

  /**
   * The file half of `submit_homework`: the file token, the check that its
   * token and directory are non-empty, and the upload. A failure yields the
   * message to show; success yields the uploaded file's link.
   */
  method AttachFile(c: MystatInterface, path: string, read: string -> Option<string>)
    returns (ghost t: Call<Outcome<Reported>>, ghost u: Call<Reported>, ghost steps: seq<(Step, bool)>,
             fileUrl: Json, failure: Option<Notice>)
    modifies c`sent
    ensures FileCalls(t, u, c.api, c.token, c.campus, c.net, |old(c.sent)|, path, read)
    ensures var a := AttachFrom(BundleFrom(t), u);
      c.sent == old(c.sent) + a.sent && steps == a.steps && fileUrl == a.fileUrl && failure == a.failure
    ensures failure.Some? ==> 0 < |steps| && !steps[|steps| - 1].1
  {
    fileUrl := JNull;
    u := Call(Reported(false, JNull), []);
    var fileToken, homeworkDirId;
    t, steps, fileToken, homeworkDirId, failure := FileBundle(c);
    if failure.Some? {
      return;
    }
    u := c.api.upload(path, fileToken, homeworkDirId, c.net, |c.sent|, read);
    var uploaded := c.UploadFileToStorage(path, fileToken, homeworkDirId, read);
    AppendAssociates(old(c.sent), t.sent, u.sent);
    if !uploaded.ok {
      return t, u, steps + [(Upload, false)], fileUrl,
        Some(Critical("Ошибка", "Не удалось загрузить файл: " + TextOf(uploaded.payload)));
    }
    fileUrl := uploaded.payload;
    steps := steps + [(Upload, true)];
  }

  /**
   * The submission itself, after the steps `run` passed: the run's steps
   * gain the submission's outcome and the box shows its message.
   */
  method Finish(c: MystatInterface, homeworkId: Json, fileUrl: Json, answerText: Json, ghost run: seq<(Step, bool)>)
    returns (ghost s: Call<Reported>, ghost taken: seq<(Step, bool)>, shown: Notice, accepted: bool)
    requires Held(c.token)
    modifies c`sent
    ensures s == SubmitCall(c.api, c.token, c.campus, homeworkId, fileUrl, answerText, c.net, |old(c.sent)|)
    ensures var r := FinishFrom(s, run);
      c.sent == old(c.sent) + r.sent && taken == r.taken && shown == r.shown
    ensures accepted == s.result.ok
  {
    s := SubmitCall(c.api, c.token, c.campus, homeworkId, fileUrl, answerText, c.net, |c.sent|);
    var submitted := c.SubmitHomework(homeworkId, fileUrl, answerText);
    taken := run + [(Submit, submitted.ok)];
    accepted := submitted.ok;
    shown := if submitted.ok then Information("Успех", TextOf(submitted.payload))
             else Critical("Ошибка", TextOf(submitted.payload));
  }

  /** With a file selected: the file steps, then the submission if they all passed. */
  method ProceedWithFile(c: MystatInterface, path: string, homeworkId: Json, answerText: Json,
                         read: string -> Option<string>)
    returns (ghost calls: Calls, ghost taken: seq<(Step, bool)>, shown: Notice, accepted: bool)
    requires Held(c.token) && FileSelected(Some(path))
    modifies c`sent
    ensures ProceedCalls(calls.fileToken, calls.upload, calls.submit, c.api, c.token, c.campus, c.net, |old(c.sent)|,
                         homeworkId, answerText, Some(path), read)
    ensures var r := ProceedFrom(true, calls.fileToken, calls.upload, calls.submit);
      c.sent == old(c.sent) + r.sent && taken == r.taken && shown == r.shown
    ensures accepted == Completed(taken)
  {
    ghost var steps: seq<(Step, bool)>;
    var fileUrl: Json;
    var failure: Option<Notice>;
    ghost var t, u, s;
    t, u, steps, fileUrl, failure := AttachFile(c, path, read);
    ghost var a := AttachFrom(BundleFrom(t), u);
    s, taken, shown, accepted := AfterAttach(c, homeworkId, answerText, fileUrl, failure, steps, a);
    AppendAssociates(old(c.sent), a.sent, AfterFile(a, s).sent);
    calls := Calls(Call(Return(Reported(true, JNull)), []), t, u, s);
  }

  /** The end of a run with a file: the failure of the file half `a`, or the submission of its link. */
  method AfterAttach(c: MystatInterface, homeworkId: Json, answerText: Json, fileUrl: Json, failure: Option<Notice>,
                     ghost steps: seq<(Step, bool)>, ghost a: Attached)
    returns (ghost s: Call<Reported>, ghost taken: seq<(Step, bool)>, shown: Notice, accepted: bool)
    requires Held(c.token) && fileUrl == a.fileUrl && failure == a.failure && steps == a.steps
    requires failure.Some? ==> 0 < |steps| && !steps[|steps| - 1].1
    modifies c`sent
    ensures a.failure.None? ==> s == SubmitCall(c.api, c.token, c.campus, homeworkId, a.fileUrl, answerText, c.net, |old(c.sent)|)
    ensures var f := AfterFile(a, s);
      c.sent == old(c.sent) + f.sent && taken == f.taken && shown == f.shown
    ensures accepted == Completed(taken)
  {
    if failure.Some? {
      s := Call(Reported(false, JNull), []);
      taken := [(TokenCheck, true)] + steps;
      assert taken[|taken| - 1] == steps[|steps| - 1];
      shown := failure.value;
      accepted := false;
      return;
    }
    s, taken, shown, accepted := Finish(c, homeworkId, fileUrl, answerText, [(TokenCheck, true)] + steps);
  }

  /** After a passed token check: the file steps when a file is selected, then the submission. */
  method Proceed(c: MystatInterface, path: Option<string>, homeworkId: Json, answerText: Json,
                 read: string -> Option<string>)
    returns (ghost calls: Calls, ghost taken: seq<(Step, bool)>, shown: Notice, accepted: bool)
    requires Held(c.token)
    modifies c`sent
    ensures ProceedCalls(calls.fileToken, calls.upload, calls.submit, c.api, c.token, c.campus, c.net, |old(c.sent)|,
                         homeworkId, answerText, path, read)
    ensures var r := ProceedFrom(FileSelected(path), calls.fileToken, calls.upload, calls.submit);
      c.sent == old(c.sent) + r.sent && taken == r.taken && shown == r.shown
    ensures accepted == Completed(taken)
  {
    if FileSelected(path) {
      calls, taken, shown, accepted := ProceedWithFile(c, path.value, homeworkId, answerText, read);
      return;
    }
    ghost var s;
    s, taken, shown, accepted := Finish(c, homeworkId, JNull, answerText, [(TokenCheck, true)]);
    calls := Calls(Call(Return(Reported(true, JNull)), []), Call(Return(Reported(false, JNull)), []),
                   Call(Reported(false, JNull), []), s);
  }

  /**
   * The part of `submit_homework` after its guards, as far as the session
   * sees it: the token check first, then the rest of the run. `accepted`
   * says whether the run completed; `shown` is the one box it ends with.
   */
  method Deliver(c: MystatInterface, path: Option<string>, homeworkId: Json, answerText: Json,
                 read: string -> Option<string>)
    returns (ghost calls: Calls, ghost taken: seq<(Step, bool)>, shown: Notice, accepted: bool)
    modifies c`sent
    ensures DeliverCalls(calls, c.api, c.token, c.campus, c.net, |old(c.sent)|, homeworkId, answerText, path, read)
    ensures var r := SubmissionRun(FileSelected(path), calls);
      c.sent == old(c.sent) + r.sent && taken == r.taken && shown == r.shown
    ensures accepted == Completed(taken)
  {
    ghost var checkCall := CheckCall(c.api, c.token, c.campus, c.net, |c.sent|);
    var check := c.CheckTokenValidity();
    if check.Throw? || !check.value.ok {
      calls := Calls(checkCall, Call(Return(Reported(false, JNull)), []),
                     Call(Reported(false, JNull), []), Call(Reported(false, JNull), []));
      taken := [(TokenCheck, false)];
      shown := if check.Throw? then Critical("Ошибка", "Произошла ошибка: " + check.error)
               else Critical("Ошибка авторизации", "Токен недействителен: " + TextOf(check.value.payload));
      accepted := false;
      assert !Passed(calls.check);
      return;
    }
    calls, taken, shown, accepted := Proceed(c, path, homeworkId, answerText, read);
    AppendAssociates(old(c.sent), checkCall.sent, ProceedFrom(FileSelected(path), calls.fileToken, calls.upload, calls.submit).sent);
    calls := calls.(check := checkCall);
  }

  class HomeworkDetailWindow {
    const homeworkData: Json
    var client: MystatInterface?
    var selectedFilePath: Option<string>
    var selectedLabel: string
    var text: string
    var notices: seq<Notice>
    var emitted: seq<Json>
    var closed: bool
    /** The pipeline steps taken so far, each with whether it passed. */
    ghost var trace: seq<(Step, bool)>

    constructor (homeworkData: Json)
      ensures this.homeworkData == homeworkData
      ensures client == null && selectedFilePath == None && text == ""
      ensures notices == [] && emitted == [] && !closed && trace == []
    {
      this.homeworkData := homeworkData;
      client := null;
      selectedFilePath := None;
      selectedLabel := "";
      text := "";
      notices := [];
      emitted := [];
      closed := false;
      trace := [];
    }

    /** `select_file`: a chosen path (non-empty) replaces the selection; a cancelled dialog changes nothing. */
    method SelectFile(chosen: string)
      modifies this`selectedFilePath, this`selectedLabel
      ensures chosen != "" ==> selectedFilePath == Some(chosen) && selectedLabel == "Выбран файл: " + BaseName(chosen)
      ensures chosen == "" ==> selectedFilePath == old(selectedFilePath) && selectedLabel == old(selectedLabel)
    {
      if chosen != "" {
        selectedFilePath := Some(chosen);
        selectedLabel := "Выбран файл: " + BaseName(chosen);
      }
    }

    /** `calculate_days_left`: tries the formats in order, stopping at the first that parses. */
    method CalculateDaysLeft(now: Moment, strptime: Strptime, toInt: string -> Option<int>) returns (s: string)
      requires ValidMoment(now)
      ensures s == DaysLeft(GetOr(homeworkData, "completion_time", JStr("")), now, strptime, toInt)
    {
      var completion := GetOr(homeworkData, "completion_time", JStr(""));
      if !Truthy(completion) || !completion.JStr? {
        return Unspecified;
      }
      var text := completion.s;
      var due: Option<Date> := None;
      var i := 0;
      while i < |Formats| && due.None?
        invariant 0 <= i <= |Formats|
        invariant FirstParse(text, Formats, strptime)
               == if due.Some? then due else FirstParse(text, Formats[i..], strptime)
      {
        due := ParseWith(text, Formats[i], strptime);
        i := i + 1;
      }
      if due.None? {
        due := DottedDate(text, toInt);
      }
      s := if due.Some? then DaysText(DaysUntil(due.value, now)) else Unspecified;
    }

    /**
     * `submit_homework`: the input, client and id guards come first and send
     * nothing. Past them the run is `SubmissionRun` over the calls the
     * session made: the token check, then (with a file) the file token, the
     * bundle check and the upload, then the submission, each only after the
     * previous passed. The session sends exactly the run's requests, and the
     * homework is emitted and the dialog closed exactly when the run completed.
     * `taken` is the run's part of the trace and `shown` the one message box.
     */
    method SubmitHomework(read: string -> Option<string>)
      returns (ghost calls: Calls, ghost taken: seq<(Step, bool)>, shown: Notice)
      modifies this`notices, this`emitted, this`closed, this`trace, {client}`sent
      ensures notices == old(notices) + [shown]
      ensures trace == old(trace) + taken
      ensures client != null && client.api == CoreApi ==> FollowsPlan(taken, Plan(FileSelected(selectedFilePath)))
      ensures (!FileSelected(selectedFilePath) && Strip(text) == []) || client == null
              || !Truthy(GetOr(homeworkData, "id", JNull)) ==>
                taken == [] && shown.Warning? && emitted == old(emitted) && closed == old(closed)
                && (client != null ==> client.sent == old(client.sent))
      ensures (FileSelected(selectedFilePath) || Strip(text) != []) && client != null
              && Truthy(GetOr(homeworkData, "id", JNull)) ==>
                DeliverCalls(calls, client.api, client.token, client.campus, client.net, |old(client.sent)|,
                             GetOr(homeworkData, "id", JNull), AnswerText(text), selectedFilePath, read)
                && var r := SubmissionRun(FileSelected(selectedFilePath), calls);
                client.sent == old(client.sent) + r.sent && taken == r.taken && shown == r.shown
      ensures Completed(taken) ==> emitted == old(emitted) + [homeworkData] && closed
      ensures !Completed(taken) ==> emitted == old(emitted) && closed == old(closed)
    {
      taken := [];
      calls := Calls(Call(Return(Reported(false, JNull)), []), Call(Return(Reported(false, JNull)), []),
                     Call(Reported(false, JNull), []), Call(Reported(false, JNull), []));
      if !FileSelected(selectedFilePath) && Strip(text) == [] {
        shown := Warning("Предупреждение", "Выберите файл или введите текст");
        notices := notices + [shown];
        return;
      }
      if client == null {
        shown := Warning("Ошибка", "Нет подключения к API");
        notices := notices + [shown];
        return;
      }
      var homeworkId := GetOr(homeworkData, "id", JNull);
      if !Truthy(homeworkId) {
        shown := Warning("Ошибка", "ID задания не найден");
        notices := notices + [shown];
        return;
      }
      calls, taken, shown := Send(client, homeworkId, AnswerText(text), read);
    }

    /** The part of `submit_homework` past its guards, with the client `c`. */
    method Send(c: MystatInterface, homeworkId: Json, answerText: Json, read: string -> Option<string>)
      returns (ghost calls: Calls, ghost taken: seq<(Step, bool)>, shown: Notice)
      requires c == client
      modifies this`notices, this`emitted, this`closed, this`trace, c`sent
      ensures notices == old(notices) + [shown]
      ensures trace == old(trace) + taken
      ensures c.api == CoreApi ==> FollowsPlan(taken, Plan(FileSelected(selectedFilePath)))
      ensures DeliverCalls(calls, c.api, c.token, c.campus, c.net, |old(c.sent)|, homeworkId, answerText,
                           selectedFilePath, read)
      ensures var r := SubmissionRun(FileSelected(selectedFilePath), calls);
        c.sent == old(c.sent) + r.sent && taken == r.taken && shown == r.shown
      ensures Completed(taken) ==> emitted == old(emitted) + [homeworkData] && closed
      ensures !Completed(taken) ==> emitted == old(emitted) && closed == old(closed)
    {
      ghost var at := |c.sent|;
      var accepted;
      calls, taken, shown, accepted := Deliver(c, selectedFilePath, homeworkId, answerText, read);
      SessionRunFollowsPlan(c.api == CoreApi, calls, c.api, c.token, c.campus, c.net, at,
                            homeworkId, answerText, selectedFilePath, read);
      trace := trace + taken;
      notices := notices + [shown];
      if accepted {
        emitted := emitted + [homeworkData];
        closed := true;
      }
    }

    /**
     * `download_file`: a cancelled folder dialog does nothing; otherwise the
     * file is saved as `<folder>/<safe theme><extension>` and the outcome shown.
     */
    method DownloadFile(fileUrl: string, theme: string, chosenDir: string, save: (string, Response) -> Option<string>)
      requires client != null
      modifies this`notices, {client}`sent
      ensures chosenDir == "" ==> notices == old(notices) && client.sent == old(client.sent)
      ensures chosenDir != "" ==> |notices| == |old(notices)| + 1
      ensures chosenDir != "" && !Held(client.token) ==>
        notices == old(notices) + [Critical("Ошибка", NoToken)] && client.sent == old(client.sent)
      ensures chosenDir != "" && Held(client.token) ==>
        var c := Core.DownloadFile(fileUrl, SavePath(chosenDir, theme, fileUrl), client.token, client.net, |old(client.sent)|, save);
        client.sent == old(client.sent) + c.sent
        && notices == old(notices) + [if c.result.ok then Information("Успех", TextOf(c.result.payload))
                                     else Critical("Ошибка", TextOf(c.result.payload))]
    {
      if chosenDir == "" {
        return;
      }
      var savePath := PathJoin(chosenDir, SafeTheme(theme) + FileExtension(fileUrl));
      var r := client.DownloadHomeworkFile(fileUrl, savePath, save);
      if r.ok {
        notices := notices + [Information("Успех", TextOf(r.payload))];
      } else {
        notices := notices + [Critical("Ошибка", TextOf(r.payload))];
      }
    }

    /** `open_task_file`: needs a task file and a client before anything is downloaded. */
    method OpenTaskFile(chosenDir: string, save: (string, Response) -> Option<string>)
      modifies this`notices, {client}`sent
      ensures !Truthy(GetOr(homeworkData, "file_path", JStr(""))) || client == null ==>
        |notices| == |old(notices)| + 1 && notices[|notices| - 1].Warning?
        && (client != null ==> client.sent == old(client.sent))
      ensures Truthy(GetOr(homeworkData, "file_path", JStr(""))) && client != null && chosenDir == "" ==>
        notices == old(notices) && client.sent == old(client.sent)
    {
      var fileUrl := GetOr(homeworkData, "file_path", JStr(""));
      if !Truthy(fileUrl) {
        notices := notices + [Warning("Предупреждение", "Файл задания не найден")];
        return;
      }
      if client == null {
        notices := notices + [Warning("Ошибка", "Нет подключения к API")];
        return;
      }
      DownloadFile(TextOf(fileUrl), TextOf(GetOr(homeworkData, "theme", JStr("Задание"))), chosenDir, save);
    }
  }
}
