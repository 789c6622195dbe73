# MyStat desktop client — a Dafny model of its core

This project models the core of the MyStat PyQt5 client. The client is a desktop
application through which IT STEP students:

- sign in to the MyStat API;
- see their marks, attendance, leaderboard, schedule and homework;
- submit homework answers, with an attached file or without one.

Everything is modelled as values and verified with Dafny. The network, the clock,
the file system, JSON parsing and Qt are not modelled directly; they become
parameters.

What is modelled, file by file:

- `core.dfy` (module `Core`): the API layer `core.py`. Each endpoint builds a
  request, hands it to a network oracle and reduces the answer. The reduction
  gives either a JSON tree (Python `None` on failure) or an `(ok,
  payload-or-message)` pair.
  - The network is `net(n, request)`: the reply to the n-th request of the
    session.
  - Every operation reports the requests it issued, in order.
  - An exception the Python code does not catch becomes `Throw`.
- `session.dfy` (module `Session`): the `MystatInterface` session facade.
  - It is a class whose `token` only `Authenticate` writes.
  - Its `sent` log records every request.
  - Each accessor short-circuits without a token. The upload is the one
    accessor that is not guarded.
  - `get_user_info` decodes the payload segment of a compact JSON Web Token.
  - The session reaches the core through its `api` field, a record of the
    core functions it calls. The constructor sets it to the core's own
    (`CoreApi`). The dialog and main-window contracts are stated over
    `api`. The lemmas that need the core's behaviour take `api == CoreApi`
    as a hypothesis.
- `homework_detail.dfy` (module `HomeworkDetail`): the homework dialog.
  - The submission pipeline. A run is specified by `SubmissionRun`, a
    function of what each session call returned. The methods that perform
    it record the requests sent, the steps taken, the message box and the
    emitted signal.
  - The theme sanitiser and the file-extension rule.
  - The deadline parser with its ordered format fallback, and the "days left"
    text.
- `homework_list.dfy` (module `HomeworkList`): the homework page.
  - Subject de-duplication and subject filtering.
  - The four-column card grid and its count label.
  - The deadline status on each card.
- `calendar.dfy` (module `Calendar`): the calendar page.
  - Per-day event selection.
  - Icon precedence.
  - Week navigation.
  - The stored-data update.
- `attendance.dfy` (module `Attendance`): the attendance table. The nested
  year → month → day → visits answer is flattened into rows.
- `app.dfy` (module `App`): `main.py`.
  - The login guard.
  - The dashboard counters, the positive-mark average and the capped tables.
  - The dashboard and calendar loaders.
- Support modules:
  - `json.dfy`: JSON values with Python truthiness, `get`, `len` and iteration.
  - `text.dfy`: `split`, `strip`, `lower`, `zfill` and `str(int)`.
  - `base64.dfy`: padding and a strict base64url decoder.
  - `dates.dfy`: Gregorian dates, day stepping, ordinals and `timedelta.days`.
  - `messages.dfy`: message boxes.

## Model

| member | source | states |
|---|---|---|
| `Core.AuthorizationHeader` | core.py:16-29 | The `authorization` header is `Bearer <token>` exactly when the token is truthy and absent otherwise; every other header is the fixed one whatever the token |
| `Core.HandleResponse` | core.py:31-36 | Status 200 yields the parsed body (a body that does not parse raises); every other status yields None |
| `Core.FetchSuccess` | core.py:52-89 | A guarded GET that returns a non-None tree sent one request that was answered 200 with exactly that body |
| `Core.GetAuth` | core.py:38-50 | Sends one login request; `(True, raw response text)` on 200 and `(False, None)` on any other status; a transport error propagates |
| `Core.GetSchedule` | core.py:91-98 | A failed or falsy fetch gives None; a non-empty dict is unwrapped to its `data` field when it has one and returned whole otherwise |
| `Core.ScheduleUrl` | core.py:91-94 | The URL asks for `type=week` exactly when `week` is set and for `type=month` otherwise; `date_filter` is the date, or empty when none is given |
| `Core.CollectMarks` | core.py:61-67 | The loop collects exactly the parseable marks of the dict entries with a `mark`, in order |
| `Core.CalcAvrMark` | core.py:56-69 | Returns the mean of the collected marks; None for falsy data or when no mark parses; exceptions from fetching and iterating propagate |
| `Core.ParsedMarksAppend` | core.py:62-67 | Collecting marks distributes over concatenation, so each entry contributes on its own |
| `Core.SkipUnparseable` | core.py:62-67 | An entry whose mark does not parse is skipped: the average is as if it were absent, not counted as 0 |
| `Core.AverageNone` | core.py:57-69 | No average exists exactly when the data is falsy or none of its entries yields a parseable mark |
| `Core.MeanBounds` | core.py:69 | The average lies between any lower and upper bound of the marks |
| `Core.AverageExample` | core.py:56-69 | Marks 80, 90 and an unparseable "x" average to 85 |
| `Core.DownloadFile` | core.py:100-114 | Headers are sent only when a token is held. The call succeeds exactly when the answer is not a 4xx or 5xx and saving succeeds, with the success message naming the path; every failure reports a message starting "Ошибка скачивания файла: " |
| `Core.TokenCheck` | core.py:123-130 | For an answered request, the check passes exactly on status 200; a transport error raises |
| `Core.CheckTokenValidity` | core.py:116-130 | An empty or absent token fails with "Токен не предоставлен" and sends nothing; otherwise one marks request decides |
| `Core.TokenCheckMessages` | core.py:125-130 | 401 gives the distinct "invalid or expired" message; any other failure status is embedded in its message; neither message is the no-token message |
| `Core.FileTokenReply` | core.py:143-157 | Succeeds only on a 200 dict body whose `token` and `directories.homeworkDirId` are both truthy, and returns them as `{token, homework_dir_id}` |
| `Core.FileTokenNeedsCheck` | core.py:132-143 | A failed or raising token check is returned unchanged with no file-token request; after a passed check exactly one file-token request follows the marks request and decides the result |
| `Core.FileTokenMissingField` | core.py:145-157 | A 200 answer missing either field is a failure with the fixed "not found" message |
| `Core.UploadReply` | core.py:176-190 | Succeeds exactly on a 200 body that is a non-empty list whose first element is a dict with a truthy `link`, and returns that link |
| `Core.UploadFileToStorage` | core.py:163-193 | A file that cannot be read fails with no request sent; otherwise one upload request authorised by the file token decides |
| `Core.SubmitHomework` | core.py:195-213 | Posts one request; succeeds exactly when the answer is 200 or 201, with the fixed success message; every other answer and every transport error fails with a message starting "Ошибка отправки задания: " |
| `Core.SubmitPayload` | core.py:199-203 | The payload has exactly the three fields `id`, `answerText` and `filename`, carrying the given values |
| `Text.SplitParts` | interface/mystat_interface.py:27-28 | `split('.')` cuts at every separator and nowhere else: no part holds a separator, and there is one more part than there are separators |
| `Text.SplitJoin` | interface/mystat_interface.py:27 | Joining the parts of a split with the separator gives back the text |
| `Text.SplitThreeParts` | interface/mystat_interface.py:27-31 | Three separator-free segments joined by two separators split back into exactly those segments |
| `Text.SplitLast` | widgets/homework_detail_window.py:364 | Whatever precedes the last separator, the last part of a split is the text after it |
| `Text.LStripSpec` | widgets/homework_detail_window.py:400 | `lstrip` keeps a suffix that starts with a non-space, and drops only whitespace |
| `Text.RStripSpec` | widgets/homework_detail_window.py:348 | `rstrip` keeps a prefix that ends with a non-space, and drops only whitespace |
| `Text.StripEmpty` | widgets/homework_detail_window.py:385 | A stripped text is empty exactly when every character is whitespace |
| `Text.ZFillUnsigned` | widgets/attendance_widget.py:81 | `zfill` of an unsigned text is zeros followed by the text, never shorter than the text |
| `Text.Lower` | main.py:591 | `lower()` keeps the length and lowers each character |
| `Base64Url.Pad` | interface/mystat_interface.py:31-34 | Appends `(4 - len % 4) % 4` `=` characters: the result's length is a multiple of 4, it extends the segment with `=` only, and an aligned segment is unchanged |
| `Base64Url.ValueChar64` | interface/mystat_interface.py:36 | Each base64url alphabet character decodes to its own 6-bit value and is never the pad `=` |
| `Base64Url.GroupRoundTrip` | interface/mystat_interface.py:36 | Four encoded characters decode to the three bytes they were encoded from |
| `Base64Url.NoDotInEncoding` | interface/mystat_interface.py:27-28 | An encoded segment never contains the `.` that separates token segments |
| `Base64Url.DecodePadEncode` | interface/mystat_interface.py:31-37 | Padding and decoding an unpadded base64url encoding gives back the encoded bytes |
| `Session.UserInfoNeedsThreeSegments` | interface/mystat_interface.py:19-29 | User information is obtained only from a held token with exactly two dots |
| `Session.UserInfoOfIssuedToken` | interface/mystat_interface.py:19-42 | A token `header.payload.signature` whose payload is the unpadded encoding of bytes parsing to some claims yields exactly those claims |
| `Session.MystatInterface.constructor` | interface/mystat_interface.py:6-10 | A new session stores the login, password and campus (default `aqtobe`), holds no token, has sent nothing, and calls the core's own functions (`api == CoreApi`) |
| `Session.MystatInterface.Authenticate` | interface/mystat_interface.py:12-17 | Logs in once. Success stores the response text as the token and returns True; a rejection returns False and keeps the previous token; a transport error raises and keeps the token |
| `Session.MystatInterface.GetUserInfo` | interface/mystat_interface.py:19-42 | Pads the middle segment in place and decodes it; the result is the user information of the token, None on every failure |
| `Session.MystatInterface.Marks` | interface/mystat_interface.py:44-45 | Without a token: None and nothing sent; with one: `get_marks` with the stored token and campus, through `api` |
| `Session.MystatInterface.AverageMark` | interface/mystat_interface.py:47-48 | Without a token: None and nothing sent; with one: the average of the fetched marks, through `api` |
| `Session.MystatInterface.Homework` | interface/mystat_interface.py:50-51 | Without a token: None and nothing sent; with one: `get_homework` with the stored token, campus and the given status, limit and sort, through `api` |
| `Session.MystatInterface.Attendance` | interface/mystat_interface.py:53-54 | Without a token: None and nothing sent; with one: `get_attendance` for the period, through `api` |
| `Session.MystatInterface.Leaderboard` | interface/mystat_interface.py:56-57 | Without a token: None and nothing sent; with one: `get_leaderboard`, through `api` |
| `Session.MystatInterface.Schedule` | interface/mystat_interface.py:59-60 | Without a token: None and nothing sent; with one: `get_schedule(token, week, date, campus)`, arguments in that order, through `api` |
| `Session.MystatInterface.DownloadHomeworkFile` | interface/mystat_interface.py:62-63 | Without a token: `(False, "Нет токена авторизации")` and nothing sent; with one: the download with the stored token |
| `Session.MystatInterface.CheckTokenValidity` | interface/mystat_interface.py:65-69 | Without a token: `(False, "Нет токена авторизации")` and nothing sent; with one: the core token check, through `api` |
| `Session.MystatInterface.GetFileToken` | interface/mystat_interface.py:71-76 | Without a token: `(False, "Нет токена авторизации")` and nothing sent; with one: the core file-token request, through `api` |
| `Session.MystatInterface.UploadFileToStorage` | interface/mystat_interface.py:78-79 | Forwarded to the core upload, through `api`, whatever the session holds: there is no token guard |
| `Session.MystatInterface.SubmitHomework` | interface/mystat_interface.py:81-82 | Without a token: `(False, "Нет токена авторизации")` and nothing sent; with one: the core submission with the stored token and campus, through `api` |
| `HomeworkDetail.KeepThemeChars` | widgets/homework_detail_window.py:348 | The filtered theme is no longer than the theme and holds only alphanumerics, space, `-` and `_` |
| `HomeworkDetail.KeepThemeCharsAppend` | widgets/homework_detail_window.py:348 | The filter works character by character and keeps their order |
| `HomeworkDetail.KeepThemeCharsAllowed` | widgets/homework_detail_window.py:348 | A theme made only of allowed characters passes the filter unchanged |
| `HomeworkDetail.SafeTheme` | widgets/homework_detail_window.py:348 | The sanitised theme holds only allowed characters and has no trailing whitespace |
| `HomeworkDetail.SafeThemeIdempotent` | widgets/homework_detail_window.py:348 | Sanitising a sanitised theme changes nothing |
| `HomeworkDetail.FileExtension` | widgets/homework_detail_window.py:360-369 | The extension starts with `.` and is 1 to 6 characters long. It is `.pdf`, or it comes from a URL that contains a `.` and holds neither `.` nor `?` after its first character. A URL without a `.` gives `.pdf` |
| `HomeworkDetail.ExtensionAfterLastDot` | widgets/homework_detail_window.py:363-369 | The extension is the text after the last `.`, cut at its first `?`, when that is at most 5 characters; when it is longer the extension is `.pdf` |
| `HomeworkDetail.FileExtensionOf` | widgets/homework_detail_window.py:360-369 | A URL ending in `.ext`, with or without a `?query`, yields `.ext` for a short `ext` |
| `HomeworkDetail.BaseName` | widgets/homework_detail_window.py:381 | The file name shown for a selection holds no `/` |
| `HomeworkDetail.ParseWith` | widgets/homework_detail_window.py:301 | One format yields only days that `datetime` accepts |
| `HomeworkDetail.FirstParse` | widgets/homework_detail_window.py:298-304 | Trying the formats in order yields only days that `datetime` accepts |
| `HomeworkDetail.DottedDate` | widgets/homework_detail_window.py:306-311 | The fallback reads a date only from a text that splits on `.` into exactly three parts, and only a day `datetime` accepts |
| `HomeworkDetail.DottedParts` | widgets/homework_detail_window.py:307-311 | Three dot-free parts that `int()` reads as a valid day, month and year make exactly that date |
| `HomeworkDetail.DottedDateOf` | widgets/homework_detail_window.py:306-311 | A valid date written `day.month.year` in decimal is read back as itself |
| `HomeworkDetail.DueDate` | widgets/homework_detail_window.py:292-311 | A deadline text names only days that `datetime` accepts |
| `HomeworkDetail.FirstFormatWins` | widgets/homework_detail_window.py:292-302 | When `%d.%m.%Y` parses, its date is used and no later format matters |
| `HomeworkDetail.LaterFormat` | widgets/homework_detail_window.py:292-304 | `%Y-%m-%d` is used only after `%d.%m.%Y` failed, and then its date wins |
| `HomeworkDetail.DaysLeft` | widgets/homework_detail_window.py:284-287 | An empty deadline gives "Не указан" |
| `HomeworkDetail.DaysLeftCases` | widgets/homework_detail_window.py:283-328 | Corrected days-left text. "Не указан" for an empty, non-text or unreadable deadline. Otherwise, with n the calendar days from today: "n дней" for a later deadline, "Сегодня" for today, "Просрочено на -n дней" for an earlier one |
| `HomeworkDetail.DaysLeftToday` | widgets/homework_detail_window.py:313-322 | With the calendar difference, "Сегодня" is shown exactly when the deadline is today's date |
| `HomeworkDetail.DueTodayReadsOverdue` | widgets/homework_detail_window.py:313-322 | A deadline of today read at noon: the code as written says "Просрочено на 1 дней", the corrected text says "Сегодня" |
| `HomeworkDetail.AnswerTextBlank` | widgets/homework_detail_window.py:400 | No answer text is sent (None) exactly when the typed text is all whitespace |
| `HomeworkDetail.FileStepsFollow` | widgets/homework_detail_window.py:402-426 | A passed token check followed by the file steps is a prefix of the file plan, and a fully passed one reaches the submission |
| `HomeworkDetail.SubmitStepFollows` | widgets/homework_detail_window.py:428-435 | After every earlier step passed, the submission completes the plan, and the run is completed exactly when the submission passes |
| `HomeworkDetail.BundleSteps` | widgets/homework_detail_window.py:408-418 | The bundle steps pass exactly when the file-token call answered ok with a truthy `token` and `homework_dir_id`, which are then the ones used; a failure is a critical box at the failed step |
| `HomeworkDetail.UploadCallShape` | core.py:163-193 | The core upload sends no submission, and a passed upload yields a truthy link |
| `HomeworkDetail.AttachSteps` | widgets/homework_detail_window.py:407-426 | The file steps follow the order file token, bundle check, upload. No upload is sent before both bundle steps passed. The upload's outcome is the last step's. Success yields a truthy file URL. Nothing in the file half is a submission |
| `HomeworkDetail.RunFollowsPlan` | widgets/homework_detail_window.py:398-435 | The steps of a run are a prefix of the plan (token check, file steps with a file, submission), stopping at the first failure |
| `HomeworkDetail.TokenCheckStops` | widgets/homework_detail_window.py:402-405 | A failed token check ends the run: only the check's requests are sent, and a check answered "not valid" shows "Ошибка авторизации" with "Токен недействителен: " and the message |
| `HomeworkDetail.SubmitOnlyWhenReached` | widgets/homework_detail_window.py:398-430 | The submission is sent only by a run that reached it, as its last request and last step; a run that stops earlier sends no submission |
| `HomeworkDetail.FileRunSubmitsLast` | widgets/homework_detail_window.py:407-430 | The same, for a run with a file whose token check passed |
| `HomeworkDetail.CompletedIffAccepted` | widgets/homework_detail_window.py:428-435 | A run completes exactly when it reached the submission and the submission passed, and exactly then it shows the success box |
| `HomeworkDetail.SessionCallsShaped` | interface/mystat_interface.py:65-82 | The session's own calls (`api == CoreApi`) have the shapes the run lemmas assume: the checks send only GETs, the upload no submission, the submission one POST |
| `HomeworkDetail.CheckCallGets` | interface/mystat_interface.py:65-69 | The session's token check sends only GET requests |
| `HomeworkDetail.FileTokenCallGets` | interface/mystat_interface.py:71-76 | The session's file-token call sends only GET requests |
| `HomeworkDetail.SubmitCallShape` | core.py:195-213 | With a token held, the session's submission sends its one request and passes exactly when that is answered 200 or 201 |
| `HomeworkDetail.FileSubmission` | widgets/homework_detail_window.py:407-430 | With a file, a run that reached the submission submits the uploaded link, which is truthy, and passes exactly when the server answers it 200 or 201 |
| `HomeworkDetail.SessionRunFollowsPlan` | widgets/homework_detail_window.py:398-435 | With the core's own functions, the session's run follows the plan |
| `HomeworkDetail.FileBundle` | widgets/homework_detail_window.py:408-418 | Makes the session's file-token call and sends exactly its requests. The token, directory, steps and failure box are `BundleFrom` of that call's result. A failure ends on a failed step |
| `HomeworkDetail.AttachFile` | widgets/homework_detail_window.py:407-426 | Makes the file-token call, then the upload with the returned token and directory only when the bundle passed. The requests, steps, file URL and failure are `AttachFrom` of those results, so a failed file token sends no upload |
| `HomeworkDetail.Finish` | widgets/homework_detail_window.py:428-435 | Makes the session's submission with the homework id, file URL and answer text and sends exactly its requests. The step's boolean is the submission's `ok`. The box is "Успех" with the message on success and "Ошибка" otherwise |
| `HomeworkDetail.AfterAttach` | widgets/homework_detail_window.py:420-435 | After the file half: its failure box and no request, or the submission of the uploaded link |
| `HomeworkDetail.ProceedWithFile` | widgets/homework_detail_window.py:407-435 | With a file: the file half, then the submission of its link only when every file step passed. The requests, steps and box are those of the run over the session's calls; the run completes exactly when `accepted` |
| `HomeworkDetail.Proceed` | widgets/homework_detail_window.py:407-435 | After a passed check: the file steps only with a file selected, then the submission (with None as file URL without a file) |
| `HomeworkDetail.Deliver` | widgets/homework_detail_window.py:398-438 | The token check first. A failed check sends only the check's requests and shows "Ошибка авторизации" or the error. Otherwise the rest runs. The requests, steps and box are `SubmissionRun` of the session's calls, and `accepted` is exactly whether the run completed |
| `HomeworkDetail.HomeworkDetailWindow.constructor` | widgets/homework_detail_window.py:11-15 | A new dialog has no client and no selected file, and has shown and emitted nothing |
| `HomeworkDetail.HomeworkDetailWindow.SelectFile` | widgets/homework_detail_window.py:371-382 | A chosen path replaces the selection and labels it by its base name; a cancelled dialog changes nothing |
| `HomeworkDetail.HomeworkDetailWindow.CalculateDaysLeft` | widgets/homework_detail_window.py:283-328 | The loop tries the formats in order and stops at the first that parses; the text is the corrected days-left text of the deadline (calendar days, see Findings) |
| `HomeworkDetail.HomeworkDetailWindow.SubmitHomework` | widgets/homework_detail_window.py:384-438 | No file and blank text, no client, or no id: a warning and no request. Otherwise the session sends exactly the run's requests over its calls, starting with the token check. With the core's own functions the steps follow the plan. Exactly one message box is shown. The homework is emitted and the dialog closed exactly when the run completed |
| `HomeworkDetail.HomeworkDetailWindow.Send` | widgets/homework_detail_window.py:398-438 | The part past the guards: `Deliver`'s run, recorded in the dialog's trace and boxes, emitting and closing exactly when it completed |
| `HomeworkDetail.HomeworkDetailWindow.DownloadFile` | widgets/homework_detail_window.py:343-358 | A cancelled folder dialog does nothing; otherwise the file is saved as `<folder>/<safe theme><extension>` and the outcome is shown; without a token the "Нет токена авторизации" error is shown and nothing is sent |
| `HomeworkDetail.HomeworkDetailWindow.OpenTaskFile` | widgets/homework_detail_window.py:331-341 | No task file or no client: a warning and no request |
| `HomeworkList.Subjects` | widgets/homework_widget.py:242 | Each task's subject is its `name_spec`, "Не указан" when missing |
| `HomeworkList.First` | widgets/homework_widget.py:243 | The first occurrence of a subject is where it first appears |
| `HomeworkList.DistinctSpec` | widgets/homework_widget.py:241-245 | The distinct subjects are exactly the subjects met, each once, in order of first appearance |
| `HomeworkList.CollectSubjects` | widgets/homework_widget.py:241-245 | The loop adds each subject to the set and the filter the first time it is met |
| `HomeworkList.GridPlacement` | widgets/homework_widget.py:299-304 | Card i is task i; no two cards share a cell, and at most 4 columns are used |
| `HomeworkList.OfSubjectExactly` | widgets/homework_widget.py:282-283 | Filtering keeps exactly the tasks whose subject is the chosen one |
| `HomeworkList.HomeworkWidget.constructor` | widgets/homework_widget.py:8-13 | A new page has no data, no subjects, only "Предмет" in the filter and no cards |
| `HomeworkList.HomeworkWidget.DisplayAllHomework` | widgets/homework_widget.py:286-309 | A falsy list is a no-op; otherwise the grid is one card per task in row i // 4 and column i % 4, and the label shows their number |
| `HomeworkList.HomeworkWidget.UpdateData` | widgets/homework_widget.py:225-247 | Falsy input changes nothing. Otherwise the data is stored and the filter becomes "Предмет" followed by each subject once, in first-appearance order. The tasks are then shown |
| `HomeworkList.HomeworkWidget.FilterBySubject` | widgets/homework_widget.py:275-284 | "Предмет" (or no data) shows every task; any other subject shows exactly its tasks, in order |
| `HomeworkList.StatusColours` | widgets/homework_widget.py:250-273 | Corrected status (calendar days, see Findings): grey exactly when no deadline is read; otherwise red, orange and green exactly for a deadline before, on and after today |
| `HomeworkList.DueTodayCardsRed` | widgets/homework_widget.py:258-269 | After midnight, any card due today reads red, overdue by one day, as written, and orange "Сегодня" when corrected |
| `HomeworkList.DottedToday` | widgets/homework_widget.py:258-260 | "20.05.2024" reads as 20 May 2024 |
| `HomeworkList.DueTodayCardRed` | widgets/homework_widget.py:250-269 | A task due "20.05.2024" seen at noon that day: red and overdue as written, orange "Сегодня" when corrected |
| `Calendar.Lessons` | widgets/calendar_widget.py:276-280 | The day's schedule entries are no more than all entries |
| `Calendar.LessonsExactly` | widgets/calendar_widget.py:276-280 | A schedule entry is listed exactly when it is a dict whose `date` equals the day's `yyyy-MM-dd` text |
| `Calendar.TasksDueExactly` | widgets/calendar_widget.py:282-288 | A homework entry is listed exactly when its `due_date` is non-empty and starts with the day's text |
| `Calendar.TimeText` | widgets/calendar_widget.py:299-301 | The time is "start - finish" when both are present, and exactly otherwise the fixed "not specified" text |
| `Calendar.Icon` | widgets/calendar_widget.py:317-322 | Overdue wins over completed, which wins over the plain task icon |
| `Calendar.EventListLength` | widgets/calendar_widget.py:274-294 | The list holds max(count, 1) items; the placeholder appears exactly when nothing matched |
| `Calendar.WeekRoundTrip` | widgets/calendar_widget.py:332-340 | A week back then forward, or forward then back, returns to the same day, and a week forward is 7 days later |
| `Calendar.ListLessons` | widgets/calendar_widget.py:276-280 | The schedule loop appends the day's lessons in order and counts them |
| `Calendar.ListTasks` | widgets/calendar_widget.py:282-288 | The homework loop appends the day's homework in order and counts it |
| `Calendar.ListEvents` | widgets/calendar_widget.py:271-294 | The list is the lessons, then the homework, or the single placeholder; the count is their number |
| `Calendar.CalendarWidget.constructor` | widgets/calendar_widget.py:10-261 | A new calendar stores empty lists and has today selected. Building the panel ends with `on_date_selected`, so the list is the day's events: the single placeholder, with a count of 0 |
| `Calendar.CalendarWidget.UpdateEventsForDate` | widgets/calendar_widget.py:270-294 | The list and count are rebuilt for the day's `yyyy-MM-dd` text |
| `Calendar.CalendarWidget.OnDateSelected` | widgets/calendar_widget.py:265-268 | The list is rebuilt for the selected day |
| `Calendar.CalendarWidget.GoToPreviousWeek` | widgets/calendar_widget.py:332-335 | The day seven days earlier is selected and its list and count shown |
| `Calendar.CalendarWidget.GoToNextWeek` | widgets/calendar_widget.py:337-340 | The day seven days later is selected and its list and count shown |
| `Calendar.CalendarWidget.UpdateData` | widgets/calendar_widget.py:347-353 | Only truthy arguments replace the stored schedule and homework; the list and the "Найдено событий" count are then rebuilt |
| `Attendance.FallbackDateShape` | widgets/attendance_widget.py:81 | The fallback date is the year, then the month and day each left-padded with zeros to 2 characters, never cut, separated by dashes |
| `Attendance.FallbackDateLayout` | widgets/attendance_widget.py:81 | With one- or two-character month and day, the fallback is laid out as `year-MM-DD` |
| `Attendance.BareVisitRow` | widgets/attendance_widget.py:81-84 | A visit without fields shows the fallback date, an empty subject, "-" and an empty theme |
| `Attendance.VisitRows` | widgets/attendance_widget.py:78 | A day has one row per visit |
| `Attendance.VisitRowsInOrder` | widgets/attendance_widget.py:78-89 | A day's rows are its visits' rows, in the order of the visits |
| `Attendance.RowCount` | widgets/attendance_widget.py:75-91 | The table gets exactly one row per visit across all years, months and days |
| `Attendance.AddVisits` | widgets/attendance_widget.py:78-91 | The visit loop appends one row per visit, in order |
| `Attendance.AddDays` | widgets/attendance_widget.py:77-91 | The day loop appends each day's rows in order |
| `Attendance.AddMonths` | widgets/attendance_widget.py:76-91 | The month loop appends each month's rows in order |
| `Attendance.AddYears` | widgets/attendance_widget.py:75-91 | The year loop appends each year's rows in order |
| `Attendance.AttendanceWidget.constructor` | widgets/attendance_widget.py:5-9 | A new widget has its table, empty |
| `Attendance.AttendanceWidget.UpdateData` | widgets/attendance_widget.py:65-91 | Falsy input or no table changes nothing. Otherwise the table is emptied, then refilled with the flattened rows when the input is a dict with `data`; its size is the total number of visits |
| `App.CountTasks` | main.py:580-583 | The task count is 0 unless the input is a non-empty dict with `data`, and then the number of its tasks |
| `App.OverdueExactly` | main.py:585-595 | The overdue tasks are exactly the tasks whose lower-cased status mentions "просрочено", "overdue" or "expired" |
| `App.OverdueBounded` | main.py:580-595 | The overdue count never exceeds the task count, and is 0 exactly when no task is overdue |
| `App.OverdueStep` | main.py:590-593 | Each task adds one to the count exactly when it is overdue |
| `App.CountOverdueTasks` | main.py:585-595 | The loop counts the overdue tasks |
| `App.PositiveMark` | main.py:628-633 | A grade contributes at most one mark, and only a positive one |
| `App.PositiveMarks` | main.py:627-635 | The kept marks are positive and no more than the grades |
| `App.PositiveMarksStep` | main.py:627-635 | Each grade adds its kept mark, if any, to the total and one to the count |
| `App.ReadMark` | main.py:628-635 | A grade's mark is kept exactly when it is a dict whose `mark` parses above 0 |
| `App.AddMark` | main.py:627-635 | One pass of the loop keeps the running total and count equal to the sum and number of the kept marks so far |
| `App.TotalMarks` | main.py:624-635 | The loop's total and count are the sum and number of the kept marks |
| `App.CalculateAverageGrade` | main.py:620-637 | The result is the average grade: 0.0 for anything but a non-empty list |
| `App.SumPositive` | main.py:637 | The sum of positive marks is positive |
| `App.AverageGradePositive` | main.py:620-637 | The average is above 0 exactly when the input is a list with some positive parseable mark |
| `App.AverageGradeBounds` | main.py:620-637 | When every kept mark lies within bounds, so does the average |
| `App.FillTable` | main.py:555-611 | The table loop produces one row per item of `items[:cap]`, in order |
| `App.TimeCell` | main.py:609-611 | The time cell is "start - finish" when both are present, and exactly otherwise empty |
| `App.TableCaps` | main.py:549-618 | Falsy input leaves each table as it was. The grades table holds the first min(n, 8) marks. The leaderboard holds the first min(n, 8) entries of `group.top`, and is emptied when either key is missing. The schedule holds the first min(n, 10) lessons of a list, and is emptied for anything else. All in order |
| `App.DashboardWidget.constructor` | main.py:275-278 | A new dashboard shows "-" in its stat labels and empty tables |
| `App.DashboardWidget.UpdateDashboardGrades` | main.py:549-562 | Falsy input is a no-op; otherwise the table is rebuilt from the first 8 marks |
| `App.DashboardWidget.UpdateDashboardLeaderboard` | main.py:564-578 | Falsy input is a no-op; otherwise the table is cleared and filled from the first 8 of `group.top` when both keys exist |
| `App.DashboardWidget.UpdateScheduleDisplay` | main.py:599-618 | Falsy input is a no-op; otherwise the table is cleared and filled from the first 10 entries of a list |
| `App.DashboardWidget.UpdateData` | main.py:523-547 | The task count, overdue count and average are refreshed; each table is refreshed only when its key is present |
| `App.CollectKeys` | main.py:746-766 | A key is present in the dashboard data exactly when its fetch returned a truthy value, and then maps to that value |
| `App.Collected` | main.py:748-766 | Each step stores the fetched value under its key only when it is truthy |
| `App.MainWindow.constructor` | main.py:656-712 | The main window keeps the session and builds its dashboard and calendar |
| `App.FetchRun` | main.py:744-766 | The fetches made so far carry the dashboard keys in order; all n were made when none raised, fewer otherwise |
| `App.FetchRunNoToken` | main.py:744-766 | Without a token no fetch raises or sends anything, and nothing is collected |
| `App.RaisedStops` | main.py:744-770 | Once a fetch raised, no later fetch is made: the run stays as it was |
| `App.MainWindow.Fetch` | main.py:748-764 | The result and the requests sent are those of the i-th accessor's call, with its default arguments, at the session's position; without a token it is None and sends nothing |
| `App.MainWindow.FetchInto` | main.py:748-766 | One step of the fetch run: the session sends that step's requests, `ok` says it did not raise, and the collected dict is that of the run so far |
| `App.MainWindow.FetchDashboardData` | main.py:744-770 | The fetched values and the requests sent are those of the five-fetch run (marks, leaderboard, homework, schedule, attendance). The data is built only when none raised, and then holds each truthy value under its key. Without a token it is empty and nothing is sent |
| `App.MainWindow.LoadDashboardData` | main.py:744-770 | The fetch run as above. The dashboard is updated with the collected data only when every fetch returned; a raised fetch leaves it unchanged |
| `App.MainWindow.LoadCalendarData` | main.py:804-811 | The schedule is fetched first and the homework only when it returned. The values and requests are those of the session's calls. The calendar is updated only when both returned and at least one is truthy, replacing only what is truthy and rebuilding the list and count; otherwise the list and count are kept |
| `App.LoginWindow.constructor` | main.py:20-63 | A new login window has shown nothing and opened no session |
| `App.LoginWindow.Login` | main.py:122-139 | An empty login or password is refused with a warning and no session. Otherwise a new session authenticates: success opens the main window on it and closes this one, and a rejection shows the error. A raised request error is returned as the exception, which escapes the handler, with nothing shown |
| `Dates.NextPrev` | widgets/calendar_widget.py:332-340 | Stepping a day forward and back, in either order, returns to the same day |
| `Dates.AddDaysInverse` | widgets/calendar_widget.py:332-340 | Adding n days and then -n days restores the date, for every n |
| `Dates.OrdinalForward` | widgets/calendar_widget.py:337-340 | The ordinal of a date n days later is n more |
| `Dates.OrdinalInjective` | widgets/homework_widget.py:260-262 | Distinct valid dates have distinct ordinals |
| `Dates.DaysUntil` | widgets/homework_detail_window.py:313-315 | The calendar difference is 0 exactly on the deadline's own day and positive exactly for a later deadline |
| `Dates.DaysDiffOneShort` | widgets/homework_detail_window.py:313-315 | `(due - now).days` is one day short of the calendar difference at every moment after midnight |
| `Dates.DueTodayAtNoon` | widgets/homework_widget.py:260-262 | A deadline of today read at noon comes out as -1 as written and 0 as a calendar difference |
| `Dates.IsoText` | widgets/calendar_widget.py:273 | `yyyy-MM-dd` for a year from 1 to 9999 is 10 characters with dashes at positions 4 and 7 |

## Left out

- HTTP, the file system and Qt are not modelled directly.
  - Every request is a value, and the reply is an oracle `net(n, request)`.
  - Opening, reading and writing files are oracles that return an error text or nothing.
  - `response.json()` and `json.loads` are the body carried by the response, or a `parseJson` oracle.
  - Dialogs become the chosen path, with "" for a cancelled dialog.
  - Styling, layouts, signals other than `homework_submitted`, and `QTimer` are not modelled.
- `float()`, `int()` and `strptime` are oracles. `strptime`'s calendar check is applied as `datetime`'s (years 1 to 9999, a valid day).
- Clocks: `datetime.now()` and `QDate.currentDate()` are parameters. `go_to_today` and the timer's `update_current_date` only read the clock, so they are not modelled.
- The texts of Python exceptions (`str(e)`) are stand-ins. Messages built with `:.1f` and `str()` are not rendered: the model keeps the numbers and JSON values.
- Where widget code would raise on malformed data (`.get` on a non-dict, iterating a number), the widget models read the defaults instead. The exception handlers around that code only print.
- Some values would make the code raise, or be rendered by `str()` or an f-string, when they are not strings. The model reads each of them as the empty text:
  - a `status` or `due_date` in the calendar (`Calendar.TasksDueExactly`, `Calendar.Icon`);
  - a task's `status` in the overdue count: main.py:591 applies `str()` to it, which the model does not render (`App.Overdue`, `App.OverdueExactly`);
  - a lesson's `started_at` or `finished_at` in the time cells: these are formatted with an f-string (`App.TimeCell`, `Calendar.TimeText`).
- Marks and averages are exact reals. Python's floats are not represented: rounding, `nan`, `inf` and values beyond double range are not modelled. This covers the average in core.py:69 (`Core.CalcAvrMark`), `App.AverageGrade` and the parse oracle behind the JSON numbers.
- `HomeworkDetail.BaseName`, `HomeworkDetail.PathJoin`: paths follow POSIX `os.path` (`/` as the only separator). On Windows, `ntpath.join` inserts `\` and also splits on it, which shows in the saved path and the download message.
- `Json.Lookup` returns the first entry with a key. Python's `json.loads` keeps the last one when a key is repeated. Objects with repeated keys are therefore read differently, and the model does not exclude them.
- `calculate_attendance` (main.py:639-648) is not modelled. `int((a/t)*100)` truncates a float, so it does not equal integer arithmetic. The attendance label is therefore not modelled either.
- `save_user_to_db`, `models.py` and the database engine are ORM persistence.
- The grades, leaderboard and schedule pages only render fields into cells. Their emptiness guards and time cell match the dashboard versions that are modelled. `load_data` and the loaders for these pages are not modelled: each is one guarded call to a modelled `update_data`. For the same reason the `MainWindow` constructor does not call `load_data`.
- QCalendarWidget clamps the selected date to its allowed range; that clamp is not modelled.
- `App.ScheduleRow`: the dashboard schedule table has three columns, and the code's fourth (teacher) cell falls outside it, so the model drops it.
- `Attendance.AttendanceWidget.UpdateData`: the table always exists once the widget is built, so the `not self.table` guard is modelled by a flag that is always true.
- `Core.GetSchedule`: the contract does not describe a truthy body that is not a dict. On such a body `.get` raises, and the function returns `Throw`.
- `Core.FileTokenReply`: the contract states the success case. The failure messages are read from the function body and from `Core.FileTokenMissingField`.
- `HomeworkDetail.HomeworkDetailWindow.OpenTaskFile`: the contract does not restate the download that follows both guards. That download is `DownloadFile`'s contract.
- `HomeworkDetail.DaysLeft`: the function's own contract states only the empty-deadline case. The full classification is `HomeworkDetail.DaysLeftCases`.
- `Session.MystatInterface.GetUserInfo`: the base64url decoder is strict. It refuses characters outside the alphabet and a pad before the last group. Python's `urlsafe_b64decode` skips such characters and stops at the first completed pad, so a payload segment with them yields claims in Python but None here.
- `str.isalnum` and `str.lower` cover ASCII and the basic Cyrillic block only.

## Findings

| source | as written | input that shows it | evidently intended | confidence | as-written member | corrected member |
|---|---|---|---|---|---|---|
| widgets/homework_detail_window.py:313-315 | `(due_date - datetime.now()).days` subtracts the current moment from midnight of the deadline, so the difference is one day short after 00:00 | deadline "20.05.2024", read at 12:00 on 20 May 2024: "Просрочено на 1 дней" | a deadline of today reads "Сегодня", and the days left are calendar days | high (not executed) | `HomeworkDetail.DaysLeftAsWritten`, shown by `HomeworkDetail.DueTodayReadsOverdue` | `HomeworkDetail.DaysLeft` with `Dates.DaysUntil` and `HomeworkDetail.DaysLeftToday` |
| widgets/homework_widget.py:261-262 | the same subtraction on the homework cards | task due "20.05.2024", seen at 12:00 that day: red "Просрочено: 1 дней" | orange "Сегодня" for a task due today | high (not executed) | `HomeworkList.StatusInfoAsWritten`, shown by `HomeworkList.DueTodayCardRed` | `HomeworkList.GetStatusInfo` with `HomeworkList.StatusColours` |
