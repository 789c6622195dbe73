/**
 * The client's API layer (core.py): each endpoint builds one request, hands
 * it to the network and reduces the answer either to a JSON tree (Python
 * `None` on failure) or to an `(ok, payload-or-message)` pair.
 *
 * The network is an oracle `net(n, request)` giving the reply to the n-th
 * request of the session; an operation started at position `at` numbers its
 * requests `at`, `at + 1`, ... and reports every request it issued, in order.
 * Exceptions the Python code does not catch become `Throw`.
 */
module Core {
  import opened Json
  import opened Text

  const BaseUrl: string := "https://mapi.itstep.org"
  const Language: string := "ru"
  const StorageUrl: string := "https://fsx3.itstep.org/api/v1/files"
  const UserAgent: string := "Mozilla/5.0 (Windows NT 10.0; Win64; x64) AppleWebKit/537.36 (KHTML, like Gecko) Chrome/91.0.4472.124 Safari/537.36"

  type Headers = seq<(string, string)>

  datatype Request =
    | HttpGet(url: string, headers: Headers, params: seq<(string, string)>)
    | HttpPostJson(url: string, headers: Headers, payload: Json)
      /** The multipart upload: `Authorization: Bearer <bearer>`, the file, and the form field `directory`. */
    | HttpPostFile(url: string, bearer: Json, userAgent: string, filePath: string, directory: Json)

  /** An HTTP answer; `body` is what `response.json()` yields, None where it raises. */
  datatype Response = Response(status: int, reason: string, text: string, body: Option<Json>)

  /** The outcome of sending a request: an answer, or the text of the exception `requests` raised. */
  datatype Reply = Answer(response: Response) | Failed(error: string)

  type Network = (nat, Request) -> Reply

  /** What an operation returned, with the requests it issued in order. */
  datatype Call<+T> = Call(result: T, sent: seq<Request>)

  /** A Python `(bool, value)` pair: success flag and payload or message. */
  datatype Reported = Reported(ok: bool, payload: Json)

  /** Stand-ins for the texts of exceptions raised inside the client itself. */
  const JsonDecodeError: string := "JSONDecodeError"
  const AttributeError: string := "AttributeError"
  const KeyError: string := "KeyError"
  const TypeError: string := "TypeError"

  /** A session token is used only when it is truthy: present and not empty. */
  predicate Held(token: Option<string>)
  {
    token.Some? && token.value != ""
  }

  function FixedHeaders(): Headers
  {
    [("accept", "application/json, text/plain, */*"),
     ("content-type", "application/json"),
     ("referer", "https://mystat.itstep.org/"),
     ("user-agent", UserAgent),
     ("x-language", Language),
     ("origin", "https://mystat.itstep.org"),
     ("access-control-request-method", "POST"),
     ("access-control-request-headers", "content-type")]
  }

  /** `_default_headers(token)`: the fixed headers, then `authorization` when the token is truthy. */
  function DefaultHeaders(token: Option<string>): Headers
  {
    if Held(token) then FixedHeaders() + [("authorization", "Bearer " + token.value)] else FixedHeaders()
  }

  /**
   * The `authorization` header is present exactly when the token is truthy,
   * and carries that token; every other header is the fixed one, whatever
   * the token.
   */
  lemma AuthorizationHeader(token: Option<string>, key: string)
    ensures Lookup(DefaultHeaders(token), "authorization")
         == (if Held(token) then Some("Bearer " + token.value) else None)
    ensures key != "authorization" ==> Lookup(DefaultHeaders(token), key) == Lookup(FixedHeaders(), key)
  {
    var fixed := FixedHeaders();
    assert Lookup(fixed, "authorization") == None by {
      forall i | 0 <= i < |fixed| ensures fixed[i].0 != "authorization" {
      }
    }
    if Held(token) {
      var extra := [("authorization", "Bearer " + token.value)];
      LookupAppend(fixed, extra, "authorization");
      LookupAppend(fixed, extra, key);
    }
  }

  function ApiUrl(campus: string, path: string): string
  {
    BaseUrl + "/v1/mystat/" + campus + path
  }

  /** `handle_response`: the parsed body on 200, None on every other status. */
  function HandleResponse(r: Response): (res: Outcome<Json>)
    ensures r.status == 200 ==> (res.Return? <==> r.body.Some?)
    ensures r.status == 200 && r.body.Some? ==> res == Return(r.body.value)
    ensures r.status != 200 ==> res == Return(JNull)
  {
    if r.status == 200 then
      match r.body
      case Some(j) => Return(j)
      case None => Throw(JsonDecodeError)
    else Return(JNull)
  }

  /** Sends one request and applies `handle_response`; a transport error propagates. */
  function Fetch(req: Request, net: Network, at: nat): (c: Call<Outcome<Json>>)
    ensures c.sent == [req]
  {
    match net(at, req)
    case Failed(e) => Call(Throw(e), [req])
    case Answer(r) => Call(HandleResponse(r), [req])
  }

  /** A successful fetch returns a non-None tree only when the server answered 200 with that tree. */
  lemma FetchSuccess(req: Request, net: Network, at: nat, j: Json)
    requires Fetch(req, net, at).result == Return(j) && j != JNull
    ensures net(at, req).Answer? && net(at, req).response.status == 200
    ensures net(at, req).response.body == Some(j)
  {
  }

  function LoginRequest(login: string, password: string): Request
  {
    HttpPostJson(BaseUrl + "/v1/mystat/auth/login", DefaultHeaders(None),
             JObj([("login", JStr(login)), ("password", JStr(password))]))
  }

  /**
   * `get_auth`: `(True, response text)` on 200 and `(False, None)` otherwise;
   * the body is never parsed, so the token is the raw text.
   */
  function GetAuth(login: string, password: string, net: Network, at: nat): (c: Call<Outcome<(bool, Option<string>)>>)
    ensures c.sent == [LoginRequest(login, password)]
    ensures c.result.Return? <==> net(at, LoginRequest(login, password)).Answer?
    ensures c.result.Return? ==>
      var r := net(at, LoginRequest(login, password)).response;
      c.result.value == (if r.status == 200 then (true, Some(r.text)) else (false, None))
  {
    var req := LoginRequest(login, password);
    match net(at, req)
    case Failed(e) => Call(Throw(e), [req])
    case Answer(r) => Call(Return(if r.status == 200 then (true, Some(r.text)) else (false, None)), [req])
  }

  function MarksRequest(token: Option<string>, campus: string): Request
  {
    HttpGet(ApiUrl(campus, "/statistic/marks"), DefaultHeaders(token), [])
  }

  function AttendanceRequest(token: Option<string>, campus: string, period: string): Request
  {
    HttpGet(ApiUrl(campus, "/statistic/attendance"), DefaultHeaders(token), [("period", period)])
  }

  function LeaderboardRequest(token: Option<string>, campus: string): Request
  {
    HttpGet(ApiUrl(campus, "/progress/leader-table"), DefaultHeaders(token), [])
  }

  /** `requests` sends integer parameters in decimal. */
  function HomeworkRequest(token: Option<string>, campus: string, status: int, limit: int, sort: string): Request
  {
    HttpGet(ApiUrl(campus, "/homework/list"), DefaultHeaders(token),
        [("status", IntToString(status)), ("limit", IntToString(limit)), ("sort", sort)])
  }

  /** `date or ''`: an absent or empty date filters nothing. */
  function DateFilter(date: Option<string>): (f: string)
    ensures f == (if date.Some? then date.value else "")
  {
    if date.Some? && date.value != "" then date.value else ""
  }

  function ScheduleRequest(token: Option<string>, week: bool, date: Option<string>, campus: string): Request
  {
    HttpGet(ApiUrl(campus, "/schedule/get-month?type=" + (if week then "week" else "month")
                       + "&date_filter=" + DateFilter(date)),
        DefaultHeaders(token), [])
  }

  function FileTokenRequest(token: Option<string>, campus: string): Request
  {
    HttpGet(ApiUrl(campus, "/user/file-token"), DefaultHeaders(token), [])
  }

  /** The upload is authorised with the file token; the session token plays no part. */
  function UploadRequest(filePath: string, fileToken: Json, homeworkDirId: Json): Request
  {
    HttpPostFile(StorageUrl, fileToken, UserAgent, filePath, homeworkDirId)
  }

  function SubmitRequest(token: Option<string>, campus: string, homeworkId: Json, fileUrl: Json, answerText: Json): Request
  {
    HttpPostJson(ApiUrl(campus, "/homework/create"), DefaultHeaders(token),
             JObj([("id", homeworkId), ("answerText", answerText), ("filename", fileUrl)]))
  }

  /** Downloads carry the default headers only when a token is held, and no headers otherwise. */
  function DownloadRequest(fileUrl: string, token: Option<string>): Request
  {
    HttpGet(fileUrl, if Held(token) then DefaultHeaders(token) else [], [])
  }

  function GetMarks(token: Option<string>, campus: string, net: Network, at: nat): Call<Outcome<Json>>
  {
    Fetch(MarksRequest(token, campus), net, at)
  }

  function GetAttendance(token: Option<string>, campus: string, period: string, net: Network, at: nat): Call<Outcome<Json>>
  {
    Fetch(AttendanceRequest(token, campus, period), net, at)
  }

  function GetLeaderboard(token: Option<string>, campus: string, net: Network, at: nat): Call<Outcome<Json>>
  {
    Fetch(LeaderboardRequest(token, campus), net, at)
  }

  function GetHomework(token: Option<string>, campus: string, status: int, limit: int, sort: string,
                       net: Network, at: nat): Call<Outcome<Json>>
  {
    Fetch(HomeworkRequest(token, campus, status, limit, sort), net, at)
  }

  /**
   * `get_schedule`: a truthy body is unwrapped to its `data` field when it
   * has one and returned whole otherwise (`.get` on a list raises); a failed
   * or empty fetch gives None.
   */
  function GetSchedule(token: Option<string>, week: bool, date: Option<string>, campus: string,
                       net: Network, at: nat): (c: Call<Outcome<Json>>)
    ensures c.sent == [ScheduleRequest(token, week, date, campus)]
    ensures var f := Fetch(ScheduleRequest(token, week, date, campus), net, at).result;
      (f.Throw? ==> c.result == f)
      && (f.Return? && !Truthy(f.value) ==> c.result == Return(JNull))
      && (f.Return? && f.value.JObj? && f.value != JObj([]) ==>
            c.result == Return(if HasKey(f.value, "data") then GetOr(f.value, "data", JNull) else f.value))
  {
    var req := ScheduleRequest(token, week, date, campus);
    var f := Fetch(req, net, at);
    match f.result
    case Throw(e) => Call(Throw(e), [req])
    case Return(data) =>
      if Truthy(data) then Call(Get(data, "data", data), [req]) else Call(Return(JNull), [req])
  }

  /** The schedule URL asks for `type=week` exactly when `week` is set, and filters by the date or by nothing. */
  lemma ScheduleUrl(token: Option<string>, week: bool, date: Option<string>, campus: string)
    ensures var u := ScheduleRequest(token, week, date, campus).url;
      var prefix := ApiUrl(campus, "/schedule/get-month?type=");
      StartsWith(u, prefix)
      && u[|prefix|..] == (if week then "week" else "month") + "&date_filter=" + (if date.Some? then date.value else "")
  {
    var prefix := ApiUrl(campus, "/schedule/get-month?type=");
    var u := ScheduleRequest(token, week, date, campus).url;
    assert u == prefix + ((if week then "week" else "month") + "&date_filter=" + DateFilter(date));
  }

  // ---- calc_avr_mark ----

  /** `float(item['mark'])` for an item that is a dict with a `mark`, as a zero- or one-element list. */
  function MarkOf(item: Json, parse: string -> Option<real>): (m: seq<real>)
    ensures |m| <= 1
  {
    if item.JObj? && HasKey(item, "mark") then
      match ToFloat(GetOr(item, "mark", JNull), parse)
      case Some(v) => [v]
      case None => []
    else []
  }

  /** The marks `calc_avr_mark` collects, in order: unparseable entries are skipped. */
  function ParsedMarks(items: seq<Json>, parse: string -> Option<real>): seq<real>
  {
    if items == [] then [] else ParsedMarks(items[..|items| - 1], parse) + MarkOf(items[|items| - 1], parse)
  }

  function Sum(xs: seq<real>): real
  {
    if xs == [] then 0.0 else Sum(xs[..|xs| - 1]) + xs[|xs| - 1]
  }

  function Mean(xs: seq<real>): real
    requires xs != []
  {
    Sum(xs) / (|xs| as real)
  }

  /** The result of `calc_avr_mark` on the fetched marks. */
  function AverageMark(fetched: Outcome<Json>, parse: string -> Option<real>): Outcome<Option<real>>
  {
    match fetched
    case Throw(e) => Throw(e)
    case Return(data) =>
      if !Truthy(data) then Return(None)
      else
        match Iterate(data)
        case Throw(e) => Throw(e)
        case Return(items) =>
          var marks := ParsedMarks(items, parse);
          Return(if marks != [] then Some(Mean(marks)) else None)
  }

  /** The loop of `calc_avr_mark`: the parseable marks of the items, in order. */
  method CollectMarks(items: seq<Json>, parse: string -> Option<real>) returns (marks: seq<real>)
    ensures marks == ParsedMarks(items, parse)
  {
    marks := [];
    var i := 0;
    while i < |items|
      invariant 0 <= i <= |items|
      invariant marks == ParsedMarks(items[..i], parse)
    {
      var item := items[i];
      if item.JObj? && HasKey(item, "mark") {
        var v := ToFloat(GetOr(item, "mark", JNull), parse);
        if v.Some? {
          marks := marks + [v.value];
        }
      }
      assert items[..i + 1][..i] == items[..i];
      i := i + 1;
    }
    assert items[..|items|] == items;
  }

  /** `calc_avr_mark`: collects the parseable marks in a loop, then averages them. */
  method CalcAvrMark(fetched: Outcome<Json>, parse: string -> Option<real>) returns (r: Outcome<Option<real>>)
    ensures r == AverageMark(fetched, parse)
  {
    if fetched.Throw? {
      return Throw(fetched.error);
    }
    var data := fetched.value;
    if !Truthy(data) {
      return Return(None);
    }
    var it := Iterate(data);
    if it.Throw? {
      return Throw(it.error);
    }
    var marks := CollectMarks(it.value, parse);
    if marks != [] {
      r := Return(Some(Sum(marks) / (|marks| as real)));
    } else {
      r := Return(None);
    }
  }

  /** Collecting marks distributes over concatenation, so each entry contributes on its own. */
  lemma {:induction false} ParsedMarksAppend(a: seq<Json>, b: seq<Json>, parse: string -> Option<real>)
    ensures ParsedMarks(a + b, parse) == ParsedMarks(a, parse) + ParsedMarks(b, parse)
    decreases |b|
  {
    if b == [] {
      assert a + b == a;
    } else {
      var b' := b[..|b| - 1];
      assert (a + b)[..|a + b| - 1] == a + b';
      ParsedMarksAppend(a, b', parse);
    }
  }

  /** An entry whose mark does not parse is skipped rather than counted as 0. */
  lemma SkipUnparseable(a: seq<Json>, bad: Json, b: seq<Json>, parse: string -> Option<real>)
    requires MarkOf(bad, parse) == []
    ensures ParsedMarks(a + [bad] + b, parse) == ParsedMarks(a + b, parse)
  {
    assert [bad][..0] == [];
    assert ParsedMarks([bad], parse) == [];
    ParsedMarksAppend(a, [bad], parse);
    assert ParsedMarks(a + [bad], parse) == ParsedMarks(a, parse);
    ParsedMarksAppend(a + [bad], b, parse);
    ParsedMarksAppend(a, b, parse);
  }

  lemma {:induction false} SumBounds(xs: seq<real>, lo: real, hi: real)
    requires forall i :: 0 <= i < |xs| ==> lo <= xs[i] <= hi
    ensures (|xs| as real) * lo <= Sum(xs) <= (|xs| as real) * hi
    decreases |xs|
  {
    if xs != [] {
      SumBounds(xs[..|xs| - 1], lo, hi);
    }
  }

  /** The average lies between the smallest and largest bound of the marks. */
  lemma MeanBounds(xs: seq<real>, lo: real, hi: real)
    requires xs != []
    requires forall i :: 0 <= i < |xs| ==> lo <= xs[i] <= hi
    ensures lo <= Mean(xs) <= hi
  {
    SumBounds(xs, lo, hi);
    var n := |xs| as real;
    assert Mean(xs) * n == Sum(xs);
  }

  /** A worked case: marks 80, 90 and an unparseable "x" average to 85. */
  lemma AverageExample(parse: string -> Option<real>)
    requires parse("x") == None
    ensures AverageMark(Return(JArr([JObj([("mark", JNum(80.0))]), JObj([("mark", JNum(90.0))]),
                                     JObj([("mark", JStr("x"))])])), parse)
         == Return(Some(85.0))
  {
    var a, b, c := JObj([("mark", JNum(80.0))]), JObj([("mark", JNum(90.0))]), JObj([("mark", JStr("x"))]);
    var items := [a, b, c];
    assert items[..2] == [a, b] && [a, b][..1] == [a] && [a][..0] == [];
    assert MarkOf(a, parse) == [80.0] && MarkOf(b, parse) == [90.0];
    assert ToFloat(JStr("x"), parse) == None;
    assert MarkOf(c, parse) == [];
    assert ParsedMarks([a], parse) == [80.0];
    assert ParsedMarks([a, b], parse) == [80.0, 90.0];
    assert ParsedMarks(items, parse) == [80.0, 90.0];
    assert [80.0, 90.0][..1] == [80.0] && [80.0][..0] == [];
  }

  /** No average exists exactly when the marks are falsy or none of them parses. */
  lemma AverageNone(data: Json, parse: string -> Option<real>)
    requires Iterate(data).Return?
    ensures AverageMark(Return(data), parse) == Return(None)
        <==> !Truthy(data) || ParsedMarks(Iterate(data).value, parse) == []
  {
  }

  // ---- download_file ----

  /** `raise_for_status`: 4xx and 5xx answers raise. */
  predicate HttpError(status: int)
  {
    400 <= status < 600
  }

  function HttpErrorText(r: Response, url: string): string
  {
    IntToString(r.status) + (if r.status < 500 then " Client Error: " else " Server Error: ")
    + r.reason + " for url: " + url
  }

  /**
   * `download_file`: `(True, "Файл успешно скачан: <path>")` when the answer
   * is not an HTTP error and saving succeeds; every exception is reported as
   * `(False, "Ошибка скачивания файла: <error>")`. `save` stands for creating
   * the directory and writing the chunks: None on success, else the error.
   */
  function DownloadFile(fileUrl: string, savePath: string, token: Option<string>,
                        net: Network, at: nat, save: (string, Response) -> Option<string>): (c: Call<Reported>)
    ensures c.sent == [DownloadRequest(fileUrl, token)]
    ensures c.result.ok <==>
      var reply := net(at, DownloadRequest(fileUrl, token));
      reply.Answer? && !HttpError(reply.response.status) && save(savePath, reply.response).None?
    ensures c.result.ok ==> c.result.payload == JStr("Файл успешно скачан: " + savePath)
    ensures !c.result.ok ==> c.result.payload.JStr? && StartsWith(c.result.payload.s, "Ошибка скачивания файла: ")
  {
    var req := DownloadRequest(fileUrl, token);
    var failure := (e: string) => Reported(false, JStr("Ошибка скачивания файла: " + e));
    match net(at, req)
    case Failed(e) => Call(failure(e), [req])
    case Answer(r) =>
      if HttpError(r.status) then Call(failure(HttpErrorText(r, fileUrl)), [req])
      else
        match save(savePath, r)
        case Some(e) => Call(failure(e), [req])
        case None => Call(Reported(true, JStr("Файл успешно скачан: " + savePath)), [req])
  }

  // ---- check_token_validity ----

  /** The three outcomes of the token check on an answered request. */
  function TokenCheck(reply: Reply): (res: Outcome<Reported>)
    ensures res.Return? <==> reply.Answer?
    ensures res.Return? ==> (res.value.ok <==> reply.response.status == 200)
  {
    match reply
    case Failed(e) => Throw(e)
    case Answer(r) =>
      if r.status == 200 then Return(Reported(true, JStr("Токен действителен")))
      else if r.status == 401 then Return(Reported(false, JStr("Токен авторизации недействителен или истек")))
      else Return(Reported(false, JStr("Ошибка проверки токена: " + IntToString(r.status))))
  }

  /**
   * `check_token_validity`: an empty or absent token fails at once without a
   * request; otherwise one request to the marks endpoint decides.
   */
  function CheckTokenValidity(token: Option<string>, campus: string, net: Network, at: nat): (c: Call<Outcome<Reported>>)
    ensures c.sent == (if Held(token) then [MarksRequest(token, campus)] else [])
    ensures !Held(token) ==> c.result == Return(Reported(false, JStr("Токен не предоставлен")))
    ensures Held(token) ==> c.result == TokenCheck(net(at, MarksRequest(token, campus)))
  {
    if !Held(token) then Call(Return(Reported(false, JStr("Токен не предоставлен"))), [])
    else
      var req := MarksRequest(token, campus);
      Call(TokenCheck(net(at, req)), [req])
  }

  /** 401 is told apart from every other failure, and the other failures name their status. */
  lemma TokenCheckMessages(r: Response)
    ensures r.status == 401 ==> TokenCheck(Answer(r)) == Return(Reported(false, JStr("Токен авторизации недействителен или истек")))
    ensures r.status != 200 && r.status != 401 ==>
      TokenCheck(Answer(r)) == Return(Reported(false, JStr("Ошибка проверки токена: " + IntToString(r.status))))
    ensures TokenCheck(Answer(r)).value.payload != JStr("Токен не предоставлен")
  {
  }

  // ---- get_file_token ----

  /** The answer to the file-token request, reduced as `get_file_token` does after a passed check. */
  function FileTokenReply(reply: Reply): (res: Outcome<Reported>)
    ensures res.Return? && res.value.ok ==>
      reply.Answer? && reply.response.status == 200 && reply.response.body.Some?
      && var body := reply.response.body.value;
      body.JObj? && Truthy(GetOr(body, "token", JStr("")))
      && Truthy(GetOr(GetOr(body, "directories", JObj([])), "homeworkDirId", JStr("")))
      && res.value.payload == JObj([("token", GetOr(body, "token", JStr(""))),
                                    ("homework_dir_id", GetOr(GetOr(body, "directories", JObj([])), "homeworkDirId", JStr("")))])
  {
    match reply
    case Failed(e) => Throw(e)
    case Answer(r) =>
      if r.status == 200 then
        match r.body
        case None => Throw(JsonDecodeError)
        case Some(result) =>
          match Get(result, "token", JStr(""))
          case Throw(e) => Throw(e)
          case Return(fileToken) =>
            match Get(result, "directories", JObj([]))
            case Throw(e) => Throw(e)
            case Return(directories) =>
              match Get(directories, "homeworkDirId", JStr(""))
              case Throw(e) => Throw(e)
              case Return(dirId) =>
                if Truthy(fileToken) && Truthy(dirId) then
                  Return(Reported(true, JObj([("token", fileToken), ("homework_dir_id", dirId)])))
                else Return(Reported(false, JStr("Токен файла или директория не найдены в ответе")))
      else if r.status == 401 then
        Return(Reported(false, JStr("Токен авторизации недействителен или истек. Попробуйте войти заново.")))
      else Return(Reported(false, JStr("Ошибка получения токена: " + IntToString(r.status) + " - " + r.text)))
  }

  /**
   * `get_file_token`: the token check runs first and its failure is returned
   * unchanged; only after it passes is the file token requested.
   */
  function GetFileToken(token: Option<string>, campus: string, net: Network, at: nat): (c: Call<Outcome<Reported>>)
  {
    if !Held(token) then Call(Return(Reported(false, JStr("Токен не предоставлен"))), [])
    else
      var check := CheckTokenValidity(token, campus, net, at);
      if check.result.Throw? || !check.result.value.ok then check
      else
        var req := FileTokenRequest(token, campus);
        Call(FileTokenReply(net(at + |check.sent|, req)), check.sent + [req])
  }

  /** A failed or raising token check is what `get_file_token` reports, and no file-token request follows. */
  lemma FileTokenNeedsCheck(token: Option<string>, campus: string, net: Network, at: nat)
    requires Held(token)
    ensures var check := CheckTokenValidity(token, campus, net, at);
      var c := GetFileToken(token, campus, net, at);
      (check.result.Throw? || !check.result.value.ok ==> c == check)
      && (check.result.Return? && check.result.value.ok ==>
            c.sent == [MarksRequest(token, campus), FileTokenRequest(token, campus)]
            && c.result == FileTokenReply(net(at + 1, FileTokenRequest(token, campus))))
  {
  }

  /** A 200 answer missing either field is a failure, with the fixed message. */
  lemma FileTokenMissingField(r: Response)
    requires r.status == 200 && r.body.Some? && r.body.value.JObj?
    requires GetOr(r.body.value, "directories", JObj([])).JObj?
    requires !Truthy(GetOr(r.body.value, "token", JStr("")))
          || !Truthy(GetOr(GetOr(r.body.value, "directories", JObj([])), "homeworkDirId", JStr("")))
    ensures FileTokenReply(Answer(r)) == Return(Reported(false, JStr("Токен файла или директория не найдены в ответе")))
  {
  }

  // ---- upload_file_to_storage ----

  /** The answer to the upload, reduced as `upload_file_to_storage` does inside its `try`. */
  function UploadReply(reply: Reply): (res: Reported)
    ensures res.ok <==>
      reply.Answer? && reply.response.status == 200 && reply.response.body.Some?
      && var result := reply.response.body.value;
      result.JArr? && |result.items| > 0 && result.items[0].JObj?
      && Truthy(GetOr(result.items[0], "link", JStr("")))
    ensures res.ok ==> res.payload == GetOr(reply.response.body.value.items[0], "link", JStr(""))
  {
    var failure := (e: string) => Reported(false, JStr("Ошибка загрузки файла: " + e));
    match reply
    case Failed(e) => failure(e)
    case Answer(r) =>
      if r.status != 200 then failure(IntToString(r.status) + " - " + r.text)
      else
        match r.body
        case None => failure(JsonDecodeError)
        case Some(result) =>
          if !Truthy(result) then Reported(false, JStr("Неожиданный ответ от сервера"))
          else
            match result
            case JArr(xs) =>
              if xs[0].JObj? then
                var link := GetOr(xs[0], "link", JStr(""));
                if Truthy(link) then Reported(true, link)
                else Reported(false, JStr("URL файла не найден в ответе"))
              else failure(AttributeError)
            case JObj(_) => failure(KeyError)
            case JStr(_) => failure(AttributeError)
            case _ => failure(TypeError)
  }

  /**
   * `upload_file_to_storage`: opens the file (`read` gives the error, if
   * any), posts it with the file token, and folds every exception into
   * `(False, message)`.
   */
  function UploadFileToStorage(filePath: string, fileToken: Json, homeworkDirId: Json,
                               net: Network, at: nat, read: string -> Option<string>): (c: Call<Reported>)
    ensures c.sent == (if read(filePath).None? then [UploadRequest(filePath, fileToken, homeworkDirId)] else [])
    ensures read(filePath).Some? ==> !c.result.ok
    ensures read(filePath).None? ==> c.result == UploadReply(net(at, UploadRequest(filePath, fileToken, homeworkDirId)))
  {
    if read(filePath).Some? then
      Call(Reported(false, JStr("Ошибка загрузки файла: " + read(filePath).value)), [])
    else
      var req := UploadRequest(filePath, fileToken, homeworkDirId);
      Call(UploadReply(net(at, req)), [req])
  }

  // ---- submit_homework ----

  /**
   * `submit_homework`: posts `{id, answerText, filename}` and succeeds
   * exactly on 200 or 201; every other answer and every exception is a
   * failure whose message starts "Ошибка отправки задания: ".
   */
  function SubmitHomework(token: Option<string>, campus: string, homeworkId: Json, fileUrl: Json, answerText: Json,
                          net: Network, at: nat): (c: Call<Reported>)
    ensures c.sent == [SubmitRequest(token, campus, homeworkId, fileUrl, answerText)]
    ensures c.result.ok <==>
      var reply := net(at, SubmitRequest(token, campus, homeworkId, fileUrl, answerText));
      reply.Answer? && reply.response.status in {200, 201}
    ensures c.result.ok ==> c.result.payload == JStr("Задание успешно отправлено на проверку")
    ensures !c.result.ok ==> c.result.payload.JStr? && StartsWith(c.result.payload.s, "Ошибка отправки задания: ")
  {
    var req := SubmitRequest(token, campus, homeworkId, fileUrl, answerText);
    match net(at, req)
    case Failed(e) => Call(Reported(false, JStr("Ошибка отправки задания: " + e)), [req])
    case Answer(r) =>
      if r.status == 200 || r.status == 201 then Call(Reported(true, JStr("Задание успешно отправлено на проверку")), [req])
      else Call(Reported(false, JStr("Ошибка отправки задания: " + IntToString(r.status) + " - " + r.text)), [req])
  }

  /** The submitted payload carries the three fields under their API names. */
  lemma SubmitPayload(token: Option<string>, campus: string, homeworkId: Json, fileUrl: Json, answerText: Json)
    ensures var p := SubmitRequest(token, campus, homeworkId, fileUrl, answerText).payload;
      GetOr(p, "id", JNull) == homeworkId && GetOr(p, "answerText", JNull) == answerText
      && GetOr(p, "filename", JNull) == fileUrl && Len(p) == 3
  {
    var fs := [("id", homeworkId), ("answerText", answerText), ("filename", fileUrl)];
    assert fs[1..] == [("answerText", answerText), ("filename", fileUrl)];
    assert fs[1..][1..] == [("filename", fileUrl)];
    assert "id" != "answerText" && "id" != "filename" && "answerText" != "filename" by {
      assert |"id"| == 2 && |"filename"| == 8 && "answerText"[0] != "filename"[0];
    }
    assert Lookup(fs, "answerText") == Lookup(fs[1..], "answerText") == Some(answerText);
    assert Lookup(fs, "filename") == Lookup(fs[1..], "filename") == Lookup(fs[1..][1..], "filename");
  }
}
