/**
 * The session facade the widgets talk to (interface/mystat_interface.py): it
 * keeps the login, the campus and the session token, and forwards each call
 * to the API layer with the stored token, short-circuiting when no token is
 * held. `sent` records every request the session has issued; the reply to
 * the n-th request is `net(n, request)`.
 */
module Session {
  import opened Json
  import opened Text
  import opened Base64Url
  import opened Core

  const DefaultCampus: string := "aqtobe"
  const NoToken: string := "Нет токена авторизации"

  /**
   * `get_user_info` as a value: the middle segment of a three-segment token,
   * padded and base64url-decoded, then parsed as JSON by `parseJson`; None
   * (JNull) when there is no token, the segment count is wrong, or decoding
   * or parsing fails.
   */
  function UserInfo(token: Option<string>, parseJson: seq<Byte> -> Option<Json>): Json
  {
    if !Held(token) then JNull
    else
      var parts := Split(token.value, '.');
      if |parts| != 3 then JNull
      else
        match Decode(Pad(parts[1]))
        case None => JNull
        case Some(bytes) =>
          match parseJson(bytes)
          case None => JNull
          case Some(j) => j
  }

  /** Only a held token with exactly two dots can yield user information. */
  lemma UserInfoNeedsThreeSegments(token: Option<string>, parseJson: seq<Byte> -> Option<Json>)
    ensures UserInfo(token, parseJson) != JNull ==> Held(token) && Occurrences(token.value, '.') == 2
  {
    if Held(token) {
      SplitParts(token.value, '.');
    }
  }

  /**
   * A token issued as `header.payload.signature`, whose payload segment is
   * the unpadded base64url encoding of bytes that parse to `claims`, yields
   * exactly `claims`.
   */
  lemma UserInfoOfIssuedToken(header: string, claims: Json, bytes: seq<Byte>, signature: string,
                              parseJson: seq<Byte> -> Option<Json>)
    requires '.' !in header && '.' !in signature
    requires parseJson(bytes) == Some(claims)
    ensures UserInfo(Some(header + "." + EncodeNoPad(bytes) + "." + signature), parseJson) == claims
  {
    var payload := EncodeNoPad(bytes);
    NoDotInEncoding(bytes);
    SplitThreeParts(header, payload, signature, '.');
    DecodePadEncode(bytes);
  }

  /**
   * The API-layer functions behind the four calls of the homework submission:
   * the token check, the file token, the upload and the submission. A
   * session reaches them through its `api`, which the constructor sets to
   * `CoreApi`; contracts over a session's calls are stated over its `api`.
   */
  datatype Api = Api(
    checkToken: (Option<string>, string, Network, nat) -> Call<Outcome<Reported>>,
    fileToken: (Option<string>, string, Network, nat) -> Call<Outcome<Reported>>,
    upload: (string, Json, Json, Network, nat, string -> Option<string>) -> Call<Reported>,
    submit: (Option<string>, string, Json, Json, Json, Network, nat) -> Call<Reported>,
    marks: (Option<string>, string, Network, nat) -> Call<Outcome<Json>>,
    leaderboard: (Option<string>, string, Network, nat) -> Call<Outcome<Json>>,
    homework: (Option<string>, string, int, int, string, Network, nat) -> Call<Outcome<Json>>,
    schedule: (Option<string>, bool, Option<string>, string, Network, nat) -> Call<Outcome<Json>>,
    attendance: (Option<string>, string, string, Network, nat) -> Call<Outcome<Json>>)

  const CoreApi: Api := Api(Core.CheckTokenValidity, Core.GetFileToken, Core.UploadFileToStorage, Core.SubmitHomework,
                            Core.GetMarks, Core.GetLeaderboard, Core.GetHomework, Core.GetSchedule, Core.GetAttendance)

  /** What the session's `check_token_validity` returns and sends: the no-token failure, or the API call. */
  function CheckCall(api: Api, token: Option<string>, campus: string, net: Network, at: nat): Call<Outcome<Reported>>
  {
    if !Held(token) then Call(Return(Reported(false, JStr(NoToken))), [])
    else api.checkToken(token, campus, net, at)
  }

  /** What the session's `get_file_token` returns and sends. */
  function FileTokenCall(api: Api, token: Option<string>, campus: string, net: Network, at: nat): Call<Outcome<Reported>>
  {
    if !Held(token) then Call(Return(Reported(false, JStr(NoToken))), [])
    else api.fileToken(token, campus, net, at)
  }

  /** What the session's `submit_homework` returns and sends. */
  function SubmitCall(api: Api, token: Option<string>, campus: string, homeworkId: Json, fileUrl: Json, answerText: Json,
                      net: Network, at: nat): Call<Reported>
  {
    if !Held(token) then Call(Reported(false, JStr(NoToken)), [])
    else api.submit(token, campus, homeworkId, fileUrl, answerText, net, at)
  }

  class MystatInterface {
    const login: string
    const password: string
    const campus: string
    const net: Network
    const api: Api
    var token: Option<string>
    var sent: seq<Request>

    /** A new session holds no token and has sent nothing. */
    constructor (login: string, password: string, net: Network, campus: string := DefaultCampus)
      ensures this.login == login && this.password == password && this.campus == campus && this.net == net
      ensures token == None && sent == [] && api == CoreApi
    {
      this.login := login;
      this.password := password;
      this.campus := campus;
      this.net := net;
      api := CoreApi;
      token := None;
      sent := [];
    }

    /**
     * `authenticate`: logs in and, on success, stores the raw response text as
     * the token; on failure the token is left as it was.
     */
    method Authenticate() returns (r: Outcome<bool>)
      modifies this`token, this`sent
      ensures var c := GetAuth(login, password, net, |old(sent)|);
        sent == old(sent) + c.sent
        && (c.result.Throw? ==> r == Throw(c.result.error) && token == old(token))
        && (c.result.Return? && c.result.value.0 ==> r == Return(true) && token == c.result.value.1)
        && (c.result.Return? && !c.result.value.0 ==> r == Return(false) && token == old(token))
    {
      var c := GetAuth(login, password, net, |sent|);
      sent := sent + c.sent;
      match c.result
      case Throw(e) =>
        r := Throw(e);
      case Return(answer) =>
        if answer.0 {
          token := answer.1;
          r := Return(true);
        } else {
          r := Return(false);
        }
    }

    /** `get_user_info`: reads the token, pads the payload segment in place and decodes it. */
    method GetUserInfo(parseJson: seq<Byte> -> Option<Json>) returns (r: Json)
      ensures r == UserInfo(token, parseJson)
    {
      if !Held(token) {
        return JNull;
      }
      var parts := Split(token.value, '.');
      if |parts| != 3 {
        return JNull;
      }
      var payload := parts[1];
      var padding := |payload| % 4;
      if padding != 0 {
        payload := payload + seq(4 - padding, _ => '=');
      }
      assert payload == Pad(parts[1]);
      var decoded := Decode(payload);
      if decoded.None? {
        return JNull;
      }
      var data := parseJson(decoded.value);
      r := if data.Some? then data.value else JNull;
    }

    /** Runs one API call at the session's current position and logs what it sent. */
    method Record<T>(c: Call<T>) returns (r: T)
      modifies this`sent
      ensures sent == old(sent) + c.sent && r == c.result
    {
      sent := sent + c.sent;
      r := c.result;
    }

    method Marks() returns (r: Outcome<Json>)
      modifies this`sent
      ensures !Held(token) ==> r == Return(JNull) && sent == old(sent)
      ensures Held(token) ==> var c := api.marks(token, campus, net, |old(sent)|);
        r == c.result && sent == old(sent) + c.sent
    {
      if !Held(token) {
        return Return(JNull);
      }
      r := Record(api.marks(token, campus, net, |sent|));
    }

    /** `average_mark`: fetches the marks and averages the parseable ones. */
    method AverageMark(parse: string -> Option<real>) returns (r: Outcome<Option<real>>)
      modifies this`sent
      ensures !Held(token) ==> r == Return(None) && sent == old(sent)
      ensures Held(token) ==> var c := api.marks(token, campus, net, |old(sent)|);
        r == Core.AverageMark(c.result, parse) && sent == old(sent) + c.sent
    {
      if !Held(token) {
        return Return(None);
      }
      var fetched := Record(api.marks(token, campus, net, |sent|));
      r := CalcAvrMark(fetched, parse);
    }

    method Homework(status: int := 3, limit: int := 1000, sort: string := "-hw.time") returns (r: Outcome<Json>)
      modifies this`sent
      ensures !Held(token) ==> r == Return(JNull) && sent == old(sent)
      ensures Held(token) ==> var c := api.homework(token, campus, status, limit, sort, net, |old(sent)|);
        r == c.result && sent == old(sent) + c.sent
    {
      if !Held(token) {
        return Return(JNull);
      }
      r := Record(api.homework(token, campus, status, limit, sort, net, |sent|));
    }

    method Attendance(period: string := "month") returns (r: Outcome<Json>)
      modifies this`sent
      ensures !Held(token) ==> r == Return(JNull) && sent == old(sent)
      ensures Held(token) ==> var c := api.attendance(token, campus, period, net, |old(sent)|);
        r == c.result && sent == old(sent) + c.sent
    {
      if !Held(token) {
        return Return(JNull);
      }
      r := Record(api.attendance(token, campus, period, net, |sent|));
    }

    method Leaderboard() returns (r: Outcome<Json>)
      modifies this`sent
      ensures !Held(token) ==> r == Return(JNull) && sent == old(sent)
      ensures Held(token) ==> var c := api.leaderboard(token, campus, net, |old(sent)|);
        r == c.result && sent == old(sent) + c.sent
    {
      if !Held(token) {
        return Return(JNull);
      }
      r := Record(api.leaderboard(token, campus, net, |sent|));
    }

    /** `schedule(week, date)` calls `get_schedule(token, week, date, campus)`. */
    method Schedule(week: bool := true, date: Option<string> := None) returns (r: Outcome<Json>)
      modifies this`sent
      ensures !Held(token) ==> r == Return(JNull) && sent == old(sent)
      ensures Held(token) ==> var c := api.schedule(token, week, date, campus, net, |old(sent)|);
        r == c.result && sent == old(sent) + c.sent
    {
      if !Held(token) {
        return Return(JNull);
      }
      r := Record(api.schedule(token, week, date, campus, net, |sent|));
    }

    method DownloadHomeworkFile(fileUrl: string, savePath: string, save: (string, Response) -> Option<string>)
      returns (r: Reported)
      modifies this`sent
      ensures !Held(token) ==> r == Reported(false, JStr(NoToken)) && sent == old(sent)
      ensures Held(token) ==> var c := DownloadFile(fileUrl, savePath, token, net, |old(sent)|, save);
        r == c.result && sent == old(sent) + c.sent
    {
      if !Held(token) {
        return Reported(false, JStr(NoToken));
      }
      r := Record(DownloadFile(fileUrl, savePath, token, net, |sent|, save));
    }

    method CheckTokenValidity() returns (r: Outcome<Reported>)
      modifies this`sent
      ensures !Held(token) ==> r == Return(Reported(false, JStr(NoToken))) && sent == old(sent)
      ensures var c := CheckCall(api, token, campus, net, |old(sent)|);
        r == c.result && sent == old(sent) + c.sent
    {
      if !Held(token) {
        return Return(Reported(false, JStr(NoToken)));
      }
      r := Record(api.checkToken(token, campus, net, |sent|));
    }

    method GetFileToken() returns (r: Outcome<Reported>)
      modifies this`sent
      ensures !Held(token) ==> r == Return(Reported(false, JStr(NoToken))) && sent == old(sent)
      ensures var c := FileTokenCall(api, token, campus, net, |old(sent)|);
        r == c.result && sent == old(sent) + c.sent
    {
      if !Held(token) {
        return Return(Reported(false, JStr(NoToken)));
      }
      r := Record(api.fileToken(token, campus, net, |sent|));
    }

    /** The upload has no token guard: it is forwarded whatever the session holds. */
    method UploadFileToStorage(filePath: string, fileToken: Json, homeworkDirId: Json, read: string -> Option<string>)
      returns (r: Reported)
      modifies this`sent
      ensures var c := api.upload(filePath, fileToken, homeworkDirId, net, |old(sent)|, read);
        r == c.result && sent == old(sent) + c.sent
    {
      r := Record(api.upload(filePath, fileToken, homeworkDirId, net, |sent|, read));
    }

    method SubmitHomework(homeworkId: Json, fileUrl: Json := JNull, answerText: Json := JNull) returns (r: Reported)
      modifies this`sent
      ensures !Held(token) ==> r == Reported(false, JStr(NoToken)) && sent == old(sent)
      ensures var c := SubmitCall(api, token, campus, homeworkId, fileUrl, answerText, net, |old(sent)|);
        r == c.result && sent == old(sent) + c.sent
    {
      if !Held(token) {
        return Reported(false, JStr(NoToken));
      }
      r := Record(api.submit(token, campus, homeworkId, fileUrl, answerText, net, |sent|));
    }
  }
}
