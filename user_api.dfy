/** The staff-management client of the web front end (services/userApi.ts):
    how request bodies are shaped and how HTTP replies are classified into a
    value or a thrown error. The `fetch` itself is left out; a reply is given
    as its status, its content type and its body text, and `JSON.parse` is a
    parameter that returns `None` when it throws. */
module UserApi {
  import opened Wrappers
  import Ascii
  import UserController
  import UserRepository
  import UserService

  /** A JSON value, as far as the classification looks into it. */
  datatype Json = JStr(s: string) | JObject(fields: map<string, Json>) | JNull | JOther

  /** An HTTP reply: status, the `content-type` header (absent as `None`) and
      the body text. */
  datatype Reply = Reply(status: int, contentType: Option<string>, body: string)

  /** `UserApiError`: a message, the status and the decoded payload. */
  datatype ApiError = ApiError(message: string, status: int, payload: Json)

  const DEFAULT_PASSWORD := "P@ssw0rd"
  const CREATE_FAILED := "Failed to create user"
  const DELETE_FAILED := "Failed to delete user."
  const UPDATE_FAILED := "Failed to update user."

  /** `value?.key`: present only when the value is an object holding the key. */
  function Field(j: Json, key: string): (f: Option<Json>)
    ensures f.Some? <==> j.JObject? && key in j.fields
    ensures f.Some? ==> f.value == j.fields[key]
  {
    if j.JObject? && key in j.fields then Some(j.fields[key]) else None
  }

  /** `typeof value?.key === "string"`, with the string when it holds. */
  function StringField(j: Json, key: string): (f: Option<string>)
    ensures f.Some? <==> j.JObject? && key in j.fields && j.fields[key].JStr?
    ensures f.Some? ==> j.fields[key] == JStr(f.value)
  {
    match Field(j, key)
    case Some(JStr(s)) => Some(s)
    case _ => None
  }

  /** `isJsonResponse`: the content type contains "application/json". */
  predicate IsJsonResponse(contentType: Option<string>): (b: bool)
    ensures contentType.Some? && Ascii.StartsWith(contentType.value, "application/json") ==> b
    ensures b ==> contentType.Some? && |contentType.value| >= 16
  {
    contentType.Some? && (Ascii.ContainedIsShorter(contentType.value, "application/json");
                          Ascii.Contains(contentType.value, "application/json"))
  }

  /** `parseJsonBody`: null for a non-JSON content type or a body that does
      not parse; the parsed value otherwise. */
  function ParseJsonBody(r: Reply, parse: string -> Option<Json>): (j: Json)
    ensures !IsJsonResponse(r.contentType) ==> j == JNull
    ensures IsJsonResponse(r.contentType) && parse(r.body) == None ==> j == JNull
    ensures IsJsonResponse(r.contentType) && parse(r.body).Some? ==> j == parse(r.body).value
  {
    if !IsJsonResponse(r.contentType) then JNull
    else match parse(r.body)
      case None => JNull
      case Some(j) => j
  }

  /** The problem-details content type "application/problem+json" does not
      contain "application/json", so such a body is never decoded. */
  lemma ProblemJsonIsNotJson(contentType: string)
    requires contentType == "application/problem+json"
    ensures !IsJsonResponse(Some(contentType))
  {
    var t := "application/json";
    forall i | 0 <= i <= |contentType|
      ensures !Ascii.StartsWith(contentType[i..], t)
    {
      var w := contentType[i..];
      if i == 0 {
        assert w[12] != t[12];
      } else if i == 6 {
        assert w[1] != t[1];
      } else if i + |t| <= |contentType| {
        assert w[0] != t[0];
      }
    }
    Ascii.NotContained(contentType, t);
  }

  /** The `createUser` request body: the caller's fields with "password"
      replaced by the fixed default, whatever the caller supplied. */
  function CreateBody(userData: map<string, Json>): (body: map<string, Json>)
    ensures body.Keys == userData.Keys + {"password"}
    ensures body["password"] == JStr(DEFAULT_PASSWORD)
    ensures forall k :: k in userData && k != "password" ==> body[k] == userData[k]
  {
    userData["password" := JStr(DEFAULT_PASSWORD)]
  }

  /** Because the client always sends a non-empty password, the staff service
      never falls back to a generated one: every user created from the web
      front end starts with the same temporary password. */
  lemma FixedPasswordReachesProvider(userData: map<string, Json>, generated: string)
    ensures CreateBody(userData)["password"] == JStr(DEFAULT_PASSWORD)
    ensures UserService.TemporaryPassword(Some(DEFAULT_PASSWORD), generated) == DEFAULT_PASSWORD
  {
  }

  /** The error `res.json()` rejects with when a body does not parse. */
  const SYNTAX_ERROR := "SyntaxError"

  /** `createUser`: on a 2xx reply the decoded body, or the parse error when
      it does not decode (the content type is not looked at); otherwise an
      error whose message is the body's string `error`, the raw body when it
      is not JSON, or the default. */
  function CreateUserOutcome(r: Reply, parse: string -> Option<Json>): (o: Result<Json, string>)
    ensures o.Success? <==> 200 <= r.status < 300 && parse(r.body).Some?
    ensures o.Success? ==> o.value == parse(r.body).value
    ensures 200 <= r.status < 300 && parse(r.body) == None ==> o == Failure(SYNTAX_ERROR)
    ensures !(200 <= r.status < 300) && r.body == "" ==> o == Failure(CREATE_FAILED)
    ensures !(200 <= r.status < 300) && r.body != "" && parse(r.body) == None ==> o == Failure(r.body)
    ensures !(200 <= r.status < 300) && r.body != "" && parse(r.body).Some? ==>
      o == Failure(StringField(parse(r.body).value, "error").GetOr(CREATE_FAILED))
  {
    if 200 <= r.status < 300 then
      match parse(r.body)
      case None => Failure(SYNTAX_ERROR)
      case Some(j) => Success(j)
    else if r.body == "" then Failure(CREATE_FAILED)
    else match parse(r.body)
      case None => Failure(r.body)
      case Some(j) => Failure(StringField(j, "error").GetOr(CREATE_FAILED))
  }

  /** `deleteUser`: success needs status 200 and `result` equal to "ok"; a 403
      or 404 surfaces the payload's string `error`; every other reply throws
      the default message. */
  function DeleteUserOutcome(r: Reply, parse: string -> Option<Json>): (o: Result<Json, ApiError>)
    ensures var p := ParseJsonBody(r, parse);
      (o.Success? <==> r.status == 200 && Field(p, "result") == Some(JStr("ok")))
      && (o.Success? ==> o.value == p)
      && (o.Failure? ==> o.error.status == r.status && o.error.payload == p)
    ensures o.Failure? && o.error.message != DELETE_FAILED ==>
      (r.status == 403 || r.status == 404) &&
      StringField(ParseJsonBody(r, parse), "error") == Some(o.error.message)
  {
    var p := ParseJsonBody(r, parse);
    if r.status == 200 && Field(p, "result") == Some(JStr("ok")) then Success(p)
    else if (r.status == 403 || r.status == 404) && StringField(p, "error").Some? then
      Failure(ApiError(StringField(p, "error").value, r.status, p))
    else Failure(ApiError(DELETE_FAILED, r.status, p))
  }

  /** The `updateUser` request fields; password and role are optional. */
  datatype UpdatePayload = UpdatePayload(firstName: string, lastName: string, email: string,
                                         password: Option<string>, role: Option<string>)

  /** The `updateUser` request body: the three names always, password and
      role only when they are non-empty. */
  function UpdateBody(u: UpdatePayload): (body: map<string, string>)
    ensures body.Keys == {"firstName", "lastName", "email"}
                         + (if Truthy(u.password) then {"password"} else {})
                         + (if Truthy(u.role) then {"role"} else {})
    ensures body["firstName"] == u.firstName && body["lastName"] == u.lastName && body["email"] == u.email
    ensures "password" in body ==> body["password"] == u.password.value
    ensures "role" in body ==> body["role"] == u.role.value
  {
    var base := map["firstName" := u.firstName, "lastName" := u.lastName, "email" := u.email];
    var withPassword := if Truthy(u.password) then base["password" := u.password.value] else base;
    if Truthy(u.role) then withPassword["role" := u.role.value] else withPassword
  }

  /** `updateUser`: success needs status 200 and `result` "ok"; a 403 reads
      the payload's `error`, a 400, 404 or 422 reads its `status`; anything
      else throws the default message. */
  function UpdateUserOutcome(r: Reply, parse: string -> Option<Json>): (o: Result<Json, ApiError>)
    ensures var p := ParseJsonBody(r, parse);
      (o.Success? <==> r.status == 200 && Field(p, "result") == Some(JStr("ok")))
      && (o.Success? ==> o.value == p)
      && (o.Failure? ==> o.error.status == r.status && o.error.payload == p)
    ensures o.Failure? && r.status == 403 ==>
      o.error.message == StringField(ParseJsonBody(r, parse), "error").GetOr(UPDATE_FAILED)
    ensures o.Failure? && r.status in {400, 404, 422} ==>
      o.error.message == StringField(ParseJsonBody(r, parse), "status").GetOr(UPDATE_FAILED)
    ensures o.Failure? && r.status !in {400, 403, 404, 422} ==> o.error.message == UPDATE_FAILED
  {
    var p := ParseJsonBody(r, parse);
    if r.status == 200 && Field(p, "result") == Some(JStr("ok")) then Success(p)
    else if r.status == 403 && StringField(p, "error").Some? then
      Failure(ApiError(StringField(p, "error").value, r.status, p))
    else if (r.status == 400 || r.status == 404 || r.status == 422) && StringField(p, "status").Some? then
      Failure(ApiError(StringField(p, "status").value, r.status, p))
    else Failure(ApiError(UPDATE_FAILED, r.status, p))
  }

  /** The JSON a string map serialises to. */
  function JsonOf(m: map<string, string>): (j: Json)
    ensures j.JObject? && j.fields.Keys == m.Keys
    ensures forall k :: k in m ==> j.fields[k] == JStr(m[k])
  {
    JObject(map k | k in m :: JStr(m[k]))
  }

  /** The staff service reports a refused delete as {"result":"err",
      "status":message}; the client reads `error`, so every refusal, 404 and
      403 alike, reaches the user as the default message. */
  lemma {:induction false} DeleteHidesServiceMessage(e: UserRepository.RepoError, parse: string -> Option<Json>, text: string)
    requires e.status != 200
    requires parse(text) == Some(JsonOf(UserController.ResultResponse(Some(e)).body))
    ensures var r := UserController.ResultResponse(Some(e));
      DeleteUserOutcome(Reply(r.status, Some("application/json"), text), parse)
        == Failure(ApiError(DELETE_FAILED, e.status, JsonOf(r.body)))
  {
    var r := UserController.ResultResponse(Some(e));
    var reply := Reply(r.status, Some("application/json"), text);
    assert IsJsonResponse(reply.contentType) by {
      Ascii.ContainsAt("application/json", "application/json", 0);
    }
    var p := JsonOf(r.body);
    assert ParseJsonBody(reply, parse) == p;
    assert r.body.Keys == {"result", "status"};
    assert "error" !in p.fields;
  }

  /** The same refusal on update: a 404 shows the service's message, while a
      403 shows the default message because the client looks for `error`. */
  lemma {:induction false} UpdateShowsServiceMessageOn404Only(e: UserRepository.RepoError, parse: string -> Option<Json>, text: string)
    requires e.status == UserRepository.NOT_FOUND || e.status == UserRepository.FORBIDDEN
    requires parse(text) == Some(JsonOf(UserController.ResultResponse(Some(e)).body))
    ensures var r := UserController.ResultResponse(Some(e));
      var o := UpdateUserOutcome(Reply(r.status, Some("application/json"), text), parse);
      o.Failure? &&
      (e.status == UserRepository.NOT_FOUND ==> o.error.message == e.message) &&
      (e.status == UserRepository.FORBIDDEN ==> o.error.message == UPDATE_FAILED)
  {
    var r := UserController.ResultResponse(Some(e));
    var reply := Reply(r.status, Some("application/json"), text);
    assert IsJsonResponse(reply.contentType) by {
      Ascii.ContainsAt("application/json", "application/json", 0);
    }
    var p := JsonOf(r.body);
    assert ParseJsonBody(reply, parse) == p;
    assert r.body.Keys == {"result", "status"};
    assert "error" !in p.fields;
    assert p.fields["status"] == JStr(e.message);
  }
}
