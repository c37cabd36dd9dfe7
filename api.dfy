/** The request builder of the single-page client (`apiRequest` and the endpoint
    bindings built on it). The HTTP transport is not modelled: a request is the
    configuration handed to `fetch`, and what `fetch` and `response.json()` produced is
    given to `Outcome` as a `Response` value. */
module Api {
  import opened Common
  import FormEncoding

  const ApiBaseUrl := "http://127.0.0.1:8000"
  const JsonContentType := "application/json"
  const FormContentType := "application/x-www-form-urlencoded"

  type Headers = map<string, string>

  /** The `RequestInit` fields the bindings pass. */
  datatype Options = Options(httpMethod: Option<string>, headers: Option<Headers>, body: Option<string>)

  const NoOptions := Options(None, None, None)

  /** What `fetch(url, config)` is called with. */
  datatype Config = Config(url: string, httpMethod: Option<string>, headers: Headers, body: Option<string>)

  /** The headers record apiRequest starts from, before `options` are spread over it. */
  function DefaultHeaders(auth: bool, token: Option<string>): (h: Headers)
    ensures "Content-Type" in h && h["Content-Type"] == JsonContentType
    ensures "Authorization" in h <==> auth && Present(token)
    ensures "Authorization" in h ==> h["Authorization"] == "Bearer " + token.value
    ensures h.Keys <= {"Content-Type", "Authorization"}
  {
    var h := map["Content-Type" := JsonContentType];
    if auth && Present(token) then h["Authorization" := "Bearer " + token.value] else h
  }

  /** `{ headers, ...options }` at the URL `API_BASE_URL + endpoint`; `token` is what the
      browser storage holds under 'token'. */
  function BuildConfig(endpoint: string, options: Options, auth: bool, token: Option<string>): (c: Config)
    ensures c.url == ApiBaseUrl + endpoint
    ensures c.url[..|ApiBaseUrl|] == ApiBaseUrl && c.url[|ApiBaseUrl|..] == endpoint
    ensures options.headers.Some? ==> c.headers == options.headers.value
    ensures options.headers.None? ==> c.headers == DefaultHeaders(auth, token)
    ensures c.httpMethod == options.httpMethod && c.body == options.body
  {
    var defaults := DefaultHeaders(auth, token);
    Config(ApiBaseUrl + endpoint, options.httpMethod,
           if options.headers.Some? then options.headers.value else defaults,
           options.body)
  }

  /** A body as `response.json()` reads it: not JSON at all, or JSON with the optional
      `detail` field FastAPI puts in an error reply and the decoded value. */
  datatype Body<T> = NotJson(parseError: string) | Json(detail: Option<string>, data: T)

  /** What the transport produced: a rejected `fetch` (no reply), or a reply. */
  datatype Response<T> =
    | TransportFailure(message: string)
    | Reply(ok: bool, status: nat, body: Body<T>)

  function HttpErrorMessage(status: nat): string {
    "HTTP error! status: " + NatToString(status)
  }

  /** What `await apiRequest(...)` yields: the parsed body, or the message of the error
      it throws. */
  function Outcome<T>(r: Response<T>): (o: Result<T, string>)
    ensures r.TransportFailure? ==> o == Err(r.message)
    ensures r.Reply? && !r.ok && r.body.Json? && Present(r.body.detail) ==> o == Err(r.body.detail.value)
    ensures r.Reply? && !r.ok && !(r.body.Json? && Present(r.body.detail)) ==> o == Err(HttpErrorMessage(r.status))
    ensures r.Reply? && r.ok && r.body.NotJson? ==> o == Err(r.body.parseError)
    ensures o.Ok? <==> r.Reply? && r.ok && r.body.Json?
    ensures o.Ok? ==> o.value == r.body.data
  {
    match r
    case TransportFailure(m) => Err(m)
    case Reply(ok, status, body) =>
      if !ok then
        var detail := if body.Json? then body.detail else None;
        Err(Or(if detail.Some? then detail.value else "", HttpErrorMessage(status)))
      else
        match body
        case NotJson(e) => Err(e)
        case Json(_, data) => Ok(data)
  }

  /** A reply that is not OK fails whatever its body holds. */
  lemma NotOkNeverSucceeds<T>(status: nat, body: Body<T>)
    ensures Outcome(Reply(false, status, body)).Err?
  {
  }

  /** The fallback message names the status, and different statuses give different
      messages. */
  lemma HttpErrorMessageNamesStatus(s1: nat, s2: nat)
    ensures HttpErrorMessage(s1) == HttpErrorMessage(s2) ==> s1 == s2
  {
    var prefix := "HTTP error! status: ";
    if HttpErrorMessage(s1) == HttpErrorMessage(s2) {
      assert HttpErrorMessage(s1)[|prefix|..] == NatToString(s1);
      assert HttpErrorMessage(s2)[|prefix|..] == NatToString(s2);
      NatToStringInjective(s1, s2);
    }
  }

  // ----- authAPI -----

  /** The body `authAPI.login` sends: `username`, then `password`, form-encoded. */
  function LoginForm(username: string, password: string): string {
    FormEncoding.Serialize([("username", username), ("password", password)])
  }

  /** The login body reads back as exactly the two fields, `username` first. */
  lemma LoginFormParses(username: string, password: string)
    ensures FormEncoding.Parse(LoginForm(username, password))
            == Some([("username", username), ("password", password)])
  {
    FormEncoding.SerializeRoundTrip([("username", username), ("password", password)]);
  }

  /** `authAPI.login`: its own headers replace the defaults, so it is sent form-encoded
      and never carries a token. */
  function LoginRequest(username: string, password: string): (c: Config)
    ensures c.url == ApiBaseUrl + "/auth/login" && c.httpMethod == Some("POST")
    ensures c.headers == map["Content-Type" := FormContentType]
    ensures "Authorization" !in c.headers
    ensures c.body == Some(LoginForm(username, password))
  {
    BuildConfig("/auth/login",
                Options(Some("POST"), Some(map["Content-Type" := FormContentType]), Some(LoginForm(username, password))),
                false, None)
  }

  /** Headers given in `options` replace the defaults even for a call with `auth` set:
      the token is then not sent. */
  lemma ExplicitHeadersDropToken(endpoint: string, headers: Headers, token: string)
    requires "Authorization" !in headers && token != ""
    ensures "Authorization" in BuildConfig(endpoint, NoOptions, true, Some(token)).headers
    ensures "Authorization" !in BuildConfig(endpoint, Options(None, Some(headers), None), true, Some(token)).headers
  {
  }

  /** `authAPI.getCurrentUser` reads this endpoint; `checkAuthStatus` and `login` read
      the permissions one the same way. */
  const MePath := "/users/me"
  const PermissionsPath := "/me/permissions"

  /** A GET with no options on an authenticated binding. */
  function AuthedGet(endpoint: string, token: Option<string>): (c: Config)
    ensures c.url == ApiBaseUrl + endpoint && c.httpMethod.None? && c.body.None?
    ensures c.headers == DefaultHeaders(true, token)
  {
    BuildConfig(endpoint, NoOptions, true, token)
  }

  /** The dashboard and user-lookup bindings pass no `auth` flag, so they never carry a
      token, whatever the storage holds. */
  lemma UnauthenticatedBindingsCarryNoToken(endpoint: string, token: Option<string>)
    ensures "Authorization" !in BuildConfig(endpoint, NoOptions, false, token).headers
  {
  }

  // ----- adminAPI.getAll -----

  /** The parameters `adminAPI.getAll` appends: `role`, then `search`, each only when
      given and not empty. */
  function AdminParams(role: Option<string>, search: Option<string>): seq<FormEncoding.Pair> {
    (if Present(role) then [("role", role.value)] else [])
    + (if Present(search) then [("search", search.value)] else [])
  }

  /** The query `adminAPI.getAll(role, search)` appends to '/admin/'. */
  function AdminQuery(role: Option<string>, search: Option<string>): (q: string)
    ensures q == "" <==> !Present(role) && !Present(search)
    ensures q != "" ==> q == "?" + FormEncoding.Serialize(AdminParams(role, search))
  {
    if Present(role) || Present(search) then
      var params := AdminParams(role, search);
      assert |FormEncoding.SerializePair(params[0])| > 0;
      "?" + FormEncoding.Serialize(params)
    else ""
  }

  /** A non-empty query reads back as exactly the parameters given. */
  lemma AdminQueryParses(role: Option<string>, search: Option<string>)
    ensures var q := AdminQuery(role, search);
            q != "" ==> q[0] == '?' && FormEncoding.Parse(q[1..]) == Some(AdminParams(role, search))
  {
    var q := AdminQuery(role, search);
    if q != "" {
      assert q[1..] == FormEncoding.Serialize(AdminParams(role, search));
      FormEncoding.SerializeRoundTrip(AdminParams(role, search));
    }
  }

  /** `role` comes before `search`, and an absent filter contributes nothing. */
  lemma AdminParamsOrder(role: string, search: string)
    requires role != "" && search != ""
    ensures AdminParams(Some(role), Some(search)) == [("role", role), ("search", search)]
    ensures AdminParams(Some(role), None) == [("role", role)]
    ensures AdminParams(None, Some(search)) == [("search", search)]
    ensures AdminParams(Some(""), Some(search)) == [("search", search)]
  {
  }

  function AdminListRequest(role: Option<string>, search: Option<string>, token: Option<string>): (c: Config)
    ensures c.url == ApiBaseUrl + "/admin/" + AdminQuery(role, search)
    ensures c.headers == DefaultHeaders(true, token)
  {
    BuildConfig("/admin/" + AdminQuery(role, search), NoOptions, true, token)
  }

  /** The list is fetched from '/admin/' exactly when neither filter is present. */
  lemma AdminListUnfiltered(role: Option<string>, search: Option<string>, token: Option<string>)
    ensures AdminListRequest(role, search, token).url == ApiBaseUrl + "/admin/"
            <==> !Present(role) && !Present(search)
  {
  }
}
