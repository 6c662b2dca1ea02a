/**
 * The REST client (todo_frontend/src/services/api.js): URL building, response
 * classification and the four task endpoints. `fetch`, `JSON.parse` and
 * `encodeURIComponent` are supplied by the host as plain functions.
 */
module Api {
  import opened Wrappers
  import opened Text
  import opened Config
  import opened TaskTypes

  /** A decoded JSON value. Numbers are modelled as integers. */
  datatype Json =
    | JNull
    | JBool(b: bool)
    | JNumber(n: int)
    | JString(s: string)
    | JArray(items: seq<Json>)
    | JObject(fields: map<string, Json>)

  datatype Method = GET | POST | PATCH | DELETE

  /** What is handed to `fetch`: the URL, the method and the (not yet serialised) JSON body. */
  datatype HttpRequest = HttpRequest(url: string, verb: Method, body: Option<Json>)

  datatype Response = Response(status: nat, text: string)

  /** `res.ok`: the status is in the range 200-299. */
  predicate Ok(res: Response)
    ensures Ok(res) <==> res.status / 100 == 2
  {
    200 <= res.status <= 299
  }

  /** How a `fetch` promise settles: with a response, or rejected by the network layer. */
  datatype FetchOutcome = Responded(res: Response) | NetworkFailure(message: string)

  /** The foreign functions the client calls, as the host provides them. */
  datatype Host = Host(
    fetch: HttpRequest -> FetchOutcome,
    parse: string -> Option<Json>,
    encode: string -> string)

  /** `ApiError`: a status (absent for a configuration error), a message and the decoded body. */
  datatype ApiError = ApiError(status: Option<nat>, message: string, details: Option<Json>)

  /** What a request can reject with: an `ApiError` it throws, or the rejection of `fetch` itself. */
  datatype RequestError = Api(error: ApiError) | Network(message: string)

  /** The `message` of what a request rejected with: the text the store shows unless it is empty. */
  function ErrorMessage(e: RequestError): string {
    match e
    case Api(err) => err.message
    case Network(msg) => msg
  }

  const ConfigMessage: string :=
    "Backend URL is not configured. Set REACT_APP_API_BASE (preferred) or REACT_APP_BACKEND_URL."

  const ConfigurationError: ApiError := ApiError(None, ConfigMessage, None)

  const HttpErrorPrefix: string := "API request failed ("

  /** The message of the error thrown for a non-OK status. */
  function HttpErrorMessage(status: nat): (m: string)
    ensures |m| > |HttpErrorPrefix| + 1
    ensures m[..|HttpErrorPrefix|] == HttpErrorPrefix && m[|m| - 1] == ')'
    ensures IsDigits(m[|HttpErrorPrefix|..|m| - 1])
    ensures DigitsValue(m[|HttpErrorPrefix|..|m| - 1]) == status
    ensures m[|HttpErrorPrefix|] == '0' ==> status == 0 && m == HttpErrorPrefix + "0)"
  {
    var m := HttpErrorPrefix + NatToString(status) + ")";
    assert m[|HttpErrorPrefix|..|m| - 1] == NatToString(status);
    NatToStringRoundTrip(status);
    m
  }

  /** A call of the client: the request that reached `fetch`, if any, and how the call settled. */
  datatype Exchange<+T> = Exchange(sent: Option<HttpRequest>, result: Result<T, RequestError>)

  /** `buildUrl(path)`: "" when unconfigured, otherwise the base joined to `path` by exactly one added `/` at most. */
  function BuildUrl(env: Env, path: string): (url: string)
    ensures url == "" <==> GetApiBaseUrl(env) == ""
    ensures GetApiBaseUrl(env) != "" ==>
              var base := GetApiBaseUrl(env);
              |base| < |url| && url[..|base|] == base && url[|base|] == '/'
              && (url[|base|..] == path || url[|base|..] == "/" + path)
    ensures GetApiBaseUrl(env) != "" && path != [] && path[0] == '/' ==> url == GetApiBaseUrl(env) + path
  {
    var base := GetApiBaseUrl(env);
    if base == "" then ""
    else
      var cleanPath := if |path| > 0 && path[0] == '/' then path else "/" + path;
      base + cleanPath
  }

  /**
   * `parseJsonSafely(res)` on the response text: `null` for an empty body,
   * the decoded value when `JSON.parse` accepts it, the raw text otherwise.
   */
  function ParseJsonSafely(text: string, parse: string -> Option<Json>): (v: Json)
    ensures text == "" ==> v == JNull
    ensures text != "" && parse(text).Some? ==> v == parse(text).value
    ensures text != "" && parse(text).None? ==> v == JString(text)
  {
    if text == "" then JNull
    else match parse(text)
      case Some(value) => value
      case None => JString(text)
  }

  /** How `request` turns what `fetch` settled with into its own result. */
  function Classify(outcome: FetchOutcome, parse: string -> Option<Json>): (r: Result<Json, RequestError>)
    ensures r.Success? <==> outcome.Responded? && Ok(outcome.res)
    ensures r.Success? ==> r.value == ParseJsonSafely(outcome.res.text, parse)
    ensures outcome.NetworkFailure? ==> r == Failure(Network(outcome.message))
    ensures outcome.Responded? && !Ok(outcome.res) ==>
              r == Failure(Api(ApiError(Some(outcome.res.status),
                                        HttpErrorMessage(outcome.res.status),
                                        Some(ParseJsonSafely(outcome.res.text, parse)))))
  {
    match outcome
    case NetworkFailure(msg) => Failure(Network(msg))
    case Responded(res) =>
      var body := ParseJsonSafely(res.text, parse);
      if Ok(res) then Success(body)
      else Failure(Api(ApiError(Some(res.status), HttpErrorMessage(res.status), Some(body))))
  }

  /** The HTTP method, path and body of one endpoint call. */
  datatype Route = Route(verb: Method, path: string, body: Option<Json>)

  /**
   * `request(path, options)`: refuses at once, without calling `fetch`, when no
   * base URL is configured; otherwise sends one request and classifies its outcome.
   */
  function Request(env: Env, host: Host, route: Route): (x: Exchange<Json>)
    ensures x.sent.None? <==> GetApiBaseUrl(env) == ""
    ensures x.sent.None? ==> x.result == Failure(Api(ConfigurationError))
    ensures x.sent.Some? ==>
              x.sent.value == HttpRequest(BuildUrl(env, route.path), route.verb, route.body)
              && x.result == Classify(host.fetch(x.sent.value), host.parse)
  {
    var url := BuildUrl(env, route.path);
    if url == "" then
      Exchange(None, Failure(Api(ConfigurationError)))
    else
      var req := HttpRequest(url, route.verb, route.body);
      Exchange(Some(req), Classify(host.fetch(req), host.parse))
  }

  /** The four operations of `tasksApi`. */
  datatype Operation =
    | ListTasks
    | CreateTask(title: string)
    | UpdateTask(id: Id, patch: Json)
    | RemoveTask(id: Id)

  const TasksPath: string := "/tasks"

  /**
   * The `/tasks/${encodeURIComponent(String(id))}` template of `update` and
   * `remove`: the collection path `TasksPath`, `/`, and the encoded id. It is
   * spelled as one literal so that the paths compare without unfolding.
   */
  function TaskPath(id: Id, encode: string -> string): string {
    "/tasks/" + encode(IdText(id))
  }

  /** The endpoint each operation calls. */
  function RouteOf(op: Operation, encode: string -> string): (r: Route)
    ensures r.path != [] && r.path[0] == '/'
    ensures r.body.Some? <==> op.CreateTask? || op.UpdateTask?
  {
    match op
    case ListTasks => Route(GET, TasksPath, None)
    case CreateTask(title) => Route(POST, TasksPath, Some(JObject(map["title" := JString(title)])))
    case UpdateTask(id, patch) => Route(PATCH, TaskPath(id, encode), Some(patch))
    case RemoveTask(id) => Route(DELETE, TaskPath(id, encode), None)
  }

  function Call(env: Env, host: Host, op: Operation): Exchange<Json> {
    Request(env, host, RouteOf(op, host.encode))
  }

  /** `tasksApi.list()`: GET /tasks; any payload that is not an array reads as no tasks. */
  function List(env: Env, host: Host): (x: Exchange<seq<Json>>)
    ensures var y := Call(env, host, ListTasks);
              x.sent == y.sent
              && (x.sent.Some? ==> x.sent.value.url == GetApiBaseUrl(env) + "/tasks" && x.sent.value.verb == GET
                                   && x.sent.value.body == None)
              && (x.result.Success? <==> y.result.Success?)
              && (y.result.Failure? ==> x.result.error == y.result.error)
              && (y.result.Success? && y.result.value.JArray? ==> x.result.value == y.result.value.items)
              && (y.result.Success? && !y.result.value.JArray? ==> x.result.value == [])
  {
    var y := Call(env, host, ListTasks);
    match y.result
    case Failure(e) => Exchange(y.sent, Failure(e))
    case Success(data) => Exchange(y.sent, Success(if data.JArray? then data.items else []))
  }

  /** `tasksApi.create(title)`: POST /tasks with the body `{title}`. */
  function Create(env: Env, host: Host, title: string): (x: Exchange<Json>)
    ensures x.sent.None? <==> GetApiBaseUrl(env) == ""
    ensures x.sent.None? ==> x.result == Failure(Api(ConfigurationError))
    ensures x.sent.Some? ==> x.result == Classify(host.fetch(x.sent.value), host.parse)
    ensures x.sent.Some? ==>
              x.sent.value == HttpRequest(GetApiBaseUrl(env) + "/tasks", POST, Some(JObject(map["title" := JString(title)])))
  {
    SentTo(env, host, RouteOf(CreateTask(title), host.encode));
    Call(env, host, CreateTask(title))
  }

  /** `tasksApi.update(id, patch)`: PATCH /tasks/<encoded id> with the patch as body. */
  function Update(env: Env, host: Host, id: Id, patch: Json): (x: Exchange<Json>)
    ensures x.sent.None? <==> GetApiBaseUrl(env) == ""
    ensures x.sent.None? ==> x.result == Failure(Api(ConfigurationError))
    ensures x.sent.Some? ==> x.result == Classify(host.fetch(x.sent.value), host.parse)
    ensures x.sent.Some? ==>
              x.sent.value == HttpRequest(GetApiBaseUrl(env) + TaskPath(id, host.encode), PATCH, Some(patch))
  {
    SentTo(env, host, RouteOf(UpdateTask(id, patch), host.encode));
    Call(env, host, UpdateTask(id, patch))
  }

  /** `tasksApi.remove(id)`: DELETE /tasks/<encoded id> with no body. */
  function Remove(env: Env, host: Host, id: Id): (x: Exchange<Json>)
    ensures x.sent.None? <==> GetApiBaseUrl(env) == ""
    ensures x.sent.None? ==> x.result == Failure(Api(ConfigurationError))
    ensures x.sent.Some? ==> x.result == Classify(host.fetch(x.sent.value), host.parse)
    ensures x.sent.Some? ==>
              x.sent.value == HttpRequest(GetApiBaseUrl(env) + TaskPath(id, host.encode), DELETE, None)
  {
    SentTo(env, host, RouteOf(RemoveTask(id), host.encode));
    Call(env, host, RemoveTask(id))
  }

  /** A request that is sent goes to the base followed by the route's path, which starts with `/`. */
  lemma SentTo(env: Env, host: Host, route: Route)
    requires route.path != [] && route.path[0] == '/'
    ensures var x := Request(env, host, route);
              x.sent.Some? ==> x.sent.value == HttpRequest(GetApiBaseUrl(env) + route.path, route.verb, route.body)
  {
  }

  /** With no base URL every operation fails with the configuration error and nothing is fetched. */
  lemma UnconfiguredNeverFetches(env: Env, host: Host, op: Operation)
    requires GetApiBaseUrl(env) == ""
    ensures Call(env, host, op) == Exchange(None, Failure(Api(ApiError(None, ConfigMessage, None))))
  {
  }

  /**
   * An `ApiError` without a status is exactly the configuration error: every
   * error raised for an HTTP response carries the response's status.
   */
  lemma StatuslessMeansUnconfigured(env: Env, host: Host, route: Route)
    ensures var x := Request(env, host, route);
              (x.result.Failure? && x.result.error.Api? && x.result.error.error.status.None?)
              <==> GetApiBaseUrl(env) == ""
  {
  }

  /** Different statuses give different HTTP error messages: the message tells them apart. */
  lemma HttpErrorMessageInjective(a: nat, b: nat)
    requires HttpErrorMessage(a) == HttpErrorMessage(b)
    ensures a == b
  {
  }

  /**
   * Every `ApiError` the client raises has a non-empty message, so the store
   * shows it rather than its own fallback; only a rejection of `fetch` itself
   * can carry an empty one.
   */
  lemma ApiErrorsHaveMessages(env: Env, host: Host, route: Route)
    ensures var x := Request(env, host, route);
              x.result.Failure? && x.result.error.Api? ==> ErrorMessage(x.result.error) != ""
    ensures var x := Request(env, host, route);
              x.result.Failure? && ErrorMessage(x.result.error) == "" ==>
                x.result.error.Network? && host.fetch(x.sent.value) == NetworkFailure("")
  {
  }

  /**
   * With an injective encoder (as `encodeURIComponent` is), two numeric ids
   * address the same task path only when they are equal.
   */
  lemma NumIdPathInjective(a: int, b: int, encode: string -> string)
    requires forall s, t :: encode(s) == encode(t) ==> s == t
    requires TaskPath(NumId(a), encode) == TaskPath(NumId(b), encode)
    ensures a == b
  {
    var p := "/tasks/";
    assert TaskPath(NumId(a), encode)[|p|..] == encode(IdText(NumId(a)));
    assert TaskPath(NumId(b), encode)[|p|..] == encode(IdText(NumId(b)));
    NumIdTextInjective(a, b);
  }

  /** Updating and removing one task address the same resource, below the collection `list` and `create` use. */
  lemma SameResource(id: Id, patch: Json, title: string, encode: string -> string)
    ensures RouteOf(UpdateTask(id, patch), encode).path == RouteOf(RemoveTask(id), encode).path
    ensures RouteOf(ListTasks, encode).path == RouteOf(CreateTask(title), encode).path == "/tasks"
    ensures RouteOf(RemoveTask(id), encode).path == RouteOf(ListTasks, encode).path + "/" + encode(IdText(id))
  {
  }
}
