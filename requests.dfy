/**
 * Request construction and response selection of the Twitter client
 * (`buildUrl`, the pure part of `query`, and `getResponseAs`).
 *
 * A request is planned from the endpoint name, the HTTP method, the parameter
 * map, the multipart flag and the extension; the reserved `format` parameter
 * is taken out of the map and chooses how the response body is returned.
 * JSON decoding is a foreign call and stays uninterpreted: a decoded reply is
 * the term `JsonDecoded(body, assoc)`.
 */
module Requests {
  import opened Wrappers
  import opened Text

  /** The read-only configuration the client is built with. */
  datatype Config = Config(apiUrl: string, uploadUrl: string, apiVersion: string, debugMode: bool)

  /** Request parameters: a PHP array from names to scalar values. */
  type Params = map<string, string>

  /** Guzzle request options: the slot (`query` or `form_params`) holding the parameters. */
  type Options = map<string, Params>

  /** What is handed to the HTTP transport. */
  datatype HttpRequest = HttpRequest(verb: string, url: string, options: Options)

  /** The exceptions the transport may throw; `query` rethrows them unchanged. */
  datatype TransportError =
    | ClientError(status: int)
    | ServerError(status: int)
    | ConnectionError(message: string)

  /** The HTTP transport: the response body, or the exception it threw. */
  type Transport = HttpRequest -> Result<string, TransportError>

  /** A request ready to send, and the response format chosen for it. */
  datatype Plan = Plan(request: HttpRequest, format: string)

  /** What `getResponseAs` returns: the body text, or `jsonDecode(source, assoc)`. */
  datatype Reply = RawJson(text: string) | JsonDecoded(source: string, assoc: bool)

  /** The parts of an endpoint URL. */
  datatype Endpoint = Endpoint(host: string, version: string, name: string, extension: string)

  /** The context `query` logs before dispatching (its `url` entry holds the name). */
  datatype RequestLog = RequestLog(
    verb: string, query: string, url: string, params: Params, multipart: bool, format: string)

  const FormatKey := "format"
  const DefaultFormat := "array"
  const Scheme := "https://"

  /** `sprintf('https://%s/%s/%s.%s', host, version, name, extension)`. */
  function BuildUrl(host: string, version: string, name: string, extension: string): (url: string)
    ensures |url| == |Scheme| + |host| + |version| + |name| + |extension| + 3
    ensures url[..|Scheme|] == Scheme
  {
    Scheme + host + "/" + version + "/" + name + "." + extension
  }

  /**
   * Reads a URL back into its endpoint: the host runs to the first '/', the
   * version to the next '/', and the extension follows the last '.'.
   */
  function ParseUrl(url: string): Option<Endpoint> {
    if |url| < |Scheme| || url[..|Scheme|] != Scheme then None
    else
      match SplitFirst(url[|Scheme|..], '/')
      case None => None
      case Some((host, path)) =>
        match SplitFirst(path, '/')
        case None => None
        case Some((version, file)) =>
          match SplitLast(file, '.')
          case None => None
          case Some((name, extension)) => Some(Endpoint(host, version, name, extension))
  }

  /** A URL built from a slash-free host and version and a dot-free extension names its endpoint. */
  lemma BuildUrlRoundTrip(host: string, version: string, name: string, extension: string)
    requires '/' !in host && '/' !in version && '.' !in extension
    ensures ParseUrl(BuildUrl(host, version, name, extension)) == Some(Endpoint(host, version, name, extension))
  {
    var file := name + ['.'] + extension;
    var path := version + ['/'] + file;
    var rest := host + ['/'] + path;
    var url := BuildUrl(host, version, name, extension);
    assert url == Scheme + rest;
    assert url[|Scheme|..] == rest;
    SplitFirstJoin(host, '/', path);
    SplitFirstJoin(version, '/', file);
    SplitLastJoin(name, '.', extension);
  }

  /** Under the same conditions, distinct endpoints never share a URL. */
  lemma BuildUrlInjective(h1: string, v1: string, n1: string, e1: string,
                          h2: string, v2: string, n2: string, e2: string)
    requires '/' !in h1 && '/' !in v1 && '.' !in e1
    requires '/' !in h2 && '/' !in v2 && '.' !in e2
    requires BuildUrl(h1, v1, n1, e1) == BuildUrl(h2, v2, n2, e2)
    ensures h1 == h2 && v1 == v2 && n1 == n2 && e1 == e2
  {
    BuildUrlRoundTrip(h1, v1, n1, e1);
    BuildUrlRoundTrip(h2, v2, n2, e2);
  }

  /**
   * Takes the reserved `format` entry out of the parameters: its value (or
   * "array" when absent) and the parameters that remain.
   */
  function ExtractFormat(params: Params): (r: (string, Params))
    ensures FormatKey !in r.1
    ensures FormatKey in params ==> r.0 == params[FormatKey]
    ensures FormatKey !in params ==> r.0 == DefaultFormat
    ensures forall k :: k != FormatKey ==> (k in r.1 <==> k in params)
    ensures forall k :: k in r.1 ==> r.1[k] == params[k]
  {
    if FormatKey in params then (params[FormatKey], params - {FormatKey})
    else (DefaultFormat, params)
  }

  /** Putting the extracted format back gives the original parameters. */
  lemma ExtractFormatRestores(params: Params)
    ensures var (format, rest) := ExtractFormat(params);
      if FormatKey in params then rest[FormatKey := format] == params else rest == params
  {
  }

  /** Request options by method: GET sends a query string, POST a form body, other methods nothing. */
  function PlaceParameters(verb: string, params: Params): (options: Options)
    ensures "query" in options <==> verb == "GET"
    ensures "form_params" in options <==> verb == "POST"
    ensures forall slot :: slot in options ==> options[slot] == params
    ensures options.Keys <= {"query", "form_params"}
    ensures |options| <= 1
  {
    if verb == "GET" then map["query" := params]
    else if verb == "POST" then map["form_params" := params]
    else map[]
  }

  /** The request `query` sends and the format it decodes with. */
  function PlanRequest(config: Config, name: string, verb: string, params: Params,
                       multipart: bool, extension: string): (plan: Plan)
    ensures plan.request.verb == verb
    ensures plan.format == (if FormatKey in params then params[FormatKey] else DefaultFormat)
    ensures forall slot :: slot in plan.request.options ==> FormatKey !in plan.request.options[slot]
    ensures forall slot :: slot in plan.request.options ==> plan.request.options[slot] == params - {FormatKey}
  {
    var host := if multipart then config.apiUrl else config.uploadUrl;
    var (format, rest) := ExtractFormat(params);
    Plan(HttpRequest(verb, BuildUrl(host, config.apiVersion, name, extension), PlaceParameters(verb, rest)),
         format)
  }

  /**
   * The request URL names the endpoint on the API host for a multipart call
   * and on the upload host otherwise, as the code is written.
   */
  lemma PlanTargetsEndpoint(config: Config, name: string, verb: string, params: Params,
                            multipart: bool, extension: string)
    requires '/' !in config.apiUrl && '/' !in config.uploadUrl && '/' !in config.apiVersion
    requires '.' !in extension
    ensures ParseUrl(PlanRequest(config, name, verb, params, multipart, extension).request.url)
            == Some(Endpoint(if multipart then config.apiUrl else config.uploadUrl,
                             config.apiVersion, name, extension))
  {
    BuildUrlRoundTrip(if multipart then config.apiUrl else config.uploadUrl, config.apiVersion, name, extension);
  }

  /** The log context `query` emits before dispatching. */
  function MakingRequestLog(name: string, verb: string, params: Params, multipart: bool): (log: RequestLog)
    ensures log.params == params - {FormatKey}
    ensures log.format == (if FormatKey in params then params[FormatKey] else DefaultFormat)
    ensures log.verb == verb && log.query == name && log.url == name && log.multipart == multipart
  {
    var (format, rest) := ExtractFormat(params);
    RequestLog(verb, name, name, rest, multipart, format)
  }

  /** `getResponseAs`: "json" returns the body, "object" decodes to objects, anything else to arrays. */
  function GetResponseAs(body: string, format: string): (r: Reply)
    ensures r.RawJson? <==> format == "json"
    ensures r.RawJson? ==> r.text == body
    ensures r.JsonDecoded? ==> r.source == body && (r.assoc <==> format != "object")
  {
    match format
    case "object" => JsonDecoded(body, false)
    case "json" => RawJson(body)
    case _ => JsonDecoded(body, true)
  }

  /** `query`'s outcome: the transport's exception unchanged, or the body in the chosen format. */
  function QueryResult(config: Config, name: string, verb: string, params: Params,
                       multipart: bool, extension: string, transport: Transport): (r: Result<Reply, TransportError>)
    ensures var request := PlanRequest(config, name, verb, params, multipart, extension).request;
      (r.Failure? <==> transport(request).Failure?) &&
      (r.Failure? ==> r.error == transport(request).error) &&
      (r.Success? ==> r.value == GetResponseAs(transport(request).value,
                                               PlanRequest(config, name, verb, params, multipart, extension).format))
  {
    var plan := PlanRequest(config, name, verb, params, multipart, extension);
    match transport(plan.request)
    case Failure(e) => Failure(e)
    case Success(body) => Success(GetResponseAs(body, plan.format))
  }

  /** A failing transport makes `query` fail with the same exception. */
  lemma QueryPropagatesFailure(config: Config, name: string, verb: string, params: Params,
                               multipart: bool, extension: string, transport: Transport)
    requires transport(PlanRequest(config, name, verb, params, multipart, extension).request).Failure?
    ensures QueryResult(config, name, verb, params, multipart, extension, transport)
            == Failure(transport(PlanRequest(config, name, verb, params, multipart, extension).request).error)
  {
  }

  /** Without a `format` parameter the body is decoded into arrays. */
  lemma QueryDefaultsToArray(config: Config, name: string, verb: string, params: Params,
                             multipart: bool, extension: string, transport: Transport, body: string)
    requires FormatKey !in params
    requires transport(PlanRequest(config, name, verb, params, multipart, extension).request) == Success(body)
    ensures QueryResult(config, name, verb, params, multipart, extension, transport)
            == Success(JsonDecoded(body, true))
  {
  }

  /** With `format` set to "json" the body comes back unchanged. */
  lemma QueryRawJsonIsBody(config: Config, name: string, verb: string, params: Params,
                           multipart: bool, extension: string, transport: Transport, body: string)
    requires FormatKey in params && params[FormatKey] == "json"
    requires transport(PlanRequest(config, name, verb, params, multipart, extension).request) == Success(body)
    ensures QueryResult(config, name, verb, params, multipart, extension, transport) == Success(RawJson(body))
  {
  }

  /** `get`: the parameters, less `format`, travel in the query string only. */
  lemma GetSendsQueryString(config: Config, name: string, params: Params, multipart: bool, extension: string)
    ensures PlanRequest(config, name, "GET", params, multipart, extension).request.options
            == map["query" := params - {FormatKey}]
  {
  }

  /** `post`: the parameters, less `format`, travel in the form body only, and the URL ends in ".json". */
  lemma PostSendsFormBody(config: Config, name: string, params: Params, multipart: bool)
    ensures var request := PlanRequest(config, name, "POST", params, multipart, "json").request;
      request.options == map["form_params" := params - {FormatKey}] &&
      request.url[|request.url| - 5..] == ".json"
  {
  }
}
