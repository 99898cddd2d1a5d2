/**
 * The `Twitter` client object: its configuration and debug flag, the logger
 * it forwards to, the `error` field, and the `query`/`get`/`post` entry
 * points. The HTTP transport is passed to each call; what reaches the logger
 * is recorded in `logged`.
 */
module Client {
  import opened Wrappers
  import opened Requests
  import opened Logging

  /** The `{code, message}` array stored by `setError`. */
  datatype ErrorInfo = ErrorInfo(code: int, message: string)

  /** One call of the logger: level, message and context. */
  datatype LogRecord = LogRecord(level: string, message: string, context: RequestLog)

  const MakingRequest := "Making Request"

  class Twitter {
    const config: Config
    const debug: bool
    var hasLogger: bool
    var error: Option<ErrorInfo>
    var logged: seq<LogRecord>

    /** The constructor copies the debug flag; the logger argument is never stored, so there is no logger. */
    constructor (config: Config)
      ensures this.config == config && debug == config.debugMode
      ensures !hasLogger && error == None && logged == []
    {
      this.config := config;
      debug := config.debugMode;
      hasLogger := false;
      error := None;
      logged := [];
    }

    /**
     * `log`: the message reaches the logger only when the gate of line 84, as
     * written, lets it through: with debug mode off nothing passes.
     */
    method Log(message: string, context: RequestLog, level: string)
      modifies this`logged
      ensures logged == old(logged) + if ForwardsAsWritten(hasLogger, debug, level) then [LogRecord(level, message, context)] else []
    {
      if !hasLogger {
        return;
      }
      if !debug && Truthy(DebugLevel) {
        return;
      }
      logged := logged + [LogRecord(level, message, context)];
    }

    /**
     * `query`: builds the URL, takes `format` out of the parameters, logs the
     * request, places the parameters by method, sends the request and returns
     * the body in the chosen format, or the transport's exception unchanged.
     */
    method Query(name: string, verb: string, parameters: Params, multipart: bool, extension: string,
                 transport: Transport) returns (r: Result<Reply, TransportError>)
      modifies this`logged
      ensures r == QueryResult(config, name, verb, parameters, multipart, extension, transport)
      ensures logged == old(logged) +
        if ForwardsAsWritten(hasLogger, debug, DebugLevel)
        then [LogRecord(DebugLevel, MakingRequest, MakingRequestLog(name, verb, parameters, multipart))]
        else []
    {
      var host := if multipart then config.apiUrl else config.uploadUrl;
      var url := BuildUrl(host, config.apiVersion, name, extension);
      var format := DefaultFormat;
      var params := parameters;
      if FormatKey in params {
        format := params[FormatKey];
        params := params - {FormatKey};
      }
      Log(MakingRequest, RequestLog(verb, name, name, params, multipart, format), DebugLevel);
      var requestOptions: Options := map[];
      if verb == "GET" {
        requestOptions := requestOptions["query" := params];
      }
      if verb == "POST" {
        requestOptions := requestOptions["form_params" := params];
      }
      var response := transport(HttpRequest(verb, url, requestOptions));
      match response
      case Failure(e) =>
        r := Failure(e);
      case Success(body) =>
        r := Success(GetResponseAs(body, format));
    }

    /** `get`: `query` with the GET method. */
    method Get(name: string, parameters: Params, multipart: bool, extension: string, transport: Transport)
      returns (r: Result<Reply, TransportError>)
      modifies this`logged
      ensures r == QueryResult(config, name, "GET", parameters, multipart, extension, transport)
      ensures logged == old(logged) +
        if ForwardsAsWritten(hasLogger, debug, DebugLevel)
        then [LogRecord(DebugLevel, MakingRequest, MakingRequestLog(name, "GET", parameters, multipart))]
        else []
    {
      r := Query(name, "GET", parameters, multipart, extension, transport);
    }

    /** `post`: `query` with the POST method and the default "json" extension. */
    method Post(name: string, parameters: Params, multipart: bool, transport: Transport)
      returns (r: Result<Reply, TransportError>)
      modifies this`logged
      ensures r == QueryResult(config, name, "POST", parameters, multipart, "json", transport)
      ensures logged == old(logged) +
        if ForwardsAsWritten(hasLogger, debug, DebugLevel)
        then [LogRecord(DebugLevel, MakingRequest, MakingRequestLog(name, "POST", parameters, multipart))]
        else []
    {
      r := Query(name, "POST", parameters, multipart, "json", transport);
    }

    /** `error()`: the last error set, or null. */
    function Error(): (e: Option<ErrorInfo>)
      reads this
      ensures e == error
    {
      error
    }

    /** `setError`: stores `{code, message}` for `error()` and returns the client itself. */
    method SetError(code: int, message: string) returns (self: Twitter)
      modifies this`error
      ensures Error() == Some(ErrorInfo(code, message))
      ensures self == this
    {
      error := Some(ErrorInfo(code, message));
      self := this;
    }
  }
}
