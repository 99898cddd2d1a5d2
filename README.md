# laravel-twitter request layer in Dafny

This project models the deterministic core of the `Twitter` client class of
atymic/laravel-twitter (`src/Twitter.php`). That core covers:

- how `query` turns an endpoint name, an HTTP method, a parameter array, a
  multipart flag and an extension into a request: host, URL, the reserved
  `format` parameter, and where the parameters go;
- how `getResponseAs` picks the representation of the response body;
- the `get` and `post` aliases;
- the OAuth authorize URL and the permalink builders;
- the `error` field with `setError`;
- the gate in front of the logger.

Modules:

- `Wrappers`: `Option` and `Result`.
- `Text`: first and last character search and splitting. These are used to
  read a built URL back into its parts.
- `Requests`: `buildUrl`, a parser for the URLs it builds, format extraction,
  parameter placement, the request plan of `query`, `getResponseAs` and the
  outcome of `query`.
- `Links`: `getAuthorizeURL`, `linkUser`, `linkTweet`, `linkRetweet`,
  `linkAddTweetToFavorites` and `linkReply`.
- `Logging`: the log gate as written, which the client uses, and as intended.
  See "## Findings".
- `Client`: the `Twitter` class. It has the configuration, the debug flag,
  the logger's presence, the `error` field, and the record of what reached
  the logger. Its `Query` method follows the source step by step: it removes
  `format` from its parameter map and builds the request options one branch
  at a time. It is proved equal to the pure specification in `Requests`.

Modelling choices:

- `jsonDecode` is a foreign call and is not interpreted. A decoded reply is
  the term `JsonDecoded(body, assoc)`.
- The HTTP transport is a function parameter. It returns either the response
  body or the exception it threw.

Behaviour of the code that the model keeps as written:

- Host choice: a multipart call goes to `getApiUrl()` and every other call
  goes to `getUploadUrl()` (src/Twitter.php:191).
- Log context: its `url` entry holds the endpoint name, not the built URL
  (src/Twitter.php:203).
- Decode failures: `json_decode` returns null rather than raising an error.
  Decoding is uninterpreted here, so that distinction is not captured.

## Model

| member | source | states |
|---|---|---|
| Requests.BuildUrl | src/Twitter.php:179-182 | The URL starts with `https://` and is exactly as long as host, version, name and extension plus the three separators |
| Requests.BuildUrlRoundTrip | src/Twitter.php:179-182 | Parsing a built URL gives back host, version, name and extension, when host and version hold no '/' and the extension holds no '.' |
| Requests.BuildUrlInjective | src/Twitter.php:179-182 | Under the same conditions, two endpoints with the same URL are the same endpoint |
| Requests.ExtractFormat | src/Twitter.php:193-198 | The remaining parameters never hold `format`. The format is the `format` value when present and "array" otherwise. Every other key keeps its presence and value |
| Requests.ExtractFormatRestores | src/Twitter.php:193-198 | Putting the extracted format back gives the original parameters. Without `format` the parameters are unchanged |
| Requests.PlaceParameters | src/Twitter.php:210-218 | A `query` slot exists iff the method is GET, and a `form_params` slot exists iff the method is POST. No other slot exists, at most one slot exists, and each slot holds the parameters |
| Requests.PlanRequest | src/Twitter.php:184-218 | The request keeps the method and picks the format from `format` (default "array"). Every option slot holds the parameters minus `format`, so `format` is never sent |
| Requests.PlanTargetsEndpoint | src/Twitter.php:191-192 | The request URL parses to the name, version and extension on the API host when multipart and on the upload host otherwise |
| Requests.MakingRequestLog | src/Twitter.php:200-207 | The logged context has the method, the name under both `query` and `url`, the parameters minus `format`, the multipart flag and the chosen format |
| Requests.QueryResult | src/Twitter.php:220-233 | `query` fails iff the transport throws, and then with the same exception; on success it returns the body in the format the request plan chose |
| Requests.GetResponseAs | src/Twitter.php:236-250 | The reply is the raw body iff the format is "json". Otherwise it decodes the same body, with assoc off iff the format is "object", so "array" and unknown formats decode to arrays |
| Requests.QueryPropagatesFailure | src/Twitter.php:220-233 | When the transport throws, `query` fails with the same exception |
| Requests.QueryDefaultsToArray | src/Twitter.php:193-248 | Without a `format` parameter, a successful body is decoded with assoc on |
| Requests.QueryRawJsonIsBody | src/Twitter.php:195-245 | With `format` set to "json", a successful body comes back unchanged |
| Requests.GetSendsQueryString | src/Twitter.php:252-255 | A GET request's options are exactly the query slot holding the parameters minus `format` |
| Requests.PostSendsFormBody | src/Twitter.php:257-260 | A POST request's options are exactly the form slot holding the parameters minus `format`, and its URL ends in ".json" |
| Links.GetAuthorizeUrl | src/Twitter.php:164-177 | A forced login gives the authenticate URL with the token and `force_login=true`. Otherwise, signing in with Twitter gives the authenticate URL with the token, and not signing in gives the authorize URL with the token |
| Links.TokenValue | src/Twitter.php:166-168 | A token string is used as is; a token array gives its `oauth_token` entry, or the empty string when that entry is missing |
| Links.ArrayTokenActsAsItsEntry | src/Twitter.php:166-168 | A token array gives the same URL as its `oauth_token` entry |
| Links.ForceLoginOverridesSignIn | src/Twitter.php:170-171 | With a forced login the sign-in flag does not change the URL |
| Links.AuthorizeUrlDeterminesToken | src/Twitter.php:164-177 | For fixed URLs and flags, equal authorize URLs carry equal tokens |
| Links.LinkUser | src/Twitter.php:344-347 | The link is the twitter.com profile prefix followed by exactly the screen name |
| Links.LinkTweet | src/Twitter.php:349-352 | The link is the author's profile link followed by exactly `/status/` and the tweet id |
| Links.LinkRetweet | src/Twitter.php:354-357 | The link is the retweet intent prefix followed by exactly the tweet id |
| Links.LinkAddTweetToFavorites | src/Twitter.php:359-362 | The link is the favorite intent prefix followed by exactly the tweet id |
| Links.LinkReply | src/Twitter.php:364-367 | The link is the reply intent prefix followed by exactly the tweet id |
| Links.LinkUserObjectOrName | src/Twitter.php:344-347 | A user object and its bare screen name link to the same profile |
| Links.LinkTweetDeterminesTweet | src/Twitter.php:349-352 | When screen names hold no '/', equal tweet links mean equal screen names and equal tweet ids |
| Links.IntentLinksDetermineId | src/Twitter.php:354-367 | For each intent, two links are equal iff the tweet ids are equal |
| Links.IntentLinksDistinct | src/Twitter.php:354-367 | A retweet, a favorite and a reply link are never equal to each other |
| Logging.ForwardsAsWritten | src/Twitter.php:84-86 | As written, a message passes only when there is a logger and debug mode is on |
| Logging.AsWrittenIgnoresLevel | src/Twitter.php:78-89 | As written, a message is forwarded iff there is a logger and debug mode is on, whatever its level |
| Logging.AsWrittenDropsErrors | src/Twitter.php:84-86 | An error-level message with debug off is dropped as written but forwarded by the intended gate |
| Logging.ForwardsDropsOnlyDebug | src/Twitter.php:78-89 | Intended gate: with a logger, a message is dropped iff it is debug-level and debug mode is off |
| Logging.GatesAgreeAtDebugLevel | src/Twitter.php:78-89 | At the debug level, the level `query` logs at, the written and the intended gates agree |
| Client.Twitter.constructor | src/Twitter.php:59-71 | Keeps the configuration, copies its debug flag, and has no logger, no error and nothing logged |
| Client.Twitter.Log | src/Twitter.php:78-89 | The log grows by exactly this message when there is a logger and the gate as written lets it through (debug mode on), and is unchanged otherwise |
| Client.Twitter.Query | src/Twitter.php:184-234 | Returns the transport's exception or the body in the chosen format for the planned request, and logs the request context at debug level through the gate as written |
| Client.Twitter.Get | src/Twitter.php:252-255 | Behaves as `Query` with the GET method |
| Client.Twitter.Post | src/Twitter.php:257-260 | Behaves as `Query` with the POST method and the "json" extension |
| Client.Twitter.Error | src/Twitter.php:369-372 | `error()` gives the stored error field, null until `setError` is called |
| Client.Twitter.SetError | src/Twitter.php:369-379 | Afterwards `error()` gives `{code, message}`, and the call returns the client itself |

## Left out

- HTTP dispatch (src/Twitter.php:220-231): the transport is a function parameter. Status codes are not modelled: the HTTP client throws on 4xx and 5xx, and that exception is rethrown unchanged, which the `Failure` case captures.
- `jsonDecode` (src/Twitter.php:381-388): a foreign runtime call. It is the uninterpreted term `JsonDecoded`, so the big-integer-as-string mode, the PHP version check and the null returned for invalid JSON are not modelled.
- `getRequestToken` and `getAccessToken` (src/Twitter.php:99-157): they rely on a parent class with `request`, `url`, `tconfig` and `response`. That class is not part of this model.
- `linkify` (src/Twitter.php:262-330): built on PCRE regular expressions with Unicode classes and lookbehind.
- `ago` (src/Twitter.php:332-342): depends on the wall clock and date parsing.
- The logger sink is left out. So is the `http_build_query` serialisation of the log context: the context keeps the parameter map.
- Constructor wiring: the default HTTP client created when none is passed is discarded by the source, and transports are passed per call here. `reconfigure` has an empty body.
- The per-endpoint trait methods are not part of this model.
- Parameter values are strings. PHP arrays may hold other scalars or null, and `isset` treats a null `format` as absent. Array key order is not kept.
- Links.GetAuthorizeUrl: the sign-in and force-login arguments are PHP values tested for truthiness and emptiness. Here they are booleans.
- Links.TokenValue: a token array without `oauth_token` reads as the empty string, which is what PHP interpolates for the missing entry after its warning.
- PHP default arguments are not modelled. This covers `query` ('GET', [], false, 'json'), `get`, `post`, `getAuthorizeURL` (true, false) and `log` ([], debug level). Callers pass these values explicitly; `Post` passes the "json" extension that `post` takes from the default of `query`.

## Findings

| source | as written | input that shows it | evidently intended | confidence | as-written member | corrected member |
|---|---|---|---|---|---|---|
| src/Twitter.php:84 | The condition assigns the level (`=`) instead of comparing it. The assigned "debug" is truthy, so with debug mode off every message is dropped | logger present, debug off, level "error": dropped | Only debug-level messages are dropped when debug mode is off | high; not executed | Logging.AsWrittenDropsErrors | Logging.ForwardsDropsOnlyDebug |
