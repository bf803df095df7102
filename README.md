# tg-xtrime-api client core in Dafny

This project models the request builder of a small PHP client for a Telegram-automation
HTTP API, and the error type it throws. A caller chains a session name, a namespace
accessor (`$api->users`) and a method call (`->create($params)`), then calls `send()`.
`send()` POSTs `{"data": params}` to `<api url>[/<session>]/[<namespace>.]<method>`. It then
returns the decoded body or `false`, or throws an `ApiError` (messages joined with `" & "`)
or a `FailedRequest` (the transport's message).

Layout:
- `wrappers.dfy`: `Option`.
- `json.dfy`: an abstract JSON value (`Json`), PHP arrays (`PhpArray`), and what the decoder
  produced from a body (`Decoded`: `Invalid`, `Null`, `Obj(errors, props)`, `Other(v)`).
- `strings.dfy`: PHP `join`, a left-to-right reference definition of it, and a split at a character's first occurrence.
- `exceptions.dfy`: `ApiError` with its default message and `FillMessageFromResponseErrors`.
  Its new message is specified by the function `FilledMessage`.
- `client.dfy`: the `Api` class. Its fields are session name, class name (namespace),
  method name, params, response, and the request body before encoding. The pure parts are
  functions: `GenAction`, `GenRequestUrl`, `WrapParams`, `GetContent` and
  `HandleRequestException`. `ParseAction` and `ParseRequestUrl` read an action and a URL
  back, so the round-trip lemmas can state exactly what the URL keeps.
- `usage.dfy`: client methods that use only the methods' contracts. They show the fluent
  chain, that the namespace persists across calls, that an empty session and namespace
  `"0"` are dropped, and each outcome of `Send`.

The PHP magic methods become explicit methods: `__get($name)` is `Api.Get(name)`, and
`__call($name, $arguments)` is `Api.Call(name, arguments)`. Exceptions become the result
datatype `SendResult`. The Guzzle client is a function parameter of `Send`. It receives the
URL and the body value, and it returns a `TransportOutcome`: `Completed(status, decoded
body)` or `Raised(optional decoded body of the failing response, message)`. JSON is not
encoded or parsed. The request body is the `Json` value handed to `json_encode`, and
response bodies come already decoded. PHP `empty()` on the string properties is
`PhpEmpty`: unset, null, `""` and `"0"`.

Behaviour of the code that a reader might not expect, kept in the model:
- The status check in `getContent` is strict: a status of 400 is decoded, not turned into `false`.
- `getContent` returns PHP `false` in two cases that look different in the model. One is the
  sentinel, for a status above 400 or a body that decodes to null. The other is a body that
  is the JSON document `false`, returned as the decoded value. So `False` and
  `Value(Other(JBool(false)))` are the same PHP value, and a caller cannot tell them apart.
  The predicate `IsPhpFalse` names that set, and `GetContent` states exactly when a result
  falls in it.
- The default params are the PHP empty array `[]`, modelled as `JArr([])`. The body is
  therefore `{"data": []}`, not `{"data": {}}`.
- Only `__call` resets `response`. A second `send()` without a new call, ending in an
  exception, leaves the earlier response in place.
- A first argument of `null` counts as absent (`isset`), so the params become `[]`.
- An error body that is valid JSON but not an object (for example the document `null`)
  makes `fillMessageFromResponseErrors(object $response)` throw a PHP `TypeError`. This is
  the `TypeErr` result. It is neither an `ApiError` nor a `FailedRequest`.

## Model

| member | source | states |
|---|---|---|
| `Strings.Join` | src/Exceptions/ApiError.php:15 | the join's length is the pieces' total length plus one separator between each pair of neighbours |
| `Strings.JoinConcat` | src/Exceptions/ApiError.php:15 | joining two non-empty lists in sequence puts exactly one separator between the two joins, so order is kept |
| `Strings.JoinAgreesWithFromLeft` | src/Exceptions/ApiError.php:15 | join equals the independent left-to-right (implode-loop) definition on every list |
| `Exceptions.Messages` | src/Exceptions/ApiError.php:11-13 | the mapped list has one entry per error item, and entry i is item i's `message` |
| `Exceptions.FilledMessage` | src/Exceptions/ApiError.php:10-16 | an empty `errors` list leaves the message unchanged; a single error gives exactly its message, with no separator |
| `Exceptions.FillOverwrites` | src/Exceptions/ApiError.php:15 | with non-empty errors the previous message plays no part (overwrite, not append) |
| `Exceptions.FillIdempotent` | src/Exceptions/ApiError.php:10-15 | filling twice from the same response gives the same message as filling once |
| `Exceptions.FillConcat` | src/Exceptions/ApiError.php:11-15 | the message for errors e1 followed by e2 is message(e1) + " & " + message(e2): order is kept |
| `Exceptions.FillJoinsFromLeft` | src/Exceptions/ApiError.php:11-15 | the filled message is the items' messages joined left to right with " & " |
| `Exceptions.TwoErrorsExample` | src/Exceptions/ApiError.php:7-15 | errors "bad", "worse" give "bad & worse" |
| `Exceptions.ApiError.constructor` | src/Exceptions/ApiError.php:7 | a new error's message is "Some API error has occurred." |
| `Exceptions.ApiError.FillMessageFromResponseErrors` | src/Exceptions/ApiError.php:9-19 | requires an object; the new message is `FilledMessage(old message, errors)`; returns the same instance |
| `Client.GenAction` | src/Api.php:174-181 | the action always ends with the method name; it is exactly the method name iff the class name is PHP-empty, and otherwise it is the class name, a dot and the method name (prefix, suffix and total length fixed) |
| `Client.ActionRoundTrip` | src/Api.php:174-181 | for dot-free names, the action reads back as (namespace if not PHP-empty, else none; method): a namespace of "", "0" or unset is dropped |
| `Client.GenRequestUrl` | src/Api.php:163-172 | the URL starts with `apiUrl + "/"` and ends with the action; nothing is between the two iff the session name is PHP-empty, and otherwise exactly the session name and a slash are (prefix, suffix and total length fixed) |
| `Client.RequestUrlRoundTrip` | src/Api.php:163-172 | for slash-free parts, the URL reads back as (session if not PHP-empty, else none; action): a session of "", "0" or unset adds no segment |
| `Client.WrapParams` | src/Api.php:183-188 | the body is an object whose only key is "data" (the constant at line 26), holding the params, even when they are empty |
| `Client.GetContent` | src/Api.php:190-197 | the sentinel `False` iff status > 400 (400 falls through) or the body decodes to null (invalid and empty bodies included); otherwise the decoded value unchanged, so a decoded `false` body is returned as the value `false`; the result is PHP `false` (`IsPhpFalse`) iff status > 400, the body decodes to null, or the body is `false` |
| `Client.HandleRequestException` | src/Api.php:147-156 | never a value or false; ApiError iff there is a response whose body decodes to an object, with the default message filled from its errors; FailedRequest with the transport message verbatim iff there is no response or the body is not valid JSON; TypeError otherwise |
| `Client.Api.constructor` | src/Api.php:18-42 | stores the API URL; no session, namespace, method, response or body; params the empty array |
| `Client.Api.SessionName` | src/Api.php:49-54 | changes only the session name and returns the same instance |
| `Client.Api.SetClassName` | src/Api.php:71-76 | changes only the class name (null clears it) and returns the same instance |
| `Client.Api.Get` | src/Api.php:61-64 | a property access records its name as the class name, nothing else, and returns the same instance |
| `Client.Api.SetMethodName` | src/Api.php:103-108 | changes only the method name and returns the same instance |
| `Client.Api.SetParams` | src/Api.php:136-141 | changes only the params and returns the same instance |
| `Client.Api.ResetCallData` | src/Api.php:158-161 | clears the response and nothing else |
| `Client.Api.Call` | src/Api.php:84-96 | clears the response, sets the method name, sets params to the first argument when it is present and not null, else to `[]`; namespace and session are unchanged |
| `Client.Api.PrepareRequestOptions` | src/Api.php:183-188 | the request body becomes `WrapParams(params)`; nothing else changes |
| `Client.Api.Send` | src/Api.php:117-129 | posts `WrapParams(params)` to `GenRequestUrl(apiUrl, session, GenAction(namespace, method))`. A completed exchange is stored as the response and its `GetContent` returned. An exception leaves the response unchanged and ends in `HandleRequestException`. Builder fields are unchanged |

## Left out

- The Guzzle client: its construction with the `Content-Type: application/json` header
  (src/Api.php:39-41), the POST itself, and every other `requestOptions` key. This is
  network I/O in a foreign library, so it is replaced by the `transport` parameter of `Send`.
- Exceptions from the transport that are not request exceptions (a Guzzle
  `ConnectException`, for example). PHP lets them propagate uncaught. Every transport
  failure in the model is a `Raised` outcome, which the request-exception handler
  classifies.
- `json_encode` and `json_decode`: there is no serialisation or parsing. Floats are not in `Json`, and
  neither are PHP arrays with mixed or integer keys that would encode as objects.
- Client.Api.Send: requires a method name, because reading the uninitialised typed
  property `methodName` before any call is a PHP runtime error.
- Client.Api.Call: requires a set first argument to be an array, because the `array`-typed
  `params` property throws a `TypeError` for anything else.
- Decoded `errors`: the model keeps only a list of items with string messages. It does not
  model errors in other shapes: a non-empty non-array value, a JSON object, items without
  a `message` (join would turn null into ""), or non-string messages. PHP fails or coerces
  those in ways not represented here.
- `FailedRequest` is only the `Failed(message)` result. Its class is not part of this model.
- PHP's dispatch of arbitrary names through `__get`/`__call`, and real methods and the public properties `response` and `requestOptions` shadowing
  such names: the name is an explicit string argument.
- Concurrent use of one builder: PHP runs this single-threaded. The model has no concurrency.
