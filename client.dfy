/**
 * The fluent request builder: a namespace accessor and a method call record what to
 * invoke, `Send` posts `{"data": params}` to `<api url>[/<session>]/[<namespace>.]<method>`
 * and classifies the outcome.
 */
module Client {
  import opened Wrappers
  import opened Json
  import Strings
  import Exceptions

  /** The key under which the parameters are wrapped in every request body. */
  const ParamsWrapKey: string := "data"

  /** PHP `empty()` on an optional string property: unset, null, "" and "0" are all empty. */
  predicate PhpEmpty(s: Option<string>)
  {
    s.None? || s.value == "" || s.value == "0"
  }

  /** The string a property contributes to the URL: nothing when it is PHP-empty. */
  function Present(s: Option<string>): (p: Option<string>)
    ensures p.None? <==> PhpEmpty(s)
    ensures p.Some? ==> p == s
  {
    if PhpEmpty(s) then None else s
  }

  /** A response whose exchange completed: its status code and its decoded body. */
  datatype Response = Response(status: int, body: Decoded)

  /**
   * What the transport did with a POST.
   * Completed: it returned a response.
   * Raised: it threw a request exception, possibly carrying the response it failed on
   *   (given as its decoded body), with its own error description.
   */
  datatype TransportOutcome =
    | Completed(status: int, body: Decoded)
    | Raised(errorBody: Option<Decoded>, errMsg: string)

  /**
   * What `send` ends in.
   * Value: the decoded content is returned. False: the sentinel `false` is returned.
   * ApiErr: an ApiError with this message is thrown. Failed: a FailedRequest with this
   * message is thrown. TypeErr: the PHP runtime throws a TypeError because a valid error
   * body is not an object.
   */
  datatype SendResult =
    | Value(v: Decoded)
    | False
    | ApiErr(message: string)
    | Failed(message: string)
    | TypeErr

  /**
   * Whether a result is PHP's `false` as the caller receives it: the sentinel, or a
   * decoded body that is itself the JSON document `false`. PHP cannot tell them apart.
   */
  predicate IsPhpFalse(r: SendResult)
  {
    r.False? || (r.Value? && r.v == Other(JBool(false)))
  }

  /** The action segment: the method, prefixed by the namespace and a dot when one is set. */
  function GenAction(className: Option<string>, methodName: string): (action: string)
    ensures |methodName| <= |action| && action[|action| - |methodName|..] == methodName
    ensures |action| == |methodName| <==> PhpEmpty(className)
    ensures !PhpEmpty(className) ==>
              |className.value| + 1 <= |action| && action[..|className.value| + 1] == className.value + "."
    ensures !PhpEmpty(className) ==> |action| == |className.value| + 1 + |methodName|
  {
    if PhpEmpty(className) then methodName else className.value + "." + methodName
  }

  /** The request URL: the API URL, then the session as a path segment when one is set, then the action. */
  function GenRequestUrl(apiUrl: string, sessionName: Option<string>, action: string): (url: string)
    ensures |apiUrl| + 1 + |action| <= |url|
    ensures url[..|apiUrl| + 1] == apiUrl + "/" && url[|url| - |action|..] == action
    ensures |url| == |apiUrl| + 1 + |action| <==> PhpEmpty(sessionName)
    ensures !PhpEmpty(sessionName) ==>
              |apiUrl| + 2 + |sessionName.value| <= |url| &&
              url[|apiUrl| + 1..|apiUrl| + 2 + |sessionName.value|] == sessionName.value + "/"
    ensures !PhpEmpty(sessionName) ==> |url| == |apiUrl| + 2 + |sessionName.value| + |action|
  {
    if PhpEmpty(sessionName) then apiUrl + "/" + action
    else apiUrl + "/" + sessionName.value + "/" + action
  }

  /** Reads an action back into its namespace (if any) and its method, cutting at the first dot. */
  function ParseAction(action: string): (Option<string>, string)
  {
    match Strings.SplitAtFirst(action, '.')
    case None => (None, action)
    case Some((ns, m)) => (Some(ns), m)
  }

  /** Reads a URL under `apiUrl` back into its session (if any) and its action, cutting at the first slash. */
  function ParseRequestUrl(apiUrl: string, url: string): Option<(Option<string>, string)>
  {
    if |url| <= |apiUrl| || url[..|apiUrl| + 1] != apiUrl + "/" then None
    else
      var rest := url[|apiUrl| + 1..];
      match Strings.SplitAtFirst(rest, '/')
      case None => Some((None, rest))
      case Some((session, action)) => Some((Some(session), action))
  }

  /**
   * The action keeps exactly the namespace's presence and the method: names without dots
   * are read back, and a PHP-empty namespace ("" or "0" included) leaves no trace.
   */
  lemma ActionRoundTrip(className: Option<string>, methodName: string)
    requires '.' !in methodName
    requires !PhpEmpty(className) ==> '.' !in className.value
    ensures ParseAction(GenAction(className, methodName)) == (Present(className), methodName)
  {
    if !PhpEmpty(className) {
      Strings.SplitAtFirstRecovers(className.value, '.', methodName);
    }
  }

  /**
   * The URL keeps exactly the session's presence and the action: a session and an action
   * without slashes are read back, and a PHP-empty session leaves no path segment.
   */
  lemma RequestUrlRoundTrip(apiUrl: string, sessionName: Option<string>, action: string)
    requires '/' !in action
    requires !PhpEmpty(sessionName) ==> '/' !in sessionName.value
    ensures ParseRequestUrl(apiUrl, GenRequestUrl(apiUrl, sessionName, action))
            == Some((Present(sessionName), action))
  {
    var url := GenRequestUrl(apiUrl, sessionName, action);
    var rest := url[|apiUrl| + 1..];
    if PhpEmpty(sessionName) {
      assert rest == action;
    } else {
      assert rest == sessionName.value + ['/'] + action;
      Strings.SplitAtFirstRecovers(sessionName.value, '/', action);
    }
  }

  /** The request body: an object whose only key is "data", holding the parameters, empty or not. */
  function WrapParams(params: PhpArray): (body: Json)
    ensures body.JObj? && Keys(body.props) == [ParamsWrapKey]
    ensures Lookup(body.props, ParamsWrapKey) == Some(params)
  {
    JObj([Prop(ParamsWrapKey, params)])
  }

  /**
   * The content of a completed response: `false` when the status is above 400 (400 itself
   * is decoded) or the body decodes to null (an invalid or empty body included), and the
   * decoded value unchanged otherwise.
   */
  function GetContent(response: Response): (r: SendResult)
    ensures r.Value? || r.False?
    ensures response.status > 400 ==> r == False
    ensures response.status <= 400 ==> (r.False? <==> response.body.Invalid? || response.body.Null?)
    ensures r.Value? ==> r.v == response.body
    ensures IsPhpFalse(r) <==>
              response.status > 400 || response.body.Invalid? || response.body.Null?
              || response.body == Other(JBool(false))
  {
    if response.status > 400 then False
    else if response.body.Invalid? || response.body.Null? then False
    else Value(response.body)
  }

  /**
   * The error a request exception ends in; never a value. An ApiError filled from the body
   * when the exception carries a response whose body is valid JSON and an object; a TypeError
   * when that valid body is not an object; otherwise a FailedRequest with the transport's
   * message verbatim.
   */
  function HandleRequestException(errorBody: Option<Decoded>, errMsg: string): (r: SendResult)
    ensures r.ApiErr? || r.Failed? || r.TypeErr?
    ensures r.ApiErr? <==> errorBody.Some? && errorBody.value.Obj?
    ensures r.ApiErr? ==> r.message == Exceptions.FilledMessage(Exceptions.DefaultMessage, errorBody.value.errors)
    ensures r.Failed? <==> errorBody.None? || errorBody.value.Invalid?
    ensures r.Failed? ==> r.message == errMsg
  {
    if errorBody.Some? && !errorBody.value.Invalid? then
      if errorBody.value.Obj? then
        ApiErr(Exceptions.FilledMessage(Exceptions.DefaultMessage, errorBody.value.errors))
      else TypeErr
    else Failed(errMsg)
  }

  /** Whether a positional argument list passes PHP's `isset($arguments[0])`. */
  predicate IsSet(arguments: seq<Json>)
  {
    |arguments| > 0 && arguments[0] != JNull
  }

  /** A snapshot of every field of an Api object that its methods change. */
  datatype ApiState = ApiState(
    sessionName: Option<string>,
    className: Option<string>,
    methodName: Option<string>,
    params: PhpArray,
    response: Option<Response>,
    requestBody: Option<Json>)

  /** The request builder; one instance is reused across calls. */
  class Api {
    /** The base API URL given at construction. */
    const apiUrl: string
    var sessionName: Option<string>
    var className: Option<string>
    var methodName: Option<string>
    var params: PhpArray
    var response: Option<Response>
    /** The value stored under requestOptions['body'], before encoding. */
    var requestBody: Option<Json>

    function State(): ApiState
      reads this
    {
      ApiState(sessionName, className, methodName, params, response, requestBody)
    }

    constructor (apiUrl: string)
      ensures this.apiUrl == apiUrl
      ensures State() == ApiState(None, None, None, EmptyArray, None, None)
    {
      this.apiUrl := apiUrl;
      sessionName, className, methodName := None, None, None;
      params := EmptyArray;
      response, requestBody := None, None;
    }

    /** Sets the session name; returns this same builder. */
    method SessionName(name: string) returns (self: Api)
      modifies this
      ensures self == this
      ensures State() == old(State()).(sessionName := Some(name))
    {
      sessionName := Some(name);
      self := this;
    }

    /** Sets the namespace (the API class name); null clears it. Returns this same builder. */
    method SetClassName(name: Option<string>) returns (self: Api)
      modifies this
      ensures self == this
      ensures State() == old(State()).(className := name)
    {
      className := name;
      self := this;
    }

    /** Property access `$api->name`: records `name` as the namespace. */
    method Get(name: string) returns (self: Api)
      modifies this
      ensures self == this
      ensures State() == old(State()).(className := Some(name))
    {
      self := SetClassName(Some(name));
    }

    /** Sets the method name; returns this same builder. */
    method SetMethodName(name: string) returns (self: Api)
      modifies this
      ensures self == this
      ensures State() == old(State()).(methodName := Some(name))
    {
      methodName := Some(name);
      self := this;
    }

    /** Replaces the parameters; returns this same builder. */
    method SetParams(params: PhpArray) returns (self: Api)
      modifies this
      ensures self == this
      ensures State() == old(State()).(params := params)
    {
      this.params := params;
      self := this;
    }

    /** Forgets the response of the previous call. */
    method ResetCallData()
      modifies this
      ensures State() == old(State()).(response := None)
    {
      response := None;
    }

    /**
     * Method call `$api->name(...$arguments)`: forgets the previous response, records the
     * method and takes the first argument as the parameters when it is set, the empty array
     * otherwise. Namespace and session are kept. Nothing is sent.
     */
    method Call(name: string, arguments: seq<Json>) returns (self: Api)
      requires IsSet(arguments) ==> arguments[0].JArr? || arguments[0].JObj?
      modifies this
      ensures self == this
      ensures State() == old(State()).(
        response := None,
        methodName := Some(name),
        params := if IsSet(arguments) then arguments[0] else EmptyArray)
    {
      ResetCallData();
      var _ := SetMethodName(name);
      if IsSet(arguments) {
        var _ := SetParams(arguments[0]);
      } else {
        var _ := SetParams(EmptyArray);
      }
      self := this;
    }

    /** Stores the wrapped parameters as the request body. */
    method PrepareRequestOptions()
      modifies this
      ensures State() == old(State()).(requestBody := Some(WrapParams(params)))
    {
      requestBody := Some(WrapParams(params));
    }

    /**
     * Posts the wrapped parameters to the request URL through `transport` and classifies
     * the outcome. A completed exchange is stored as the response and its content returned;
     * a request exception leaves the response as it was and ends in the error it maps to.
     */
    method Send(transport: (string, Json) -> TransportOutcome) returns (result: SendResult)
      requires methodName.Some?
      modifies this
      ensures
        var body := WrapParams(old(params));
        var url := GenRequestUrl(apiUrl, old(sessionName), GenAction(old(className), old(methodName).value));
        var outcome := transport(url, body);
        match outcome
        case Completed(status, decoded) =>
          State() == old(State()).(requestBody := Some(body), response := Some(Response(status, decoded)))
          && result == GetContent(Response(status, decoded))
        case Raised(errorBody, errMsg) =>
          State() == old(State()).(requestBody := Some(body))
          && result == HandleRequestException(errorBody, errMsg)
    {
      PrepareRequestOptions();
      var url := GenRequestUrl(apiUrl, sessionName, GenAction(className, methodName.value));
      var outcome := transport(url, requestBody.value);
      match outcome {
        case Completed(status, decoded) =>
          response := Some(Response(status, decoded));
          result := GetContent(response.value);
        case Raised(errorBody, errMsg) =>
          if errorBody.Some? && errorBody.value.Obj? {
            var error := new Exceptions.ApiError();
            error := error.FillMessageFromResponseErrors(errorBody.value);
            result := ApiErr(error.message);
          } else {
            result := HandleRequestException(errorBody, errMsg);
          }
      }
    }
  }
}
