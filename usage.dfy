/** What a caller can conclude from the builder's contracts alone. */
module Usage {
  import opened Wrappers
  import opened Json
  import opened Client

  /** A transport that answers every request from the fixed `outcome`. */
  function Always(outcome: TransportOutcome): (string, Json) -> TransportOutcome
  {
    (url: string, body: Json) => outcome
  }

  /** A transport that completes with `body` only when posted to `expected`. */
  function OnlyAt(expected: string, body: Decoded): (string, Json) -> TransportOutcome
  {
    (url: string, request: Json) => if url == expected then Completed(200, body) else Raised(None, "not found")
  }

  /** The URL of `users.create` in session `main`. */
  lemma MainUsersCreateUrl()
    ensures GenRequestUrl("https://api.example", Some("main"), GenAction(Some("users"), "create"))
            == "https://api.example/main/users.create"
  {
    var action := GenAction(Some("users"), "create");
    assert action == "users" + "." + "create";
    var url := GenRequestUrl("https://api.example", Some("main"), action);
    assert url == "https://api.example" + "/" + "main" + "/" + action;
  }

  method SessionAndNamespace()
  {
    var api := new Api("https://api.example");
    var _ := api.SessionName("main");
    var _ := api.Get("users");
    var _ := api.Call("create", [JObj([Prop("name", JStr("ann"))])]);
    assert api.requestBody == None;

    var ok := Obj([], [Prop("ok", JBool(true))]);
    MainUsersCreateUrl();
    var r := api.Send(OnlyAt("https://api.example/main/users.create", ok));
    assert r == Value(ok);
    assert api.requestBody == Some(JObj([Prop("data", JObj([Prop("name", JStr("ann"))]))]));
  }

  method NamespacePersists()
  {
    var api := new Api("https://api.example");
    var _ := api.Get("users");
    var _ := api.Call("create", []);
    var _ := api.Call("list", []);
    assert api.response == None && api.params == EmptyArray;
    var ok := Obj([], []);
    assert GenAction(Some("users"), "list") == "users.list";
    assert GenRequestUrl("https://api.example", None, GenAction(Some("users"), "list"))
        == "https://api.example/users.list";
    var r := api.Send(OnlyAt("https://api.example/users.list", ok));
    assert r == Value(ok);
  }

  method EmptyNamesLeaveNoTrace()
  {
    var api := new Api("https://api.example");
    var _ := api.SessionName("");
    var _ := api.Get("0");
    var _ := api.Call("ping", [JNull]);
    assert api.params == EmptyArray;
    var ok := Obj([], []);
    assert GenAction(Some("0"), "ping") == "ping";
    assert GenRequestUrl("https://api.example", Some(""), GenAction(Some("0"), "ping"))
        == "https://api.example/ping";
    var r := api.Send(OnlyAt("https://api.example/ping", ok));
    assert r == Value(ok);
  }

  /** A fresh builder calls `get` and sends it through a transport that always answers `outcome`. */
  method SendGet(outcome: TransportOutcome) returns (r: SendResult)
    ensures outcome.Completed? ==> r == GetContent(Response(outcome.status, outcome.body))
    ensures outcome.Raised? ==> r == HandleRequestException(outcome.errorBody, outcome.errMsg)
  {
    var api := new Api("https://api.example");
    var _ := api.Call("get", []);
    r := api.Send(Always(outcome));
  }

  method CompletedOutcomes()
  {
    var r := SendGet(Completed(200, Invalid));
    assert r == False;
    r := SendGet(Completed(400, Other(JNum(1))));
    assert r == Value(Other(JNum(1)));
    r := SendGet(Completed(401, Other(JNum(1))));
    assert r == False;
    // A body that decodes to `false` is returned as that value, which PHP cannot tell from the sentinel.
    r := SendGet(Completed(200, Other(JBool(false))));
    assert r != False && IsPhpFalse(r);
  }

  method ErrorOutcomes()
  {
    var errors := [ErrorItem("bad"), ErrorItem("worse")];
    Exceptions.TwoErrorsExample();
    var r := SendGet(Raised(Some(Obj(errors, [])), "422 Unprocessable"));
    assert r == ApiErr("bad & worse");
    r := SendGet(Raised(Some(Obj([], [])), "422 Unprocessable"));
    assert r == ApiErr(Exceptions.DefaultMessage);
    r := SendGet(Raised(Some(Invalid), "500 Internal Server Error"));
    assert r == Failed("500 Internal Server Error");
    r := SendGet(Raised(None, "cURL error 56: Recv failure"));
    assert r == Failed("cURL error 56: Recv failure");
  }
}
