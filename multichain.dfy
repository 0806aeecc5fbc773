/** `MultiChainClient`: a JSON-RPC-over-HTTP client for a MultiChain node.
    A call validates its arguments, builds the request envelope, serialises it,
    hands it to the HTTP transport and folds the outcome into a "last error"
    register (`errorCode`, `errorMessage`) that the accessors read.
    The transport is not modelled: its answer is the input `Outcome`, and what the
    client hands to it is reported as the `Request` a call sends. */
module MultiChain {
  import opened Wrappers
  import opened Json
  import opened Text

  /** Code recorded when no HTTP response arrives at all. */
  const DefaultErrorCode := 502
  const FunctionArgumentMessage := "Function passed as argument where data expected"
  const SerialisationPrefix := "JSON serialization error: "
  const UsagePrefix := "Wrong parameters. Usage:\n\n"
  const InvalidResponseMessage := "Invalid JSON response"

  /** The fixed part of the configuration, given to the constructor. */
  datatype Config = Config(host: string, port: Port, username: string, password: string, usessl: Value)

  /** The port as given: a number, or text that `str()` passes through unchanged. */
  datatype Port = PortNumber(n: int) | PortText(text: string)

  /** `str(port)`. */
  function PortString(p: Port): (t: string)
    ensures p.PortNumber? ==> ParseInt(t) == Some(p.n) && IsCanonical(t)
    ensures p.PortText? ==> t == p.text
  {
    match p
    case PortNumber(n) => IntToDecimal(n)
    case PortText(text) => text
  }

  /** The part of a client that its methods change: the two options and the register. */
  datatype State = State(chainname: Value, verifyssl: Value, errorCode: Value, errorMessage: Value)

  /** A response body as the JSON decoder sees it. */
  datatype Body = Empty | Unparsable | Parsed(value: Value)

  /** A status `urllib` reports as an `HTTPError`: a three-digit status line
      (`http.client` refuses any other) that is not 2xx. */
  type ErrorStatus = s: int | 100 <= s <= 999 && !(200 <= s < 300) witness 400

  /** What the HTTP transport makes of a request: no response at all (`URLError`),
      a response with a non-2xx status (`HTTPError`), or a 2xx response. */
  datatype Outcome =
    | TransportFail(reason: string)
    | HttpError(status: ErrorStatus, reason: string, body: Body)
    | Ok(body: Body)

  /** What the client hands to the transport. `credentials` is the `user:pass`
      text that goes, base64-encoded, into the `Authorization: Basic` header;
      `verifyCertificate` is false when an unverified TLS context is passed. */
  datatype Request = Request(url: string, headers: seq<(string, string)>, credentials: string,
                             payload: Value, verifyCertificate: bool)

  /** One call's effect: the value returned, the new state, the request sent (if any). */
  datatype Step = Step(result: Option<Value>, after: State, sent: Option<Request>)

  function InitialState(): State {
    State(Null, Bool(true), Num(0), Str(""))
  }

  /** `success()`: the last recorded code equals 0 in Python's sense. */
  predicate Succeeded(st: State)
    ensures Succeeded(st) <==> st.errorCode == Num(0) || st.errorCode == Bool(false)
  {
    PyEqualsInt(st.errorCode, 0)
  }

  /** `setoption(option, value)`: only the two known option names have an effect. */
  function WithOption(st: State, option: string, value: Value): (r: State)
    ensures r.errorCode == st.errorCode && r.errorMessage == st.errorMessage
    ensures r.chainname == (if option == "chainname" then value else st.chainname)
    ensures r.verifyssl == (if option == "verifyssl" then value else st.verifyssl)
  {
    var st := if option == "chainname" then st.(chainname := value) else st;
    if option == "verifyssl" then st.(verifyssl := value) else st
  }

  /** The endpoint URL: the scheme, "://", the host, ":" and `str(port)`. */
  function Url(cfg: Config): (u: string)
    ensures |u| >= 7 && (Truthy(cfg.usessl) <==> u[..5] == "https")
    ensures var port := PortString(cfg.port); |u| >= |port| && u[|u| - |port|..] == port
  {
    var scheme := if Truthy(cfg.usessl) then "https" else "http";
    var u := scheme + "://" + cfg.host + ":" + PortString(cfg.port);
    assert u[..|scheme|] == scheme && u[|scheme|] == ':';
    assert Truthy(cfg.usessl) <==> u[..5] == "https" by {
      if !Truthy(cfg.usessl) {
        assert u[..5][4] == ':';
      }
    }
    u
  }

  /** The URL names the endpoint: "https" iff TLS is on, then the host and the
      port, a number written as the canonical numeral that reads back as it. */
  lemma UrlNamesEndpoint(cfg: Config)
    ensures exists port ::
              Url(cfg) == (if Truthy(cfg.usessl) then "https" else "http") + "://" + cfg.host + ":" + port &&
              (cfg.port.PortNumber? ==> ParseInt(port) == Some(cfg.port.n) && IsCanonical(port)) &&
              (cfg.port.PortText? ==> port == cfg.port.text)
  {
    var port := PortString(cfg.port);
    var parsed := ParseInt(port);
    assert cfg.port.PortNumber? ==> parsed == Some(cfg.port.n) && IsCanonical(port);
    assert Url(cfg) == (if Truthy(cfg.usessl) then "https" else "http") + "://" + cfg.host + ":" + port &&
           (cfg.port.PortNumber? ==> ParseInt(port) == Some(cfg.port.n) && IsCanonical(port)) &&
           (cfg.port.PortText? ==> port == cfg.port.text);
  }

  /** The fixed request headers: a JSON body and a connection that closes after
      the reply, in that order. */
  function Headers(): (h: seq<(string, string)>)
    ensures |h| == 2 && h[0].0 != h[1].0
    ensures h[0] == ("Content-Type", "application/json") && h[1] == ("Connection", "close")
  {
    [("Content-Type", "application/json"), ("Connection", "close")]
  }

  /** The `user:pass` text of Basic authentication: the user name, a colon and
      the password. */
  function Credentials(cfg: Config): (c: string)
    ensures |c| == |cfg.username| + 1 + |cfg.password|
    ensures c[..|cfg.username|] == cfg.username && c[|cfg.username|] == ':'
    ensures c[|cfg.username| + 1..] == cfg.password
  {
    cfg.username + ":" + cfg.password
  }

  /** The request envelope: `id`, `method`, `params` and, only when the chain
      name is truthy, `chain_name`, in that order. */
  function Envelope(id: int, procedure: string, args: seq<Value>, chainname: Value): (env: Value)
    ensures env.Obj? && |env.fields| == if Truthy(chainname) then 4 else 3
    ensures env.fields[2].1 == Arr(args)
  {
    var base := [("id", Num(id)), ("method", Str(procedure)), ("params", Arr(args))];
    Obj(if Truthy(chainname) then base + [("chain_name", chainname)] else base)
  }

  /** Each key of the envelope holds what the call supplied; `chain_name` is
      there exactly when the chain name is truthy. */
  lemma EnvelopeFields(id: int, procedure: string, args: seq<Value>, chainname: Value)
    ensures var env := Envelope(id, procedure, args, chainname);
      env.Obj? && |env.fields| == (if Truthy(chainname) then 4 else 3) &&
      Index(env, "id") == Some(Num(id)) &&
      Index(env, "method") == Some(Str(procedure)) &&
      Index(env, "params") == Some(Arr(args)) &&
      Index(env, "chain_name") == if Truthy(chainname) then Some(chainname) else None
  {
    var base := [("id", Num(id)), ("method", Str(procedure)), ("params", Arr(args))];
    assert "id" != "method" && "id" != "params" && "method" != "params" by {
      assert "method"[0] != "params"[0];
    }
    assert "chain_name" !in {"id", "method", "params"};
    LookupAppended([], "id", Num(id), "id");
    LookupAppended([], "id", Num(id), "method");
    LookupAppended([], "id", Num(id), "params");
    LookupAppended([], "id", Num(id), "chain_name");
    assert [("id", Num(id))] + [("method", Str(procedure))] + [("params", Arr(args))] == base;
    LookupAppended([("id", Num(id))], "method", Str(procedure), "id");
    LookupAppended([("id", Num(id))], "method", Str(procedure), "method");
    LookupAppended([("id", Num(id))], "method", Str(procedure), "params");
    LookupAppended([("id", Num(id))], "method", Str(procedure), "chain_name");
    LookupAppended([("id", Num(id)), ("method", Str(procedure))], "params", Arr(args), "id");
    LookupAppended([("id", Num(id)), ("method", Str(procedure))], "params", Arr(args), "method");
    LookupAppended([("id", Num(id)), ("method", Str(procedure))], "params", Arr(args), "params");
    LookupAppended([("id", Num(id)), ("method", Str(procedure))], "params", Arr(args), "chain_name");
    LookupAppended(base, "chain_name", chainname, "id");
    LookupAppended(base, "chain_name", chainname, "method");
    LookupAppended(base, "chain_name", chainname, "params");
    LookupAppended(base, "chain_name", chainname, "chain_name");
  }

  predicate AnyCallable(args: seq<Value>) {
    exists i :: 0 <= i < |args| && args[i].Callable?
  }

  /** `message.find("\n\n") >= 0` on a code equal to -1 marks usage text. */
  function UsageAdjusted(code: Value, message: Value): (r: Value)
    ensures r != message <==>
              PyEqualsInt(code, -1) && message.Str? && exists i :: OccursAt(message.s, "\n\n", i)
    ensures r != message ==> r == Str(UsagePrefix + message.s)
  {
    if PyEqualsInt(code, -1) && message.Str? && Find(message.s, "\n\n") >= 0
    then Str(UsagePrefix + message.s)
    else message
  }

  /** `body["error"][key]` when the body parses, its `error` is not null and has `key`. */
  function ErrorObjectMember(body: Body, key: string): Option<Value> {
    if !body.Parsed? then None
    else match Index(body.value, "error")
      case None => None
      case Some(err) => if err == Null then None else Index(err, key)
  }

  /** The register after an HTTP error response: status and reason, replaced by
      the body's `error.code` and `error.message` as far as those lookups succeed. */
  function HttpErrorRegister(status: int, reason: string, body: Body): (reg: (Value, Value))
    ensures ErrorObjectMember(body, "code").None? ==> reg == (Num(status), Str(reason))
    ensures ErrorObjectMember(body, "code").Some? ==> reg.0 == ErrorObjectMember(body, "code").value
    ensures ErrorObjectMember(body, "message").None? ==> reg.1 == Str(reason)
    ensures ErrorObjectMember(body, "code").Some? && ErrorObjectMember(body, "message").Some? ==>
              reg.1 == UsageAdjusted(reg.0, ErrorObjectMember(body, "message").value)
  {
    var fallback := (Num(status), Str(reason));
    if !body.Parsed? then fallback
    else match Index(body.value, "error")
      case None => fallback
      case Some(err) =>
        if err == Null then fallback
        else match Index(err, "code")
          case None => fallback
          case Some(code) =>
            match Index(err, "message")
            case None => (code, Str(reason))
            case Some(message) => (code, UsageAdjusted(code, message))
  }

  /** The `result` member of a 2xx response body, if the body has one. */
  function ResultOf(body: Body): (r: Option<Value>)
    ensures r.Some? <==>
              body.Parsed? && body.value.Obj? && exists i :: 0 <= i < |body.value.fields| && body.value.fields[i].0 == "result"
  {
    if body.Parsed? then Index(body.value, "result") else None
  }

  function Failed(st: State, code: int, message: string): State {
    st.(errorCode := Num(code), errorMessage := Str(message))
  }

  /** One call of `procedure` with `args`: its value, the new state and the request sent. */
  function CallSpec(cfg: Config, st: State, procedure: string, args: seq<Value>, id: int, net: Outcome): (r: Step)
    ensures r.after.chainname == st.chainname && r.after.verifyssl == st.verifyssl
    ensures r.result.Some? ==> r.after == st && r.sent.Some? && net.Ok?
    ensures r.sent.None? ==> r.result.None? && r.after.errorCode == Num(-1) && r.after.errorMessage.Str?
  {
    if AnyCallable(args) then Step(None, Failed(st, -1, FunctionArgumentMessage), None)
    else
      var env := Envelope(id, procedure, args, st.chainname);
      match Offender(env)
      case Some(t) => Step(None, Failed(st, -1, SerialisationPrefix + TypeErrorText(t)), None)
      case None =>
        var request := Request(Url(cfg), Headers(), Credentials(cfg), env, Truthy(st.verifyssl));
        match net
        case TransportFail(reason) => Step(None, Failed(st, DefaultErrorCode, reason), Some(request))
        case HttpError(status, reason, body) =>
          var (code, message) := HttpErrorRegister(status, reason, body);
          Step(None, st.(errorCode := code, errorMessage := message), Some(request))
        case Ok(body) =>
          match ResultOf(body)
          case Some(v) => Step(Some(v), st, Some(request))
          case None => Step(None, Failed(st, -1, InvalidResponseMessage), Some(request))
  }

  /** The index of the first callable argument, or `|args|` when there is none. */
  method FirstCallable(args: seq<Value>) returns (k: nat)
    ensures k <= |args|
    ensures forall j :: 0 <= j < k ==> !args[j].Callable?
    ensures k < |args| ==> args[k].Callable?
  {
    k := 0;
    while k < |args|
      invariant k <= |args|
      invariant forall j :: 0 <= j < k ==> !args[j].Callable?
    {
      if args[k].Callable? {
        return;
      }
      k := k + 1;
    }
  }

  class Client {
    const host: string
    const port: Port
    const username: string
    const password: string
    const usessl: Value
    var chainname: Value
    var verifyssl: Value
    var errorCode: Value
    var errorMessage: Value

    function Cfg(): Config {
      Config(host, port, username, password, usessl)
    }

    function Snapshot(): State
      reads this
    {
      State(chainname, verifyssl, errorCode, errorMessage)
    }

    constructor (host: string, port: Port, username: string, password: string, usessl: Value := Bool(false))
      ensures Cfg() == Config(host, port, username, password, usessl)
      ensures Snapshot() == InitialState() && Success()
    {
      this.host := host;
      this.port := port;
      this.username := username;
      this.password := password;
      this.usessl := usessl;
      chainname := Null;
      verifyssl := Bool(true);
      errorCode := Num(0);
      errorMessage := Str("");
    }

    method SetOption(option: string, value: Value)
      modifies this
      ensures Snapshot() == WithOption(old(Snapshot()), option, value)
    {
      if option == "chainname" {
        chainname := value;
      }
      if option == "verifyssl" {
        verifyssl := value;
      }
    }

    /** Calls the remote procedure `procedure` with `args`; `id` is the request id
        (a millisecond timestamp) and `net` the transport's answer to the request. */
    method Call(procedure: string, args: seq<Value>, id: int, net: Outcome) returns (result: Option<Value>, sent: Option<Request>)
      modifies this
      ensures Step(result, Snapshot(), sent) == CallSpec(Cfg(), old(Snapshot()), procedure, args, id, net)
    {
      ghost var spec := CallSpec(Cfg(), Snapshot(), procedure, args, id, net);
      var k := FirstCallable(args);
      if k < |args| {
        errorCode := Num(-1);
        errorMessage := Str(FunctionArgumentMessage);
        return None, None;
      }
      assert !AnyCallable(args);

      var url := if Truthy(usessl) then "https" else "http";
      url := url + "://" + host + ":" + PortString(port);

      var request := [("id", Num(id)), ("method", Str(procedure)), ("params", Arr(args))];
      if Truthy(chainname) {
        request := request + [("chain_name", chainname)];
      }

      assert Obj(request) == Envelope(id, procedure, args, chainname);
      assert url == Url(Cfg());
      var unencodable := Offender(Obj(request));
      if unencodable.Some? {
        errorCode := Num(-1);
        errorMessage := Str(SerialisationPrefix + TypeErrorText(unencodable.value));
        return None, None;
      }

      sent := Some(Request(url, Headers(), username + ":" + password, Obj(request), Truthy(verifyssl)));
      assert spec.sent == sent;
      match net
      case HttpError(status, reason, body) =>
        RecordHttpError(status, reason, body);
        result := None;
      case TransportFail(reason) =>
        errorCode := Num(DefaultErrorCode);
        errorMessage := Str(reason);
        result := None;
      case Ok(body) =>
        var value := if body.Parsed? then Index(body.value, "result") else None;
        if value.Some? {
          result := value;
        } else {
          errorCode := Num(-1);
          errorMessage := Str(InvalidResponseMessage);
          result := None;
        }
    }

    /** The `HTTPError` handler: the status and reason phrase first, then the
        body's `error.code` and `error.message`, each written as soon as it is read. */
    method RecordHttpError(status: ErrorStatus, reason: string, body: Body)
      modifies this
      ensures chainname == old(chainname) && verifyssl == old(verifyssl)
      ensures (errorCode, errorMessage) == HttpErrorRegister(status, reason, body)
    {
      errorCode := Num(status);
      errorMessage := Str(reason);
      if body.Parsed? {
        var err := Index(body.value, "error");
        if err.Some? && err.value != Null {
          var code := Index(err.value, "code");
          if code.Some? {
            errorCode := code.value;
            var message := Index(err.value, "message");
            if message.Some? {
              errorMessage := message.value;
              if PyEqualsInt(errorCode, -1) && errorMessage.Str? && Find(errorMessage.s, "\n\n") >= 0 {
                errorMessage := Str(UsagePrefix + errorMessage.s);
              }
            }
          }
        }
      }
    }

    /** `errorcode()`: the code the last failing call recorded (0 if none failed). */
    function ErrorCode(): (code: Value)
      reads this
      ensures code == Snapshot().errorCode
    {
      errorCode
    }

    /** `errormessage()`: the message the last failing call recorded. */
    function ErrorMessage(): (message: Value)
      reads this
      ensures message == Snapshot().errorMessage
    {
      errorMessage
    }

    /** `success()`: whether the recorded code equals 0. */
    predicate Success()
      reads this
      ensures Success() <==> Succeeded(Snapshot())
    {
      PyEqualsInt(errorCode, 0)
    }
  }
}
