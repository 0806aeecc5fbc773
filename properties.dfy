/** What a call of `MultiChainClient` promises, stated over `CallSpec`, the
    specification `Client.Call` is proved against. */
module MultiChainProperties {
  import opened Wrappers
  import opened Json
  import opened Text
  import opened MultiChain

  /** `s` contains `pat` somewhere. */
  ghost predicate Contains(s: string, pat: string) {
    exists i :: OccursAt(s, pat, i)
  }

  /** An unknown option name changes nothing, so no later call can tell it was set. */
  lemma UnknownOptionIsInvisible(cfg: Config, st: State, option: string, value: Value,
                                 procedure: string, args: seq<Value>, id: int, net: Outcome)
    requires option != "chainname" && option != "verifyssl"
    ensures WithOption(st, option, value) == st
    ensures CallSpec(cfg, WithOption(st, option, value), procedure, args, id, net) == CallSpec(cfg, st, procedure, args, id, net)
  {
  }

  /** A callable argument stops the call before anything is built or sent. */
  lemma CallableArgumentRejected(cfg: Config, st: State, procedure: string, args: seq<Value>, id: int, net: Outcome)
    requires exists i :: 0 <= i < |args| && args[i].Callable?
    ensures var step := CallSpec(cfg, st, procedure, args, id, net);
      step.result == None && step.sent == None &&
      step.after == st.(errorCode := Num(-1), errorMessage := Str(FunctionArgumentMessage))
  {
  }

  /** The envelope can be encoded exactly when every argument can and, if it is
      sent at all, the chain name can. */
  lemma EnvelopeIsJsonIff(id: int, procedure: string, args: seq<Value>, chainname: Value)
    ensures IsJson(Envelope(id, procedure, args, chainname)) <==>
              (forall i | 0 <= i < |args| :: IsJson(args[i])) && (Truthy(chainname) ==> IsJson(chainname))
  {
    var env := Envelope(id, procedure, args, chainname);
    assert env.fields[0].1 == Num(id) && env.fields[1].1 == Str(procedure) && env.fields[2].1 == Arr(args);
    assert Truthy(chainname) ==> env.fields[3].1 == chainname;
  }

  /** A request reaches the transport exactly when no argument is callable and
      the envelope is JSON; it then carries the endpoint URL, the fixed headers,
      the credentials, the envelope and whether the certificate is checked. */
  lemma RequestSentIff(cfg: Config, st: State, procedure: string, args: seq<Value>, id: int, net: Outcome)
    ensures var step := CallSpec(cfg, st, procedure, args, id, net);
      step.sent.Some? <==>
        (forall i | 0 <= i < |args| :: !args[i].Callable?) && IsJson(Envelope(id, procedure, args, st.chainname))
    ensures var step := CallSpec(cfg, st, procedure, args, id, net);
      step.sent.Some? ==>
        step.sent.value == Request(Url(cfg), Headers(), Credentials(cfg), Envelope(id, procedure, args, st.chainname),
                                   Truthy(st.verifyssl))
  {
    OffenderIffNotJson(Envelope(id, procedure, args, st.chainname));
  }

  /** An argument (or a truthy chain name) the encoder cannot write, such as a
      function nested in a list, fails the call with -1 and the encoder's error. */
  lemma UnencodableRequestRejected(cfg: Config, st: State, procedure: string, args: seq<Value>, id: int, net: Outcome)
    requires forall i | 0 <= i < |args| :: !args[i].Callable?
    requires (exists i | 0 <= i < |args| :: !IsJson(args[i])) || (Truthy(st.chainname) && !IsJson(st.chainname))
    ensures var step := CallSpec(cfg, st, procedure, args, id, net);
      step.result == None && step.sent == None &&
      step.after.chainname == st.chainname && step.after.verifyssl == st.verifyssl &&
      step.after.errorCode == Num(-1) && step.after.errorMessage.Str? &&
      |step.after.errorMessage.s| >= |SerialisationPrefix| &&
      step.after.errorMessage.s[..|SerialisationPrefix|] == SerialisationPrefix
  {
    var env := Envelope(id, procedure, args, st.chainname);
    EnvelopeIsJsonIff(id, procedure, args, st.chainname);
    OffenderIffNotJson(env);
  }

  /** An HTTP error whose body gives no usable `error` object leaves the
      status and reason phrase in the register. */
  lemma HttpErrorKeepsStatus(status: int, reason: string, body: Body)
    requires !body.Parsed? || Index(body.value, "error") in {None, Some(Null)}
    ensures HttpErrorRegister(status, reason, body) == (Num(status), Str(reason))
  {
  }

  /** A non-null `error` object with a `code` and a `message` replaces both.
      Usage text (a code of -1 and a string message with a blank line) gets the
      "Wrong parameters. Usage:" prefix; any other message, a null or a number
      included, is stored as the daemon sent it. */
  lemma HttpErrorObjectOverrides(status: int, reason: string, v: Value, err: Value, code: Value, message: Value)
    requires Index(v, "error") == Some(err) && err != Null
    requires Index(err, "code") == Some(code) && Index(err, "message") == Some(message)
    ensures HttpErrorRegister(status, reason, Parsed(v)) ==
      (code, if PyEqualsInt(code, -1) && message.Str? && Contains(message.s, "\n\n")
             then Str(UsagePrefix + message.s) else message)
  {
  }

  /** An `error` object with a `code` but no `message` still replaces the code:
      the code is written before the missing message raises. */
  lemma HttpErrorCodeWithoutMessage(status: int, reason: string, v: Value, err: Value, code: Value)
    requires Index(v, "error") == Some(err) && err != Null
    requires Index(err, "code") == Some(code) && Index(err, "message") == None
    ensures HttpErrorRegister(status, reason, Parsed(v)) == (code, Str(reason))
  {
  }

  /** The daemon's answer to a call with the wrong number of parameters. */
  lemma WrongParametersExample(status: int, reason: string)
    ensures var message := "Wrong number of parameters\n\nusage: foo bar";
      var body := Parsed(Obj([("error", Obj([("code", Num(-1)), ("message", Str(message))]))]));
      HttpErrorRegister(status, reason, body) == (Num(-1), Str(UsagePrefix + message))
  {
    var message := "Wrong number of parameters\n\nusage: foo bar";
    var err := Obj([("code", Num(-1)), ("message", Str(message))]);
    assert message[26..28] == "\n\n";
    assert OccursAt(message, "\n\n", 26);
    assert UsageAdjusted(Num(-1), Str(message)) == Str(UsagePrefix + message);
    LookupAppended([], "error", err, "error");
    LookupAppended([], "code", Num(-1), "code");
    assert "code" != "message";
    LookupAppended([("code", Num(-1))], "message", Str(message), "code");
    LookupAppended([("code", Num(-1))], "message", Str(message), "message");
  }

  /** Every HTTP error response returns nothing and records the normalised error. */
  lemma HttpErrorReturnsNothing(cfg: Config, st: State, procedure: string, args: seq<Value>, id: int,
                                status: ErrorStatus, reason: string, body: Body)
    ensures var step := CallSpec(cfg, st, procedure, args, id, HttpError(status, reason, body));
      step.result == None &&
      (step.sent.Some? ==> (step.after.errorCode, step.after.errorMessage) == HttpErrorRegister(status, reason, body))
  {
  }

  /** No HTTP response at all: 502 and the transport's reason. */
  lemma TransportFailureRecords502(cfg: Config, st: State, procedure: string, args: seq<Value>, id: int, reason: string)
    ensures var step := CallSpec(cfg, st, procedure, args, id, TransportFail(reason));
      step.result == None &&
      (step.sent.Some? ==> step.after == st.(errorCode := Num(502), errorMessage := Str(reason)))
  {
  }

  /** A 2xx response returns its `result` member unchanged, whatever JSON value
      it is, and touches no state; without one the call fails with -1. */
  lemma OkResponseResult(cfg: Config, st: State, procedure: string, args: seq<Value>, id: int, body: Body)
    ensures var step := CallSpec(cfg, st, procedure, args, id, Ok(body));
      step.sent.Some? ==>
        if body.Parsed? && Index(body.value, "result").Some?
        then step.result == Index(body.value, "result") && step.after == st
        else step.result == None &&
             step.after == st.(errorCode := Num(-1), errorMessage := Str(InvalidResponseMessage))
  {
  }

  /** A call that returns nothing leaves `success()` false and a string
      message, unless an HTTP error body's `error` object supplied the code:
      the client's own codes are -1 and 502, and an HTTP error status is never 0. */
  lemma UnansweredCallRecordsFailure(cfg: Config, st: State, procedure: string, args: seq<Value>, id: int, net: Outcome)
    requires CallSpec(cfg, st, procedure, args, id, net).result.None?
    ensures var step := CallSpec(cfg, st, procedure, args, id, net);
      Succeeded(step.after) || !step.after.errorMessage.Str? ==>
        net.HttpError? && step.sent.Some? && ErrorObjectMember(net.body, "code").Some?
  {
  }

  /** One call of a sequence: which procedure, with what, and what the network did. */
  datatype CallInput = CallInput(procedure: string, args: seq<Value>, id: int, net: Outcome)

  /** The values a sequence of calls on one client returns, and its final state. */
  function Replay(cfg: Config, st: State, calls: seq<CallInput>): (r: (seq<Option<Value>>, State))
    ensures |r.0| == |calls|
    decreases |calls|
  {
    if |calls| == 0 then ([], st)
    else
      var c := calls[0];
      var step := CallSpec(cfg, st, c.procedure, c.args, c.id, c.net);
      var rest := Replay(cfg, step.after, calls[1..]);
      ([step.result] + rest.0, rest.1)
  }

  /** However many calls return a value, the register stays what it was before them. */
  lemma {:induction false} AnsweredCallsKeepRegister(cfg: Config, st: State, calls: seq<CallInput>)
    requires forall i | 0 <= i < |calls| :: Replay(cfg, st, calls).0[i].Some?
    ensures Replay(cfg, st, calls).1 == st
    decreases |calls|
  {
    if |calls| > 0 {
      var c := calls[0];
      var step := CallSpec(cfg, st, c.procedure, c.args, c.id, c.net);
      assert Replay(cfg, st, calls).0[0] == step.result;
      var rest := Replay(cfg, st, calls[1..]);
      forall i | 0 <= i < |calls| - 1 ensures rest.0[i].Some? {
        assert Replay(cfg, st, calls).0[i + 1] == rest.0[i];
      }
      AnsweredCallsKeepRegister(cfg, st, calls[1..]);
    }
  }

  /** So once a call has failed, `success()` stays false through any number of
      later calls that return values. */
  lemma FailureOutlivesLaterSuccesses(cfg: Config, st: State, calls: seq<CallInput>)
    requires !Succeeded(st)
    requires forall i | 0 <= i < |calls| :: Replay(cfg, st, calls).0[i].Some?
    ensures !Succeeded(Replay(cfg, st, calls).1)
  {
    AnsweredCallsKeepRegister(cfg, st, calls);
  }
}
