/**
 * `RpcClient`: the object holding a node's URL, its authentication and a retry budget,
 * and its `call` dispatcher, which builds the headers and the request body once and then
 * posts the request until it succeeds or the budget is spent.
 *
 * The network and the timer are a `Host` object: each `Fetch` hands out the next of a
 * given sequence of answers and records the request it was given, each `Sleep` records
 * its delay. The logger is a `Console` that records its error lines.
 */
module Client {
  import opened Results
  import opened Json
  import opened Base64
  import opened Retry
  import opened Surface
  import opened Sequences

  /** The `type` of an `AuthenticationOptions` object. */
  datatype AuthType = Bearer | ApiKey | Basic | NoAuth

  /** `AuthenticationOptions`; the optional properties are `None` when absent. */
  datatype AuthenticationOptions = AuthenticationOptions(
    kind: AuthType,
    token: Option<string>,
    key: Option<string>,
    username: Option<string>,
    password: Option<string>)

  /** HTTP request headers by name. */
  type Headers = map<string, string>

  /** The user-pass of section 2 of RFC 7617, with absent parts empty. */
  function BasicCredentials(a: AuthenticationOptions): string {
    a.username.GetOr("") + ":" + a.password.GetOr("")
  }

  /**
   * The headers `call` sends on every attempt, or the exception `btoa` throws for Basic
   * credentials it cannot encode.
   */
  function HeadersFor(auth: Option<AuthenticationOptions>): (r: Result<Headers, string>)
    ensures r.Failure? <==> auth.Some? && auth.value.kind.Basic? && Btoa(BasicCredentials(auth.value)).Failure?
    ensures r.Failure? ==> r.error == InvalidCharacterError
    ensures r.Success? ==> "Content-Type" in r.value && r.value["Content-Type"] == "application/json"
    ensures r.Success? ==> ("Authorization" in r.value <==> auth.Some? && (auth.value.kind.Bearer? || auth.value.kind.Basic?))
    ensures r.Success? ==> ("x-api-key" in r.value <==> auth.Some? && auth.value.kind.ApiKey?)
    ensures r.Success? ==> |r.value| == if auth.Some? && !auth.value.kind.NoAuth? then 2 else 1
  {
    var h := map["Content-Type" := "application/json"];
    match auth
    case None => Success(h)
    case Some(a) =>
      match a.kind
      case Bearer => Success(h["Authorization" := "Bearer " + a.token.GetOr("")])
      case ApiKey => Success(h["x-api-key" := a.key.GetOr("")])
      case Basic =>
        (match Btoa(BasicCredentials(a))
         case Failure(e) => Failure(e)
         case Success(encoded) => Success(h["Authorization" := "Basic " + encoded]))
      case NoAuth => Success(h)
  }

  /** Without authentication, or with type "none", only the content type is sent. */
  lemma NoAuthSendsContentTypeOnly(auth: Option<AuthenticationOptions>)
    requires auth.None? || auth.value.kind.NoAuth?
    ensures HeadersFor(auth) == Success(map["Content-Type" := "application/json"])
  {
    var h := HeadersFor(auth).value;
    assert h.Keys == {"Content-Type"};
  }

  /** A bearer token is sent as "Bearer " followed by the token (section 2.1 of RFC 6750). */
  lemma BearerHeader(a: AuthenticationOptions)
    requires a.kind.Bearer?
    ensures var h := HeadersFor(Some(a)).value;
      h["Authorization"][..7] == "Bearer " && h["Authorization"][7..] == a.token.GetOr("")
  {
  }

  /** An API key is sent as the whole `x-api-key` header. */
  lemma ApiKeyHeader(a: AuthenticationOptions)
    requires a.kind.ApiKey?
    ensures HeadersFor(Some(a)).value["x-api-key"] == a.key.GetOr("")
  {
  }

  /**
   * Basic credentials are sent as "Basic " followed by base64 text that decodes back to
   * "username:password" (section 2 of RFC 7617).
   */
  lemma BasicHeaderDecodes(a: AuthenticationOptions)
    requires a.kind.Basic? && HeadersFor(Some(a)).Success?
    ensures HeadersFor(Some(a)).value["Authorization"] == "Basic " + Btoa(BasicCredentials(a)).value
    ensures var v := HeadersFor(Some(a)).value["Authorization"];
      |v| >= 6 && v[..6] == "Basic " && Atob(v[6..]) == Some(BasicCredentials(a))
  {
    var encoded := Btoa(BasicCredentials(a)).value;
    BtoaRoundTrip(BasicCredentials(a));
    assert ("Basic " + encoded)[6..] == encoded;
  }

  /** `{action, ...params}`: the parameters are spread after the action. */
  function Payload(action: string, params: Object): (p: Object)
    ensures p.Keys == params.Keys + {"action"}
    ensures "action" !in params ==> p["action"] == Str(action)
    ensures forall k :: k in params ==> p[k] == params[k]
  {
    Spread(map["action" := Str(action)], params)
  }

  /**
   * The body `JSON.stringify(payload)` puts on the wire holds the action (unless a
   * parameter named "action" replaced it) and exactly the parameters that are not
   * `undefined`, each unchanged when JSON can carry it.
   */
  lemma WireBody(action: string, params: Object, k: string)
    ensures k in Serialize(Payload(action, params))
        <==> (k == "action" && "action" !in params) || (k in params && params[k] != Undefined)
    ensures k in params && Defined(params[k]) ==> Serialize(Payload(action, params))[k] == params[k]
    ensures "action" !in params ==> Serialize(Payload(action, params))["action"] == Str(action)
  {
  }

  /** Parameters that are all `undefined` leave the action alone in the body. */
  lemma UndefinedParamsDropped(action: string, params: Object)
    requires "action" !in params
    requires forall k :: k in params ==> params[k] == Undefined
    ensures Serialize(Payload(action, params)) == map["action" := Str(action)]
  {
    var body := Serialize(Payload(action, params));
    assert body.Keys == {"action"} by {
      forall k | k in body ensures k == "action" {
        WireBody(action, params, k);
      }
    }
  }

  /** `blockCount()` without an argument sends the action alone: its `include_cemented`
      key holds `undefined` and is dropped from the body. */
  lemma BlockCountOmitsIncludeCemented()
    ensures Serialize(Payload("block_count", Params(BlockCount(None)))) == map["action" := Str("block_count")]
  {
    assert Params(BlockCount(None)) == map["include_cemented" := Undefined];
    UndefinedParamsDropped("block_count", Params(BlockCount(None)));
  }

  /** What one `fetch` is asked to send. */
  datatype Request = Request(url: string, verb: string, headers: Headers, body: Object)

  /** `n` copies of a request. */
  function Repeat(req: Request, n: nat): (rs: seq<Request>)
    ensures |rs| == n && forall i :: 0 <= i < n ==> rs[i] == req
  {
    if n == 0 then [] else Repeat(req, n - 1) + [req]
  }

  /** The logger: the lines passed to `error`, in order. */
  class Console {
    var errors: seq<string>

    constructor()
      ensures errors == []
    {
      errors := [];
    }

    method Error(line: string)
      modifies this
      ensures errors == old(errors) + [line]
    {
      errors := errors + [line];
    }
  }

  /**
   * The world outside the client: `answers` are what the node gives to the coming
   * fetches, in order; `sent` and `slept` record the requests made and the delays waited.
   */
  class Host {
    var answers: seq<Outcome>
    var sent: seq<Request>
    var slept: seq<int>

    constructor(answers: seq<Outcome>)
      ensures this.answers == answers && sent == [] && slept == []
    {
      this.answers := answers;
      sent := [];
      slept := [];
    }

    /** `fetch(url, {method, headers, body})`: the next answer. */
    method Fetch(req: Request) returns (o: Outcome)
      requires answers != []
      modifies this
      ensures o == old(answers[0]) && answers == old(answers[1..])
      ensures sent == old(sent) + [req] && slept == old(slept)
    {
      o := answers[0];
      answers := answers[1..];
      sent := sent + [req];
    }

    /** `setTimeout(resolve, ms)`, awaited. */
    method Sleep(ms: int)
      modifies this
      ensures slept == old(slept) + [ms] && answers == old(answers) && sent == old(sent)
    {
      slept := slept + [ms];
    }
  }

  class RpcClient {
    const nodeUrl: string
    const auth: Option<AuthenticationOptions>
    const retries: int
    const logger: Console

    /** An omitted retry budget is 3; an omitted logger is a console of its own. */
    constructor(nodeUrl: string, auth: Option<AuthenticationOptions>, retries: Option<int>,
                logger: Option<Console>)
      ensures this.nodeUrl == nodeUrl && this.auth == auth
      ensures retries.None? ==> this.retries == 3
      ensures retries.Some? ==> this.retries == retries.value
      ensures logger.Some? ==> this.logger == logger.value
      ensures logger.None? ==> fresh(this.logger) && this.logger.errors == []
    {
      this.nodeUrl := nodeUrl;
      this.auth := auth;
      this.retries := retries.GetOr(3);
      if logger.Some? {
        this.logger := logger.value;
      } else {
        this.logger := new Console();
      }
    }

    /** The header object `call` fills in, one assignment per branch: the imperative
        form of `HeadersFor`, proved to build the same headers. */
    method BuildHeaders() returns (r: Result<Headers, string>)
      ensures r == HeadersFor(auth)
    {
      var headers: Headers := map["Content-Type" := "application/json"];
      if auth.Some? {
        var a := auth.value;
        if a.kind.Bearer? {
          headers := headers["Authorization" := "Bearer " + a.token.GetOr("")];
        } else if a.kind.ApiKey? {
          headers := headers["x-api-key" := a.key.GetOr("")];
        } else if a.kind.Basic? {
          var encoded := Btoa(BasicCredentials(a));
          if encoded.Failure? {
            return Failure(encoded.error);
          }
          headers := headers["Authorization" := "Basic " + encoded.value];
        }
      }
      return Success(headers);
    }

    /** The request every attempt of `call(action, params)` sends. */
    function RequestFor(action: string, params: Object, headers: Headers): Request {
      Request(nodeUrl, "POST", headers, Serialize(Payload(action, params)))
    }

    /**
     * What `call(action, params)` did between the two states: when the headers cannot be
     * built it throws `btoa`'s exception and touches nothing; otherwise it behaves as
     * `Dispatch` over the answers the host held, with the log lines, the delays, the
     * answers consumed and the requests sent that the run names.
     */
    twostate predicate Performed(action: string, params: Object, host: Host, new r: Result<Object, string>)
      requires HeadersFor(auth).Success? ==> MaxAttempts(retries) <= |old(host.answers)|
      reads this, logger, host
    {
      match HeadersFor(auth)
      case Failure(e) =>
        r == Failure(e) && logger.errors == old(logger.errors) && host.answers == old(host.answers)
        && host.sent == old(host.sent) && host.slept == old(host.slept)
      case Success(headers) =>
        var run := Dispatch(action, retries, old(host.answers));
        r == run.result
        && logger.errors == old(logger.errors) + run.log
        && host.slept == old(host.slept) + run.delays
        && host.answers == old(host.answers)[run.used..]
        && host.sent == old(host.sent) + Repeat(RequestFor(action, params, headers), run.used)
    }

    /**
     * `call(action, params)`. Once the headers are built, the host must hold an answer
     * for every attempt the budget allows.
     */
    method Call(action: string, params: Object, host: Host) returns (r: Result<Object, string>)
      requires HeadersFor(auth).Success? ==> MaxAttempts(retries) <= |host.answers|
      modifies logger, host
      ensures Performed(action, params, host, r)
    {
      var headersOrError := BuildHeaders();
      if headersOrError.Failure? {
        return Failure(headersOrError.error);
      }
      r := RetryLoop(action, RequestFor(action, params, headersOrError.value), host);
    }

    /**
     * The `while` loop of `call`: posts `request` until an attempt succeeds or the retry
     * budget is spent, logging each failed attempt and waiting 1000 ms times the attempt
     * number before the next one. It does what `Dispatch` says of the host's answers.
     */
    method RetryLoop(action: string, request: Request, host: Host) returns (r: Result<Object, string>)
      requires MaxAttempts(retries) <= |host.answers|
      modifies logger, host
      ensures var run := Dispatch(action, retries, old(host.answers));
        r == run.result
        && logger.errors == old(logger.errors) + run.log
        && host.slept == old(host.slept) + run.delays
        && host.answers == old(host.answers)[run.used..]
        && host.sent == old(host.sent) + Repeat(request, run.used)
    {
      ghost var answers := host.answers;
      ghost var logged: seq<string> := [];
      ghost var waited: seq<int> := [];
      var attempts := 0;
      while attempts <= retries
        invariant attempts <= MaxAttempts(retries)
        invariant attempts == 0 || attempts <= retries
        invariant host.answers == answers[attempts..]
        invariant host.sent == old(host.sent) + Repeat(request, attempts)
        invariant logger.errors == old(logger.errors) + logged
        invariant host.slept == old(host.slept) + waited
        invariant var rest := Loop(action, retries, answers, attempts);
          Dispatch(action, retries, answers) == Run(rest.result, logged + rest.log, waited + rest.delays, rest.used)
        decreases MaxAttempts(retries) - attempts
      {
        ghost var before := Loop(action, retries, answers, attempts);
        var outcome := host.Fetch(request);
        assert outcome == answers[attempts];
        Associative(old(host.sent), Repeat(request, attempts), [request]);
        assert Repeat(request, attempts + 1) == Repeat(request, attempts) + [request];
        attempts := attempts + 1;
        var settled := Settle(outcome);
        if settled.Success? {
          assert before == Run(settled, [], [], attempts);
          return settled;
        }
        var message := settled.error;
        var line := AttemptFailedLine(action, attempts, message);
        logger.Error(line);
        ghost var loggedBefore := logged;
        logged := logged + [line];
        Associative(old(logger.errors), loggedBefore, [line]);
        if attempts > retries {
          assert before == Run(Failure(ExhaustedMessage(action, retries, message)), [line], [], attempts);
          return Failure(ExhaustedMessage(action, retries, message));
        }
        host.Sleep(1000 * attempts);
        ghost var waitedBefore := waited;
        waited := waited + [1000 * attempts];
        Associative(old(host.slept), waitedBefore, [1000 * attempts]);
        ghost var rest := Loop(action, retries, answers, attempts);
        assert before == Run(rest.result, [line] + rest.log, [1000 * attempts] + rest.delays, rest.used);
        Associative(loggedBefore, [line], rest.log);
        Associative(waitedBefore, [1000 * attempts], rest.delays);
      }
      return Failure(UnexpectedMessage(action));
    }

    /**
     * The body of the `try` block once `fetch` has answered: the parsed body, or the
     * message of the error thrown for a non-2xx status, an unparsable body or a truthy
     * `error` field. This is the statement form of `Retry.Attempt`, proved to classify
     * every answer the same way.
     */
    static method Settle(outcome: Outcome) returns (r: Result<Object, string>)
      ensures r == Attempt(outcome)
    {
      match outcome {
        case Thrown(m) =>
          return Failure(m);
        case Reply(status, text, parse) =>
          if !IsOk(status) {
            return Failure(HttpErrorMessage(status, text));
          }
          match parse {
            case Malformed(m) =>
              return Failure(m);
            case Parsed(data) =>
              if Truthy(Get(data, "error")) {
                return Failure(RpcErrorMessage(data["error"]));
              }
              return Success(data);
          }
      }
    }

    /** A wrapper method: `call` with the action and parameters the wrapper builds. */
    method Send(m: RpcMethod, host: Host) returns (r: Result<Object, string>)
      requires HeadersFor(auth).Success? ==> MaxAttempts(retries) <= |host.answers|
      modifies logger, host
      ensures Performed(Shape(m).action, Shape(m).params, host, r)
    {
      r := Call(Shape(m).action, Shape(m).params, host);
    }
  }
}
