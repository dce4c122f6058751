/**
 * The retry policy of `RpcClient.call`, stated as functions of the answers the node
 * gives: which answers fail and with which message, the error line logged for each
 * failed attempt, the linear backoff between attempts and the message thrown once the
 * retry budget is spent. `Client.RpcClient.Call` is proved to behave as `Dispatch`.
 */
module Retry {
  import opened Results
  import opened Json

  /** The body of a reply as `response.json()` reads it. */
  datatype Parse =
    | Malformed(message: string)     // the body is not JSON: `response.json()` throws
    | Parsed(data: Object)           // the body parsed to this object

  /**
   * What one `fetch` of the node gives. A reply carries its status, its body as text
   * (what `response.text()` returns) and what JSON parsing of that body yields.
   */
  datatype Outcome =
    | Thrown(message: string)        // `fetch` itself rejected (connection refused, ...)
    | Reply(status: int, text: string, parse: Parse)

  /** `response.ok`: a status in the successful range 200-299 of section 15.3 of RFC 9110. */
  predicate IsOk(status: int) {
    200 <= status <= 299
  }

  /** The pieces of a template literal, concatenated in order. */
  function Concat(parts: seq<string>): string
    decreases |parts|
  {
    if parts == [] then "" else parts[0] + Concat(parts[1..])
  }

  // The fixed text of the error messages.
  const HttpErrorPrefix: string := "HTTP error! status: "
  const HttpErrorBody: string := ", body: "
  const RpcErrorPrefix: string := "RPC error: "
  const CallPrefix: string := "RPC call '"
  const AttemptWord: string := "' attempt "
  const FailedWord: string := " failed: "
  const FailedAfterWord: string := "' failed after "
  const RetriesWord: string := " retries: "
  const UnexpectedPrefix: string := "Unexpected error: Retries exhausted without success for action: "

  function HttpErrorMessage(status: int, text: string): string {
    Concat([HttpErrorPrefix, IntToDecimal(status), HttpErrorBody, text])
  }

  function RpcErrorMessage(error: Value): string {
    RpcErrorPrefix + ToJsString(error)
  }

  /** The error line logged for failed attempt number `attempt`. */
  function AttemptFailedLine(action: string, attempt: int, message: string): string {
    Concat([CallPrefix, action, AttemptWord, IntToDecimal(attempt), FailedWord, message])
  }

  /** The message thrown once every attempt has failed. */
  function ExhaustedMessage(action: string, retries: int, message: string): string {
    Concat([CallPrefix, action, FailedAfterWord, IntToDecimal(retries), RetriesWord, message])
  }

  /** The message thrown when the loop is never entered (a negative retry budget). */
  function UnexpectedMessage(action: string): string {
    UnexpectedPrefix + action
  }

  /**
   * One attempt: the parsed body it returns, or the message of the error it throws.
   * A non-2xx status fails with the body text; a body that does not parse fails with
   * the parser's message; a parsed body with a truthy `error` field fails as an RPC
   * error; anything else succeeds.
   */
  function Attempt(o: Outcome): (r: Result<Object, string>)
    ensures r.Success? <==> o.Reply? && IsOk(o.status) && o.parse.Parsed?
                            && !Truthy(Get(o.parse.data, "error"))
    ensures r.Success? ==> r.value == o.parse.data
    ensures o.Thrown? ==> r == Failure(o.message)
    ensures o.Reply? && !IsOk(o.status) ==> r == Failure(HttpErrorMessage(o.status, o.text))
  {
    match o
    case Thrown(m) => Failure(m)
    case Reply(status, text, parse) =>
      if !IsOk(status) then Failure(HttpErrorMessage(status, text))
      else
        match parse
        case Malformed(m) => Failure(m)
        case Parsed(data) =>
          if Truthy(Get(data, "error")) then Failure(RpcErrorMessage(data["error"]))
          else Success(data)
  }

  /** The messages of the two failures of a 2xx reply: an unparsable body fails with
      the parser's message, a truthy `error` field with "RPC error: <error>". */
  lemma AttemptFailsOn2xx(o: Outcome)
    requires o.Reply? && IsOk(o.status)
    ensures o.parse.Malformed? ==> Attempt(o) == Failure(o.parse.message)
    ensures o.parse.Parsed? && Truthy(Get(o.parse.data, "error")) ==>
              Attempt(o) == Failure(RpcErrorMessage(o.parse.data["error"]))
  {
  }

  /** The number of attempts a retry budget allows. */
  function MaxAttempts(retries: int): (n: nat)
    ensures retries >= 0 ==> n == retries + 1
    ensures retries < 0 ==> n == 0
  {
    if retries < 0 then 0 else retries + 1
  }

  /** What a call does: its outcome, the error lines it logs, the delays it sleeps and
      how many answers of the node it consumes. */
  datatype Run = Run(result: Result<Object, string>, log: seq<string>, delays: seq<int>, used: nat)

  /**
   * The loop `while (attempts <= retries)` entered with `attempts` attempts made so far
   * (at most `retries` of them once inside the loop); `outcomes[i]` answers attempt i+1.
   */
  function Loop(action: string, retries: int, outcomes: seq<Outcome>, attempts: nat): (run: Run)
    requires attempts <= MaxAttempts(retries) <= |outcomes|
    ensures attempts <= run.used <= MaxAttempts(retries)
    ensures run.result.Success? ==> run.used > attempts && Attempt(outcomes[run.used - 1]) == run.result
    ensures run.result.Failure? && run.used > attempts ==>
      run.used == MaxAttempts(retries) && Attempt(outcomes[run.used - 1]).Failure?
      && run.result.error == ExhaustedMessage(action, retries, Attempt(outcomes[run.used - 1]).error)
    decreases MaxAttempts(retries) - attempts
  {
    if attempts > retries then
      Run(Failure(UnexpectedMessage(action)), [], [], attempts)
    else
      var k := attempts + 1;
      match Attempt(outcomes[attempts])
      case Success(data) => Run(Success(data), [], [], k)
      case Failure(message) =>
        var line := AttemptFailedLine(action, k, message);
        if k > retries then
          Run(Failure(ExhaustedMessage(action, retries, message)), [line], [], k)
        else
          var rest := Loop(action, retries, outcomes, k);
          Run(rest.result, [line] + rest.log, [1000 * k] + rest.delays, rest.used)
  }

  /** A whole call, from its first attempt. */
  function Dispatch(action: string, retries: int, outcomes: seq<Outcome>): (run: Run)
    requires MaxAttempts(retries) <= |outcomes|
    ensures run.used <= MaxAttempts(retries)
  {
    Loop(action, retries, outcomes, 0)
  }

  /** The error lines of failed attempts `from`+1 .. `to`. */
  function FailureLines(action: string, outcomes: seq<Outcome>, from: nat, to: nat): (lines: seq<string>)
    requires from <= to <= |outcomes|
    requires forall i :: from <= i < to ==> Attempt(outcomes[i]).Failure?
    ensures |lines| == to - from
  {
    seq(to - from, j requires 0 <= j < to - from =>
      AttemptFailedLine(action, from + j + 1, Attempt(outcomes[from + j]).error))
  }

  /** The backoff delays slept after attempts `from`+1 .. `to`: 1000 ms times the attempt number. */
  function Backoff(from: nat, to: nat): (delays: seq<int>)
    requires from <= to
    ensures |delays| == to - from
    ensures forall j :: 0 <= j < |delays| ==> delays[j] == 1000 * (from + j + 1)
  {
    seq(to - from, j requires 0 <= j < to - from => 1000 * (from + j + 1))
  }

  lemma FailureLinesCons(action: string, outcomes: seq<Outcome>, from: nat, to: nat)
    requires from < to <= |outcomes|
    requires forall i :: from <= i < to ==> Attempt(outcomes[i]).Failure?
    ensures FailureLines(action, outcomes, from, to)
         == [AttemptFailedLine(action, from + 1, Attempt(outcomes[from]).error)]
            + FailureLines(action, outcomes, from + 1, to)
  {
  }

  lemma BackoffCons(from: nat, to: nat)
    requires from < to
    ensures Backoff(from, to) == [1000 * (from + 1)] + Backoff(from + 1, to)
  {
  }

  lemma {:induction false} LoopAllFail(action: string, retries: int, outcomes: seq<Outcome>, attempts: nat)
    requires retries >= 0 && attempts <= retries && retries + 1 <= |outcomes|
    requires forall i :: attempts <= i <= retries ==> Attempt(outcomes[i]).Failure?
    ensures Loop(action, retries, outcomes, attempts) ==
      Run(Failure(ExhaustedMessage(action, retries, Attempt(outcomes[retries]).error)),
          FailureLines(action, outcomes, attempts, retries + 1),
          Backoff(attempts, retries),
          retries + 1)
    decreases retries - attempts
  {
    var k := attempts + 1;
    if k <= retries {
      LoopAllFail(action, retries, outcomes, k);
      FailureLinesCons(action, outcomes, attempts, retries + 1);
      BackoffCons(attempts, retries);
    } else {
      assert FailureLines(action, outcomes, attempts, retries + 1)
          == [AttemptFailedLine(action, k, Attempt(outcomes[attempts]).error)];
    }
  }

  /**
   * When every attempt fails, exactly `retries + 1` attempts are made, each logs one
   * line naming its number, the delays are 1000, 2000, ..., 1000 * retries ms (none
   * after the last attempt) and the thrown message wraps the last failure.
   */
  lemma AllAttemptsFail(action: string, retries: int, outcomes: seq<Outcome>)
    requires retries >= 0 && retries + 1 <= |outcomes|
    requires forall i :: 0 <= i <= retries ==> Attempt(outcomes[i]).Failure?
    ensures var run := Dispatch(action, retries, outcomes);
      && run.used == retries + 1
      && run.result == Failure(ExhaustedMessage(action, retries, Attempt(outcomes[retries]).error))
      && |run.log| == retries + 1
      && (forall i :: 0 <= i <= retries ==>
            run.log[i] == AttemptFailedLine(action, i + 1, Attempt(outcomes[i]).error))
      && run.delays == Backoff(0, retries)
  {
    LoopAllFail(action, retries, outcomes, 0);
  }

  /** A negative retry budget makes no attempt, logs nothing and throws the "unexpected" error. */
  lemma NegativeRetriesMakeNoAttempt(action: string, retries: int, outcomes: seq<Outcome>)
    requires retries < 0
    ensures Dispatch(action, retries, outcomes) == Run(Failure(UnexpectedMessage(action)), [], [], 0)
  {
  }

  lemma {:induction false} LoopFirstSuccess(action: string, retries: int, outcomes: seq<Outcome>,
                                            attempts: nat, winner: nat)
    requires attempts <= winner && attempts <= retries && winner <= retries && retries + 1 <= |outcomes|
    requires Attempt(outcomes[winner]).Success?
    requires forall i :: attempts <= i < winner ==> Attempt(outcomes[i]).Failure?
    ensures Loop(action, retries, outcomes, attempts) ==
      Run(Attempt(outcomes[winner]), FailureLines(action, outcomes, attempts, winner),
          Backoff(attempts, winner), winner + 1)
    decreases winner - attempts
  {
    var k := attempts + 1;
    if attempts < winner {
      LoopFirstSuccess(action, retries, outcomes, k, winner);
      FailureLinesCons(action, outcomes, attempts, winner);
      BackoffCons(attempts, winner);
    } else {
      assert FailureLines(action, outcomes, attempts, winner) == [];
    }
  }

  /**
   * The first attempt that succeeds ends the call: its parsed body is returned as it
   * is, no later answer is consumed, and every earlier attempt logged its failure and
   * was followed by its backoff delay.
   */
  lemma FirstSuccessWins(action: string, retries: int, outcomes: seq<Outcome>, winner: nat)
    requires winner <= retries && retries + 1 <= |outcomes|
    requires Attempt(outcomes[winner]).Success?
    requires forall i :: 0 <= i < winner ==> Attempt(outcomes[i]).Failure?
    ensures var run := Dispatch(action, retries, outcomes);
      && run.result == Success(outcomes[winner].parse.data)
      && run.used == winner + 1
      && run.log == FailureLines(action, outcomes, 0, winner)
      && run.delays == Backoff(0, winner)
  {
    LoopFirstSuccess(action, retries, outcomes, 0, winner);
  }

  /** A call succeeds exactly when one of its `retries + 1` attempts succeeds. */
  lemma SucceedsIffSomeAttemptSucceeds(action: string, retries: int, outcomes: seq<Outcome>)
    requires MaxAttempts(retries) <= |outcomes|
    ensures Dispatch(action, retries, outcomes).result.Success?
        <==> exists i :: 0 <= i < MaxAttempts(retries) && Attempt(outcomes[i]).Success?
  {
    if exists i :: 0 <= i < MaxAttempts(retries) && Attempt(outcomes[i]).Success? {
      var winner := FirstSucceeding(outcomes, MaxAttempts(retries));
      FirstSuccessWins(action, retries, outcomes, winner);
    } else if retries >= 0 {
      AllAttemptsFail(action, retries, outcomes);
    }
  }

  /** The index of the first successful answer among the first `n`. */
  function FirstSucceeding(outcomes: seq<Outcome>, n: nat): (i: nat)
    requires n <= |outcomes|
    requires exists i :: 0 <= i < n && Attempt(outcomes[i]).Success?
    ensures i < n && Attempt(outcomes[i]).Success?
    ensures forall j :: 0 <= j < i ==> Attempt(outcomes[j]).Failure?
    decreases n
  {
    if exists i :: 0 <= i < n - 1 && Attempt(outcomes[i]).Success? then FirstSucceeding(outcomes, n - 1)
    else n - 1
  }

  /** A call never returns a body whose `error` field is truthy. */
  lemma NeverReturnsRpcError(action: string, retries: int, outcomes: seq<Outcome>)
    requires MaxAttempts(retries) <= |outcomes|
    ensures var run := Dispatch(action, retries, outcomes);
      run.result.Success? ==> !Truthy(Get(run.result.value, "error"))
  {
  }

  /**
   * A 2xx reply whose `error` field is truthy fails with "RPC error: <error>", the same
   * failure a transport error with that message gives; an empty-string `error` is no
   * error at all.
   */
  lemma ErrorFieldFails(status: int, text: string, data: Object)
    requires IsOk(status)
    ensures Truthy(Get(data, "error")) ==>
      Attempt(Reply(status, text, Parsed(data))) == Failure(RpcErrorMessage(data["error"]))
      == Attempt(Thrown(RpcErrorMessage(data["error"])))
    ensures Get(data, "error") == Str("") ==> Attempt(Reply(status, text, Parsed(data))) == Success(data)
  {
  }

  /**
   * The loop sees an answer only through what `Attempt` makes of it: answers that fail
   * with the same message (an RPC error, an HTTP error, a transport error) are retried
   * alike.
   */
  lemma {:induction false} LoopOnlySeesAttempts(action: string, retries: int, a: seq<Outcome>,
                                                b: seq<Outcome>, attempts: nat)
    requires attempts <= MaxAttempts(retries) <= |a| && MaxAttempts(retries) <= |b|
    requires forall i :: attempts <= i < MaxAttempts(retries) ==> Attempt(a[i]) == Attempt(b[i])
    ensures Loop(action, retries, a, attempts) == Loop(action, retries, b, attempts)
    decreases MaxAttempts(retries) - attempts
  {
    if attempts <= retries && Attempt(a[attempts]).Failure? && attempts + 1 <= retries {
      assert Attempt(a[attempts]) == Attempt(b[attempts]);
      LoopOnlySeesAttempts(action, retries, a, b, attempts + 1);
    }
  }

  /** Only the first `retries + 1` answers can matter; whatever the node would say later is never asked for. */
  lemma LaterOutcomesUnused(action: string, retries: int, outcomes: seq<Outcome>, later: seq<Outcome>)
    requires MaxAttempts(retries) <= |outcomes|
    ensures Dispatch(action, retries, outcomes + later) == Dispatch(action, retries, outcomes)
  {
    LoopOnlySeesAttempts(action, retries, outcomes + later, outcomes, 0);
  }
}
