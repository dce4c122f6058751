# xnopay RPC client — a Dafny model

This project models the core of the xnopay JavaScript client for a Nano node. That core is
`RpcClient` in `js/src/rpc-client.ts` and has three parts:

- **The constructor.** It keeps the node URL, the optional authentication, a retry budget
  (3 when omitted) and a logger.
- **The private `call` dispatcher.** It works in three steps:
  - It builds the request headers once: the content type, then a Bearer token, an API key
    or Basic credentials encoded with `btoa`.
  - It builds the payload `{action, ...params}`. `JSON.stringify` drops the keys whose
    value is `undefined`.
  - It posts the payload in a `while (attempts <= retries)` loop. An attempt fails on a
    transport error, a non-2xx status, an unparsable body, or a body whose `error` field
    is truthy. Each failure is logged and followed by a linear backoff of
    `1000 * attempts` ms. Once the budget is spent, the call throws a wrapped message.
- **The 77 wrapper methods.** Each one turns typed arguments into an action name and a
  parameter object:
  - counts, ports, indices and epochs go out as decimal strings;
  - five wrappers add optional keys only when the argument is truthy;
  - wrappers with an `options` object spread it last.

The Dafny modules follow that structure:

- `Results`: `Option` and `Result`.
- `Json`: the JavaScript values the client handles, and the pieces of JavaScript it relies on:
  - property reads and truthiness;
  - `String(n)` and its inverse;
  - `${v}` on an arbitrary value;
  - what `JSON.stringify` does with `undefined`.
- `Base64`: `btoa` as the base64 encoding of section 4 of RFC 4648 over Latin-1
  characters. It comes with a decoder and the round trip.
- `Retry`: the retry loop as functions of the answers the node gives (`Attempt`, `Loop`,
  `Dispatch`). The lemmas about it cover:
  - the case where every attempt fails;
  - the first success;
  - the error field;
  - the backoff schedule;
  - the answers the loop never reads.
- `Surface`: every wrapper as a constructor of `RpcMethod`, and `Shape(m)` as the action
  and parameters it passes to `call`. The lemmas about it cover decimal strings,
  truthiness gating and options overriding positional keys.
- `Client`: the classes.
  - `RpcClient` has the constructor, `BuildHeaders`, `Call`, its `RetryLoop` and `Send`
    (one wrapper call).
  - `Console` is the logger. It records error lines.
  - `Host` stands for the network and the timer. `Fetch` hands out the next of a given
    sequence of answers and records the request. `Sleep` records its delay.

  `Call` is proved to do exactly what `Dispatch` says, through the twostate predicate
  `Performed`, and `Dispatch` is in turn characterised by the `Retry` lemmas.

## Model

| member | source | states |
|---|---|---|
| Client.RpcClient.constructor | js/src/rpc-client.ts:122-132 | URL and auth are kept; an omitted retry budget is 3; an omitted logger is a fresh console with no lines |
| Client.HeadersFor | js/src/rpc-client.ts:147-160 | Content-Type is always application/json; Authorization is present iff the type is bearer or basic; x-api-key iff apiKey; nothing else; it fails, with btoa's error, iff basic credentials hold a character above U+00FF |
| Client.RpcClient.BuildHeaders | js/src/rpc-client.ts:147-160 | the header object built by branch assignments equals `HeadersFor(auth)` |
| Client.NoAuthSendsContentTypeOnly | js/src/rpc-client.ts:147-150 | with no auth or type "none" the headers are exactly the content type |
| Client.BearerHeader | js/src/rpc-client.ts:151-152 | Authorization is "Bearer " followed by the token, or by "" when the token is absent |
| Client.ApiKeyHeader | js/src/rpc-client.ts:153-154 | x-api-key is the key, or "" when absent |
| Client.BasicHeaderDecodes | js/src/rpc-client.ts:155-158 | Authorization is exactly "Basic " followed by btoa of "username:password", absent parts empty, and that text decodes back to the credentials |
| Base64.Btoa | js/src/rpc-client.ts:155-157 | btoa fails iff some character is above U+00FF, with InvalidCharacterError; otherwise the text is 4 characters per started group of 3 |
| Base64.Encode | js/src/rpc-client.ts:155-157 | the encoding is 4 characters per started 3-byte group, all in the alphabet or "=" |
| Base64.DecodeEncode | js/src/rpc-client.ts:155-157 | decoding the encoding of any byte sequence gives it back |
| Base64.BtoaRoundTrip | js/src/rpc-client.ts:155-157 | atob gives back every string btoa accepts |
| Base64.Rfc4648ShortVectors | js/src/rpc-client.ts:155-157 | btoa gives the test vectors of section 10 of RFC 4648: "" to "", "f" to "Zg==", "fo" to "Zm8=", "foo" to "Zm9v" |
| Base64.Rfc4648Foob | js/src/rpc-client.ts:155-157 | btoa("foob") is "Zm9vYg==", as in section 10 of RFC 4648 |
| Base64.Rfc4648Fooba | js/src/rpc-client.ts:155-157 | btoa("fooba") is "Zm9vYmE=", as in section 10 of RFC 4648 |
| Base64.Rfc4648Foobar | js/src/rpc-client.ts:155-157 | btoa("foobar") is "Zm9vYmFy", as in section 10 of RFC 4648 |
| Client.Payload | js/src/rpc-client.ts:146 | the payload holds "action" and every params key; a params value wins over the action, including a key named "action" |
| Client.RpcClient.RequestFor | js/src/rpc-client.ts:166-170 | definition (no contract): every attempt posts the serialized payload to the node URL with the built headers |
| Json.Serialize | js/src/rpc-client.ts:169 | the serialized body keeps exactly the keys whose value is not undefined, holds no undefined anywhere, and keeps values JSON can already carry unchanged |
| Json.StringifiedKeepsDefined | js/src/rpc-client.ts:169 | a value with no undefined inside is serialized unchanged |
| Json.Stringified | js/src/rpc-client.ts:169 | what JSON.stringify makes of a nested value: the result never holds undefined; an undefined array element becomes null and an undefined property is dropped (the latter two are the definition) |
| Json.SerializeIdempotent | js/src/rpc-client.ts:169 | serializing an undefined-free object is the identity, so serializing twice is serializing once |
| Client.WireBody | js/src/rpc-client.ts:146-169 | a key is in the body iff it is "action" not overridden by params or a params key whose value is not undefined |
| Client.UndefinedParamsDropped | js/src/rpc-client.ts:146-169 | parameters that are all undefined leave the body holding the action alone |
| Client.BlockCountOmitsIncludeCemented | js/src/rpc-client.ts:326-330 | blockCount() without an argument sends exactly {"action": "block_count"} |
| Json.IntToDecimal | js/src/rpc-client.ts:232 | String(n) is non-empty and starts with a digit iff n >= 0 and with "-" iff n < 0 |
| Json.NatToDecimal | js/src/rpc-client.ts:232 | the digits of a natural number: non-empty, all digits, no leading zero |
| Json.NatToDecimalValue | js/src/rpc-client.ts:232 | the digits String(n) writes denote n |
| Json.DecimalRoundTrip | js/src/rpc-client.ts:232 | parsing String(n) back gives n, for every integer n |
| Json.DecimalInjective | js/src/rpc-client.ts:232 | distinct numbers are sent as distinct strings |
| Json.ToJsString | js/src/rpc-client.ts:182 | `${error}` of a string is the string itself, of a number its decimal text |
| Json.Truthy | js/src/rpc-client.ts:181 | definition (no contract): JavaScript truthiness as `if (x)` tests it — undefined, null, false, 0 and "" are falsy, everything else truthy |
| Retry.HttpErrorMessage | js/src/rpc-client.ts:174-176 | definition (no contract): "HTTP error! status: <status>, body: <text>" |
| Retry.RpcErrorMessage | js/src/rpc-client.ts:182 | definition (no contract): "RPC error: <error>" |
| Retry.AttemptFailedLine | js/src/rpc-client.ts:187-189 | definition (no contract): "RPC call '<action>' attempt <k> failed: <message>" |
| Retry.ExhaustedMessage | js/src/rpc-client.ts:190-193 | definition (no contract): "RPC call '<action>' failed after <retries> retries: <message>" |
| Retry.UnexpectedMessage | js/src/rpc-client.ts:197-199 | definition (no contract): "Unexpected error: Retries exhausted without success for action: <action>" |
| Retry.Attempt | js/src/rpc-client.ts:164-183 | an attempt succeeds iff the reply is 2xx, parses, and its error field is falsy, and then returns the parsed body unchanged; a transport error fails with its own message; a non-2xx status fails with "HTTP error! status: <status>, body: <text>" |
| Retry.AttemptFailsOn2xx | js/src/rpc-client.ts:179-183 | a 2xx body that does not parse fails with the parser's message; a 2xx body with a truthy error field fails with "RPC error: <error>" |
| Client.RpcClient.Settle | js/src/rpc-client.ts:172-185 | the try block's classification of one answer is `Attempt` |
| Retry.Loop | js/src/rpc-client.ts:162-200 | the run consumes at most retries + 1 answers; a success is the result of the last attempt made; a failure after attempts is the exhausted message over the last attempt's error |
| Retry.Dispatch | js/src/rpc-client.ts:162-200 | a call never consumes more than retries + 1 answers |
| Retry.AllAttemptsFail | js/src/rpc-client.ts:162-200 | when every attempt fails: exactly retries + 1 attempts; one log line "RPC call '<action>' attempt <k> failed: <msg>" per attempt in order; delays 1000..1000*retries with none after the last; the thrown message "RPC call '<action>' failed after <retries> retries: <last message>" |
| Retry.LoopAllFail | js/src/rpc-client.ts:162-200 | the same, for the loop entered after some attempts |
| Retry.NegativeRetriesMakeNoAttempt | js/src/rpc-client.ts:162-200 | a negative budget makes no attempt, logs nothing, sleeps never and throws "Unexpected error: Retries exhausted without success for action: <action>" |
| Retry.FirstSuccessWins | js/src/rpc-client.ts:162-200 | the first successful attempt's body is returned unchanged; exactly that many answers are consumed; every earlier attempt logged its failure and was followed by its backoff |
| Retry.LoopFirstSuccess | js/src/rpc-client.ts:162-200 | the same, for the loop entered after some attempts |
| Retry.SucceedsIffSomeAttemptSucceeds | js/src/rpc-client.ts:162-200 | a call succeeds iff one of its first retries + 1 answers succeeds |
| Retry.FirstSucceeding | js/src/rpc-client.ts:163-185 | the index of the first successful answer: it succeeds and every earlier one fails |
| Retry.NeverReturnsRpcError | js/src/rpc-client.ts:181-185 | a returned body never has a truthy error field |
| Retry.ErrorFieldFails | js/src/rpc-client.ts:181-183 | a 2xx body with a truthy error fails as "RPC error: <error>", exactly as a transport error with that message; an empty-string error is success |
| Retry.LoopOnlySeesAttempts | js/src/rpc-client.ts:162-200 | two answer sequences that fail or succeed alike, message for message, give the same run, so every kind of failure is retried the same way |
| Retry.LaterOutcomesUnused | js/src/rpc-client.ts:162-200 | answers beyond the first retries + 1 never affect a call |
| Client.Console.Error | js/src/rpc-client.ts:187-189 | logging appends exactly one line |
| Client.Host.Fetch | js/src/rpc-client.ts:166-170 | a fetch consumes the next answer and records the request sent |
| Client.Host.Sleep | js/src/rpc-client.ts:195 | a sleep records its delay and changes nothing else |
| Client.RpcClient.RetryLoop | js/src/rpc-client.ts:162-200 | the loop's result, log lines, delays, consumed answers and requests sent are exactly those `Dispatch` gives for the host's answers, with the same request every attempt |
| Client.RpcClient.Call | js/src/rpc-client.ts:142-201 | when the headers cannot be built the call fails with btoa's error and touches nothing; otherwise it behaves as `Dispatch`, sending the same URL, POST, headers and serialized payload on every attempt |
| Client.RpcClient.Send | js/src/rpc-client.ts:205-789 | a wrapper call is `call` with the action and parameters `Shape` gives |
| Surface.Decimal | js/src/rpc-client.ts:232 | a number sent as String(n) is a string that reads back as n |
| Surface.Spread | js/src/rpc-client.ts:209-212 | `{...own, ...options}` holds the keys of both; every options key has the caller's value; every other key keeps the wrapper's |
| Surface.ActionName | js/src/rpc-client.ts:205-789 | definition (no contract): the action string each of the 77 wrappers passes to `call` |
| Surface.Own | js/src/rpc-client.ts:205-789 | definition (no contract): the keys each wrapper builds from its positional arguments, before any options object is spread |
| Surface.Shape | js/src/rpc-client.ts:205-789 | definition (no contract): the action and the parameters (`Params`) each wrapper passes to `call` |
| Surface.Params | js/src/rpc-client.ts:205-789 | every key of the caller's options or params object is sent with the caller's value; every other positional key keeps its value; no other key appears |
| Surface.DelegatorsParams | js/src/rpc-client.ts:463-474 | account always; threshold, count (as a decimal string) and start only when truthy; nothing else |
| Surface.EpochUpgradeParams | js/src/rpc-client.ts:492-502 | epoch as a decimal string and key always; count and threads as decimal strings only when non-zero; nothing else |
| Surface.RepresentativesOnlineParams | js/src/rpc-client.ts:609-620 | weight only when true; accounts whenever given, even empty; nothing else |
| Surface.RepresentativesParams | js/src/rpc-client.ts:622-630 | count as a decimal string only when non-zero; sorting only when true; nothing else |
| Surface.UnopenedParams | js/src/rpc-client.ts:731-741 | account, count (as a decimal string) and threshold each only when truthy; nothing else |
| Surface.OwnSendsDecimals | js/src/rpc-client.ts:225-789 | every count, port, index and epoch argument is among the wrapper's own keys as a string reading back as that number |
| Surface.NumbersSentAsDecimalStrings | js/src/rpc-client.ts:225-789 | every count, port, index and epoch argument reaches `call` as a string reading back as that number, unless the caller's options supply that key |
| Surface.AnnouncementsSentAsNumber | js/src/rpc-client.ts:421-427 | confirmationActive sends announcements as a JSON number, not a string |

## Left out

- Network I/O. `fetch`, `response.text()`, `response.json()` and `setTimeout` are the
  `Host` object. Each answer already carries its status, its body text and its parse result.
- HTTP and JSON parsing themselves are left out. `response.text()` throwing is folded into
  a transport error.
- A parsed body that is not an object (an array, `null`) is not modelled. A reply body is
  an object.
- `async`/`await` is left out. A call is sequential and is modelled as a plain method.
- `Call` requires that the host holds an answer for every attempt the budget allows, once the
  headers are built. This is a property of the oracle, not of the source. `Retry.LaterOutcomesUnused` shows that the
  answers beyond it never matter.
- The retry budget is an integer. A fractional or NaN `retries` is not modelled.
- Counts, ports, indices and epochs are integers. `String(x)` of a float, NaN or Infinity
  is not modelled, and neither is the JavaScript number range.
- Key order of objects, and so the exact text of the serialized body, is not modelled.
  A body is a map from keys to values.
- Json.ToJsString: prints every plain object as "[object Object]". The text of a
  non-integer number, a symbol or a custom `toString` is not modelled.
- Client.RpcClient.constructor: the default logger is the global `console`. The model
  gives the client a console of its own instead, since a shared global object is not
  part of the model.
- Base64.Btoa: the failure is the exception's name only, not the full `DOMException`
  message.
- The `data as T` cast is an unchecked type assertion with nothing to verify. The
  response interfaces of `js/src/types.ts` are therefore not modelled.
- The `rpc` factory of `js/src/xnopay.ts` only forwards to the constructor, so it is
  covered by `Client.RpcClient.constructor`.
- `js/src/examples.ts` (a demo making live calls) and the Python packaging are not part
  of this model.

## Notes

- The backoff is linear, `1000 * attempts` ms, although the comment at
  `js/src/rpc-client.ts:195` calls it exponential. The model follows the code.
- Most counts, ports, indices and epochs are sent as decimal strings. `confirmationActive`
  sends `announcements` as a JSON number. The model follows the code here too: see
  `Surface.AnnouncementsSentAsNumber`.
- Failures caused by a truthy `error` field are retried exactly like transport failures.
  The model states this in `Retry.ErrorFieldFails` and `Retry.LoopOnlySeesAttempts`.
- A `btoa` failure happens before the retry loop. It is therefore not retried and not
  logged.
