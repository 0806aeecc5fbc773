# MultiChain JSON-RPC client, modelled in Dafny

`MultiChainClient` (backend/multichain.py) is a JSON-RPC-over-HTTP client for a
MultiChain node. Any attribute of a client is a remote procedure: calling it
checks that no argument is a function, builds the request envelope
`{id, method, params, chain_name?}`, serialises it, POSTs it to
`http(s)://host:port` with Basic authentication, and folds the outcome into a
"last error" register (`error_code`, `error_message`) that `errorcode()`,
`errormessage()` and `success()` read. Two options, `chainname` and
`verifyssl`, can be set after construction.

The model has five modules:

- `Json` (json.dfy): the Python values that flow through the client. This covers
  arguments, the chain name and parsed response bodies. `Callable` is anything
  `callable()` accepts, and `Opaque` is any other value the JSON encoder refuses.
  The module also gives the Python operations the client applies to these values:
  truthiness, `== <int>`, `value[key]`, and the encoder's first unencodable value.
- `Text` (text.dfy): `str.find` and `str(int)`, each proved against an
  independent characterisation.
- `MultiChain` (multichain.dfy): the `Client` class, whose fields are those of the
  Python object. `CallSpec` is the declarative specification of one call. It maps
  the configuration, the old state, the call and the network's answer to the
  returned value, the new state and the request handed to the transport.
  `Client.Call` does what the Python does, step by step, and is proved equal to
  `CallSpec`. Its `HTTPError` handler is the method `Client.RecordHttpError`.
- `MultiChainProperties` (properties.dfy): what a call promises, proved about
  `CallSpec`. This module also contains a replay of many calls on one client.
- `Wrappers` (wrappers.dfy): `Option`.

The network is an input. `Outcome` is what the transport does with the request:
`TransportFail(reason)` for a `URLError`, `HttpError(status, reason, body)` for a
non-2xx response, or `Ok(body)`. A body is `Empty`, `Unparsable` (it fails to
decode or to parse), or `Parsed(value)`. `Call` also returns the `Request` it
handed to the transport. That value is `None` when the call stops before any I/O.

Behaviour of the code that a reader might not expect, all modelled as written:

- A successful call does not clear the register. Lines 107-110 return `result`
  and never touch `error_code` or `error_message`. After one failure, `success()`
  stays false through any number of later successful calls (`CallSpec`,
  `AnsweredCallsKeepRegister`, `FailureOutlivesLaterSuccesses`).
- An `error` object with a `code` but no `message` replaces the code and keeps
  the reason phrase (lines 94-95): the code is written before the missing
  `message` raises `KeyError` (`HttpErrorCodeWithoutMessage`). A daemon that
  sends `code: 0` makes `success()` true although the call returned nothing.
- `error_code` and `error_message` hold whatever JSON values the daemon sends, so
  the register holds `Value`s. It does not hold an integer and a string.
- `port` is passed through `str()` (line 45), so a port given as text is used
  unchanged. `usessl` defaults to false (line 16) and is tested for truthiness
  (line 44).

## Model

| member | source | states |
|---|---|---|
| `Json.PyEqualsInt` | backend/multichain.py:96 | Python's `value == k` holds exactly for the number `k`, and for `False`/`True` when `k` is 0/1 |
| `Json.LookupField` | backend/multichain.py:92-95 | a key is found iff some pair has it, and the value returned is that of the last such pair, as `json.loads` keeps it |
| `Json.Index` | backend/multichain.py:93-95 | `v[key]` succeeds only on a dict. On a list, string, number or null it raises, which is modelled as `None` |
| `Json.OffenderIffNotJson` | backend/multichain.py:63-68 | `json.dumps` finds an unencodable value exactly when some part of the value is a function or another non-JSON object |
| `Text.Find` | backend/multichain.py:96 | `s.find(pat)` is the lowest index where `pat` occurs, or -1 exactly when it occurs nowhere |
| `Text.IntToDecimal` | backend/multichain.py:45 | `str(n)` of an integer is a numeral, with a minus sign for negative `n`, that reads back as `n`. It is canonical: "0", or no leading zero after the optional sign |
| `Text.CanonicalIsIntToDecimal` | backend/multichain.py:45 | a canonical numeral that reads back as `n` is `str(n)`, so the two facts above fix `str(n)` uniquely |
| `Json.Truthy` | backend/multichain.py:60 | a value is false under `if` exactly when it is `None`, `False`, 0, "", an empty list or dict, or a foreign object that Python counts as false |
| `Json.Offender` | backend/multichain.py:64-67 | when the encoder reports an unencodable value, the type it names is that of a function or object that really occurs inside the value |
| `Json.TypeErrorText` | backend/multichain.py:65-67 | the encoder's error reads "Object of type ", then the offending type's name, then " is not JSON serializable" |
| `MultiChain.Succeeded` | backend/multichain.py:127-128 | `success()` holds iff the recorded code is `0` (or `False`, which Python counts as equal to 0) |
| `MultiChain.WithOption` | backend/multichain.py:29-33 | `chainname` changes only for option "chainname" and `verifyssl` only for "verifyssl". The register never changes, and any other name changes nothing |
| `MultiChain.PortString` | backend/multichain.py:45 | `str(port)` gives the canonical numeral that reads back as a numeric port, and a text port unchanged |
| `MultiChain.Url` | backend/multichain.py:44-45 | the URL starts with "https" exactly when `usessl` is truthy, and it ends with `str(port)` |
| `MultiChain.UrlNamesEndpoint` | backend/multichain.py:44-45 | the URL is the scheme ("https" iff `usessl`), then "://", the host, ":" and the canonical numeral that reads back as the port (or the text port) |
| `MultiChain.Envelope` | backend/multichain.py:54-61 | the envelope is a dict of four keys when the chain name is truthy and three otherwise, and its third entry holds the arguments as a list in their order |
| `MultiChain.Headers` | backend/multichain.py:48-50 | the fixed headers are `Content-Type: application/json` then `Connection: close`, under distinct names |
| `MultiChain.Credentials` | backend/multichain.py:46 | the Basic-authentication text, before base64, is the user name, one colon, then the password |
| `MultiChain.EnvelopeFields` | backend/multichain.py:54-61 | the envelope maps `id`, `method` and `params` to the id, the procedure name and the arguments in order. `chain_name` is present, holding the chain name, iff the chain name is truthy |
| `MultiChain.UsageAdjusted` | backend/multichain.py:96-97 | the message changes exactly when the code equals -1 and the message is a string containing a blank line. It then gains the "Wrong parameters. Usage:\n\n" prefix |
| `MultiChain.HttpErrorRegister` | backend/multichain.py:86-97 | with no `error.code` in the body, the register is the HTTP status and reason. Otherwise the code is `error.code`. With no `error.message` the message stays the reason. With one, the message is `error.message` after the usage adjustment, whatever its type |
| `MultiChain.ResultOf` | backend/multichain.py:109-110 | a 2xx body yields a result exactly when it parses to a dict with a `result` key |
| `MultiChain.CallSpec` | backend/multichain.py:36-114 | no call changes the options. A call that returns a value had a 2xx answer, sent a request and left the whole state unchanged, so earlier errors stay. A call that sent nothing returns nothing and records -1 with a string message |
| `MultiChain.FirstCallable` | backend/multichain.py:38-42 | the loop stops at the first callable argument, so no earlier argument is callable. It runs to the end iff none is |
| `MultiChain.Client.constructor` | backend/multichain.py:16-27 | a fresh client keeps its configuration, has no chain name, verifies certificates and has code 0, message "", so `success()` holds |
| `MultiChain.Client.SetOption` | backend/multichain.py:29-33 | the new state is the old one with the option applied as `WithOption` states |
| `MultiChain.Client.Call` | backend/multichain.py:36-114 | the value returned, the request sent and the new fields are exactly those `CallSpec` gives for the old fields |
| `MultiChain.Client.RecordHttpError` | backend/multichain.py:85-99 | the `HTTPError` handler leaves the options alone and writes exactly the register `HttpErrorRegister` gives |
| `MultiChain.Client.ErrorCode` | backend/multichain.py:121-122 | returns the code held in the register |
| `MultiChain.Client.ErrorMessage` | backend/multichain.py:124-125 | returns the message held in the register |
| `MultiChain.Client.Success` | backend/multichain.py:127-128 | true iff the register's code counts as 0, as `Succeeded` states |
| `MultiChainProperties.UnknownOptionIsInvisible` | backend/multichain.py:29-33 | an unknown option name leaves the state unchanged, so every later call behaves as before |
| `MultiChainProperties.CallableArgumentRejected` | backend/multichain.py:38-42 | a callable argument makes the call return nothing and send nothing, with code -1 and "Function passed as argument where data expected" |
| `MultiChainProperties.EnvelopeIsJsonIff` | backend/multichain.py:54-64 | the envelope encodes iff every argument does and, when the chain name is truthy, the chain name does |
| `MultiChainProperties.RequestSentIff` | backend/multichain.py:38-83 | a request reaches the transport iff no argument is callable and the envelope encodes. It carries the URL, the fixed headers, `user:pass`, the envelope and certificate checking iff `verifyssl` is truthy |
| `MultiChainProperties.UnencodableRequestRejected` | backend/multichain.py:63-68 | an unencodable argument or truthy chain name makes the call return nothing and send nothing, with code -1 and a message starting "JSON serialization error: " |
| `MultiChainProperties.HttpErrorKeepsStatus` | backend/multichain.py:86-99 | an absent or unparsable body, a missing `error` key or a null `error` leaves the HTTP status and reason in the register |
| `MultiChainProperties.HttpErrorObjectOverrides` | backend/multichain.py:93-97 | an `error` object with `code` and `message` replaces both. The message gets the "Wrong parameters. Usage:\n\n" prefix iff the code equals -1 and the message is a string containing a blank line. Any other message, `null` or a number included, is stored as sent |
| `MultiChainProperties.HttpErrorCodeWithoutMessage` | backend/multichain.py:94-95 | an `error` object with a `code` but no `message` replaces the code and keeps the HTTP reason |
| `MultiChainProperties.WrongParametersExample` | backend/multichain.py:92-97 | the daemon's `{"error":{"code":-1,"message":"Wrong number of parameters\n\nusage: foo bar"}}` gives code -1 and the message with the usage prefix |
| `MultiChainProperties.HttpErrorReturnsNothing` | backend/multichain.py:85-100 | an HTTP error response always returns nothing and records the normalised error |
| `MultiChainProperties.TransportFailureRecords502` | backend/multichain.py:102-105 | when no response arrives, the call returns nothing and records 502 and the transport's reason, and nothing else changes |
| `MultiChainProperties.OkResponseResult` | backend/multichain.py:107-114 | a 2xx body with a `result` member returns that value unchanged and changes no state. Any other 2xx body returns nothing with code -1 and "Invalid JSON response" |
| `MultiChainProperties.UnansweredCallRecordsFailure` | backend/multichain.py:38-114 | a call that returns nothing leaves `success()` false and a string message, unless it was an HTTP error whose body's `error` object supplied the code. An HTTP error status alone is never 0 |
| `MultiChainProperties.AnsweredCallsKeepRegister` | backend/multichain.py:107-110 | after any number of calls that all return values, the state is what it was before them |
| `MultiChainProperties.FailureOutlivesLaterSuccesses` | backend/multichain.py:107-128 | once `success()` is false, later calls that return values never make it true again |

## Left out

- The HTTP transport (`urllib.request.Request`, `add_header`, `urlopen`, redirects, and the 2xx/non-2xx classification) is not modelled. Its answer is the input `Outcome`, and the request given to it is the `Request` that `Call` returns.
- The SSL context (`ssl._create_unverified_context`) is a library object. Only the choice it encodes is modelled, as `Request.verifyCertificate`.
- Base64 encoding of the credentials is not modelled. `Request.credentials` is the `user:pass` text before encoding. The `UnicodeEncodeError` that non-ASCII credentials raise out of the call is not modelled either.
- The `Content-Length` header depends on the length of the library serialiser's output, so it is left out. The other two fixed headers are modelled.
- `json.dumps` and `json.loads` are modelled on values, not on text. A response body arrives already parsed or marked unparsable. Floating-point numbers are not in `Value`, and the encoder's `ValueError` for circular structures cannot arise in a datatype.
- Dict keys in `Value.Obj` are strings only. A dict argument with a tuple or other non-string key makes `json.dumps` raise "keys must be str, int, float, bool or None, ...". Line 65 catches that error too, so the register would get that text after "JSON serialization error: ". The model cannot express such an argument. Dicts with int, float, bool or `None` keys, which the encoder turns into strings, are not modelled either.
- Duplicate keys inside a returned value are not collapsed. `Obj` keeps the raw pairs of a parsed object, and `LookupField` resolves duplicates when the client reads `error`, `code`, `message` or `result`. The `OrderedDict` that line 109 builds for a nested object keeps each key once, at its first position with its last value. `CallSpec` hands a nested object back with all its pairs. Likewise, an argument `Obj` with a repeated key stands for no Python dict, and `Offender` also scans the pairs such a dict would have overwritten.
- A port that is neither an integer nor a string (a float, say) is not modelled: `Port` covers the two forms `str()` turns into the text the URL needs.
- The HTTP status of an `HTTPError` is a three-digit non-2xx number (`ErrorStatus`). This is what `urllib` delivers: `http.client` refuses other status lines, and 2xx responses do not raise.
- The request id `int(round(time.time() * 1000))` reads the clock, so it is the parameter `id`.
- The `__getattr__` dispatch is Python metaprogramming. It becomes the explicit `Client.Call(procedure, args, ...)`.
- Exceptions that escape `api_caller` are not modelled. For example, a host that is not a string raises `TypeError` at line 45; the model types `host` as a string.
- Concurrent calls racing on the shared register are out of scope: the model is sequential.
- MultiChain.Client.ErrorMessage: returns the stored value. Python's `str()` of a non-string message is not modelled, because its `repr` formatting depends on Python's printing rules. Such a message occurs only when the daemon sends a non-string `error.message`. A string message is returned unchanged, as in Python.
- MultiChain.Client.Call: returns `Some(Null)` for a JSON `null` result, where Python returns `None` for both that and a failure. Callers in Python tell the two apart only through `success()`, and the model keeps that register behaviour.
