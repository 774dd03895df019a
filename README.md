# OVH signed-request client, modelled in Dafny

This project models the core of the Go package `ovh`. That core is a client for the OVH
REST API that signs every call with the application secret and the consumer key.

The client (`Client`) holds an application key, an application secret, a consumer key,
an endpoint URL and a clock shift (`TimeShift`, a `time.Duration` in nanoseconds).

- `NewClient` stores the four strings and sets the shift to zero.
- `PollTimeshift` fetches `<endpoint>/auth/time`, parses the body as a base-10 `int64`,
  and sets the shift to the API time minus the local time read before the request.
- `Call` builds the URL as `endpoint + path`. It takes the timestamp as the shifted local
  clock in whole Unix seconds, and signs:

      secret + "+" + consumerKey + "+" + method + "+" + url + "+" + %x(body) + "+" + %d(timestamp)

  The signature is `"$1$"` followed by the lowercase hex of the SHA-1 digest of that text.
- `sendRequest` sets five headers: `Content-Type`, `X-Ovh-Application`, `X-Ovh-Consumer`,
  `X-Ovh-Signature` and `X-Ovh-Timestamp`. A status of 300 or more becomes an error
  without the body being read.

Modules, one per file:

- `Results` (`results.dfy`): `Option` and `Result`.
- `Encoding` (`encoding.dfy`): Go's `%x` on a byte slice (`Hex`, with its inverse
  `Unhex`), Go's `%d` (`FormatInt`) and `strconv.ParseInt(s, 10, 64)` (`ParseInt`).
- `Signature` (`signature.dfy`): the signing text, `ComputeSignature`, and
  `ParseSigningText`, which recovers the six signed fields from the signing text.
- `Http` (`http.dfy`): requests, responses and the header map (`Header.Set`, `Header.Add`,
  `Header.Get`).
- `OvhClient` (`client.dfy`): the `Client` class with its constructor, `PollTimeshift` and
  `Call`; the method `SendRequest`; and the functions that specify them (`SignedRequest`,
  `HandleResponse`, `PollOutcome`).

Time is integer nanoseconds since the Unix epoch. The clock reading, SHA-1, the network
and JSON encoding are parameters of the operations:

- `nowNanos` and `sysNanos` are clock readings.
- `sha1: string -> Digest` is SHA-1 over the bytes of a string, giving 20 bytes.
- `send: Request -> Response` and `get: string -> Result<Response, string>` are the
  transport. A response carries the outcome of reading its whole body.
- `Payload` is `in`, together with the outcome of `json.Marshal` on it.

Where the model follows the code closely:

- The header names are `X-Ovh-*`.
- Errors are kinds (`EncodeError`, `TransportError`, `UnexpectedStatus`, `ReadError`,
  `ParseError`).
- `PollTimeshift` does not look at the HTTP status code. Any body that parses as an
  integer sets the shift.
- The new shift is `time.Unix(api, 0).Sub(sysTime)`. That is `api·10⁹ − sysNanos`,
  saturated to the `int64` range as `time.Time.Sub` does (`TimeSub`).
- `Call` returns no error when the response body is not valid JSON, because the error of
  `json.Unmarshal` is dropped. In the model, `Ok(bytes)` stands for a nil error, with
  `bytes` handed to the decoder.
- `t.Unix()` rounds down, also before the epoch. Dafny's `/` with a positive divisor does
  the same.
- `http.NewRequest` turns an empty method into `GET` (`WireMethod`). The signature,
  however, is computed over the method as `Call` received it (see "## Findings").
- `strconv.ParseInt` accepts an optional sign and leading zeros. Its error kind follows
  Go's left-to-right scan: a range error as soon as the leading digits exceed 2⁶⁴ − 1,
  and otherwise a syntax error at the first non-digit. An all-digit magnitude above
  2⁶³ − 1 (above 2⁶³ after a `-`), for example `9223372036854775808`, is also a range
  error.

## Model

| member | source | states |
|---|---|---|
| `OvhClient.Client.constructor` | ovh/client.go:38-46 | The four strings land in the matching fields and `TimeShift` is 0. |
| `Encoding.Hex` | ovh/client.go:50-55 | `%x` of the body has exactly two characters per byte, all in `0-9a-f`; it is empty for an empty body. |
| `Encoding.Unhex` | ovh/client.go:50-55 | Decoding succeeds exactly on the even-length texts made only of `0-9a-f`, and gives half as many bytes as characters. |
| `Encoding.UnhexHex` | ovh/client.go:50-55 | Decoding the `%x` text of any body gives back that body. |
| `Encoding.HexUnhex` | ovh/client.go:50-55 | Every text that decodes is the `%x` text of what it decodes to. With `Unhex` and `UnhexHex`, `%x` is a bijection from byte slices onto the even-length lowercase hex texts. |
| `Encoding.HexInjective` | ovh/client.go:50-55 | Different bodies give different `%x` texts. |
| `Encoding.Digits` | ovh/client.go:50-56 | The digits `%d` writes denote the number: at least one, all decimal, no leading zero, and exactly `0` for 0. |
| `Encoding.FormatInt` | ovh/client.go:67 | `%d` writes a leading `-` exactly for negative values. The rest is a non-empty run of digits with no leading zero (only 0 is written `0`), and it denotes the magnitude of the value. |
| `Encoding.ParseUint` | ovh/client.go:98 | The unsigned part of `strconv.ParseInt` succeeds exactly on a non-empty all-digit text whose decimal value is at most 2⁶⁴ − 1, and returns that value. |
| `Encoding.ParseUintRangeError` | ovh/client.go:98 | The error is a range error exactly when some leading run of digits already exceeds 2⁶⁴ − 1, whatever follows it; every other failure is a syntax error. |
| `Encoding.ParseInt` | ovh/client.go:98 | `strconv.ParseInt(s, 10, 64)` succeeds exactly when the text after an optional `+` or `-` is non-empty, all digits, and at most 2⁶³ − 1 (2⁶³ after a `-`). The value is that number, negated after a `-`, so it fits in `int64`. A syntax error arises exactly when the unsigned part has one; every other failure is a range error. |
| `Encoding.FormatThenParse` | ovh/client.go:98 | For every `int64`, the text `%d` writes parses back to the same value. |
| `Encoding.BytesToString` | ovh/client.go:98 | `string(outPayload)` keeps every byte as one character of the same code. |
| `Signature.ComputeSignature` | ovh/client.go:48-59 | The signature is 43 characters: `$1$` then lowercase hex that decodes to the SHA-1 digest of the signing text. |
| `Signature.SigningText` | ovh/client.go:50-56 | The signing text joins the six fields with `+` in the order secret, consumer key, method, URL, `%x` body, `%d` timestamp. When the first three hold no `+`, `ParseSigningText` recovers exactly those six fields. It accepts only `%x` text for the body and only the exact `%d` text for the timestamp. |
| `Signature.SigningTextOfParse` | ovh/client.go:50-56 | Conversely, every text `ParseSigningText` accepts is the signing text of the fields it recovers, so the join is pinned exactly, down to the `%d` digits. |
| `Signature.SigningTextInjective` | ovh/client.go:50-56 | Under the same condition, different fields give different signing texts. |
| `Signature.SigningTextAmbiguous` | ovh/client.go:50-56 | Nothing is escaped: for any strings `a`, `b`, `c`, the secret `a+b` with consumer key `c` signs the same text as the secret `a` with consumer key `b+c`. |
| `Http.SetHeader` | ovh/client.go:63 | `Header.Set` makes the key's values exactly the one value and leaves the other keys alone. |
| `Http.AddHeader` | ovh/client.go:64-67 | `Header.Add` appends the value to the key's values and leaves the other keys alone. |
| `OvhClient.Timestamp` | ovh/client.go:118 | The timestamp is the shifted local clock `now + shift` in whole seconds, rounded down. |
| `OvhClient.UnixSeconds` | ovh/client.go:118 | The timestamp is the whole number of seconds, rounded down: `s·10⁹ ≤ t < (s+1)·10⁹`. |
| `OvhClient.TimeSub` | ovh/client.go:102 | The new shift is `api·10⁹ − sysNanos` when that fits in `int64`, and otherwise the nearest `int64`. |
| `OvhClient.AuthHeaders` | ovh/client.go:63-67 | There are exactly five headers, each with one value. `Header.Get` gives `application/json`, the application key, the consumer key, the signature, and the `%d` text of the timestamp. |
| `OvhClient.WireMethod` | ovh/client.go:62 | The method on the request is never empty: an empty method becomes `GET`, and any other method is kept. |
| `OvhClient.SignedRequest` | ovh/client.go:117-121 | The request `Call` sends has the method `http.NewRequest` makes of the given one, the URL `endpoint + path` and the given body. Its headers carry the signature computed over the given method, that URL and that body at the shifted timestamp, and that same timestamp. |
| `OvhClient.HandleResponse` | ovh/client.go:71-80 | A status of 300 or more gives `UnexpectedStatus(resp.Status)`. Below 300 the result is the body when it is read, and `ReadError` when reading fails; it succeeds exactly in the first case. |
| `OvhClient.SendRequest` | ovh/client.go:61-81 | The request carries the method with an empty one turned into `GET`, and exactly the five headers, one value each, with the timestamp written by `%d`. The result is an error for a status of 300 or more, or the read body, or the read error. |
| `OvhClient.SignedRequestIsValid` | ovh/client.go:117-121 | A receiver that reads the timestamp header gets the signed timestamp. When the method is not empty, the signature it recomputes over the method, URL and body as sent equals the signature header. |
| `OvhClient.EmptyMethodSignatureRejected` | ovh/client.go:62 | With an empty method the request is signed over `""` but sent as `GET`. Under a hash that sees the text's length, the receiver's check fails. |
| `OvhClient.CorrectedSignedRequest` | ovh/client.go:117-121 | With the method normalised before signing, every request, the empty method included, passes the receiver's check. |
| `OvhClient.NoPayloadSignsEmptyBody` | ovh/client.go:108-119 | With a nil `in`, the body sent is empty and the signed text has an empty hex field (`...url++timestamp`). |
| `OvhClient.StatusErrorIgnoresBody` | ovh/client.go:71-75 | For a status of 300 or more the body is never read: any other body, or a failed read, gives the same result. |
| `OvhClient.PollOutcome` | ovh/client.go:89-102 | The poll yields a shift exactly when the fetch, the read and `ParseInt` of the body all succeed; the shift is the parsed time minus the local time, saturated. A failed fetch gives `TransportError`, a failed read gives `ReadError`, and a failed parse gives `ParseError` with the kind `ParseInt` reported. |
| `OvhClient.PollReadsApiTime` | ovh/client.go:94-102 | When the clock body is the `%d` text of an `int64`, the poll yields the shift to that time. |
| `OvhClient.ShiftAlignsClock` | ovh/client.go:118 | After a poll that read API time `api` at local time `sysNanos`, a call `elapsed` ns later is stamped `api + ⌊elapsed/10⁹⌋`, provided the shift did not saturate. |
| `OvhClient.Client.PollTimeshift` | ovh/client.go:88-104 | It fetches `Endpoint + "/auth/time"`. The shift becomes the parsed time minus the local time only when the fetch, the read and the parse all succeed. On every error, that error is returned and the shift is unchanged. No other field changes. |
| `OvhClient.Client.Call` | ovh/client.go:107-128 | If encoding the payload fails, that error is returned and nothing is signed or sent. Otherwise the request sent is `SignedRequest` over the current state, with an empty body for a nil `in` and the encoded bytes otherwise. The result is `HandleResponse` of the response. |

## Left out

- Closing the response body: `resp.Body` is never closed at ovh/client.go:70-80 or ovh/client.go:90-94. The model has no connections or resources, so this leak is not represented.
- HTTP transport (`http.NewRequest`, `httpClient.Do`, `http.Get`, `ioutil.ReadAll`): network I/O. The transport is a function parameter that always returns a response or a fetch error.
- The errors dropped at ovh/client.go:62 and ovh/client.go:70: in Go, a failed `NewRequest` or `Do` leads to a nil dereference. The model assumes a request is always built and a response always arrives.
- SHA-1 itself (section 6.1 of FIPS 180-4): a library. The model takes it as the parameter `sha1`, which yields 20 bytes for any text. Collision resistance is not modelled, so different inputs are only shown to give different signing texts, not different signatures.
- JSON encoding and decoding (`json.Marshal`, `json.Unmarshal`): a library. The outcome of `json.Marshal` is an input (`Payload`). Decoding into `out` is not modelled, and the dropped `json.Unmarshal` error shows up as a success carrying the body bytes.
- `time.Now()`: a parameter. The internal overflow of Go's `time.Time` for instants billions of years away is not modelled; `SignedRequestIsValid` assumes the timestamp fits in `int64`, as `Unix()` always returns one.
- The endpoint constants at ovh/client.go:16-25: plain data with no logic.
- Error message text: errors are modelled as kinds with their data. `UnexpectedStatus` carries `resp.Status`; the text "Unexpected HTTP return code (...)." and the library messages are not produced.
- Header key canonicalisation (`CanonicalMIMEHeaderKey`) and the transport's checks on header values: the keys used are already canonical.
- Go strings are modelled as `string`, one character per byte with the same code, as `BytesToString` does. The same convention holds for the secret, consumer key, method and URL in the signing text, so hashing a string means hashing those bytes, which the `sha1` parameter does. UTF-8 decoding is not modelled.
- ovh/client_test.go: it only calls live endpoints.
- Concurrent access to `TimeShift`: the code has no synchronisation of its own.

## Findings

| source | as written | input that shows it | evidently intended | confidence | as-written member | corrected member |
|---|---|---|---|---|---|---|
| ovh/client.go:62, ovh/client.go:119 | `Call` signs the method it was given, but `http.NewRequest` sends an empty method as `GET` | `Call("", path, nil, out)`: the text signed holds `++` where the method goes, while the request goes out as `GET` | sign the method that is sent | medium, not executed | `OvhClient.EmptyMethodSignatureRejected` | `OvhClient.CorrectedSignedRequest` |

`Call` and `SignedRequest` model the program as written. `CorrectedSignedRequest` is the same request with the method normalised before it is signed, and its contract carries the intended validity for every method.
