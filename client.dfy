/** The OVH API client: its credentials and clock shift, the signed call
    (`Call`, with `sendRequest` assembling the headers and checking the
    status) and the clock-shift poll (`PollTimeshift`). Time is counted in
    nanoseconds since the Unix epoch; the clock reading, the network, SHA-1
    and JSON encoding are parameters. */
module OvhClient {
  import opened Results
  import opened Encoding
  import opened Signature
  import opened Http

  const NanosPerSecond: int := 1_000_000_000

  /** The path, relative to the endpoint, of the API's clock. */
  const TimePath: string := "/auth/time"

  const ContentTypeHeader: string := "Content-Type"
  const ApplicationHeader: string := "X-Ovh-Application"
  const ConsumerHeader: string := "X-Ovh-Consumer"
  const SignatureHeader: string := "X-Ovh-Signature"
  const TimestampHeader: string := "X-Ovh-Timestamp"
  const JsonContentType: string := "application/json"

  datatype Error =
    | EncodeError(message: string)     // `json.Marshal` failed
    | TransportError(message: string)  // `http.Get` failed
    | UnexpectedStatus(status: string) // "Unexpected HTTP return code (<status>)."
    | ReadError(message: string)       // `ioutil.ReadAll` failed
    | ParseError(kind: NumError)       // `strconv.ParseInt` failed

  /** What `Call` is given as `in`: nil, or a value together with the
      outcome of `json.Marshal` on it. */
  datatype Payload = NoPayload | Encoded(bytes: seq<Byte>) | EncodeFailed(message: string)

  /** The fields of a client, as one value. */
  datatype ClientState = ClientState(appKey: string, appSecret: string, consumerKey: string,
                                     endpoint: string, timeShift: Int64)

  // ---------------------------------------------------------------------
  // Time

  /** `t.Unix()` for the instant `nanos` after the epoch: whole seconds,
      rounded down also before the epoch. */
  function UnixSeconds(nanos: int): (s: int)
    ensures s * NanosPerSecond <= nanos < (s + 1) * NanosPerSecond
  {
    nanos / NanosPerSecond
  }

  /** `time.Now().Add(c.TimeShift).Unix()`: the shifted clock in whole
      seconds, rounded down. */
  function Timestamp(nowNanos: int, timeShift: int): (s: int)
    ensures s * NanosPerSecond <= nowNanos + timeShift < (s + 1) * NanosPerSecond
  {
    UnixSeconds(nowNanos + timeShift)
  }

  function Distance(a: int, b: int): nat {
    if a >= b then a - b else b - a
  }

  /** `time.Unix(apiSeconds, 0).Sub(sysTime)`: the difference in
      nanoseconds, saturated to the range of a `time.Duration`. */
  function TimeSub(apiSeconds: int, sysNanos: int): (d: Int64)
    ensures IsInt64(apiSeconds * NanosPerSecond - sysNanos) ==> d == apiSeconds * NanosPerSecond - sysNanos
    ensures forall x :: IsInt64(x) ==>
      Distance(d, apiSeconds * NanosPerSecond - sysNanos) <= Distance(x, apiSeconds * NanosPerSecond - sysNanos)
  {
    var exact := apiSeconds * NanosPerSecond - sysNanos;
    if exact > MaxInt64 then MaxInt64 else if exact < MinInt64 then MinInt64 else exact
  }

  // ---------------------------------------------------------------------
  // The signed call

  /** The headers `sendRequest` puts on a request, one value each. */
  function AuthHeaders(appKey: string, consumerKey: string, signature: string, timestamp: int): (h: Header)
    ensures h.Keys == {ContentTypeHeader, ApplicationHeader, ConsumerHeader, SignatureHeader, TimestampHeader}
    ensures forall k :: k in h ==> |h[k]| == 1
    ensures HeaderValue(h, ContentTypeHeader) == Some(JsonContentType)
    ensures HeaderValue(h, ApplicationHeader) == Some(appKey)
    ensures HeaderValue(h, ConsumerHeader) == Some(consumerKey)
    ensures HeaderValue(h, SignatureHeader) == Some(signature)
    ensures HeaderValue(h, TimestampHeader) == Some(FormatInt(timestamp))
  {
    // Character 6 is `S` in one key and `T` in the other, so the keys differ.
    assert SignatureHeader[6] != TimestampHeader[6];
    map[ContentTypeHeader := [JsonContentType],
        ApplicationHeader := [appKey],
        ConsumerHeader := [consumerKey],
        SignatureHeader := [signature],
        TimestampHeader := [FormatInt(timestamp)]]
  }

  /** The method `http.NewRequest` puts on the request: an empty method
      means `GET`, any other is kept. */
  function WireMethod(verb: string): (m: string)
    ensures m != []
    ensures verb != [] ==> m == verb
    ensures verb == [] ==> m == "GET"
  {
    if verb == [] then "GET" else verb
  }

  /** The request `Call` sends for the client state `c` at local time
      `nowNanos`. The signature covers `verb` as given, while the request
      carries the method `http.NewRequest` makes of it. */
  function SignedRequest(c: ClientState, sha1: Hasher, nowNanos: int, verb: string, path: string,
                         body: seq<Byte>): (r: Request)
    ensures r.verb == WireMethod(verb) && r.url == c.endpoint + path && r.body == body
    ensures r.header == AuthHeaders(c.appKey, c.consumerKey,
                                    ComputeSignature(sha1, c.appSecret, c.consumerKey, verb, r.url, r.body,
                                                     Timestamp(nowNanos, c.timeShift)),
                                    Timestamp(nowNanos, c.timeShift))
  {
    var url := c.endpoint + path;
    var timestamp := Timestamp(nowNanos, c.timeShift);
    var signature := ComputeSignature(sha1, c.appSecret, c.consumerKey, verb, url, body, timestamp);
    Request(WireMethod(verb), url, AuthHeaders(c.appKey, c.consumerKey, signature, timestamp), body)
  }

  /** What `sendRequest` makes of the response: a status of 300 or more is
      an error whatever the body; otherwise the body read, or the read
      error. */
  function HandleResponse(resp: Response): (r: Result<seq<Byte>, Error>)
    ensures resp.statusCode >= 300 ==> r == Err(UnexpectedStatus(resp.status))
    ensures r.Ok? <==> resp.statusCode < 300 && resp.body.Ok?
    ensures r.Ok? ==> r.value == resp.body.value
    ensures resp.statusCode < 300 && resp.body.Err? ==> r == Err(ReadError(resp.body.error))
  {
    if resp.statusCode >= 300 then Err(UnexpectedStatus(resp.status))
    else
      match resp.body
      case Ok(bytes) => Ok(bytes)
      case Err(e) => Err(ReadError(e))
  }

  /** The timestamp a receiver reads from a request's timestamp header. */
  function RequestTimestamp(req: Request): Option<int> {
    match HeaderValue(req.header, TimestampHeader)
    case None => None
    case Some(text) =>
      match ParseInt(text)
      case Ok(t) => Some(t)
      case Err(_) => None
  }

  /** The check a receiver that knows the application secret makes: the
      signature header is the signature of the method, URL and body as
      transmitted, under the consumer key and timestamp headers. */
  predicate SignatureValid(sha1: Hasher, secret: string, req: Request) {
    var consumerKey := HeaderValue(req.header, ConsumerHeader);
    var signature := HeaderValue(req.header, SignatureHeader);
    var timestamp := RequestTimestamp(req);
    && consumerKey.Some? && signature.Some? && timestamp.Some?
    && signature.value == ComputeSignature(sha1, secret, consumerKey.value, req.verb, req.url,
                                           req.body, timestamp.value)
  }

  /** `sendRequest`: builds the request (an empty method becomes `GET`)
      and its header one entry at a time, sends it through `send`, and
      checks the status before reading the body. */
  method SendRequest(appKey: string, consumerKey: string, signature: string, timestamp: int,
                     verb: string, url: string, body: seq<Byte>, send: Request -> Response)
    returns (sent: Request, out: Result<seq<Byte>, Error>)
    ensures sent == Request(WireMethod(verb), url, AuthHeaders(appKey, consumerKey, signature, timestamp), body)
    ensures out == HandleResponse(send(sent))
  {
    var header: Header := map[];
    header := SetHeader(header, ContentTypeHeader, JsonContentType);
    header := AddHeader(header, ApplicationHeader, appKey);
    header := AddHeader(header, ConsumerHeader, consumerKey);
    header := AddHeader(header, SignatureHeader, signature);
    // Character 6 is `S` in one key and `T` in the other, so the keys differ.
    assert SignatureHeader[6] != TimestampHeader[6];
    header := AddHeader(header, TimestampHeader, FormatInt(timestamp));
    ghost var expected := AuthHeaders(appKey, consumerKey, signature, timestamp);
    assert header.Keys == expected.Keys;
    assert header[ContentTypeHeader] == expected[ContentTypeHeader];
    assert header[ApplicationHeader] == expected[ApplicationHeader];
    assert header[ConsumerHeader] == expected[ConsumerHeader];
    assert header[SignatureHeader] == expected[SignatureHeader];
    assert header[TimestampHeader] == expected[TimestampHeader];
    sent := Request(WireMethod(verb), url, header, body);

    var resp := send(sent);
    if resp.statusCode >= 300 {
      return sent, Err(UnexpectedStatus(resp.status));
    }
    match resp.body
    case Err(e) =>
      out := Err(ReadError(e));
    case Ok(bytes) =>
      out := Ok(bytes);
  }

  /** The receiver reads back the very timestamp that was signed, and
      every request signed with a non-empty method passes its check. */
  lemma SignedRequestIsValid(c: ClientState, sha1: Hasher, nowNanos: int, verb: string, path: string,
                             body: seq<Byte>)
    requires IsInt64(Timestamp(nowNanos, c.timeShift))
    ensures RequestTimestamp(SignedRequest(c, sha1, nowNanos, verb, path, body))
            == Some(Timestamp(nowNanos, c.timeShift))
    ensures verb != [] ==> SignatureValid(sha1, c.appSecret, SignedRequest(c, sha1, nowNanos, verb, path, body))
  {
    FormatThenParse(Timestamp(nowNanos, c.timeShift));
  }

  /** A stand-in hash that only looks at the length of the text. */
  function LengthHash(text: string): (d: Digest)
    ensures forall i :: 0 <= i < 20 ==> d[i] == |text| % 256
  {
    seq(20, _ => |text| % 256)
  }

  /** With an empty method the program signs `""` but sends `GET`, so the
      receiver recomputes the signature over a text three characters
      longer: under a hash that sees the length, the check fails. */
  lemma EmptyMethodSignatureRejected(c: ClientState, nowNanos: int, path: string, body: seq<Byte>)
    requires IsInt64(Timestamp(nowNanos, c.timeShift))
    ensures !SignatureValid(LengthHash, c.appSecret, SignedRequest(c, LengthHash, nowNanos, [], path, body))
  {
    var t := Timestamp(nowNanos, c.timeShift);
    var url := c.endpoint + path;
    FormatThenParse(t);
    var signedText := SigningText(c.appSecret, c.consumerKey, [], url, body, t);
    var wireText := SigningText(c.appSecret, c.consumerKey, "GET", url, body, t);
    assert |wireText| == |signedText| + 3;
    assert LengthHash(signedText)[0] != LengthHash(wireText)[0];
    var signed := ComputeSignature(LengthHash, c.appSecret, c.consumerKey, [], url, body, t);
    var recomputed := ComputeSignature(LengthHash, c.appSecret, c.consumerKey, "GET", url, body, t);
    assert Unhex(signed[3..]) != Unhex(recomputed[3..]);
  }

  /** The request as it should be built: the method is normalised before
      it is signed, so the text signed names the method sent, and every
      such request passes the receiver's check. */
  function CorrectedSignedRequest(c: ClientState, sha1: Hasher, nowNanos: int, verb: string, path: string,
                                  body: seq<Byte>): (r: Request)
    ensures r.verb == WireMethod(verb) && r.url == c.endpoint + path && r.body == body
    ensures IsInt64(Timestamp(nowNanos, c.timeShift)) ==> SignatureValid(sha1, c.appSecret, r)
  {
    var r := SignedRequest(c, sha1, nowNanos, WireMethod(verb), path, body);
    if IsInt64(Timestamp(nowNanos, c.timeShift)) then
      SignedRequestIsValid(c, sha1, nowNanos, WireMethod(verb), path, body);
      r
    else
      r
  }

  /** With no payload the body sent is empty and the signed text has an
      empty hex field. */
  lemma NoPayloadSignsEmptyBody(c: ClientState, sha1: Hasher, nowNanos: int, verb: string, path: string)
    ensures var req := SignedRequest(c, sha1, nowNanos, verb, path, []);
      && req.body == []
      && req.header[SignatureHeader]
         == [ComputeSignature(sha1, c.appSecret, c.consumerKey, verb, c.endpoint + path, [],
                              Timestamp(nowNanos, c.timeShift))]
      && SigningText(c.appSecret, c.consumerKey, verb, c.endpoint + path, [], Timestamp(nowNanos, c.timeShift))
         == c.appSecret + "+" + c.consumerKey + "+" + verb + "+" + c.endpoint + path + "++"
            + FormatInt(Timestamp(nowNanos, c.timeShift))
  {
  }

  /** For a status of 300 or more the body is never read: any other body,
      or a failed read, gives the same outcome. */
  lemma StatusErrorIgnoresBody(resp: Response, otherBody: Result<seq<Byte>, string>)
    requires resp.statusCode >= 300
    ensures HandleResponse(resp) == HandleResponse(resp.(body := otherBody))
  {
  }

  // ---------------------------------------------------------------------
  // The clock-shift poll

  /** What `PollTimeshift` makes of the outcome of fetching the API's clock
      at local time `sysNanos`: the new shift, or the first error. The
      status code is not looked at. */
  function PollOutcome(sysNanos: int, fetched: Result<Response, string>): (r: Result<Int64, Error>)
    ensures r.Ok? <==>
      fetched.Ok? && fetched.value.body.Ok? && ParseInt(BytesToString(fetched.value.body.value)).Ok?
    ensures r.Ok? ==> r.value == TimeSub(ParseInt(BytesToString(fetched.value.body.value)).value, sysNanos)
    ensures fetched.Err? ==> r == Err(TransportError(fetched.error))
    ensures fetched.Ok? && fetched.value.body.Err? ==> r == Err(ReadError(fetched.value.body.error))
    ensures fetched.Ok? && fetched.value.body.Ok? && ParseInt(BytesToString(fetched.value.body.value)).Err? ==>
      r == Err(ParseError(ParseInt(BytesToString(fetched.value.body.value)).error))
  {
    match fetched
    case Err(e) => Err(TransportError(e))
    case Ok(resp) =>
      match resp.body
      case Err(e) => Err(ReadError(e))
      case Ok(bytes) =>
        match ParseInt(BytesToString(bytes))
        case Err(kind) => Err(ParseError(kind))
        case Ok(apiSeconds) => Ok(TimeSub(apiSeconds, sysNanos))
  }

  /** A clock body written with `%d` yields the shift to that time. */
  lemma PollReadsApiTime(sysNanos: int, statusCode: int, status: string, bytes: seq<Byte>, apiSeconds: int)
    requires IsInt64(apiSeconds) && BytesToString(bytes) == FormatInt(apiSeconds)
    ensures PollOutcome(sysNanos, Ok(Response(statusCode, status, Ok(bytes)))) == Ok(TimeSub(apiSeconds, sysNanos))
  {
    FormatThenParse(apiSeconds);
  }

  /** After the shift is set from API time `apiSeconds` read at local time
      `sysNanos`, a call made `elapsed` nanoseconds later is stamped with
      the API time plus the whole seconds elapsed. */
  lemma ShiftAlignsClock(apiSeconds: int, sysNanos: int, elapsed: int)
    requires IsInt64(apiSeconds * NanosPerSecond - sysNanos)
    ensures Timestamp(sysNanos + elapsed, TimeSub(apiSeconds, sysNanos)) == apiSeconds + UnixSeconds(elapsed)
  {
  }

  // ---------------------------------------------------------------------
  // The client object

  class Client {
    var AppKey: string
    var AppSecret: string
    var ConsumerKey: string
    var Endpoint: string
    /** Nanoseconds to add to the local clock to obtain the API's clock. */
    var TimeShift: Int64

    function State(): ClientState
      reads this
    {
      ClientState(AppKey, AppSecret, ConsumerKey, Endpoint, TimeShift)
    }

    /** `NewClient`: no check on the strings, and no shift. */
    constructor (endpoint: string, appKey: string, appSecret: string, consumerKey: string)
      ensures State() == ClientState(appKey, appSecret, consumerKey, endpoint, 0)
    {
      AppKey := appKey;
      AppSecret := appSecret;
      ConsumerKey := consumerKey;
      Endpoint := endpoint;
      TimeShift := 0;
    }

    /** `PollTimeshift`: `sysNanos` is the local clock read before the
        request; `get` performs `http.Get` and reads the body. Only when
        the fetch, the read and the parse all succeed is the shift
        replaced; nothing else in the client changes. */
    method PollTimeshift(sysNanos: int, get: string -> Result<Response, string>) returns (err: Option<Error>)
      modifies this`TimeShift
      ensures match PollOutcome(sysNanos, get(Endpoint + TimePath))
        case Ok(shift) => err == None && TimeShift == shift
        case Err(e) => err == Some(e) && TimeShift == old(TimeShift)
    {
      var fetched := get(Endpoint + TimePath);
      if fetched.Err? {
        return Some(TransportError(fetched.error));
      }
      var resp := fetched.value;
      if resp.body.Err? {
        return Some(ReadError(resp.body.error));
      }
      var apiTime := ParseInt(BytesToString(resp.body.value));
      if apiTime.Err? {
        return Some(ParseError(apiTime.error));
      }
      TimeShift := TimeSub(apiTime.value, sysNanos);
      err := None;
    }

    /** `Call`: `nowNanos` is the local clock, `sha1` the hash and `send`
        the transport. A payload that fails to encode ends the call before
        anything is signed or sent; otherwise the request sent is the
        signed request for the current state, and the result is what the
        response makes of it. `Ok(bytes)` stands for a nil error with the
        body handed to `json.Unmarshal`, whose own error is dropped. */
    method Call(nowNanos: int, verb: string, path: string, payload: Payload, sha1: Hasher,
                send: Request -> Response)
      returns (sent: Option<Request>, result: Result<seq<Byte>, Error>)
      ensures payload.EncodeFailed? ==> sent == None && result == Err(EncodeError(payload.message))
      ensures payload.NoPayload? ==> sent == Some(SignedRequest(State(), sha1, nowNanos, verb, path, []))
      ensures payload.Encoded? ==> sent == Some(SignedRequest(State(), sha1, nowNanos, verb, path, payload.bytes))
      ensures sent.Some? ==> result == HandleResponse(send(sent.value))
    {
      if payload.EncodeFailed? {
        return None, Err(EncodeError(payload.message));
      }
      var c := State();
      var body := if payload.Encoded? then payload.bytes else [];

      var url := c.endpoint + path;
      var timestamp := Timestamp(nowNanos, c.timeShift);
      var signature := ComputeSignature(sha1, c.appSecret, c.consumerKey, verb, url, body, timestamp);

      var request, out := SendRequest(c.appKey, c.consumerKey, signature, timestamp, verb, url, body, send);
      sent := Some(request);
      result := out;
    }
  }
}
