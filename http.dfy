/** The parts of an HTTP exchange the client builds and inspects. Sending
    and receiving are not modelled: a transport is a function from the
    request sent to the response received. */
module Http {
  import opened Results
  import opened Encoding

  /** `http.Header`: each key maps to its list of values. Keys are used
      here only in their canonical form, so canonicalisation is the
      identity on them. */
  type Header = map<string, seq<string>>

  datatype Request = Request(verb: string, url: string, header: Header, body: seq<Byte>)

  /** A response: its numeric status code, its status line (`resp.Status`)
      and the outcome of reading its whole body (`ioutil.ReadAll`). */
  datatype Response = Response(statusCode: int, status: string, body: Result<seq<Byte>, string>)

  /** `Header.Set`: the key's values become exactly `[value]`. */
  function SetHeader(h: Header, key: string, value: string): (r: Header)
    ensures key in r && r[key] == [value]
    ensures forall k :: k != key ==> (k in r <==> k in h) && (k in h ==> r[k] == h[k])
  {
    h[key := [value]]
  }

  /** `Header.Add`: `value` is appended to the key's values. */
  function AddHeader(h: Header, key: string, value: string): (r: Header)
    ensures key in r && r[key] == (if key in h then h[key] else []) + [value]
    ensures forall k :: k != key ==> (k in r <==> k in h) && (k in h ==> r[k] == h[k])
  {
    h[key := (if key in h then h[key] else []) + [value]]
  }

  /** `Header.Get`: the first value of the key, if it has one. */
  function HeaderValue(h: Header, key: string): (r: Option<string>)
    ensures r.Some? <==> key in h && |h[key]| > 0
    ensures r.Some? ==> r.value == h[key][0]
  {
    if key in h && |h[key]| > 0 then Some(h[key][0]) else None
  }
}
