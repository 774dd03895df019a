/** The request signature of the OVH API: the text the client signs, the
    `$1$`-prefixed hex of its SHA-1 digest, and the parse that recovers the
    signed fields from that text. */
module Signature {
  import opened Results
  import opened Encoding

  /** A SHA-1 digest (section 6.1 of FIPS 180-4): 20 bytes. */
  type Digest = d: seq<Byte> | |d| == 20 witness seq(20, _ => 0)

  /** SHA-1 applied to the bytes of a Go string. The hash itself is not
      part of this model; every signing operation takes it as a parameter. */
  type Hasher = string -> Digest

  /** The text that is hashed: `"%s+%s+%s+%s+%x+%d"` over the secret, the
      consumer key, the HTTP method, the URL, the body and the timestamp.
      When the secret, the consumer key and the method hold no `+`, the
      text determines every field it was built from. */
  function SigningText(secret: string, consumerKey: string, verb: string, url: string,
                       body: seq<Byte>, timestamp: int): (r: string)
    ensures NoPlus(secret) && NoPlus(consumerKey) && NoPlus(verb) && IsInt64(timestamp) ==>
      ParseSigningText(r) == Some(SignedFields(secret, consumerKey, verb, url, body, timestamp))
  {
    var text := secret + "+" + consumerKey + "+" + verb + "+" + url + "+" + Hex(body) + "+" + FormatInt(timestamp);
    if NoPlus(secret) && NoPlus(consumerKey) && NoPlus(verb) && IsInt64(timestamp) then
      JoinedFieldsParse(secret, consumerKey, verb, url, body, timestamp);
      text
    else
      text
  }

  /** The parse undoes the `+`-join, one split at a time. */
  lemma JoinedFieldsParse(secret: string, consumerKey: string, verb: string, url: string,
                          body: seq<Byte>, timestamp: int)
    requires NoPlus(secret) && NoPlus(consumerKey) && NoPlus(verb) && IsInt64(timestamp)
    ensures ParseSigningText(secret + "+" + consumerKey + "+" + verb + "+" + url + "+" + Hex(body)
                             + "+" + FormatInt(timestamp))
            == Some(SignedFields(secret, consumerKey, verb, url, body, timestamp))
  {
    var hex, decimal := Hex(body), FormatInt(timestamp);
    var rest4 := url + "+" + hex;
    var rest3 := rest4 + "+" + decimal;
    var rest2 := verb + "+" + rest3;
    var rest1 := consumerKey + "+" + rest2;
    var text := secret + "+" + consumerKey + "+" + verb + "+" + url + "+" + hex + "+" + decimal;
    JoinRegroups(secret, consumerKey, verb, url, hex, decimal);
    assert text == secret + "+" + rest1;
    SplitFirstOf(secret, rest1);
    SplitFirstOf(consumerKey, rest2);
    SplitFirstOf(verb, rest3);
    SplitLastOf(rest4, decimal);
    SplitLastOf(url, hex);
    UnhexHex(body);
    FormatThenParse(timestamp);
  }

  /** `computeSignature`: `"$1$"` followed by the lowercase hex of the
      digest of the signing text. */
  function ComputeSignature(sha1: Hasher, secret: string, consumerKey: string, verb: string,
                            url: string, body: seq<Byte>, timestamp: int): (r: string)
    ensures |r| == 43 && r[..3] == "$1$"
    ensures AllLowerHex(r[3..])
    ensures Unhex(r[3..]) == Some(sha1(SigningText(secret, consumerKey, verb, url, body, timestamp)))
  {
    var digest := sha1(SigningText(secret, consumerKey, verb, url, body, timestamp));
    UnhexHex(digest);
    assert ("$1$" + Hex(digest))[3..] == Hex(digest);
    "$1$" + Hex(digest)
  }

  // ---------------------------------------------------------------------
  // Reading the signed fields back out of the signing text

  predicate NoPlus(s: string) {
    forall i :: 0 <= i < |s| ==> s[i] != '+'
  }

  /** Splits `s` at its first `+`. */
  function SplitFirst(s: string): (r: Option<(string, string)>)
    ensures r.Some? ==> NoPlus(r.value.0) && s == r.value.0 + "+" + r.value.1
    ensures r.None? ==> NoPlus(s)
  {
    if s == [] then None
    else if s[0] == '+' then Some(([], s[1..]))
    else
      match SplitFirst(s[1..])
      case None => None
      case Some((head, tail)) => Some(([s[0]] + head, tail))
  }

  /** Splits `s` at its last `+`. */
  function SplitLast(s: string): (r: Option<(string, string)>)
    ensures r.Some? ==> NoPlus(r.value.1) && s == r.value.0 + "+" + r.value.1
    ensures r.None? ==> NoPlus(s)
  {
    if s == [] then None
    else if s[|s| - 1] == '+' then Some((s[..|s| - 1], []))
    else
      match SplitLast(s[..|s| - 1])
      case None => None
      case Some((head, tail)) => Some((head, tail + [s[|s| - 1]]))
  }

  lemma {:induction false} SplitFirstOf(a: string, b: string)
    requires NoPlus(a)
    ensures SplitFirst(a + "+" + b) == Some((a, b))
  {
    if a != [] {
      assert (a + "+" + b)[1..] == a[1..] + "+" + b;
      SplitFirstOf(a[1..], b);
      assert [a[0]] + a[1..] == a;
    }
  }

  lemma {:induction false} SplitLastOf(a: string, b: string)
    requires NoPlus(b)
    ensures SplitLast(a + "+" + b) == Some((a, b))
  {
    var s := a + "+" + b;
    if b != [] {
      var init := b[..|b| - 1];
      assert s[..|s| - 1] == a + "+" + init;
      SplitLastOf(a, init);
      assert init + [b[|b| - 1]] == b;
    } else {
      assert s[..|s| - 1] == a;
    }
  }

  /** The six fields a signing text is made of. */
  datatype SignedFields = SignedFields(secret: string, consumerKey: string, verb: string,
                                       url: string, body: seq<Byte>, timestamp: int)

  /** Recovers the signed fields: the first three end at the first three
      `+`, the last two start after the last two `+`, and the URL, which may
      itself hold `+`, is what lies between. The body field must be `%x`
      text and the timestamp field exactly what `%d` writes. */
  function ParseSigningText(text: string): (r: Option<SignedFields>)
    ensures r.Some? ==> IsInt64(r.value.timestamp) && NoPlus(r.value.secret)
  {
    if SplitFirst(text).None? then None else
    var (secret, rest1) := SplitFirst(text).value;
    if SplitFirst(rest1).None? then None else
    var (consumerKey, rest2) := SplitFirst(rest1).value;
    if SplitFirst(rest2).None? then None else
    var (verb, rest3) := SplitFirst(rest2).value;
    if SplitLast(rest3).None? then None else
    var (rest4, timestampText) := SplitLast(rest3).value;
    if SplitLast(rest4).None? then None else
    var (url, hexText) := SplitLast(rest4).value;
    match (Unhex(hexText), ParseInt(timestampText))
    case (Some(body), Ok(timestamp)) =>
      if FormatInt(timestamp) == timestampText then
        Some(SignedFields(secret, consumerKey, verb, url, body, timestamp))
      else
        None
    case _ => None
  }

  /** Every text `ParseSigningText` accepts is the signing text of the
      fields it recovers. */
  lemma SigningTextOfParse(text: string)
    requires ParseSigningText(text).Some?
    ensures var f := ParseSigningText(text).value;
      SigningText(f.secret, f.consumerKey, f.verb, f.url, f.body, f.timestamp) == text
  {
    var (secret, rest1) := SplitFirst(text).value;
    var (consumerKey, rest2) := SplitFirst(rest1).value;
    var (verb, rest3) := SplitFirst(rest2).value;
    var (rest4, timestampText) := SplitLast(rest3).value;
    var (url, hexText) := SplitLast(rest4).value;
    var f := ParseSigningText(text).value;
    HexUnhex(hexText, f.body);
    assert f == SignedFields(secret, consumerKey, verb, url, f.body, f.timestamp);
    JoinRegroups(secret, consumerKey, verb, url, hexText, timestampText);
  }

  /** The nesting the parse splits into is the flat `+`-join. */
  lemma JoinRegroups(a: string, b: string, c: string, d: string, e: string, g: string)
    ensures a + "+" + (b + "+" + (c + "+" + ((d + "+" + e) + "+" + g)))
         == a + "+" + b + "+" + c + "+" + d + "+" + e + "+" + g
  {
  }

  /** Under the same conditions, different fields give different texts. */
  lemma SigningTextInjective(f: SignedFields, g: SignedFields)
    requires NoPlus(f.secret) && NoPlus(f.consumerKey) && NoPlus(f.verb) && IsInt64(f.timestamp)
    requires NoPlus(g.secret) && NoPlus(g.consumerKey) && NoPlus(g.verb) && IsInt64(g.timestamp)
    requires SigningText(f.secret, f.consumerKey, f.verb, f.url, f.body, f.timestamp)
          == SigningText(g.secret, g.consumerKey, g.verb, g.url, g.body, g.timestamp)
    ensures f == g
  {
  }

  /** No field is escaped, so a `+` inside a field can move the boundary:
      whatever the strings, the secret `a+b` with the consumer key `c` signs
      the same text as the secret `a` with the consumer key `b+c`. */
  lemma SigningTextAmbiguous(a: string, b: string, c: string, verb: string, url: string,
                             body: seq<Byte>, timestamp: int)
    ensures SigningText(a + "+" + b, c, verb, url, body, timestamp)
         == SigningText(a, b + "+" + c, verb, url, body, timestamp)
  {
    PlusRegroups(a, b, c, "+" + verb + "+" + url + "+" + Hex(body) + "+" + FormatInt(timestamp));
  }

  /** Joining with `+` is associative. */
  lemma PlusRegroups(a: string, b: string, c: string, tail: string)
    ensures (a + "+" + b) + "+" + c + tail == a + "+" + (b + "+" + c) + tail
  {
  }
}
