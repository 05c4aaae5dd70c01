/** The bridge's error type and its display texts (src/search/errors.rs). */
module Errors {
  import opened Wrappers
  import opened Text

  /** Rust's `u16`. */
  type U16 = x: int | 0 <= x < 0x1_0000

  /** `Api` is an answer from the backend with a status other than 200;
      `Request` wraps an error of the HTTP library (sending, or reading the
      body) and `Json` one of the JSON parser. Each library error is kept as
      the text its own `Display` writes. */
  datatype RequestError =
    | Api(statusCode: U16, message: string)
    | Request(cause: string)
    | Json(cause: string)

  const ApiPrefix: string := "Search API Error ("
  const ApiSeparator: string := "): "
  const RequestPrefix: string := "HTTP request failed: "
  const JsonPrefix: string := "JSON parsing failed: "

  /** Reads back the text after `ApiPrefix`: a status code in decimal, the
      separator, then the message. */
  function ParseApi(rest: string): Option<RequestError> {
    var k := IndexOf(rest, ')');
    var digits := rest[..k];
    if 0 < k && AllDigits(digits) && IsPrefix(ApiSeparator, rest[k..])
      && DigitsValue(digits) < 0x1_0000
    then Some(Api(DigitsValue(digits), rest[k + |ApiSeparator|..]))
    else None
  }

  /** Reads a display text back into the error it shows, if it shows one. */
  function ParseDisplay(s: string): Option<RequestError> {
    if IsPrefix(ApiPrefix, s) then ParseApi(s[|ApiPrefix|..])
    else if IsPrefix(RequestPrefix, s) then Some(Request(s[|RequestPrefix|..]))
    else if IsPrefix(JsonPrefix, s) then Some(Json(s[|JsonPrefix|..]))
    else None
  }

  lemma ParseApiRoundTrip(code: U16, message: string)
    ensures ParseApi(Decimal(code) + ApiSeparator + message) == Some(Api(code, message))
  {
    var d := Decimal(code);
    var rest := d + ApiSeparator + message;
    assert rest == d + [')'] + (": " + message);
    assert ')' !in d;
    IndexOfAfter(d, ')', ": " + message);
    assert rest[..|d|] == d;
    assert rest[|d|..] == ApiSeparator + message;
    DecimalRoundTrip(code);
  }

  /** The error's `Display` text: `Search API Error (<code>): <message>`,
      `HTTP request failed: <cause>` or `JSON parsing failed: <cause>`. The
      text determines the error: variant, status code, message and cause
      can all be read back from it. */
  function Display(e: RequestError): (s: string)
    ensures e.Api? ==> IsPrefix(ApiPrefix, s)
    ensures e.Request? ==> IsPrefix(RequestPrefix, s)
    ensures e.Json? ==> IsPrefix(JsonPrefix, s)
    ensures ParseDisplay(s) == Some(e)
  {
    match e
    case Api(code, message) =>
      var rest := Decimal(code) + ApiSeparator + message;
      ParseApiRoundTrip(code, message);
      assert (ApiPrefix + rest)[|ApiPrefix|..] == rest;
      ApiPrefix + rest
    case Request(cause) =>
      var s := RequestPrefix + cause;
      assert s[0] != ApiPrefix[0];
      assert s[|RequestPrefix|..] == cause;
      s
    case Json(cause) =>
      var s := JsonPrefix + cause;
      assert s[0] != ApiPrefix[0] && s[0] != RequestPrefix[0];
      assert s[|JsonPrefix|..] == cause;
      s
  }

  /** Two different errors never display alike. */
  lemma DisplayInjective(e1: RequestError, e2: RequestError)
    requires Display(e1) == Display(e2)
    ensures e1 == e2
  {
  }
}
