/**
 * The pure parts of a dynamic-fixture completion: the synthetic result record that
 * replaces the real transport, its default status text and the header string.
 */
module Completion {
  import opened JsValues

  /** `status >= 200 && status < 300 || status === 304`. */
  predicate IsSuccess(status: int) {
    (200 <= status && status < 300) || status == 304
  }

  /** `statusText || "OK"` on success, `statusText || "error"` otherwise. */
  function StatusText(status: int, given: Value): (r: Value)
    ensures Truthy(r)
    ensures r == given || r == Str("OK") || r == Str("error")
  {
    if IsSuccess(status) then (if Truthy(given) then given else Str("OK"))
    else (if Truthy(given) then given else Str("error"))
  }

  /** A truthy status text is kept; otherwise the default is "OK" exactly for the
      success range (2xx or 304) and "error" for every other status. Either way the
      status text read back is truthy. */
  lemma StatusTextDefault(status: int, given: Value)
    ensures Truthy(given) ==> StatusText(status, given) == given
    ensures !Truthy(given) ==>
      && (StatusText(status, given) == Str("OK") <==> IsSuccess(status))
      && (StatusText(status, given) == Str("error") <==> !IsSuccess(status))
    ensures Truthy(StatusText(status, given))
  {
  }

  /** `typeof body === "string" ? body : JSON.stringify(body)`. */
  function ResponseText(c: Codecs, body: Value): (r: Value)
    ensures body.Str? ==> r == body
    ensures !body.Str? ==> r == c.stringify(body)
  {
    if body.Str? then body else c.stringify(body)
  }

  /** The plain object `{}` that becomes the backing object, after the two `assign`s. */
  function SyntheticFields(c: Codecs, status: int, body: Value, statusText: Value): (f: map<string, Value>)
    ensures f.Keys == {"readyState", "status", "statusText", "responseText"}
    ensures Field(f, "readyState") == Num(4) && Field(f, "status") == Num(status)
    ensures Field(f, "statusText") == StatusText(status, statusText)
    ensures Field(f, "responseText") == ResponseText(c, body)
  {
    map["readyState" := Num(4), "status" := Num(status),
        "statusText" := StatusText(status, statusText), "responseText" := ResponseText(c, body)]
  }

  /** One header as `getAllResponseHeaders` prints it. */
  function HeaderLine(name: string, value: string): string {
    name + ": " + value + "\r\n"
  }

  /** The synthetic `getAllResponseHeaders`: each header's line, in iteration order. */
  function HeaderString(headers: seq<(string, string)>): (r: string)
    ensures r == "" <==> headers == []
  {
    if headers == [] then "" else HeaderLine(headers[0].0, headers[0].1) + HeaderString(headers[1..])
  }

  /** The header string of two header lists is the concatenation of theirs, so every
      header contributes exactly its own line, in order. */
  lemma {:induction false} HeaderStringAppend(a: seq<(string, string)>, b: seq<(string, string)>)
    ensures HeaderString(a + b) == HeaderString(a) + HeaderString(b)
  {
    if a == [] {
      assert a + b == b;
    } else {
      var line := HeaderLine(a[0].0, a[0].1);
      assert (a + b)[0] == a[0];
      assert (a + b)[1..] == a[1..] + b;
      calc {
        HeaderString(a + b);
        line + HeaderString(a[1..] + b);
        { HeaderStringAppend(a[1..], b); }
        line + (HeaderString(a[1..]) + HeaderString(b));
        (line + HeaderString(a[1..])) + HeaderString(b);
      }
    }
  }

  /** The header string is empty exactly when there are no headers; otherwise it ends in
      CRLF, and its length is that of the names and values plus four per header. */
  lemma {:induction false} HeaderStringShape(headers: seq<(string, string)>)
    ensures HeaderString(headers) == "" <==> headers == []
    ensures headers != [] ==> HeaderString(headers)[|HeaderString(headers)| - 2..] == "\r\n"
    ensures |HeaderString(headers)| == HeadersSize(headers)
  {
    if headers != [] {
      HeaderStringShape(headers[1..]);
    }
  }

  function HeadersSize(headers: seq<(string, string)>): nat {
    if headers == [] then 0 else |headers[0].0| + |headers[0].1| + 4 + HeadersSize(headers[1..])
  }
}
