/** The pieces of the `http` crate the server's extractors and handlers
    use: status codes, a request's header map and HeaderValue::to_str. */
module HttpTypes {
  import opened Wrappers
  import opened Primitives

  const Ok200: nat := 200
  const Accepted202: nat := 202
  const BadRequest400: nat := 400
  const Unauthorized401: nat := 401
  const Forbidden403: nat := 403
  const InternalServerError500: nat := 500

  /** A response with a plain-text body. */
  datatype Response = Response(status: nat, body: string)

  /** Header names are normalised to lower case, as HeaderName stores them;
      each name maps to its first value, the one HeaderMap::get returns. */
  type HeaderMap = map<string, seq<byte>>

  /** A byte HeaderValue::to_str accepts: visible ASCII or a tab. */
  predicate IsVisibleAscii(b: byte) {
    b == 9 || (32 <= b < 127)
  }

  /** HeaderValue::to_str: the value as text when every byte is visible
      ASCII, otherwise an error. */
  function ToStr(v: seq<byte>): (r: Option<string>)
    ensures r.Some? <==> forall i :: 0 <= i < |v| ==> IsVisibleAscii(v[i])
    ensures r.Some? ==> |r.value| == |v| && IsAscii(r.value)
    ensures r.Some? ==> forall i :: 0 <= i < |v| ==> r.value[i] as int == v[i]
  {
    if forall i :: 0 <= i < |v| ==> IsVisibleAscii(v[i]) then Some(seq(|v|, i requires 0 <= i < |v| => v[i] as char))
    else None
  }

  /** ASCII lower-casing, which HeaderName applies to a name given as text. */
  function LowerAscii(s: string): (r: string)
    ensures |r| == |s|
    ensures forall i :: 0 <= i < |s| ==> r[i] == (if 'A' <= s[i] <= 'Z' then (s[i] as int + 32) as char else s[i])
  {
    seq(|s|, i requires 0 <= i < |s| => if 'A' <= s[i] <= 'Z' then (s[i] as int + 32) as char else s[i])
  }

  /** headers.get(name).and_then(|v| v.to_str().ok()): the named header's
      value as text, absent when the header is missing or not visible ASCII.
      The name is matched without regard to ASCII case. */
  function HeaderStr(headers: HeaderMap, name: string): (r: Option<string>)
    ensures r.Some? <==> LowerAscii(name) in headers && ToStr(headers[LowerAscii(name)]).Some?
    ensures r.Some? ==> r == ToStr(headers[LowerAscii(name)])
  {
    var key := LowerAscii(name);
    if key in headers then ToStr(headers[key]) else None
  }

  /** A header's text is ASCII, so its byte length is its character count. */
  lemma HeaderStrIsAscii(headers: HeaderMap, name: string)
    requires HeaderStr(headers, name).Some?
    ensures Utf8Length(HeaderStr(headers, name).value) == |HeaderStr(headers, name).value|
  {
    AsciiUtf8Length(HeaderStr(headers, name).value);
  }
}
