/** The ClientKey extractor: when the server is configured with a list of
    client keys, every request must present one of them in a header. */
module ClientKeyExtractor {
  import opened Wrappers
  import opened Primitives
  import opened HttpTypes

  const ClientKeyHeader: string := "X-Client-Key"

  datatype ClientKeyExtractError = InvalidKey | MissingKey

  /** The trimmed key a request presents, if any. */
  function PresentedKey(headers: HeaderMap): (r: Option<string>)
    ensures r.Some? <==> HeaderStr(headers, ClientKeyHeader).Some?
    ensures r.Some? ==> r.value == Trim(HeaderStr(headers, ClientKeyHeader).value)
  {
    match HeaderStr(headers, ClientKeyHeader)
    case None => None
    case Some(v) => Some(Trim(v))
  }

  /** from_request_parts, with the configured keys (`state.client_keys`)
      as a parameter: no list means every request is let through. */
  function FromRequestParts(clientKeys: Option<seq<string>>, headers: HeaderMap): (r: Result<(), ClientKeyExtractError>)
    ensures clientKeys.None? ==> r.Ok?
    ensures clientKeys.Some? ==>
      (r == Err(MissingKey) <==> PresentedKey(headers).None? || PresentedKey(headers).value == [])
    ensures clientKeys.Some? ==>
      (r.Ok? <==> PresentedKey(headers).Some? && PresentedKey(headers).value != []
                  && PresentedKey(headers).value in clientKeys.value)
  {
    match clientKeys
    case None => Ok(())
    case Some(keys) =>
      match PresentedKey(headers)
      case None => Err(MissingKey)
      case Some(key) =>
        if key == [] then Err(MissingKey)
        else if key !in keys then Err(InvalidKey)
        else Ok(())
  }

  /** A wrong key is forbidden; an absent or blank one is unauthorised. */
  function IntoResponse(e: ClientKeyExtractError): (r: Response)
    ensures e.InvalidKey? ==> r == Response(Forbidden403, "Invalid client key")
    ensures e.MissingKey? ==> r == Response(Unauthorized401, "Missing client key")
  {
    match e
    case InvalidKey => Response(Forbidden403, "Invalid client key")
    case MissingKey => Response(Unauthorized401, "Missing client key")
  }

  /** A configured key that starts or ends with whitespace can never be
      presented, because the header value is trimmed before comparison. */
  lemma PaddedConfiguredKeyNeverMatches(k: string, headers: HeaderMap)
    requires k != [] && (IsWhiteSpace(k[0]) || IsWhiteSpace(k[|k| - 1]))
    ensures PresentedKey(headers) != Some(k)
  {
    var h := HeaderStr(headers, ClientKeyHeader);
    if h.Some? {
      TrimmedIsNeverPadded(h.value, k);
    }
  }

  /** With keys configured, the outcome depends on the header's text only
      through its trimmed form. */
  lemma OnlyTrimmedKeyMatters(keys: seq<string>, h1: HeaderMap, h2: HeaderMap)
    requires HeaderStr(h1, ClientKeyHeader).Some? && HeaderStr(h2, ClientKeyHeader).Some?
    requires Trim(HeaderStr(h1, ClientKeyHeader).value) == Trim(HeaderStr(h2, ClientKeyHeader).value)
    ensures FromRequestParts(Some(keys), h1) == FromRequestParts(Some(keys), h2)
  {
  }
}
