/** The UniqueContentId extractor: a player's hashed content id and its
    salt, taken from two request headers. */
module ContentIdExtractor {
  import opened Wrappers
  import opened Primitives
  import opened HttpTypes

  const ContentIdHashHeader: string := "x-content-id-hash"
  const ContentIdSaltHeader: string := "x-content-id-salt"
  /** Minimum byte lengths; the checks are "at least", not "exactly". */
  const ContentIdHashLength: nat := 64
  const ContentIdSaltLength: nat := 32

  datatype UniqueContentId = UniqueContentId(hash: string, salt: string)

  datatype ContentIdExtractError = HashMissing | SaltMissing | HashOrSaltInvalid

  /** from_request_parts: the hash header is read first, then the salt
      header, then both lengths (in bytes) are checked. */
  function FromRequestParts(headers: HeaderMap): (r: Result<UniqueContentId, ContentIdExtractError>)
    ensures r == Err(HashMissing) <==> HeaderStr(headers, ContentIdHashHeader).None?
    ensures r == Err(SaltMissing) <==>
      HeaderStr(headers, ContentIdHashHeader).Some? && HeaderStr(headers, ContentIdSaltHeader).None?
    ensures r.Ok? <==>
      HeaderStr(headers, ContentIdHashHeader).Some? && HeaderStr(headers, ContentIdSaltHeader).Some?
      && Utf8Length(HeaderStr(headers, ContentIdHashHeader).value) >= ContentIdHashLength
      && Utf8Length(HeaderStr(headers, ContentIdSaltHeader).value) >= ContentIdSaltLength
    ensures r.Ok? ==>
      Some(r.value.hash) == HeaderStr(headers, ContentIdHashHeader)
      && Some(r.value.salt) == HeaderStr(headers, ContentIdSaltHeader)
  {
    match HeaderStr(headers, ContentIdHashHeader)
    case None => Err(HashMissing)
    case Some(hash) =>
      match HeaderStr(headers, ContentIdSaltHeader)
      case None => Err(SaltMissing)
      case Some(salt) =>
        if Utf8Length(hash) < ContentIdHashLength || Utf8Length(salt) < ContentIdSaltLength then
          Err(HashOrSaltInvalid)
        else
          Ok(UniqueContentId(hash, salt))
  }

  /** Every rejection is the same 400 response, so a client cannot tell
      which header was at fault. */
  function IntoResponse(e: ContentIdExtractError): (r: Response)
    ensures r.status == BadRequest400 && r.body == "Invalid ContentId data"
  {
    Response(BadRequest400, "Invalid ContentId data")
  }

  /** An accepted id is ASCII and has at least 64 and 32 characters. */
  lemma AcceptedIdLengths(headers: HeaderMap)
    requires FromRequestParts(headers).Ok?
    ensures |FromRequestParts(headers).value.hash| >= ContentIdHashLength
    ensures |FromRequestParts(headers).value.salt| >= ContentIdSaltLength
  {
    HeaderStrIsAscii(headers, ContentIdHashHeader);
    HeaderStrIsAscii(headers, ContentIdSaltHeader);
  }

  /** With both headers present as visible ASCII, the id is accepted
      exactly when the hash has at least 64 bytes and the salt at least 32,
      and it is the two header values as sent. */
  lemma AcceptedIffLongEnough(h: seq<byte>, s: seq<byte>)
    requires forall i :: 0 <= i < |h| ==> IsVisibleAscii(h[i])
    requires forall i :: 0 <= i < |s| ==> IsVisibleAscii(s[i])
    ensures var r := FromRequestParts(map[ContentIdHashHeader := h, ContentIdSaltHeader := s]);
      (r.Ok? <==> |h| >= ContentIdHashLength && |s| >= ContentIdSaltLength)
      && (r.Ok? ==> r.value.hash == ToStr(h).value && r.value.salt == ToStr(s).value)
      && (r.Err? ==> r.error == HashOrSaltInvalid)
  {
    var headers := map[ContentIdHashHeader := h, ContentIdSaltHeader := s];
    assert LowerAscii(ContentIdHashHeader) == ContentIdHashHeader;
    assert LowerAscii(ContentIdSaltHeader) == ContentIdSaltHeader;
    AsciiUtf8Length(ToStr(h).value);
    AsciiUtf8Length(ToStr(s).value);
  }
}
