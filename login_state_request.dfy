/** The client's login-state POST: the validated request data, the
    MessagePack body it is copied into, and the HTTP message built from it. */
module PlayerLoginStateRequest {
  import opened Wrappers
  import opened Primitives

  const EndpointUrl: string := "api/event"
  const MsgPackContentType: string := "application/msgpack"
  const ContentIdHashLength: nat := 32
  const ContentIdSaltLength: nat := 16

  /** An ArgumentException and its message. */
  datatype ArgumentError = ArgumentError(message: string)

  /** The ContentIdHash init accessor as written: it throws when the array
      has exactly the length that its documentation requires, and stores
      every other array unchanged. */
  function InitContentIdHash(value: seq<byte>): (r: Result<seq<byte>, ArgumentError>)
    ensures r.Err? <==> |value| == ContentIdHashLength
    ensures r.Err? ==> r.error.message == "ContentIdHash must be exactly 32 bytes in length"
    ensures r.Ok? ==> r.value == value
  {
    if |value| == ContentIdHashLength then Err(ArgumentError("ContentIdHash must be exactly 32 bytes in length"))
    else Ok(value)
  }

  /** The ContentIdSalt init accessor as written: it throws exactly when the
      array has the documented length of 16 bytes. */
  function InitContentIdSalt(value: seq<byte>): (r: Result<seq<byte>, ArgumentError>)
    ensures r.Err? <==> |value| == ContentIdSaltLength
    ensures r.Err? ==> r.error.message == "ContentIdSalt must be exactly 16 bytes in length"
    ensures r.Ok? ==> r.value == value
  {
    if |value| == ContentIdSaltLength then Err(ArgumentError("ContentIdSalt must be exactly 16 bytes in length"))
    else Ok(value)
  }

  /** RequestData, with the backing fields its init accessors assigned. */
  datatype RequestData = RequestData(
    contentIdHash: seq<byte>, contentIdSalt: seq<byte>, loggedIn: bool, territoryId: u16, worldId: u32)

  /** An object initializer that sets ContentIdHash before ContentIdSalt:
      the first accessor that throws decides the exception. */
  function NewRequestData(hash: seq<byte>, salt: seq<byte>, loggedIn: bool, territoryId: u16, worldId: u32)
    : (r: Result<RequestData, ArgumentError>)
    ensures r.Ok? <==> |hash| != ContentIdHashLength && |salt| != ContentIdSaltLength
    ensures r.Ok? ==> r.value == RequestData(hash, salt, loggedIn, territoryId, worldId)
    ensures |hash| == ContentIdHashLength ==> r.Err? && r.error == InitContentIdHash(hash).error
    ensures |hash| != ContentIdHashLength && |salt| == ContentIdSaltLength ==>
      r.Err? && r.error == InitContentIdSalt(salt).error
  {
    match InitContentIdHash(hash)
    case Err(e) => Err(e)
    case Ok(h) =>
      match InitContentIdSalt(salt)
      case Err(e) => Err(e)
      case Ok(s) => Ok(RequestData(h, s, loggedIn, territoryId, worldId))
  }

  /** The required lengths are the ones refused: a 32-byte hash with a
      16-byte salt, the shapes the documentation asks for, cannot be
      built, while a 31-byte hash and a 15-byte salt are stored. */
  lemma DocumentedLengthsRefused(hash: seq<byte>, salt: seq<byte>, loggedIn: bool, t: u16, w: u32)
    requires |hash| == 32 && |salt| == 16
    ensures NewRequestData(hash, salt, loggedIn, t, w).Err?
    ensures NewRequestData(hash, salt, loggedIn, t, w).error.message == "ContentIdHash must be exactly 32 bytes in length"
    ensures NewRequestData(hash[1..], salt[1..], loggedIn, t, w).Ok?
  {
  }

  /** A MessagePack value of one of RequestBody's member types. */
  datatype BodyValue = Bin(bytes: seq<byte>) | Bool(b: bool) | UInt(n: nat)

  /** RequestBody: each member carries its MessagePack key. */
  datatype RequestBody = RequestBody(
    contentIdHash: seq<byte>, contentIdSalt: seq<byte>, loggedIn: bool, territoryId: u16, worldId: u32)

  /** The members of a body by key: key 0 the hash, 1 the salt, 2 the
      login flag, 3 the territory and 4 the world. */
  function Keyed(b: RequestBody): (m: map<nat, BodyValue>)
    ensures m.Keys == {0, 1, 2, 3, 4}
  {
    map[0 := Bin(b.contentIdHash), 1 := Bin(b.contentIdSalt), 2 := Bool(b.loggedIn),
        3 := UInt(b.territoryId), 4 := UInt(b.worldId)]
  }

  /** Reads a body back from its keyed members: the inverse of Keyed. */
  function FromKeyed(m: map<nat, BodyValue>): (r: Option<RequestBody>)
    ensures r.Some? ==> m.Keys >= {0, 1, 2, 3, 4}
  {
    if 0 in m && 1 in m && 2 in m && 3 in m && 4 in m
       && m[0].Bin? && m[1].Bin? && m[2].Bool? && m[3].UInt? && m[4].UInt?
       && m[3].n < 0x1_0000 && m[4].n < 0x1_0000_0000
    then Some(RequestBody(m[0].bytes, m[1].bytes, m[2].b, m[3].n, m[4].n))
    else None
  }

  lemma KeyedRoundTrip(b: RequestBody)
    ensures FromKeyed(Keyed(b)) == Some(b)
  {
  }

  /** The body BuildMessage serialises. */
  function ToBody(d: RequestData): (b: RequestBody)
  {
    RequestBody(d.contentIdHash, d.contentIdSalt, d.loggedIn, d.territoryId, d.worldId)
  }

  /** Every request field reaches the body under its own key, unchanged. */
  lemma BodyCarriesRequestData(d: RequestData)
    ensures Keyed(ToBody(d))[0] == Bin(d.contentIdHash)
    ensures Keyed(ToBody(d))[1] == Bin(d.contentIdSalt)
    ensures Keyed(ToBody(d))[2] == Bool(d.loggedIn)
    ensures Keyed(ToBody(d))[3] == UInt(d.territoryId)
    ensures Keyed(ToBody(d))[4] == UInt(d.worldId)
    ensures FromKeyed(Keyed(ToBody(d))) == Some(ToBody(d))
  {
    KeyedRoundTrip(ToBody(d));
  }

  /** Distinct requests give distinct bodies: the copy loses nothing. */
  lemma ToBodyInjective(d1: RequestData, d2: RequestData)
    requires Keyed(ToBody(d1)) == Keyed(ToBody(d2))
    ensures d1 == d2
  {
    KeyedRoundTrip(ToBody(d1));
    KeyedRoundTrip(ToBody(d2));
  }

  datatype HttpMethod = Get | Post

  datatype HttpRequestMessage = HttpRequestMessage(
    verb: HttpMethod, url: string, contentType: string, content: seq<byte>)

  /** BuildMessage, with MessagePackSerializer.Serialize as a parameter
      that encodes the keyed members of a body. */
  function BuildMessage(d: RequestData, serialize: map<nat, BodyValue> -> seq<byte>): (m: HttpRequestMessage)
    ensures m.verb == Post && m.url == EndpointUrl && m.contentType == MsgPackContentType
    ensures m.content == serialize(Keyed(ToBody(d)))
  {
    HttpRequestMessage(Post, EndpointUrl, MsgPackContentType, serialize(Keyed(ToBody(d))))
  }

  /** A server that decodes the body with an inverse of the serializer
      recovers every field of the request. */
  lemma BuildMessageDelivers(d: RequestData, serialize: map<nat, BodyValue> -> seq<byte>,
                             deserialize: seq<byte> -> map<nat, BodyValue>)
    requires forall m :: deserialize(serialize(m)) == m
    ensures var b := FromKeyed(deserialize(BuildMessage(d, serialize).content));
      b == Some(RequestBody(d.contentIdHash, d.contentIdSalt, d.loggedIn, d.territoryId, d.worldId))
  {
    KeyedRoundTrip(ToBody(d));
  }
}
