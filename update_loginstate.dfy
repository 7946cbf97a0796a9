/** send_loginstate_handler: a text login-state update is checked for the
    minimum lengths of its id strings and broadcast to the player events
    stream. */
module LoginStateRoute {
  import opened Wrappers
  import opened Primitives
  import opened HttpTypes
  import opened Broadcast

  const ContentIdHashLength: nat := 64
  const ContentIdSaltLength: nat := 32

  datatype UpdatePlayerLoginStateRequest = UpdatePlayerLoginStateRequest(
    contentIdHash: string, contentIdSalt: string, loggedIn: bool, territoryId: u16, worldId: u32)

  /** The update types of the player events stream, as this handler uses
      them. */
  datatype PlayerStateUpdateType = LoginStateChange(worldId: u32, territoryId: u16, loggedIn: bool)

  datatype PlayerEventStreamUpdate = PlayerEventStreamUpdate(
    contentIdHash: string, contentIdSalt: string, stateUpdateType: PlayerStateUpdateType)

  /** The update the handler broadcasts, or None when either id string is
      shorter, in UTF-8 bytes, than its minimum. */
  function LoginStateUpdate(u: UpdatePlayerLoginStateRequest): (r: Option<PlayerEventStreamUpdate>)
    ensures r.None? <==>
      Utf8Length(u.contentIdHash) < ContentIdHashLength || Utf8Length(u.contentIdSalt) < ContentIdSaltLength
    ensures r.Some? ==>
      r.value.contentIdHash == u.contentIdHash && r.value.contentIdSalt == u.contentIdSalt
      && r.value.stateUpdateType == LoginStateChange(u.worldId, u.territoryId, u.loggedIn)
  {
    if Utf8Length(u.contentIdHash) < ContentIdHashLength || Utf8Length(u.contentIdSalt) < ContentIdSaltLength then None
    else Some(PlayerEventStreamUpdate(u.contentIdHash, u.contentIdSalt,
                                      LoginStateChange(u.worldId, u.territoryId, u.loggedIn)))
  }

  /** The status: 400 for short ids, otherwise 202 whether or not anyone
      is listening. */
  function LoginStateStatus(u: UpdatePlayerLoginStateRequest): (status: nat)
    ensures status == BadRequest400 || status == Accepted202
    ensures status == Accepted202 <==> LoginStateUpdate(u).Some?
  {
    if LoginStateUpdate(u).Some? then Accepted202 else BadRequest400
  }

  /** send_loginstate_handler: validation comes first and a rejected update
      sends nothing; an accepted one is sent exactly once. */
  method SendLoginStateHandler(channel: Channel<PlayerEventStreamUpdate>, u: UpdatePlayerLoginStateRequest)
    returns (status: nat)
    modifies channel
    ensures status == LoginStateStatus(u)
    ensures channel.receiverCount == old(channel.receiverCount)
    ensures channel.delivered == old(channel.delivered) +
      (if LoginStateUpdate(u).Some? && old(channel.receiverCount) > 0 then [LoginStateUpdate(u).value] else [])
  {
    if Utf8Length(u.contentIdHash) < ContentIdHashLength || Utf8Length(u.contentIdSalt) < ContentIdSaltLength {
      return BadRequest400;
    }
    var _ := channel.Send(PlayerEventStreamUpdate(u.contentIdHash, u.contentIdSalt,
                                                  LoginStateChange(u.worldId, u.territoryId, u.loggedIn)));
    status := Accepted202;
  }

  lemma {:induction false} Utf8LengthRepeated(c: char, n: nat)
    ensures Utf8Length(seq(n, i => c)) == n * Utf8Width(c)
  {
    if n > 0 {
      assert seq(n, i => c)[1..] == seq(n - 1, i => c);
      Utf8LengthRepeated(c, n - 1);
    }
  }

  /** The minimums count bytes, not characters: 32 two-byte characters pass
      the 64-byte hash check, 63 ASCII characters do not. */
  lemma MinimumsCountBytes(salt: string, l: bool, t: u16, w: u32)
    requires |salt| == 32 && IsAscii(salt)
    ensures LoginStateUpdate(UpdatePlayerLoginStateRequest(seq(32, i => 'é'), salt, l, t, w)).Some?
    ensures LoginStateUpdate(UpdatePlayerLoginStateRequest(seq(63, i => 'a'), salt, l, t, w)).None?
  {
    Utf8LengthRepeated('é', 32);
    Utf8LengthRepeated('a', 63);
    AsciiUtf8Length(salt);
  }
}
