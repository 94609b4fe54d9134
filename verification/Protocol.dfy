/** Wire-level vocabulary of the relay: identifiers, credentials, times, client-facing messages
    and the limits shared by every other module. */
module Protocol {

  datatype Option<+T> = None | Some(value: T)

  type PeerId = string
  type SessionId = string
  type IpKey = string
  type ConnId = nat

  /** Both clocks count nanoseconds: an Instant from the earliest representable one, a WallTime
      from the Unix epoch (negative before it). */
  type Instant = nat
  type WallTime = int

  const NANOS_PER_MILLI: nat := 1_000_000
  const NANOS_PER_SECOND: nat := 1_000_000_000
  const PEER_RESERVATION_GRACE: nat := 5 * 60 * NANOS_PER_SECOND
  const EMPTY_ROOM_MAX_AGE: nat := 5 * 60 * NANOS_PER_SECOND
  const ROOM_MAX_AGE: nat := 24 * 60 * 60 * NANOS_PER_SECOND

  const RELAY_PROTOCOL_VERSION: nat := 2
  const MAX_ROOM_SIZE: nat := 8
  const MAX_SESSION_ID_LENGTH: nat := 64
  const MAX_PEER_ID_LENGTH: nat := 128

  /** The stored digest of a reconnect token. */
  datatype Verifier = Verifier(digest: nat)

  /** A presented reconnect token, with the verifier its bytes hash to when it is well formed. */
  datatype Token = Token(text: string, verifier: Option<Verifier>)

  predicate Presents(token: Token, verifier: Verifier) {
    token.verifier == Some(verifier)
  }

  datatype ErrorCode =
    | RateLimited
    | InvalidMessage
    | RoomExists
    | RoomNotFound
    | RoomFull
    | NotInRoom
    | AlreadyInRoom
    | PeerIdUnavailable
    | ProtocolMismatch
    | NotHost
    | PeerNotFound
    | HostTransferUnavailable

  /** Lists the relay fills from a hash map have no promised order and are sets here. */
  datatype ServerMessage =
    | Created(sessionId: SessionId, hostPeerId: PeerId, token: Token, peers: Option<set<PeerId>>)
    | Joined(sessionId: SessionId, hostPeerId: PeerId, token: Token, peers: Option<set<PeerId>>)
    | Resumed(sessionId: SessionId, hostPeerId: PeerId, token: Token, peers: Option<set<PeerId>>)
    | PeerJoined(peerId: PeerId)
    | PeerLeft(peerId: PeerId)
    | Message(from: PeerId, payload: string)
    | Left(sessionId: SessionId, peerId: PeerId)
    | Ended(sessionId: SessionId)
    | HostChanged(sessionId: SessionId, hostPeerId: PeerId, from: PeerId)
    | HostTransferEligibility(sessionId: SessionId, hostPeerId: PeerId, targets: set<PeerId>)
    | Error(code: ErrorCode)

  predicate IdChar(c: char) {
    'a' <= c <= 'z' || 'A' <= c <= 'Z' || '0' <= c <= '9' || c == '_' || c == '-'
  }

  predicate ValidId(id: string, maxLength: nat) {
    0 < |id| <= maxLength && forall i :: 0 <= i < |id| ==> IdChar(id[i])
  }

  predicate ValidPeerId(id: PeerId) {
    ValidId(id, MAX_PEER_ID_LENGTH)
  }

  predicate ValidSessionId(id: SessionId) {
    ValidId(id, MAX_SESSION_ID_LENGTH)
  }

  predicate SupportedProtocolVersion(version: nat) {
    version == RELAY_PROTOCOL_VERSION
  }

  /** Difference of two times, zero when the clock ran backwards. */
  function Since(now: int, earlier: int): nat {
    if now < earlier then 0 else now - earlier
  }
}
