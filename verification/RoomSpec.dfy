/** The room state machine on values (src/room.rs). Every operation is a function from the old room
    and its arguments to the new room and the effects the caller must apply. The class RoomState is
    proved against these functions; every law about rooms is stated on them. */
module RoomSpec {
  import opened Protocol
  import opened HostTransfer

  datatype ConnectedPeer = ConnectedPeer(profile: Profile, connId: ConnId)

  datatype PeerReservation = PeerReservation(verifier: Verifier, absentSince: Option<Instant>, releasePending: bool)

  datatype Room = Room(
    sessionId: SessionId,
    hostPeerId: PeerId,
    hostVerifier: Verifier,
    peers: map<PeerId, ConnectedPeer>,
    reservations: map<PeerId, PeerReservation>,
    ownerIpKey: IpKey,
    createdAt: WallTime,
    lastActivityAt: WallTime,
    closing: bool,
    nextConnId: ConnId
  )

  /** One message for a set of connections. The relay pushes one copy per recipient in hash-map
      order, so only the order between waves is observable. An outbound channel is named by the
      connection id of the room entry it belongs to. */
  datatype Wave = Wave(to: set<ConnId>, msg: ServerMessage)

  datatype Effects = Effects(
    reply: Option<ServerMessage>,
    broadcast: seq<Wave>,
    evict: set<ConnId>,
    dirty: bool,
    assignedConnId: Option<ConnId>
  )

  datatype Outcome = Outcome(room: Room, effects: Effects)

  const NO_EFFECTS: Effects := Effects(None, [], {}, false, None)

  function Refusal(code: ErrorCode): Effects {
    NO_EFFECTS.(reply := Some(Error(code)))
  }

  // ---------------------------------------------------------------- reading a room

  predicate Occupies(r: Room, peerId: PeerId, connId: ConnId) {
    peerId in r.peers && r.peers[peerId].connId == connId
  }

  predicate Pending(r: Room, peerId: PeerId) {
    peerId in r.reservations && r.reservations[peerId].releasePending
  }

  function RosterOf(r: Room): Roster {
    map p | p in r.peers :: r.peers[p].profile
  }

  function Transferable(r: Room): set<PeerId> {
    set p | p in r.reservations && !r.reservations[p].releasePending
  }

  function Targets(r: Room): set<PeerId> {
    ValidTargets(r.hostPeerId, RosterOf(r), Transferable(r))
  }

  function Connections(r: Room, ids: set<PeerId>): set<ConnId> {
    set p | p in ids && p in r.peers :: r.peers[p].connId
  }

  function Others(r: Room, exclude: PeerId): set<ConnId> {
    Connections(r, r.peers.Keys - {exclude})
  }

  function Everyone(r: Room): set<ConnId> {
    Connections(r, r.peers.Keys)
  }

  predicate IsReclaimable(r: Room) {
    !r.closing && r.peers == map[]
  }

  /** Whether a `create` for this session is the host coming back. */
  predicate IsHostReturning(r: Room, hostPeerId: PeerId, verifier: Verifier) {
    !r.closing && r.hostPeerId == hostPeerId && r.hostVerifier == verifier
  }

  /** The waves appended by append_host_transfer_eligibility. */
  function EligibilityNotice(r: Room): seq<Wave> {
    var capable := CapablePeers(RosterOf(r));
    if capable == {} then []
    else [Wave(Connections(r, capable), HostTransferEligibility(r.sessionId, r.hostPeerId, Targets(r)))]
  }

  // ---------------------------------------------------------------- pruning

  predicate Retained(r: Room, peerId: PeerId, now: Instant)
    requires peerId in r.reservations
  {
    var res := r.reservations[peerId];
    || res.releasePending
    || peerId in r.peers
    || res.absentSince.None?
    || Since(now, res.absentSince.value) < PEER_RESERVATION_GRACE
  }

  function Prune(r: Room, now: Instant): Room {
    r.(reservations := map p | p in r.reservations && Retained(r, p, now) :: r.reservations[p])
  }

  // ---------------------------------------------------------------- creation and admission

  function NewRoom(sessionId: SessionId, hostPeerId: PeerId, verifier: Verifier, token: Token, ownerIpKey: IpKey,
                   profile: Profile, wall: WallTime): Outcome
  {
    var r := Room(sessionId, hostPeerId, verifier, map[hostPeerId := ConnectedPeer(profile, 1)], map[],
                  ownerIpKey, wall, wall, false, 2);
    Outcome(r, Effects(Some(Created(sessionId, hostPeerId, token, None)), EligibilityNotice(r), {}, true, Some(1)))
  }

  function Admit(r: Room, peerId: PeerId, profile: Profile): Room {
    r.(peers := r.peers[peerId := ConnectedPeer(profile, r.nextConnId)], nextConnId := r.nextConnId + 1)
  }

  function Evicted(r: Room, peerId: PeerId): set<ConnId> {
    Connections(r, {peerId})
  }

  /** The host coming back: only called once IsHostReturning holds. */
  function ReconnectHost(r: Room, profile: Profile, token: Token): Outcome {
    var host := r.hostPeerId;
    var r' := Admit(r, host, profile);
    var announce := if host in r.peers then [] else [Wave(Others(r', host), PeerJoined(host))];
    Outcome(r', Effects(Some(Created(r.sessionId, host, token, Some(r'.peers.Keys - {host}))),
                        announce + EligibilityNotice(r'), Evicted(r, host), true, Some(r.nextConnId)))
  }

  /** Whether a pruned room lets `token` speak for `peerId`. */
  predicate Authorized(r: Room, peerId: PeerId, token: Token, resumeOnly: bool) {
    if peerId == r.hostPeerId then Presents(token, r.hostVerifier)
    else if peerId in r.reservations then
      !r.reservations[peerId].releasePending && Presents(token, r.reservations[peerId].verifier)
    else if peerId in r.peers then false
    else !resumeOnly && token.verifier.Some?
  }

  predicate IsNewIdentity(r: Room, peerId: PeerId) {
    peerId != r.hostPeerId && peerId !in r.reservations
  }

  function Reserve(r: Room, peerId: PeerId, verifier: Verifier): Room {
    if peerId == r.hostPeerId then r
    else r.(reservations := r.reservations[peerId := PeerReservation(verifier, None, false)])
  }

  /** Admission of an authorized peer into an already pruned room. */
  function Seat(r: Room, peerId: PeerId, token: Token, profile: Profile, resumeOnly: bool, wall: WallTime): Outcome
    requires token.verifier.Some?
  {
    var r' := Reserve(Admit(r, peerId, profile), peerId, token.verifier.value).(lastActivityAt := wall);
    var present := Some(r'.peers.Keys - {peerId});
    var reply := if resumeOnly then Resumed(r.sessionId, r.hostPeerId, token, present)
                 else Joined(r.sessionId, r.hostPeerId, token, present);
    Outcome(r', Effects(Some(reply), [Wave(Others(r', peerId), PeerJoined(peerId))] + EligibilityNotice(r'),
                        Evicted(r, peerId), true, Some(r.nextConnId)))
  }

  function JoinOrResume(r0: Room, peerId: PeerId, token: Token, profile: Profile, resumeOnly: bool,
                        now: Instant, wall: WallTime): Outcome
  {
    if r0.closing then Outcome(r0, Refusal(RoomNotFound))
    else
      var r := Prune(r0, now);
      if !Authorized(r, peerId, token, resumeOnly) then Outcome(r, Refusal(PeerIdUnavailable))
      else if peerId !in r.peers && IsNewIdentity(r, peerId) && |r.reservations| >= MAX_ROOM_SIZE - 1 then
        Outcome(r, Refusal(RoomFull))
      else Seat(r, peerId, token, profile, resumeOnly, wall)
  }

  // ---------------------------------------------------------------- leave

  predicate MayLeave(r: Room, peerId: PeerId, connId: ConnId, token: Token, version: nat) {
    && !r.closing
    && Occupies(r, peerId, connId)
    && peerId != r.hostPeerId
    && version == RELAY_PROTOCOL_VERSION
    && peerId in r.reservations
    && !r.reservations[peerId].releasePending
    && Presents(token, r.reservations[peerId].verifier)
  }

  function SetPending(r: Room, peerId: PeerId, pending: bool): Room
    requires peerId in r.reservations
  {
    r.(reservations := r.reservations[peerId := r.reservations[peerId].(releasePending := pending)])
  }

  /** Phase one of `leave`; a refusal leaves the room as it was. */
  function BeginLeave(r: Room, peerId: PeerId, connId: ConnId, token: Token, version: nat): Outcome {
    if MayLeave(r, peerId, connId, token, version) then Outcome(SetPending(r, peerId, true), NO_EFFECTS)
    else Outcome(r, Refusal(PeerIdUnavailable))
  }

  predicate StillLeaving(r: Room, peerId: PeerId, connId: ConnId) {
    Occupies(r, peerId, connId) && Pending(r, peerId)
  }

  /** Phase two of `leave`: commit, roll back, or nothing when the room has moved on. */
  function FinishLeave(r: Room, peerId: PeerId, connId: ConnId, persisted: bool, wall: WallTime): Outcome {
    if !StillLeaving(r, peerId, connId) then Outcome(r, NO_EFFECTS)
    else if !persisted then Outcome(SetPending(r, peerId, false), Refusal(InvalidMessage))
    else
      var r' := r.(peers := r.peers - {peerId}, reservations := r.reservations - {peerId}, lastActivityAt := wall);
      Outcome(r', Effects(Some(Left(r.sessionId, peerId)),
                          [Wave(Others(r', peerId), PeerLeft(peerId))] + EligibilityNotice(r'), {}, true, None))
  }

  // ---------------------------------------------------------------- endSession

  predicate MayEnd(r: Room, peerId: PeerId, connId: ConnId, token: Token, version: nat) {
    && !r.closing
    && peerId == r.hostPeerId
    && Occupies(r, peerId, connId)
    && version == RELAY_PROTOCOL_VERSION
    && Presents(token, r.hostVerifier)
  }

  function BeginEndSession(r: Room, peerId: PeerId, connId: ConnId, token: Token, version: nat): Outcome {
    if MayEnd(r, peerId, connId, token, version) then Outcome(r.(closing := true), NO_EFFECTS)
    else Outcome(r, Refusal(PeerIdUnavailable))
  }

  function FinishEndSession(r: Room, guests: set<ConnId>, persisted: bool): Outcome {
    var r' := r.(peers := map[], reservations := map[]);
    var ended := Ended(r.sessionId);
    Outcome(r', if persisted then Effects(Some(ended), [Wave(guests, ended)], Everyone(r), false, None)
                else Refusal(InvalidMessage).(evict := Everyone(r)))
  }

  // ---------------------------------------------------------------- host transfer and relaying

  /** Why a transfer request is refused, in the order the relay checks. */
  function TransferRefusal(r: Room, peerId: PeerId, connId: ConnId, version: nat, target: PeerId): Option<ErrorCode> {
    if r.closing || !Occupies(r, peerId, connId) || version != RELAY_PROTOCOL_VERSION then Some(PeerIdUnavailable)
    else if peerId != r.hostPeerId then Some(NotHost)
    else if !ValidPeerId(target) || target == peerId || target !in r.peers then Some(PeerNotFound)
    else if target !in Transferable(r) then Some(PeerNotFound)
    else if target !in Targets(r) then Some(HostTransferUnavailable)
    else None
  }

  function SwapHost(r: Room, target: PeerId): Room
    requires target in r.reservations
  {
    r.(reservations := (r.reservations - {target})[r.hostPeerId := PeerReservation(r.hostVerifier, None, false)],
       hostVerifier := r.reservations[target].verifier,
       hostPeerId := target)
  }

  function TransferHost(r: Room, peerId: PeerId, connId: ConnId, version: nat, target: PeerId): Outcome {
    var refusal := TransferRefusal(r, peerId, connId, version, target);
    if refusal.Some? then Outcome(r, Refusal(refusal.value))
    else
      var r' := SwapHost(r, target);
      Outcome(r', NO_EFFECTS.(broadcast := [Wave(Everyone(r'), HostChanged(r.sessionId, target, r.hostPeerId))]
                                           + EligibilityNotice(r'),
                              dirty := true))
  }

  function Broadcast(r: Room, sender: PeerId, connId: ConnId, payload: string, wall: WallTime): Outcome {
    if !Occupies(r, sender, connId) || r.closing then Outcome(r, NO_EFFECTS)
    else Outcome(r.(lastActivityAt := wall),
                 NO_EFFECTS.(broadcast := [Wave(Others(r, sender), Message(sender, payload))]))
  }

  function SendTo(r: Room, sender: PeerId, connId: ConnId, target: PeerId, payload: string, wall: WallTime): Outcome {
    if !Occupies(r, sender, connId) || r.closing then Outcome(r, NO_EFFECTS)
    else if target !in r.peers then Outcome(r, Refusal(NotInRoom))
    else Outcome(r.(lastActivityAt := wall),
                 NO_EFFECTS.(broadcast := [Wave({r.peers[target].connId}, Message(sender, payload))]))
  }

  // ---------------------------------------------------------------- disconnect and sweep

  function MarkAbsent(r: Room, peerId: PeerId, now: Instant): Room {
    if peerId == r.hostPeerId || peerId !in r.reservations then r
    else r.(reservations := r.reservations[peerId := r.reservations[peerId].(absentSince := Some(now))])
  }

  function Disconnect(r: Room, peerId: PeerId, connId: ConnId, now: Instant, wall: WallTime): Outcome {
    if r.closing || !Occupies(r, peerId, connId) then Outcome(r, NO_EFFECTS)
    else
      var r' := MarkAbsent(r.(peers := r.peers - {peerId}), peerId, now).(lastActivityAt := wall);
      Outcome(r', NO_EFFECTS.(broadcast := [Wave(Others(r', peerId), PeerLeft(peerId))] + EligibilityNotice(r'),
                              dirty := true))
  }

  predicate IsExpired(r: Room, wall: WallTime) {
    Since(wall, r.createdAt) > ROOM_MAX_AGE
  }

  /** Whether the sweep removes the room. */
  predicate IsSwept(r: Room, wall: WallTime) {
    (r.peers == map[] && Since(wall, r.lastActivityAt) > EMPTY_ROOM_MAX_AGE) || IsExpired(r, wall)
  }

  /** The sweep's decision after pruning. */
  function SweepClose(r: Room, wall: WallTime): Outcome {
    if !IsSwept(r, wall) then Outcome(r, NO_EFFECTS)
    else if IsExpired(r, wall)
        then Outcome(r.(closing := true, peers := map[]), NO_EFFECTS.(evict := Everyone(r), dirty := true))
    else Outcome(r.(closing := true), NO_EFFECTS.(dirty := true))
  }

  /** `create` taking over an abandoned session closes the old room. */
  function Reclaim(r: Room): Outcome {
    if IsReclaimable(r) then Outcome(r.(closing := true), NO_EFFECTS) else Outcome(r, NO_EFFECTS)
  }

  // ---------------------------------------------------------------- runs

  datatype RoomOp =
    | OpReturn(hostPeerId: PeerId, token: Token, profile: Profile)
    | OpJoin(peerId: PeerId, token: Token, profile: Profile, resumeOnly: bool, now: Instant, wall: WallTime)
    | OpBeginLeave(peerId: PeerId, connId: ConnId, token: Token, version: nat)
    | OpFinishLeave(peerId: PeerId, connId: ConnId, persisted: bool, wall: WallTime)
    | OpBeginEnd(peerId: PeerId, connId: ConnId, token: Token, version: nat)
    | OpFinishEnd(guests: set<ConnId>, persisted: bool)
    | OpTransfer(peerId: PeerId, connId: ConnId, version: nat, target: PeerId)
    | OpBroadcast(peerId: PeerId, connId: ConnId, payload: string, wall: WallTime)
    | OpSendTo(peerId: PeerId, connId: ConnId, target: PeerId, payload: string, wall: WallTime)
    | OpDisconnect(peerId: PeerId, connId: ConnId, now: Instant, wall: WallTime)
    | OpPrune(now: Instant)
    | OpSweepClose(wall: WallTime)
    | OpReclaim

  /** Guards the relay's other layers put in front of the room: the connection validates peer ids
      before a join, `create` checks that the host is returning, and the second phase of
      `endSession` only follows an accepted first phase. */
  predicate Guarded(r: Room, op: RoomOp) {
    match op
    case OpReturn(hostPeerId, token, _) => token.verifier.Some? && IsHostReturning(r, hostPeerId, token.verifier.value)
    case OpJoin(peerId, _, _, _, _, _) => ValidPeerId(peerId)
    case OpFinishEnd(_, _) => r.closing
    case _ => true
  }

  function Step(r: Room, op: RoomOp): Outcome {
    if !Guarded(r, op) then Outcome(r, NO_EFFECTS)
    else
      match op
      case OpReturn(_, token, profile) => ReconnectHost(r, profile, token)
      case OpJoin(p, token, profile, resumeOnly, now, wall) => JoinOrResume(r, p, token, profile, resumeOnly, now, wall)
      case OpBeginLeave(p, c, token, version) => BeginLeave(r, p, c, token, version)
      case OpFinishLeave(p, c, persisted, wall) => FinishLeave(r, p, c, persisted, wall)
      case OpBeginEnd(p, c, token, version) => BeginEndSession(r, p, c, token, version)
      case OpFinishEnd(guests, persisted) => FinishEndSession(r, guests, persisted)
      case OpTransfer(p, c, version, target) => TransferHost(r, p, c, version, target)
      case OpBroadcast(p, c, payload, wall) => Broadcast(r, p, c, payload, wall)
      case OpSendTo(p, c, target, payload, wall) => SendTo(r, p, c, target, payload, wall)
      case OpDisconnect(p, c, now, wall) => Disconnect(r, p, c, now, wall)
      case OpPrune(now) => Outcome(Prune(r, now), NO_EFFECTS)
      case OpSweepClose(wall) => SweepClose(r, wall)
      case OpReclaim => Reclaim(r)
  }

  function Run(r: Room, ops: seq<RoomOp>): Room
    decreases |ops|
  {
    if ops == [] then r else Run(Step(r, ops[0]).room, ops[1..])
  }
}
