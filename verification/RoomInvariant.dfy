/** What every operation keeps true of a room, over every run of operations. */
module RoomInvariant {
  import opened Protocol
  import opened HostTransfer
  import opened RoomSpec

  ghost predicate ValidIds(r: Room) {
    && ValidPeerId(r.hostPeerId)
    && (forall p :: p in r.peers ==> ValidPeerId(p))
    && (forall p :: p in r.reservations ==> ValidPeerId(p))
  }

  ghost predicate SeatedAreReserved(r: Room) {
    && r.hostPeerId !in r.reservations
    && (forall p :: p in r.peers ==> p == r.hostPeerId || p in r.reservations)
    && (forall p :: p in r.peers && p in r.reservations ==> r.reservations[p].absentSince == None)
  }

  ghost predicate DistinctConnections(r: Room) {
    && (forall p :: p in r.peers ==> r.peers[p].connId < r.nextConnId)
    && (forall p, q :: p in r.peers && q in r.peers && p != q ==> r.peers[p].connId != r.peers[q].connId)
  }

  ghost predicate RoomInv(r: Room) {
    && ValidIds(r)
    && SeatedAreReserved(r)
    && DistinctConnections(r)
    && |r.reservations| <= MAX_ROOM_SIZE - 1
  }

  lemma SubMapSize<V>(small: map<PeerId, V>, big: map<PeerId, V>)
    requires small.Keys <= big.Keys
    ensures |small| <= |big|
  {
    SubSetSize(small.Keys, big.Keys);
  }

  lemma SubSetSize<T>(small: set<T>, big: set<T>)
    requires small <= big
    ensures |small| <= |big|
  {
    assert big == small + (big - small);
  }

  /** A room never seats more than eight connections. */
  lemma RoomSizeBound(r: Room)
    requires RoomInv(r)
    ensures |r.peers| <= MAX_ROOM_SIZE
  {
    assert r.peers.Keys <= {r.hostPeerId} + r.reservations.Keys;
    SubSetSize(r.peers.Keys, {r.hostPeerId} + r.reservations.Keys);
  }

  lemma NewRoomHolds(sessionId: SessionId, hostPeerId: PeerId, verifier: Verifier, token: Token, ownerIpKey: IpKey,
                     profile: Profile, wall: WallTime)
    requires ValidPeerId(hostPeerId)
    ensures RoomInv(NewRoom(sessionId, hostPeerId, verifier, token, ownerIpKey, profile, wall).room)
  {
  }

  lemma PruneKeeps(r: Room, now: Instant)
    requires RoomInv(r)
    ensures RoomInv(Prune(r, now))
  {
    SubMapSize(Prune(r, now).reservations, r.reservations);
  }

  lemma FreshConnection(r: Room, r': Room, p: PeerId, profile: Profile)
    requires DistinctConnections(r)
    requires r'.peers == r.peers[p := ConnectedPeer(profile, r.nextConnId)] && r'.nextConnId == r.nextConnId + 1
    ensures DistinctConnections(r')
  {
  }

  /** A connection takes the entry of `p`, whose reservation, unless `p` is the host, is present. */
  lemma EntryKeeps(r: Room, r': Room, p: PeerId, profile: Profile)
    requires RoomInv(r) && ValidPeerId(p) && r'.hostPeerId == r.hostPeerId
    requires r'.peers == r.peers[p := ConnectedPeer(profile, r.nextConnId)] && r'.nextConnId == r.nextConnId + 1
    requires r'.reservations.Keys == r.reservations.Keys + (if p == r.hostPeerId then {} else {p})
    requires forall q :: q in r.reservations && q != p ==> r'.reservations[q] == r.reservations[q]
    requires p in r'.reservations ==> r'.reservations[p].absentSince == None
    requires |r'.reservations| <= MAX_ROOM_SIZE - 1
    ensures RoomInv(r')
  {
    assert DistinctConnections(r') by {
      FreshConnection(r, r', p, profile);
    }
  }

  lemma SeatKeeps(r: Room, peerId: PeerId, token: Token, profile: Profile, resumeOnly: bool, wall: WallTime)
    requires RoomInv(r) && ValidPeerId(peerId) && token.verifier.Some?
    requires IsNewIdentity(r, peerId) ==> |r.reservations| < MAX_ROOM_SIZE - 1
    ensures RoomInv(Seat(r, peerId, token, profile, resumeOnly, wall).room)
  {
    var r' := Seat(r, peerId, token, profile, resumeOnly, wall).room;
    if peerId == r.hostPeerId {
      EntryKeeps(r, r', peerId, profile);
    } else {
      assert r'.reservations.Keys == r.reservations.Keys + {peerId};
      EntryKeeps(r, r', peerId, profile);
    }
  }

  lemma JoinKeeps(r: Room, peerId: PeerId, token: Token, profile: Profile, resumeOnly: bool, now: Instant,
                  wall: WallTime)
    requires RoomInv(r) && ValidPeerId(peerId)
    ensures RoomInv(JoinOrResume(r, peerId, token, profile, resumeOnly, now, wall).room)
  {
    PruneKeeps(r, now);
    var pruned := Prune(r, now);
    if Authorized(pruned, peerId, token, resumeOnly)
        && !(IsNewIdentity(pruned, peerId) && |pruned.reservations| >= MAX_ROOM_SIZE - 1) {
      SeatKeeps(pruned, peerId, token, profile, resumeOnly, wall);
    }
  }

  lemma SwapHostKeeps(r: Room, target: PeerId)
    requires RoomInv(r) && target in r.reservations && target in r.peers
    ensures RoomInv(SwapHost(r, target))
  {
    var r' := SwapHost(r, target);
    assert r'.reservations.Keys == r.reservations.Keys - {target} + {r.hostPeerId};
  }

  lemma LeaveKeeps(r: Room, peerId: PeerId, connId: ConnId, token: Token, version: nat, persisted: bool, wall: WallTime)
    requires RoomInv(r)
    ensures RoomInv(BeginLeave(r, peerId, connId, token, version).room)
    ensures RoomInv(FinishLeave(r, peerId, connId, persisted, wall).room)
  {
    var begun := BeginLeave(r, peerId, connId, token, version).room;
    assert begun.reservations.Keys == r.reservations.Keys;
    var finished := FinishLeave(r, peerId, connId, persisted, wall).room;
    SubMapSize(finished.reservations, r.reservations);
  }

  lemma DisconnectKeeps(r: Room, peerId: PeerId, connId: ConnId, now: Instant, wall: WallTime)
    requires RoomInv(r)
    ensures RoomInv(Disconnect(r, peerId, connId, now, wall).room)
  {
    assert Disconnect(r, peerId, connId, now, wall).room.reservations.Keys == r.reservations.Keys;
  }

  lemma TransferKeeps(r: Room, peerId: PeerId, connId: ConnId, version: nat, target: PeerId)
    requires RoomInv(r)
    ensures RoomInv(TransferHost(r, peerId, connId, version, target).room)
  {
    if TransferRefusal(r, peerId, connId, version, target).None? {
      SwapHostKeeps(r, target);
    }
  }

  lemma ReturnKeeps(r: Room, profile: Profile, token: Token)
    requires RoomInv(r)
    ensures RoomInv(ReconnectHost(r, profile, token).room)
  {
  }

  lemma ShutKeeps(r: Room, guests: set<ConnId>, persisted: bool, wall: WallTime)
    requires RoomInv(r)
    ensures RoomInv(FinishEndSession(r, guests, persisted).room)
    ensures RoomInv(SweepClose(r, wall).room)
  {
  }

  lemma StepKeeps(r: Room, op: RoomOp)
    requires RoomInv(r)
    ensures RoomInv(Step(r, op).room)
  {
    if Guarded(r, op) {
      match op
      case OpReturn(_, token, profile) => ReturnKeeps(r, profile, token);
      case OpJoin(p, token, profile, resumeOnly, now, wall) => JoinKeeps(r, p, token, profile, resumeOnly, now, wall);
      case OpBeginLeave(p, c, token, version) => LeaveKeeps(r, p, c, token, version, true, 0);
      case OpFinishLeave(p, c, persisted, wall) => LeaveKeeps(r, p, c, Token("", None), 0, persisted, wall);
      case OpFinishEnd(guests, persisted) => ShutKeeps(r, guests, persisted, 0);
      case OpTransfer(p, c, version, target) => TransferKeeps(r, p, c, version, target);
      case OpDisconnect(p, c, now, wall) => DisconnectKeeps(r, p, c, now, wall);
      case OpPrune(now) => PruneKeeps(r, now);
      case OpSweepClose(wall) => ShutKeeps(r, {}, true, wall);
      case _ =>
    }
  }

  /** The invariant, and with it the seat limit, holds after any run. */
  lemma {:induction false} RunKeeps(r: Room, ops: seq<RoomOp>)
    requires RoomInv(r)
    ensures RoomInv(Run(r, ops)) && |Run(r, ops).peers| <= MAX_ROOM_SIZE
    decreases |ops|
  {
    if ops == [] {
      RoomSizeBound(r);
    } else {
      StepKeeps(r, ops[0]);
      RunKeeps(Step(r, ops[0]).room, ops[1..]);
    }
  }

  // ---------------------------------------------------------------- stale connections

  /** The connection id an operation presents, if it presents one. */
  function Presented(op: RoomOp): Option<(PeerId, ConnId)> {
    match op
    case OpBeginLeave(p, c, _, _) => Some((p, c))
    case OpFinishLeave(p, c, _, _) => Some((p, c))
    case OpBeginEnd(p, c, _, _) => Some((p, c))
    case OpTransfer(p, c, _, _) => Some((p, c))
    case OpBroadcast(p, c, _, _) => Some((p, c))
    case OpSendTo(p, c, _, _, _) => Some((p, c))
    case OpDisconnect(p, c, _, _) => Some((p, c))
    case _ => None
  }

  /** A connection id is retired once it has been handed out and no entry carries it. */
  ghost predicate Retired(r: Room, c: ConnId) {
    c < r.nextConnId && forall p :: p in r.peers ==> r.peers[p].connId != c
  }

  /** Presenting a connection id that is not the occupant's changes nothing and reaches nobody else. */
  lemma StaleIsInert(r: Room, op: RoomOp)
    requires Presented(op).Some?
    requires !Occupies(r, Presented(op).value.0, Presented(op).value.1)
    ensures Step(r, op).room == r
    ensures Step(r, op).effects.broadcast == [] && Step(r, op).effects.evict == {} && !Step(r, op).effects.dirty
  {
  }

  /** Entries only appear or change by an admission. */
  lemma StepKeepsPeer(r: Room, op: RoomOp, q: PeerId)
    requires !op.OpReturn? && !op.OpJoin? && q in Step(r, op).room.peers
    ensures q in r.peers && Step(r, op).room.peers[q] == r.peers[q]
  {
  }

  lemma RetiredStays(r: Room, op: RoomOp, c: ConnId)
    requires Retired(r, c)
    ensures Retired(Step(r, op).room, c)
  {
    if op.OpReturn? {
    } else if op.OpJoin? {
    } else {
      forall p | p in Step(r, op).room.peers ensures Step(r, op).room.peers[p].connId != c {
        StepKeepsPeer(r, op, p);
      }
    }
  }

  /** A superseded connection id never becomes current again. */
  lemma {:induction false} RetiredForever(r: Room, ops: seq<RoomOp>, c: ConnId)
    requires Retired(r, c)
    ensures Retired(Run(r, ops), c)
    decreases |ops|
  {
    if ops != [] {
      RetiredStays(r, ops[0], c);
      RetiredForever(Step(r, ops[0]).room, ops[1..], c);
    }
  }

  // ---------------------------------------------------------------- closing is final for a room

  lemma ClosingStays(r: Room, op: RoomOp)
    requires r.closing
    ensures Step(r, op).room.closing
    ensures Step(r, op).room.nextConnId == r.nextConnId && Step(r, op).effects.assignedConnId == None
  {
  }

  /** A closing room stays closing and never admits another connection. */
  lemma {:induction false} ClosingForever(r: Room, ops: seq<RoomOp>)
    requires r.closing
    ensures Run(r, ops).closing && Run(r, ops).nextConnId == r.nextConnId
    decreases |ops|
  {
    if ops != [] {
      ClosingStays(r, ops[0]);
      ClosingForever(Step(r, ops[0]).room, ops[1..]);
    }
  }

  // ---------------------------------------------------------------- a room's session

  lemma StepKeepsSession(r: Room, op: RoomOp)
    ensures Step(r, op).room.sessionId == r.sessionId
  {
  }

  lemma {:induction false} RunKeepsSession(r: Room, ops: seq<RoomOp>)
    ensures Run(r, ops).sessionId == r.sessionId
    decreases |ops|
  {
    if ops != [] {
      StepKeepsSession(r, ops[0]);
      RunKeepsSession(Step(r, ops[0]).room, ops[1..]);
    }
  }
}
