/** The few ways a room operation can change who sits where: what each operation does to the seats
    (peer id to connection id) and to pending releases, with everything else of the room forgotten.
    The proofs about the whole relay only use these shapes. */
module Seats {
  import opened Protocol
  import opened HostTransfer
  import opened RoomSpec
  import opened RoomInvariant
  import opened Credentials

  function SeatOf(r: Room, p: PeerId): Option<ConnId> {
    if p in r.peers then Some(r.peers[p].connId) else None
  }

  /** Session, owner and identities: what no operation changes, and who may newly become an identity. */
  ghost predicate SameRoom(r: Room, r': Room, admitted: set<PeerId>) {
    && r'.sessionId == r.sessionId
    && r'.ownerIpKey == r.ownerIpKey
    && forall p :: IsIdentity(r', p) ==> IsIdentity(r, p) || p in admitted
  }

  ghost predicate Quiet(r: Room, r': Room) {
    && SameRoom(r, r', {})
    && r'.nextConnId == r.nextConnId && r'.closing == r.closing
    && (forall p :: SeatOf(r', p) == SeatOf(r, p))
    && (forall p :: Pending(r', p) <==> Pending(r, p))
  }

  ghost predicate Admits(r: Room, r': Room, p: PeerId) {
    && SameRoom(r, r', {p})
    && !r.closing && !r'.closing && r'.nextConnId == r.nextConnId + 1 && !Pending(r, p)
    && (forall q :: SeatOf(r', q) == if q == p then Some(r.nextConnId) else SeatOf(r, q))
    && (forall q :: Pending(r', q) <==> Pending(r, q))
  }

  /** The pending mark of the occupant `p` is set or cleared. */
  ghost predicate Marks(r: Room, r': Room, p: PeerId, pending: bool) {
    && SameRoom(r, r', {})
    && r'.nextConnId == r.nextConnId && r'.closing == r.closing
    && (forall q :: SeatOf(r', q) == SeatOf(r, q))
    && (forall q :: Pending(r', q) <==> if q == p then pending else Pending(r, q))
  }

  ghost predicate Vacates(r: Room, r': Room, p: PeerId) {
    && SameRoom(r, r', {})
    && r'.nextConnId == r.nextConnId && r'.closing == r.closing
    && (forall q :: SeatOf(r', q) == if q == p then None else SeatOf(r, q))
    && (forall q :: Pending(r', q) <==> q != p && Pending(r, q))
  }

  ghost predicate Shuts(r: Room, r': Room) {
    && SameRoom(r, r', {})
    && r'.nextConnId == r.nextConnId && r'.closing
    && (forall q :: SeatOf(r', q) == SeatOf(r, q) || SeatOf(r', q) == None)
    && (forall q :: Pending(r', q) ==> Pending(r, q))
  }

  lemma PruneShape(r: Room, now: Instant)
    ensures Quiet(r, Prune(r, now))
  {
  }

  lemma SeatShape(r: Room, p: PeerId, token: Token, profile: Profile, resumeOnly: bool, wall: WallTime)
    requires !r.closing && token.verifier.Some? && Authorized(r, p, token, resumeOnly)
               && r.hostPeerId !in r.reservations
    ensures Admits(r, Seat(r, p, token, profile, resumeOnly, wall).room, p)
  {
  }

  lemma QuietThenAdmits(r: Room, mid: Room, r': Room, p: PeerId)
    requires Quiet(r, mid) && Admits(mid, r', p)
    ensures Admits(r, r', p)
  {
    forall q ensures SeatOf(r', q) == if q == p then Some(r.nextConnId) else SeatOf(r, q) {
      assert SeatOf(mid, q) == SeatOf(r, q);
    }
  }

  lemma JoinShape(r: Room, p: PeerId, token: Token, profile: Profile, resumeOnly: bool, now: Instant, wall: WallTime)
    requires RoomInv(r)
    ensures var o := JoinOrResume(r, p, token, profile, resumeOnly, now, wall);
            && (o.effects.assignedConnId.None? ==> Quiet(r, o.room))
            && (o.effects.assignedConnId.Some? ==>
                o.effects.assignedConnId == Some(r.nextConnId) && Admits(r, o.room, p))
  {
    var o := JoinOrResume(r, p, token, profile, resumeOnly, now, wall);
    var pruned := Prune(r, now);
    PruneShape(r, now);
    if o.effects.assignedConnId.Some? {
      SeatShape(pruned, p, token, profile, resumeOnly, wall);
      QuietThenAdmits(r, pruned, o.room, p);
    }
  }

  lemma ReturnShape(r: Room, profile: Profile, token: Token)
    requires !r.closing && r.hostPeerId !in r.reservations
    ensures Admits(r, ReconnectHost(r, profile, token).room, r.hostPeerId)
  {
  }

  lemma BeginLeaveShape(r: Room, p: PeerId, connId: ConnId, token: Token, version: nat)
    requires MayLeave(r, p, connId, token, version)
    ensures Marks(r, BeginLeave(r, p, connId, token, version).room, p, true)
  {
  }

  /** A finished leave vacates the seat, clears the mark, or finds nothing to do. */
  ghost predicate LeaveEnds(r: Room, o: Outcome, p: PeerId, connId: ConnId, persisted: bool) {
    if !StillLeaving(r, p, connId) then o.room == r && o.effects.reply == None
    else if persisted then
      && Vacates(r, o.room, p)
      && o.effects.reply == Some(Left(r.sessionId, p))
      && (p != r.hostPeerId ==> !IsIdentity(o.room, p))
    else Marks(r, o.room, p, false) && o.effects.reply == Some(Error(InvalidMessage))
  }

  lemma FinishLeaveShape(r: Room, p: PeerId, connId: ConnId, persisted: bool, wall: WallTime)
    ensures LeaveEnds(r, FinishLeave(r, p, connId, persisted, wall), p, connId, persisted)
  {
  }

  lemma DisconnectShape(r: Room, p: PeerId, connId: ConnId, now: Instant, wall: WallTime)
    requires !r.closing && SeatOf(r, p) == Some(connId) ==> !Pending(r, p)
    ensures var r' := Disconnect(r, p, connId, now, wall).room;
            if !r.closing && SeatOf(r, p) == Some(connId) then Vacates(r, r', p) else r' == r
  {
  }

  lemma SwapShape(r: Room, target: PeerId)
    requires r.hostPeerId !in r.reservations && target in r.reservations && !r.reservations[target].releasePending
    ensures Quiet(r, SwapHost(r, target))
  {
  }

  lemma RelayShape(r: Room, op: RoomOp)
    requires RoomInv(r) && (op.OpTransfer? || op.OpBroadcast? || op.OpSendTo?)
    ensures Quiet(r, Step(r, op).room)
  {
    if op.OpTransfer? && TransferRefusal(r, op.peerId, op.connId, op.version, op.target) == None {
      SwapShape(r, op.target);
    }
  }

  lemma SweepShape(r: Room, now: Instant, wall: WallTime)
    ensures var r' := SweepClose(Prune(r, now), wall).room;
            if IsSwept(r, wall) then Shuts(r, r') else Quiet(r, r')
  {
    PruneShape(r, now);
  }

  lemma EndShape(r: Room, p: PeerId, connId: ConnId, token: Token, version: nat, guests: set<ConnId>, persisted: bool)
    ensures MayEnd(r, p, connId, token, version) ==> Shuts(r, BeginEndSession(r, p, connId, token, version).room)
    ensures r.closing ==> Shuts(r, FinishEndSession(r, guests, persisted).room)
    ensures IsReclaimable(r) ==> Shuts(r, Reclaim(r).room)
  {
  }
}
