/** Laws of host transfer in a room: it is reversible, it keeps the group of possible hosts, and the
    targets the relay publishes are exactly the ones it would accept. */
module TransferLaws {
  import opened Protocol
  import opened HostTransfer
  import opened RoomSpec
  import opened RoomInvariant
  import opened Pruning

  lemma SwapBack(r: Room, target: PeerId)
    requires RoomInv(r) && target in r.peers && target in Transferable(r)
    ensures var r' := SwapHost(r, target);
            && r.hostPeerId in r'.reservations
            && SwapHost(r', r.hostPeerId) == r
            && Transferable(r') == Transferable(r) - {target} + {r.hostPeerId}
  {
    var r' := SwapHost(r, target);
    assert SwapHost(r', r.hostPeerId).reservations == r.reservations;
  }

  /** The peers able to hold the host role are the same before and after an accepted transfer. */
  lemma TransferKeepsGroup(r: Room, connId: ConnId, target: PeerId)
    requires RoomInv(r) && TransferRefusal(r, r.hostPeerId, connId, RELAY_PROTOCOL_VERSION, target) == None
    ensures var r' := TransferHost(r, r.hostPeerId, connId, RELAY_PROTOCOL_VERSION, target).room;
            {r'.hostPeerId} + Targets(r') == {r.hostPeerId} + Targets(r)
  {
    SwapBack(r, target);
    assert RosterOf(SwapHost(r, target)) == RosterOf(r);
    TransferGroupIsStable(r.hostPeerId, target, RosterOf(r), Transferable(r));
  }

  /** After an accepted transfer the new host's connection may hand the role straight back, and the
      room is then exactly what it was: host, host verifier, every reservation, every entry. */
  lemma TransferIsReversible(r: Room, connId: ConnId, target: PeerId)
    requires RoomInv(r) && TransferRefusal(r, r.hostPeerId, connId, RELAY_PROTOCOL_VERSION, target) == None
    ensures var r' := TransferHost(r, r.hostPeerId, connId, RELAY_PROTOCOL_VERSION, target).room;
            && TransferRefusal(r', target, r'.peers[target].connId, RELAY_PROTOCOL_VERSION, r.hostPeerId) == None
            && TransferHost(r', target, r'.peers[target].connId, RELAY_PROTOCOL_VERSION, r.hostPeerId).room == r
  {
    var r' := SwapHost(r, target);
    SwapBack(r, target);
    TransferKeepsGroup(r, connId, target);
    assert r.hostPeerId in {r'.hostPeerId} + Targets(r');
  }

  // ---------------------------------------------------------------- the rule, in what peers declared

  /** Peer `q` keeps the room from offering any transfer: it declared no usable version, or the host's
      version without being able to follow a transfer. */
  predicate Blocks(r: Room, q: PeerId) {
    && q in r.peers && r.hostPeerId in r.peers
    && var theirs, hosts := r.peers[q].profile, r.peers[r.hostPeerId].profile;
       || theirs.syncProtocolVersion <= 0
       || (theirs.syncProtocolVersion == hosts.syncProtocolVersion && !theirs.hostTransferCapable)
  }

  /** A guest the relay could hand the role to as far as its seat goes. */
  predicate MayTakeOver(r: Room, target: PeerId) {
    target != r.hostPeerId && target in r.peers && target in r.reservations && !r.reservations[target].releasePending
  }

  /** The host's connection asks for a transfer. */
  function Ask(r: Room, target: PeerId): Outcome
    requires r.hostPeerId in r.peers
  {
    Step(r, OpTransfer(r.hostPeerId, r.peers[r.hostPeerId].connId, 2, target))
  }

  /** Exactly when the host's request is granted: nobody blocks (the host included, which must be able to
      follow a transfer itself), and the target is at the host's version. Otherwise the target is reported
      missing if its seat is not in order, and the transfer unavailable if it is. */
  lemma TransferIsExact(r: Room, target: PeerId)
    requires RoomInv(r) && !r.closing && r.hostPeerId in r.peers
    ensures var host := r.peers[r.hostPeerId].profile;
            var o := Ask(r, target);
            if !MayTakeOver(r, target) then o.room == r && o.effects == Refusal(PeerNotFound)
            else if host.hostTransferCapable && (forall q :: q in r.peers ==> !Blocks(r, q))
                    && r.peers[target].profile.syncProtocolVersion == host.syncProtocolVersion
            then o.room.hostPeerId == target && o.effects.reply == None
            else o.room == r && o.effects == Refusal(HostTransferUnavailable)
  {
    BlocksIsIncompatible(r);
    var host := r.peers[r.hostPeerId].profile;
    if MayTakeOver(r, target) && r.peers[target].profile.syncProtocolVersion == host.syncProtocolVersion
       && host.hostTransferCapable && (forall q :: q in r.peers ==> !Blocks(r, q)) {
      assert !Blocks(r, target);
      assert r.peers[target].profile == host;
    }
  }

  /** Everybody else is refused: a caller that does not occupy its seat in a live room or speaks another
      protocol version, and a guest. */
  lemma OnlyTheHostTransfers(r: Room, p: PeerId, c: ConnId, version: nat, target: PeerId)
    requires r.closing || !Occupies(r, p, c) || version != 2 || p != r.hostPeerId
    ensures var o := Step(r, OpTransfer(p, c, version, target));
            && o.room == r
            && o.effects
               == Refusal(if r.closing || !Occupies(r, p, c) || version != 2 then PeerIdUnavailable else NotHost)
  {
  }

  lemma BlocksIsIncompatible(r: Room)
    requires r.hostPeerId in r.peers
    ensures CanOffer(r.hostPeerId, RosterOf(r)) <==>
              r.peers[r.hostPeerId].profile.hostTransferCapable && forall q :: q in r.peers ==> !Blocks(r, q)
  {
    var roster := RosterOf(r);
    forall q | q in roster ensures Compatible(roster[r.hostPeerId], roster[q]) <==> !Blocks(r, q) {
    }
    if CanOffer(r.hostPeerId, roster) {
      forall q | q in r.peers ensures !Blocks(r, q) {
        assert q in roster;
      }
    }
    if r.peers[r.hostPeerId].profile.hostTransferCapable && forall q :: q in r.peers ==> !Blocks(r, q) {
      assert !Blocks(r, r.hostPeerId);
      forall q | q in roster ensures Compatible(roster[r.hostPeerId], roster[q]) {
        assert !Blocks(r, q);
      }
    }
  }

  /** One straggler is enough: nothing is offered, and every request that would otherwise do is refused. */
  lemma StragglerBlocks(r: Room, q: PeerId, target: PeerId)
    requires RoomInv(r) && !r.closing && Blocks(r, q)
    ensures Targets(r) == {}
    ensures MayTakeOver(r, target) ==> Ask(r, target).effects == Refusal(HostTransferUnavailable)
  {
    BlocksIsIncompatible(r);
    TransferIsExact(r, target);
  }

  /** A peer at another usable version is neither in the way nor a target: without it the offer is the same. */
  lemma BystanderDoesNotMatter(r: Room, q: PeerId)
    requires q in r.peers && r.hostPeerId in r.peers && r.peers[q].profile.syncProtocolVersion > 0
    requires r.peers[q].profile.syncProtocolVersion != r.peers[r.hostPeerId].profile.syncProtocolVersion
    ensures Targets(r.(peers := r.peers - {q})) == Targets(r)
  {
    var r' := r.(peers := r.peers - {q});
    assert RosterOf(r').Keys == RosterOf(r).Keys - {q};
    forall p | p in r'.peers ensures Blocks(r', p) <==> Blocks(r, p) {
    }
    BlocksIsIncompatible(r);
    BlocksIsIncompatible(r');
  }

  // ---------------------------------------------------------------- published targets

  /** The targets the current host connection could transfer to right now. */
  function Acceptable(r: Room): set<PeerId> {
    if r.hostPeerId !in r.peers then {}
    else set t | t in r.peers && TransferRefusal(r, r.hostPeerId, r.peers[r.hostPeerId].connId, RELAY_PROTOCOL_VERSION,
        t) == None
  }

  lemma AcceptableAreTargets(r: Room)
    requires RoomInv(r) && !r.closing
    ensures Acceptable(r) == Targets(r)
  {
  }

  predicate IsNotice(wave: Wave) {
    wave.msg.HostTransferEligibility?
  }

  predicate Publishes(effects: Effects) {
    exists i :: 0 <= i < |effects.broadcast| && IsNotice(effects.broadcast[i])
  }

  /** Every notice a step sends is the notice of the room it leaves behind. */
  lemma NoticeIsCurrent(r: Room, op: RoomOp, i: nat)
    requires i < |Step(r, op).effects.broadcast| && IsNotice(Step(r, op).effects.broadcast[i])
    ensures [Step(r, op).effects.broadcast[i]] == EligibilityNotice(Step(r, op).room)
  {
  }

  /** Published targets are exactly those `transferHost` would accept from the host's connection. */
  lemma PublishedTargetsAreExact(r: Room, op: RoomOp, i: nat)
    requires RoomInv(r) && !Step(r, op).room.closing
    requires i < |Step(r, op).effects.broadcast| && IsNotice(Step(r, op).effects.broadcast[i])
    ensures var r' := Step(r, op).room;
            var notice := Step(r, op).effects.broadcast[i];
            && notice.msg == HostTransferEligibility(r'.sessionId, r'.hostPeerId, Acceptable(r'))
            && notice.to == Connections(r', CapablePeers(RosterOf(r')))
  {
    NoticeIsCurrent(r, op, i);
    StepKeeps(r, op);
    AcceptableAreTargets(Step(r, op).room);
  }

  /** So is the notice a new room sends its creator. */
  lemma FirstTargetsAreExact(sessionId: SessionId, hostPeerId: PeerId, verifier: Verifier, token: Token,
                             ownerIpKey: IpKey,
                             profile: Profile, wall: WallTime)
    requires ValidPeerId(hostPeerId)
    ensures var o := NewRoom(sessionId, hostPeerId, verifier, token, ownerIpKey, profile, wall);
            o.effects.broadcast
            == if profile.hostTransferCapable
                then [Wave({1}, HostTransferEligibility(sessionId, hostPeerId, Acceptable(o.room)))] else []
  {
    var r := NewRoom(sessionId, hostPeerId, verifier, token, ownerIpKey, profile, wall).room;
    NewRoomHolds(sessionId, hostPeerId, verifier, token, ownerIpKey, profile, wall);
    AcceptableAreTargets(r);
    assert RosterOf(r) == map[hostPeerId := profile];
    assert CapablePeers(RosterOf(r)) == if profile.hostTransferCapable then {hostPeerId} else {};
    assert Connections(r, {hostPeerId}) == {1};
  }

  /** Two rooms whose peer entries differ at most at `q`. */
  ghost predicate DifferAt(r: Room, r': Room, q: PeerId) {
    forall p :: p in r.peers && p != q ==> p in r'.peers && r'.peers[p].profile == r.peers[p].profile
  }

  /** A room with a target has two capable peers, so changing one entry leaves somebody to notify. */
  lemma TargetMeansNotice(r: Room, r': Room, q: PeerId, t: PeerId)
    requires DifferAt(r, r', q) && t in Targets(r)
    ensures EligibilityNotice(r') != []
  {
    var capable := if t == q then r.hostPeerId else t;
    assert RosterOf(r).Keys == r.peers.Keys;
    assert capable in CapablePeers(RosterOf(r'));
  }

  lemma NobodyCapable(r: Room, r': Room, q: PeerId)
    requires DifferAt(r, r', q) && EligibilityNotice(r') == []
    ensures Targets(r) == {} && Targets(r') == {}
  {
    assert CapablePeers(RosterOf(r')) == {};
    forall t ensures t !in Targets(r) {
      if t in Targets(r) {
        TargetMeansNotice(r, r', q, t);
      }
    }
  }

  /** Setting or clearing a pending release moves at most that peer in or out of the targets. */
  lemma PendingMovesOne(r: Room, p: PeerId, pending: bool)
    requires p in r.reservations
    ensures Targets(SetPending(r, p, pending)) - {p} == Targets(r) - {p}
    ensures pending ==> p !in Targets(SetPending(r, p, pending))
    ensures Pending(r, p) ==> p !in Targets(r)
  {
    assert RosterOf(SetPending(r, p, pending)) == RosterOf(r);
  }

  lemma SeatingTargets(r: Room, op: RoomOp)
    requires op.OpJoin? || op.OpReturn? || op.OpDisconnect?
    requires !Publishes(Step(r, op).effects)
    ensures Targets(Step(r, op).room) == Targets(r)
  {
    var o := Step(r, op);
    if o.effects.broadcast == [] {
      if op.OpJoin? && !r.closing && Guarded(r, op) {
        PruneKeepsTargets(r, op.now);
      } else if op.OpReturn? && Guarded(r, op) {
        NobodyCapable(r, o.room, r.hostPeerId);
      }
    } else {
      NoNotice(o.effects, o.room);
      NobodyCapable(r, o.room, if op.OpReturn? then r.hostPeerId else op.peerId);
    }
  }

  lemma NoticePublishes(effects: Effects, r: Room)
    requires |effects.broadcast| > 0 && effects.broadcast == [effects.broadcast[0]] + EligibilityNotice(r)
    requires EligibilityNotice(r) != []
    ensures Publishes(effects)
  {
    assert IsNotice(effects.broadcast[1]);
  }

  lemma NoNotice(effects: Effects, r: Room)
    requires !Publishes(effects)
    requires |effects.broadcast| > 0 && effects.broadcast == [effects.broadcast[0]] + EligibilityNotice(r)
    ensures EligibilityNotice(r) == []
  {
    if EligibilityNotice(r) != [] {
      NoticePublishes(effects, r);
    }
  }

  /** An accepted begin of a leave, and the rollback of one: the changes nobody is told about. */
  predicate MarksLeave(r: Room, op: RoomOp) {
    op.OpBeginLeave? && MayLeave(r, op.peerId, op.connId, op.token, op.version)
  }

  predicate UnmarksLeave(r: Room, op: RoomOp) {
    op.OpFinishLeave? && StillLeaving(r, op.peerId, op.connId) && !op.persisted
  }

  /** A step that publishes nothing and does not close the room leaves the acceptable targets as they
      were, except that a leave becoming pending takes out that peer, and its rollback may put it back. */
  lemma SilentStepsKeepTargets(r: Room, op: RoomOp)
    requires RoomInv(r) && !Step(r, op).room.closing && !Publishes(Step(r, op).effects)
    ensures var before, after := Acceptable(r), Acceptable(Step(r, op).room);
            if MarksLeave(r, op) then after == before - {op.peerId}
            else if UnmarksLeave(r, op) then before == after - {op.peerId}
            else after == before
  {
    var o := Step(r, op);
    StepKeeps(r, op);
    StepUncloses(r, op);
    AcceptableAreTargets(r);
    AcceptableAreTargets(o.room);
    SilentTargets(r, op);
  }

  lemma StepUncloses(r: Room, op: RoomOp)
    requires !Step(r, op).room.closing
    ensures !r.closing
  {
    if r.closing {
      ClosingStays(r, op);
    }
  }

  lemma CommitTargets(r: Room, op: RoomOp)
    requires op.OpFinishLeave? && op.persisted && !Publishes(Step(r, op).effects)
    ensures Targets(Step(r, op).room) == Targets(r)
  {
    if StillLeaving(r, op.peerId, op.connId) {
      NoNotice(Step(r, op).effects, Step(r, op).room);
      NobodyCapable(r, Step(r, op).room, op.peerId);
    }
  }

  lemma LeaveTargets(r: Room, op: RoomOp)
    requires (op.OpBeginLeave? || op.OpFinishLeave?) && !Publishes(Step(r, op).effects)
    ensures var before, after := Targets(r), Targets(Step(r, op).room);
            if MarksLeave(r, op) then after == before - {op.peerId}
            else if UnmarksLeave(r, op) then before == after - {op.peerId}
            else after == before
  {
    if MarksLeave(r, op) {
      PendingMovesOne(r, op.peerId, true);
    } else if UnmarksLeave(r, op) {
      PendingMovesOne(r, op.peerId, false);
    } else if op.OpFinishLeave? && op.persisted {
      CommitTargets(r, op);
    }
  }

  lemma SilentTargets(r: Room, op: RoomOp)
    requires !Step(r, op).room.closing && !Publishes(Step(r, op).effects)
    ensures var before, after := Targets(r), Targets(Step(r, op).room);
            if MarksLeave(r, op) then after == before - {op.peerId}
            else if UnmarksLeave(r, op) then before == after - {op.peerId}
            else after == before
  {
    match op
    case OpBeginLeave(_, _, _, _) => LeaveTargets(r, op);
    case OpFinishLeave(_, _, _, _) => LeaveTargets(r, op);
    case OpTransfer(_, _, _, _) => TransferPublishes(r, op);
    case OpPrune(now) => PruneKeepsTargets(r, now);
    case OpBroadcast(_, _, _, _) => assert RosterOf(Step(r, op).room) == RosterOf(r);
    case OpSendTo(_, _, _, _, _) => assert RosterOf(Step(r, op).room) == RosterOf(r);
    case OpJoin(_, _, _, _, _, _) => SeatingTargets(r, op);
    case OpReturn(_, _, _) => SeatingTargets(r, op);
    case OpDisconnect(_, _, _, _) => SeatingTargets(r, op);
    case _ =>
  }

  /** An accepted transfer always publishes: its host is connected and capable. */
  lemma TransferPublishes(r: Room, op: RoomOp)
    requires op.OpTransfer? && !Publishes(Step(r, op).effects)
    ensures Step(r, op).room == r
  {
    if TransferRefusal(r, op.peerId, op.connId, op.version, op.target) == None {
      NoNotice(Step(r, op).effects, Step(r, op).room);
      NobodyCapable(r, Step(r, op).room, op.target);
    }
  }
}
