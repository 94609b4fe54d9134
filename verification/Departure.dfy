/** Who may leave, end a session or be swept away, and when: each in terms of the token a connection was
    admitted with and of plain times, not of the checks themselves. */
module Departure {
  import opened Protocol
  import opened RoomSpec
  import opened RoomInvariant
  import opened Credentials

  // ---------------------------------------------------------------- only with the admission's own token

  /** A connection's leave is accepted exactly when it speaks protocol version 2 in a live room, is a guest
      not leaving already, and presents the very token it was admitted with. */
  lemma LeaveTakesOwnToken(r: Room, admitted: Admissions, p: PeerId, c: ConnId, token: Token, version: nat)
    requires RoomInv(r) && Authentic(r, admitted) && Occupies(r, p, c)
    ensures var o := Step(r, OpBeginLeave(p, c, token, version));
            && c in admitted
            && if !r.closing && version == 2 && p != r.hostPeerId && !Pending(r, p)
                && token.verifier == Some(admitted[c])
               then Pending(o.room, p) && o.effects == NO_EFFECTS
               else o.room == r && o.effects == Refusal(PeerIdUnavailable)
  {
    assert Vouched(r, p, c, admitted);
  }

  /** A session is ended exactly by its host's connection with the very token it was admitted with. */
  lemma EndTakesOwnToken(r: Room, admitted: Admissions, p: PeerId, c: ConnId, token: Token, version: nat)
    requires RoomInv(r) && Authentic(r, admitted) && Occupies(r, p, c)
    ensures var o := Step(r, OpBeginEnd(p, c, token, version));
            && c in admitted
            && if !r.closing && version == 2 && p == r.hostPeerId && token.verifier == Some(admitted[c])
               then o.room.closing && o.effects == NO_EFFECTS
               else o.room == r && o.effects == Refusal(PeerIdUnavailable)
  {
    assert Vouched(r, p, c, admitted);
  }

  // ---------------------------------------------------------------- activity and the sweep

  /** The operations that count as activity, and the time they stamp: an admission by join or resume, a
      committed leave, a message that was relayed, and a disconnect. */
  function Activity(r: Room, op: RoomOp): Option<WallTime> {
    match op
    case OpJoin(_, _, _, _, _, wall) => if Step(r, op).effects.assignedConnId.Some? then Some(wall) else None
    case OpFinishLeave(p, c, persisted, wall) => if StillLeaving(r, p, c) && persisted then Some(wall) else None
    case OpBroadcast(p, c, _, wall) => if Occupies(r, p, c) && !r.closing then Some(wall) else None
    case OpSendTo(p, c, target, _, wall) =>
      if Occupies(r, p, c) && !r.closing && target in r.peers then Some(wall) else None
    case OpDisconnect(p, c, _, wall) => if Occupies(r, p, c) && !r.closing then Some(wall) else None
    case _ => None
  }

  /** Activity is what the idle clock counts from, and nothing else moves it, nor the age. */
  lemma ActivityIsExact(r: Room, op: RoomOp)
    ensures Step(r, op).room.lastActivityAt == if Activity(r, op).Some? then Activity(r, op).value else r.lastActivityAt
    ensures Step(r, op).room.createdAt == r.createdAt
  {
  }

  /** A sweep at `wall` removes a room exactly when it is more than a day old, or empty and without activity
      for more than five minutes. */
  lemma SweepIsExact(r: Room, wall: WallTime)
    ensures Step(r, OpSweepClose(wall)).room.closing <==>
              || r.closing
              || wall > r.createdAt + 24 * 60 * 60 * NANOS_PER_SECOND
              || (r.peers == map[] && wall > r.lastActivityAt + 5 * 60 * NANOS_PER_SECOND)
  {
  }

  /** No operation of the run admits anybody. */
  ghost predicate NobodyEnters(r: Room, ops: seq<RoomOp>)
    decreases |ops|
  {
    ops != [] ==> Step(r, ops[0]).effects.assignedConnId.None? && NobodyEnters(Step(r, ops[0]).room, ops[1..])
  }

  lemma EmptyStaysIdle(r: Room, op: RoomOp)
    requires r.peers == map[] && Step(r, op).effects.assignedConnId.None?
    ensures Step(r, op).room.peers == map[] && Step(r, op).room.lastActivityAt == r.lastActivityAt
    ensures Step(r, op).room.createdAt == r.createdAt
  {
    ActivityIsExact(r, op);
  }

  lemma {:induction false} EmptyRunsIdle(r: Room, ops: seq<RoomOp>)
    requires r.peers == map[] && NobodyEnters(r, ops)
    ensures Run(r, ops).peers == map[] && Run(r, ops).lastActivityAt == r.lastActivityAt
    ensures Run(r, ops).createdAt == r.createdAt
    decreases |ops|
  {
    if ops != [] {
      EmptyStaysIdle(r, ops[0]);
      EmptyRunsIdle(Step(r, ops[0]).room, ops[1..]);
    }
  }

  /** A room whose last occupant disconnects at `gone` and that nobody enters again is removed by the first
      sweep more than five minutes later, or more than a day after its creation, and by none before. */
  lemma EmptiedRoomIsSwept(r: Room, p: PeerId, c: ConnId, d: Instant, gone: WallTime, ops: seq<RoomOp>, wall: WallTime)
    requires !r.closing && Occupies(r, p, c) && r.peers.Keys == {p}
    requires NobodyEnters(Step(r, OpDisconnect(p, c, d, gone)).room, ops)
    requires !Run(Step(r, OpDisconnect(p, c, d, gone)).room, ops).closing
    ensures Step(Run(Step(r, OpDisconnect(p, c, d, gone)).room, ops), OpSweepClose(wall)).room.closing <==>
              wall > gone + 5 * 60 * NANOS_PER_SECOND || wall > r.createdAt + 24 * 60 * 60 * NANOS_PER_SECOND
  {
    var empty := Step(r, OpDisconnect(p, c, d, gone)).room;
    assert empty.peers == map[];
    ActivityIsExact(r, OpDisconnect(p, c, d, gone));
    EmptyRunsIdle(empty, ops);
    SweepIsExact(Run(empty, ops), wall);
  }
}
