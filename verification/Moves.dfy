/** Every event that touches a room, seen from outside: one connection and one room object change, the
    room stays itself, closing is never undone, and nobody else's leave comes into being. */
module Moves {
  import opened Protocol
  import opened HostTransfer
  import opened RoomSpec
  import opened RegistrySpec
  import opened System
  import opened Seats
  import opened Seating
  import opened CoreInvariant

  /** The seat of `p` in `r'` was handed out before `r`, and not to one of `mine`. */
  predicate IsOlder(r: Room, r': Room, p: PeerId, mine: set<ConnId>) {
    SeatOf(r', p).Some? && SeatOf(r', p).value < r.nextConnId && SeatOf(r', p).value !in mine
  }

  /** Apart from the seats in `mine`, only seats already leaving in `r` are leaving in `r'`. */
  ghost predicate LeavesShrink(r: Room, r': Room, mine: set<ConnId>) {
    forall p :: IsOlder(r, r', p, mine) && Pending(r', p) ==> SeatOf(r, p) == SeatOf(r', p) && Pending(r, p)
  }

  function Mine(s: Sys, a: ActorId, ref: RoomRef): set<ConnId> {
    if a < |s.actors| && s.actors[a].current.Some? && s.actors[a].current.value.room == ref
    then {s.actors[a].current.value.connId} else {}
  }

  ghost predicate SameDisk(s: Sys, s': Sys) {
    s'.file == s.file && s'.phase == s.phase && s'.ledger == s.ledger && s'.answers == s.answers
  }

  ghost predicate Later(r: Room, r': Room, admitted: set<PeerId>, mine: set<ConnId>) {
    && SameRoom(r, r', admitted)
    && (r.closing ==> r'.closing && r'.nextConnId == r.nextConnId)
    && r.nextConnId <= r'.nextConnId
    && LeavesShrink(r, r', mine)
  }

  ghost predicate OneRoom(arena: Arena, arena': Arena, ref: RoomRef) {
    ref < |arena| && |arena'| == |arena| && forall x :: 0 <= x < |arena| && x != ref ==> arena'[x] == arena[x]
  }

  /** At most connection `a` changes, and not into waiting for the writer. */
  ghost predicate OneActor(actors: Actors, actors': Actors, a: ActorId) {
    && |actors'| == |actors|
    && (forall b :: 0 <= b < |actors| && b != a ==> actors'[b] == actors[b])
    && (a < |actors| ==> actors'[a] == actors[a] || !(actors'[a].pc.LeaveWaiting? || actors'[a].pc.EndWaiting?))
  }

  ghost predicate Moved(s: Sys, s': Sys, a: ActorId, ref: RoomRef, admitted: set<PeerId>) {
    && OneActor(s.actors, s'.actors, a)
    && OneRoom(s.reg.arena, s'.reg.arena, ref)
    && Later(s.reg.arena[ref], s'.reg.arena[ref], admitted, Mine(s, a, ref))
    && SameDisk(s, s')
  }

  // ---------------------------------------------------------------- shapes are moves

  lemma QuietLater(r: Room, r': Room, mine: set<ConnId>)
    requires Quiet(r, r')
    ensures Later(r, r', {}, mine)
  {
  }

  lemma AdmitsLater(r: Room, r': Room, p: PeerId, mine: set<ConnId>)
    requires Admits(r, r', p)
    ensures Later(r, r', {p}, mine)
  {
  }

  lemma ShutsLater(r: Room, r': Room, mine: set<ConnId>)
    requires Shuts(r, r')
    ensures Later(r, r', {}, mine)
  {
    forall p | SeatOf(r', p).Some? ensures SeatOf(r, p) == SeatOf(r', p) {
    }
  }

  lemma VacatesLater(r: Room, r': Room, p: PeerId, mine: set<ConnId>)
    requires Vacates(r, r', p)
    ensures Later(r, r', {}, mine)
  {
  }

  lemma MarksLater(r: Room, r': Room, p: PeerId, pending: bool, mine: set<ConnId>)
    requires Marks(r, r', p, pending) && (pending ==> SeatOf(r, p).Some? && SeatOf(r, p).value in mine)
    ensures Later(r, r', {}, mine)
  {
  }

  // ---------------------------------------------------------------- events are moves

  lemma JoinMoves(s: Sys, a: ActorId, now: Instant, wall: WallTime)
    requires Core(s) && IsJoining(s, a)
    ensures Moved(s, DoJoin(s, a, now, wall), a, s.actors[a].pc.target,
                  if JoinOutcome(s, a, now, wall).effects.assignedConnId.Some? then {s.actors[a].pc.peerId} else {})
  {
    var pc := s.actors[a].pc;
    var r := s.reg.arena[pc.target];
    assert PcOk(s.reg.arena, s.actors[a]);
    JoinShape(r, pc.peerId, pc.token, pc.profile, pc.resumeOnly, now, wall);
    var o := JoinOutcome(s, a, now, wall);
    if o.effects.assignedConnId.Some? {
      AdmitsLater(r, o.room, pc.peerId, {});
    } else {
      QuietLater(r, o.room, {});
    }
  }

  lemma ReturnMoves(s: Sys, a: ActorId, ref: RoomRef, token: Token, profile: Profile)
    requires Core(s) && IsFree(s, a) && ref < |s.reg.arena| && !s.reg.arena[ref].closing
    ensures Moved(s, Returned(s, a, ref, token, profile), a, ref, {})
  {
    var room := s.reg.arena[ref];
    ReturnShape(room, profile, token);
    AdmitsLater(room, ReconnectHost(room, profile, token).room, room.hostPeerId, {});
  }

  lemma BeginLeaveMoves(s: Sys, a: ActorId, token: Token, version: nat)
    requires Core(s) && IsIdle(s, a) && IsSeated(s, a)
    ensures Moved(s, DoBeginLeave(s, a, token, version), a, HoldingOf(s, a).room, {})
  {
    var h := HoldingOf(s, a);
    if MayLeave(RoomOf(s, a), h.peerId, h.connId, token, version) {
      BeginLeaveShape(RoomOf(s, a), h.peerId, h.connId, token, version);
      MarksLater(RoomOf(s, a), BeginLeave(RoomOf(s, a), h.peerId, h.connId, token, version).room, h.peerId, true,
          {h.connId});
    } else {
      QuietLater(RoomOf(s, a), RoomOf(s, a), {h.connId});
    }
  }

  lemma ConcludeLeaveMoves(s: Sys, a: ActorId, o: Outcome, persisted: bool)
    requires IsSeated(s, a) && Leaving(s.actors[a].pc)
    requires LeaveEnds(RoomOf(s, a), o, HoldingOf(s, a).peerId, HoldingOf(s, a).connId, persisted)
    ensures Moved(s, ConcludeLeave(s, a, o), a, HoldingOf(s, a).room, {})
  {
    var h := HoldingOf(s, a);
    if !StillLeaving(RoomOf(s, a), h.peerId, h.connId) {
      QuietLater(RoomOf(s, a), RoomOf(s, a), {h.connId});
    } else if persisted {
      VacatesLater(RoomOf(s, a), o.room, h.peerId, {h.connId});
    } else {
      MarksLater(RoomOf(s, a), o.room, h.peerId, false, {h.connId});
    }
  }

  lemma BeginEndMoves(s: Sys, a: ActorId, token: Token, version: nat)
    requires Core(s) && IsIdle(s, a) && IsSeated(s, a)
    ensures Moved(s, DoBeginEnd(s, a, token, version), a, HoldingOf(s, a).room, {})
  {
    var h := HoldingOf(s, a);
    if MayEnd(RoomOf(s, a), h.peerId, h.connId, token, version) {
      EndShape(RoomOf(s, a), h.peerId, h.connId, token, version, {}, false);
      ShutsLater(RoomOf(s, a), BeginEndSession(RoomOf(s, a), h.peerId, h.connId, token, version).room, {h.connId});
    } else {
      QuietLater(RoomOf(s, a), RoomOf(s, a), {h.connId});
    }
  }

  lemma FinishEndMoves(s: Sys, a: ActorId)
    requires Core(s) && IsSeated(s, a) && s.actors[a].pc.EndWaiting? && s.actors[a].pc.ticket in s.answers
    ensures Moved(s, DoFinishEnd(s, a), a, HoldingOf(s, a).room, {})
  {
    assert PcOk(s.reg.arena, s.actors[a]);
    EndShape(RoomOf(s, a), "", 0, Token("", None), 0, s.actors[a].pc.guests, s.answers[s.actors[a].pc.ticket]);
    ShutsLater(RoomOf(s, a), EndOutcome(s, a).room, {HoldingOf(s, a).connId});
  }

  lemma RelayMoves(s: Sys, a: ActorId, op: RoomOp)
    requires Core(s) && IsSeated(s, a) && (op.OpTransfer? || op.OpBroadcast? || op.OpSendTo?)
    ensures Moved(s, DoRelay(s, a, op), a, HoldingOf(s, a).room, {})
  {
    RelayShape(RoomOf(s, a), op);
    QuietLater(RoomOf(s, a), Step(RoomOf(s, a), op).room, {HoldingOf(s, a).connId});
  }

  lemma DisconnectMoves(s: Sys, a: ActorId, now: Instant, wall: WallTime)
    requires Core(s) && IsIdle(s, a) && IsSeated(s, a)
    ensures Moved(s, DoDisconnect(s, a, now, wall), a, HoldingOf(s, a).room, {})
  {
    var h := HoldingOf(s, a);
    var r := RoomOf(s, a);
    if !r.closing && SeatOf(r, h.peerId) == Some(h.connId) {
      IdleIsNotPending(s, a);
    }
    DisconnectShape(r, h.peerId, h.connId, now, wall);
    var r' := Disconnect(r, h.peerId, h.connId, now, wall).room;
    if !r.closing && SeatOf(r, h.peerId) == Some(h.connId) {
      VacatesLater(r, r', h.peerId, {h.connId});
    } else {
      QuietLater(r, r', {h.connId});
    }
  }

  lemma SweepMoves(s: Sys, ref: RoomRef, now: Instant)
    requires s.sweep.Sweeping? && ref < |s.reg.arena|
    ensures Moved(s, DoSweepRoom(s, ref, now), |s.actors|, ref, {})
  {
    var r := s.reg.arena[ref];
    var r' := SweepClose(Prune(r, now), s.sweep.wall).room;
    SweepShape(r, now, s.sweep.wall);
    if IsSwept(r, s.sweep.wall) {
      ShutsLater(r, r', {});
    } else {
      QuietLater(r, r', {});
    }
  }

  lemma VacateMoves(s: Sys, sid: SessionId)
    requires TableWf(s.reg) && sid in s.reg.table && IsReclaimable(s.reg.arena[s.reg.table[sid]])
    ensures Moved(s, s.(reg := Vacate(s.reg, sid)), |s.actors|, s.reg.table[sid], {})
  {
    var r := s.reg.arena[s.reg.table[sid]];
    EndShape(r, "", 0, Token("", None), 0, {}, false);
    ShutsLater(r, Reclaim(r).room, {});
  }

  // ---------------------------------------------------------------- the outcomes of create

  /** A fresh room in the table with its creator seated. */
  function Inserted(s: Sys, a: ActorId, sid: SessionId, p: PeerId, room: Room, owner: IpKey): Sys
    requires a < |s.actors|
  {
    SetActor(s.(reg := InsertRoom(s.reg, sid, room, owner)), a, Actor(Some(Holding(|s.reg.arena|, p, 1)), Idle))
  }

  /** The host back in its room. */
  function Returned(s: Sys, a: ActorId, ref: RoomRef, token: Token, profile: Profile): Sys
    requires a < |s.actors| && ref < |s.reg.arena|
  {
    var room := s.reg.arena[ref];
    SetRoom(SetActor(s, a, Actor(Some(Holding(ref, room.hostPeerId, room.nextConnId)), Idle)), ref,
        ReconnectHost(room, profile, token).room)
  }

  /** The state `create` works on after reclaiming an abandoned room, if there was one. */
  function Cleared(s: Sys, sid: SessionId): Sys
    requires TableWf(s.reg)
  {
    if sid in s.reg.table && IsReclaimable(s.reg.arena[s.reg.table[sid]]) then s.(reg := Vacate(s.reg, sid)) else s
  }

  predicate IsReturn(s: Sys, sid: SessionId, p: PeerId, token: Token)
    requires TableWf(s.reg)
  {
    token.verifier.Some? && sid in s.reg.table
        && IsHostReturning(s.reg.arena[s.reg.table[sid]], p, token.verifier.value)
  }

  /** `create` returns the host, changes nothing, or clears the session and possibly inserts a room. */
  lemma CreateCases(s: Sys, a: ActorId, sid: SessionId, p: PeerId, token: Token, owner: IpKey, profile: Profile,
                    wall: WallTime)
    requires IsFree(s, a) && TableWf(s.reg)
    ensures var s' := DoCreate(s, a, sid, p, token, owner, profile, wall);
            if IsReturn(s, sid, p, token) then s' == Returned(s, a, s.reg.table[sid], token, profile)
            else
              || s' == s
              || s' == Cleared(s, sid)
              || (token.verifier.Some? && sid !in Cleared(s, sid).reg.table
                  && Count(Cleared(s, sid).reg.quota, owner) < MAX_ROOMS_PER_IP
                  && s' == Inserted(Cleared(s, sid), a, sid, p, NewRoom(sid, p, token.verifier.value, token, owner,
                      profile, wall).room, owner))
  {
    var o := Create(s.reg, sid, p, token, owner, profile, wall);
    if token.verifier.Some? && (sid in s.reg.table ==> IsReclaimable(s.reg.arena[s.reg.table[sid]]))
        && !IsReturn(s, sid, p, token) {
      assert o == CreateFresh(Cleared(s, sid).reg, sid, p, token, owner, profile, wall);
    }
  }

  // ---------------------------------------------------------------- moving events at a glance

  /** Steps of a connection with a section under the lock of one existing room, `create` aside. */
  predicate IsMove(act: Act) {
    act.ActJoin? || act.ActBeginLeave? || act.ActFinishLeave? || act.ActBeginEnd? || act.ActFinishEnd? || act.ActRelay?
        || act.ActDisconnect?
  }

  function MovedRoom(s: Sys, a: ActorId, act: Act): RoomRef
    requires IsMove(act) && ActEnabled(s, a, act)
  {
    if act.ActJoin? then s.actors[a].pc.target else HoldingOf(s, a).room
  }

  function AdmittedBy(s: Sys, a: ActorId, act: Act): set<PeerId>
    requires IsMove(act) && ActEnabled(s, a, act)
  {
    if act.ActJoin? && JoinOutcome(s, a, act.now, act.wall).effects.assignedConnId.Some? then {s.actors[a].pc.peerId}
        else {}
  }

  lemma ActMoves(s: Sys, a: ActorId, act: Act)
    requires Core(s) && IsMove(act) && ActEnabled(s, a, act)
    ensures Moved(s, FireAct(s, a, act), a, MovedRoom(s, a, act), AdmittedBy(s, a, act))
  {
    match act
    case ActJoin(now, wall) => JoinMoves(s, a, now, wall);
    case ActBeginLeave(token, version) => BeginLeaveMoves(s, a, token, version);
    case ActFinishLeave(wall) =>
      FinishLeaveShape(RoomOf(s, a), HoldingOf(s, a).peerId, HoldingOf(s, a).connId, s.answers[s.actors[a].pc.ticket],
          wall);
      ConcludeLeaveMoves(s, a, LeaveOutcome(s, a, wall), s.answers[s.actors[a].pc.ticket]);
    case ActBeginEnd(token, version) => BeginEndMoves(s, a, token, version);
    case ActFinishEnd => FinishEndMoves(s, a);
    case ActRelay(op) => RelayMoves(s, a, op);
    case ActDisconnect(now, wall) => DisconnectMoves(s, a, now, wall);
  }

  /** What such a step leaves alone, and the connection it changes. */
  lemma MoveFrame(s: Sys, a: ActorId, act: Act)
    requires IsMove(act) && ActEnabled(s, a, act)
    ensures var s' := FireAct(s, a, act);
            && s'.reg.table == s.reg.table && s'.reg.quota == s.reg.quota && s'.sweep == s.sweep
            && s'.queue == s.queue && s'.nextTicket == s.nextTicket
  {
    match act
    case ActJoin(now, wall) =>
    case ActBeginLeave(token, version) =>
    case ActFinishLeave(wall) =>
    case ActBeginEnd(token, version) =>
    case ActFinishEnd =>
    case ActRelay(op) =>
    case ActDisconnect(now, wall) =>
  }

  lemma MoveLog(s: Sys, a: ActorId, act: Act)
    requires IsMove(act) && ActEnabled(s, a, act)
    ensures var s' := FireAct(s, a, act);
            && (!act.ActFinishEnd? ==> s'.log.ended == s.log.ended)
            && (!act.ActJoin? && !act.ActFinishLeave? ==> s'.log.released == s.log.released)
  {
    match act
    case ActJoin(now, wall) =>
    case ActBeginLeave(token, version) =>
    case ActFinishLeave(wall) =>
    case ActBeginEnd(token, version) =>
    case ActFinishEnd =>
    case ActRelay(op) =>
    case ActDisconnect(now, wall) =>
  }

  lemma MovePcs(s: Sys, a: ActorId, act: Act)
    requires IsMove(act) && ActEnabled(s, a, act)
    ensures a < |FireAct(s, a, act).actors|
    ensures var pc, pc' := s.actors[a].pc, FireAct(s, a, act).actors[a].pc;
            && !pc.EndBegun? && !pc.EndUnmapped? && !pc'.EndUnmapped?
            && (pc'.EndBegun? ==> act.ActBeginEnd?)
  {
  }

  /** Steps that leave every room object alone. */
  predicate IsAside(act: Act) {
    act.ActFind? || act.ActHangUp? || act.ActUnmapEnd? || act.ActReleaseEnd?
  }

  lemma AsideFrame(s: Sys, a: ActorId, act: Act)
    requires IsAside(act) && ActEnabled(s, a, act)
    ensures var s' := FireAct(s, a, act);
            && s'.reg.arena == s.reg.arena && SameDisk(s, s') && s'.queue == s.queue && s'.nextTicket == s.nextTicket
                && s'.log == s.log
            && OneActor(s.actors, s'.actors, a) && s'.sweep == s.sweep
  {
  }
}
