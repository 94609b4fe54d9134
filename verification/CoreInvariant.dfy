/** The core invariant of the running relay, kept by every event of every interleaving: the table and
    the rooms are well formed, connections sit where they think they do, and leaves in flight match
    the pending marks. */
module CoreInvariant {
  import opened Protocol
  import opened HostTransfer
  import opened RoomSpec
  import opened RoomInvariant
  import opened RegistrySpec
  import opened System
  import opened Seats
  import opened Seating

  predicate Ending(pc: Pc) {
    pc.EndBegun? || pc.EndUnmapped? || pc.EndReleased? || pc.EndWaiting?
  }

  /** A connection looking for a seat holds none; one ending a session has closed its room. */
  ghost predicate PcOk(arena: Arena, actor: Actor) {
    && (actor.pc.Joining? ==> actor.current.None? && actor.pc.target < |arena| && ValidPeerId(actor.pc.peerId))
    && (Ending(actor.pc) ==>
        actor.current.Some? && actor.current.value.room < |arena| && arena[actor.current.value.room].closing)
    && (actor.pc.Gone? ==> actor.current.None?)
  }

  ghost predicate PcsOk(arena: Arena, actors: Actors) {
    forall a :: 0 <= a < |actors| ==> PcOk(arena, actors[a])
  }

  ghost predicate RoomsOk(arena: Arena) {
    forall ref :: 0 <= ref < |arena| ==> RoomInv(arena[ref]) && ValidSessionId(arena[ref].sessionId)
  }

  ghost predicate CoreOf(reg: Reg, actors: Actors, lost: Lost) {
    TableWf(reg) && RoomsOk(reg.arena) && PcsOk(reg.arena, actors) && SeatingOk(reg.arena, actors, lost)
  }

  ghost predicate Core(s: Sys) {
    CoreOf(s.reg, s.actors, s.log.abandoned)
  }

  // ---------------------------------------------------------------- one room, one connection

  /** A room is replaced by a later state of itself. */
  lemma RoomChange(reg: Reg, actors: Actors, ref: RoomRef, r': Room)
    requires TableWf(reg) && RoomsOk(reg.arena) && PcsOk(reg.arena, actors) && ref < |reg.arena|
    requires RoomInv(r') && r'.sessionId == reg.arena[ref].sessionId && (reg.arena[ref].closing ==> r'.closing)
    ensures var reg' := reg.(arena := reg.arena[ref := r']);
            TableWf(reg') && RoomsOk(reg'.arena) && PcsOk(reg'.arena, actors)
  {
    var arena' := reg.arena[ref := r'];
    forall a | 0 <= a < |actors| ensures PcOk(arena', actors[a]) {
      assert PcOk(reg.arena, actors[a]);
    }
  }

  lemma QuietCore(s: Sys, ref: RoomRef, r': Room)
    requires Core(s) && ref < |s.reg.arena| && Quiet(s.reg.arena[ref], r') && RoomInv(r')
    ensures Core(SetRoom(s, ref, r'))
  {
    RoomChange(s.reg, s.actors, ref, r');
    QuietSeating(s.reg.arena, s.actors, s.log.abandoned, ref, r');
  }

  lemma ShutCore(s: Sys, ref: RoomRef, r': Room)
    requires Core(s) && ref < |s.reg.arena| && Shuts(s.reg.arena[ref], r') && RoomInv(r')
    ensures Core(SetRoom(s, ref, r'))
  {
    RoomChange(s.reg, s.actors, ref, r');
    ShutSeating(s.reg.arena, s.actors, s.log.abandoned, ref, r');
  }

  lemma PcCore(s: Sys, a: ActorId, actor: Actor)
    requires Core(s) && a < |s.actors| && actor.current == s.actors[a].current
               && Leaving(actor.pc) == Leaving(s.actors[a].pc)
    requires PcOk(s.reg.arena, actor)
    ensures Core(SetActor(s, a, actor))
  {
    PcSeating(s.reg.arena, s.actors, s.log.abandoned, a, actor);
  }

  lemma AdmitCore(s: Sys, a: ActorId, ref: RoomRef, r': Room, p: PeerId)
    requires Core(s) && a < |s.actors| && s.actors[a].current.None? && ref < |s.reg.arena|
    requires Admits(s.reg.arena[ref], r', p) && RoomInv(r')
    ensures Core(SetRoom(SetActor(s, a, Actor(Some(Holding(ref, p, s.reg.arena[ref].nextConnId)), Idle)), ref, r'))
  {
    var actors' := s.actors[a := Actor(Some(Holding(ref, p, s.reg.arena[ref].nextConnId)), Idle)];
    assert PcsOk(s.reg.arena, actors');
    RoomChange(s.reg, actors', ref, r');
    AdmitSeating(s.reg.arena, s.actors, s.log.abandoned, a, ref, r', p);
  }

  // ---------------------------------------------------------------- create and join

  lemma NewRoomCore(s: Sys, a: ActorId, sid: SessionId, p: PeerId, token: Token, owner: IpKey, profile: Profile,
                    wall: WallTime)
    requires Core(s) && a < |s.actors| && s.actors[a].current.None? && token.verifier.Some? && ValidSessionId(sid)
               && ValidPeerId(p)
    requires sid !in s.reg.table
    ensures var room := NewRoom(sid, p, token.verifier.value, token, owner, profile, wall).room;
            Core(SetActor(s.(reg := InsertRoom(s.reg, sid, room, owner)), a,
                Actor(Some(Holding(|s.reg.arena|, p, 1)), Idle)))
  {
    var room := NewRoom(sid, p, token.verifier.value, token, owner, profile, wall).room;
    NewRoomHolds(sid, p, token.verifier.value, token, owner, profile, wall);
    var arena', actors' := s.reg.arena + [room], s.actors[a := Actor(Some(Holding(|s.reg.arena|, p, 1)), Idle)];
    forall b | 0 <= b < |actors'| ensures PcOk(arena', actors'[b]) {
      assert b != a ==> PcOk(s.reg.arena, s.actors[b]);
    }
    NewRoomSeating(s.reg.arena, s.actors, s.log.abandoned, a, room, p);
  }

  lemma VacateCore(s: Sys, sid: SessionId)
    requires Core(s) && sid in s.reg.table && IsReclaimable(s.reg.arena[s.reg.table[sid]])
    ensures Core(s.(reg := Vacate(s.reg, sid)))
  {
    var ref := s.reg.table[sid];
    EndShape(s.reg.arena[ref], "", 0, Token("", None), 0, {}, false);
    ShutCore(s, ref, Reclaim(s.reg.arena[ref]).room);
  }

  lemma FreshCore(s: Sys, a: ActorId, sid: SessionId, p: PeerId, token: Token, owner: IpKey, profile: Profile,
                  wall: WallTime)
    requires Core(s) && IsFree(s, a) && token.verifier.Some? && ValidSessionId(sid) && ValidPeerId(p)
               && sid !in s.reg.table
    ensures var o := CreateFresh(s.reg, sid, p, token, owner, profile, wall);
            if o.room.Some? then
              o.effects.assignedConnId == Some(1)
                  && Core(SetActor(s.(reg := o.reg), a, Actor(Some(Holding(o.room.value, p, 1)), Idle)))
            else o.reg == s.reg
  {
    NewRoomCore(s, a, sid, p, token, owner, profile, wall);
  }

  lemma ReturnCore(s: Sys, a: ActorId, ref: RoomRef, token: Token, profile: Profile)
    requires Core(s) && IsFree(s, a) && ref < |s.reg.arena| && !s.reg.arena[ref].closing
    ensures var room := s.reg.arena[ref];
            Core(SetRoom(SetActor(s, a, Actor(Some(Holding(ref, room.hostPeerId, room.nextConnId)), Idle)), ref,
                ReconnectHost(room, profile, token).room))
  {
    var room := s.reg.arena[ref];
    ReturnShape(room, profile, token);
    ReturnKeeps(room, profile, token);
    AdmitCore(s, a, ref, ReconnectHost(room, profile, token).room, room.hostPeerId);
  }

  lemma CreateReturning(s: Sys, a: ActorId, sid: SessionId, token: Token, owner: IpKey, profile: Profile,
                        wall: WallTime)
    requires Core(s) && IsFree(s, a) && sid in s.reg.table && token.verifier.Some?
    requires var room := s.reg.arena[s.reg.table[sid]]; IsHostReturning(room, room.hostPeerId, token.verifier.value)
    ensures Core(DoCreate(s, a, sid, s.reg.arena[s.reg.table[sid]].hostPeerId, token, owner, profile, wall))
  {
    ReturnCore(s, a, s.reg.table[sid], token, profile);
  }

  lemma CreateReclaiming(s: Sys, a: ActorId, sid: SessionId, p: PeerId, token: Token, owner: IpKey, profile: Profile,
                         wall: WallTime)
    requires Core(s) && IsFree(s, a) && ValidSessionId(sid) && ValidPeerId(p) && token.verifier.Some?
               && sid in s.reg.table
    requires var room := s.reg.arena[s.reg.table[sid]];
             !IsHostReturning(room, p, token.verifier.value) && IsReclaimable(room)
    ensures Core(DoCreate(s, a, sid, p, token, owner, profile, wall))
  {
    VacateCore(s, sid);
    FreshCore(s.(reg := Vacate(s.reg, sid)), a, sid, p, token, owner, profile, wall);
  }

  lemma CreateCore(s: Sys, a: ActorId, sid: SessionId, p: PeerId, token: Token, owner: IpKey, profile: Profile,
                   wall: WallTime)
    requires Core(s) && IsFree(s, a) && ValidSessionId(sid) && ValidPeerId(p)
    ensures Core(DoCreate(s, a, sid, p, token, owner, profile, wall))
  {
    if token.verifier.Some? {
      if sid !in s.reg.table {
        FreshCore(s, a, sid, p, token, owner, profile, wall);
      } else if IsHostReturning(s.reg.arena[s.reg.table[sid]], p, token.verifier.value) {
        CreateReturning(s, a, sid, token, owner, profile, wall);
      } else if IsReclaimable(s.reg.arena[s.reg.table[sid]]) {
        CreateReclaiming(s, a, sid, p, token, owner, profile, wall);
      }
    }
  }

  lemma JoinCore(s: Sys, a: ActorId, now: Instant, wall: WallTime)
    requires Core(s) && IsJoining(s, a)
    ensures Core(DoJoin(s, a, now, wall))
  {
    var pc := s.actors[a].pc;
    var room := s.reg.arena[pc.target];
    assert PcOk(s.reg.arena, s.actors[a]);
    JoinShape(room, pc.peerId, pc.token, pc.profile, pc.resumeOnly, now, wall);
    JoinKeeps(room, pc.peerId, pc.token, pc.profile, pc.resumeOnly, now, wall);
    var o := JoinOrResume(room, pc.peerId, pc.token, pc.profile, pc.resumeOnly, now, wall);
    if o.effects.assignedConnId.Some? {
      AdmitCore(s, a, pc.target, o.room, pc.peerId);
    } else {
      PcCore(s, a, s.actors[a].(pc := Idle));
      QuietCore(SetActor(s, a, s.actors[a].(pc := Idle)), pc.target, o.room);
    }
  }

  // ---------------------------------------------------------------- leave and disconnect

  lemma BeginLeaveCore(s: Sys, a: ActorId, token: Token, version: nat)
    requires Core(s) && IsIdle(s, a) && IsSeated(s, a)
    ensures Core(DoBeginLeave(s, a, token, version))
  {
    var h := HoldingOf(s, a);
    if MayLeave(RoomOf(s, a), h.peerId, h.connId, token, version) {
      BeginLeaveShape(RoomOf(s, a), h.peerId, h.connId, token, version);
      LeaveKeeps(RoomOf(s, a), h.peerId, h.connId, token, version, true, 0);
      var r' := BeginLeave(RoomOf(s, a), h.peerId, h.connId, token, version).room;
      RoomChange(s.reg, s.actors[a := s.actors[a].(pc := LeaveBegun)], h.room, r');
      MarkSeating(s.reg.arena, s.actors, s.log.abandoned, a, r');
    }
  }

  /** The three endings of a leave: nothing left to do, commit, and rollback. */
  lemma ConcludeLeaveCore(s: Sys, a: ActorId, o: Outcome, persisted: bool)
    requires Core(s) && IsSeated(s, a) && Leaving(s.actors[a].pc) && RoomInv(o.room)
    requires LeaveEnds(RoomOf(s, a), o, HoldingOf(s, a).peerId, HoldingOf(s, a).connId, persisted)
    ensures Core(ConcludeLeave(s, a, o))
  {
    var h := HoldingOf(s, a);
    if !StillLeaving(RoomOf(s, a), h.peerId, h.connId) {
      assert s.reg.arena[h.room := o.room] == s.reg.arena;
      ForgetCore(s, a, Idle);
    } else if persisted {
      LeftCore(s, a, o.room, Idle);
    } else {
      UnmarkCore(s, a, o.room);
    }
  }

  lemma FinishLeaveCore(s: Sys, a: ActorId, wall: WallTime)
    requires Core(s) && IsSeated(s, a) && s.actors[a].pc.LeaveWaiting? && s.actors[a].pc.ticket in s.answers
    ensures Core(DoFinishLeave(s, a, wall))
  {
    var h := HoldingOf(s, a);
    var persisted := s.answers[s.actors[a].pc.ticket];
    FinishLeaveShape(RoomOf(s, a), h.peerId, h.connId, persisted, wall);
    LeaveKeeps(RoomOf(s, a), h.peerId, h.connId, Token("", None), 0, persisted, wall);
    ConcludeLeaveCore(s, a, LeaveOutcome(s, a, wall), persisted);
  }

  lemma ForgetCore(s: Sys, a: ActorId, pc: Pc)
    requires Core(s) && IsSeated(s, a) && (pc.Idle? || pc.Gone?)
    requires RoomOf(s, a).closing || SeatOf(RoomOf(s, a), HoldingOf(s, a).peerId) != Some(HoldingOf(s, a).connId)
    ensures Core(SetActor(s, a, Actor(None, pc)))
  {
    ForgetSeating(s.reg.arena, s.actors, s.log.abandoned, a, pc);
  }

  lemma LeftCore(s: Sys, a: ActorId, r': Room, pc: Pc)
    requires Core(s) && IsSeated(s, a) && (pc.Idle? || pc.Gone?) && RoomInv(r')
    requires SeatOf(RoomOf(s, a), HoldingOf(s, a).peerId) == Some(HoldingOf(s, a).connId)
    requires Vacates(RoomOf(s, a), r', HoldingOf(s, a).peerId)
    ensures Core(SetRoom(SetActor(s, a, Actor(None, pc)), HoldingOf(s, a).room, r'))
  {
    RoomChange(s.reg, s.actors[a := Actor(None, pc)], HoldingOf(s, a).room, r');
    VacateSeating(s.reg.arena, s.actors, s.log.abandoned, a, r', pc);
  }

  lemma UnmarkCore(s: Sys, a: ActorId, r': Room)
    requires Core(s) && IsSeated(s, a) && RoomInv(r')
    requires SeatOf(RoomOf(s, a), HoldingOf(s, a).peerId) == Some(HoldingOf(s, a).connId)
    requires Marks(RoomOf(s, a), r', HoldingOf(s, a).peerId, false)
    ensures Core(SetRoom(SetActor(s, a, s.actors[a].(pc := Idle)), HoldingOf(s, a).room, r'))
  {
    RoomChange(s.reg, s.actors[a := s.actors[a].(pc := Idle)], HoldingOf(s, a).room, r');
    UnmarkSeating(s.reg.arena, s.actors, s.log.abandoned, a, r');
  }

  /** An idle occupant has no pending mark. */
  lemma IdleIsNotPending(s: Sys, a: ActorId)
    requires Core(s) && IsIdle(s, a) && IsSeated(s, a)
    requires !RoomOf(s, a).closing && SeatOf(RoomOf(s, a), HoldingOf(s, a).peerId) == Some(HoldingOf(s, a).connId)
    ensures !Pending(RoomOf(s, a), HoldingOf(s, a).peerId)
  {
    var h := HoldingOf(s, a);
    forall b: ActorId ensures !LeaveBy(s.actors, b, h.room, h.peerId) {
      if b < |s.actors| && b != a && Leaving(s.actors[b].pc) {
        LeavesApart(s.reg.arena, s.actors, s.log.abandoned, a, b);
      }
    }
  }

  lemma DisconnectCore(s: Sys, a: ActorId, now: Instant, wall: WallTime)
    requires Core(s) && IsIdle(s, a) && IsSeated(s, a)
    ensures Core(DoDisconnect(s, a, now, wall))
  {
    var h := HoldingOf(s, a);
    var r := RoomOf(s, a);
    var r' := Disconnect(r, h.peerId, h.connId, now, wall).room;
    if !r.closing && SeatOf(r, h.peerId) == Some(h.connId) {
      IdleIsNotPending(s, a);
      DisconnectShape(r, h.peerId, h.connId, now, wall);
      DisconnectKeeps(r, h.peerId, h.connId, now, wall);
      LeftCore(s, a, r', Gone);
    } else {
      assert s.reg.arena[h.room := r'] == s.reg.arena;
      ForgetCore(s, a, Gone);
    }
  }

  // ---------------------------------------------------------------- endSession, sweep, relaying

  lemma BeginEndCore(s: Sys, a: ActorId, token: Token, version: nat)
    requires Core(s) && IsIdle(s, a) && IsSeated(s, a)
    ensures Core(DoBeginEnd(s, a, token, version))
  {
    var h := HoldingOf(s, a);
    var r := RoomOf(s, a);
    if MayEnd(r, h.peerId, h.connId, token, version) {
      EndShape(r, h.peerId, h.connId, token, version, {}, false);
      var r' := BeginEndSession(r, h.peerId, h.connId, token, version).room;
      ShutCore(s, h.room, r');
      PcCore(SetRoom(s, h.room, r'), a, s.actors[a].(pc := EndBegun(Others(r, h.peerId))));
    } else {
      AbandonSeating(s.reg.arena, s.actors, s.log.abandoned, a);
    }
  }

  lemma FinishEndCore(s: Sys, a: ActorId)
    requires Core(s) && IsSeated(s, a) && s.actors[a].pc.EndWaiting? && s.actors[a].pc.ticket in s.answers
    ensures Core(DoFinishEnd(s, a))
  {
    var ref := HoldingOf(s, a).room;
    assert PcOk(s.reg.arena, s.actors[a]);
    EndShape(RoomOf(s, a), "", 0, Token("", None), 0, s.actors[a].pc.guests, s.answers[s.actors[a].pc.ticket]);
    ShutKeeps(RoomOf(s, a), s.actors[a].pc.guests, s.answers[s.actors[a].pc.ticket], 0);
    var s1 := SetRoom(s, ref, EndOutcome(s, a).room);
    ShutCore(s, ref, EndOutcome(s, a).room);
    ForgetSeating(s1.reg.arena, s.actors, s.log.abandoned, a, Idle);
  }

  lemma UnmapCore(s: Sys, ref: RoomRef)
    requires Core(s) && ref < |s.reg.arena|
    ensures Core(s.(reg := UnmapRoom(s.reg, ref)))
  {
  }

  lemma UnmapEndCore(s: Sys, a: ActorId)
    requires Core(s) && IsSeated(s, a) && s.actors[a].pc.EndBegun?
    ensures Core(DoUnmapEnd(s, a))
  {
    var actor' := DoUnmapEnd(s, a).actors[a];
    assert PcOk(s.reg.arena, s.actors[a]);
    PcCore(s, a, actor');
    UnmapCore(SetActor(s, a, actor'), HoldingOf(s, a).room);
  }

  lemma ReleaseEndCore(s: Sys, a: ActorId)
    requires Core(s) && IsSeated(s, a) && s.actors[a].pc.EndUnmapped?
    ensures Core(DoReleaseEnd(s, a))
  {
    assert PcOk(s.reg.arena, s.actors[a]);
    PcCore(s, a, DoReleaseEnd(s, a).actors[a]);
  }

  lemma SendCore(s: Sys, a: ActorId, pc: Pc)
    requires Core(s) && a < |s.actors|
    requires (s.actors[a].pc.EndReleased? && pc.EndWaiting?) || (s.actors[a].pc.LeaveBegun? && pc.LeaveWaiting?)
    ensures Core(DoSend(s, a, pc))
  {
    assert PcOk(s.reg.arena, s.actors[a]);
    PcCore(s, a, s.actors[a].(pc := pc));
  }

  lemma RelayCore(s: Sys, a: ActorId, op: RoomOp)
    requires Core(s) && IsSeated(s, a) && (op.OpTransfer? || op.OpBroadcast? || op.OpSendTo?)
    ensures Core(DoRelay(s, a, op))
  {
    RelayShape(RoomOf(s, a), op);
    StepKeeps(RoomOf(s, a), op);
    QuietCore(s, HoldingOf(s, a).room, Step(RoomOf(s, a), op).room);
  }

  lemma SweepRoomCore(s: Sys, ref: RoomRef, now: Instant)
    requires Core(s) && s.sweep.Sweeping? && ref < |s.reg.arena|
    ensures Core(DoSweepRoom(s, ref, now))
  {
    var r := s.reg.arena[ref];
    SweepShape(r, now, s.sweep.wall);
    PruneKeeps(r, now);
    ShutKeeps(Prune(r, now), {}, true, s.sweep.wall);
    var r' := SweepClose(Prune(r, now), s.sweep.wall).room;
    if IsSwept(r, s.sweep.wall) {
      ShutCore(s, ref, r');
    } else {
      QuietCore(s, ref, r');
    }
  }

  /** A free connection starts looking for a room, or goes away. */
  lemma FreeCore(s: Sys, a: ActorId, pc: Pc)
    requires Core(s) && IsFree(s, a)
               && (pc.Gone? || (pc.Joining? && pc.target < |s.reg.arena| && ValidPeerId(pc.peerId)))
    ensures Core(SetActor(s, a, Actor(None, pc)))
  {
    PcCore(s, a, Actor(None, pc));
  }

  lemma ActCore(s: Sys, a: ActorId, act: Act)
    requires Core(s) && ActEnabled(s, a, act)
    ensures Core(FireAct(s, a, act))
  {
    match act
    case ActCreate(sid, p, token, _, owner, profile, wall) => CreateCore(s, a, sid, p, token, owner, profile, wall);
    case ActFind(sid, p, token, _, profile, resumeOnly) =>
      FreeCore(s, a, Joining(s.reg.table[sid], p, token, profile, resumeOnly));
    case ActJoin(now, wall) => JoinCore(s, a, now, wall);
    case ActBeginLeave(token, version) => BeginLeaveCore(s, a, token, version);
    case ActSendLeave => SendCore(s, a, LeaveWaiting(s.nextTicket));
    case ActFinishLeave(wall) => FinishLeaveCore(s, a, wall);
    case ActBeginEnd(token, version) => BeginEndCore(s, a, token, version);
    case ActUnmapEnd => UnmapEndCore(s, a);
    case ActReleaseEnd => ReleaseEndCore(s, a);
    case ActSendEnd => SendCore(s, a, EndWaiting(s.actors[a].pc.guests, s.nextTicket));
    case ActFinishEnd => FinishEndCore(s, a);
    case ActRelay(op) => RelayCore(s, a, op);
    case ActDisconnect(now, wall) => DisconnectCore(s, a, now, wall);
    case ActHangUp => FreeCore(s, a, Gone);
  }

  lemma SweepCore(s: Sys, act: SweepAct)
    requires Core(s) && SweepEnabled(s, act)
    ensures Core(FireSweep(s, act))
  {
    match act
    case SweepRoom(ref, now) => SweepRoomCore(s, ref, now);
    case SweepUnmap => UnmapCore(s, s.sweep.stage.room);
    case _ =>
  }

  /** The writer never touches the registry or a connection. */
  lemma DiskFrame(s: Sys, act: DiskAct)
    requires DiskEnabled(s, act)
    ensures var s' := FireDisk(s, act);
            s'.reg == s.reg && s'.actors == s.actors && s'.log == s.log && s'.sweep == s.sweep
  {
  }

  /** Every event keeps the core invariant. */
  lemma StepCore(s: Sys, ev: Event)
    requires Core(s)
    ensures Core(Apply(s, ev))
  {
    match ev
    case Connect => ConnectSeating(s.reg.arena, s.actors, s.log.abandoned);
    case Client(a, act) =>
      if ActEnabled(s, a, act) {
        ActCore(s, a, act);
      }
    case Disk(act) =>
      if DiskEnabled(s, act) {
        DiskFrame(s, act);
      }
    case Clean(act) =>
      if SweepEnabled(s, act) {
        SweepCore(s, act);
      }
  }
}
