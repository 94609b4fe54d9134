/** Every event keeps the durability invariant. */
module StepDurability {
  import opened Protocol
  import opened HostTransfer
  import opened RoomSpec
  import opened RoomInvariant
  import opened RegistrySpec
  import opened System
  import opened Seats
  import opened CoreInvariant
  import opened Moves
  import opened Durability
  import opened Answers

  lemma ReturnDurable(s: Sys, a: ActorId, ref: RoomRef, token: Token, profile: Profile)
    requires Core(s) && Durable(s) && IsFree(s, a) && ref < |s.reg.arena| && !s.reg.arena[ref].closing
    ensures Durable(Returned(s, a, ref, token, profile))
  {
    ReturnMoves(s, a, ref, token, profile);
    MovedDurable(s, Returned(s, a, ref, token, profile), a, ref, {});
  }

  lemma ClearedDurable(s: Sys, sid: SessionId)
    requires Core(s) && Durable(s)
    ensures Core(Cleared(s, sid)) && Durable(Cleared(s, sid))
  {
    if Cleared(s, sid) != s {
      VacateCore(s, sid);
      VacateMoves(s, sid);
      MovedDurable(s, Cleared(s, sid), |s.actors|, s.reg.table[sid], {});
    }
  }

  lemma InsertedDurable(s: Sys, a: ActorId, sid: SessionId, p: PeerId, room: Room, owner: IpKey)
    requires Core(s) && Durable(s) && IsFree(s, a)
    ensures Durable(Inserted(s, a, sid, p, room, owner))
  {
    forall b: ActorId | b < |s.actors| && (s.actors[b].pc.LeaveWaiting? || s.actors[b].pc.EndWaiting?)
        ensures IsSeated(s, b) {
      assert PcOk(s.reg.arena, s.actors[b]);
    }
    GrowDurable(s, Inserted(s, a, sid, p, room, owner));
  }

  lemma CreateDurable(s: Sys, a: ActorId, sid: SessionId, p: PeerId, token: Token, owner: IpKey, profile: Profile,
                      wall: WallTime)
    requires Core(s) && Durable(s) && IsFree(s, a)
    ensures Durable(DoCreate(s, a, sid, p, token, owner, profile, wall))
  {
    CreateCases(s, a, sid, p, token, owner, profile, wall);
    ClearedDurable(s, sid);
    if IsReturn(s, sid, p, token) {
      ReturnDurable(s, a, s.reg.table[sid], token, profile);
    } else if token.verifier.Some? {
      InsertedDurable(Cleared(s, sid), a, sid, p, NewRoom(sid, p, token.verifier.value, token, owner, profile,
          wall).room, owner);
    }
  }

  lemma JoinDurable(s: Sys, a: ActorId, now: Instant, wall: WallTime)
    requires Core(s) && Durable(s) && IsJoining(s, a)
    ensures Durable(DoJoin(s, a, now, wall))
  {
    JoinMoves(s, a, now, wall);
    MovedDurable(s, DoJoin(s, a, now, wall), a, s.actors[a].pc.target,
                 if JoinOutcome(s, a, now, wall).effects.assignedConnId.Some? then {s.actors[a].pc.peerId} else {});
  }

  /** One more confirmed leave or end, true of the disk, may be logged. */
  lemma LogGrows(s: Sys, released: set<(RoomRef, PeerId)>, ended: set<RoomRef>)
    requires Durable(s)
    requires forall k :: k in released ==> PeerGone(s, k.0, k.1)
    requires forall x :: x in ended ==> RoomGone(s, x)
    ensures Durable(s.(log := s.log.(released := s.log.released + released, ended := s.log.ended + ended)))
  {
    var s' := s.(log := s.log.(released := s.log.released + released, ended := s.log.ended + ended));
    forall b: ActorId | InFlight(s', b)
        ensures LeaveClean(s', s'.actors[b].pc.ticket, HoldingOf(s', b).room, HoldingOf(s', b).peerId) {
      assert InFlight(s, b);
    }
    forall b: ActorId | IsSeated(s', b) && s'.actors[b].pc.EndWaiting?
        ensures EndClean(s', s'.actors[b].pc.ticket, HoldingOf(s', b).room) {
      assert IsSeated(s, b);
    }
    forall k | k in s'.log.released ensures PeerGone(s', k.0, k.1) {
      assert PeerGone(s, k.0, k.1);
    }
    forall x | x in s'.log.ended ensures RoomGone(s', x) {
      assert RoomGone(s, x);
    }
  }

  lemma LeftIsGone(s: Sys, s1: Sys, a: ActorId, o: Outcome)
    requires Core(s) && Durable(s) && IsSeated(s, a) && s.actors[a].pc.LeaveWaiting?
               && s.actors[a].pc.ticket in s.answers
    requires LeaveEnds(RoomOf(s, a), o, HoldingOf(s, a).peerId, HoldingOf(s, a).connId,
               s.answers[s.actors[a].pc.ticket])
    requires o.effects.reply.Some? && o.effects.reply.value.Left?
    requires SameDisk(s, s1) && s1.reg.arena == s.reg.arena[HoldingOf(s, a).room := o.room]
    ensures PeerGone(s1, HoldingOf(s, a).room, HoldingOf(s, a).peerId)
    ensures NoMention(s.file, HoldingOf(s, a).room, HoldingOf(s, a).peerId)
  {
    assert InFlight(s, a);
    assert LeaveClean(s, s.actors[a].pc.ticket, HoldingOf(s, a).room, HoldingOf(s, a).peerId);
    assert RoomInv(RoomOf(s, a));
  }

  /** The committed leave: the file and any capture under way are already free of the identity. */
  lemma ConcludeLeaveDurable(s: Sys, a: ActorId, o: Outcome)
    requires Core(s) && Durable(s) && IsSeated(s, a) && s.actors[a].pc.LeaveWaiting?
               && s.actors[a].pc.ticket in s.answers
    requires LeaveEnds(RoomOf(s, a), o, HoldingOf(s, a).peerId, HoldingOf(s, a).connId,
               s.answers[s.actors[a].pc.ticket])
    ensures Durable(ConcludeLeave(s, a, o))
    ensures o.effects.reply.Some? && o.effects.reply.value.Left? ==>
              NoMention(s.file, HoldingOf(s, a).room, HoldingOf(s, a).peerId)
  {
    var h := HoldingOf(s, a);
    var s' := ConcludeLeave(s, a, o);
    var s1 := s'.(log := s.log);
    ConcludeLeaveMoves(s, a, o, s.answers[s.actors[a].pc.ticket]);
    MovedDurable(s, s1, a, h.room, {});
    var left := o.effects.reply.Some? && o.effects.reply.value.Left?;
    if left {
      LeftIsGone(s, s1, a, o);
    }
    LogGrows(s1, if left then {(h.room, h.peerId)} else {}, {});
    assert s' == s1.(log := s1.log.(released := s1.log.released + (if left then {(h.room, h.peerId)} else {}),
        ended := s1.log.ended + {}));
  }

  lemma FinishLeaveDurable(s: Sys, a: ActorId, wall: WallTime)
    requires Core(s) && Durable(s) && IsSeated(s, a) && s.actors[a].pc.LeaveWaiting?
               && s.actors[a].pc.ticket in s.answers
    ensures Durable(DoFinishLeave(s, a, wall))
    ensures var reply := LeaveOutcome(s, a, wall).effects.reply;
            reply.Some? && reply.value.Left? ==> NoMention(s.file, HoldingOf(s, a).room, HoldingOf(s, a).peerId)
  {
    FinishLeaveShape(RoomOf(s, a), HoldingOf(s, a).peerId, HoldingOf(s, a).connId, s.answers[s.actors[a].pc.ticket],
        wall);
    ConcludeLeaveDurable(s, a, LeaveOutcome(s, a, wall));
  }

  lemma FinishEndDurable(s: Sys, a: ActorId)
    requires Core(s) && Durable(s) && IsSeated(s, a) && s.actors[a].pc.EndWaiting? && s.actors[a].pc.ticket in s.answers
    ensures Durable(DoFinishEnd(s, a))
    ensures s.answers[s.actors[a].pc.ticket] ==> NoRecord(s.file, HoldingOf(s, a).room)
  {
    var ref := HoldingOf(s, a).room;
    var s' := DoFinishEnd(s, a);
    var s1 := s'.(log := s.log);
    FinishEndMoves(s, a);
    MovedDurable(s, s1, a, ref, {});
    assert PcOk(s.reg.arena, s.actors[a]);
    assert EndClean(s, s.actors[a].pc.ticket, ref);
    var ended := if s.answers[s.actors[a].pc.ticket] then {ref} else {};
    LogGrows(s1, {}, ended);
    assert s' == s1.(log := s1.log.(released := s1.log.released + {}, ended := s1.log.ended + ended));
  }

  /** Only the command queue or the sweep's own progress changes. */
  lemma AsideDurable(s: Sys, s': Sys)
    requires Durable(s) && SameDisk(s, s') && s'.reg == s.reg && s'.actors == s.actors && s'.log == s.log
               && s'.nextTicket == s.nextTicket
    requires s'.queue == s.queue || s'.queue == s.queue + [CmdMutate] || s'.queue == s.queue + [CmdStop]
    ensures Durable(s')
  {
    forall b: ActorId | InFlight(s, b)
        ensures LeaveClean(s', s.actors[b].pc.ticket, HoldingOf(s, b).room, HoldingOf(s, b).peerId) {
      assert LeaveClean(s, s.actors[b].pc.ticket, HoldingOf(s, b).room, HoldingOf(s, b).peerId);
    }
    forall b: ActorId | IsSeated(s, b) && s.actors[b].pc.EndWaiting?
        ensures EndClean(s', s.actors[b].pc.ticket, HoldingOf(s, b).room) {
      assert EndClean(s, s.actors[b].pc.ticket, HoldingOf(s, b).room);
    }
    forall x | x in s.log.ended ensures RoomGone(s', x) {
      assert RoomGone(s, x);
    }
    forall k | k in s.log.released ensures PeerGone(s', k.0, k.1) {
      assert PeerGone(s, k.0, k.1);
    }
    DiskDurable(s, s');
  }

  lemma DiskStepDurable(s: Sys, act: DiskAct)
    requires Core(s) && Durable(s) && WriterInv(s) && DiskEnabled(s, act)
    ensures Durable(FireDisk(s, act))
  {
    match act
    case DiskReceive => ReceiveDurable(s);
    case DiskDebounce => IdleWriterDurable(s, StartCapture(s, false));
    case DiskCapture(ref, clock) => CaptureDurable(s, ref, clock);
    case DiskWrite(ok) => WriteDurable(s, ok);
    case DiskDrop => DropDurable(s);
    case _ => AsideDurable(s, FireDisk(s, act));
  }

  lemma SweepStepDurable(s: Sys, act: SweepAct)
    requires Core(s) && Durable(s) && SweepEnabled(s, act)
    ensures Durable(FireSweep(s, act))
  {
    match act
    case SweepRoom(ref, now) =>
      SweepMoves(s, ref, now);
      MovedDurable(s, DoSweepRoom(s, ref, now), |s.actors|, ref, {});
    case _ => GrowDurable(s, FireSweep(s, act));
  }

  /** Moves that neither admit nor confirm anything. */
  lemma MoveDurable(s: Sys, a: ActorId, act: Act)
    requires Core(s) && Durable(s) && IsMove(act) && ActEnabled(s, a, act)
    requires !act.ActJoin? && !act.ActFinishLeave? && !act.ActFinishEnd?
    ensures Durable(FireAct(s, a, act))
  {
    ActMoves(s, a, act);
    MoveFrame(s, a, act);
    MoveLog(s, a, act);
    MovedDurable(s, FireAct(s, a, act), a, MovedRoom(s, a, act), {});
  }

  lemma ActDurable(s: Sys, a: ActorId, act: Act)
    requires Core(s) && Durable(s) && ActEnabled(s, a, act)
    ensures Durable(FireAct(s, a, act))
  {
    match act
    case ActCreate(sid, p, token, _, owner, profile, wall) => CreateDurable(s, a, sid, p, token, owner, profile, wall);
    case ActJoin(now, wall) => JoinDurable(s, a, now, wall);
    case ActSendLeave => SendDurable(s, a, LeaveWaiting(s.nextTicket));
    case ActFinishLeave(wall) => FinishLeaveDurable(s, a, wall);
    case ActSendEnd => SendDurable(s, a, EndWaiting(s.actors[a].pc.guests, s.nextTicket));
    case ActFinishEnd => FinishEndDurable(s, a);
    case ActBeginLeave(_, _) => MoveDurable(s, a, act);
    case ActBeginEnd(_, _) => MoveDurable(s, a, act);
    case ActRelay(_) => MoveDurable(s, a, act);
    case ActDisconnect(_, _) => MoveDurable(s, a, act);
    case _ => AsideStepDurable(s, a, act);
  }

  lemma AsideStepDurable(s: Sys, a: ActorId, act: Act)
    requires Durable(s) && IsAside(act) && ActEnabled(s, a, act)
    ensures Durable(FireAct(s, a, act))
  {
    AsideFrame(s, a, act);
    GrowDurable(s, FireAct(s, a, act));
  }

  lemma StepDurable(s: Sys, ev: Event)
    requires Core(s) && Durable(s) && WriterInv(s)
    ensures Durable(Apply(s, ev))
  {
    match ev
    case Connect => GrowDurable(s, Apply(s, ev));
    case Client(a, act) =>
      if ActEnabled(s, a, act) {
        ActDurable(s, a, act);
      }
    case Disk(act) =>
      if DiskEnabled(s, act) {
        DiskStepDurable(s, act);
      }
    case Clean(act) =>
      if SweepEnabled(s, act) {
        SweepStepDurable(s, act);
      }
  }
}
