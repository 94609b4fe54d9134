/** The running relay as a state machine. Connection actors, the snapshot writer and the cleanup sweep
    interleave freely; one event is one section under a room, table, quota or file lock. */
module System {
  import opened Protocol
  import opened HostTransfer
  import opened RoomSpec
  import opened Snapshot
  import opened Writer
  import opened RegistrySpec

  type ActorId = nat

  /** The room, peer id and connection id a connection believes it occupies (current_room,
      current_peer_id and current_conn_id, read only while a room is set). */
  datatype Holding = Holding(room: RoomRef, peerId: PeerId, connId: ConnId)

  /** Where a connection is inside the message it is handling; Idle between messages. */
  datatype Pc =
    | Idle
    | Joining(target: RoomRef, peerId: PeerId, token: Token, profile: Profile, resumeOnly: bool)
    | LeaveBegun
    | LeaveWaiting(ticket: Ticket)
    | EndBegun(guests: set<ConnId>)
    | EndUnmapped(guests: set<ConnId>, removed: bool)
    | EndReleased(guests: set<ConnId>)
    | EndWaiting(guests: set<ConnId>, ticket: Ticket)
    | Gone

  datatype Actor = Actor(current: Option<Holding>, pc: Pc)

  datatype Command = CmdMutate | CmdTerminal(ticket: Ticket) | CmdStop

  /** A record captured from the room object `origin`. */
  datatype Captured = Captured(origin: RoomRef, dto: RoomDto)

  /** The writer between commands, in the middle of build_snapshot, or stopped. */
  datatype Phase = Ready | Capturing(todo: set<RoomRef>, done: seq<Captured>, stopping: bool) | Stopped

  /** The sweep between rooms, having closed one, or having unmapped it with its slot still to release. */
  datatype Stage = Walking | Closed(room: RoomRef) | Unmapped(room: RoomRef)

  datatype Sweeper = Resting | Sweeping(wall: WallTime, todo: set<RoomRef>, stage: Stage)

  /** What has been said or dropped so far: rooms whose end was confirmed, identities whose leave was
      confirmed and that have not joined again, and connections that gave up their seat without
      telling the room because their endSession was refused. */
  datatype Log = Log(ended: set<RoomRef>, released: set<(RoomRef, PeerId)>, abandoned: set<(RoomRef, ConnId)>)

  datatype Sys = Sys(
    reg: Reg,
    actors: seq<Actor>,
    queue: seq<Command>,
    ledger: Ledger,
    phase: Phase,
    answers: map<Ticket, bool>,
    nextTicket: Ticket,
    file: seq<Captured>,
    sweep: Sweeper,
    log: Log
  )

  /** A relay that has just loaded its state file, whatever else the file holds. */
  function Boot(restored: seq<RestoredRoom>, file: seq<Captured>): Sys {
    Sys(RestoreAll(restored), [], [], Ledger(0, 0, []), Ready, map[], 0, file, Resting, Log({}, {}, {}))
  }

  function Done(s: Sys): seq<Captured> {
    if s.phase.Capturing? then s.phase.done else []
  }

  // ---------------------------------------------------------------- building blocks

  function SetRoom(s: Sys, ref: RoomRef, room: Room): Sys
    requires ref < |s.reg.arena|
  {
    s.(reg := s.reg.(arena := s.reg.arena[ref := room]))
  }

  function SetActor(s: Sys, a: ActorId, actor: Actor): Sys
    requires a < |s.actors|
  {
    s.(actors := s.actors[a := actor])
  }

  predicate IsIdle(s: Sys, a: ActorId) {
    a < |s.actors| && s.actors[a].pc.Idle?
  }

  /** An idle connection in no room may create or join one. */
  predicate IsFree(s: Sys, a: ActorId) {
    IsIdle(s, a) && s.actors[a].current.None?
  }

  /** A connection whose handle points at an existing room object. */
  predicate IsSeated(s: Sys, a: ActorId) {
    a < |s.actors| && s.actors[a].current.Some? && s.actors[a].current.value.room < |s.reg.arena|
  }

  function HoldingOf(s: Sys, a: ActorId): Holding
    requires IsSeated(s, a)
  {
    s.actors[a].current.value
  }

  function RoomOf(s: Sys, a: ActorId): Room
    requires IsSeated(s, a)
  {
    s.reg.arena[HoldingOf(s, a).room]
  }

  // ---------------------------------------------------------------- create and join

  function DoCreate(s: Sys, a: ActorId, sid: SessionId, peerId: PeerId, token: Token, owner: IpKey, profile: Profile,
                    wall: WallTime): Sys
    requires IsFree(s, a) && TableWf(s.reg)
  {
    var o := Create(s.reg, sid, peerId, token, owner, profile, wall);
    var s' := s.(reg := o.reg);
    if o.room.Some? && o.effects.assignedConnId.Some?
    then SetActor(s', a, Actor(Some(Holding(o.room.value, peerId, o.effects.assignedConnId.value)), Idle))
    else s'
  }

  predicate IsJoining(s: Sys, a: ActorId) {
    a < |s.actors| && s.actors[a].pc.Joining? && s.actors[a].pc.target < |s.reg.arena|
  }

  function JoinOutcome(s: Sys, a: ActorId, now: Instant, wall: WallTime): Outcome
    requires IsJoining(s, a)
  {
    var pc := s.actors[a].pc;
    JoinOrResume(s.reg.arena[pc.target], pc.peerId, pc.token, pc.profile, pc.resumeOnly, now, wall)
  }

  function DoJoin(s: Sys, a: ActorId, now: Instant, wall: WallTime): Sys
    requires IsJoining(s, a)
  {
    var pc := s.actors[a].pc;
    var o := JoinOutcome(s, a, now, wall);
    if o.effects.assignedConnId.Some? then
      SetRoom(SetActor(s, a, Actor(Some(Holding(pc.target, pc.peerId, o.effects.assignedConnId.value)), Idle)),
          pc.target, o.room)
      .(log := s.log.(released := s.log.released - {(pc.target, pc.peerId)}))
    else SetRoom(SetActor(s, a, s.actors[a].(pc := Idle)), pc.target, o.room)
  }

  // ---------------------------------------------------------------- leave

  function DoBeginLeave(s: Sys, a: ActorId, token: Token, version: nat): Sys
    requires IsSeated(s, a)
  {
    var h := HoldingOf(s, a);
    if MayLeave(RoomOf(s, a), h.peerId, h.connId, token, version)
    then SetRoom(SetActor(s, a, s.actors[a].(pc := LeaveBegun)), h.room,
        BeginLeave(RoomOf(s, a), h.peerId, h.connId, token, version).room)
    else s
  }

  /** Sends the terminal command to the writer's queue. */
  function DoSend(s: Sys, a: ActorId, pc: Pc): Sys
    requires a < |s.actors|
  {
    SetActor(s, a, s.actors[a].(pc := pc)).(queue := s.queue + [CmdTerminal(s.nextTicket)], nextTicket := s.nextTicket
        + 1)
  }

  function LeaveOutcome(s: Sys, a: ActorId, wall: WallTime): Outcome
    requires IsSeated(s, a) && s.actors[a].pc.LeaveWaiting? && s.actors[a].pc.ticket in s.answers
  {
    var h := HoldingOf(s, a);
    FinishLeave(RoomOf(s, a), h.peerId, h.connId, s.answers[s.actors[a].pc.ticket], wall)
  }

  /** Unless the leave failed, the connection forgets its room, also when nothing was left to commit. */
  function ConcludeLeave(s: Sys, a: ActorId, o: Outcome): Sys
    requires IsSeated(s, a)
  {
    var h := HoldingOf(s, a);
    var failed := o.effects.reply.Some? && o.effects.reply.value.Error?;
    var left := o.effects.reply.Some? && o.effects.reply.value.Left?;
    SetRoom(SetActor(s, a, Actor(if failed then s.actors[a].current else None, Idle)), h.room, o.room)
    .(log := s.log.(released := s.log.released + if left then {(h.room, h.peerId)} else {}))
  }

  function DoFinishLeave(s: Sys, a: ActorId, wall: WallTime): Sys
    requires IsSeated(s, a) && s.actors[a].pc.LeaveWaiting? && s.actors[a].pc.ticket in s.answers
  {
    ConcludeLeave(s, a, LeaveOutcome(s, a, wall))
  }

  // ---------------------------------------------------------------- endSession

  /** A refused endSession clears the connection's room although the room still seats it. */
  function DoBeginEnd(s: Sys, a: ActorId, token: Token, version: nat): Sys
    requires IsSeated(s, a)
  {
    var h := HoldingOf(s, a);
    if MayEnd(RoomOf(s, a), h.peerId, h.connId, token, version)
    then SetRoom(SetActor(s, a, s.actors[a].(pc := EndBegun(Others(RoomOf(s, a), h.peerId)))), h.room,
                 BeginEndSession(RoomOf(s, a), h.peerId, h.connId, token, version).room)
    else SetActor(s, a, Actor(None, Idle)).(log := s.log.(abandoned := s.log.abandoned + {(h.room, h.connId)}))
  }

  function DoUnmapEnd(s: Sys, a: ActorId): Sys
    requires IsSeated(s, a) && s.actors[a].pc.EndBegun?
  {
    var ref := HoldingOf(s, a).room;
    SetActor(s, a, s.actors[a].(pc := EndUnmapped(s.actors[a].pc.guests,
        IsCurrent(s.reg, ref)))).(reg := UnmapRoom(s.reg, ref))
  }

  /** The slot is released whether or not the room was still in the table. */
  function DoReleaseEnd(s: Sys, a: ActorId): Sys
    requires IsSeated(s, a) && s.actors[a].pc.EndUnmapped?
  {
    SetActor(s, a, s.actors[a].(pc := EndReleased(s.actors[a].pc.guests))).(reg := ReleaseRoom(s.reg,
        RoomOf(s, a).ownerIpKey))
  }

  function EndOutcome(s: Sys, a: ActorId): Outcome
    requires IsSeated(s, a) && s.actors[a].pc.EndWaiting? && s.actors[a].pc.ticket in s.answers
  {
    FinishEndSession(RoomOf(s, a), s.actors[a].pc.guests, s.answers[s.actors[a].pc.ticket])
  }

  function DoFinishEnd(s: Sys, a: ActorId): Sys
    requires IsSeated(s, a) && s.actors[a].pc.EndWaiting? && s.actors[a].pc.ticket in s.answers
  {
    var ref := HoldingOf(s, a).room;
    SetRoom(SetActor(s, a, Actor(None, Idle)), ref, EndOutcome(s, a).room)
    .(log := s.log.(ended := s.log.ended + if s.answers[s.actors[a].pc.ticket] then {ref} else {}))
  }

  // ---------------------------------------------------------------- relaying and disconnecting

  predicate IsRelay(op: RoomOp, h: Holding) {
    (op.OpTransfer? || op.OpBroadcast? || op.OpSendTo?) && op.peerId == h.peerId && op.connId == h.connId
  }

  function DoRelay(s: Sys, a: ActorId, op: RoomOp): Sys
    requires IsSeated(s, a)
  {
    SetRoom(s, HoldingOf(s, a).room, Step(RoomOf(s, a), op).room)
  }

  function DoDisconnect(s: Sys, a: ActorId, now: Instant, wall: WallTime): Sys
    requires IsSeated(s, a)
  {
    var h := HoldingOf(s, a);
    SetRoom(SetActor(s, a, Actor(None, Gone)), h.room, Disconnect(RoomOf(s, a), h.peerId, h.connId, now, wall).room)
  }

  // ---------------------------------------------------------------- writer

  function Post(answers: map<Ticket, bool>, given: seq<Answer>): map<Ticket, bool> {
    if given == [] then answers
    else Post(answers, given[..|given| - 1])[given[|given| - 1].ticket := given[|given| - 1].ok]
  }

  /** Starts build_snapshot: the room handles are listed under the table lock. */
  function StartCapture(s: Sys, stopping: bool): Sys {
    s.(phase := Capturing(s.reg.table.Values, [], stopping))
  }

  function DoReceive(s: Sys): Sys
    requires s.queue != []
  {
    var rest := s.(queue := s.queue[1..]);
    match s.queue[0]
    case CmdMutate => rest.(ledger := Mutated(s.ledger))
    case CmdTerminal(t) => StartCapture(rest.(ledger := Enlist(s.ledger, t)), false)
    case CmdStop =>
      if s.ledger.dirty > s.ledger.durable then StartCapture(rest, true)
      else
        var r := ResolveWaiters(s.ledger.waiters, s.ledger.durable, true);
        rest.(ledger := s.ledger.(waiters := r.remaining), answers := Post(s.answers, r.answers), phase := Stopped)
  }

  /** One room of build_snapshot, under that room's lock; closing rooms are skipped. */
  function DoCapture(s: Sys, ref: RoomRef, clock: Clock): Sys
    requires s.phase.Capturing? && ref < |s.reg.arena|
  {
    var room := s.reg.arena[ref];
    s.(phase := s.phase.(todo := s.phase.todo - {ref},
                         done := s.phase.done + if room.closing then []
                             else [Captured(ref, BuildRoomDto(room, clock))]))
  }

  /** persist_atomic replaces the file wholly or leaves it, then the waiters are resolved. */
  function DoWrite(s: Sys, ok: bool): Sys
    requires s.phase.Capturing?
  {
    var settled := Settle(s.ledger, ok);
    s.(file := if ok then s.phase.done else s.file,
       ledger := settled.ledger,
       answers := Post(s.answers, settled.answers),
       phase := if s.phase.stopping then Stopped else Ready)
  }

  /** A stopped writer answers nothing: pending requests fail when the channel closes. */
  function DoDrop(s: Sys): Sys
    requires s.queue != []
  {
    s.(queue := s.queue[1..],
       answers := if s.queue[0].CmdTerminal? then s.answers[s.queue[0].ticket := false] else s.answers)
  }

  // ---------------------------------------------------------------- sweep

  function DoSweepRoom(s: Sys, ref: RoomRef, now: Instant): Sys
    requires s.sweep.Sweeping? && ref < |s.reg.arena|
  {
    var room := s.reg.arena[ref];
    SetRoom(s, ref, SweepClose(Prune(room, now), s.sweep.wall).room)
    .(sweep := s.sweep.(todo := s.sweep.todo - {ref}, stage := if IsSwept(room, s.sweep.wall) then Closed(ref)
        else Walking))
  }

  /** The table step of remove_if_current. */
  function DoSweepUnmap(s: Sys): Sys
    requires s.sweep.Sweeping? && s.sweep.stage.Closed? && s.sweep.stage.room < |s.reg.arena|
  {
    var ref := s.sweep.stage.room;
    s.(reg := UnmapRoom(s.reg, ref),
       sweep := s.sweep.(stage := if IsCurrent(s.reg, ref) then Unmapped(ref) else Walking))
  }

  function DoSweepRelease(s: Sys): Sys
    requires s.sweep.Sweeping? && s.sweep.stage.Unmapped? && s.sweep.stage.room < |s.reg.arena|
  {
    s.(reg := ReleaseRoom(s.reg, s.reg.arena[s.sweep.stage.room].ownerIpKey), sweep := s.sweep.(stage := Walking))
  }

  // ---------------------------------------------------------------- events and runs

  /** One step of a connection: a whole short message, or one lock section of a longer one. */
  datatype Act =
    | ActCreate(sid: SessionId, peerId: PeerId, token: Token, version: nat, owner: IpKey, profile: Profile,
        wall: WallTime)
    | ActFind(sid: SessionId, peerId: PeerId, token: Token, version: nat, profile: Profile, resumeOnly: bool)
    | ActJoin(now: Instant, wall: WallTime)
    | ActBeginLeave(token: Token, version: nat)
    | ActSendLeave
    | ActFinishLeave(wall: WallTime)
    | ActBeginEnd(token: Token, version: nat)
    | ActUnmapEnd
    | ActReleaseEnd
    | ActSendEnd
    | ActFinishEnd
    | ActRelay(op: RoomOp)
    | ActDisconnect(now: Instant, wall: WallTime)
    | ActHangUp

  predicate ActEnabled(s: Sys, a: ActorId, act: Act) {
    match act
    case ActCreate(sid, peerId, _, version, owner, _, _) =>
      IsFree(s, a) && TableWf(s.reg) && ValidSessionId(sid) && ValidPeerId(peerId) && SupportedProtocolVersion(version)
          && owner != ""
    case ActFind(sid, peerId, _, version, _, _) =>
      IsFree(s, a) && ValidSessionId(sid) && ValidPeerId(peerId) && SupportedProtocolVersion(version)
          && sid in s.reg.table
    case ActJoin(_, _) => IsJoining(s, a)
    case ActBeginLeave(_, _) => IsIdle(s, a) && IsSeated(s, a)
    case ActSendLeave => a < |s.actors| && s.actors[a].pc.LeaveBegun?
    case ActFinishLeave(_) => IsSeated(s, a) && s.actors[a].pc.LeaveWaiting? && s.actors[a].pc.ticket in s.answers
    case ActBeginEnd(_, _) => IsIdle(s, a) && IsSeated(s, a)
    case ActUnmapEnd => IsSeated(s, a) && s.actors[a].pc.EndBegun?
    case ActReleaseEnd => IsSeated(s, a) && s.actors[a].pc.EndUnmapped?
    case ActSendEnd => a < |s.actors| && s.actors[a].pc.EndReleased?
    case ActFinishEnd => IsSeated(s, a) && s.actors[a].pc.EndWaiting? && s.actors[a].pc.ticket in s.answers
    case ActRelay(op) => IsIdle(s, a) && IsSeated(s, a) && IsRelay(op, HoldingOf(s, a))
    case ActDisconnect(_, _) => IsIdle(s, a) && IsSeated(s, a)
    case ActHangUp => IsFree(s, a)
  }

  function FireAct(s: Sys, a: ActorId, act: Act): Sys
    requires ActEnabled(s, a, act)
  {
    match act
    case ActCreate(sid, peerId, token, _, owner, profile, wall) =>
      DoCreate(s, a, sid, peerId, token, owner, profile, wall)
    case ActFind(sid, peerId, token, _, profile, resumeOnly) =>
      SetActor(s, a, s.actors[a].(pc := Joining(s.reg.table[sid], peerId, token, profile, resumeOnly)))
    case ActJoin(now, wall) => DoJoin(s, a, now, wall)
    case ActBeginLeave(token, version) => DoBeginLeave(s, a, token, version)
    case ActSendLeave => DoSend(s, a, LeaveWaiting(s.nextTicket))
    case ActFinishLeave(wall) => DoFinishLeave(s, a, wall)
    case ActBeginEnd(token, version) => DoBeginEnd(s, a, token, version)
    case ActUnmapEnd => DoUnmapEnd(s, a)
    case ActReleaseEnd => DoReleaseEnd(s, a)
    case ActSendEnd => DoSend(s, a, EndWaiting(s.actors[a].pc.guests, s.nextTicket))
    case ActFinishEnd => DoFinishEnd(s, a)
    case ActRelay(op) => DoRelay(s, a, op)
    case ActDisconnect(now, wall) => DoDisconnect(s, a, now, wall)
    case ActHangUp => SetActor(s, a, Actor(None, Gone))
  }

  /** One step of the snapshot writer, or a command reaching its queue. */
  datatype DiskAct =
    | DiskNotify
    | DiskRequestStop
    | DiskReceive
    | DiskDebounce
    | DiskCapture(ref: RoomRef, clock: Clock)
    | DiskWrite(ok: bool)
    | DiskDrop

  predicate DiskEnabled(s: Sys, act: DiskAct) {
    match act
    case DiskNotify => true
    case DiskRequestStop => true
    case DiskReceive => s.phase.Ready? && s.queue != []
    case DiskDebounce => s.phase.Ready? && s.ledger.dirty > s.ledger.durable
    case DiskCapture(ref, _) => s.phase.Capturing? && ref in s.phase.todo && ref < |s.reg.arena|
    case DiskWrite(_) => s.phase.Capturing? && s.phase.todo == {}
    case DiskDrop => s.phase.Stopped? && s.queue != []
  }

  function FireDisk(s: Sys, act: DiskAct): Sys
    requires DiskEnabled(s, act)
  {
    match act
    case DiskNotify => s.(queue := s.queue + [CmdMutate])
    case DiskRequestStop => s.(queue := s.queue + [CmdStop])
    case DiskReceive => DoReceive(s)
    case DiskDebounce => StartCapture(s, false)
    case DiskCapture(ref, clock) => DoCapture(s, ref, clock)
    case DiskWrite(ok) => DoWrite(s, ok)
    case DiskDrop => DoDrop(s)
  }

  /** One step of the cleanup sweep. */
  datatype SweepAct =
    | SweepStart(wall: WallTime)
    | SweepRoom(ref: RoomRef, now: Instant)
    | SweepUnmap
    | SweepRelease
    | SweepEnd

  predicate SweepEnabled(s: Sys, act: SweepAct) {
    match act
    case SweepStart(_) => s.sweep.Resting?
    case SweepRoom(ref, _) => s.sweep.Sweeping? && s.sweep.stage.Walking? && ref in s.sweep.todo && ref < |s.reg.arena|
    case SweepUnmap => s.sweep.Sweeping? && s.sweep.stage.Closed? && s.sweep.stage.room < |s.reg.arena|
    case SweepRelease => s.sweep.Sweeping? && s.sweep.stage.Unmapped? && s.sweep.stage.room < |s.reg.arena|
    case SweepEnd => s.sweep.Sweeping? && s.sweep.stage.Walking? && s.sweep.todo == {}
  }

  function FireSweep(s: Sys, act: SweepAct): Sys
    requires SweepEnabled(s, act)
  {
    match act
    case SweepStart(wall) => s.(sweep := Sweeping(wall, s.reg.table.Values, Walking))
    case SweepRoom(ref, now) => DoSweepRoom(s, ref, now)
    case SweepUnmap => DoSweepUnmap(s)
    case SweepRelease => DoSweepRelease(s)
    case SweepEnd => s.(sweep := Resting)
  }

  datatype Event =
    | Connect
    | Client(a: ActorId, act: Act)
    | Disk(disk: DiskAct)
    | Clean(clean: SweepAct)

  /** An event that is not enabled does nothing. */
  function Apply(s: Sys, ev: Event): Sys {
    match ev
    case Connect => s.(actors := s.actors + [Actor(None, Idle)])
    case Client(a, act) => if ActEnabled(s, a, act) then FireAct(s, a, act) else s
    case Disk(act) => if DiskEnabled(s, act) then FireDisk(s, act) else s
    case Clean(act) => if SweepEnabled(s, act) then FireSweep(s, act) else s
  }

  function Exec(s: Sys, evs: seq<Event>): Sys
    decreases |evs|
  {
    if evs == [] then s else Apply(Exec(s, evs[..|evs| - 1]), evs[|evs| - 1])
  }
}
