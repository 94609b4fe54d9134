/** Who is told what. The waves of an operation are read off connection by connection: a relayed message
    reaches exactly the connections it is for, an ended session all its guests, and a connection is
    dropped exactly when it is replaced or its room is torn down. */
module Delivery {
  import opened Protocol
  import opened RoomSpec
  import opened RoomInvariant

  /** The messages the waves promise connection `c`, in order. */
  function Promised(waves: seq<Wave>, c: ConnId): seq<ServerMessage> {
    if waves == [] then []
    else
      var last := waves[|waves| - 1];
      Promised(waves[..|waves| - 1], c) + if c in last.to then [last.msg] else []
  }

  lemma {:induction false} PromisedConcat(a: seq<Wave>, b: seq<Wave>, c: ConnId)
    ensures Promised(a + b, c) == Promised(a, c) + Promised(b, c)
    decreases |b|
  {
    if b == [] {
      assert a + b == a;
    } else {
      assert (a + b)[..|a + b| - 1] == a + b[..|b| - 1];
      PromisedConcat(a, b[..|b| - 1], c);
    }
  }

  lemma OneWavePromise(wave: Wave, c: ConnId)
    ensures Promised([wave], c) == if c in wave.to then [wave.msg] else []
  {
    assert Promised([wave][..0], c) == [];
  }

  /** Connection `c` belongs to a peer of the room other than `p`. */
  predicate IsOther(r: Room, p: PeerId, c: ConnId) {
    exists q :: q in r.peers && q != p && r.peers[q].connId == c
  }

  lemma OthersAreOther(r: Room, p: PeerId, c: ConnId)
    ensures c in Others(r, p) <==> IsOther(r, p, c)
  {
  }

  // ---------------------------------------------------------------- relayed messages

  /** A broadcast by the occupant of a live room reaches every other occupant once, and nobody else. */
  lemma BroadcastReaches(r: Room, sender: PeerId, connId: ConnId, payload: string, wall: WallTime, c: ConnId)
    requires Occupies(r, sender, connId) && !r.closing
    ensures var e := Step(r, OpBroadcast(sender, connId, payload, wall)).effects;
            && Promised(e.broadcast, c) == (if IsOther(r, sender, c) then [Message(sender, payload)] else [])
            && e.reply == None && e.evict == {}
  {
    OthersAreOther(r, sender, c);
    OneWavePromise(Wave(Others(r, sender), Message(sender, payload)), c);
  }

  /** Peer by peer: the sender gets nothing back, everybody else the message. */
  lemma BroadcastReachesPeers(r: Room, sender: PeerId, connId: ConnId, payload: string, wall: WallTime, p: PeerId)
    requires DistinctConnections(r) && Occupies(r, sender, connId) && !r.closing && p in r.peers
    ensures Promised(Step(r, OpBroadcast(sender, connId, payload, wall)).effects.broadcast, r.peers[p].connId)
            == if p == sender then [] else [Message(sender, payload)]
  {
    BroadcastReaches(r, sender, connId, payload, wall, r.peers[p].connId);
  }

  /** A directed message reaches its target's connection only; without a target the sender is told so. */
  lemma SendToReaches(r: Room, sender: PeerId, connId: ConnId, target: PeerId, payload: string, wall: WallTime,
                      c: ConnId)
    requires Occupies(r, sender, connId) && !r.closing
    ensures var e := Step(r, OpSendTo(sender, connId, target, payload, wall)).effects;
            && Promised(e.broadcast, c)
               == (if target in r.peers && r.peers[target].connId == c then [Message(sender, payload)] else [])
            && e.reply == (if target in r.peers then None else Some(Error(NotInRoom)))
            && e.evict == {}
  {
    if target in r.peers {
      OneWavePromise(Wave({r.peers[target].connId}, Message(sender, payload)), c);
    }
  }

  // ---------------------------------------------------------------- the end of a session

  /** Whatever happened to the closing room meanwhile, a persisted end tells every guest that was connected
      when it began `ended` once, the host by its reply, nobody else, and drops whoever is still connected;
      a failed one drops them without a word. */
  lemma EndReaches(r: Room, host: PeerId, connId: ConnId, token: Token, ops: seq<RoomOp>, persisted: bool, c: ConnId)
    requires Occupies(r, host, connId) && Step(r, OpBeginEnd(host, connId, token, RELAY_PROTOCOL_VERSION)).room.closing
    ensures var r1 := Run(Step(r, OpBeginEnd(host, connId, token, RELAY_PROTOCOL_VERSION)).room, ops);
            var e := Step(r1, OpFinishEnd(Others(r, host), persisted)).effects;
            && Promised(e.broadcast, c) == (if persisted && IsOther(r, host, c) then [Ended(r1.sessionId)] else [])
            && e.reply == Some(if persisted then Ended(r1.sessionId) else Error(InvalidMessage))
            && (c in e.evict <==> exists q :: q in r1.peers && r1.peers[q].connId == c)
  {
    var begun := Step(r, OpBeginEnd(host, connId, token, RELAY_PROTOCOL_VERSION)).room;
    var r1 := Run(begun, ops);
    ClosingForever(begun, ops);
    OthersAreOther(r, host, c);
    OneWavePromise(Wave(Others(r, host), Ended(r1.sessionId)), c);
  }

  // ---------------------------------------------------------------- evictions

  /** The connection an admission of `p` replaces. */
  function Replaced(r: Room, p: PeerId): set<ConnId> {
    if p in r.peers then {r.peers[p].connId} else {}
  }

  /** Who `op` admits, if it admits. */
  function Applicant(r: Room, op: RoomOp): PeerId {
    match op
    case OpReturn(_, _, _) => r.hostPeerId
    case OpJoin(p, _, _, _, _, _) => p
    case _ => ""
  }

  /** `op` tears the room down: an end of session, or a sweep of a room past its age. */
  predicate TearsDown(r: Room, op: RoomOp) {
    (op.OpFinishEnd? && r.closing) || (op.OpSweepClose? && op.wall > r.createdAt + 24 * 60 * 60 * NANOS_PER_SECOND)
  }

  /** Exactly these are dropped: the connection an admission replaces, and everybody when the room is torn
      down. No other operation drops anybody. */
  lemma EvictionIsExact(r: Room, op: RoomOp, c: ConnId)
    ensures c in Step(r, op).effects.evict <==>
              || (Step(r, op).effects.assignedConnId.Some? && c in Replaced(r, Applicant(r, op)))
              || (TearsDown(r, op) && exists q :: q in r.peers && r.peers[q].connId == c)
  {
  }

  // ---------------------------------------------------------------- what the snapshot writer hears of

  lemma AdmissionIsReported(r: Room, op: RoomOp)
    requires DistinctConnections(r) && (op.OpJoin? || op.OpReturn?)
    ensures Step(r, op).effects.dirty <==> Step(r, op).room.peers != r.peers
    ensures Step(r, op).room.hostPeerId == r.hostPeerId
  {
    if Step(r, op).effects.assignedConnId.Some? {
      assert Step(r, op).room.peers[Applicant(r, op)].connId == r.nextConnId;
    }
  }

  lemma SweepIsReported(r: Room, wall: WallTime)
    ensures Step(r, OpSweepClose(wall)).effects.dirty <==>
              || wall > r.createdAt + 24 * 60 * 60 * NANOS_PER_SECOND
              || (r.peers == map[] && wall > r.lastActivityAt + 5 * 60 * NANOS_PER_SECOND)
  {
  }

  lemma MovesAreReported(r: Room, op: RoomOp)
    requires !op.OpJoin? && !op.OpReturn? && !op.OpSweepClose? && !op.OpFinishEnd?
    ensures Step(r, op).effects.dirty <==>
              Step(r, op).room.peers != r.peers || Step(r, op).room.hostPeerId != r.hostPeerId
  {
    match op
    case OpBeginLeave(_, _, _, _) =>
    case OpFinishLeave(_, _, _, _) =>
    case OpBeginEnd(_, _, _, _) =>
    case OpTransfer(_, _, _, _) =>
    case OpDisconnect(_, _, _, _) =>
    case _ =>
  }

  /** An operation reports a change to be saved exactly when it seats or unseats somebody or changes the host,
      the end of a session aside, which waits for its own persist; or when the sweep removes the room. */
  lemma ChangesAreReported(r: Room, op: RoomOp)
    requires DistinctConnections(r)
    ensures var o := Step(r, op);
            o.effects.dirty <==>
              if op.OpFinishEnd? then false
              else if op.OpSweepClose? then
                || op.wall > r.createdAt + 24 * 60 * 60 * NANOS_PER_SECOND
                || (r.peers == map[] && op.wall > r.lastActivityAt + 5 * 60 * NANOS_PER_SECOND)
              else o.room.peers != r.peers || o.room.hostPeerId != r.hostPeerId
  {
    match op
    case OpJoin(_, _, _, _, _, _) => AdmissionIsReported(r, op);
    case OpReturn(_, _, _) => AdmissionIsReported(r, op);
    case OpSweepClose(wall) => SweepIsReported(r, wall);
    case OpFinishEnd(_, _) =>
    case _ => MovesAreReported(r, op);
  }
}
