/** The room as the mutable object the relay locks (src/room.rs). Each method changes the fields step
    by step and pushes one outbound copy per recipient; its contract is the operation of the same
    name on values in RoomSpec. */
module RoomMachine {
  import opened Protocol
  import opened HostTransfer
  import opened RoomSpec
  import opened RoomInvariant
  import opened Delivery

  datatype Outbound = Outbound(to: ConnId, msg: ServerMessage)

  datatype Emission = Emission(
    reply: Option<ServerMessage>,
    broadcast: seq<Outbound>,
    evict: set<ConnId>,
    dirty: bool,
    assignedConnId: Option<ConnId>
  )

  const SILENCE: Emission := Emission(None, [], {}, false, None)

  function ErrorReply(code: ErrorCode): Emission {
    SILENCE.(reply := Some(Error(code)))
  }

  /** The messages queued for connection `c`, in order. */
  function Received(out: seq<Outbound>, c: ConnId): seq<ServerMessage> {
    if out == [] then []
    else
      var last := out[|out| - 1];
      Received(out[..|out| - 1], c) + if last.to == c then [last.msg] else []
  }

  /** `e` carries out `f`: every connection is sent exactly what was promised, in that order. */
  ghost predicate Realizes(e: Emission, f: Effects) {
    && e.reply == f.reply
    && e.evict == f.evict
    && e.dirty == f.dirty
    && e.assignedConnId == f.assignedConnId
    && forall c :: Received(e.broadcast, c) == Promised(f.broadcast, c)
  }

  ghost predicate Extends(out: seq<Outbound>, out': seq<Outbound>, waves: seq<Wave>) {
    forall c :: Received(out', c) == Received(out, c) + Promised(waves, c)
  }

  lemma ReceivedPush(out: seq<Outbound>, o: Outbound, c: ConnId)
    ensures Received(out + [o], c) == Received(out, c) + if o.to == c then [o.msg] else []
  {
    assert (out + [o])[..|out|] == out;
  }

  /** Two pushes in a row realize the two waves in a row. */
  lemma ExtendsTwice(out: seq<Outbound>, mid: seq<Outbound>, out': seq<Outbound>, a: seq<Wave>, b: seq<Wave>)
    requires Extends(out, mid, a) && Extends(mid, out', b)
    ensures Extends(out, out', a + b)
  {
    forall c ensures Received(out', c) == Received(out, c) + Promised(a + b, c) {
      PromisedConcat(a, b, c);
    }
  }

  /** A restriction of a map that keeps its size is the whole map. */
  lemma SizeTellsWhetherKept(kept: map<PeerId, PeerReservation>, all: map<PeerId, PeerReservation>)
    requires kept.Keys <= all.Keys && forall p :: p in kept ==> kept[p] == all[p]
    ensures |kept| == |all| <==> kept == all
  {
    assert all.Keys == kept.Keys + (all.Keys - kept.Keys);
    if |kept| == |all| {
      assert all.Keys - kept.Keys == {};
    }
  }

  /** `kept` is what pruning keeps of the reservations outside `todo`. */
  ghost predicate Sifted(r: Room, now: Instant, todo: set<PeerId>, kept: map<PeerId, PeerReservation>) {
    && (forall p :: p in kept <==> p in r.reservations && p !in todo && Retained(r, p, now))
    && (forall p :: p in kept ==> kept[p] == r.reservations[p])
  }

  lemma SiftOne(r: Room, now: Instant, todo: set<PeerId>, kept: map<PeerId, PeerReservation>, id: PeerId)
    requires Sifted(r, now, todo, kept) && id in todo && id in r.reservations
    ensures Sifted(r, now, todo - {id}, if Retained(r, id, now) then kept[id := r.reservations[id]] else kept)
  {
  }

  lemma SiftAll(r: Room, now: Instant, kept: map<PeerId, PeerReservation>)
    requires Sifted(r, now, {}, kept)
    ensures kept == Prune(r, now).reservations
  {
  }

  class RoomState {
    const sessionId: SessionId
    const ownerIpKey: IpKey
    const createdAt: WallTime
    var hostPeerId: PeerId
    var hostVerifier: Verifier
    var peers: map<PeerId, ConnectedPeer>
    var reservations: map<PeerId, PeerReservation>
    var lastActivityAt: WallTime
    var closing: bool
    var nextConnId: ConnId

    ghost function Value(): Room
      reads this
    {
      Room(sessionId, hostPeerId, hostVerifier, peers, reservations, ownerIpKey, createdAt, lastActivityAt, closing,
          nextConnId)
    }

    /** Connection ids tell entries apart; every method keeps this. */
    ghost predicate Valid()
      reads this
    {
      DistinctConnections(Value())
    }

    constructor (r: Room)
      requires DistinctConnections(r)
      ensures Valid() && Value() == r
    {
      sessionId, ownerIpKey, createdAt := r.sessionId, r.ownerIpKey, r.createdAt;
      hostPeerId, hostVerifier := r.hostPeerId, r.hostVerifier;
      peers, reservations := r.peers, r.reservations;
      lastActivityAt, closing, nextConnId := r.lastActivityAt, r.closing, r.nextConnId;
    }

    static method NewRoom(sessionId: SessionId, hostPeerId: PeerId, hostVerifier: Verifier, token: Token,
                          ownerIpKey: IpKey, profile: Profile, wall: WallTime)
      returns (room: RoomState, e: Emission)
      ensures fresh(room) && room.Valid()
      ensures var o := RoomSpec.NewRoom(sessionId, hostPeerId, hostVerifier, token, ownerIpKey, profile, wall);
              room.Value() == o.room && Realizes(e, o.effects)
    {
      var connId := 1;
      var peers: map<PeerId, ConnectedPeer> := map[];
      peers := peers[hostPeerId := ConnectedPeer(profile, connId)];
      room := new RoomState(Room(sessionId, hostPeerId, hostVerifier, peers, map[], ownerIpKey, wall, wall, false,
          connId + 1));
      var out := room.AppendEligibility([]);
      e := Emission(Some(Created(sessionId, hostPeerId, token, None)), out, {}, true, Some(connId));
    }

    /** Queues `msg` for the entries of `ids`, in whatever order the map yields them. */
    method Push(ids: set<PeerId>, msg: ServerMessage, out: seq<Outbound>) returns (out': seq<Outbound>)
      requires Valid() && ids <= peers.Keys
      ensures Extends(out, out', [Wave(Connections(Value(), ids), msg)])
    {
      out' := out;
      var todo := ids;
      while todo != {}
        invariant todo <= ids
        invariant forall c :: Received(out', c) == Received(out, c) + if c in Connections(Value(), ids - todo)
            then [msg] else []
        decreases |todo|
      {
        var id :| id in todo;
        ghost var before, done := out', ids - todo;
        out' := out' + [Outbound(peers[id].connId, msg)];
        todo := todo - {id};
        forall c ensures Received(out', c) == Received(out, c) + if c in Connections(Value(), ids - todo) then [msg]
            else [] {
          ReceivedPush(before, Outbound(peers[id].connId, msg), c);
          assert ids - todo == done + {id};
          assert c in Connections(Value(), done + {id}) <==> c in Connections(Value(), done) || c == peers[id].connId;
          assert peers[id].connId !in Connections(Value(), done);
        }
      }
      assert ids - todo == ids;
      forall c ensures Received(out', c) == Received(out, c) + Promised([Wave(Connections(Value(), ids), msg)], c) {
        OneWavePromise(Wave(Connections(Value(), ids), msg), c);
      }
    }

    method BroadcastExcept(exclude: PeerId, msg: ServerMessage, out: seq<Outbound>) returns (out': seq<Outbound>)
      requires Valid()
      ensures Extends(out, out', [Wave(Others(Value(), exclude), msg)])
    {
      out' := Push(peers.Keys - {exclude}, msg, out);
    }

    method BroadcastAll(msg: ServerMessage, out: seq<Outbound>) returns (out': seq<Outbound>)
      requires Valid()
      ensures Extends(out, out', [Wave(Everyone(Value()), msg)])
    {
      out' := Push(peers.Keys, msg, out);
    }

    method PeerInfos() returns (infos: seq<PeerInfo>)
      ensures Lists(infos, RosterOf(Value()))
    {
      infos := [];
      var todo := peers.Keys;
      while todo != {}
        invariant todo <= peers.Keys
        invariant forall i :: 0 <= i < |infos| ==>
            infos[i].peerId in peers.Keys - todo && infos[i].profile == peers[infos[i].peerId].profile
        invariant forall p :: p in peers.Keys - todo ==> PeerInfo(p, peers[p].profile) in infos
        invariant forall i, j :: 0 <= i < j < |infos| ==> infos[i].peerId != infos[j].peerId
        decreases |todo|
      {
        var id :| id in todo;
        infos := infos + [PeerInfo(id, peers[id].profile)];
        todo := todo - {id};
      }
    }

    method AppendEligibility(out: seq<Outbound>) returns (out': seq<Outbound>)
      requires Valid()
      ensures Extends(out, out', EligibilityNotice(Value()))
    {
      var infos := PeerInfos();
      var reserved := set p | p in reservations && !reservations[p].releasePending;
      NoticeIgnoresOrder(hostPeerId, infos, RosterOf(Value()), reserved);
      var notice := ComputeEligibility(hostPeerId, infos, reserved);
      if notice.None? {
        out' := out;
      } else {
        var (recipients, targets) := notice.value;
        out' := Push((set p | p in recipients), HostTransferEligibility(sessionId, hostPeerId, (set p | p in targets)),
            out);
      }
    }

    method Admit(peerId: PeerId, profile: Profile) returns (connId: ConnId, replaced: set<ConnId>)
      requires Valid()
      modifies this
      ensures Valid() && Value() == RoomSpec.Admit(old(Value()), peerId, profile)
      ensures connId == old(nextConnId) && replaced == Evicted(old(Value()), peerId)
    {
      connId := nextConnId;
      nextConnId := nextConnId + 1;
      replaced := if peerId in peers then {peers[peerId].connId} else {};
      peers := peers[peerId := ConnectedPeer(profile, connId)];
    }

    method ReconnectHost(profile: Profile, token: Token) returns (e: Emission)
      requires Valid()
      modifies this
      ensures Valid()
      ensures var o := RoomSpec.ReconnectHost(old(Value()), profile, token); Value() == o.room && Realizes(e, o.effects)
    {
      var wasAbsent := hostPeerId !in peers;
      var connId, evict := Admit(hostPeerId, profile);
      var out: seq<Outbound> := [];
      if wasAbsent {
        out := BroadcastExcept(hostPeerId, PeerJoined(hostPeerId), out);
      }
      var out' := AppendEligibility(out);
      ExtendsTwice([], out, out', if wasAbsent then [Wave(Others(Value(), hostPeerId), PeerJoined(hostPeerId))] else [],
                   EligibilityNotice(Value()));
      e := Emission(Some(Created(sessionId, hostPeerId, token, Some(peers.Keys - {hostPeerId}))), out', evict, true,
          Some(connId));
    }

    /** Drops every reservation whose grace has run out, one entry at a time. */
    method PruneExpiredReservations(now: Instant) returns (pruned: bool)
      modifies this`reservations
      ensures Value() == Prune(old(Value()), now)
      ensures pruned <==> Value() != old(Value())
    {
      var all := reservations;
      var kept: map<PeerId, PeerReservation> := map[];
      var todo := all.Keys;
      while todo != {}
        invariant todo <= all.Keys && unchanged(this)
        invariant Sifted(Value(), now, todo, kept)
        decreases |todo|
      {
        var id :| id in todo;
        var res := all[id];
        SiftOne(Value(), now, todo, kept, id);
        if res.releasePending || id in peers || res.absentSince.None?
            || Since(now, res.absentSince.value) < PEER_RESERVATION_GRACE {
          kept := kept[id := res];
        }
        todo := todo - {id};
      }
      SiftAll(Value(), now, kept);
      SizeTellsWhetherKept(kept, all);
      pruned := |kept| != |all|;
      reservations := kept;
    }

    method JoinOrResume(peerId: PeerId, token: Token, profile: Profile, resumeOnly: bool, now: Instant, wall: WallTime)
      returns (e: Emission)
      requires Valid()
      modifies this
      ensures Valid()
      ensures var o := RoomSpec.JoinOrResume(old(Value()), peerId, token, profile, resumeOnly, now, wall);
              Value() == o.room && Realizes(e, o.effects)
    {
      if closing {
        return ErrorReply(RoomNotFound);
      }
      var _ := PruneExpiredReservations(now);
      var presented := token.verifier;
      var occupied := peerId in peers;
      var reserved := peerId in reservations;
      var authorized;
      if peerId == hostPeerId {
        authorized := presented == Some(hostVerifier);
      } else if reserved {
        authorized := !reservations[peerId].releasePending && presented == Some(reservations[peerId].verifier);
      } else if occupied {
        authorized := false;
      } else {
        authorized := !resumeOnly && presented.Some?;
      }
      if !authorized {
        return ErrorReply(PeerIdUnavailable);
      }
      if !occupied && peerId != hostPeerId && !reserved && |reservations| >= MAX_ROOM_SIZE - 1 {
        return ErrorReply(RoomFull);
      }
      e := Seat(peerId, token, profile, resumeOnly, wall);
    }

    /** The admitting tail of join_or_resume. */
    method Seat(peerId: PeerId, token: Token, profile: Profile, resumeOnly: bool, wall: WallTime) returns (e: Emission)
      requires Valid() && token.verifier.Some?
      modifies this
      ensures Valid()
      ensures var o := RoomSpec.Seat(old(Value()), peerId, token, profile, resumeOnly, wall);
              Value() == o.room && Realizes(e, o.effects)
    {
      var connId, evict := Admit(peerId, profile);
      if peerId != hostPeerId {
        reservations := reservations[peerId := PeerReservation(token.verifier.value, None, false)];
      }
      lastActivityAt := wall;
      var present := Some(peers.Keys - {peerId});
      var reply := if resumeOnly then Resumed(sessionId, hostPeerId, token, present)
          else Joined(sessionId, hostPeerId, token, present);
      var out := Announce(PeerJoined(peerId), peerId);
      e := Emission(Some(reply), out, evict, true, Some(connId));
    }

    /** Tells everyone but `peerId`, then publishes the transfer targets. */
    method Announce(msg: ServerMessage, peerId: PeerId) returns (out: seq<Outbound>)
      requires Valid()
      ensures forall c :: Received(out, c)
                == Promised([Wave(Others(Value(), peerId), msg)] + EligibilityNotice(Value()), c)
    {
      var told := BroadcastExcept(peerId, msg, []);
      out := AppendEligibility(told);
      ExtendsTwice([], told, out, [Wave(Others(Value(), peerId), msg)], EligibilityNotice(Value()));
    }

    method BeginLeave(peerId: PeerId, connId: ConnId, token: Token, version: nat) returns (e: Emission)
      requires Valid()
      modifies this`reservations
      ensures Valid()
      ensures var o := RoomSpec.BeginLeave(old(Value()), peerId, connId, token, version);
              Value() == o.room && Realizes(e, o.effects)
    {
      var isCurrent := peerId in peers && peers[peerId].connId == connId;
      if closing || !isCurrent || peerId == hostPeerId || version != RELAY_PROTOCOL_VERSION {
        return ErrorReply(PeerIdUnavailable);
      }
      if peerId !in reservations || reservations[peerId].releasePending
          || token.verifier != Some(reservations[peerId].verifier) {
        return ErrorReply(PeerIdUnavailable);
      }
      reservations := reservations[peerId := reservations[peerId].(releasePending := true)];
      e := SILENCE;
    }

    method FinishLeave(peerId: PeerId, connId: ConnId, persisted: bool, wall: WallTime) returns (e: Emission)
      requires Valid()
      modifies this
      ensures Valid()
      ensures var o := RoomSpec.FinishLeave(old(Value()), peerId, connId, persisted, wall);
              Value() == o.room && Realizes(e, o.effects)
    {
      var stillOwns := peerId in peers && peers[peerId].connId == connId
                       && peerId in reservations && reservations[peerId].releasePending;
      if !stillOwns {
        return SILENCE;
      }
      if !persisted {
        reservations := reservations[peerId := reservations[peerId].(releasePending := false)];
        return ErrorReply(InvalidMessage);
      }
      peers := peers - {peerId};
      reservations := reservations - {peerId};
      lastActivityAt := wall;
      var out := Announce(PeerLeft(peerId), peerId);
      e := Emission(Some(Left(sessionId, peerId)), out, {}, true, None);
    }

    /** Phase one of `endSession`; on success also the guests' channels and the owner key. */
    method BeginEndSession(peerId: PeerId, connId: ConnId, token: Token, version: nat)
      returns (e: Emission, guests: set<ConnId>)
      requires Valid()
      modifies this`closing
      ensures Valid()
      ensures var o := RoomSpec.BeginEndSession(old(Value()), peerId, connId, token, version);
              Value() == o.room && Realizes(e, o.effects)
      ensures closing && !old(closing) ==> guests == Others(old(Value()), peerId)
    {
      var isCurrentHost := peerId == hostPeerId && peerId in peers && peers[peerId].connId == connId;
      if closing || !isCurrentHost || version != RELAY_PROTOCOL_VERSION || token.verifier != Some(hostVerifier) {
        return ErrorReply(PeerIdUnavailable), {};
      }
      closing := true;
      guests := set p | p in peers.Keys - {peerId} :: peers[p].connId;
      e := SILENCE;
    }

    method FinishEndSession(guests: set<ConnId>, persisted: bool) returns (e: Emission)
      modifies this
      ensures Valid()
      ensures var o := RoomSpec.FinishEndSession(old(Value()), guests, persisted);
              Value() == o.room && Realizes(e, o.effects)
    {
      var evict := set p | p in peers :: peers[p].connId;
      assert evict == Everyone(Value());
      peers := map[];
      reservations := map[];
      if !persisted {
        return ErrorReply(InvalidMessage).(evict := evict);
      }
      var out := SendToAll(guests, Ended(sessionId));
      e := Emission(Some(Ended(sessionId)), out, evict, false, None);
    }

    static method SendToAll(to: set<ConnId>, msg: ServerMessage) returns (out: seq<Outbound>)
      ensures forall c :: Received(out, c) == Promised([Wave(to, msg)], c)
    {
      out := [];
      var todo := to;
      while todo != {}
        invariant todo <= to
        invariant forall c :: Received(out, c) == if c in to - todo then [msg] else []
        decreases |todo|
      {
        var conn :| conn in todo;
        forall c ensures Received(out + [Outbound(conn, msg)], c) == Received(out, c) + if conn == c then [msg]
            else [] {
          ReceivedPush(out, Outbound(conn, msg), c);
        }
        out := out + [Outbound(conn, msg)];
        todo := todo - {conn};
      }
      forall c ensures Promised([Wave(to, msg)], c) == if c in to then [msg] else [] {
        OneWavePromise(Wave(to, msg), c);
      }
    }

    method TransferHost(peerId: PeerId, connId: ConnId, version: nat, target: PeerId) returns (e: Emission)
      requires Valid()
      modifies this`reservations, this`hostPeerId, this`hostVerifier
      ensures Valid()
      ensures var o := RoomSpec.TransferHost(old(Value()), peerId, connId, version, target);
              Value() == o.room && Realizes(e, o.effects)
    {
      var isCurrent := peerId in peers && peers[peerId].connId == connId;
      if closing || !isCurrent || version != RELAY_PROTOCOL_VERSION {
        return ErrorReply(PeerIdUnavailable);
      }
      if peerId != hostPeerId {
        return ErrorReply(NotHost);
      }
      if !ValidPeerId(target) || target == peerId || target !in peers {
        return ErrorReply(PeerNotFound);
      }
      if target !in reservations || reservations[target].releasePending {
        return ErrorReply(PeerNotFound);
      }
      var transferable := CanTransferHostTo(target);
      if !transferable {
        return ErrorReply(HostTransferUnavailable);
      }
      e := CommitTransfer(target);
    }

    method CanTransferHostTo(target: PeerId) returns (ok: bool)
      ensures ok <==> target in Targets(Value())
    {
      var infos := PeerInfos();
      var reserved := set p | p in reservations && !reservations[p].releasePending;
      TargetIgnoresOrder(hostPeerId, infos, RosterOf(Value()), reserved, target);
      ok := IsValidTarget(hostPeerId, infos, reserved, target);
    }

    /** The accepting tail of transfer_host. */
    method CommitTransfer(target: PeerId) returns (e: Emission)
      requires Valid() && target in reservations
      modifies this`reservations, this`hostPeerId, this`hostVerifier
      ensures Valid() && Value() == SwapHost(old(Value()), target)
      ensures Realizes(e, NO_EFFECTS.(
                          broadcast := [Wave(Everyone(Value()), HostChanged(sessionId, target, old(hostPeerId)))]
                              + EligibilityNotice(Value()),
                          dirty := true))
    {
      var oldHost := hostPeerId;
      var targetReservation := reservations[target];
      reservations := reservations - {target};
      reservations := reservations[oldHost := PeerReservation(hostVerifier, None, false)];
      hostVerifier := targetReservation.verifier;
      hostPeerId := target;
      var changed := HostChanged(sessionId, target, oldHost);
      var told := BroadcastAll(changed, []);
      var out := AppendEligibility(told);
      ExtendsTwice([], told, out, [Wave(Everyone(Value()), changed)], EligibilityNotice(Value()));
      e := SILENCE.(broadcast := out, dirty := true);
    }

    method Broadcast(sender: PeerId, connId: ConnId, payload: string, wall: WallTime) returns (e: Emission)
      requires Valid()
      modifies this`lastActivityAt
      ensures Valid()
      ensures var o := RoomSpec.Broadcast(old(Value()), sender, connId, payload, wall);
              Value() == o.room && Realizes(e, o.effects)
    {
      if sender !in peers || peers[sender].connId != connId || closing {
        return SILENCE;
      }
      lastActivityAt := wall;
      var out := BroadcastExcept(sender, Message(sender, payload), []);
      e := SILENCE.(broadcast := out);
    }

    method SendTo(sender: PeerId, connId: ConnId, target: PeerId, payload: string, wall: WallTime) returns (e: Emission)
      requires Valid()
      modifies this`lastActivityAt
      ensures Valid()
      ensures var o := RoomSpec.SendTo(old(Value()), sender, connId, target, payload, wall);
              Value() == o.room && Realizes(e, o.effects)
    {
      if sender !in peers || peers[sender].connId != connId || closing {
        return SILENCE;
      }
      if target !in peers {
        return ErrorReply(NotInRoom);
      }
      lastActivityAt := wall;
      var out := SendToAll({peers[target].connId}, Message(sender, payload));
      e := SILENCE.(broadcast := out);
    }

    method HandleDisconnect(peerId: PeerId, connId: ConnId, now: Instant, wall: WallTime) returns (e: Emission)
      requires Valid()
      modifies this
      ensures Valid()
      ensures var o := Disconnect(old(Value()), peerId, connId, now, wall); Value() == o.room && Realizes(e, o.effects)
    {
      if closing || peerId !in peers || peers[peerId].connId != connId {
        return SILENCE;
      }
      peers := peers - {peerId};
      if peerId != hostPeerId && peerId in reservations {
        reservations := reservations[peerId := reservations[peerId].(absentSince := Some(now))];
      }
      lastActivityAt := wall;
      var out := Announce(PeerLeft(peerId), peerId);
      e := SILENCE.(broadcast := out, dirty := true);
    }

    /** The cleanup sweep's section on one room (src/cleanup.rs): prune, decide, close. */
    method Sweep(now: Instant, wall: WallTime) returns (remove: bool, changed: bool, evict: set<ConnId>)
      requires Valid()
      modifies this
      ensures Valid()
      ensures Value() == SweepClose(Prune(old(Value()), now), wall).room
      ensures remove <==> IsSwept(old(Value()), wall)
      ensures changed <==> remove || Prune(old(Value()), now) != old(Value())
      ensures evict == SweepClose(old(Value()), wall).effects.evict
    {
      var pruned := PruneExpiredReservations(now);
      var empty := peers == map[];
      var expired := Since(wall, createdAt) > ROOM_MAX_AGE;
      remove := (empty && Since(wall, lastActivityAt) > EMPTY_ROOM_MAX_AGE) || expired;
      evict := {};
      if remove {
        closing := true;
        if expired && !empty {
          evict := set p | p in peers :: peers[p].connId;
          assert evict == Everyone(old(Value()));
          peers := map[];
        }
      }
      changed := pruned || remove;
    }
  }
}
