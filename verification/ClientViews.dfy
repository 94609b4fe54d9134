/** What clients know. Each connection folds the messages it receives, in the order the room
    produced them, into a roster and a host. The main result is that this view never drifts from the
    room: after every run it is the room's own peer set and host. */
module ClientViews {
  import opened Protocol
  import opened HostTransfer
  import opened RoomSpec
  import opened RoomInvariant

  datatype View = View(others: set<PeerId>, host: PeerId)

  type Clients = map<ConnId, View>

  /** The view an admission reply gives a fresh connection. */
  function FirstView(reply: ServerMessage): View {
    match reply
    case Created(_, host, _, peers) => View(if peers.Some? then peers.value else {}, host)
    case Joined(_, host, _, peers) => View(if peers.Some? then peers.value else {}, host)
    case Resumed(_, host, _, peers) => View(if peers.Some? then peers.value else {}, host)
    case _ => View({}, "")
  }

  function Learn(view: View, msg: ServerMessage): View {
    match msg
    case PeerJoined(p) => view.(others := view.others + {p})
    case PeerLeft(p) => view.(others := view.others - {p})
    case HostChanged(_, host, _) => view.(host := host)
    case _ => view
  }

  function Deliver(clients: Clients, wave: Wave): Clients {
    map c | c in clients :: if c in wave.to then Learn(clients[c], wave.msg) else clients[c]
  }

  function DeliverAll(clients: Clients, waves: seq<Wave>): Clients {
    if waves == [] then clients
    else Deliver(DeliverAll(clients, waves[..|waves| - 1]), waves[|waves| - 1])
  }

  /** The caller gets its reply first, then everybody the broadcasts. */
  function Welcome(clients: Clients, effects: Effects): Clients {
    if effects.assignedConnId.Some? && effects.reply.Some?
    then clients[effects.assignedConnId.value := FirstView(effects.reply.value)]
    else clients
  }

  function Observe(clients: Clients, effects: Effects): Clients {
    DeliverAll(Welcome(clients, effects), effects.broadcast)
  }

  ghost predicate Agree(r: Room, clients: Clients) {
    forall p :: p in r.peers ==>
                  && r.peers[p].connId in clients
                  && clients[r.peers[p].connId] == View(r.peers.Keys - {p}, r.hostPeerId)
  }

  lemma NoticeTeachesNothing(clients: Clients, waves: seq<Wave>, r: Room)
    ensures DeliverAll(clients, waves + EligibilityNotice(r)) == DeliverAll(clients, waves)
  {
    var notice := EligibilityNotice(r);
    if notice == [] {
      assert waves + notice == waves;
    } else {
      assert (waves + notice)[..|waves + notice| - 1] == waves;
      assert Deliver(DeliverAll(clients, waves), notice[0]) == DeliverAll(clients, waves);
    }
  }

  lemma OneWave(clients: Clients, wave: Wave)
    ensures DeliverAll(clients, [wave]) == Deliver(clients, wave)
  {
    assert [wave][..0] == [];
    assert DeliverAll(clients, []) == clients;
  }

  /** An entry is seated (or replaced) and the others hear `peerJoined`. */
  lemma SeatedAgree(r: Room, r': Room, p: PeerId, clients: Clients, welcomed: Clients, announced: bool)
    requires Agree(r, clients) && DistinctConnections(r')
    requires p in r'.peers && r'.hostPeerId == r.hostPeerId
    requires r'.peers.Keys == r.peers.Keys + {p} && forall q :: q in r.peers && q != p ==> r'.peers[q] == r.peers[q]
    requires welcomed == clients[r'.peers[p].connId := View(r'.peers.Keys - {p}, r'.hostPeerId)]
    requires announced || p in r.peers
    ensures Agree(r', if announced then Deliver(welcomed, Wave(Others(r', p), PeerJoined(p))) else welcomed)
  {
    var heard := if announced then Deliver(welcomed, Wave(Others(r', p), PeerJoined(p))) else welcomed;
    forall q | q in r'.peers
      ensures r'.peers[q].connId in heard
      ensures heard[r'.peers[q].connId] == View(r'.peers.Keys - {q}, r'.hostPeerId)
    {
      if q != p {
        assert r'.peers[q].connId in Others(r', p);
        assert r'.peers.Keys - {q} == (r.peers.Keys - {q}) + {p};
      } else {
        assert r'.peers[p].connId !in Others(r', p);
      }
    }
  }

  /** An entry is vacated and the others hear `peerLeft`. */
  lemma VacatedAgree(r: Room, r': Room, p: PeerId, clients: Clients)
    requires Agree(r, clients)
    requires r'.peers == r.peers - {p} && r'.hostPeerId == r.hostPeerId
    ensures Agree(r', Deliver(clients, Wave(Others(r', p), PeerLeft(p))))
  {
    forall q | q in r'.peers
      ensures Learn(clients[r'.peers[q].connId], PeerLeft(p)) == View(r'.peers.Keys - {q}, r'.hostPeerId)
      ensures r'.peers[q].connId in Others(r', p)
    {
      assert r'.peers.Keys - {q} == (r.peers.Keys - {q}) - {p};
    }
  }

  lemma HostChangedAgree(r: Room, r': Room, clients: Clients)
    requires Agree(r, clients) && r'.peers == r.peers
    ensures Agree(r', Deliver(clients, Wave(Everyone(r'), HostChanged(r.sessionId, r'.hostPeerId, r.hostPeerId))))
  {
    forall q | q in r'.peers ensures r'.peers[q].connId in Everyone(r') {
    }
  }

  lemma NewRoomAgree(sessionId: SessionId, hostPeerId: PeerId, verifier: Verifier, token: Token, ownerIpKey: IpKey,
                     profile: Profile, wall: WallTime)
    ensures var o := NewRoom(sessionId, hostPeerId, verifier, token, ownerIpKey, profile, wall);
            Agree(o.room, Observe(map[], o.effects))
  {
    var o := NewRoom(sessionId, hostPeerId, verifier, token, ownerIpKey, profile, wall);
    NoticeTeachesNothing(Welcome(map[], o.effects), [], o.room);
    assert [] + EligibilityNotice(o.room) == EligibilityNotice(o.room);
  }

  /** A connection is admitted, told who is there, and announced; the eligibility notice follows. */
  lemma AdmissionAgree(r: Room, r': Room, p: PeerId, clients: Clients, effects: Effects, announced: bool)
    requires Agree(r, clients) && DistinctConnections(r')
    requires p in r'.peers && r'.hostPeerId == r.hostPeerId
    requires r'.peers.Keys == r.peers.Keys + {p} && forall q :: q in r.peers && q != p ==> r'.peers[q] == r.peers[q]
    requires effects.assignedConnId == Some(r'.peers[p].connId)
    requires effects.reply.Some? && FirstView(effects.reply.value) == View(r'.peers.Keys - {p}, r'.hostPeerId)
    requires announced || p in r.peers
    requires effects.broadcast == (if announced then [Wave(Others(r', p), PeerJoined(p))] else [])
               + EligibilityNotice(r')
    ensures Agree(r', Observe(clients, effects))
  {
    var welcomed := Welcome(clients, effects);
    var wave := Wave(Others(r', p), PeerJoined(p));
    NoticeTeachesNothing(welcomed, if announced then [wave] else [], r');
    OneWave(welcomed, wave);
    SeatedAgree(r, r', p, clients, welcomed, announced);
  }

  lemma ReturnAgree(r: Room, profile: Profile, token: Token, clients: Clients)
    requires DistinctConnections(r) && Agree(r, clients)
    ensures var o := ReconnectHost(r, profile, token); Agree(o.room, Observe(clients, o.effects))
  {
    var o := ReconnectHost(r, profile, token);
    FreshConnection(r, o.room, r.hostPeerId, profile);
    AdmissionAgree(r, o.room, r.hostPeerId, clients, o.effects, r.hostPeerId !in r.peers);
  }

  lemma JoinAgree(r: Room, peerId: PeerId, token: Token, profile: Profile, resumeOnly: bool, now: Instant,
                  wall: WallTime,
                  clients: Clients)
    requires RoomInv(r) && Agree(r, clients) && ValidPeerId(peerId)
    ensures var o := JoinOrResume(r, peerId, token, profile, resumeOnly, now, wall);
            Agree(o.room, Observe(clients, o.effects))
  {
    var o := JoinOrResume(r, peerId, token, profile, resumeOnly, now, wall);
    JoinKeeps(r, peerId, token, profile, resumeOnly, now, wall);
    if o.effects.assignedConnId.Some? {
      SeatAgree(Prune(r, now), peerId, token, profile, resumeOnly, wall, clients);
    }
  }

  lemma SeatAgree(r: Room, peerId: PeerId, token: Token, profile: Profile, resumeOnly: bool, wall: WallTime,
                  clients: Clients)
    requires Agree(r, clients) && token.verifier.Some?
    requires DistinctConnections(Seat(r, peerId, token, profile, resumeOnly, wall).room)
    ensures var o := Seat(r, peerId, token, profile, resumeOnly, wall); Agree(o.room, Observe(clients, o.effects))
  {
    var o := Seat(r, peerId, token, profile, resumeOnly, wall);
    AdmissionAgree(r, o.room, peerId, clients, o.effects, true);
  }

  lemma LeaveAgree(r: Room, peerId: PeerId, connId: ConnId, persisted: bool, wall: WallTime, clients: Clients)
    requires Agree(r, clients)
    ensures var o := FinishLeave(r, peerId, connId, persisted, wall); Agree(o.room, Observe(clients, o.effects))
  {
    var o := FinishLeave(r, peerId, connId, persisted, wall);
    if StillLeaving(r, peerId, connId) && persisted {
      var wave := Wave(Others(o.room, peerId), PeerLeft(peerId));
      NoticeTeachesNothing(clients, [wave], o.room);
      OneWave(clients, wave);
      VacatedAgree(r, o.room, peerId, clients);
    }
  }

  lemma DisconnectAgree(r: Room, peerId: PeerId, connId: ConnId, now: Instant, wall: WallTime, clients: Clients)
    requires Agree(r, clients)
    ensures var o := Disconnect(r, peerId, connId, now, wall); Agree(o.room, Observe(clients, o.effects))
  {
    var o := Disconnect(r, peerId, connId, now, wall);
    if !r.closing && Occupies(r, peerId, connId) {
      var wave := Wave(Others(o.room, peerId), PeerLeft(peerId));
      NoticeTeachesNothing(clients, [wave], o.room);
      OneWave(clients, wave);
      VacatedAgree(r, o.room, peerId, clients);
    }
  }

  lemma TransferAgree(r: Room, peerId: PeerId, connId: ConnId, version: nat, target: PeerId, clients: Clients)
    requires Agree(r, clients)
    ensures var o := TransferHost(r, peerId, connId, version, target); Agree(o.room, Observe(clients, o.effects))
  {
    var o := TransferHost(r, peerId, connId, version, target);
    if TransferRefusal(r, peerId, connId, version, target).None? {
      var wave := Wave(Everyone(o.room), HostChanged(r.sessionId, target, r.hostPeerId));
      NoticeTeachesNothing(clients, [wave], o.room);
      OneWave(clients, wave);
      HostChangedAgree(r, o.room, clients);
    }
  }

  /** Operations that seat and vacate nobody send nothing that changes a view. */
  lemma RelayAgree(r: Room, op: RoomOp, clients: Clients)
    requires Agree(r, clients)
    requires op.OpBroadcast? || op.OpSendTo? || op.OpBeginLeave? || op.OpBeginEnd? || op.OpPrune?
    ensures var o := Step(r, op); Agree(o.room, Observe(clients, o.effects))
  {
    var o := Step(r, op);
    if o.effects.broadcast != [] {
      OneWave(clients, o.effects.broadcast[0]);
    }
  }

  lemma StepAgree(r: Room, op: RoomOp, clients: Clients)
    requires RoomInv(r) && Agree(r, clients)
    ensures var o := Step(r, op); Agree(o.room, Observe(clients, o.effects))
  {
    if Guarded(r, op) {
      match op
      case OpReturn(_, token, profile) => ReturnAgree(r, profile, token, clients);
      case OpJoin(p, token, profile, resumeOnly, now, wall) =>
        JoinAgree(r, p, token, profile, resumeOnly, now, wall, clients);
      case OpFinishLeave(p, c, persisted, wall) => LeaveAgree(r, p, c, persisted, wall, clients);
      case OpTransfer(p, c, version, target) => TransferAgree(r, p, c, version, target, clients);
      case OpDisconnect(p, c, now, wall) => DisconnectAgree(r, p, c, now, wall, clients);
      case OpFinishEnd(_, _) =>
      case OpSweepClose(_) =>
      case OpReclaim =>
      case _ => RelayAgree(r, op, clients);
    }
  }

  function Watch(r: Room, ops: seq<RoomOp>, clients: Clients): Clients
    decreases |ops|
  {
    if ops == [] then clients
    else Watch(Step(r, ops[0]).room, ops[1..], Observe(clients, Step(r, ops[0]).effects))
  }

  /** After any run every occupant's roster is the room's peers minus itself, and its host the room's host. */
  lemma {:induction false} ViewsRefineTheRoom(r: Room, ops: seq<RoomOp>, clients: Clients)
    requires RoomInv(r) && Agree(r, clients)
    ensures Agree(Run(r, ops), Watch(r, ops, clients))
    decreases |ops|
  {
    if ops != [] {
      StepKeeps(r, ops[0]);
      StepAgree(r, ops[0], clients);
      ViewsRefineTheRoom(Step(r, ops[0]).room, ops[1..], Observe(clients, Step(r, ops[0]).effects));
    }
  }
}
