/** Credentials of identities. An identity is the host or a reserved guest; host transfers move
    identities between the two roles, resumes and re-creates replace their connections, and through
    all of it the verifier an identity answers to stays the same. */
module Credentials {
  import opened Protocol
  import opened HostTransfer
  import opened RoomSpec
  import opened RoomInvariant

  predicate IsIdentity(r: Room, p: PeerId) {
    p == r.hostPeerId || p in r.reservations
  }

  function Credential(r: Room, p: PeerId): Verifier
    requires IsIdentity(r, p)
  {
    if p == r.hostPeerId then r.hostVerifier else r.reservations[p].verifier
  }

  /** The join in `op` first prunes `p`'s own expired reservation; a `p` present afterwards is a new identity. */
  predicate Lapses(r: Room, op: RoomOp, p: PeerId) {
    op.OpJoin? && !r.closing && p != r.hostPeerId && p in r.reservations && !Retained(r, p, op.now)
  }

  lemma JoinKeepsCredential(r: Room, peerId: PeerId, token: Token, profile: Profile, resumeOnly: bool,
                            now: Instant, wall: WallTime, p: PeerId)
    requires IsIdentity(r, p)
    requires r.closing || p == r.hostPeerId || Retained(r, p, now)
    ensures var r' := JoinOrResume(r, peerId, token, profile, resumeOnly, now, wall).room;
            IsIdentity(r', p) && Credential(r', p) == Credential(r, p)
  {
  }

  lemma StepKeepsCredential(r: Room, op: RoomOp, p: PeerId)
    requires RoomInv(r) && IsIdentity(r, p) && !Lapses(r, op, p)
    requires IsIdentity(Step(r, op).room, p)
    ensures Credential(Step(r, op).room, p) == Credential(r, p)
  {
    match op
    case OpJoin(peerId, token, profile, resumeOnly, now, wall) =>
      JoinKeepsCredential(r, peerId, token, profile, resumeOnly, now, wall, p);
    case OpTransfer(_, _, _, target) => TransferKeepsCredential(r, op, p);
    case OpFinishLeave(_, _, _, _) =>
    case OpBeginLeave(_, _, _, _) =>
    case OpDisconnect(_, _, _, _) =>
    case _ => StillNamesKeepCredential(r, op, p);
  }

  lemma TransferKeepsCredential(r: Room, op: RoomOp, p: PeerId)
    requires RoomInv(r) && IsIdentity(r, p) && op.OpTransfer?
    ensures IsIdentity(Step(r, op).room, p) && Credential(Step(r, op).room, p) == Credential(r, p)
  {
  }

  /** The other operations keep or drop reservations as they are. */
  lemma StillNamesKeepCredential(r: Room, op: RoomOp, p: PeerId)
    requires IsIdentity(r, p) && IsIdentity(Step(r, op).room, p)
    requires !op.OpJoin? && !op.OpTransfer? && !op.OpFinishLeave? && !op.OpBeginLeave? && !op.OpDisconnect?
    ensures Credential(Step(r, op).room, p) == Credential(r, p)
  {
  }

  /** `p` is an identity in every state of the run, without a lapse inside a step. */
  ghost predicate Persists(r: Room, ops: seq<RoomOp>, p: PeerId)
    decreases |ops|
  {
    && IsIdentity(r, p)
    && (ops != [] ==> !Lapses(r, ops[0], p) && Persists(Step(r, ops[0]).room, ops[1..], p))
  }

  lemma {:induction false} CredentialIsConstant(r: Room, ops: seq<RoomOp>, p: PeerId)
    requires RoomInv(r) && Persists(r, ops, p)
    ensures IsIdentity(Run(r, ops), p) && Credential(Run(r, ops), p) == Credential(r, p)
    decreases |ops|
  {
    if ops != [] {
      StepKeeps(r, ops[0]);
      StepKeepsCredential(r, ops[0], p);
      CredentialIsConstant(Step(r, ops[0]).room, ops[1..], p);
    }
  }

  // ---------------------------------------------------------------- occupants are authenticated

  /** The verifier of the token each connection id was admitted with. */
  type Admissions = map<ConnId, Verifier>

  function TokenOf(op: RoomOp): Option<Verifier> {
    match op
    case OpReturn(_, token, _) => token.verifier
    case OpJoin(_, token, _, _, _, _) => token.verifier
    case _ => None
  }

  function Record(admitted: Admissions, op: RoomOp, effects: Effects): Admissions {
    if effects.assignedConnId.Some? && TokenOf(op).Some?
    then admitted[effects.assignedConnId.value := TokenOf(op).value]
    else admitted
  }

  ghost predicate Vouched(r: Room, p: PeerId, c: ConnId, admitted: Admissions) {
    IsIdentity(r, p) && c in admitted && admitted[c] == Credential(r, p)
  }

  ghost predicate Authentic(r: Room, admitted: Admissions) {
    forall p :: p in r.peers ==> Vouched(r, p, r.peers[p].connId, admitted)
  }

  ghost predicate SameCredentials(r: Room, r': Room, ids: set<PeerId>) {
    forall q :: q in ids ==> IsIdentity(r, q) && IsIdentity(r', q) && Credential(r', q) == Credential(r, q)
  }

  lemma SeatAuthentic(r: Room, r': Room, p: PeerId, v: Verifier, admitted: Admissions)
    requires Authentic(r, admitted) && DistinctConnections(r)
    requires exists profile :: r'.peers == r.peers[p := ConnectedPeer(profile, r.nextConnId)]
    requires IsIdentity(r', p) && Credential(r', p) == v
    requires SameCredentials(r, r', r.peers.Keys - {p})
    ensures Authentic(r', admitted[r.nextConnId := v])
  {
    forall q | q in r'.peers ensures Vouched(r', q, r'.peers[q].connId, admitted[r.nextConnId := v]) {
      if q != p {
        assert Vouched(r, q, r.peers[q].connId, admitted);
      }
    }
  }

  lemma JoinKeepsCredentials(r: Room, peerId: PeerId, token: Token, profile: Profile, resumeOnly: bool, now: Instant,
                             wall: WallTime)
    requires RoomInv(r)
    ensures SameCredentials(r, JoinOrResume(r, peerId, token, profile, resumeOnly, now, wall).room, r.peers.Keys)
  {
    forall q | q in r.peers.Keys
      ensures IsIdentity(r, q)
      ensures var r' := JoinOrResume(r, peerId, token, profile, resumeOnly, now, wall).room;
              IsIdentity(r', q) && Credential(r', q) == Credential(r, q)
    {
      JoinKeepsCredential(r, peerId, token, profile, resumeOnly, now, wall, q);
    }
  }

  lemma JoinAuthentic(r: Room, peerId: PeerId, token: Token, profile: Profile, resumeOnly: bool, now: Instant,
                      wall: WallTime,
                      admitted: Admissions)
    requires RoomInv(r) && ValidPeerId(peerId) && Authentic(r, admitted)
    ensures var op := OpJoin(peerId, token, profile, resumeOnly, now, wall);
            Authentic(Step(r, op).room, Record(admitted, op, Step(r, op).effects))
  {
    var op := OpJoin(peerId, token, profile, resumeOnly, now, wall);
    var o := Step(r, op);
    assert o == JoinOrResume(r, peerId, token, profile, resumeOnly, now, wall);
    JoinKeepsCredentials(r, peerId, token, profile, resumeOnly, now, wall);
    if o.effects.assignedConnId.Some? {
      assert o.room.peers == r.peers[peerId := ConnectedPeer(profile, r.nextConnId)];
      SeatAuthentic(r, o.room, peerId, token.verifier.value, admitted);
    }
  }

  lemma ReturnAuthentic(r: Room, op: RoomOp, admitted: Admissions)
    requires RoomInv(r) && op.OpReturn? && Authentic(r, admitted)
    ensures Authentic(Step(r, op).room, Record(admitted, op, Step(r, op).effects))
  {
    if Guarded(r, op) {
      assert Step(r, op).room.peers == r.peers[r.hostPeerId := ConnectedPeer(op.profile, r.nextConnId)];
      SeatAuthentic(r, Step(r, op).room, r.hostPeerId, op.token.verifier.value, admitted);
    }
  }

  lemma StepAuthentic(r: Room, op: RoomOp, admitted: Admissions)
    requires RoomInv(r) && Authentic(r, admitted)
    ensures Authentic(Step(r, op).room, Record(admitted, op, Step(r, op).effects))
  {
    match op
    case OpReturn(_, _, _) => ReturnAuthentic(r, op, admitted);
    case OpJoin(p, token, profile, resumeOnly, now, wall) =>
      if ValidPeerId(p) {
        JoinAuthentic(r, p, token, profile, resumeOnly, now, wall, admitted);
      }
    case _ =>
      forall q | q in Step(r, op).room.peers
        ensures Vouched(Step(r, op).room, q, Step(r, op).room.peers[q].connId, admitted)
      {
        StaysVouched(r, op, q, admitted);
      }
  }

  lemma StaysVouched(r: Room, op: RoomOp, q: PeerId, admitted: Admissions)
    requires RoomInv(r) && Authentic(r, admitted)
    requires !op.OpReturn? && !op.OpJoin? && q in Step(r, op).room.peers
    ensures Vouched(Step(r, op).room, q, Step(r, op).room.peers[q].connId, admitted)
  {
    StepKeepsPeer(r, op, q);
    StepKeeps(r, op);
    assert Vouched(r, q, r.peers[q].connId, admitted);
    StepKeepsCredential(r, op, q);
  }

  function RecordAll(r: Room, ops: seq<RoomOp>, admitted: Admissions): Admissions
    decreases |ops|
  {
    if ops == [] then admitted
    else RecordAll(Step(r, ops[0]).room, ops[1..], Record(admitted, ops[0], Step(r, ops[0]).effects))
  }

  /** After any run, every occupant was admitted with a token whose verifier is its identity's. */
  lemma {:induction false} OccupantsAreAuthentic(r: Room, ops: seq<RoomOp>, admitted: Admissions)
    requires RoomInv(r) && Authentic(r, admitted)
    ensures Authentic(Run(r, ops), RecordAll(r, ops, admitted))
    decreases |ops|
  {
    if ops != [] {
      StepKeeps(r, ops[0]);
      StepAuthentic(r, ops[0], admitted);
      OccupantsAreAuthentic(Step(r, ops[0]).room, ops[1..], Record(admitted, ops[0], Step(r, ops[0]).effects));
    }
  }
}
