/** Who is let in, and until when, in terms of the room's own fields: the exact rule of `join` and
    `resume`, and the promise behind reconnect tokens, that a guest whose connection dropped returns with
    its token for as long as its grace lasts, whatever happens in the room meanwhile. */
module Admission {
  import opened Protocol
  import opened HostTransfer
  import opened RoomSpec
  import opened RoomInvariant
  import opened Credentials
  import opened Pruning

  // ---------------------------------------------------------------- the exact rule

  /** The reservations that count at `now`: pending, connected, without an absence time, or within five
      minutes of it. */
  function KeptAt(r: Room, now: Instant): set<PeerId> {
    set p | p in r.reservations
            && (|| r.reservations[p].releasePending
                || p in r.peers
                || r.reservations[p].absentSince.None?
                || now < r.reservations[p].absentSince.value + 5 * 60 * NANOS_PER_SECOND)
  }

  /** The host, with the host's token. */
  predicate AsHost(r: Room, p: PeerId, token: Token) {
    p == r.hostPeerId && token.verifier == Some(r.hostVerifier)
  }

  /** A guest whose reservation counts and is not being released, with its token. */
  predicate AsGuest(r: Room, p: PeerId, token: Token, now: Instant) {
    p in KeptAt(r, now) && !r.reservations[p].releasePending && token.verifier == Some(r.reservations[p].verifier)
  }

  /** Somebody new, by `join` with a well-formed token. */
  predicate AsNewcomer(r: Room, p: PeerId, token: Token, resumeOnly: bool, now: Instant) {
    p != r.hostPeerId && p !in KeptAt(r, now) && !resumeOnly && token.verifier.Some?
  }

  lemma KeptIsPruned(r: Room, now: Instant)
    ensures Prune(r, now).reservations.Keys == KeptAt(r, now) && |Prune(r, now).reservations| == |KeptAt(r, now)|
  {
    forall p ensures p in Prune(r, now).reservations.Keys <==> p in KeptAt(r, now) {
      if p in r.reservations {
        PruneIsExact(r, p, now);
      }
    }
    assert |Prune(r, now).reservations| == |Prune(r, now).reservations.Keys|;
  }

  /** The reply to an admission. */
  function Welcome(r: Room, p: PeerId, token: Token, resumeOnly: bool): ServerMessage {
    var others := Some(r.peers.Keys - {p});
    if resumeOnly then Resumed(r.sessionId, r.hostPeerId, token, others)
    else Joined(r.sessionId, r.hostPeerId, token, others)
  }

  lemma SeatWelcomes(r: Room, p: PeerId, token: Token, profile: Profile, resumeOnly: bool, wall: WallTime)
    requires token.verifier.Some?
    ensures var e := Seat(r, p, token, profile, resumeOnly, wall).effects;
            e.assignedConnId == Some(r.nextConnId) && e.reply == Some(Welcome(r, p, token, resumeOnly))
  {
    var r' := Seat(r, p, token, profile, resumeOnly, wall).room;
    assert r'.peers.Keys - {p} == r.peers.Keys - {p};
  }

  /** What becomes of an application: a connection id, or a refusal. */
  datatype Verdict = Admitted | Refused(code: ErrorCode)

  predicate Comes(e: Effects, v: Verdict, connId: ConnId, welcome: ServerMessage) {
    match v
    case Admitted => e.assignedConnId == Some(connId) && e.reply == Some(welcome)
    case Refused(code) => e == Refusal(code)
  }

  lemma PrunedAuthorizes(r: Room, p: PeerId, token: Token, resumeOnly: bool, now: Instant)
    requires RoomInv(r)
    ensures Authorized(Prune(r, now), p, token, resumeOnly) <==>
              AsHost(r, p, token) || AsGuest(r, p, token, now) || AsNewcomer(r, p, token, resumeOnly, now)
    ensures IsNewIdentity(Prune(r, now), p) <==> p != r.hostPeerId && p !in KeptAt(r, now)
  {
    KeptIsPruned(r, now);
  }

  /** Exactly who is admitted, with what reply, and why everybody else is refused. */
  lemma AdmissionIsExact(r: Room, p: PeerId, token: Token, profile: Profile, resumeOnly: bool, now: Instant,
                         wall: WallTime)
    requires RoomInv(r)
    ensures Comes(JoinOrResume(r, p, token, profile, resumeOnly, now, wall).effects,
                  if r.closing then Refused(RoomNotFound)
                  else if AsHost(r, p, token) || AsGuest(r, p, token, now) then Admitted
                  else if !AsNewcomer(r, p, token, resumeOnly, now) then Refused(PeerIdUnavailable)
                  else if |KeptAt(r, now)| >= 7 then Refused(RoomFull)
                  else Admitted,
                  r.nextConnId, Welcome(r, p, token, resumeOnly))
  {
    KeptIsPruned(r, now);
    PrunedAuthorizes(r, p, token, resumeOnly, now);
    if token.verifier.Some? {
      SeatWelcomes(Prune(r, now), p, token, profile, resumeOnly, wall);
    }
  }

  // ---------------------------------------------------------------- a connection's token is its identity's

  lemma StepKeepsSeatCredential(r: Room, op: RoomOp, p: PeerId, c: ConnId)
    requires RoomInv(r) && c < r.nextConnId && Occupies(Step(r, op).room, p, c)
    ensures Occupies(r, p, c) && IsIdentity(r, p) && IsIdentity(Step(r, op).room, p)
    ensures Credential(Step(r, op).room, p) == Credential(r, p) && c < Step(r, op).room.nextConnId
  {
    StepKeeps(r, op);
    SeatIsOld(r, op, p, c);
    NextIdGrows(r, op);
    StepKeepsCredential(r, op, p);
  }

  lemma SeatIsOld(r: Room, op: RoomOp, p: PeerId, c: ConnId)
    requires c < r.nextConnId && Occupies(Step(r, op).room, p, c)
    ensures Occupies(r, p, c)
  {
    if !op.OpJoin? && !op.OpReturn? {
      StepKeepsPeer(r, op, p);
    }
  }

  lemma NextIdGrows(r: Room, op: RoomOp)
    ensures r.nextConnId <= Step(r, op).room.nextConnId
  {
  }

  /** A seat that is still occupied at the end of a run was occupied all along, by the same identity with
      the same credential. */
  lemma {:induction false} SeatKeepsCredential(r: Room, ops: seq<RoomOp>, p: PeerId, c: ConnId)
    requires RoomInv(r) && c < r.nextConnId && Occupies(Run(r, ops), p, c)
    ensures Occupies(r, p, c) && IsIdentity(r, p) && IsIdentity(Run(r, ops), p)
    ensures Credential(Run(r, ops), p) == Credential(r, p)
    decreases |ops|
  {
    if ops != [] {
      StepKeeps(r, ops[0]);
      NextIdGrows(r, ops[0]);
      SeatKeepsCredential(Step(r, ops[0]).room, ops[1..], p, c);
      StepKeepsSeatCredential(r, ops[0], p, c);
    }
  }

  /** The connection and the verifier an admission gives. */
  predicate Admits(r: Room, op: RoomOp, p: PeerId, v: Verifier, c: ConnId) {
    && Step(r, op).effects.assignedConnId == Some(c)
    && ((op.OpJoin? && op.peerId == p) || (op.OpReturn? && op.hostPeerId == p))
    && TokenOf(op) == Some(v)
  }

  lemma AdmittedHas(r: Room, op: RoomOp, p: PeerId, v: Verifier, c: ConnId)
    requires RoomInv(r) && Admits(r, op, p, v, c)
    ensures var r' := Step(r, op).room;
            RoomInv(r') && c < r'.nextConnId && Occupies(r', p, c) && IsIdentity(r', p) && Credential(r', p) == v
  {
    StepKeeps(r, op);
    if op.OpJoin? {
      AdmissionIsExact(r, p, op.token, op.profile, op.resumeOnly, op.now, op.wall);
    }
  }

  // ---------------------------------------------------------------- coming back within the grace

  /** `p` is away since `d` and its identity and credential wait for it. */
  predicate AwaySince(r: Room, p: PeerId, v: Verifier, d: Instant) {
    && p !in r.peers
    && if p == r.hostPeerId then r.hostVerifier == v
       else p in r.reservations && r.reservations[p] == PeerReservation(v, Some(d), false)
  }

  lemma DisconnectedIsAway(r: Room, p: PeerId, c: ConnId, d: Instant, wall: WallTime)
    requires RoomInv(r) && !r.closing && Occupies(r, p, c) && !Pending(r, p)
    ensures IsIdentity(r, p) && AwaySince(Step(r, OpDisconnect(p, c, d, wall)).room, p, Credential(r, p), d)
  {
  }

  /** `op` admits a connection for `p`. */
  predicate Readmits(r: Room, op: RoomOp, p: PeerId) {
    && Step(r, op).effects.assignedConnId.Some?
    && ((op.OpJoin? && op.peerId == p) || (op.OpReturn? && r.hostPeerId == p))
  }

  /** Some operation of the run does. */
  ghost predicate ComesBack(r: Room, ops: seq<RoomOp>, p: PeerId)
    decreases |ops|
  {
    ops != [] && (Readmits(r, ops[0], p) || ComesBack(Step(r, ops[0]).room, ops[1..], p))
  }

  lemma StaysOpen(r: Room, ops: seq<RoomOp>)
    requires ops != [] && !Run(r, ops).closing
    ensures !Step(r, ops[0]).room.closing && !Run(Step(r, ops[0]).room, ops[1..]).closing
  {
    if Step(r, ops[0]).room.closing {
      ClosingForever(Step(r, ops[0]).room, ops[1..]);
    }
  }

  /** No clock reading of the run is as late as `end`. */
  ghost predicate AllBefore(ops: seq<RoomOp>, end: Instant) {
    forall i :: 0 <= i < |ops| ==> At(ops[i], 0) < end
  }

  lemma StepKeepsAway(r: Room, op: RoomOp, p: PeerId, v: Verifier, d: Instant)
    requires RoomInv(r) && AwaySince(r, p, v, d) && !Step(r, op).room.closing && !Readmits(r, op, p)
    requires At(op, 0) < d + 5 * 60 * NANOS_PER_SECOND
    ensures AwaySince(Step(r, op).room, p, v, d)
  {
    if op.OpJoin? {
      JoinKeepsAway(r, op, p, v, d);
    }
  }

  lemma JoinKeepsAway(r: Room, op: RoomOp, p: PeerId, v: Verifier, d: Instant)
    requires op.OpJoin? && AwaySince(r, p, v, d) && !Readmits(r, op, p) && op.now < d + 5 * 60 * NANOS_PER_SECOND
    ensures AwaySince(Step(r, op).room, p, v, d)
  {
    if p in r.reservations {
      PruneIsExact(r, p, op.now);
    }
  }

  lemma {:induction false} RunKeepsAway(r: Room, ops: seq<RoomOp>, p: PeerId, v: Verifier, d: Instant)
    requires RoomInv(r) && AwaySince(r, p, v, d) && !Run(r, ops).closing && !ComesBack(r, ops, p)
    requires AllBefore(ops, d + 5 * 60 * NANOS_PER_SECOND)
    ensures RoomInv(Run(r, ops)) && AwaySince(Run(r, ops), p, v, d)
    decreases |ops|
  {
    if ops != [] {
      StaysOpen(r, ops);
      StepKeeps(r, ops[0]);
      StepKeepsAway(r, ops[0], p, v, d);
      RunKeepsAway(Step(r, ops[0]).room, ops[1..], p, v, d);
    }
  }

  /** Somebody away is let in with its token; a guest by `resume` exactly within the five minutes. */
  lemma AwayIsAdmitted(r: Room, p: PeerId, token: Token, profile: Profile, resumeOnly: bool, now: Instant,
                       wall: WallTime,
                       v: Verifier, d: Instant)
    requires RoomInv(r) && !r.closing && AwaySince(r, p, v, d) && token.verifier == Some(v)
    ensures var e := JoinOrResume(r, p, token, profile, resumeOnly, now, wall).effects;
            if p == r.hostPeerId || now < d + 5 * 60 * NANOS_PER_SECOND
            then Comes(e, Admitted, r.nextConnId, Welcome(r, p, token, resumeOnly))
            else resumeOnly ==> e == Refusal(PeerIdUnavailable)
  {
    AdmissionIsExact(r, p, token, profile, resumeOnly, now, wall);
  }

  /** The promise: a peer admitted with a token, whatever then happened while it was connected, that is
      disconnected at `d`, gets back in with that token, by join or resume as it asks, for as long as its
      grace lasts, whatever the others do meanwhile short of closing the room. */
  lemma ReturnsWithinGrace(r0: Room, admission: RoomOp, p: PeerId, token: Token, c: ConnId, ops: seq<RoomOp>,
                           d: Instant, gone: WallTime, later: seq<RoomOp>,
                           profile: Profile, resumeOnly: bool, now: Instant, wall: WallTime)
    requires RoomInv(r0) && token.verifier.Some? && Admits(r0, admission, p, token.verifier.value, c)
    requires var r1 := Run(Step(r0, admission).room, ops); !r1.closing && Occupies(r1, p, c) && !Pending(r1, p)
    requires var away := Step(Run(Step(r0, admission).room, ops), OpDisconnect(p, c, d, gone)).room;
             !Run(away, later).closing && !ComesBack(away, later, p)
    requires AllBefore(later, d + 5 * 60 * NANOS_PER_SECOND) && now < d + 5 * 60 * NANOS_PER_SECOND
    ensures var r := Run(Step(Run(Step(r0, admission).room, ops), OpDisconnect(p, c, d, gone)).room, later);
            Comes(JoinOrResume(r, p, token, profile, resumeOnly, now, wall).effects, Admitted,
                  r.nextConnId, Welcome(r, p, token, resumeOnly))
  {
    var v := token.verifier.value;
    var entered := Step(r0, admission).room;
    AdmittedHas(r0, admission, p, v, c);
    var r1 := Run(entered, ops);
    RunKeeps(entered, ops);
    SeatKeepsCredential(entered, ops, p, c);
    DisconnectedIsAway(r1, p, c, d, gone);
    var away := Step(r1, OpDisconnect(p, c, d, gone)).room;
    StepKeeps(r1, OpDisconnect(p, c, d, gone));
    RunKeepsAway(away, later, p, v, d);
    AwayIsAdmitted(Run(away, later), p, token, profile, resumeOnly, now, wall, v, d);
  }

  /** A guest that was disconnected at `d` is pruned exactly from five minutes after. */
  lemma GraceIsExact(r: Room, p: PeerId, c: ConnId, d: Instant, gone: WallTime, t: Instant)
    requires RoomInv(r) && !r.closing && Occupies(r, p, c) && !Pending(r, p) && p != r.hostPeerId
    ensures p in Prune(Step(r, OpDisconnect(p, c, d, gone)).room, t).reservations <==> t < d + 5 * 60 * NANOS_PER_SECOND
  {
    DisconnectedIsAway(r, p, c, d, gone);
    PruneIsExact(Step(r, OpDisconnect(p, c, d, gone)).room, p, t);
  }
}
