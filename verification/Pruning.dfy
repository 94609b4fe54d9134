/** The cleanup sweep prunes expired reservations whenever it happens to run. No client can tell:
    removing every one of those prunings from a run leaves the effects of all other operations the
    same. The simulation relation is that two rooms prune to the same room. */
module Pruning {
  import opened Protocol
  import opened RoomSpec
  import opened RoomInvariant

  /** The instant at which `op` reads the monotonic clock, or `t` when it does not. */
  function At(op: RoomOp, t: Instant): Instant {
    match op
    case OpJoin(_, _, _, _, now, _) => now
    case OpDisconnect(_, _, now, _) => now
    case OpPrune(now) => now
    case _ => t
  }

  ghost predicate Same(r1: Room, r2: Room, t: Instant) {
    Prune(r1, t) == Prune(r2, t)
  }

  lemma PruneTwice(r: Room, t: Instant, t': Instant)
    requires t <= t'
    ensures Prune(Prune(r, t), t') == Prune(r, t')
  {
    assert Prune(Prune(r, t), t').reservations == Prune(r, t').reservations;
  }

  lemma SameLater(r1: Room, r2: Room, t: Instant, t': Instant)
    requires Same(r1, r2, t) && t <= t'
    ensures Same(r1, r2, t')
  {
    PruneTwice(r1, t, t');
    PruneTwice(r2, t, t');
  }

  /** Pruning drops neither a connected peer's reservation nor one whose release is pending. */
  lemma PruneSpares(r: Room, t: Instant, p: PeerId)
    requires p in r.peers || Pending(r, p)
    ensures p in Prune(r, t).reservations <==> p in r.reservations
    ensures p in r.reservations ==> Prune(r, t).reservations[p] == r.reservations[p]
  {
  }

  lemma PruneKeepsTargets(r: Room, t: Instant)
    ensures RosterOf(Prune(r, t)) == RosterOf(r)
    ensures Targets(Prune(r, t)) == Targets(r)
    ensures EligibilityNotice(Prune(r, t)) == EligibilityNotice(r)
  {
    var n := Prune(r, t);
    assert forall p :: p in r.peers ==> (p in Transferable(n) <==> p in Transferable(r));
  }

  /** Running `op` on the pruned room instead: the same effects, and rooms that still prune alike. */
  ghost predicate Commutes(r: Room, op: RoomOp, t: Instant) {
    && Step(r, op).effects == Step(Prune(r, t), op).effects
    && Same(Step(r, op).room, Step(Prune(r, t), op).room, At(op, t))
  }

  /** Rooms that prune alike publish the same notice. */
  lemma SameNotice(a: Room, b: Room, t: Instant)
    requires Same(a, b, t)
    ensures EligibilityNotice(a) == EligibilityNotice(b) && a.peers == b.peers
  {
    PruneKeepsTargets(a, t);
    PruneKeepsTargets(b, t);
    assert a.peers == Prune(a, t).peers;
  }

  lemma MarkCommutes(r: Room, p: PeerId, pending: bool, t: Instant)
    requires p in r.peers && p in r.reservations
    ensures p in Prune(r, t).reservations && Same(SetPending(r, p, pending), SetPending(Prune(r, t), p, pending), t)
  {
    var a, b := SetPending(r, p, pending), SetPending(Prune(r, t), p, pending);
    assert Prune(a, t).reservations == Prune(b, t).reservations;
  }

  lemma BeginLeaveCommutes(r: Room, op: RoomOp, t: Instant)
    requires op.OpBeginLeave?
    ensures Commutes(r, op, t)
  {
    PruneTwice(r, t, t);
    if MayLeave(r, op.peerId, op.connId, op.token, op.version) {
      MarkCommutes(r, op.peerId, true, t);
    }
  }

  lemma CommitCommutes(r: Room, p: PeerId, connId: ConnId, wall: WallTime, t: Instant)
    requires StillLeaving(r, p, connId)
    ensures Same(FinishLeave(r, p, connId, true, wall).room, FinishLeave(Prune(r, t), p, connId, true, wall).room, t)
  {
    var a, b := FinishLeave(r, p, connId, true, wall).room, FinishLeave(Prune(r, t), p, connId, true, wall).room;
    assert Prune(a, t).reservations == Prune(b, t).reservations;
  }

  lemma FinishLeaveCommutes(r: Room, op: RoomOp, t: Instant)
    requires op.OpFinishLeave?
    ensures Commutes(r, op, t)
  {
    PruneTwice(r, t, t);
    if StillLeaving(r, op.peerId, op.connId) {
      if op.persisted {
        CommitCommutes(r, op.peerId, op.connId, op.wall, t);
        SameNotice(Step(r, op).room, Step(Prune(r, t), op).room, t);
      } else {
        MarkCommutes(r, op.peerId, false, t);
      }
    }
  }

  lemma SwapCommutes(r: Room, target: PeerId, t: Instant)
    requires RoomInv(r) && target in r.peers && target in r.reservations
    ensures target in Prune(r, t).reservations && Same(SwapHost(r, target), SwapHost(Prune(r, t), target), t)
  {
    var a, b := SwapHost(r, target), SwapHost(Prune(r, t), target);
    assert Prune(a, t).reservations == Prune(b, t).reservations;
  }

  lemma TransferCommutes(r: Room, op: RoomOp, t: Instant)
    requires RoomInv(r) && op.OpTransfer?
    ensures Commutes(r, op, t)
  {
    PruneKeepsTargets(r, t);
    PruneTwice(r, t, t);
    if op.target in r.peers {
      PruneSpares(r, t, op.target);
    }
    if TransferRefusal(r, op.peerId, op.connId, op.version, op.target).None? {
      SwapCommutes(r, op.target, t);
      SameNotice(SwapHost(r, op.target), SwapHost(Prune(r, t), op.target), t);
    }
  }

  lemma AbsenceCommutes(r: Room, p: PeerId, connId: ConnId, now: Instant, wall: WallTime, t: Instant)
    requires !r.closing && Occupies(r, p, connId) && t <= now
    ensures Same(Disconnect(r, p, connId, now, wall).room, Disconnect(Prune(r, t), p, connId, now, wall).room, now)
  {
    var a, b := Disconnect(r, p, connId, now, wall).room, Disconnect(Prune(r, t), p, connId, now, wall).room;
    assert Prune(a, now).reservations == Prune(b, now).reservations;
  }

  lemma DisconnectCommutes(r: Room, op: RoomOp, t: Instant)
    requires op.OpDisconnect? && t <= op.now
    ensures Commutes(r, op, t)
  {
    PruneTwice(r, t, op.now);
    if !r.closing && Occupies(r, op.peerId, op.connId) {
      AbsenceCommutes(r, op.peerId, op.connId, op.now, op.wall, t);
      SameNotice(Step(r, op).room, Step(Prune(r, t), op).room, op.now);
    }
  }

  lemma ReturnCommutes(r: Room, op: RoomOp, t: Instant)
    requires RoomInv(r) && op.OpReturn?
    ensures Commutes(r, op, t)
  {
    var n := Prune(r, t);
    PruneTwice(r, t, t);
    if Guarded(r, op) {
      var r', n' := Step(r, op).room, Step(n, op).room;
      assert Prune(r', t).reservations == Prune(n', t).reservations;
      PruneKeepsTargets(r', t);
      PruneKeepsTargets(n', t);
    }
  }

  lemma StepCommutes(r: Room, op: RoomOp, t: Instant)
    requires RoomInv(r) && t <= At(op, t)
    ensures Commutes(r, op, t)
  {
    match op
    case OpReturn(_, _, _) => ReturnCommutes(r, op, t);
    case OpJoin(_, _, _, _, now, _) => PruneTwice(r, t, now);
    case OpBeginLeave(_, _, _, _) => BeginLeaveCommutes(r, op, t);
    case OpFinishLeave(_, _, _, _) => FinishLeaveCommutes(r, op, t);
    case OpTransfer(_, _, _, _) => TransferCommutes(r, op, t);
    case OpDisconnect(_, _, _, _) => DisconnectCommutes(r, op, t);
    case OpPrune(now) => PruneTwice(r, t, now);
    case OpFinishEnd(_, _) => ShutCommutes(r, op, t);
    case OpSweepClose(_) => ShutCommutes(r, op, t);
    case OpBroadcast(_, _, _, _) => BroadcastCommutes(r, op, t);
    case OpSendTo(_, _, _, _, _) => SendToCommutes(r, op, t);
    case OpBeginEnd(_, _, _, _) => BeginEndCommutes(r, op, t);
    case OpReclaim => ReclaimCommutes(r, op, t);
  }

  /** Fields other than peers and reservations may change alike. */
  lemma TouchCommutes(r: Room, t: Instant, wall: WallTime, closing: bool)
    ensures Same(r.(lastActivityAt := wall, closing := closing),
              Prune(r, t).(lastActivityAt := wall, closing := closing), t)
  {
    var a, b := r.(lastActivityAt := wall, closing := closing),
        Prune(r, t).(lastActivityAt := wall, closing := closing);
    assert Prune(a, t).reservations == Prune(b, t).reservations;
  }

  lemma BroadcastCommutes(r: Room, op: RoomOp, t: Instant)
    requires op.OpBroadcast?
    ensures Commutes(r, op, t)
  {
    PruneTwice(r, t, t);
    TouchCommutes(r, t, op.wall, r.closing);
  }

  lemma SendToCommutes(r: Room, op: RoomOp, t: Instant)
    requires op.OpSendTo?
    ensures Commutes(r, op, t)
  {
    PruneTwice(r, t, t);
    TouchCommutes(r, t, op.wall, r.closing);
  }

  lemma BeginEndCommutes(r: Room, op: RoomOp, t: Instant)
    requires op.OpBeginEnd?
    ensures Commutes(r, op, t)
  {
    PruneTwice(r, t, t);
    TouchCommutes(r, t, r.lastActivityAt, true);
  }

  lemma ReclaimCommutes(r: Room, op: RoomOp, t: Instant)
    requires op.OpReclaim?
    ensures Commutes(r, op, t)
  {
    PruneTwice(r, t, t);
    TouchCommutes(r, t, r.lastActivityAt, true);
  }

  lemma ShutCommutes(r: Room, op: RoomOp, t: Instant)
    requires op.OpFinishEnd? || op.OpSweepClose?
    ensures Commutes(r, op, t)
  {
    PruneTwice(r, t, t);
    var a, b := Prune(Step(r, op).room, t), Prune(Step(Prune(r, t), op).room, t);
    assert a.reservations == b.reservations;
  }

  /** The relation is a simulation: equal effects, and it holds again afterwards. */
  lemma Simulates(r1: Room, r2: Room, op: RoomOp, t: Instant)
    requires RoomInv(r1) && RoomInv(r2) && Same(r1, r2, t) && t <= At(op, t)
    ensures Step(r1, op).effects == Step(r2, op).effects
    ensures Same(Step(r1, op).room, Step(r2, op).room, At(op, t))
  {
    StepCommutes(r1, op, t);
    StepCommutes(r2, op, t);
  }

  // ---------------------------------------------------------------- whole runs

  /** The clock readings of a run never go back. */
  ghost predicate Timed(ops: seq<RoomOp>, t: Instant) {
    ops != [] ==> t <= At(ops[0], t) && Timed(ops[1..], At(ops[0], t))
  }

  function WithoutPrunes(ops: seq<RoomOp>): seq<RoomOp> {
    if ops == [] then []
    else (if ops[0].OpPrune? then [] else [ops[0]]) + WithoutPrunes(ops[1..])
  }

  /** Everything said to clients: the effects of each operation other than a sweep's pruning. */
  function Outputs(r: Room, ops: seq<RoomOp>): seq<Effects>
    decreases |ops|
  {
    if ops == [] then []
    else (if ops[0].OpPrune? then [] else [Step(r, ops[0]).effects]) + Outputs(Step(r, ops[0]).room, ops[1..])
  }

  lemma {:induction false} OutputsSimulate(r1: Room, r2: Room, ops: seq<RoomOp>, t: Instant)
    requires RoomInv(r1) && RoomInv(r2) && Same(r1, r2, t) && Timed(ops, t)
    ensures Outputs(r1, ops) == Outputs(r2, WithoutPrunes(ops))
    decreases |ops|
  {
    if ops != [] {
      var op, t' := ops[0], At(ops[0], t);
      StepKeeps(r1, op);
      if op.OpPrune? {
        SameLater(r1, r2, t, t');
        PruneTwice(r1, t', t');
        OutputsSimulate(Step(r1, op).room, r2, ops[1..], t');
        assert WithoutPrunes(ops) == WithoutPrunes(ops[1..]);
      } else {
        StepKeeps(r2, op);
        Simulates(r1, r2, op, t);
        OutputsSimulate(Step(r1, op).room, Step(r2, op).room, ops[1..], t');
        assert WithoutPrunes(ops)[0] == op && WithoutPrunes(ops)[1..] == WithoutPrunes(ops[1..]);
      }
    }
  }

  /** Two runs that differ only in when the sweep prunes say exactly the same things to every client. */
  lemma PruningIsInvisible(r: Room, ops1: seq<RoomOp>, ops2: seq<RoomOp>, t: Instant)
    requires RoomInv(r) && Timed(ops1, t) && Timed(ops2, t)
    requires WithoutPrunes(ops1) == WithoutPrunes(ops2)
    ensures Outputs(r, ops1) == Outputs(r, ops2)
  {
    OutputsSimulate(r, r, ops1, t);
    OutputsSimulate(r, r, ops2, t);
  }

  // ---------------------------------------------------------------- whole sweep visits

  /** An operation of a sweep visit that does not remove the room: the pruning, or an idle decision. */
  predicate IsIdleVisit(r: Room, op: RoomOp) {
    op.OpPrune? || (op.OpSweepClose? && !IsSwept(r, op.wall))
  }

  /** The operations of a run other than idle sweep visits. */
  function Heard(r: Room, ops: seq<RoomOp>): seq<RoomOp>
    decreases |ops|
  {
    if ops == [] then []
    else (if IsIdleVisit(r, ops[0]) then [] else [ops[0]]) + Heard(Step(r, ops[0]).room, ops[1..])
  }

  /** And their effects: everything said to clients. */
  function Said(r: Room, ops: seq<RoomOp>): seq<Effects>
    decreases |ops|
  {
    if ops == [] then []
    else (if IsIdleVisit(r, ops[0]) then [] else [Step(r, ops[0]).effects]) + Said(Step(r, ops[0]).room, ops[1..])
  }

  /** An idle visit says nothing and leaves a room that prunes alike. */
  lemma IdleVisitIsQuiet(r: Room, op: RoomOp, t: Instant)
    requires IsIdleVisit(r, op) && t <= At(op, t)
    ensures Step(r, op).effects == NO_EFFECTS && Same(Step(r, op).room, r, At(op, t))
  {
    if op.OpPrune? {
      PruneTwice(r, op.now, op.now);
    }
  }

  /** The run without its idle visits, on a room that prunes alike, says the same. */
  lemma {:induction false} HeardSaysTheSame(r1: Room, r2: Room, ops: seq<RoomOp>, t: Instant)
    requires RoomInv(r1) && RoomInv(r2) && Same(r1, r2, t) && Timed(ops, t)
    ensures Said(r1, ops) == Outputs(r2, Heard(r1, ops))
    decreases |ops|
  {
    if ops != [] {
      var op, t' := ops[0], At(ops[0], t);
      StepKeeps(r1, op);
      if IsIdleVisit(r1, op) {
        IdleVisitIsQuiet(r1, op, t);
        SameLater(r1, r2, t, t');
        HeardSaysTheSame(Step(r1, op).room, r2, ops[1..], t');
        assert Heard(r1, ops) == Heard(Step(r1, op).room, ops[1..]);
      } else {
        StepKeeps(r2, op);
        Simulates(r1, r2, op, t);
        HeardSaysTheSame(Step(r1, op).room, Step(r2, op).room, ops[1..], t');
        assert Heard(r1, ops)[0] == op && Heard(r1, ops)[1..] == Heard(Step(r1, op).room, ops[1..]);
      }
    }
  }

  /** Two runs that differ only in idle sweep visits, anywhere and any number of them, say exactly the
      same things to every client. */
  lemma VisitsAreInvisible(r: Room, ops1: seq<RoomOp>, ops2: seq<RoomOp>, t: Instant)
    requires RoomInv(r) && Timed(ops1, t) && Timed(ops2, t)
    requires Heard(r, ops1) == Heard(r, ops2)
    ensures Said(r, ops1) == Said(r, ops2)
  {
    HeardSaysTheSame(r, r, ops1, t);
    HeardSaysTheSame(r, r, ops2, t);
  }

  /** What one prune drops, exactly. */
  lemma PruneIsExact(r: Room, p: PeerId, now: Instant)
    requires p in r.reservations
    ensures p in Prune(r, now).reservations <==>
              || r.reservations[p].absentSince.None?
              || r.reservations[p].releasePending
              || p in r.peers
              || now < r.reservations[p].absentSince.value + PEER_RESERVATION_GRACE
  {
  }
}
