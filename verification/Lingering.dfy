/** What outlasts its owner. A guest connected when the file was written comes back from a restart with
    a reservation that never expires, and a seat given up by a refused endSession stays taken. Both last
    until that peer is admitted again or the room closes. */
module Lingering {
  import opened Protocol
  import opened HostTransfer
  import opened RoomSpec
  import opened RoomInvariant
  import opened Admission
  import opened Snapshot
  import opened RegistrySpec
  import opened System
  import opened Seating
  import opened CoreInvariant
  import opened Moves
  import opened Runs
  import opened RoomHistory

  // ---------------------------------------------------------------- reservations without an absence time

  /** A reservation of somebody who is away, without the time since when. */
  predicate Untimed(r: Room, p: PeerId) {
    p in r.reservations && p !in r.peers && r.reservations[p].absentSince.None? && !r.reservations[p].releasePending
  }

  /** A restart leaves exactly the guests who were there, or had no absence time already, untimed. */
  lemma RestartUntimes(r: Room, saved: Clock, loaded: Clock, p: PeerId)
    requires RoomInv(r)
    ensures Untimed(Restore(Survivor(r, saved, loaded)), p) <==>
              p in r.reservations && !r.reservations[p].releasePending && r.reservations[p].absentSince.None?
    ensures p in r.peers && p != r.hostPeerId && !Pending(r, p) ==> Untimed(Restore(Survivor(r, saved, loaded)), p)
  {
  }

  lemma StepLingers(r: Room, op: RoomOp, p: PeerId)
    requires RoomInv(r) && Untimed(r, p) && !Step(r, op).room.closing && !Readmits(r, op, p)
    ensures Untimed(Step(r, op).room, p) && Step(r, op).room.reservations[p] == r.reservations[p]
  {
    match op
    case OpJoin(_, _, _, _, _, _) => JoinLingers(r, op, p);
    case OpReturn(_, _, _) =>
    case OpTransfer(_, _, _, _) =>
    case OpBeginLeave(_, _, _, _) =>
    case OpFinishLeave(_, _, _, _) =>
    case OpDisconnect(_, _, _, _) =>
    case _ =>
  }

  lemma JoinLingers(r: Room, op: RoomOp, p: PeerId)
    requires op.OpJoin? && Untimed(r, p) && !Readmits(r, op, p)
    ensures Untimed(Step(r, op).room, p) && Step(r, op).room.reservations[p] == r.reservations[p]
  {
  }

  /** Such a reservation outlasts every run, at whatever times, unless the room closes or the peer returns. */
  lemma {:induction false} LingersForever(r: Room, ops: seq<RoomOp>, p: PeerId)
    requires RoomInv(r) && Untimed(r, p) && !Run(r, ops).closing && !ComesBack(r, ops, p)
    ensures Untimed(Run(r, ops), p) && Run(r, ops).reservations[p] == r.reservations[p]
    decreases |ops|
  {
    if ops != [] {
      StaysOpen(r, ops);
      StepKeeps(r, ops[0]);
      StepLingers(r, ops[0], p);
      LingersForever(Step(r, ops[0]).room, ops[1..], p);
    }
  }

  /** Every guest seat of the room is taken by somebody who is away without an absence time. */
  ghost predicate AllAway(r: Room) {
    |r.reservations| == MAX_ROOM_SIZE - 1 && forall p :: p in r.reservations ==> Untimed(r, p)
  }

  lemma SameSize(a: set<PeerId>, b: set<PeerId>)
    requires a <= b && |b| <= |a|
    ensures a == b
  {
    assert b == a + (b - a);
  }

  lemma AllStayAway(r: Room, ops: seq<RoomOp>)
    requires RoomInv(r) && AllAway(r) && !Run(r, ops).closing
    requires forall p :: p in r.reservations ==> !ComesBack(r, ops, p)
    ensures Run(r, ops).reservations == r.reservations && AllAway(Run(r, ops))
  {
    var r' := Run(r, ops);
    forall p | p in r.reservations ensures Untimed(r', p) && r'.reservations[p] == r.reservations[p] {
      LingersForever(r, ops, p);
    }
    RunKeeps(r, ops);
    SameSize(r.reservations.Keys, r'.reservations.Keys);
  }

  lemma FullRefuses(r: Room, q: PeerId, token: Token, profile: Profile, resumeOnly: bool, now: Instant, wall: WallTime)
    requires RoomInv(r) && AllAway(r) && !r.closing && IsNewIdentity(r, q)
    ensures JoinOrResume(r, q, token, profile, resumeOnly, now, wall).effects
            == Refusal(if !resumeOnly && token.verifier.Some? then RoomFull else PeerIdUnavailable)
  {
    assert Prune(r, now).reservations == r.reservations;
  }

  /** A full room that was saved with everybody present refuses every newcomer after the restart,
      however long, until one of the seven returns or the room closes. */
  lemma RestartCrowdsOut(r: Room, saved: Clock, loaded: Clock, ops: seq<RoomOp>,
                         q: PeerId, token: Token, profile: Profile, now: Instant, wall: WallTime)
    requires RoomInv(r) && |r.reservations| == MAX_ROOM_SIZE - 1
    requires forall p :: p in r.reservations ==> p in r.peers && !Pending(r, p)
    requires var r0 := Restore(Survivor(r, saved, loaded));
             !Run(r0, ops).closing && (forall p :: p in r.reservations ==> !ComesBack(r0, ops, p))
                 && IsNewIdentity(Run(r0, ops), q)
    requires token.verifier.Some?
    ensures JoinOrResume(Run(Restore(Survivor(r, saved, loaded)), ops), q, token, profile, false, now, wall).effects
              == Refusal(RoomFull)
  {
    var r0 := Restore(Survivor(r, saved, loaded));
    WrittenRoomsKeep(r, saved, loaded);
    AllStayAway(r0, ops);
    RunKeeps(r0, ops);
    FullRefuses(Run(r0, ops), q, token, profile, false, now, wall);
  }

  lemma WrittenRoomsKeep(r: Room, saved: Clock, loaded: Clock)
    requires RoomInv(r) && |r.reservations| == MAX_ROOM_SIZE - 1
    requires forall p :: p in r.reservations ==> p in r.peers && !Pending(r, p)
    ensures var r0 := Restore(Survivor(r, saved, loaded));
            RoomInv(r0) && AllAway(r0) && r0.reservations.Keys == r.reservations.Keys
  {
    var r0 := Restore(Survivor(r, saved, loaded));
    forall p | p in r.reservations ensures Untimed(r0, p) {
      RestartUntimes(r, saved, loaded, p);
    }
    assert r0.reservations.Keys == r.reservations.Keys;
  }

  /** The same in the running relay: a room restored with an untimed reservation keeps it through every
      run, unless it closes or the run admits that peer. */
  lemma RestoredReservationLingers(restored: seq<RestoredRoom>, file: seq<Captured>, evs: seq<Event>, ref: RoomRef,
                                   p: PeerId)
    requires Bootable(restored) && ref < |restored| && p in restored[ref].reservations
               && restored[ref].reservations[p].absentSince.None?
    ensures var s := Boot(restored, file);
            var arena := Exec(s, evs).reg.arena;
            && ref < |arena|
            && (arena[ref].closing || ComesBack(Restore(restored[ref]), History(s, evs, ref), p)
                || (Untimed(arena[ref], p)
                    && arena[ref].reservations[p].verifier == restored[ref].reservations[p].verifier))
  {
    var s := Boot(restored, file);
    RestoreAllMaps(restored);
    BootInv(restored, file);
    RelayRunsAreRoomRuns(s, evs, ref);
    var r := Restore(restored[ref]);
    if !Run(r, History(s, evs, ref)).closing && !ComesBack(r, History(s, evs, ref), p) {
      LingersForever(r, History(s, evs, ref), p);
    }
  }

  // ---------------------------------------------------------------- seats nobody holds

  /** No operation of the run presents connection id `c`. */
  ghost predicate NeverPresented(ops: seq<RoomOp>, c: ConnId) {
    forall i :: 0 <= i < |ops| && Presented(ops[i]).Some? ==> Presented(ops[i]).value.1 != c
  }

  lemma StepKeepsSeat(r: Room, op: RoomOp, p: PeerId, c: ConnId)
    requires Occupies(r, p, c) && !Step(r, op).room.closing && !Readmits(r, op, p)
    requires Presented(op).Some? ==> Presented(op).value.1 != c
    ensures Occupies(Step(r, op).room, p, c)
  {
  }

  lemma {:induction false} RunKeepsSeat(r: Room, ops: seq<RoomOp>, p: PeerId, c: ConnId)
    requires Occupies(r, p, c) && !Run(r, ops).closing && !ComesBack(r, ops, p) && NeverPresented(ops, c)
    ensures Occupies(Run(r, ops), p, c)
    decreases |ops|
  {
    if ops != [] {
      StaysOpen(r, ops);
      StepKeepsSeat(r, ops[0], p, c);
      RunKeepsSeat(Step(r, ops[0]).room, ops[1..], p, c);
    }
  }

  /** A connection presents only the seat it holds, and nobody holds an abandoned one. */
  lemma OpsPresentHeld(s: Sys, ev: Event, ref: RoomRef, c: ConnId)
    requires Core(s) && (ref, c) in s.log.abandoned
    ensures NeverPresented(Ops(s, ev, ref), c)
  {
    if ev.Client? && ActEnabled(s, ev.a, ev.act) && IsMove(ev.act) && MovedRoom(s, ev.a, ev.act) == ref {
      if !ev.act.ActJoin? {
        assert HoldingOk(s.reg.arena, s.log.abandoned, s.actors[ev.a].current.value);
        assert HoldingOf(s, ev.a).connId != c;
      }
    }
  }

  lemma AbandonedStays(s: Sys, ev: Event)
    ensures s.log.abandoned <= Apply(s, ev).log.abandoned
  {
  }

  lemma {:induction false} HistoryPresentsHeld(s: Sys, evs: seq<Event>, ref: RoomRef, c: ConnId)
    requires Inv(s) && (ref, c) in s.log.abandoned
    ensures NeverPresented(History(s, evs, ref), c) && (ref, c) in Exec(s, evs).log.abandoned
    decreases |evs|
  {
    if evs != [] {
      var before := evs[..|evs| - 1];
      HistoryPresentsHeld(s, before, ref, c);
      ExecInv(s, before);
      OpsPresentHeld(Exec(s, before), evs[|evs| - 1], ref, c);
      AbandonedStays(Exec(s, before), evs[|evs| - 1]);
    }
  }

  /** Taken by nobody: no connection holds the seat, and because of it the session cannot be reclaimed and
      the sweep removes the room only for its age. */
  ghost predicate Haunted(s: Sys, ref: RoomRef, p: PeerId, c: ConnId) {
    && ref < |s.reg.arena| && Occupies(s.reg.arena[ref], p, c)
    && (forall b: ActorId :: !HeldBy(s.actors, b, ref, p, c))
    && !IsReclaimable(s.reg.arena[ref])
    && forall wall :: IsSwept(s.reg.arena[ref], wall) <==> IsExpired(s.reg.arena[ref], wall)
  }

  lemma AbandonedIsHaunted(s: Sys, ref: RoomRef, p: PeerId, c: ConnId)
    requires Core(s) && (ref, c) in s.log.abandoned && ref < |s.reg.arena| && Occupies(s.reg.arena[ref], p, c)
    ensures Haunted(s, ref, p, c)
  {
    forall b: ActorId ensures !HeldBy(s.actors, b, ref, p, c) {
      if b < |s.actors| && s.actors[b].current.Some? {
        assert HoldingOk(s.reg.arena, s.log.abandoned, s.actors[b].current.value);
      }
    }
    assert p in s.reg.arena[ref].peers;
  }

  /** A seat given up by a refused endSession stays taken in every continuation, until the room closes or
      the run admits that peer again. */
  lemma OrphanedSeatStays(s: Sys, evs: seq<Event>, ref: RoomRef, p: PeerId, c: ConnId)
    requires Inv(s) && (ref, c) in s.log.abandoned && ref < |s.reg.arena| && Occupies(s.reg.arena[ref], p, c)
    ensures var s' := Exec(s, evs);
            && ref < |s'.reg.arena|
            && (s'.reg.arena[ref].closing || ComesBack(s.reg.arena[ref], History(s, evs, ref), p)
                || Haunted(s', ref, p, c))
  {
    var s', r, ops := Exec(s, evs), s.reg.arena[ref], History(s, evs, ref);
    RelayRunsAreRoomRuns(s, evs, ref);
    HistoryPresentsHeld(s, evs, ref, c);
    ExecInv(s, evs);
    if !Run(r, ops).closing && !ComesBack(r, ops, p) {
      RunKeepsSeat(r, ops, p, c);
      AbandonedIsHaunted(s', ref, p, c);
    }
  }
}
