/** Conservation of the owners' counters over whole runs: it holds as long as no sweep takes a room out
    of the table between its begin_end_session and its table removal, and it can fail otherwise. */
module RaceFree {
  import opened Protocol
  import opened HostTransfer
  import opened RoomSpec
  import opened RegistrySpec
  import opened System
  import opened CoreInvariant
  import opened Moves
  import opened Closing
  import opened Books

  /** Whoever is ending a session now was ending the same one before. */
  ghost predicate EndersShrink(s: Sys, s': Sys) {
    forall b: ActorId :: b < |s'.actors| && Ending(s'.actors[b].pc) ==>
      b < |s.actors| && Ending(s.actors[b].pc) && s'.actors[b].current == s.actors[b].current
  }

  lemma CreateEnders(s: Sys, a: ActorId, sid: SessionId, p: PeerId, token: Token, owner: IpKey, profile: Profile,
                     wall: WallTime)
    requires IsFree(s, a) && TableWf(s.reg)
    ensures EndersShrink(s, DoCreate(s, a, sid, p, token, owner, profile, wall))
  {
    CreateCases(s, a, sid, p, token, owner, profile, wall);
  }

  lemma ActEnders(s: Sys, a: ActorId, act: Act)
    requires ActEnabled(s, a, act) && !act.ActBeginEnd?
    ensures EndersShrink(s, FireAct(s, a, act))
  {
    match act
    case ActCreate(sid, peerId, token, _, owner, profile, wall) =>
      CreateEnders(s, a, sid, peerId, token, owner, profile, wall);
    case ActFind(_, _, _, _, _, _) =>
    case ActJoin(now, wall) =>
    case ActBeginLeave(token, version) =>
    case ActSendLeave =>
    case ActFinishLeave(wall) =>
    case ActUnmapEnd =>
    case ActReleaseEnd =>
    case ActSendEnd =>
    case ActFinishEnd =>
    case ActRelay(op) =>
    case ActDisconnect(now, wall) =>
    case ActHangUp =>
  }

  lemma BeginEndEnders(s: Sys, a: ActorId, token: Token, version: nat)
    requires Core(s) && OneEnder(s) && IsIdle(s, a) && IsSeated(s, a)
    ensures OneEnder(DoBeginEnd(s, a, token, version))
  {
    forall b | 0 <= b < |s.actors| ensures PcOk(s.reg.arena, s.actors[b]) {
    }
  }

  lemma StepEnders(s: Sys, ev: Event)
    requires Core(s) && OneEnder(s)
    ensures OneEnder(Apply(s, ev))
  {
    match ev
    case Connect => assert EndersShrink(s, Apply(s, ev));
    case Client(a, act) =>
      if ActEnabled(s, a, act) {
        if act.ActBeginEnd? {
          BeginEndEnders(s, a, act.token, act.version);
        } else {
          ActEnders(s, a, act);
        }
      }
    case Disk(act) =>
      if DiskEnabled(s, act) {
        DiskFrame(s, act);
      }
    case Clean(act) =>
  }

  // ---------------------------------------------------------------- staying ahead of the sweep

  /** Closing rooms in the table stay in it, and stay closing. */
  ghost predicate StaysMapped(reg: Reg, reg': Reg) {
    |reg.arena| <= |reg'.arena|
    && forall x: RoomRef :: x < |reg.arena| && reg.arena[x].closing && IsCurrent(reg, x) ==>
        IsCurrent(reg', x) && reg'.arena[x].closing
  }

  lemma VacateStaysMapped(reg: Reg, sid: SessionId)
    requires TableWf(reg) && sid in reg.table && !reg.arena[reg.table[sid]].closing
    ensures StaysMapped(reg, Vacate(reg, sid))
  {
  }

  lemma InsertStaysMapped(reg: Reg, sid: SessionId, room: Room, owner: IpKey)
    requires sid !in reg.table
    ensures StaysMapped(reg, InsertRoom(reg, sid, room, owner))
  {
  }

  /** Nobody newly stands between the two steps, except as the new state allows. */
  ghost predicate BegunKept(s: Sys, s': Sys) {
    && (forall b: ActorId :: b < |s'.actors| && s'.actors[b].pc.EndBegun? ==>
        b < |s.actors| && s'.actors[b] == s.actors[b])
    && (forall b: ActorId :: b < |s'.actors| && s'.actors[b].pc.EndUnmapped? ==>
          b < |s.actors| && s.actors[b].pc.EndUnmapped? && s'.actors[b] == s.actors[b])
  }

  lemma UnracedKept(s: Sys, s': Sys)
    requires Core(s) && Unraced(s) && StaysMapped(s.reg, s'.reg) && BegunKept(s, s')
    ensures Unraced(s')
  {
    forall b: ActorId | b < |s'.actors| && s'.actors[b].pc.EndBegun? && IsSeated(s', b)
        ensures IsCurrent(s'.reg, HoldingOf(s', b).room) {
      assert PcOk(s.reg.arena, s.actors[b]);
    }
  }

  lemma MoveStaysMapped(s: Sys, s': Sys, a: ActorId, ref: RoomRef, admitted: set<PeerId>)
    requires Moved(s, s', a, ref, admitted) && s'.reg.table == s.reg.table
    ensures StaysMapped(s.reg, s'.reg)
  {
    forall x: RoomRef | x < |s.reg.arena| && IsCurrent(s.reg, x) ensures IsCurrent(s'.reg, x) {
      MovedKeepsCurrent(s, s', a, ref, admitted, x);
    }
  }

  lemma CreateStaysMapped(s: Sys, a: ActorId, sid: SessionId, p: PeerId, token: Token, owner: IpKey, profile: Profile,
                          wall: WallTime)
    requires Core(s) && IsFree(s, a)
    ensures StaysMapped(s.reg, DoCreate(s, a, sid, p, token, owner, profile, wall).reg)
  {
    CreateCases(s, a, sid, p, token, owner, profile, wall);
    if IsReturn(s, sid, p, token) {
      ReturnMoves(s, a, s.reg.table[sid], token, profile);
      MoveStaysMapped(s, Returned(s, a, s.reg.table[sid], token, profile), a, s.reg.table[sid], {});
    } else {
      if Cleared(s, sid) != s {
        VacateStaysMapped(s.reg, sid);
      }
      if token.verifier.Some? && sid !in Cleared(s, sid).reg.table {
        InsertStaysMapped(Cleared(s, sid).reg, sid, NewRoom(sid, p, token.verifier.value, token, owner, profile,
            wall).room, owner);
      }
    }
  }

  /** An accepted endSession starts with its room in the table. */
  lemma AcceptedEndUnraced(s: Sys, s': Sys, a: ActorId)
    requires Core(s) && Unraced(s) && IsIdle(s, a) && IsSeated(s, a) && IsCurrent(s.reg, HoldingOf(s, a).room)
    requires |s'.actors| == |s.actors| && s'.actors[a].current == s.actors[a].current && s'.actors[a].pc.EndBegun?
    requires forall b :: 0 <= b < |s.actors| && b != a ==> s'.actors[b] == s.actors[b]
    requires |s'.reg.arena| == |s.reg.arena| && forall x: RoomRef :: x < |s.reg.arena| ==>
               (IsCurrent(s.reg, x) ==> IsCurrent(s'.reg, x))
    ensures Unraced(s')
  {
  }

  lemma RefusedEndUnraced(s: Sys, a: ActorId, token: Token, version: nat)
    requires Unraced(s) && IsIdle(s, a) && IsSeated(s, a)
               && !MayEnd(RoomOf(s, a), HoldingOf(s, a).peerId, HoldingOf(s, a).connId, token, version)
    ensures Unraced(DoBeginEnd(s, a, token, version))
  {
  }

  lemma BeginEndUnraced(s: Sys, a: ActorId, token: Token, version: nat)
    requires Core(s) && ClosingOk(s) && Unraced(s) && IsIdle(s, a) && IsSeated(s, a)
    ensures Unraced(DoBeginEnd(s, a, token, version))
  {
    var s' := DoBeginEnd(s, a, token, version);
    if MayEnd(RoomOf(s, a), HoldingOf(s, a).peerId, HoldingOf(s, a).connId, token, version) {
      assert IsCurrent(s.reg, HoldingOf(s, a).room);
      AcceptedEndUnraced(s, s', a);
    } else {
      RefusedEndUnraced(s, a, token, version);
    }
  }

  lemma UnmapEndUnraced(s: Sys, a: ActorId)
    requires Core(s) && Unraced(s) && OneEnder(s) && IsSeated(s, a) && s.actors[a].pc.EndBegun?
    ensures Unraced(DoUnmapEnd(s, a))
  {
    var s' := DoUnmapEnd(s, a);
    UnmapIsExact(s.reg, HoldingOf(s, a).room);
    forall b: ActorId | b < |s'.actors| && s'.actors[b].pc.EndBegun? && IsSeated(s', b)
        ensures IsCurrent(s'.reg, HoldingOf(s', b).room) {
      assert b != a && IsCurrent(s.reg, HoldingOf(s, b).room);
    }
  }

  lemma ActBegunKept(s: Sys, a: ActorId, act: Act)
    requires ActEnabled(s, a, act) && !act.ActBeginEnd? && !act.ActUnmapEnd?
    ensures BegunKept(s, FireAct(s, a, act))
  {
  }

  lemma ActUnraced(s: Sys, a: ActorId, act: Act)
    requires Core(s) && ClosingOk(s) && OneEnder(s) && Unraced(s) && ActEnabled(s, a, act)
    ensures Unraced(FireAct(s, a, act))
  {
    if act.ActBeginEnd? {
      BeginEndUnraced(s, a, act.token, act.version);
    } else if act.ActUnmapEnd? {
      UnmapEndUnraced(s, a);
    } else {
      ActBegunKept(s, a, act);
      ActStaysMapped(s, a, act);
      UnracedKept(s, FireAct(s, a, act));
    }
  }

  lemma ActStaysMapped(s: Sys, a: ActorId, act: Act)
    requires Core(s) && ActEnabled(s, a, act) && !act.ActUnmapEnd?
    ensures StaysMapped(s.reg, FireAct(s, a, act).reg)
  {
    if IsMove(act) {
      ActMoves(s, a, act);
      MoveFrame(s, a, act);
      MovePcs(s, a, act);
      MoveStaysMapped(s, FireAct(s, a, act), a, MovedRoom(s, a, act), AdmittedBy(s, a, act));
    } else if act.ActCreate? {
      CreateStaysMapped(s, a, act.sid, act.peerId, act.token, act.owner, act.profile, act.wall);
    }
  }

  lemma SweepUnmapUnraced(s: Sys)
    requires Core(s) && Unraced(s) && SweepEnabled(s, SweepUnmap) && !Races(s, Clean(SweepUnmap))
    ensures Unraced(DoSweepUnmap(s))
  {
    var s' := DoSweepUnmap(s);
    UnmapIsExact(s.reg, s.sweep.stage.room);
    forall b: ActorId | b < |s'.actors| && s'.actors[b].pc.EndBegun? && IsSeated(s', b)
        ensures IsCurrent(s'.reg, HoldingOf(s', b).room) {
      assert IsCurrent(s.reg, HoldingOf(s, b).room);
      assert EndsRoom(s.actors, b, HoldingOf(s, b).room);
    }
  }

  lemma SweepUnraced(s: Sys, act: SweepAct)
    requires Core(s) && Unraced(s) && SweepEnabled(s, act) && !Races(s, Clean(act))
    ensures Unraced(FireSweep(s, act))
  {
    match act
    case SweepRoom(ref, now) =>
      SweepMoves(s, ref, now);
      MoveStaysMapped(s, DoSweepRoom(s, ref, now), |s.actors|, ref, {});
      UnracedKept(s, DoSweepRoom(s, ref, now));
    case SweepUnmap => SweepUnmapUnraced(s);
    case _ => UnracedKept(s, FireSweep(s, act));
  }

  lemma StepUnraced(s: Sys, ev: Event)
    requires Core(s) && ClosingOk(s) && OneEnder(s) && Unraced(s) && !Races(s, ev)
    ensures Unraced(Apply(s, ev))
  {
    match ev
    case Connect => UnracedKept(s, Apply(s, ev));
    case Client(a, act) =>
      if ActEnabled(s, a, act) {
        ActUnraced(s, a, act);
      }
    case Disk(act) =>
      if DiskEnabled(s, act) {
        DiskFrame(s, act);
      }
    case Clean(act) =>
      if SweepEnabled(s, act) {
        SweepUnraced(s, act);
      }
  }

  /** While no endSession has lost its room, no release overcharges. */
  lemma UnracedNeverOvercharges(s: Sys, ev: Event)
    requires Unraced(s)
    ensures !Overcharges(s, ev)
  {
  }
}
