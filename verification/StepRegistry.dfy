/** Every event keeps the table invariant, and keeps the owners' books exactly unless it overcharges. */
module StepRegistry {
  import opened Protocol
  import opened HostTransfer
  import opened RoomSpec
  import opened RegistrySpec
  import opened System
  import opened Seats
  import opened CoreInvariant
  import opened Moves
  import opened Closing
  import opened Books

  // ---------------------------------------------------------------- the table

  lemma SameTableClosing(s: Sys, s': Sys)
    requires ClosingOk(s) && s'.reg.arena == s.reg.arena && s'.reg.table == s.reg.table && RemoversKept(s, s', {})
               && SweepOk(s')
    ensures ClosingOk(s')
  {
    forall x | 0 <= x < |s'.reg.arena|
      ensures !s'.reg.arena[x].closing ==> IsCurrent(s'.reg, x)
      ensures s'.reg.arena[x].closing && IsCurrent(s'.reg, x) ==> Remover(s', x)
    {
      assert IsCurrent(s'.reg, x) <==> IsCurrent(s.reg, x);
    }
  }

  lemma ReturnClosing(s: Sys, a: ActorId, ref: RoomRef, token: Token, profile: Profile)
    requires Core(s) && ClosingOk(s) && IsFree(s, a) && ref < |s.reg.arena| && !s.reg.arena[ref].closing
    ensures ClosingOk(Returned(s, a, ref, token, profile))
  {
    var s' := Returned(s, a, ref, token, profile);
    ReturnMoves(s, a, ref, token, profile);
    ActorKeepsRemovers(s, s', a);
    MovedClosing(s, s', a, ref, {});
  }

  lemma InsertedClosing(s: Sys, a: ActorId, sid: SessionId, p: PeerId, room: Room, owner: IpKey)
    requires ClosingOk(s) && TableWf(s.reg) && IsFree(s, a) && sid !in s.reg.table && room.sessionId == sid
               && !room.closing
    ensures ClosingOk(Inserted(s, a, sid, p, room, owner))
  {
    ActorKeepsRemovers(s, Inserted(s, a, sid, p, room, owner), a);
    InsertClosing(s, Inserted(s, a, sid, p, room, owner), sid, room, owner);
  }

  lemma CreateClosing(s: Sys, a: ActorId, sid: SessionId, p: PeerId, token: Token, owner: IpKey, profile: Profile,
                      wall: WallTime)
    requires Core(s) && ClosingOk(s) && IsFree(s, a)
    ensures ClosingOk(DoCreate(s, a, sid, p, token, owner, profile, wall))
  {
    CreateCases(s, a, sid, p, token, owner, profile, wall);
    if IsReturn(s, sid, p, token) {
      ReturnClosing(s, a, s.reg.table[sid], token, profile);
    } else {
      var cleared := Cleared(s, sid);
      if cleared != s {
        VacateClosing(s, sid);
        VacateTable(s.reg, sid);
      }
      if token.verifier.Some? && sid !in cleared.reg.table {
        InsertedClosing(cleared, a, sid, p, NewRoom(sid, p, token.verifier.value, token, owner, profile, wall).room,
            owner);
      }
    }
  }

  lemma VacateTable(reg: Reg, sid: SessionId)
    requires TableWf(reg) && sid in reg.table
    ensures TableWf(Vacate(reg, sid))
  {
  }

  /** Only an accepted endSession closes a room among the connections' own steps. */
  lemma MoveCloses(s: Sys, a: ActorId, act: Act)
    requires IsMove(act) && ActEnabled(s, a, act)
    ensures var ref := MovedRoom(s, a, act);
            !s.reg.arena[ref].closing && FireAct(s, a, act).reg.arena[ref].closing && !act.ActFinishEnd? ==>
              EndsRoom(FireAct(s, a, act).actors, a, ref)
  {
  }

  lemma MoveClosing(s: Sys, a: ActorId, act: Act)
    requires Core(s) && ClosingOk(s) && IsMove(act) && ActEnabled(s, a, act)
    ensures ClosingOk(FireAct(s, a, act))
  {
    var s' := FireAct(s, a, act);
    ActMoves(s, a, act);
    MoveFrame(s, a, act);
    MovePcs(s, a, act);
    MoveCloses(s, a, act);
    ActorKeepsRemovers(s, s', a);
    assert PcOk(s.reg.arena, s.actors[a]);
    MovedClosing(s, s', a, MovedRoom(s, a, act), AdmittedBy(s, a, act));
  }

  /** A connection moves on without touching rooms or table, and was not about to remove one. */
  lemma ActorClosing(s: Sys, s': Sys, a: ActorId, actor: Actor)
    requires ClosingOk(s) && s'.reg.arena == s.reg.arena && s'.reg.table == s.reg.table && s'.sweep == s.sweep
    requires a < |s.actors| && !s.actors[a].pc.EndBegun? && s'.actors == s.actors[a := actor]
    ensures ClosingOk(s')
  {
    forall x: RoomRef | Remover(s, x) ensures Remover(s', x) {
      if b :| EndsRoom(s.actors, b, x) {
        assert EndsRoom(s'.actors, b, x);
      }
    }
    SameTableClosing(s, s');
  }

  lemma ActClosing(s: Sys, a: ActorId, act: Act)
    requires Core(s) && ClosingOk(s) && ActEnabled(s, a, act)
    ensures ClosingOk(FireAct(s, a, act))
  {
    if IsMove(act) {
      MoveClosing(s, a, act);
    } else {
      match act
      case ActCreate(sid, p, token, _, owner, profile, wall) =>
        CreateClosing(s, a, sid, p, token, owner, profile, wall);
      case ActUnmapEnd => UnmapEndClosing(s, a);
      case ActReleaseEnd =>
        ActorClosing(s, DoReleaseEnd(s, a), a, s.actors[a].(pc := EndReleased(s.actors[a].pc.guests)));
      case ActSendLeave =>
        ActorClosing(s, DoSend(s, a, LeaveWaiting(s.nextTicket)), a, s.actors[a].(pc := LeaveWaiting(s.nextTicket)));
      case ActSendEnd =>
        var pc := EndWaiting(s.actors[a].pc.guests, s.nextTicket);
        ActorClosing(s, DoSend(s, a, pc), a, s.actors[a].(pc := pc));
      case ActFind(sid, p, token, _, profile, resumeOnly) =>
        ActorClosing(s, FireAct(s, a, act), a,
            s.actors[a].(pc := Joining(s.reg.table[sid], p, token, profile, resumeOnly)));
      case ActHangUp => ActorClosing(s, FireAct(s, a, act), a, Actor(None, Gone));
    }
  }

  lemma SweepRoomClosing(s: Sys, ref: RoomRef, now: Instant)
    requires ClosingOk(s) && s.sweep.Sweeping? && s.sweep.stage.Walking? && ref < |s.reg.arena|
    ensures ClosingOk(DoSweepRoom(s, ref, now))
  {
    SweepMoves(s, ref, now);
    SweepShape(s.reg.arena[ref], now, s.sweep.wall);
    MovedClosing(s, DoSweepRoom(s, ref, now), |s.actors|, ref, {});
  }

  lemma SweepClosing(s: Sys, act: SweepAct)
    requires ClosingOk(s) && SweepEnabled(s, act)
    ensures ClosingOk(FireSweep(s, act))
  {
    match act
    case SweepRoom(ref, now) => SweepRoomClosing(s, ref, now);
    case SweepUnmap => SweepUnmapClosing(s);
    case _ => SameTableClosing(s, FireSweep(s, act));
  }

  lemma StepClosing(s: Sys, ev: Event)
    requires Core(s) && ClosingOk(s)
    ensures ClosingOk(Apply(s, ev))
  {
    match ev
    case Connect =>
      var s' := Apply(s, ev);
      forall x: RoomRef | Remover(s, x) ensures Remover(s', x) {
        if b :| EndsRoom(s.actors, b, x) {
          assert EndsRoom(s'.actors, b, x);
        }
      }
      SameTableClosing(s, s');
    case Client(a, act) =>
      if ActEnabled(s, a, act) {
        ActClosing(s, a, act);
      }
    case Disk(act) =>
      if DiskEnabled(s, act) {
        DiskFrame(s, act);
        SameTableClosing(s, FireDisk(s, act));
      }
    case Clean(act) =>
      if SweepEnabled(s, act) {
        SweepClosing(s, act);
      }
  }

  // ---------------------------------------------------------------- the counters

  lemma CreateBooks(s: Sys, a: ActorId, sid: SessionId, p: PeerId, token: Token, owner: IpKey, profile: Profile,
                    wall: WallTime, k: IpKey)
    requires Core(s) && ClosingOk(s) && IsFree(s, a) && ValidSessionId(sid)
    ensures Shifts(Balance(s, k), Balance(DoCreate(s, a, sid, p, token, owner, profile, wall), k), 0)
  {
    CreateCases(s, a, sid, p, token, owner, profile, wall);
    var s' := DoCreate(s, a, sid, p, token, owner, profile, wall);
    if IsReturn(s, sid, p, token) {
      ReturnMoves(s, a, s.reg.table[sid], token, profile);
      MovedBooks(s, s', a, s.reg.table[sid], {}, k);
    } else {
      var cleared := Cleared(s, sid);
      if cleared != s {
        VacateBooks(s, sid, k);
        VacateCore(s, sid);
        VacateClosing(s, sid);
      }
      if s' != s && s' != cleared {
        InsertBooks(cleared, a, sid, p, NewRoom(sid, p, token.verifier.value, token, owner, profile, wall).room, owner,
            k);
      }
    }
  }

  lemma MoveBooks(s: Sys, a: ActorId, act: Act, k: IpKey)
    requires Core(s) && IsMove(act) && ActEnabled(s, a, act)
    ensures Balance(FireAct(s, a, act), k) == Balance(s, k)
  {
    ActMoves(s, a, act);
    MoveFrame(s, a, act);
    MovePcs(s, a, act);
    MovedBooks(s, FireAct(s, a, act), a, MovedRoom(s, a, act), AdmittedBy(s, a, act), k);
  }

  /** How far off `ev` puts the books of `k`. */
  function Overcharge(s: Sys, ev: Event, k: IpKey): int {
    if Overcharges(s, ev) && RoomOf(s, ev.a).ownerIpKey == k then 1 else 0
  }

  /** A connection's step unbalances `k` by at most one, and only when it overcharges `k`. */
  lemma ActBooks(s: Sys, a: ActorId, act: Act, k: IpKey)
    requires Core(s) && ClosingOk(s) && ActEnabled(s, a, act)
    ensures Shifts(Balance(s, k), Balance(FireAct(s, a, act), k), Overcharge(s, Client(a, act), k))
  {
    if IsMove(act) {
      MoveBooks(s, a, act, k);
    } else {
      match act
      case ActCreate(sid, p, token, _, owner, profile, wall) =>
        CreateBooks(s, a, sid, p, token, owner, profile, wall, k);
      case ActUnmapEnd => UnmapEndBooks(s, a, k);
      case ActReleaseEnd => ReleaseEndBooks(s, a, k);
      case ActSendLeave =>
        ActorBooks(s, DoSend(s, a, LeaveWaiting(s.nextTicket)), a, s.actors[a].(pc := LeaveWaiting(s.nextTicket)), k);
      case ActSendEnd =>
        var pc := EndWaiting(s.actors[a].pc.guests, s.nextTicket);
        ActorBooks(s, DoSend(s, a, pc), a, s.actors[a].(pc := pc), k);
      case ActFind(sid, p, token, _, profile, resumeOnly) =>
        ActorBooks(s, FireAct(s, a, act), a,
            s.actors[a].(pc := Joining(s.reg.table[sid], p, token, profile, resumeOnly)), k);
      case ActHangUp => ActorBooks(s, FireAct(s, a, act), a, Actor(None, Gone), k);
    }
  }

  lemma SweepBooks(s: Sys, act: SweepAct, k: IpKey)
    requires Core(s) && SweepEnabled(s, act)
    ensures Shifts(Balance(s, k), Balance(FireSweep(s, act), k), 0)
  {
    match act
    case SweepRoom(ref, now) =>
      SweepMoves(s, ref, now);
      MovedBooks(s, DoSweepRoom(s, ref, now), |s.actors|, ref, {}, k);
    case SweepUnmap => SweepUnmapBooks(s, k);
    case SweepRelease => SweepReleaseBooks(s, k);
    case _ =>
  }

  lemma ConnectBooks(s: Sys, k: IpKey)
    ensures Balance(Apply(s, Connect), k) == Balance(s, k)
  {
    assert OwedBy(s.reg.arena, Apply(s, Connect).actors, k) == OwedBy(s.reg.arena, s.actors, k);
  }

  /** From any books: an event puts those of `k` off by at most its overcharge, and balanced ones by exactly that. */
  lemma StepBalance(s: Sys, ev: Event, k: IpKey)
    requires Core(s) && ClosingOk(s)
    ensures Shifts(Balance(s, k), Balance(Apply(s, ev), k), Overcharge(s, ev, k))
  {
    match ev
    case Connect => ConnectBooks(s, k);
    case Client(a, act) =>
      if ActEnabled(s, a, act) {
        ActBooks(s, a, act, k);
      }
    case Disk(act) =>
      if DiskEnabled(s, act) {
        DiskFrame(s, act);
      }
    case Clean(act) =>
      if SweepEnabled(s, act) {
        SweepBooks(s, act, k);
      }
  }

  /** Exactly the overcharging release breaks conservation. */
  lemma ConservedUnlessOvercharged(s: Sys, ev: Event)
    requires Core(s) && ClosingOk(s) && Conserved(s)
    ensures Conserved(Apply(s, ev)) <==> !Overcharges(s, ev)
  {
    forall k ensures Balance(Apply(s, ev), k) == Overcharge(s, ev, k) {
      StepBalance(s, ev, k);
    }
    if Overcharges(s, ev) {
      assert Balance(Apply(s, ev), RoomOf(s, ev.a).ownerIpKey) == 1;
    }
  }

  // ---------------------------------------------------------------- the cap

  lemma ReleaseCapped(quota: map<IpKey, nat>, owner: IpKey)
    requires Capped(quota)
    ensures Capped(ReleaseQuota(quota, owner))
  {
    forall k | k != "" ensures Count(ReleaseQuota(quota, owner), k) <= MAX_ROOMS_PER_IP {
      CountAfterRelease(quota, owner, k);
    }
  }

  lemma ClaimCapped(quota: map<IpKey, nat>, owner: IpKey)
    requires Capped(quota) && Count(quota, owner) < MAX_ROOMS_PER_IP
    ensures Capped(ClaimQuota(quota, owner))
  {
    forall k | k != "" ensures Count(ClaimQuota(quota, owner), k) <= MAX_ROOMS_PER_IP {
      assert k != owner ==> Count(ClaimQuota(quota, owner), k) == Count(quota, k);
    }
  }

  lemma CreateCapped(s: Sys, a: ActorId, sid: SessionId, p: PeerId, token: Token, owner: IpKey, profile: Profile,
                     wall: WallTime)
    requires TableWf(s.reg) && Capped(s.reg.quota) && IsFree(s, a)
    ensures Capped(DoCreate(s, a, sid, p, token, owner, profile, wall).reg.quota)
  {
    CreateCases(s, a, sid, p, token, owner, profile, wall);
    if sid in s.reg.table {
      ReleaseCapped(s.reg.quota, s.reg.arena[s.reg.table[sid]].ownerIpKey);
    }
    if Count(Cleared(s, sid).reg.quota, owner) < MAX_ROOMS_PER_IP {
      ClaimCapped(Cleared(s, sid).reg.quota, owner);
    }
  }

  lemma ActCapped(s: Sys, a: ActorId, act: Act)
    requires Core(s) && Capped(s.reg.quota) && ActEnabled(s, a, act)
    ensures Capped(FireAct(s, a, act).reg.quota)
  {
    if IsMove(act) {
      MoveFrame(s, a, act);
      MovePcs(s, a, act);
    } else {
      match act
      case ActCreate(sid, p, token, _, owner, profile, wall) => CreateCapped(s, a, sid, p, token, owner, profile, wall);
      case ActReleaseEnd => ReleaseCapped(s.reg.quota, RoomOf(s, a).ownerIpKey);
      case _ =>
    }
  }

  lemma StepCapped(s: Sys, ev: Event)
    requires Core(s) && Capped(s.reg.quota)
    ensures Capped(Apply(s, ev).reg.quota)
  {
    match ev
    case Connect =>
    case Client(a, act) =>
      if ActEnabled(s, a, act) {
        ActCapped(s, a, act);
      }
    case Disk(act) =>
      if DiskEnabled(s, act) {
        DiskFrame(s, act);
      }
    case Clean(act) =>
      if SweepEnabled(s, act) && act.SweepRelease? {
        ReleaseCapped(s.reg.quota, s.reg.arena[s.sweep.stage.room].ownerIpKey);
      }
  }
}
