/** The relay seen from one room object: whatever the interleaving, each event acts on a room as a
    short sequence of room operations. What is proved about runs of one room therefore holds of every
    room of the running relay. */
module RoomHistory {
  import opened Protocol
  import opened HostTransfer
  import opened RoomSpec
  import opened RoomInvariant
  import opened Credentials
  import opened ClientViews
  import opened Pruning
  import opened Snapshot
  import opened RegistrySpec
  import opened System
  import opened CoreInvariant
  import opened Moves
  import opened Closing
  import opened Runs

  /** The operation a connection's step performs on the room it moves. */
  function MoveOp(s: Sys, a: ActorId, act: Act): RoomOp
    requires IsMove(act) && ActEnabled(s, a, act)
  {
    match act
    case ActJoin(now, wall) =>
      var pc := s.actors[a].pc;
      OpJoin(pc.peerId, pc.token, pc.profile, pc.resumeOnly, now, wall)
    case ActBeginLeave(token, version) => OpBeginLeave(HoldingOf(s, a).peerId, HoldingOf(s, a).connId, token, version)
    case ActFinishLeave(wall) =>
      OpFinishLeave(HoldingOf(s, a).peerId, HoldingOf(s, a).connId, s.answers[s.actors[a].pc.ticket], wall)
    case ActBeginEnd(token, version) => OpBeginEnd(HoldingOf(s, a).peerId, HoldingOf(s, a).connId, token, version)
    case ActFinishEnd => OpFinishEnd(s.actors[a].pc.guests, s.answers[s.actors[a].pc.ticket])
    case ActRelay(op) => op
    case ActDisconnect(now, wall) => OpDisconnect(HoldingOf(s, a).peerId, HoldingOf(s, a).connId, now, wall)
  }

  function ActOps(s: Sys, a: ActorId, act: Act, ref: RoomRef): seq<RoomOp>
    requires ActEnabled(s, a, act)
  {
    if IsMove(act) then
      if MovedRoom(s, a, act) == ref then [MoveOp(s, a, act)] else []
    else if act.ActCreate? && act.token.verifier.Some? && act.sid in s.reg.table && s.reg.table[act.sid] == ref then
      if IsReturn(s, act.sid, act.peerId, act.token) then [OpReturn(act.peerId, act.token, act.profile)]
          else [OpReclaim]
    else []
  }

  /** The operations event `ev` performs on room `ref`. */
  function Ops(s: Sys, ev: Event, ref: RoomRef): seq<RoomOp> {
    match ev
    case Client(a, act) => if ActEnabled(s, a, act) then ActOps(s, a, act, ref) else []
    case Clean(SweepRoom(x, now)) =>
      if SweepEnabled(s, SweepRoom(x, now)) && x == ref then [OpPrune(now), OpSweepClose(s.sweep.wall)] else []
    case _ => []
  }

  function History(s: Sys, evs: seq<Event>, ref: RoomRef): seq<RoomOp>
    decreases |evs|
  {
    if evs == [] then []
    else History(s, evs[..|evs| - 1], ref) + Ops(Exec(s, evs[..|evs| - 1]), evs[|evs| - 1], ref)
  }

  // ---------------------------------------------------------------- one event

  lemma RunOne(r: Room, op: RoomOp)
    ensures Run(r, [op]) == Step(r, op).room
  {
    assert [op][1..] == [];
    assert Run(Step(r, op).room, []) == Step(r, op).room;
  }

  lemma RunTwo(r: Room, op1: RoomOp, op2: RoomOp)
    ensures Run(r, [op1, op2]) == Step(Step(r, op1).room, op2).room
  {
    assert [op1, op2][1..] == [op2];
    RunOne(Step(r, op1).room, op2);
  }

  /** The room `ref` takes one operation and the other rooms none. */
  predicate Takes(s: Sys, s': Sys, ref: RoomRef, op: RoomOp) {
    ref < |s.reg.arena| && s'.reg.arena == s.reg.arena[ref := Step(s.reg.arena[ref], op).room]
  }

  lemma JoinTakes(s: Sys, a: ActorId, now: Instant, wall: WallTime)
    requires IsJoining(s, a) && ValidPeerId(s.actors[a].pc.peerId)
    ensures var pc := s.actors[a].pc;
            Takes(s, DoJoin(s, a, now, wall), pc.target, OpJoin(pc.peerId, pc.token, pc.profile, pc.resumeOnly, now,
                wall))
  {
  }

  lemma BeginLeaveTakes(s: Sys, a: ActorId, token: Token, version: nat)
    requires IsSeated(s, a)
    ensures var h := HoldingOf(s, a);
            Takes(s, DoBeginLeave(s, a, token, version), h.room, OpBeginLeave(h.peerId, h.connId, token, version))
  {
  }

  lemma BeginEndTakes(s: Sys, a: ActorId, token: Token, version: nat)
    requires IsSeated(s, a)
    ensures var h := HoldingOf(s, a);
            Takes(s, DoBeginEnd(s, a, token, version), h.room, OpBeginEnd(h.peerId, h.connId, token, version))
  {
  }

  lemma FinishEndTakes(s: Sys, a: ActorId)
    requires IsSeated(s, a) && s.actors[a].pc.EndWaiting? && s.actors[a].pc.ticket in s.answers && RoomOf(s, a).closing
    ensures var pc := s.actors[a].pc;
            Takes(s, DoFinishEnd(s, a), HoldingOf(s, a).room, OpFinishEnd(pc.guests, s.answers[pc.ticket]))
  {
  }

  lemma MoveIsOp(s: Sys, a: ActorId, act: Act)
    requires PcsOk(s.reg.arena, s.actors) && IsMove(act) && ActEnabled(s, a, act)
    ensures Takes(s, FireAct(s, a, act), MovedRoom(s, a, act), MoveOp(s, a, act))
  {
    match act
    case ActJoin(now, wall) => JoinTakes(s, a, now, wall);
    case ActBeginLeave(token, version) => BeginLeaveTakes(s, a, token, version);
    case ActBeginEnd(token, version) => BeginEndTakes(s, a, token, version);
    case ActFinishEnd => FinishEndTakes(s, a);
    case ActFinishLeave(wall) =>
    case ActRelay(op) =>
    case ActDisconnect(now, wall) =>
  }

  lemma ReturnedTakes(s: Sys, a: ActorId, sid: SessionId, p: PeerId, token: Token, profile: Profile)
    requires IsFree(s, a) && TableWf(s.reg) && IsReturn(s, sid, p, token)
    ensures Takes(s, Returned(s, a, s.reg.table[sid], token, profile), s.reg.table[sid], OpReturn(p, token, profile))
  {
  }

  lemma ClearedTakes(s: Sys, sid: SessionId)
    requires TableWf(s.reg)
    ensures if sid in s.reg.table then Takes(s, Cleared(s, sid), s.reg.table[sid], OpReclaim) else Cleared(s, sid) == s
  {
  }

  /** What a `create` does to a room that existed before. */
  function AfterCreate(s: Sys, sid: SessionId, p: PeerId, token: Token, profile: Profile, ref: RoomRef): Room
    requires TableWf(s.reg) && ref < |s.reg.arena|
  {
    if token.verifier.None? || sid !in s.reg.table || s.reg.table[sid] != ref then s.reg.arena[ref]
    else if IsReturn(s, sid, p, token) then Step(s.reg.arena[ref], OpReturn(p, token, profile)).room
    else Step(s.reg.arena[ref], OpReclaim).room
  }

  lemma NotReclaimed(s: Sys, sid: SessionId, p: PeerId, token: Token, profile: Profile, ref: RoomRef)
    requires TableWf(s.reg) && ref < |s.reg.arena| && !IsReturn(s, sid, p, token)
    ensures |Cleared(s, sid).reg.arena| == |s.reg.arena|
    ensures token.verifier.Some? ==> Cleared(s, sid).reg.arena[ref] == AfterCreate(s, sid, p, token, profile, ref)
  {
    ClearedTakes(s, sid);
  }

  /** A refused `create` leaves every room alone, and so does one that finds the session live. */
  lemma RefusedCreate(s: Sys, a: ActorId, sid: SessionId, p: PeerId, token: Token, owner: IpKey, profile: Profile,
                      wall: WallTime)
    requires IsFree(s, a) && TableWf(s.reg)
    requires token.verifier.None? || (sid in s.reg.table && !IsReclaimable(s.reg.arena[s.reg.table[sid]])
               && !IsReturn(s, sid, p, token))
    ensures DoCreate(s, a, sid, p, token, owner, profile, wall) == s
  {
  }

  lemma ReclaimingCreate(s: Sys, a: ActorId, sid: SessionId, p: PeerId, token: Token, owner: IpKey, profile: Profile,
                         wall: WallTime)
    requires IsFree(s, a) && TableWf(s.reg) && token.verifier.Some? && !IsReturn(s, sid, p, token)
    requires sid in s.reg.table ==> IsReclaimable(s.reg.arena[s.reg.table[sid]])
    ensures Cleared(s, sid).reg.arena <= DoCreate(s, a, sid, p, token, owner, profile, wall).reg.arena
  {
    assert Create(s.reg, sid, p, token, owner, profile, wall) == CreateFresh(Cleared(s, sid).reg, sid, p, token, owner,
        profile, wall);
  }

  lemma CreateIsOps(s: Sys, a: ActorId, sid: SessionId, p: PeerId, token: Token, owner: IpKey, profile: Profile,
                    wall: WallTime, ref: RoomRef)
    requires TableWf(s.reg) && IsFree(s, a) && ref < |s.reg.arena|
    ensures var arena' := DoCreate(s, a, sid, p, token, owner, profile, wall).reg.arena;
            ref < |arena'| && arena'[ref] == AfterCreate(s, sid, p, token, profile, ref)
  {
    if IsReturn(s, sid, p, token) {
      CreateCases(s, a, sid, p, token, owner, profile, wall);
      ReturnedTakes(s, a, sid, p, token, profile);
    } else if token.verifier.None? || (sid in s.reg.table && !IsReclaimable(s.reg.arena[s.reg.table[sid]])) {
      RefusedCreate(s, a, sid, p, token, owner, profile, wall);
      NotReclaimed(s, sid, p, token, profile, ref);
    } else {
      ReclaimingCreate(s, a, sid, p, token, owner, profile, wall);
      NotReclaimed(s, sid, p, token, profile, ref);
    }
  }

  lemma ActIsOps(s: Sys, a: ActorId, act: Act, ref: RoomRef)
    requires Core(s) && ActEnabled(s, a, act) && ref < |s.reg.arena|
    ensures var arena' := FireAct(s, a, act).reg.arena;
            ref < |arena'| && arena'[ref] == Run(s.reg.arena[ref], ActOps(s, a, act, ref))
  {
    if IsMove(act) {
      MoveIsOp(s, a, act);
      RunOne(s.reg.arena[ref], MoveOp(s, a, act));
    } else if act.ActCreate? {
      CreateIsOps(s, a, act.sid, act.peerId, act.token, act.owner, act.profile, act.wall, ref);
      RunOne(s.reg.arena[ref], OpReturn(act.peerId, act.token, act.profile));
      RunOne(s.reg.arena[ref], OpReclaim);
    } else if IsAside(act) {
      AsideFrame(s, a, act);
    }
  }

  lemma SweepIsOps(s: Sys, act: SweepAct, ref: RoomRef)
    requires SweepEnabled(s, act) && ref < |s.reg.arena|
    ensures var arena' := FireSweep(s, act).reg.arena;
            ref < |arena'| && arena'[ref] == Run(s.reg.arena[ref], Ops(s, Clean(act), ref))
  {
    if act.SweepRoom? {
      RunTwo(s.reg.arena[ref], OpPrune(act.now), OpSweepClose(s.sweep.wall));
    }
  }

  lemma EventIsOps(s: Sys, ev: Event, ref: RoomRef)
    requires Core(s) && ref < |s.reg.arena|
    ensures var arena' := Apply(s, ev).reg.arena;
            ref < |arena'| && arena'[ref] == Run(s.reg.arena[ref], Ops(s, ev, ref))
  {
    match ev
    case Connect =>
    case Client(a, act) =>
      if ActEnabled(s, a, act) {
        ActIsOps(s, a, act, ref);
      }
    case Disk(act) =>
      if DiskEnabled(s, act) {
        DiskFrame(s, act);
      }
    case Clean(act) =>
      if SweepEnabled(s, act) {
        SweepIsOps(s, act, ref);
      }
  }

  /** What a connection's step gets back from the room it moves. */
  function MoveEffects(s: Sys, a: ActorId, act: Act): Effects
    requires IsMove(act) && ActEnabled(s, a, act)
  {
    match act
    case ActJoin(now, wall) => JoinOutcome(s, a, now, wall).effects
    case ActBeginLeave(token, version) =>
      BeginLeave(RoomOf(s, a), HoldingOf(s, a).peerId, HoldingOf(s, a).connId, token, version).effects
    case ActFinishLeave(wall) => LeaveOutcome(s, a, wall).effects
    case ActBeginEnd(token, version) =>
      BeginEndSession(RoomOf(s, a), HoldingOf(s, a).peerId, HoldingOf(s, a).connId, token, version).effects
    case ActFinishEnd => EndOutcome(s, a).effects
    case ActRelay(op) => Step(RoomOf(s, a), op).effects
    case ActDisconnect(now, wall) =>
      Disconnect(RoomOf(s, a), HoldingOf(s, a).peerId, HoldingOf(s, a).connId, now, wall).effects
  }

  /** Replies and messages too: what a step of a connection says is what its listed operation says. */
  lemma MoveSaysOp(s: Sys, a: ActorId, act: Act)
    requires PcsOk(s.reg.arena, s.actors) && IsMove(act) && ActEnabled(s, a, act)
    ensures MovedRoom(s, a, act) < |s.reg.arena|
    ensures MoveEffects(s, a, act) == Step(s.reg.arena[MovedRoom(s, a, act)], MoveOp(s, a, act)).effects
  {
    assert PcOk(s.reg.arena, s.actors[a]);
  }

  lemma ReturnSaysOp(s: Sys, sid: SessionId, p: PeerId, token: Token, owner: IpKey, profile: Profile, wall: WallTime)
    requires TableWf(s.reg) && IsReturn(s, sid, p, token)
    ensures Create(s.reg, sid, p, token, owner, profile, wall).effects
            == Step(s.reg.arena[s.reg.table[sid]], OpReturn(p, token, profile)).effects
  {
  }

  // ---------------------------------------------------------------- whole runs

  lemma {:induction false} RunAppend(r: Room, first: seq<RoomOp>, second: seq<RoomOp>)
    ensures Run(r, first + second) == Run(Run(r, first), second)
    decreases |first|
  {
    if first == [] {
      assert first + second == second;
    } else {
      assert (first + second)[1..] == first[1..] + second;
      RunAppend(Step(r, first[0]).room, first[1..], second);
    }
  }

  /** Every run of the relay is, for each room object, a run of that room. */
  lemma {:induction false} RelayRunsAreRoomRuns(s: Sys, evs: seq<Event>, ref: RoomRef)
    requires Inv(s) && ref < |s.reg.arena|
    ensures var arena' := Exec(s, evs).reg.arena;
            ref < |arena'| && arena'[ref] == Run(s.reg.arena[ref], History(s, evs, ref))
    decreases |evs|
  {
    if evs != [] {
      var before := evs[..|evs| - 1];
      RelayRunsAreRoomRuns(s, before, ref);
      ExecInv(s, before);
      EventIsOps(Exec(s, before), evs[|evs| - 1], ref);
      RunAppend(s.reg.arena[ref], History(s, before, ref), Ops(Exec(s, before), evs[|evs| - 1], ref));
    }
  }

  /** Closing is final: no later event reopens a room object or hands out another of its seats. */
  lemma ClosingIsFinal(s: Sys, evs: seq<Event>, ref: RoomRef)
    requires Inv(s) && ref < |s.reg.arena| && s.reg.arena[ref].closing
    ensures var arena' := Exec(s, evs).reg.arena;
            ref < |arena'| && arena'[ref].closing && arena'[ref].nextConnId == s.reg.arena[ref].nextConnId
  {
    RelayRunsAreRoomRuns(s, evs, ref);
    ClosingForever(s.reg.arena[ref], History(s, evs, ref));
  }

  /** A superseded or departed connection id never owns a seat of that room object again. */
  lemma RetiredIsFinal(s: Sys, evs: seq<Event>, ref: RoomRef, c: ConnId)
    requires Inv(s) && ref < |s.reg.arena| && Retired(s.reg.arena[ref], c)
    ensures var arena' := Exec(s, evs).reg.arena; ref < |arena'| && Retired(arena'[ref], c)
  {
    RelayRunsAreRoomRuns(s, evs, ref);
    RetiredForever(s.reg.arena[ref], History(s, evs, ref), c);
  }

  /** While an identity persists in a room, its credential is the same in every later state. */
  lemma CredentialsAreFinal(s: Sys, evs: seq<Event>, ref: RoomRef, p: PeerId)
    requires Inv(s) && ref < |s.reg.arena| && Persists(s.reg.arena[ref], History(s, evs, ref), p)
    ensures var arena' := Exec(s, evs).reg.arena;
            && ref < |arena'| && IsIdentity(arena'[ref], p)
            && Credential(arena'[ref], p) == Credential(s.reg.arena[ref], p)
  {
    RelayRunsAreRoomRuns(s, evs, ref);
    assert RoomInv(s.reg.arena[ref]);
    CredentialIsConstant(s.reg.arena[ref], History(s, evs, ref), p);
  }

  /** Client views keep agreeing with their room under every interleaving. */
  lemma ViewsNeverDrift(s: Sys, evs: seq<Event>, ref: RoomRef, clients: Clients)
    requires Inv(s) && ref < |s.reg.arena| && Agree(s.reg.arena[ref], clients)
    ensures var arena' := Exec(s, evs).reg.arena;
            ref < |arena'| && Agree(arena'[ref], Watch(s.reg.arena[ref], History(s, evs, ref), clients))
  {
    RelayRunsAreRoomRuns(s, evs, ref);
    assert RoomInv(s.reg.arena[ref]);
    ViewsRefineTheRoom(s.reg.arena[ref], History(s, evs, ref), clients);
  }

  /** Two runs of the relay in which a room hears the same, but for sweep visits that do not remove it,
      anywhere and any number of them, say the same to every client of that room. */
  lemma SweepsAreInvisible(s: Sys, evs1: seq<Event>, evs2: seq<Event>, ref: RoomRef, t: Instant)
    requires Inv(s) && ref < |s.reg.arena|
    ensures var r, ops1, ops2 := s.reg.arena[ref], History(s, evs1, ref), History(s, evs2, ref);
            Timed(ops1, t) && Timed(ops2, t) && Heard(r, ops1) == Heard(r, ops2) ==> Said(r, ops1) == Said(r, ops2)
  {
    var r, ops1, ops2 := s.reg.arena[ref], History(s, evs1, ref), History(s, evs2, ref);
    assert RoomInv(r);
    if Timed(ops1, t) && Timed(ops2, t) && Heard(r, ops1) == Heard(r, ops2) {
      VisitsAreInvisible(r, ops1, ops2, t);
    }
  }

  /** In particular a visit that does not remove the room is not heard at all. */
  lemma IdleVisitIsUnheard(s: Sys, ref: RoomRef, now: Instant)
    requires SweepEnabled(s, SweepRoom(ref, now)) && !IsSwept(s.reg.arena[ref], s.sweep.wall)
    ensures Heard(s.reg.arena[ref], Ops(s, Clean(SweepRoom(ref, now)), ref)) == []
  {
    var r, ops := s.reg.arena[ref], [OpPrune(now), OpSweepClose(s.sweep.wall)];
    assert ops[1..] == [OpSweepClose(s.sweep.wall)] && ops[1..][1..] == [];
    assert Heard(Prune(r, now), ops[1..]) == [];
  }

  /** A closing room still in the table has a removal in flight that can proceed, and whose outcome is
      that nothing in the table points at the room. */
  lemma ClosingIsRemoved(restored: seq<RestoredRoom>, file: seq<Captured>, evs: seq<Event>, ref: RoomRef)
    returns (ev: Event)
    requires Bootable(restored)
    requires var s := Exec(Boot(restored, file), evs);
             ref < |s.reg.arena| && s.reg.arena[ref].closing && Maps(s.reg, ref)
    ensures (ev.Client? && ev.act == ActUnmapEnd) || ev == Clean(SweepUnmap)
    ensures !Maps(Apply(Exec(Boot(restored, file), evs), ev).reg, ref)
  {
    Reachable(restored, file, evs);
    ev := RemovalProceeds(Exec(Boot(restored, file), evs), ref);
  }

  // ---------------------------------------------------------------- from birth

  /** How a room object comes to be: loaded at startup, or created by its host. */
  datatype Birth =
    | Loaded(record: RestoredRoom)
    | Made(sid: SessionId, host: PeerId, token: Token, owner: IpKey, profile: Profile, wall: WallTime)

  predicate BirthOk(b: Birth) {
    b.Made? ==> ValidPeerId(b.host) && b.token.verifier.Some?
  }

  function Born(b: Birth): Outcome
    requires BirthOk(b)
  {
    match b
    case Loaded(record) => Outcome(Restore(record), NO_EFFECTS)
    case Made(sid, host, token, owner, profile, wall) =>
      NewRoom(sid, host, token.verifier.value, token, owner, profile, wall)
  }

  /** The token the creator of a room was admitted with. */
  function FirstAdmissions(b: Birth): Admissions
    requires BirthOk(b)
  {
    if b.Made? then map[1 := b.token.verifier.value] else map[]
  }

  /** What a `create` message asks for. */
  function Request(act: Act): Birth
    requires act.ActCreate?
  {
    Made(act.sid, act.peerId, act.token, act.owner, act.profile, act.wall)
  }

  /** Event `ev` makes room object `ref`, as its own arguments say. */
  ghost predicate Bears(s: Sys, ev: Event, ref: RoomRef, b: Birth) {
    && ev.Client? && ev.act.ActCreate? && b == Request(ev.act) && BirthOk(b)
    && ref == |s.reg.arena| && ref < |Apply(s, ev).reg.arena|
    && Apply(s, ev).reg.arena[ref] == Born(b).room
  }

  lemma CreateBears(s: Sys, a: ActorId, sid: SessionId, p: PeerId, token: Token, owner: IpKey, profile: Profile,
                    wall: WallTime)
    requires TableWf(s.reg) && IsFree(s, a) && ValidPeerId(p)
    ensures var arena' := DoCreate(s, a, sid, p, token, owner, profile, wall).reg.arena;
            |arena'| > |s.reg.arena| ==>
              && BirthOk(Made(sid, p, token, owner, profile, wall)) && |arena'| == |s.reg.arena| + 1
              && arena'[|s.reg.arena|] == Born(Made(sid, p, token, owner, profile, wall)).room
  {
    CreateCases(s, a, sid, p, token, owner, profile, wall);
  }

  lemma OthersBearNothing(s: Sys, a: ActorId, act: Act)
    requires Core(s) && ActEnabled(s, a, act) && !act.ActCreate?
    ensures |FireAct(s, a, act).reg.arena| == |s.reg.arena|
  {
    if IsMove(act) {
      MoveIsOp(s, a, act);
    } else if IsAside(act) {
      AsideFrame(s, a, act);
    }
  }

  /** Room objects only appear by a `create`. */
  lemma EventBears(s: Sys, ev: Event, ref: RoomRef) returns (b: Birth)
    requires Core(s) && |s.reg.arena| <= ref < |Apply(s, ev).reg.arena|
    ensures Bears(s, ev, ref, b)
  {
    if ev.Disk? {
      DiskFrame(s, ev.disk);
    } else if ev.Client? && !ev.act.ActCreate? {
      OthersBearNothing(s, ev.a, ev.act);
    }
    b := Request(ev.act);
    CreateBears(s, ev.a, ev.act.sid, ev.act.peerId, ev.act.token, ev.act.owner, ev.act.profile, ev.act.wall);
  }

  /** Room object `ref` came to be as `b`, with the first `n` events of the run. */
  ghost predicate BornAt(restored: seq<RestoredRoom>, s: Sys, evs: seq<Event>, ref: RoomRef, n: nat, b: Birth) {
    && n <= |evs| && BirthOk(b) && ref < |Exec(s, evs[..n]).reg.arena|
        && Exec(s, evs[..n]).reg.arena[ref] == Born(b).room
    && if n == 0 then ref < |restored| && b == Loaded(restored[ref])
       else Bears(Exec(s, evs[..n - 1]), evs[n - 1], ref, b)
  }

  lemma BootIsBorn(restored: seq<RestoredRoom>, file: seq<Captured>, evs: seq<Event>, ref: RoomRef)
    requires Bootable(restored) && ref < |RestoreAll(restored).arena|
    ensures ref < |restored| && BornAt(restored, Boot(restored, file), evs, ref, 0, Loaded(restored[ref]))
  {
    RestoreAllMaps(restored);
    assert evs[..0] == [];
  }

  lemma EarlierBirth(restored: seq<RestoredRoom>, s: Sys, evs: seq<Event>, ref: RoomRef, n: nat, b: Birth)
    requires evs != [] && BornAt(restored, s, evs[..|evs| - 1], ref, n, b)
    ensures BornAt(restored, s, evs, ref, n, b)
  {
    assert evs[..|evs| - 1][..n] == evs[..n];
    if n > 0 {
      assert evs[..|evs| - 1][..n - 1] == evs[..n - 1];
    }
  }

  lemma LastBirth(restored: seq<RestoredRoom>, s: Sys, evs: seq<Event>, ref: RoomRef, b: Birth)
    requires evs != [] && Bears(Exec(s, evs[..|evs| - 1]), evs[|evs| - 1], ref, b)
    ensures BornAt(restored, s, evs, ref, |evs|, b)
  {
    assert evs[..|evs|] == evs;
  }

  /** Every room object of a reachable state was loaded at startup or made by one `create` of the run. */
  lemma {:induction false} BirthOf(restored: seq<RestoredRoom>, file: seq<Captured>, evs: seq<Event>, ref: RoomRef)
    returns (n: nat, b: Birth)
    requires Bootable(restored) && ref < |Exec(Boot(restored, file), evs).reg.arena|
    ensures BornAt(restored, Boot(restored, file), evs, ref, n, b)
    decreases |evs|
  {
    var s := Boot(restored, file);
    if evs == [] {
      BootIsBorn(restored, file, evs, ref);
      n, b := 0, Loaded(restored[ref]);
    } else {
      var before := evs[..|evs| - 1];
      if ref < |Exec(s, before).reg.arena| {
        n, b := BirthOf(restored, file, before, ref);
        EarlierBirth(restored, s, evs, ref, n, b);
      } else {
        Reachable(restored, file, before);
        b := EventBears(Exec(s, before), evs[|evs| - 1], ref);
        LastBirth(restored, s, evs, ref, b);
        n := |evs|;
      }
    }
  }

  /** The operations the run performed on room object `ref` since its birth `n` events into the run. */
  function LifeOf(s: Sys, evs: seq<Event>, ref: RoomRef, n: nat): seq<RoomOp>
    requires n <= |evs|
  {
    History(Exec(s, evs[..n]), evs[n..], ref)
  }

  lemma LifeSince(s: Sys, evs: seq<Event>, ref: RoomRef, n: nat, r: Room)
    requires n <= |evs| && Inv(Exec(s, evs[..n]))
    requires ref < |Exec(s, evs[..n]).reg.arena| && Exec(s, evs[..n]).reg.arena[ref] == r
    ensures ref < |Exec(s, evs).reg.arena| && Exec(s, evs).reg.arena[ref] == Run(r, LifeOf(s, evs, ref, n))
  {
    ExecSplit(s, evs, n);
    RelayRunsAreRoomRuns(Exec(s, evs[..n]), evs[n..], ref);
  }

  /** Every room object of every reachable state is what the operations this very run performed on it
      have made of the room it was born as. */
  lemma RoomLife(restored: seq<RestoredRoom>, file: seq<Captured>, evs: seq<Event>, ref: RoomRef)
    returns (n: nat, b: Birth)
    requires Bootable(restored) && ref < |Exec(Boot(restored, file), evs).reg.arena|
    ensures BornAt(restored, Boot(restored, file), evs, ref, n, b)
    ensures Exec(Boot(restored, file), evs).reg.arena[ref]
              == Run(Born(b).room, LifeOf(Boot(restored, file), evs, ref, n))
  {
    n, b := BirthOf(restored, file, evs, ref);
    Reachable(restored, file, evs[..n]);
    LifeSince(Boot(restored, file), evs, ref, n, Born(b).room);
  }

  lemma NewbornIsSound(restored: seq<RestoredRoom>, b: Birth)
    requires Bootable(restored) && BirthOk(b) && (b.Loaded? ==> b.record in restored)
    ensures RoomInv(Born(b).room) && Agree(Born(b).room, Observe(map[], Born(b).effects))
              && Authentic(Born(b).room, FirstAdmissions(b))
  {
    if b.Made? {
      NewRoomHolds(b.sid, b.host, b.token.verifier.value, b.token, b.owner, b.profile, b.wall);
      NewRoomAgree(b.sid, b.host, b.token.verifier.value, b.token, b.owner, b.profile, b.wall);
    }
  }

  lemma LifeIsSound(b: Birth, ops: seq<RoomOp>)
    requires BirthOk(b)
    requires RoomInv(Born(b).room) && Agree(Born(b).room, Observe(map[], Born(b).effects))
               && Authentic(Born(b).room, FirstAdmissions(b))
    ensures var r := Run(Born(b).room, ops);
            && RoomInv(r) && |r.peers| <= MAX_ROOM_SIZE
            && Agree(r, Watch(Born(b).room, ops, Observe(map[], Born(b).effects)))
            && Authentic(r, RecordAll(Born(b).room, ops, FirstAdmissions(b)))
  {
    RunKeeps(Born(b).room, ops);
    ViewsRefineTheRoom(Born(b).room, ops, Observe(map[], Born(b).effects));
    OccupantsAreAuthentic(Born(b).room, ops, FirstAdmissions(b));
  }

  /** For every room object of every reachable state, over its life in this very run: it meets the room
      invariant; the roster and host each occupant folded from the messages this run sent it are the
      room's own; and each occupant was admitted, in this run, with a token that matches the identity it
      occupies. */
  lemma EveryRoomIsSound(restored: seq<RestoredRoom>, file: seq<Captured>, evs: seq<Event>, ref: RoomRef)
    returns (n: nat, b: Birth)
    requires Bootable(restored) && ref < |Exec(Boot(restored, file), evs).reg.arena|
    ensures BornAt(restored, Boot(restored, file), evs, ref, n, b)
    ensures var r := Exec(Boot(restored, file), evs).reg.arena[ref];
            var ops := LifeOf(Boot(restored, file), evs, ref, n);
            && r == Run(Born(b).room, ops)
            && RoomInv(r) && |r.peers| <= MAX_ROOM_SIZE
            && Agree(r, Watch(Born(b).room, ops, Observe(map[], Born(b).effects)))
            && Authentic(r, RecordAll(Born(b).room, ops, FirstAdmissions(b)))
  {
    n, b := RoomLife(restored, file, evs, ref);
    NewbornIsSound(restored, b);
    LifeIsSound(b, LifeOf(Boot(restored, file), evs, ref, n));
  }
}
