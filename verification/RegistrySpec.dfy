/** The room registry on values (src/registry.rs): the arena of room objects, the session table that
    points into it, and the per-owner room counters. */
module RegistrySpec {
  import opened Protocol
  import opened HostTransfer
  import opened RoomSpec
  import opened Snapshot

  const MAX_ROOMS_PER_IP: nat := 3
  const MAX_RETAINED_ROOMS: nat := 2000

  /** The identity of a room object, its position in the arena. Handles compare by this, and objects
      that left the table stay in the arena for whoever still holds a handle. */
  type RoomRef = nat

  datatype Reg = Reg(arena: seq<Room>, table: map<SessionId, RoomRef>, quota: map<IpKey, nat>)

  predicate TableWf(reg: Reg) {
    forall sid :: sid in reg.table ==> reg.table[sid] < |reg.arena| && reg.arena[reg.table[sid]].sessionId == sid
  }

  predicate Maps(reg: Reg, ref: RoomRef) {
    ref in reg.table.Values
  }

  // ---------------------------------------------------------------- quota

  function Count(quota: map<IpKey, nat>, owner: IpKey): nat {
    if owner in quota then quota[owner] else 0
  }

  function ReleaseQuota(quota: map<IpKey, nat>, owner: IpKey): map<IpKey, nat> {
    if Count(quota, owner) <= 1 then quota - {owner} else quota[owner := quota[owner] - 1]
  }

  function ClaimQuota(quota: map<IpKey, nat>, owner: IpKey): map<IpKey, nat> {
    quota[owner := Count(quota, owner) + 1]
  }

  // ---------------------------------------------------------------- table

  /** Removes the session's entry iff it still points at `ref`. */
  function Unmap(table: map<SessionId, RoomRef>, sid: SessionId, ref: RoomRef): map<SessionId, RoomRef> {
    if sid in table && table[sid] == ref then table - {sid} else table
  }

  /** The table step of end_session and of remove_if_current. */
  function UnmapRoom(reg: Reg, ref: RoomRef): Reg
    requires ref < |reg.arena|
  {
    reg.(table := Unmap(reg.table, reg.arena[ref].sessionId, ref))
  }

  predicate IsCurrent(reg: Reg, ref: RoomRef)
    requires ref < |reg.arena|
  {
    var sid := reg.arena[ref].sessionId;
    sid in reg.table && reg.table[sid] == ref
  }

  function ReleaseRoom(reg: Reg, owner: IpKey): Reg {
    reg.(quota := ReleaseQuota(reg.quota, owner))
  }

  // ---------------------------------------------------------------- create

  datatype CreateOutcome = CreateOutcome(reg: Reg, room: Option<RoomRef>, effects: Effects)

  /** Closes the abandoned room of a session and frees its slot. */
  function Vacate(reg: Reg, sid: SessionId): Reg
    requires TableWf(reg) && sid in reg.table
  {
    var ref := reg.table[sid];
    Reg(reg.arena[ref := Reclaim(reg.arena[ref]).room], reg.table - {sid},
        ReleaseQuota(reg.quota, reg.arena[ref].ownerIpKey))
  }

  function InsertRoom(reg: Reg, sid: SessionId, room: Room, owner: IpKey): Reg {
    Reg(reg.arena + [room], reg.table[sid := |reg.arena|], ClaimQuota(reg.quota, owner))
  }

  function CreateFresh(reg: Reg, sid: SessionId, host: PeerId, token: Token, owner: IpKey, profile: Profile,
                       wall: WallTime): CreateOutcome
    requires token.verifier.Some?
  {
    if |reg.table| >= MAX_RETAINED_ROOMS || Count(reg.quota, owner) >= MAX_ROOMS_PER_IP then
      CreateOutcome(reg, None, Refusal(RateLimited))
    else
      var o := NewRoom(sid, host, token.verifier.value, token, owner, profile, wall);
      CreateOutcome(InsertRoom(reg, sid, o.room, owner), Some(|reg.arena|), o.effects)
  }

  /** `create`: the host returning, a live room refused, an abandoned one reclaimed, or a fresh room.
      A reclaimed room is gone even when the limits then refuse the new one. */
  function Create(reg: Reg, sid: SessionId, host: PeerId, token: Token, owner: IpKey, profile: Profile,
                  wall: WallTime): CreateOutcome
    requires TableWf(reg)
  {
    if token.verifier.None? then CreateOutcome(reg, None, Refusal(InvalidMessage))
    else if sid !in reg.table then CreateFresh(reg, sid, host, token, owner, profile, wall)
    else
      var ref := reg.table[sid];
      var existing := reg.arena[ref];
      if IsHostReturning(existing, host, token.verifier.value) then
        var o := ReconnectHost(existing, profile, token);
        CreateOutcome(reg.(arena := reg.arena[ref := o.room]), Some(ref), o.effects)
      else if !IsReclaimable(existing) then CreateOutcome(reg, None, Refusal(RoomExists))
      else CreateFresh(Vacate(reg, sid), sid, host, token, owner, profile, wall)
  }

  /** The session's room is live, and `host` with this token is its host. */
  predicate IsTheirs(reg: Reg, sid: SessionId, host: PeerId, token: Token)
    requires TableWf(reg)
  {
    && sid in reg.table
    && var room := reg.arena[reg.table[sid]];
       !room.closing && room.hostPeerId == host && token.verifier == Some(room.hostVerifier)
  }

  /** The session has a room that is closing or somebody is in. */
  predicate IsTaken(reg: Reg, sid: SessionId)
    requires TableWf(reg)
  {
    sid in reg.table && (reg.arena[reg.table[sid]].closing || reg.arena[reg.table[sid]].peers != map[])
  }

  /** What counts against `owner` for a new room: the slot of the room it replaces is freed first. */
  function Charged(reg: Reg, sid: SessionId, owner: IpKey): nat
    requires TableWf(reg)
  {
    var count := Count(reg.quota, owner);
    if sid in reg.table && reg.arena[reg.table[sid]].ownerIpKey == owner && count > 0 then count - 1 else count
  }

  /** A live room of that session in which its host is alone, charged to its owner. */
  predicate IsNewRoomOf(r: Room, sid: SessionId, host: PeerId, token: Token, owner: IpKey, profile: Profile,
                        wall: WallTime)
  {
    && r.sessionId == sid && r.hostPeerId == host && Some(r.hostVerifier) == token.verifier && r.ownerIpKey == owner
    && r.peers == map[host := ConnectedPeer(profile, 1)] && r.reservations == map[]
    && !r.closing && r.createdAt == wall && r.lastActivityAt == wall
  }

  /** The caller is host of a room of its own, the only new one, under its session and charged to its owner. */
  predicate IsFreshRoom(o: CreateOutcome, reg: Reg, sid: SessionId, host: PeerId, token: Token, owner: IpKey,
                        profile: Profile, wall: WallTime, charged: nat)
  {
    && o.room == Some(|reg.arena|) && o.effects.assignedConnId == Some(1)
    && o.reg.table == reg.table[sid := |reg.arena|]
    && Count(o.reg.quota, owner) == charged + 1
    && |o.reg.arena| == |reg.arena| + 1
    && IsNewRoomOf(o.reg.arena[|reg.arena|], sid, host, token, owner, profile, wall)
  }

  lemma FreshIsExact(reg: Reg, sid: SessionId, host: PeerId, token: Token, owner: IpKey, profile: Profile,
                     wall: WallTime)
    requires token.verifier.Some?
    ensures var o := CreateFresh(reg, sid, host, token, owner, profile, wall);
            if |reg.table| >= 2000 || Count(reg.quota, owner) >= 3
                then o == CreateOutcome(reg, None, Refusal(RateLimited))
            else IsFreshRoom(o, reg, sid, host, token, owner, profile, wall, Count(reg.quota, owner))
  {
  }

  lemma VacateIsExact(reg: Reg, sid: SessionId, owner: IpKey)
    requires TableWf(reg) && sid in reg.table
    ensures var reg' := Vacate(reg, sid);
            && reg'.table == reg.table - {sid} && |reg'.table| == |reg.table.Keys - {sid}|
            && |reg'.arena| == |reg.arena| && Count(reg'.quota, owner) == Charged(reg, sid, owner)
  {
    assert Vacate(reg, sid).table.Keys == reg.table.Keys - {sid};
  }

  /** What a caller gets whose session is free: a refusal at the limits, its abandoned room gone all the
      same, or a room of its own. */
  predicate GetsRoom(o: CreateOutcome, reg: Reg, sid: SessionId, host: PeerId, token: Token, owner: IpKey,
                     profile: Profile, wall: WallTime)
    requires TableWf(reg)
  {
    if |reg.table.Keys - {sid}| >= 2000 || Charged(reg, sid, owner) >= 3 then
      o.room == None && o.effects == Refusal(RateLimited) && o.reg.table == reg.table - {sid}
    else IsFreshRoom(o, reg, sid, host, token, owner, profile, wall, Charged(reg, sid, owner))
  }

  lemma UnmappedGetsRoom(reg: Reg, sid: SessionId, host: PeerId, token: Token, owner: IpKey, profile: Profile,
                         wall: WallTime)
    requires TableWf(reg) && token.verifier.Some? && sid !in reg.table
    ensures GetsRoom(CreateFresh(reg, sid, host, token, owner, profile, wall), reg, sid, host, token, owner, profile,
              wall)
  {
    assert reg.table - {sid} == reg.table && reg.table.Keys - {sid} == reg.table.Keys;
    FreshIsExact(reg, sid, host, token, owner, profile, wall);
  }

  lemma ReclaimGetsRoom(reg: Reg, sid: SessionId, host: PeerId, token: Token, owner: IpKey, profile: Profile,
                        wall: WallTime)
    requires TableWf(reg) && token.verifier.Some? && sid in reg.table
    ensures GetsRoom(CreateFresh(Vacate(reg, sid), sid, host, token, owner, profile, wall), reg, sid, host, token,
              owner,
                     profile, wall)
  {
    VacateIsExact(reg, sid, owner);
    FreshIsExact(Vacate(reg, sid), sid, host, token, owner, profile, wall);
    assert (reg.table - {sid})[sid := |reg.arena|] == reg.table[sid := |reg.arena|];
  }

  lemma ReturnKeepsRegistry(reg: Reg, sid: SessionId, host: PeerId, token: Token, owner: IpKey, profile: Profile,
                            wall: WallTime)
    requires TableWf(reg) && IsTheirs(reg, sid, host, token)
    ensures GetsItBack(Create(reg, sid, host, token, owner, profile, wall), reg, sid)
  {
  }

  /** The session's room again, with a new connection. */
  predicate GetsItBack(o: CreateOutcome, reg: Reg, sid: SessionId)
    requires TableWf(reg) && sid in reg.table
  {
    && o.room == Some(reg.table[sid]) && o.reg.table == reg.table && o.reg.quota == reg.quota
    && o.effects.assignedConnId == Some(reg.arena[reg.table[sid]].nextConnId)
  }

  /** Exactly who gets a room from `create`, and what everybody else is told: a malformed token, a session
      that is somebody else's, more than 2000 rooms in all or three at one address are refused; the host gets
      its own room back with a new connection; otherwise the session's abandoned room, if any, goes, and the
      caller is host and only occupant of a room of its own. */
  lemma CreateIsExact(reg: Reg, sid: SessionId, host: PeerId, token: Token, owner: IpKey, profile: Profile,
                      wall: WallTime)
    requires TableWf(reg)
    ensures var o := Create(reg, sid, host, token, owner, profile, wall);
            if token.verifier.None? then o == CreateOutcome(reg, None, Refusal(InvalidMessage))
            else if IsTheirs(reg, sid, host, token) then GetsItBack(o, reg, sid)
            else if IsTaken(reg, sid) then o == CreateOutcome(reg, None, Refusal(RoomExists))
            else GetsRoom(o, reg, sid, host, token, owner, profile, wall)
  {
    if token.verifier.Some? {
      if IsTheirs(reg, sid, host, token) {
        ReturnKeepsRegistry(reg, sid, host, token, owner, profile, wall);
      } else if sid !in reg.table {
        UnmappedGetsRoom(reg, sid, host, token, owner, profile, wall);
      } else if !IsTaken(reg, sid) {
        ReclaimGetsRoom(reg, sid, host, token, owner, profile, wall);
      }
    }
  }

  /** The check and the admission of a returning host are two lock sections in the relay, one step
      here. Had the room become `now` in between, the admission is still what `create` promises (an
      entry of that host, with that verifier, in a room that is not closing) iff the check still holds. */
  lemma CreateGap(now: Room, host: PeerId, token: Token, profile: Profile)
    requires token.verifier.Some?
    ensures var r' := ReconnectHost(now, profile, token).room;
            IsHostReturning(now, host, token.verifier.value) <==>
              !r'.closing && Occupies(r', host, now.nextConnId) && r'.hostPeerId == host
                  && r'.hostVerifier == token.verifier.value
  {
  }

  /** An endSession accepted in that gap would see the caller admitted into a closing room. */
  lemma EndInTheGap(seen: Room, host: PeerId, connId: ConnId, token: Token, profile: Profile)
    requires token.verifier.Some? && IsHostReturning(seen, host, token.verifier.value) && Occupies(seen, host, connId)
    ensures var now := BeginEndSession(seen, host, connId, token, RELAY_PROTOCOL_VERSION).room;
            var o := ReconnectHost(now, profile, token);
            o.effects.assignedConnId.Some? && o.room.closing && !IsHostReturning(now, host, token.verifier.value)
  {
  }

  /** What the relay does to a room it found reclaimable, without looking at it again. */
  function CloseUnchecked(reg: Reg, sid: SessionId, now: Room): Reg
    requires TableWf(reg) && sid in reg.table
  {
    Reg(reg.arena[reg.table[sid] := now.(closing := true)], reg.table - {sid}, ReleaseQuota(reg.quota, now.ownerIpKey))
  }

  /** The reclaim check and the closing are two lock sections as well. Had the room become `now` in
      between, closing it is what `create` as one step would have done iff the check still holds or the
      room was closing by then; it is closed and out of the table either way. */
  lemma ReclaimGap(reg: Reg, sid: SessionId, now: Room)
    requires TableWf(reg) && sid in reg.table && now.sessionId == sid
    ensures var ref := reg.table[sid];
            var reg' := CloseUnchecked(reg, sid, now);
            && ref < |reg'.arena| && reg'.arena[ref].closing && !Maps(reg', ref)
            && (reg' == Vacate(reg.(arena := reg.arena[ref := now]), sid) <==> IsReclaimable(now) || now.closing)
  {
    var ref, table' := reg.table[sid], reg.table - {sid};
    forall other | other in table' ensures table'[other] != ref {
      assert reg.arena[reg.table[other]].sessionId == other;
    }
    assert CloseUnchecked(reg, sid, now).arena[ref] == now.(closing := true);
  }

  /** A join admitted in that gap leaves its peer seated in a room that is closed and that nobody can find. */
  lemma JoinInTheGap(reg: Reg, sid: SessionId, peerId: PeerId, token: Token, profile: Profile, resumeOnly: bool,
                     at: Instant, wall: WallTime)
    requires TableWf(reg) && sid in reg.table && IsReclaimable(reg.arena[reg.table[sid]])
    requires JoinOrResume(reg.arena[reg.table[sid]], peerId, token, profile, resumeOnly, at,
               wall).effects.assignedConnId.Some?
    ensures var ref := reg.table[sid];
            var o := JoinOrResume(reg.arena[ref], peerId, token, profile, resumeOnly, at, wall);
            var reg' := CloseUnchecked(reg, sid, o.room);
            && ref < |reg'.arena| && !Maps(reg', ref) && reg'.arena[ref].closing
            && Occupies(reg'.arena[ref], peerId, o.effects.assignedConnId.value)
  {
    var o := JoinOrResume(reg.arena[reg.table[sid]], peerId, token, profile, resumeOnly, at, wall);
    ReclaimGap(reg, sid, o.room);
  }

  // ---------------------------------------------------------------- startup

  /** Startup: every restored room enters the arena and the table, owned by the empty key. */
  function RestoreAll(restored: seq<RestoredRoom>): Reg {
    if restored == [] then Reg([], map[], map[])
    else
      var last := restored[|restored| - 1];
      InsertRoom(RestoreAll(restored[..|restored| - 1]), last.sessionId, Restore(last), "")
  }

  lemma {:induction false} RestoreAllRooms(restored: seq<RestoredRoom>)
    ensures |RestoreAll(restored).arena| == |restored|
    ensures forall i :: 0 <= i < |restored| ==> RestoreAll(restored).arena[i] == Restore(restored[i])
    decreases |restored|
  {
    if restored != [] {
      RestoreAllRooms(restored[..|restored| - 1]);
    }
  }

  /** Every restored room is in the arena, in order, and each session maps to its own. */
  lemma {:induction false} RestoreAllMaps(restored: seq<RestoredRoom>)
    requires forall i, j :: 0 <= i < j < |restored| ==> restored[i].sessionId != restored[j].sessionId
    ensures var reg := RestoreAll(restored);
            && |reg.arena| == |restored|
            && (forall i :: 0 <= i < |restored| ==> reg.arena[i] == Restore(restored[i]))
            && (forall sid :: sid in reg.table <==> exists i :: 0 <= i < |restored| && restored[i].sessionId == sid)
            && (forall i :: 0 <= i < |restored| ==>
                restored[i].sessionId in reg.table && reg.table[restored[i].sessionId] == i)
    decreases |restored|
  {
    RestoreAllRooms(restored);
    if restored != [] {
      var before, last := restored[..|restored| - 1], restored[|restored| - 1];
      RestoreAllMaps(before);
      RestoreAllRooms(before);
      assert RestoreAll(restored).table == RestoreAll(before).table[last.sessionId := |before|];
    }
  }

  /** Startup charges every restored room to the empty owner key and nobody else. */
  lemma {:induction false} RestoreAllCharges(restored: seq<RestoredRoom>)
    ensures Count(RestoreAll(restored).quota, "") == |restored|
    ensures forall k :: k != "" ==> Count(RestoreAll(restored).quota, k) == 0
    decreases |restored|
  {
    if restored != [] {
      var before := RestoreAll(restored[..|restored| - 1]);
      RestoreAllCharges(restored[..|restored| - 1]);
      assert RestoreAll(restored).quota == ClaimQuota(before.quota, "");
      forall k | k != "" ensures Count(RestoreAll(restored).quota, k) == 0 {
        assert Count(before.quota, k) == 0;
      }
    }
  }
}
