/** Saving rooms and loading them back (src/snapshot.rs, data side). The writer loop is in Writer,
    and the file as part of the running relay in System. */
module Snapshot {
  import opened Protocol
  import opened RoomSpec
  import opened RoomInvariant
  import opened Credentials

  const SNAPSHOT_FORMAT_VERSION: nat := 1

  /** One reading of the monotonic and of the wall clock. */
  datatype Clock = Clock(instant: Instant, wall: WallTime)

  /** Persisted verifiers are text; None stands for text that does not decode. */
  datatype ReservationDto = ReservationDto(verifier: Option<Verifier>, absentSinceMillis: Option<nat>)

  datatype RoomDto = RoomDto(
    sessionId: SessionId,
    hostPeerId: PeerId,
    hostVerifier: Option<Verifier>,
    protocolVersion: nat,
    reservations: map<PeerId, ReservationDto>,
    createdAtMillis: nat,
    lastActivityAtMillis: nat
  )

  datatype StateDto = StateDto(version: nat, rooms: seq<RoomDto>)

  datatype RestoredReservation = RestoredReservation(verifier: Verifier, absentSince: Option<Instant>)

  datatype RestoredRoom = RestoredRoom(
    sessionId: SessionId,
    hostPeerId: PeerId,
    hostVerifier: Verifier,
    reservations: map<PeerId, RestoredReservation>,
    createdAt: WallTime,
    lastActivityAt: WallTime
  )

  function ToMillis(t: WallTime): nat {
    if t < 0 then 0 else t / NANOS_PER_MILLI
  }

  function FromMillis(ms: nat): WallTime {
    ms * NANOS_PER_MILLI
  }

  lemma MillisTruncate(t: WallTime)
    requires 0 <= t
    ensures FromMillis(ToMillis(t)) <= t < FromMillis(ToMillis(t)) + NANOS_PER_MILLI
  {
  }

  // ---------------------------------------------------------------- saving

  /** The wall time at which an identity absent since `since` went away, as read at `clock`. */
  function AbsentWall(since: Instant, clock: Clock): WallTime {
    clock.wall - Since(clock.instant, since)
  }

  function BuildReservation(res: PeerReservation, clock: Clock): ReservationDto {
    ReservationDto(Some(res.verifier),
                   if res.absentSince.None? then None else Some(ToMillis(AbsentWall(res.absentSince.value, clock))))
  }

  function BuildRoomDto(r: Room, clock: Clock): RoomDto {
    RoomDto(r.sessionId, r.hostPeerId, Some(r.hostVerifier), RELAY_PROTOCOL_VERSION,
            map p | p in r.reservations && !r.reservations[p].releasePending :: BuildReservation(r.reservations[p],
                clock),
            ToMillis(r.createdAt), ToMillis(r.lastActivityAt))
  }

  /** The record names `p` as its host or as a reserved guest. */
  predicate Mentions(dto: RoomDto, p: PeerId) {
    dto.hostPeerId == p || p in dto.reservations
  }

  // ---------------------------------------------------------------- loading

  function RestoreAbsence(ms: nat, clock: Clock): Instant {
    var elapsed := Since(clock.wall, FromMillis(ms));
    if elapsed <= clock.instant then clock.instant - elapsed else clock.instant
  }

  predicate WithinLimits(createdAt: WallTime, lastActivityAt: WallTime, wall: WallTime) {
    Since(wall, createdAt) <= ROOM_MAX_AGE && Since(wall, lastActivityAt) <= EMPTY_ROOM_MAX_AGE
  }

  predicate HeadIsValid(dto: RoomDto, wall: WallTime) {
    && ValidSessionId(dto.sessionId)
    && ValidPeerId(dto.hostPeerId)
    && SupportedProtocolVersion(dto.protocolVersion)
    && dto.hostVerifier.Some?
    && WithinLimits(FromMillis(dto.createdAtMillis), FromMillis(dto.lastActivityAtMillis), wall)
  }

  predicate EntryIsValid(dto: RoomDto, p: PeerId)
    requires p in dto.reservations
  {
    ValidSessionId(dto.sessionId) && ValidPeerId(p) && p != dto.hostPeerId && dto.reservations[p].verifier.Some?
  }

  predicate BodyIsValid(dto: RoomDto) {
    forall p :: p in dto.reservations ==> EntryIsValid(dto, p)
  }

  function RestoreReservation(res: ReservationDto, clock: Clock): RestoredReservation
    requires res.verifier.Some?
  {
    RestoredReservation(res.verifier.value,
                        if res.absentSinceMillis.None? then None
                            else Some(RestoreAbsence(res.absentSinceMillis.value, clock)))
  }

  function RestoreRoom(dto: RoomDto, clock: Clock): RestoredRoom
    requires dto.hostVerifier.Some? && BodyIsValid(dto)
  {
    RestoredRoom(dto.sessionId, dto.hostPeerId, dto.hostVerifier.value,
                 map p | p in dto.reservations :: RestoreReservation(dto.reservations[p], clock),
                 FromMillis(dto.createdAtMillis), FromMillis(dto.lastActivityAtMillis))
  }

  /** What the loader keeps of a list of records: a session id counts as seen once its head is valid,
      even if its reservations are then rejected. */
  function LoadRooms(rooms: seq<RoomDto>, seen: set<SessionId>, clock: Clock): seq<RestoredRoom> {
    if rooms == [] then []
    else if !HeadIsValid(rooms[0], clock.wall) || rooms[0].sessionId in seen then LoadRooms(rooms[1..], seen, clock)
    else
      (if BodyIsValid(rooms[0]) then [RestoreRoom(rooms[0], clock)] else [])
      + LoadRooms(rooms[1..], seen + {rooms[0].sessionId}, clock)
  }

  /** A missing or undecodable file is None. */
  function Load(file: Option<StateDto>, clock: Clock): seq<RestoredRoom> {
    if file.None? || file.value.version != SNAPSHOT_FORMAT_VERSION then [] else LoadRooms(file.value.rooms, {}, clock)
  }

  /** Validates and converts the reservations of one record, stopping at the first bad one. */
  method LoadReservations(dto: RoomDto, clock: Clock)
    returns (valid: bool, reservations: map<PeerId, RestoredReservation>)
    ensures valid <==> BodyIsValid(dto)
    ensures valid ==> reservations == map p | p in dto.reservations :: RestoreReservation(dto.reservations[p], clock)
  {
    valid := true;
    reservations := map[];
    var todo := dto.reservations.Keys;
    while todo != {}
      invariant todo <= dto.reservations.Keys
      invariant forall p :: p in dto.reservations.Keys - todo ==> EntryIsValid(dto, p)
      invariant reservations.Keys == dto.reservations.Keys - todo
      invariant forall p :: p in reservations ==> reservations[p] == RestoreReservation(dto.reservations[p], clock)
      decreases |todo|
    {
      var p :| p in todo;
      var r := dto.reservations[p];
      if !ValidSessionId(dto.sessionId) || !ValidPeerId(p) || p == dto.hostPeerId || r.verifier.None? {
        valid := false;
        assert !EntryIsValid(dto, p);
        return;
      }
      var absentSince := None;
      if r.absentSinceMillis.Some? {
        var elapsed := Since(clock.wall, FromMillis(r.absentSinceMillis.value));
        absentSince := Some(if elapsed <= clock.instant then clock.instant - elapsed else clock.instant);
      }
      reservations := reservations[p := RestoredReservation(r.verifier.value, absentSince)];
      todo := todo - {p};
    }
  }

  method LoadSnapshot(file: Option<StateDto>, clock: Clock) returns (restored: seq<RestoredRoom>)
    ensures restored == Load(file, clock)
  {
    restored := [];
    if file.None? || file.value.version != SNAPSHOT_FORMAT_VERSION {
      return;
    }
    var rooms := file.value.rooms;
    var seen: set<SessionId> := {};
    for i := 0 to |rooms|
      invariant restored + LoadRooms(rooms[i..], seen, clock) == LoadRooms(rooms, {}, clock)
    {
      var room := rooms[i];
      assert rooms[i..][0] == room && rooms[i..][1..] == rooms[i + 1..];
      if !ValidSessionId(room.sessionId) || !ValidPeerId(room.hostPeerId) {
        continue;
      }
      if |room.sessionId| > MAX_SESSION_ID_LENGTH || |room.hostPeerId| > MAX_PEER_ID_LENGTH {
        continue;
      }
      if !SupportedProtocolVersion(room.protocolVersion) || room.hostVerifier.None? {
        continue;
      }
      var createdAt, lastActivityAt := FromMillis(room.createdAtMillis), FromMillis(room.lastActivityAtMillis);
      if Since(clock.wall, createdAt) > ROOM_MAX_AGE || Since(clock.wall, lastActivityAt) > EMPTY_ROOM_MAX_AGE {
        continue;
      }
      if room.sessionId in seen {
        continue;
      }
      seen := seen + {room.sessionId};
      var valid, reservations := LoadReservations(room, clock);
      if !valid {
        continue;
      }
      restored := restored + [RestoredRoom(room.sessionId, room.hostPeerId, room.hostVerifier.value, reservations,
          createdAt, lastActivityAt)];
    }
    assert rooms[|rooms|..] == [];
  }

  // ---------------------------------------------------------------- save, then load

  /** What a restart should make of a room saved at `saved` and loaded at `loaded`. */
  function Survivor(r: Room, saved: Clock, loaded: Clock): RestoredRoom {
    RestoredRoom(r.sessionId, r.hostPeerId, r.hostVerifier,
                 map p | p in Transferable(r) ::
                   RestoredReservation(r.reservations[p].verifier,
                     if r.reservations[p].absentSince.None? then None
                     else Some(RestoreAbsence(ToMillis(AbsentWall(r.reservations[p].absentSince.value, saved)),
                         loaded))),
                 FromMillis(ToMillis(r.createdAt)), FromMillis(ToMillis(r.lastActivityAt)))
  }

  /** Whether the room is still within the age and idle limits, at the millisecond precision of the file. */
  predicate StillFresh(r: Room, loaded: Clock) {
    WithinLimits(FromMillis(ToMillis(r.createdAt)), FromMillis(ToMillis(r.lastActivityAt)), loaded.wall)
  }

  function Survivors(rooms: seq<Room>, saved: Clock, loaded: Clock): seq<RestoredRoom> {
    if rooms == [] then []
    else
      (if StillFresh(rooms[0], loaded) then [Survivor(rooms[0], saved, loaded)] else [])
      + Survivors(rooms[1..], saved, loaded)
  }

  function BuildAll(rooms: seq<Room>, clock: Clock): seq<RoomDto> {
    seq(|rooms|, i requires 0 <= i < |rooms| => BuildRoomDto(rooms[i], clock))
  }

  ghost predicate Saveable(r: Room) {
    RoomInv(r) && ValidSessionId(r.sessionId)
  }

  lemma SavedRoomLoads(r: Room, saved: Clock, loaded: Clock)
    requires Saveable(r)
    ensures var dto := BuildRoomDto(r, saved);
            && BodyIsValid(dto)
            && (HeadIsValid(dto, loaded.wall) <==> StillFresh(r, loaded))
            && RestoreRoom(dto, loaded) == Survivor(r, saved, loaded)
  {
    var dto := BuildRoomDto(r, saved);
    assert BodyIsValid(dto);
    assert RestoreRoom(dto, loaded).reservations == Survivor(r, saved, loaded).reservations;
  }

  lemma LoadFirst(rooms: seq<RoomDto>, seen: set<SessionId>, clock: Clock)
    requires rooms != [] && BodyIsValid(rooms[0]) && rooms[0].sessionId !in seen
    ensures LoadRooms(rooms, seen, clock) ==
            if HeadIsValid(rooms[0], clock.wall) then [RestoreRoom(rooms[0], clock)]
                + LoadRooms(rooms[1..], seen + {rooms[0].sessionId}, clock)
            else LoadRooms(rooms[1..], seen, clock)
  {
  }

  /** Rooms that may be saved together after `seen`: well formed, of sessions of their own. */
  ghost predicate Saves(rooms: seq<Room>, seen: set<SessionId>) {
    && (forall i :: 0 <= i < |rooms| ==> Saveable(rooms[i]) && rooms[i].sessionId !in seen)
    && (forall i, j :: 0 <= i < j < |rooms| ==> rooms[i].sessionId != rooms[j].sessionId)
  }

  lemma SavesRest(rooms: seq<Room>, seen: set<SessionId>, keep: bool)
    requires Saves(rooms, seen) && rooms != []
    ensures Saves(rooms[1..], if keep then seen + {rooms[0].sessionId} else seen)
  {
  }

  /** One saved room ahead of the others. */
  lemma LoadOneAfterBuild(rooms: seq<Room>, seen: set<SessionId>, saved: Clock, loaded: Clock)
    requires Saves(rooms, seen) && rooms != []
    ensures var keep := StillFresh(rooms[0], loaded);
            LoadRooms(BuildAll(rooms, saved), seen, loaded)
            == (if keep then [Survivor(rooms[0], saved, loaded)] else [])
               + LoadRooms(BuildAll(rooms[1..], saved), if keep then seen + {rooms[0].sessionId} else seen, loaded)
  {
    var dtos := BuildAll(rooms, saved);
    assert dtos[0] == BuildRoomDto(rooms[0], saved) && dtos[1..] == BuildAll(rooms[1..], saved);
    SavedRoomLoads(rooms[0], saved, loaded);
    LoadFirst(dtos, seen, loaded);
  }

  lemma {:induction false} LoadAfterBuild(rooms: seq<Room>, seen: set<SessionId>, saved: Clock, loaded: Clock)
    requires Saves(rooms, seen)
    ensures LoadRooms(BuildAll(rooms, saved), seen, loaded) == Survivors(rooms, saved, loaded)
    decreases |rooms|
  {
    if rooms != [] {
      var keep := StillFresh(rooms[0], loaded);
      LoadOneAfterBuild(rooms, seen, saved, loaded);
      SavesRest(rooms, seen, keep);
      LoadAfterBuild(rooms[1..], if keep then seen + {rooms[0].sessionId} else seen, saved, loaded);
    }
  }

  /** Round trip: loading what was saved brings back every room within the limits, in order, with its
      session, host, host verifier and all reservations that were not pending release. */
  lemma SaveThenLoad(rooms: seq<Room>, saved: Clock, loaded: Clock)
    requires forall i :: 0 <= i < |rooms| ==> Saveable(rooms[i])
    requires forall i, j :: 0 <= i < j < |rooms| ==> rooms[i].sessionId != rooms[j].sessionId
    ensures Load(Some(StateDto(SNAPSHOT_FORMAT_VERSION, BuildAll(rooms, saved))), loaded) == Survivors(rooms, saved,
              loaded)
  {
    LoadAfterBuild(rooms, {}, saved, loaded);
  }

  // ---------------------------------------------------------------- the limits of a restart

  /** What a record must be to be considered at all: valid ids, protocol version 2, decodable verifiers, and
      no reservation for its host. */
  predicate IsWellFormed(dto: RoomDto) {
    && ValidSessionId(dto.sessionId) && ValidPeerId(dto.hostPeerId) && dto.protocolVersion == 2
    && dto.hostVerifier.Some?
    && forall p :: p in dto.reservations ==> ValidPeerId(p) && p != dto.hostPeerId && dto.reservations[p].verifier.Some?
  }

  /** Created within the last day and active within the last five minutes, as of the startup. */
  predicate IsRecent(createdAt: WallTime, lastActivityAt: WallTime, wall: WallTime) {
    wall <= createdAt + 24 * 60 * 60 * NANOS_PER_SECOND && wall <= lastActivityAt + 5 * 60 * NANOS_PER_SECOND
  }

  /** The loader drops exactly what the sweep would remove: a restored room is recent iff no sweep at the
      startup's own time would take it. */
  lemma LimitsAreTheSweeps(rr: RestoredRoom, wall: WallTime)
    ensures IsSwept(Restore(rr), wall) <==> !IsRecent(rr.createdAt, rr.lastActivityAt, wall)
    ensures WithinLimits(rr.createdAt, rr.lastActivityAt, wall) <==> IsRecent(rr.createdAt, rr.lastActivityAt, wall)
  {
  }

  /** What the loader looks at first: valid ids, protocol version 2, a decodable host verifier, recent times. */
  predicate IsCandidate(dto: RoomDto, wall: WallTime) {
    && ValidSessionId(dto.sessionId) && ValidPeerId(dto.hostPeerId) && dto.protocolVersion == 2
    && dto.hostVerifier.Some?
    && IsRecent(FromMillis(dto.createdAtMillis), FromMillis(dto.lastActivityAtMillis), wall)
  }

  /** Then at its reservations: valid ids, none for the host, decodable verifiers. */
  predicate HasGoodGuests(dto: RoomDto) {
    forall p :: p in dto.reservations ==>
      ValidPeerId(p) && p != dto.hostPeerId && dto.reservations[p].verifier.Some?
  }

  lemma CandidateIsHead(dto: RoomDto, wall: WallTime)
    ensures HeadIsValid(dto, wall) <==> IsCandidate(dto, wall)
    ensures IsCandidate(dto, wall) ==> (BodyIsValid(dto) <==> HasGoodGuests(dto))
  {
    if ValidSessionId(dto.sessionId) && HasGoodGuests(dto) {
      assert BodyIsValid(dto);
    }
    if BodyIsValid(dto) {
      forall p | p in dto.reservations ensures ValidPeerId(p) && p != dto.hostPeerId {
        assert EntryIsValid(dto, p);
      }
    }
  }

  /** Record `i` is loaded: it is the first candidate of a session not seen before, and its guests are good. */
  ghost predicate IsPick(rooms: seq<RoomDto>, seen: set<SessionId>, wall: WallTime, i: int) {
    && 0 <= i < |rooms| && IsCandidate(rooms[i], wall) && HasGoodGuests(rooms[i]) && rooms[i].sessionId !in seen
    && forall j :: 0 <= j < i && rooms[j].sessionId == rooms[i].sessionId ==> !IsCandidate(rooms[j], wall)
  }

  function SeenAfter(dto: RoomDto, seen: set<SessionId>, wall: WallTime): set<SessionId> {
    if HeadIsValid(dto, wall) then seen + {dto.sessionId} else seen
  }

  lemma PickOfRest(rooms: seq<RoomDto>, seen: set<SessionId>, wall: WallTime, i: nat)
    requires rooms != []
    ensures IsPick(rooms[1..], SeenAfter(rooms[0], seen, wall), wall, i) <==> IsPick(rooms, seen, wall, i + 1)
  {
    CandidateIsHead(rooms[0], wall);
    var rest := rooms[1..];
    if IsPick(rest, SeenAfter(rooms[0], seen, wall), wall, i) {
      forall j | 0 <= j < i + 1 && rooms[j].sessionId == rooms[i + 1].sessionId ensures !IsCandidate(rooms[j], wall) {
        if j > 0 {
          assert rest[j - 1] == rooms[j];
        }
      }
    }
    if IsPick(rooms, seen, wall, i + 1) {
      forall j | 0 <= j < i && rest[j].sessionId == rest[i].sessionId ensures !IsCandidate(rest[j], wall) {
        assert rooms[j + 1] == rest[j];
      }
    }
  }

  lemma LoadStep(rooms: seq<RoomDto>, seen: set<SessionId>, clock: Clock)
    requires rooms != []
    ensures LoadRooms(rooms, seen, clock)
            == (if IsPick(rooms, seen, clock.wall, 0) then [RestoreRoom(rooms[0], clock)] else [])
               + LoadRooms(rooms[1..], SeenAfter(rooms[0], seen, clock.wall), clock)
  {
    CandidateIsHead(rooms[0], clock.wall);
    if rooms[0].sessionId in seen {
      assert seen + {rooms[0].sessionId} == seen;
    }
  }

  /** Record `i` is loaded, as `rr`. */
  ghost predicate IsLoadedAs(rooms: seq<RoomDto>, seen: set<SessionId>, clock: Clock, i: int, rr: RestoredRoom) {
    IsPick(rooms, seen, clock.wall, i) && BodyIsValid(rooms[i]) && rr == RestoreRoom(rooms[i], clock)
  }

  /** Exactly what is loaded from any list of records. */
  lemma {:induction false} LoadIsExact(rooms: seq<RoomDto>, seen: set<SessionId>, clock: Clock, rr: RestoredRoom)
    ensures rr in LoadRooms(rooms, seen, clock) <==> exists i :: IsLoadedAs(rooms, seen, clock, i, rr)
    decreases |rooms|
  {
    if rooms != [] {
      var seen' := SeenAfter(rooms[0], seen, clock.wall);
      LoadStep(rooms, seen, clock);
      LoadIsExact(rooms[1..], seen', clock, rr);
      CandidateIsHead(rooms[0], clock.wall);
      if i: nat :| IsLoadedAs(rooms[1..], seen', clock, i, rr) {
        PickOfRest(rooms, seen, clock.wall, i);
        assert IsLoadedAs(rooms, seen, clock, i + 1, rr);
      }
      if i: nat :| IsLoadedAs(rooms, seen, clock, i, rr) {
        if i > 0 {
          PickOfRest(rooms, seen, clock.wall, i - 1);
          assert IsLoadedAs(rooms[1..], seen', clock, i - 1, rr);
        }
      }
      if IsPick(rooms, seen, clock.wall, 0) && rr == RestoreRoom(rooms[0], clock) {
        assert IsLoadedAs(rooms, seen, clock, 0, rr);
      }
    }
  }

  /** A record that is well formed and the first of its session is loaded iff it is recent, which is iff the
      sweep would not remove the room at the startup's own time. */
  lemma LoadedIffRecent(rooms: seq<RoomDto>, clock: Clock, i: nat)
    requires i < |rooms| && IsWellFormed(rooms[i]) && BodyIsValid(rooms[i])
    requires forall j :: 0 <= j < i ==> rooms[j].sessionId != rooms[i].sessionId
    ensures RestoreRoom(rooms[i], clock) in LoadRooms(rooms, {}, clock) <==>
              IsRecent(FromMillis(rooms[i].createdAtMillis), FromMillis(rooms[i].lastActivityAtMillis), clock.wall)
    ensures RestoreRoom(rooms[i], clock) in LoadRooms(rooms, {}, clock) <==>
              !IsSwept(Restore(RestoreRoom(rooms[i], clock)), clock.wall)
  {
    var rr := RestoreRoom(rooms[i], clock);
    LimitsAreTheSweeps(rr, clock.wall);
    LoadIsExact(rooms, {}, clock, rr);
    if IsRecent(rr.createdAt, rr.lastActivityAt, clock.wall) {
      assert IsLoadedAs(rooms, {}, clock, i, rr);
    }
  }

  /** In a round trip: a saved room comes back iff, at the file's precision, the sweep would keep it. */
  lemma FreshIsRecent(r: Room, saved: Clock, loaded: Clock)
    ensures StillFresh(r, loaded) <==> !IsSwept(Restore(Survivor(r, saved, loaded)), loaded.wall)
    ensures StillFresh(r, loaded) <==>
              IsRecent(FromMillis(ToMillis(r.createdAt)), FromMillis(ToMillis(r.lastActivityAt)), loaded.wall)
  {
    LimitsAreTheSweeps(Survivor(r, saved, loaded), loaded.wall);
  }

  // ---------------------------------------------------------------- grace across a restart

  /** The wall time at which a grace period that began at `since` ends, seen from `clock`. */
  function GraceEnds(since: Instant, clock: Clock): WallTime {
    clock.wall + since + PEER_RESERVATION_GRACE - clock.instant
  }

  /** The absence survives: it is not in the new wall clock's future and fits before the new monotonic
      clock's origin. */
  predicate AbsenceFits(ms: nat, loaded: Clock) {
    FromMillis(ms) <= loaded.wall && loaded.wall - FromMillis(ms) <= loaded.instant
  }

  /** When a restored grace ends, in every case: counted from the saved absence, or from the startup when
      the absence does not fit. */
  lemma GraceAfterRestart(ms: nat, loaded: Clock)
    ensures GraceEnds(RestoreAbsence(ms, loaded), loaded)
            == (if AbsenceFits(ms, loaded) then FromMillis(ms) else loaded.wall) + PEER_RESERVATION_GRACE
  {
  }

  /** The grace ends no later than it would have without the restart, and less than a millisecond earlier. */
  predicate GraceKept(since: Instant, saved: Clock, loaded: Clock) {
    var restored := RestoreAbsence(ToMillis(AbsentWall(since, saved)), loaded);
    GraceEnds(since, saved) - NANOS_PER_MILLI < GraceEnds(restored, loaded) <= GraceEnds(since, saved)
  }

  /** A restart keeps the grace exactly when the absence fits (and did not start before the epoch), or
      the startup happens to be at the moment it started. */
  lemma GraceSurvivesRestart(since: Instant, saved: Clock, loaded: Clock)
    requires since <= saved.instant
    ensures var absent := AbsentWall(since, saved);
            GraceKept(since, saved, loaded) <==>
              if AbsenceFits(ToMillis(absent), loaded) then 0 <= absent
              else absent - NANOS_PER_MILLI < loaded.wall <= absent
  {
    var absent := AbsentWall(since, saved);
    GraceAfterRestart(ToMillis(absent), loaded);
    if 0 <= absent {
      MillisTruncate(absent);
    }
  }

  /** With the wall clock set back past the absence, or an absence older than the new monotonic clock, the
      full grace starts over. */
  lemma GraceRestartsWhenLost(ms: nat, loaded: Clock)
    requires !AbsenceFits(ms, loaded)
    ensures RestoreAbsence(ms, loaded) == loaded.instant
  {
  }

  // ---------------------------------------------------------------- rooms rebuilt at startup

  /** The room object made of a restored record: nobody connected, no owner, nothing pending. */
  function Restore(rr: RestoredRoom): Room {
    Room(rr.sessionId, rr.hostPeerId, rr.hostVerifier, map[],
         map p | p in rr.reservations :: PeerReservation(rr.reservations[p].verifier, rr.reservations[p].absentSince,
             false),
         "", rr.createdAt, rr.lastActivityAt, false, 1)
  }

  lemma RestoreKeepsSize(rr: RestoredRoom)
    ensures |Restore(rr).reservations| == |rr.reservations|
  {
    assert Restore(rr).reservations.Keys == rr.reservations.Keys;
  }

  /** The loader does not count reservations, so a loaded room meets the room invariant exactly when
      its record holds at most seven of them. */
  lemma LoadedRoomInvariant(dto: RoomDto, clock: Clock)
    requires HeadIsValid(dto, clock.wall) && BodyIsValid(dto)
    ensures RoomInv(Restore(RestoreRoom(dto, clock))) <==> |dto.reservations| <= MAX_ROOM_SIZE - 1
  {
    RestoreKeepsSize(RestoreRoom(dto, clock));
    assert RestoreRoom(dto, clock).reservations.Keys == dto.reservations.Keys;
  }

  /** A file this relay wrote never has more, so every room it restores meets the invariant. */
  lemma WrittenRoomsRestore(r: Room, saved: Clock, loaded: Clock)
    requires Saveable(r)
    ensures RoomInv(Restore(Survivor(r, saved, loaded)))
  {
    var rr := Survivor(r, saved, loaded);
    RestoreKeepsSize(rr);
    SubSetSize(rr.reservations.Keys, r.reservations.Keys);
  }

  /** A restart keeps exactly the identities that were not leaving, each with the credential it had. */
  lemma RestartKeepsCredentials(r: Room, saved: Clock, loaded: Clock, p: PeerId)
    requires RoomInv(r)
    ensures var r' := Restore(Survivor(r, saved, loaded));
            && (IsIdentity(r', p) <==> IsIdentity(r, p) && !Pending(r, p))
            && (IsIdentity(r', p) ==> Credential(r', p) == Credential(r, p))
  {
  }

  function Guest(i: nat): PeerId {
    seq(i + 1, _ => 'g')
  }

  /** A record with eight well-formed reservations is loaded in full and breaks the seat limit. */
  lemma CrowdedRecordIsLoaded(clock: Clock)
    requires 0 <= clock.wall
    ensures exists dto :: HeadIsValid(dto, clock.wall) && |LoadRooms([dto], {}, clock)| == 1
                          && !RoomInv(Restore(LoadRooms([dto], {}, clock)[0]))
  {
    var entry := ReservationDto(Some(Verifier(1)), None);
    var ids := set i | 0 <= i < 8 :: Guest(i);
    CrowdSize(8);
    var reservations := map p | p in ids :: entry;
    assert reservations.Keys == ids;
    var now := ToMillis(clock.wall);
    MillisTruncate(clock.wall);
    var dto := RoomDto("s", "h", Some(Verifier(0)), RELAY_PROTOCOL_VERSION, reservations, now, now);
    forall p | p in reservations ensures EntryIsValid(dto, p) {
      var i :| 0 <= i < 8 && p == Guest(i);
      assert |p| <= 8 && p[0] == 'g';
    }
    LoadedRoomInvariant(dto, clock);
    assert LoadRooms([dto], {}, clock) == [RestoreRoom(dto, clock)];
  }

  lemma {:induction false} CrowdSize(n: nat)
    ensures |set i | 0 <= i < n :: Guest(i)| == n
  {
    if n > 0 {
      CrowdSize(n - 1);
      var smaller := set i | 0 <= i < n - 1 :: Guest(i);
      forall i | 0 <= i < n - 1 ensures Guest(i) != Guest(n - 1) {
        assert |Guest(i)| == i + 1;
      }
      assert (set i | 0 <= i < n :: Guest(i)) == smaller + {Guest(n - 1)};
    }
  }
}
