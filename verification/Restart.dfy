/** Restarting from the state file. Every file the running relay writes loads completely, into rooms
    the relay can start from again, so its guarantees carry over any number of restarts; and what was
    confirmed to a client before a crash is still so afterwards. */
module Restart {
  import opened Protocol
  import opened RoomSpec
  import opened RoomInvariant
  import opened Credentials
  import opened Snapshot
  import opened RegistrySpec
  import opened System
  import opened Seating
  import opened CoreInvariant
  import opened Durability
  import opened Runs
  import opened RoomHistory

  ghost predicate RecordOk(dto: RoomDto) {
    && ValidSessionId(dto.sessionId)
    && ValidPeerId(dto.hostPeerId)
    && SupportedProtocolVersion(dto.protocolVersion)
    && dto.hostVerifier.Some?
    && BodyIsValid(dto)
    && |dto.reservations| <= MAX_ROOM_SIZE - 1
  }

  /** Well-formed records of different sessions. */
  ghost predicate RecordsOk(records: seq<Captured>) {
    && (forall i :: 0 <= i < |records| ==> RecordOk(records[i].dto))
    && (forall i, j :: 0 <= i < j < |records| ==> records[i].dto.sessionId != records[j].dto.sessionId)
  }

  /** The rooms still to capture belong to sessions of their own. */
  ghost predicate TodoOk(arena: Arena, todo: set<RoomRef>, done: seq<Captured>) {
    && (forall x :: x in todo ==> x < |arena|)
    && (forall x, y :: x in todo && y in todo && x != y ==> arena[x].sessionId != arena[y].sessionId)
    && (forall x, i :: x in todo && 0 <= i < |done| ==> done[i].dto.sessionId != arena[x].sessionId)
  }

  ghost predicate FilesOk(s: Sys) {
    && RecordsOk(s.file)
    && RecordsOk(Done(s))
    && (s.phase.Capturing? ==> TodoOk(s.reg.arena, s.phase.todo, s.phase.done))
  }

  // ---------------------------------------------------------------- every event keeps it

  lemma BuiltRecordOk(r: Room, clock: Clock)
    requires RoomInv(r) && ValidSessionId(r.sessionId)
    ensures RecordOk(BuildRoomDto(r, clock))
  {
    SubSetSize(BuildRoomDto(r, clock).reservations.Keys, r.reservations.Keys);
  }

  lemma EventKeepsSession(s: Sys, ev: Event, ref: RoomRef)
    requires Core(s) && ref < |s.reg.arena|
    ensures ref < |Apply(s, ev).reg.arena| && Apply(s, ev).reg.arena[ref].sessionId == s.reg.arena[ref].sessionId
  {
    EventIsOps(s, ev, ref);
    RunKeepsSession(s.reg.arena[ref], Ops(s, ev, ref));
  }

  lemma StartFiles(s: Sys, stopping: bool)
    requires TableWf(s.reg) && FilesOk(s)
    ensures FilesOk(StartCapture(s, stopping))
  {
  }

  lemma CaptureFiles(s: Sys, ref: RoomRef, clock: Clock)
    requires RoomsOk(s.reg.arena) && FilesOk(s) && s.phase.Capturing? && ref in s.phase.todo && ref < |s.reg.arena|
    ensures FilesOk(DoCapture(s, ref, clock))
  {
    var record := Captured(ref, BuildRoomDto(s.reg.arena[ref], clock));
    BuiltRecordOk(s.reg.arena[ref], clock);
    assert RecordsOk(s.phase.done + [record]);
  }

  lemma DiskFiles(s: Sys, act: DiskAct)
    requires Core(s) && FilesOk(s) && DiskEnabled(s, act)
    ensures FilesOk(FireDisk(s, act))
  {
    match act
    case DiskReceive => ReceiveFiles(s);
    case DiskDebounce => StartFiles(s, false);
    case DiskCapture(ref, clock) => CaptureFiles(s, ref, clock);
    case _ =>
  }

  lemma ReceiveFiles(s: Sys)
    requires TableWf(s.reg) && FilesOk(s) && s.phase.Ready? && s.queue != []
    ensures FilesOk(DoReceive(s))
  {
  }

  /** Only the writer touches the file and its capture. */
  lemma OthersKeepFiles(s: Sys, ev: Event)
    requires !ev.Disk?
    ensures Apply(s, ev).phase == s.phase && Apply(s, ev).file == s.file
  {
  }

  lemma StepFiles(s: Sys, ev: Event)
    requires Core(s) && FilesOk(s)
    ensures FilesOk(Apply(s, ev))
  {
    if ev.Disk? {
      if DiskEnabled(s, ev.disk) {
        DiskFiles(s, ev.disk);
      }
    } else {
      OthersKeepFiles(s, ev);
      if s.phase.Capturing? {
        forall x | x in s.phase.todo
          ensures x < |Apply(s, ev).reg.arena| && Apply(s, ev).reg.arena[x].sessionId == s.reg.arena[x].sessionId
        {
          EventKeepsSession(s, ev, x);
        }
      }
    }
  }

  lemma {:induction false} ExecFiles(s: Sys, evs: seq<Event>)
    requires Inv(s) && FilesOk(s)
    ensures FilesOk(Exec(s, evs))
    decreases |evs|
  {
    if evs != [] {
      ExecFiles(s, evs[..|evs| - 1]);
      ExecInv(s, evs[..|evs| - 1]);
      StepFiles(Exec(s, evs[..|evs| - 1]), evs[|evs| - 1]);
    }
  }

  // ---------------------------------------------------------------- loading

  function Dtos(records: seq<Captured>): seq<RoomDto> {
    seq(|records|, i requires 0 <= i < |records| => records[i].dto)
  }

  /** The relay's own reading of a file, undisturbed by anything but the age and idle limits. */
  function Fresh(records: seq<Captured>, clock: Clock): seq<RestoredRoom>
    requires forall i :: 0 <= i < |records| ==> RecordOk(records[i].dto)
  {
    if records == [] then []
    else
      var dto := records[0].dto;
      assert RecordOk(dto);
      (if WithinLimits(FromMillis(dto.createdAtMillis), FromMillis(dto.lastActivityAtMillis), clock.wall)
          then [RestoreRoom(dto, clock)] else [])
      + Fresh(records[1..], clock)
  }

  lemma {:induction false} LoadsEverything(records: seq<Captured>, seen: set<SessionId>, clock: Clock)
    requires RecordsOk(records) && forall i :: 0 <= i < |records| ==> records[i].dto.sessionId !in seen
    ensures LoadRooms(Dtos(records), seen, clock) == Fresh(records, clock)
    decreases |records|
  {
    if records != [] {
      assert Dtos(records)[1..] == Dtos(records[1..]);
      LoadsEverything(records[1..], if HeadIsValid(records[0].dto, clock.wall) then seen + {records[0].dto.sessionId}
          else seen, clock);
    }
  }

  /** The record a restored room was made of. */
  lemma {:induction false} FreshSource(records: seq<Captured>, clock: Clock, k: nat) returns (i: nat)
    requires RecordsOk(records) && k < |Fresh(records, clock)|
    ensures i < |records| && HeadIsValid(records[i].dto, clock.wall)
              && Fresh(records, clock)[k] == RestoreRoom(records[i].dto, clock)
    decreases |records|
  {
    var head := |Fresh(records, clock)| - |Fresh(records[1..], clock)|;
    if k < head {
      i := 0;
    } else {
      i := FreshSource(records[1..], clock, k - head);
      i := i + 1;
    }
  }

  ghost predicate Apart(rooms: seq<RestoredRoom>) {
    forall i, j :: 0 <= i < j < |rooms| ==> rooms[i].sessionId != rooms[j].sessionId
  }

  lemma {:induction false} FreshSessions(records: seq<Captured>, clock: Clock)
    requires RecordsOk(records)
    ensures Apart(Fresh(records, clock))
    decreases |records|
  {
    if records != [] {
      var rest := Fresh(records[1..], clock);
      FreshSessions(records[1..], clock);
      forall k | 0 <= k < |rest| ensures rest[k].sessionId != records[0].dto.sessionId {
        var i := FreshSource(records[1..], clock, k);
      }
      var rs := Fresh(records, clock);
      var head := |rs| - |rest|;
      forall i, j | 0 <= i < j < |rs| ensures rs[i].sessionId != rs[j].sessionId {
        assert rs[j] == rest[j - head];
        if i < head {
          assert rs[i].sessionId == records[0].dto.sessionId;
        } else {
          assert rs[i] == rest[i - head];
        }
      }
    }
  }

  lemma FreshIsBootable(records: seq<Captured>, clock: Clock)
    requires RecordsOk(records)
    ensures Bootable(Fresh(records, clock))
  {
    FreshSessions(records, clock);
    forall k | 0 <= k < |Fresh(records, clock)|
      ensures RoomInv(Restore(Fresh(records, clock)[k])) && ValidSessionId(Fresh(records, clock)[k].sessionId)
    {
      var i := FreshSource(records, clock, k);
      LoadedRoomInvariant(records[i].dto, clock);
    }
  }

  // ---------------------------------------------------------------- across a crash

  function Reload(file: seq<Captured>, clock: Clock): seq<RestoredRoom> {
    Load(Some(StateDto(SNAPSHOT_FORMAT_VERSION, Dtos(file))), clock)
  }

  /** Crash at any moment: the file on disk loads completely, but for rooms past their limits, and
      into a state from which every guarantee starts again. */
  lemma RestartIsComplete(restored: seq<RestoredRoom>, file: seq<Captured>, evs: seq<Event>, clock: Clock)
    requires Bootable(restored) && RecordsOk(file)
    ensures var file' := Exec(Boot(restored, file), evs).file;
            && RecordsOk(file')
            && Reload(file', clock) == Fresh(file', clock)
            && Bootable(Reload(file', clock))
  {
    BootInv(restored, file);
    ExecFiles(Boot(restored, file), evs);
    var file' := Exec(Boot(restored, file), evs).file;
    LoadsEverything(file', {}, clock);
    FreshIsBootable(file', clock);
  }

  lemma UnmentionedIsGone(dto: RoomDto, clock: Clock, p: PeerId)
    requires RecordOk(dto) && !Mentions(dto, p)
    ensures !IsIdentity(Restore(RestoreRoom(dto, clock)), p)
  {
  }

  /** What was confirmed survives the crash: each reloaded room comes from one record; it is never a
      room whose end was confirmed, and it has no place for a peer whose leave was confirmed. */
  lemma ConfirmedSurvivesCrash(restored: seq<RestoredRoom>, file: seq<Captured>, evs: seq<Event>, clock: Clock, k: nat)
    returns (i: nat)
    requires Bootable(restored) && RecordsOk(file)
    requires k < |Reload(Exec(Boot(restored, file), evs).file, clock)|
    ensures var s := Exec(Boot(restored, file), evs);
            && i < |s.file|
            && RecordOk(s.file[i].dto)
            && Reload(s.file, clock)[k] == RestoreRoom(s.file[i].dto, clock)
            && s.file[i].origin !in s.log.ended
            && forall p :: (s.file[i].origin, p) in s.log.released ==> !IsIdentity(Restore(Reload(s.file, clock)[k]), p)
  {
    var s := Exec(Boot(restored, file), evs);
    RestartIsComplete(restored, file, evs, clock);
    i := FreshSource(s.file, clock, k);
    Reachable(restored, file, evs);
    forall ref | ref in s.log.ended ensures ref != s.file[i].origin {
      assert RoomGone(s, ref);
    }
    forall p | (s.file[i].origin, p) in s.log.released
        ensures !IsIdentity(Restore(RestoreRoom(s.file[i].dto, clock)), p) {
      assert PeerGone(s, s.file[i].origin, p);
      UnmentionedIsGone(s.file[i].dto, clock, p);
    }
  }
}
