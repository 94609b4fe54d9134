/** Any number of restarts. A life is a run that ends in a crash at any moment and a startup from the file
    it left. Every guarantee holds again in each life, and a confirmed departure holds through all of them. */
module Lives {
  import opened Protocol
  import opened RoomSpec
  import opened Credentials
  import opened Snapshot
  import opened RegistrySpec
  import opened System
  import opened CoreInvariant
  import opened Durability
  import opened Books
  import opened Runs
  import opened RoomHistory
  import opened Admission
  import opened Restart
  import opened Progress
  import opened Saving

  // ---------------------------------------------------------------- who is gone stays gone

  lemma StepKeepsGone(r: Room, op: RoomOp, p: PeerId)
    requires !IsIdentity(r, p) && !Readmits(r, op, p)
    ensures !IsIdentity(Step(r, op).room, p)
  {
  }

  lemma {:induction false} RunKeepsGone(r: Room, ops: seq<RoomOp>, p: PeerId)
    requires !IsIdentity(r, p) && !ComesBack(r, ops, p)
    ensures !IsIdentity(Run(r, ops), p)
    decreases |ops|
  {
    if ops != [] {
      StepKeepsGone(r, ops[0], p);
      RunKeepsGone(Step(r, ops[0]).room, ops[1..], p);
    }
  }

  lemma {:induction false} ComesBackAppend(r: Room, first: seq<RoomOp>, second: seq<RoomOp>, p: PeerId)
    ensures ComesBack(r, first + second, p) <==> ComesBack(r, first, p) || ComesBack(Run(r, first), second, p)
    decreases |first|
  {
    if first == [] {
      assert first + second == second;
    } else {
      assert (first + second)[1..] == first[1..] + second;
      ComesBackAppend(Step(r, first[0]).room, first[1..], second, p);
    }
  }

  /** The writer never brings a peer that is gone into the file or a capture. */
  lemma DiskKeepsGone(s: Sys, act: DiskAct, ref: RoomRef, p: PeerId)
    requires RoomsOk(s.reg.arena) && PeerGone(s, ref, p) && DiskEnabled(s, act)
    ensures PeerGone(FireDisk(s, act), ref, p)
  {
    DiskFrame(s, act);
    if act.DiskCapture? {
      CaptureNoMention(s, act.ref, act.clock, ref, p);
    }
  }

  lemma EventKeepsGone(s: Sys, ev: Event, ref: RoomRef, p: PeerId)
    requires Core(s) && PeerGone(s, ref, p) && !ComesBack(s.reg.arena[ref], Ops(s, ev, ref), p)
    ensures PeerGone(Apply(s, ev), ref, p)
  {
    if ev.Disk? {
      if DiskEnabled(s, ev.disk) {
        DiskKeepsGone(s, ev.disk, ref, p);
      }
    } else {
      OthersKeepFiles(s, ev);
      EventIsOps(s, ev, ref);
      RunKeepsGone(s.reg.arena[ref], Ops(s, ev, ref), p);
    }
  }

  /** Through any run that does not admit `p` to `ref` again. */
  lemma {:induction false} ExecKeepsGone(s: Sys, evs: seq<Event>, ref: RoomRef, p: PeerId)
    requires Inv(s) && PeerGone(s, ref, p) && !ComesBack(s.reg.arena[ref], History(s, evs, ref), p)
    ensures PeerGone(Exec(s, evs), ref, p)
    decreases |evs|
  {
    if evs != [] {
      var before, ev := evs[..|evs| - 1], evs[|evs| - 1];
      var mid := Exec(s, before);
      ComesBackAppend(s.reg.arena[ref], History(s, before, ref), Ops(mid, ev, ref), p);
      ExecKeepsGone(s, before, ref, p);
      RelayRunsAreRoomRuns(s, before, ref);
      ExecInv(s, before);
      EventKeepsGone(mid, ev, ref, p);
    }
  }

  // ---------------------------------------------------------------- which room continues which

  /** A record young enough to be loaded. */
  predicate IsYoung(record: Captured, clock: Clock) {
    WithinLimits(FromMillis(record.dto.createdAtMillis), FromMillis(record.dto.lastActivityAtMillis), clock.wall)
  }

  function Young(records: seq<Captured>, clock: Clock): nat {
    if records == [] then 0
    else Young(records[..|records| - 1], clock) + if IsYoung(records[|records| - 1], clock) then 1 else 0
  }

  /** The room object record `i` is restored as, if it is young enough. */
  function Position(records: seq<Captured>, clock: Clock, i: nat): nat
    requires i <= |records|
  {
    Young(records[..i], clock)
  }

  lemma {:induction false} PositionsGrow(records: seq<Captured>, clock: Clock, i: nat, j: nat)
    requires i < j <= |records|
    ensures Position(records, clock, i) + (if IsYoung(records[i], clock) then 1 else 0) <= Position(records, clock, j)
    decreases j
  {
    assert records[..j][..j - 1] == records[..j - 1];
    if i < j - 1 {
      PositionsGrow(records, clock, i, j - 1);
    }
  }

  lemma {:induction false} FreshAppend(records: seq<Captured>, clock: Clock)
    requires records != [] && forall i :: 0 <= i < |records| ==> RecordOk(records[i].dto)
    ensures var last := records[|records| - 1];
            RecordOk(last.dto) && Fresh(records, clock)
            == Fresh(records[..|records| - 1], clock) + if IsYoung(last, clock) then [RestoreRoom(last.dto, clock)]
                else []
    decreases |records|
  {
    assert RecordOk(records[|records| - 1].dto);
    if |records| == 1 {
      assert records[1..] == [] && records[..0] == [];
    } else {
      assert records[1..][..|records| - 2] == records[..|records| - 1][1..];
      FreshAppend(records[1..], clock);
    }
  }

  lemma {:induction false} FreshPrefix(records: seq<Captured>, clock: Clock, n: nat)
    requires n <= |records| && forall i :: 0 <= i < |records| ==> RecordOk(records[i].dto)
    ensures |Fresh(records[..n], clock)| == Position(records, clock, n)
    ensures Fresh(records[..n], clock) <= Fresh(records, clock)
    decreases |records|
  {
    if n == |records| {
      assert records[..n] == records;
      if n > 0 {
        FreshAppend(records, clock);
        FreshPrefix(records[..n - 1], clock, n - 1);
        assert records[..n - 1][..n - 1] == records[..n - 1];
      }
    } else {
      FreshAppend(records, clock);
      FreshPrefix(records[..|records| - 1], clock, n);
      assert records[..|records| - 1][..n] == records[..n];
    }
  }

  /** A young record is restored as the room at its position. */
  lemma RestoredAt(records: seq<Captured>, clock: Clock, i: nat)
    requires RecordsOk(records) && i < |records| && IsYoung(records[i], clock)
    ensures Position(records, clock, i) < |Fresh(records, clock)|
    ensures RecordOk(records[i].dto) && Fresh(records, clock)[Position(records, clock, i)]
              == RestoreRoom(records[i].dto, clock)
  {
    var upto := records[..i + 1];
    assert upto[..i] == records[..i] && upto[i] == records[i];
    FreshAppend(upto, clock);
    FreshPrefix(records, clock, i + 1);
    FreshPrefix(records, clock, i);
  }

  /** The file as the next life knows it: each record belongs to the room restored from it. A record too old
      to be loaded belongs to none of those; it stays on disk until the next write. */
  function Retag(records: seq<Captured>, clock: Clock): seq<Captured> {
    seq(|records|, i requires 0 <= i < |records| =>
      Captured(if IsYoung(records[i], clock) then Position(records, clock, i) else Young(records, clock) + i,
          records[i].dto))
  }

  /** Startup from a file. */
  function Rise(file: seq<Captured>, clock: Clock): Sys {
    Boot(Reload(file, clock), Retag(file, clock))
  }

  /** Room `k` of the next life continues room `ref` of this one. */
  ghost predicate Heir(file: seq<Captured>, clock: Clock, ref: RoomRef, k: RoomRef) {
    exists i :: 0 <= i < |file| && file[i].origin == ref && IsYoung(file[i], clock) && Position(file, clock, i) == k
  }

  // ---------------------------------------------------------------- lives

  /** What a life needs to begin with, and keeps. */
  ghost predicate Sound(s: Sys) {
    Inv(s) && FilesOk(s)
  }

  /** The events until the crash, and the clocks at the startup after it. */
  datatype Life = Life(evs: seq<Event>, clock: Clock)

  function After(start: Sys, life: Life): Sys {
    Rise(Exec(start, life.evs).file, life.clock)
  }

  /** The startup after a number of lives. */
  function AfterAll(start: Sys, lives: seq<Life>): Sys
    decreases |lives|
  {
    if lives == [] then start else AfterAll(After(start, lives[0]), lives[1..])
  }

  lemma RetagKeepsRecords(records: seq<Captured>, clock: Clock)
    requires RecordsOk(records)
    ensures RecordsOk(Retag(records, clock))
  {
    var tagged := Retag(records, clock);
    assert forall i :: 0 <= i < |tagged| ==> tagged[i].dto == records[i].dto;
  }

  lemma BootIsSound(restored: seq<RestoredRoom>, file: seq<Captured>)
    requires Bootable(restored) && RecordsOk(file)
    ensures Sound(Boot(restored, file)) && Conserved(Boot(restored, file))
  {
    BootInv(restored, file);
    BootBooks(restored, file);
  }

  lemma RiseIsSound(file: seq<Captured>, clock: Clock)
    requires RecordsOk(file)
    ensures Sound(Rise(file, clock)) && Conserved(Rise(file, clock)) && Reload(file, clock) == Fresh(file, clock)
  {
    LoadsEverything(file, {}, clock);
    FreshIsBootable(file, clock);
    RetagKeepsRecords(file, clock);
    BootIsSound(Reload(file, clock), Retag(file, clock));
  }

  lemma LifeIsSound(start: Sys, life: Life)
    requires Sound(start)
    ensures Sound(Exec(start, life.evs)) && Sound(After(start, life))
  {
    ExecInv(start, life.evs);
    ExecFiles(start, life.evs);
    RiseIsSound(Exec(start, life.evs).file, life.clock);
  }

  /** Whatever happens, and however often the relay crashes and restarts, everything holds again. */
  lemma {:induction false} LivesAreSound(start: Sys, lives: seq<Life>)
    requires Sound(start)
    ensures Sound(AfterAll(start, lives)) && (lives != [] ==> Conserved(AfterAll(start, lives)))
    decreases |lives|
  {
    if lives != [] {
      LifeIsSound(start, lives[0]);
      LivesAreSound(After(start, lives[0]), lives[1..]);
      if |lives| == 1 {
        RiseIsSound(Exec(start, lives[0].evs).file, lives[0].clock);
      }
    }
  }

  // ---------------------------------------------------------------- departures across lives

  /** A room whose end was confirmed has no heir. */
  lemma EndedHasNoHeir(s: Sys, clock: Clock, ref: RoomRef, k: RoomRef)
    requires Inv(s) && ref in s.log.ended
    ensures !Heir(s.file, clock, ref, k)
  {
    assert RoomGone(s, ref);
  }

  lemma HeirIsRestored(s: Sys, clock: Clock, ref: RoomRef, k: RoomRef, i: nat)
    requires RecordsOk(s.file) && i < |s.file| && IsYoung(s.file[i], clock) && Position(s.file, clock, i) == k
    ensures RecordOk(s.file[i].dto)
    ensures k < |Rise(s.file, clock).reg.arena|
              && Rise(s.file, clock).reg.arena[k] == Restore(RestoreRoom(s.file[i].dto, clock))
  {
    RestoredAt(s.file, clock, i);
    RiseIsSound(s.file, clock);
    RestoreAllRooms(Reload(s.file, clock));
  }

  lemma OneRecordPerHeir(records: seq<Captured>, clock: Clock, i: nat, j: nat)
    requires i < |records| && j < |records| && IsYoung(records[i], clock)
    requires Retag(records, clock)[j].origin == Position(records, clock, i)
    ensures j == i
  {
    PositionsGrow(records, clock, i, |records|);
    assert records[..|records|] == records;
    if i < j {
      PositionsGrow(records, clock, i, j);
    } else if j < i {
      PositionsGrow(records, clock, j, i);
    }
  }

  /** A peer that is gone from a room is gone from its heir. */
  lemma GoneCrossesRestart(s: Sys, clock: Clock, ref: RoomRef, p: PeerId, k: RoomRef)
    requires FilesOk(s) && PeerGone(s, ref, p) && Heir(s.file, clock, ref, k)
    ensures PeerGone(Rise(s.file, clock), k, p)
  {
    var i: nat :| i < |s.file| && s.file[i].origin == ref && IsYoung(s.file[i], clock)
        && Position(s.file, clock, i) == k;
    HeirIsRestored(s, clock, ref, k, i);
    UnmentionedIsGone(s.file[i].dto, clock, p);
    var file' := Retag(s.file, clock);
    forall j | 0 <= j < |file'| && file'[j].origin == k ensures !Mentions(file'[j].dto, p) {
      OneRecordPerHeir(s.file, clock, i, j);
    }
  }

  /** `refs` names the same room through the lives, each the heir of the one before. */
  ghost predicate Line(start: Sys, lives: seq<Life>, refs: seq<RoomRef>)
    decreases |lives|
  {
    && |refs| == |lives| + 1
    && (lives != [] ==> Heir(Exec(start, lives[0].evs).file, lives[0].clock, refs[0], refs[1])
                        && Line(After(start, lives[0]), lives[1..], refs[1..]))
  }

  /** `p` is not admitted to it in any of them. */
  ghost predicate StaysAway(start: Sys, lives: seq<Life>, refs: seq<RoomRef>, p: PeerId)
    requires |refs| == |lives| + 1
    decreases |lives|
  {
    lives != [] ==>
      && refs[0] < |start.reg.arena|
      && !ComesBack(start.reg.arena[refs[0]], History(start, lives[0].evs, refs[0]), p)
      && StaysAway(After(start, lives[0]), lives[1..], refs[1..], p)
  }

  /** A peer gone from a room, as after a confirmed leave, is in no file and no room of its line, through
      any number of restarts, until it joins again. */
  lemma {:induction false} GoneThroughLives(start: Sys, lives: seq<Life>, refs: seq<RoomRef>, p: PeerId)
    requires Sound(start) && |refs| == |lives| + 1
    ensures Line(start, lives, refs) && StaysAway(start, lives, refs, p) && PeerGone(start, refs[0], p) ==>
              PeerGone(AfterAll(start, lives), refs[|lives|], p)
    decreases |lives|
  {
    if lives != [] && Line(start, lives, refs) && StaysAway(start, lives, refs, p) && PeerGone(start, refs[0], p) {
      var crashed := Exec(start, lives[0].evs);
      ExecKeepsGone(start, lives[0].evs, refs[0], p);
      LifeIsSound(start, lives[0]);
      GoneCrossesRestart(crashed, lives[0].clock, refs[0], p, refs[1]);
      GoneThroughLives(After(start, lives[0]), lives[1..], refs[1..], p);
    }
  }

  /** The run `evs` does not admit `p` to room `ref`. */
  ghost predicate KeepsAway(s: Sys, evs: seq<Event>, ref: RoomRef, p: PeerId) {
    ref < |s.reg.arena| && !ComesBack(s.reg.arena[ref], History(s, evs, ref), p)
  }

  /** From the reply on: a leave that was confirmed keeps the peer out of every later file of that room's
      line, in this life and all later ones, until the peer joins again. */
  lemma LeftForGood(s: Sys, lives: seq<Life>, refs: seq<RoomRef>, p: PeerId, evs: seq<Event>)
    requires Sound(s) && |refs| == |lives| + 1 && (refs[0], p) in s.log.released
    ensures var last, ref := AfterAll(s, lives), refs[|lives|];
            Line(s, lives, refs) && StaysAway(s, lives, refs, p) && KeepsAway(last, evs, ref, p) ==>
              NoMention(Exec(last, evs).file, ref, p)
  {
    var last, ref := AfterAll(s, lives), refs[|lives|];
    assert PeerGone(s, refs[0], p);
    if Line(s, lives, refs) && StaysAway(s, lives, refs, p) && KeepsAway(last, evs, ref, p) {
      LivesAreSound(s, lives);
      GoneThroughLives(s, lives, refs, p);
      ExecKeepsGone(last, evs, ref, p);
    }
  }

  // ---------------------------------------------------------------- what is saved lives on

  /** `r'` carries on `r`: the same session, host and host verifier, and exactly the guests that were not
      leaving, each with its verifier. */
  ghost predicate CarriesOn(r': Room, r: Room) {
    && r'.sessionId == r.sessionId && r'.hostPeerId == r.hostPeerId && r'.hostVerifier == r.hostVerifier
    && !r'.closing && r'.peers == map[]
    && (forall p :: p in r'.reservations <==> p in r.reservations && !r.reservations[p].releasePending)
    && (forall p :: p in r'.reservations ==> r'.reservations[p].verifier == r.reservations[p].verifier)
  }

  lemma ShownCarriesOn(dto: RoomDto, r: Room, clock: Clock)
    requires RecordOk(dto) && Shows(dto, r)
    ensures CarriesOn(Restore(RestoreRoom(dto, clock)), r)
  {
  }

  /** The record was made in the last day and five minutes, as of the startup. */
  predicate IsRecentRecord(dto: RoomDto, clock: Clock) {
    IsRecent(FromMillis(dto.createdAtMillis), FromMillis(dto.lastActivityAtMillis), clock.wall)
  }

  /** A recent record has an heir, under its session in the table of the next life. */
  lemma RecentIsInherited(s: Sys, clock: Clock, i: nat) returns (k: RoomRef)
    requires RecordsOk(s.file) && i < |s.file| && IsRecentRecord(s.file[i].dto, clock)
    ensures Heir(s.file, clock, s.file[i].origin, k) && RecordOk(s.file[i].dto)
    ensures var reg := Rise(s.file, clock).reg;
            && k < |reg.arena| && reg.arena[k] == Restore(RestoreRoom(s.file[i].dto, clock))
            && IsCurrent(reg, k)
  {
    k := Position(s.file, clock, i);
    assert RecordOk(s.file[i].dto);
    LimitsAreTheSweeps(RestoreRoom(s.file[i].dto, clock), clock.wall);
    assert IsYoung(s.file[i], clock);
    HeirIsRestored(s, clock, s.file[i].origin, k, i);
    RiseMaps(s.file, clock, k);
  }

  lemma RiseMaps(file: seq<Captured>, clock: Clock, k: RoomRef)
    requires RecordsOk(file) && k < |Rise(file, clock).reg.arena|
    ensures IsCurrent(Rise(file, clock).reg, k)
  {
    RiseIsSound(file, clock);
    FreshIsBootable(file, clock);
    RestoreAllMaps(Reload(file, clock));
  }

  /** A room that a persist found in the table, and that was not closing when the persist ended, is carried on
      after a crash at any time before the next write, as it was at some moment during the persist, provided
      its record is recent. */
  lemma PersistedRoomLivesOn(s0: Sys, begin: Event, evs: seq<Event>, later: seq<Event>, clock: Clock, ref: RoomRef)
    returns (i: nat, n: nat, k: RoomRef)
    requires Sound(s0) && Begins(s0, begin) && Unfinished(Apply(s0, begin), evs)
    requires Writes(Exec(Apply(s0, begin), evs), Disk(DiskWrite(true)))
    requires Unfinished(Apply(Exec(Apply(s0, begin), evs), Disk(DiskWrite(true))), later)
    requires ref in s0.reg.table.Values && ref < |Exec(Apply(s0, begin), evs).reg.arena|
    requires !Exec(Apply(s0, begin), evs).reg.arena[ref].closing
    ensures var s := Apply(s0, begin);
            var crashed := Exec(Apply(Exec(s, evs), Disk(DiskWrite(true))), later);
            && i < |crashed.file| && crashed.file[i].origin == ref && ShownAt(s, evs, n, crashed.file[i])
            && (IsRecentRecord(crashed.file[i].dto, clock) ==>
                  && Heir(crashed.file, clock, ref, k) && k < |Rise(crashed.file, clock).reg.arena|
                  && IsCurrent(Rise(crashed.file, clock).reg, k)
                  && CarriesOn(Rise(crashed.file, clock).reg.arena[k], Exec(s, evs[..n]).reg.arena[ref]))
  {
    var s, s1 := Apply(s0, begin), Exec(Apply(s0, begin), evs);
    var s2 := Apply(s1, Disk(DiskWrite(true)));
    PersistSavesEverything(s0, begin, evs, true);
    FileStands(s2, later);
    WrittenIsOk(s0, begin, evs);
    i, n := FindRecord(s, evs, s1, s0.reg.table.Values, s2.file, ref);
    k := 0;
    if IsRecentRecord(s2.file[i].dto, clock) {
      k := RecentIsInherited(s2, clock, i);
      ShownCarriesOn(s2.file[i].dto, Exec(s, evs[..n]).reg.arena[ref], clock);
    }
  }

  lemma FindRecord(s: Sys, evs: seq<Event>, s1: Sys, listed: set<RoomRef>, file: seq<Captured>, ref: RoomRef)
    returns (i: nat, n: nat)
    requires SavesAll(s, evs, s1, listed, file) && ref in listed && !s1.reg.arena[ref].closing
    ensures i < |file| && file[i].origin == ref && ShownAt(s, evs, n, file[i])
  {
    assert HasRecord(file, ref);
    i :| 0 <= i < |file| && file[i].origin == ref;
    n :| ShownAt(s, evs, n, file[i]);
  }

  lemma WrittenIsOk(s0: Sys, begin: Event, evs: seq<Event>)
    requires Sound(s0)
    ensures RecordsOk(Apply(Exec(Apply(s0, begin), evs), Disk(DiskWrite(true))).file)
  {
    var s := Apply(s0, begin);
    StepInv(s0, begin);
    StepFiles(s0, begin);
    ExecInv(s, evs);
    ExecFiles(s, evs);
    StepFiles(Exec(s, evs), Disk(DiskWrite(true)));
  }

  /** Nothing need be lost: from every reachable state with a running writer, a notification and the writer's
      own steps on a working disk lead to a file from which a restart carries on every live room, as it is,
      whose record is recent. */
  lemma EverythingCanLiveOn(s: Sys, saving: Clock, clock: Clock) returns (evs: seq<Event>)
    requires Sound(s) && Running(s)
    ensures SavingSteps(evs)
    ensures var file := Exec(s, evs).file;
            && Pictures(file, s.reg)
            && forall i :: 0 <= i < |file| && IsRecentRecord(file[i].dto, clock) ==>
                 LivesOn(s.reg, file[i].origin, Rise(file, clock).reg)
  {
    evs := EverythingCanBeSaved(s, saving);
    ExecInv(s, evs);
    ExecFiles(s, evs);
    var last := Exec(s, evs);
    forall i | 0 <= i < |last.file| && IsRecentRecord(last.file[i].dto, clock)
      ensures LivesOn(s.reg, last.file[i].origin, Rise(last.file, clock).reg)
    {
      var k := RecentIsInherited(last, clock, i);
      ShownCarriesOn(last.file[i].dto, s.reg.arena[last.file[i].origin], clock);
      assert IsCarried(s.reg, last.file[i].origin, Rise(last.file, clock).reg, k);
    }
  }

  ghost predicate IsCarried(reg: Reg, ref: RoomRef, reg': Reg, k: RoomRef) {
    ref < |reg.arena| && k < |reg'.arena| && IsCurrent(reg', k) && CarriesOn(reg'.arena[k], reg.arena[ref])
  }

  /** Some room in the table of `reg'` carries on room `ref` of `reg`. */
  ghost predicate LivesOn(reg: Reg, ref: RoomRef, reg': Reg) {
    exists k: RoomRef :: IsCarried(reg, ref, reg', k)
  }
}
