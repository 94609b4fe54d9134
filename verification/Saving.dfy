/** What a persist puts into the file. While it captures room after room, connections, joins, departures
    and the sweep go on; nevertheless every room that was in the table when it began and is not closing when
    it ends has exactly one record, which shows the room as it was at some moment in between. */
module Saving {
  import opened Protocol
  import opened RoomSpec
  import opened RoomInvariant
  import opened Snapshot
  import opened RegistrySpec
  import opened System
  import opened CoreInvariant
  import opened Tickets
  import opened Runs
  import opened RoomHistory
  import opened Restart
  import opened Progress

  // ---------------------------------------------------------------- what a record shows

  /** `ms` is the time `t` to the millisecond. */
  predicate IsTime(ms: nat, t: WallTime) {
    0 <= t ==> ms * 1_000_000 <= t < (ms + 1) * 1_000_000
  }

  /** The record shows the room: its session, host and host verifier, every guest that is not leaving with
      its verifier and whether it is away, and the room's times. */
  ghost predicate Shows(dto: RoomDto, r: Room) {
    && dto.sessionId == r.sessionId && dto.hostPeerId == r.hostPeerId && dto.hostVerifier == Some(r.hostVerifier)
    && dto.protocolVersion == 2
    && (forall p :: p in dto.reservations <==> p in r.reservations && !r.reservations[p].releasePending)
    && (forall p :: p in dto.reservations ==>
          && dto.reservations[p].verifier == Some(r.reservations[p].verifier)
          && (dto.reservations[p].absentSinceMillis.Some? <==> r.reservations[p].absentSince.Some?))
    && IsTime(dto.createdAtMillis, r.createdAt) && IsTime(dto.lastActivityAtMillis, r.lastActivityAt)
  }

  lemma BuiltShows(r: Room, clock: Clock)
    ensures Shows(BuildRoomDto(r, clock), r)
  {
    if 0 <= r.createdAt {
      MillisTruncate(r.createdAt);
    }
    if 0 <= r.lastActivityAt {
      MillisTruncate(r.lastActivityAt);
    }
  }

  // ---------------------------------------------------------------- from its beginning to its end

  /** `ev` begins a persist: the debounce, a terminal command, or a stop with something left to save. */
  predicate Begins(s: Sys, ev: Event) {
    && ev.Disk? && DiskEnabled(s, ev.disk)
    && (|| ev.disk.DiskDebounce?
        || (ev.disk.DiskReceive? && s.queue[0].CmdTerminal?)
        || (ev.disk.DiskReceive? && s.queue[0].CmdStop? && s.ledger.dirty > s.ledger.durable))
  }

  predicate Writes(s: Sys, ev: Event) {
    ev.Disk? && ev.disk.DiskWrite? && DiskEnabled(s, ev.disk)
  }

  /** The run does not end the persist under way. */
  ghost predicate Unfinished(s: Sys, evs: seq<Event>)
    decreases |evs|
  {
    evs != [] ==> Unfinished(s, evs[..|evs| - 1]) && !Writes(Exec(s, evs[..|evs| - 1]), evs[|evs| - 1])
  }

  /** After `n` events of the run the record showed its room, which was not closing. */
  ghost predicate ShownAt(s: Sys, evs: seq<Event>, n: nat, record: Captured) {
    && n <= |evs|
    && var arena := Exec(s, evs[..n]).reg.arena;
       record.origin < |arena| && !arena[record.origin].closing && Shows(record.dto, arena[record.origin])
  }

  ghost predicate Shown(s: Sys, evs: seq<Event>, record: Captured) {
    exists n: nat :: ShownAt(s, evs, n, record)
  }

  predicate HasRecord(records: seq<Captured>, ref: RoomRef) {
    exists i :: 0 <= i < |records| && records[i].origin == ref
  }

  predicate OneEach(records: seq<Captured>) {
    forall i, j :: 0 <= i < j < |records| ==> records[i].origin != records[j].origin
  }

  /** The capture after the events `evs`, of the rooms `listed` when it began at `s`. */
  ghost predicate Underway(s: Sys, evs: seq<Event>, listed: set<RoomRef>) {
    var now := Exec(s, evs);
    && now.phase.Capturing? && now.phase.todo <= listed && OneEach(now.phase.done)
    && (forall ref :: ref in listed ==> ref < |now.reg.arena|)
    && (forall i :: 0 <= i < |now.phase.done| ==>
          now.phase.done[i].origin in listed - now.phase.todo && Shown(s, evs, now.phase.done[i]))
    && (forall ref :: ref in listed ==>
          ref in now.phase.todo || now.reg.arena[ref].closing || HasRecord(now.phase.done, ref))
  }

  lemma StillShown(s: Sys, evs: seq<Event>, ev: Event, record: Captured)
    requires Shown(s, evs, record)
    ensures Shown(s, evs + [ev], record)
  {
    var n: nat :| ShownAt(s, evs, n, record);
    assert (evs + [ev])[..n] == evs[..n];
    assert ShownAt(s, evs + [ev], n, record);
  }

  lemma NowShown(s: Sys, evs: seq<Event>, ev: Event, record: Captured)
    requires record.origin < |Exec(s, evs).reg.arena| && !Exec(s, evs).reg.arena[record.origin].closing
    requires Shows(record.dto, Exec(s, evs).reg.arena[record.origin])
    ensures Shown(s, evs + [ev], record)
  {
    assert (evs + [ev])[..|evs|] == evs;
    assert ShownAt(s, evs + [ev], |evs|, record);
  }

  lemma EventKeepsClosing(s: Sys, ev: Event, ref: RoomRef)
    requires Core(s) && ref < |s.reg.arena|
    ensures ref < |Apply(s, ev).reg.arena| && (s.reg.arena[ref].closing ==> Apply(s, ev).reg.arena[ref].closing)
  {
    EventIsOps(s, ev, ref);
    if s.reg.arena[ref].closing {
      ClosingForever(s.reg.arena[ref], Ops(s, ev, ref));
    }
  }

  /** An event that leaves the capture alone. */
  lemma OtherUnderway(s: Sys, evs: seq<Event>, ev: Event, listed: set<RoomRef>)
    requires Core(Exec(s, evs)) && Underway(s, evs, listed) && Apply(Exec(s, evs), ev).phase == Exec(s, evs).phase
    requires Exec(s, evs + [ev]) == Apply(Exec(s, evs), ev)
    ensures Underway(s, evs + [ev], listed)
  {
    var now, next := Exec(s, evs), Apply(Exec(s, evs), ev);
    forall ref | ref in listed
      ensures ref < |next.reg.arena| && (now.reg.arena[ref].closing ==> next.reg.arena[ref].closing)
    {
      EventKeepsClosing(now, ev, ref);
    }
    forall i | 0 <= i < |now.phase.done| ensures Shown(s, evs + [ev], now.phase.done[i]) {
      StillShown(s, evs, ev, now.phase.done[i]);
    }
  }

  lemma RecordsKept(done: seq<Captured>, more: seq<Captured>, ref: RoomRef)
    requires HasRecord(done, ref)
    ensures HasRecord(done + more, ref)
  {
    var i :| 0 <= i < |done| && done[i].origin == ref;
    assert (done + more)[i].origin == ref;
  }

  lemma LastRecord(done: seq<Captured>, record: Captured)
    ensures HasRecord(done + [record], record.origin)
  {
    assert (done + [record])[|done|] == record;
  }

  lemma CaptureUnderway(s: Sys, evs: seq<Event>, ref: RoomRef, clock: Clock, listed: set<RoomRef>)
    requires Underway(s, evs, listed) && DiskEnabled(Exec(s, evs), DiskCapture(ref, clock))
    requires Exec(s, evs + [Disk(DiskCapture(ref, clock))]) == DoCapture(Exec(s, evs), ref, clock)
    ensures Underway(s, evs + [Disk(DiskCapture(ref, clock))], listed)
  {
    var now, ev := Exec(s, evs), Disk(DiskCapture(ref, clock));
    var next := DoCapture(now, ref, clock);
    var room := now.reg.arena[ref];
    var record := Captured(ref, BuildRoomDto(room, clock));
    var more := if room.closing then [] else [record];
    assert next.phase.done == now.phase.done + more;
    BuiltShows(room, clock);
    if !room.closing {
      NowShown(s, evs, ev, record);
      LastRecord(now.phase.done, record);
    }
    forall i | 0 <= i < |next.phase.done|
      ensures next.phase.done[i].origin in listed - next.phase.todo && Shown(s, evs + [ev], next.phase.done[i])
    {
      if i < |now.phase.done| {
        assert next.phase.done[i] == now.phase.done[i];
        StillShown(s, evs, ev, now.phase.done[i]);
      }
    }
    forall x | x in listed ensures x in next.phase.todo || next.reg.arena[x].closing || HasRecord(next.phase.done, x) {
      if HasRecord(now.phase.done, x) {
        RecordsKept(now.phase.done, more, x);
      }
    }
  }

  lemma EventUnderway(s: Sys, evs: seq<Event>, ev: Event, listed: set<RoomRef>)
    requires Core(Exec(s, evs)) && Underway(s, evs, listed) && !Writes(Exec(s, evs), ev)
    requires Exec(s, evs + [ev]) == Apply(Exec(s, evs), ev)
    ensures Underway(s, evs + [ev], listed)
  {
    var now := Exec(s, evs);
    if ev.Disk? && ev.disk.DiskCapture? && DiskEnabled(now, ev.disk) {
      CaptureUnderway(s, evs, ev.disk.ref, ev.disk.clock, listed);
    } else {
      if !ev.Disk? {
        OthersKeepFiles(now, ev);
      }
      OtherUnderway(s, evs, ev, listed);
    }
  }

  lemma {:induction false} RunUnderway(s: Sys, evs: seq<Event>, listed: set<RoomRef>)
    requires Inv(s) && s.phase.Capturing? && s.phase.todo == listed && s.phase.done == [] && Unfinished(s, evs)
    ensures Underway(s, evs, listed)
    decreases |evs|
  {
    if evs != [] {
      var before, ev := evs[..|evs| - 1], evs[|evs| - 1];
      RunUnderway(s, before, listed);
      ExecInv(s, before);
      assert before + [ev] == evs;
      EventUnderway(s, before, ev, listed);
    }
  }

  lemma BeginningLists(s: Sys, ev: Event)
    requires Begins(s, ev)
    ensures var s' := Apply(s, ev);
            s'.phase.Capturing? && s'.phase.todo == s.reg.table.Values && s'.phase.done == [] && s'.reg == s.reg
  {
  }

  /** Every room in `listed` that is not closing in `s1` has exactly one record in the file, every record is
      of one of those rooms, and each shows its room as it was at some moment of the run from `s`. */
  ghost predicate SavesAll(s: Sys, evs: seq<Event>, s1: Sys, listed: set<RoomRef>, file: seq<Captured>) {
    && (forall ref :: ref in listed ==> ref < |s1.reg.arena| && (s1.reg.arena[ref].closing || HasRecord(file, ref)))
    && OneEach(file)
    && (forall i :: 0 <= i < |file| ==> file[i].origin in listed && Shown(s, evs, file[i]))
  }

  /** A persist that ends well saves every room that was in the table when it began and is not closing when
      it ends, whatever happened in between; one that fails leaves the file as it was. */
  lemma PersistSavesEverything(s0: Sys, begin: Event, evs: seq<Event>, ok: bool)
    requires Inv(s0) && Begins(s0, begin) && Unfinished(Apply(s0, begin), evs)
    requires Writes(Exec(Apply(s0, begin), evs), Disk(DiskWrite(ok)))
    ensures var s, s1 := Apply(s0, begin), Exec(Apply(s0, begin), evs);
            var file := Apply(s1, Disk(DiskWrite(ok))).file;
            if ok then SavesAll(s, evs, s1, s0.reg.table.Values, file) else file == s1.file
  {
    BeginningLists(s0, begin);
    StepInv(s0, begin);
    RunUnderway(Apply(s0, begin), evs, s0.reg.table.Values);
  }

  /** Only a successful write changes the file. */
  lemma {:induction false} FileStands(s: Sys, evs: seq<Event>)
    requires Unfinished(s, evs)
    ensures Exec(s, evs).file == s.file
    decreases |evs|
  {
    if evs != [] {
      var mid, ev := Exec(s, evs[..|evs| - 1]), evs[|evs| - 1];
      FileStands(s, evs[..|evs| - 1]);
      if !ev.Disk? {
        OthersKeepFiles(mid, ev);
      }
    }
  }

  // ---------------------------------------------------------------- everything can be saved

  /** Steps of the writer on a working disk, and notifications that something changed. */
  predicate IsSavingStep(ev: Event) {
    IsOwn(ev, true) || ev == Disk(DiskDebounce) || ev == Disk(DiskNotify)
  }

  ghost predicate SavingSteps(evs: seq<Event>) {
    forall i :: 0 <= i < |evs| ==> IsSavingStep(evs[i])
  }

  /** The writer has nothing to do and was not asked to stop. */
  predicate AtRest(s: Sys) {
    s.phase.Ready? && s.queue == []
  }

  /** A step the writer can take. */
  lemma WorkToDo(s: Sys, clock: Clock) returns (act: DiskAct)
    requires CaptureInRange(s) && Running(s) && !AtRest(s)
    ensures DiskEnabled(s, act) && IsOwn(Disk(act), true)
  {
    if s.phase.Capturing? && s.phase.todo == {} {
      act := DiskWrite(true);
    } else if s.phase.Capturing? {
      var ref :| ref in s.phase.todo;
      act := DiskCapture(ref, clock);
    } else {
      act := DiskReceive;
    }
  }

  /** It leaves less to do. */
  predicate Shorter(s: Sys, next: Sys) {
    || |next.queue| < |s.queue|
    || (next.queue == s.queue && s.phase.Capturing? && !next.phase.Capturing?)
    || (next.queue == s.queue && s.phase.Capturing? && next.phase.Capturing? && |Todo(next)| < |Todo(s)|)
  }

  lemma WorkShortens(s: Sys, act: DiskAct)
    requires DiskEnabled(s, act) && IsOwn(Disk(act), true)
    ensures Shorter(s, FireDisk(s, act))
  {
  }

  lemma WriterWorks(s: Sys, clock: Clock) returns (ev: Event, next: Sys)
    requires Inv(s) && Running(s) && !AtRest(s)
    ensures IsOwn(ev, true) && next == Apply(s, ev) && Inv(next) && Running(next) && next.reg == s.reg
    ensures Shorter(s, next)
  {
    var act := WorkToDo(s, clock);
    ev, next := Disk(act), FireDisk(s, act);
    StepInv(s, ev);
    DiskFrame(s, act);
    WorkShortens(s, act);
    OwnStepAnswers(s, act, true, 0);
  }

  ghost predicate Rested(s: Sys, s': Sys) {
    AtRest(s') && s'.reg == s.reg
  }

  /** A running writer comes to rest by its own steps. */
  lemma {:induction false} ComesToRest(s: Sys, clock: Clock) returns (evs: seq<Event>)
    requires Inv(s) && Running(s)
    ensures OwnSteps(evs, true) && Rested(s, Exec(s, evs))
    decreases |s.queue|, if s.phase.Capturing? then 1 else 0, |Todo(s)|
  {
    if AtRest(s) {
      evs := [];
    } else {
      var ev, next := WriterWorks(s, clock);
      var rest := ComesToRest(next, clock);
      ExecFirst(s, ev, rest);
      evs := [ev] + rest;
    }
  }

  ghost predicate OnlyCaptures(evs: seq<Event>) {
    forall i :: 0 <= i < |evs| ==> evs[i].Disk? && evs[i].disk.DiskCapture?
  }

  lemma {:induction false} CapturesAreUnfinished(s: Sys, evs: seq<Event>)
    requires OnlyCaptures(evs)
    ensures Unfinished(s, evs)
    decreases |evs|
  {
    if evs != [] {
      CapturesAreUnfinished(s, evs[..|evs| - 1]);
    }
  }

  lemma CaptureOne(s: Sys, ref: RoomRef, clock: Clock) returns (next: Sys)
    requires Inv(s) && s.phase.Capturing? && ref in s.phase.todo
    ensures DiskEnabled(s, DiskCapture(ref, clock)) && next == Apply(s, Disk(DiskCapture(ref, clock)))
    ensures Inv(next) && next.phase.Capturing? && next.phase.todo == s.phase.todo - {ref} && next.reg == s.reg
  {
    next := FireDisk(s, DiskCapture(ref, clock));
    StepInv(s, Disk(DiskCapture(ref, clock)));
  }

  /** All captured, nothing else changed. */
  ghost predicate AllCaptured(s: Sys, s': Sys) {
    s'.phase.Capturing? && s'.phase.todo == {} && s'.reg == s.reg
  }

  lemma {:induction false} CapturesAll(s: Sys, clock: Clock) returns (evs: seq<Event>)
    requires Inv(s) && s.phase.Capturing?
    ensures OnlyCaptures(evs) && AllCaptured(s, Exec(s, evs))
    decreases |Todo(s)|
  {
    if s.phase.todo == {} {
      evs := [];
    } else {
      var ref :| ref in s.phase.todo;
      var next := CaptureOne(s, ref, clock);
      var rest := CapturesAll(next, clock);
      ExecFirst(s, Disk(DiskCapture(ref, clock)), rest);
      evs := [Disk(DiskCapture(ref, clock))] + rest;
    }
  }

  /** At rest, a notification leads to a persist. */
  lemma NotifiedBegins(s: Sys)
    requires Inv(s) && AtRest(s)
    ensures var s' := Apply(Apply(s, Disk(DiskNotify)), Disk(DiskReceive));
            Inv(s') && Begins(s', Disk(DiskDebounce)) && s'.reg == s.reg
  {
    StepInv(s, Disk(DiskNotify));
    StepInv(Apply(s, Disk(DiskNotify)), Disk(DiskReceive));
  }

  lemma {:induction false} DiskLeavesRooms(s: Sys, evs: seq<Event>, n: nat)
    requires OnlyCaptures(evs) && n <= |evs|
    ensures Exec(s, evs[..n]).reg == s.reg
    decreases n
  {
    if n > 0 {
      DiskLeavesRooms(s, evs, n - 1);
      assert evs[..n][..n - 1] == evs[..n - 1];
      var mid, ev := Exec(s, evs[..n - 1]), evs[n - 1];
      if DiskEnabled(mid, ev.disk) {
        DiskFrame(mid, ev.disk);
      }
    }
  }

  /** The file is a picture of the rooms: one record for each that is in the table and not closing, showing
      it as it is, and no other record. */
  ghost predicate Pictures(file: seq<Captured>, reg: Reg) {
    && OneEach(file)
    && (forall ref: RoomRef :: ref < |reg.arena| && Maps(reg, ref) && !reg.arena[ref].closing ==> HasRecord(file, ref))
    && (forall i :: 0 <= i < |file| ==>
          && file[i].origin < |reg.arena| && Maps(reg, file[i].origin) && !reg.arena[file[i].origin].closing
          && Shows(file[i].dto, reg.arena[file[i].origin]))
  }

  lemma SavedIsPictured(s: Sys, captures: seq<Event>, s1: Sys, file: seq<Captured>)
    requires OnlyCaptures(captures) && SavesAll(s, captures, s1, s.reg.table.Values, file) && s1.reg == s.reg
    ensures Pictures(file, s.reg)
  {
    forall i | 0 <= i < |file|
      ensures file[i].origin < |s.reg.arena| && !s.reg.arena[file[i].origin].closing
      ensures Shows(file[i].dto, s.reg.arena[file[i].origin])
    {
      var n: nat :| ShownAt(s, captures, n, file[i]);
      DiskLeavesRooms(s, captures, n);
    }
  }

  lemma PersistPictures(s0: Sys, captures: seq<Event>)
    requires Inv(s0) && Begins(s0, Disk(DiskDebounce)) && OnlyCaptures(captures)
    requires Writes(Exec(Apply(s0, Disk(DiskDebounce)), captures), Disk(DiskWrite(true)))
    ensures Pictures(Apply(Exec(Apply(s0, Disk(DiskDebounce)), captures), Disk(DiskWrite(true))).file, s0.reg)
  {
    var s := Apply(s0, Disk(DiskDebounce));
    var s1 := Exec(s, captures);
    CapturesAreUnfinished(s, captures);
    PersistSavesEverything(s0, Disk(DiskDebounce), captures, true);
    BeginningLists(s0, Disk(DiskDebounce));
    DiskLeavesRooms(s, captures, |captures|);
    assert captures[..|captures|] == captures;
    SavedIsPictured(s, captures, s1, Apply(s1, Disk(DiskWrite(true))).file);
  }

  /** At rest, a notification and the writer's steps make the picture. */
  lemma RestIsSaved(s: Sys, clock: Clock) returns (evs: seq<Event>)
    requires Inv(s) && AtRest(s)
    ensures SavingSteps(evs) && Pictures(Exec(s, evs).file, s.reg) && Exec(s, evs).reg == s.reg
  {
    NotifiedBegins(s);
    var s2 := Apply(Apply(s, Disk(DiskNotify)), Disk(DiskReceive));
    StepInv(s2, Disk(DiskDebounce));
    BeginningLists(s2, Disk(DiskDebounce));
    var captures := CapturesAll(Apply(s2, Disk(DiskDebounce)), clock);
    PersistPictures(s2, captures);
    evs := SavingRun(s, captures);
  }

  /** From every reachable state with a running writer, a notification and the writer's own steps on a
      working disk put a picture of all live rooms, as they are, into the file. */
  lemma EverythingCanBeSaved(s: Sys, clock: Clock) returns (evs: seq<Event>)
    requires Inv(s) && Running(s)
    ensures SavingSteps(evs) && Exec(s, evs).reg == s.reg && Pictures(Exec(s, evs).file, s.reg)
  {
    var rest := ComesToRest(s, clock);
    ExecInv(s, rest);
    var last := RestIsSaved(Exec(s, rest), clock);
    ExecAppend(s, rest, last);
    evs := rest + last;
  }

  lemma SavingRun(s: Sys, captures: seq<Event>) returns (evs: seq<Event>)
    requires OnlyCaptures(captures)
    ensures SavingSteps(evs)
    ensures Exec(s, evs) == Apply(Exec(Apply(Apply(Apply(s, Disk(DiskNotify)), Disk(DiskReceive)), Disk(DiskDebounce)),
              captures),
                                  Disk(DiskWrite(true)))
  {
    var write := [Disk(DiskWrite(true))];
    var s1 := Apply(s, Disk(DiskNotify));
    var s2 := Apply(s1, Disk(DiskReceive));
    var s3 := Apply(s2, Disk(DiskDebounce));
    ExecAppend(s3, captures, write);
    ExecOne(Exec(s3, captures), Disk(DiskWrite(true)));
    ExecFirst(s2, Disk(DiskDebounce), captures + write);
    ExecFirst(s1, Disk(DiskReceive), [Disk(DiskDebounce)] + (captures + write));
    ExecFirst(s, Disk(DiskNotify), [Disk(DiskReceive)] + ([Disk(DiskDebounce)] + (captures + write)));
    evs := [Disk(DiskNotify)] + ([Disk(DiskReceive)] + ([Disk(DiskDebounce)] + (captures + write)));
  }
}
