/** Nothing that waits for the writer waits forever: from every reachable state the writer can answer
    every request, and then a leave or an endSession in flight can be finished by its own connection. */
module Progress {
  import opened Protocol
  import opened RoomSpec
  import opened Snapshot
  import opened RegistrySpec
  import opened Writer
  import opened System
  import opened Seats
  import opened Seating
  import opened CoreInvariant
  import opened Durability
  import opened Answers
  import opened Tickets
  import opened Runs

  /** Steps the writer takes by itself on a disk whose writes all end with `ok`; the debounce aside, which
      starts a persist nobody waits for. */
  predicate IsOwn(ev: Event, ok: bool) {
    ev.Disk? && (ev.disk.DiskReceive? || ev.disk.DiskCapture? || ev.disk.DiskDrop? || ev.disk == DiskWrite(ok))
  }

  ghost predicate OwnSteps(evs: seq<Event>, ok: bool) {
    forall i :: 0 <= i < |evs| ==> IsOwn(evs[i], ok)
  }

  /** Steps of the writer and of connection `a`. */
  ghost predicate OnlyBy(evs: seq<Event>, a: ActorId, ok: bool) {
    forall i :: 0 <= i < |evs| ==> IsOwn(evs[i], ok) || (evs[i].Client? && evs[i].a == a)
  }

  /** The writer has not been asked to stop. */
  predicate Running(s: Sys) {
    !s.phase.Stopped? && !(s.phase.Capturing? && s.phase.stopping) && CmdStop !in s.queue
  }

  // ---------------------------------------------------------------- how far a ticket is from its answer

  /** How many commands the writer has to take to get to `t`; zero when `t` is not in the queue. */
  function Ahead(queue: seq<Command>, t: Ticket): nat {
    if queue == [] then 0
    else if queue[0] == CmdTerminal(t) then 1
    else
      var rest := Ahead(queue[1..], t);
      if rest == 0 then 0 else rest + 1
  }

  lemma {:induction false} AheadInQueue(queue: seq<Command>, t: Ticket)
    ensures Ahead(queue, t) > 0 <==> CmdTerminal(t) in queue
  {
    if queue != [] {
      AheadInQueue(queue[1..], t);
      assert queue == [queue[0]] + queue[1..];
    }
  }

  /** Commands that arrive later stay behind. */
  lemma {:induction false} AheadAppend(queue: seq<Command>, cmd: Command, t: Ticket)
    requires cmd != CmdTerminal(t)
    ensures Ahead(queue + [cmd], t) == Ahead(queue, t)
  {
    if queue == [] {
      assert ([cmd])[1..] == [];
    } else {
      assert (queue + [cmd])[1..] == queue[1..] + [cmd];
      AheadAppend(queue[1..], cmd, t);
    }
  }

  function Todo(s: Sys): set<RoomRef> {
    if s.phase.Capturing? then s.phase.todo else {}
  }

  /** A ticket's distance to its answer: the commands before it, whether a persist is under way, and the
      rooms that persist has still to capture. */
  datatype Distance = Distance(ahead: nat, persists: nat, rooms: nat)

  function DistanceOf(s: Sys, t: Ticket): Distance {
    if t in s.answers then Distance(0, 0, 0)
    else Distance(Ahead(s.queue, t), if s.phase.Capturing? then 1 else 0, |Todo(s)|)
  }

  predicate Closer(d: Distance, d': Distance) {
    || d'.ahead < d.ahead
    || (d'.ahead == d.ahead && d'.persists < d.persists)
    || (d'.ahead == d.ahead && d'.persists == d.persists && d'.rooms < d.rooms)
  }

  lemma InQueue(s: Sys, t: Ticket)
    ensures (exists i :: Queued(s, i, t)) <==> CmdTerminal(t) in s.queue
  {
    if CmdTerminal(t) in s.queue {
      var i :| 0 <= i < |s.queue| && s.queue[i] == CmdTerminal(t);
      assert Queued(s, i, t);
    }
  }

  /** An unanswered ticket is queued, or the persist under way is for it. */
  lemma UnansweredIsAhead(s: Sys, t: Ticket)
    requires WriterInv(s) && Placed(s, t) && t !in s.answers
    ensures Ahead(s.queue, t) > 0 || (Waits(s.ledger, t) && s.phase.Capturing?)
  {
    AheadInQueue(s.queue, t);
    InQueue(s, t);
  }

  lemma TakenIsCloser(s: Sys, t: Ticket)
    requires WriterInv(s) && s.queue != [] && Ahead(s.queue, t) > 0
    ensures Ahead(s.queue[1..], t) < Ahead(s.queue, t)
  {
    if s.queue[0] == CmdTerminal(t) {
      AheadInQueue(s.queue[1..], t);
      assert Queued(s, 0, t);
      forall i | 0 <= i < |s.queue[1..]| ensures s.queue[1..][i] != CmdTerminal(t) {
        assert !Queued(s, i + 1, t);
      }
    }
  }

  lemma WriteIsCloser(s: Sys, ok: bool, t: Ticket)
    requires WriterInv(s) && Placed(s, t) && t !in s.answers && DiskEnabled(s, DiskWrite(ok))
    ensures Closer(DistanceOf(s, t), DistanceOf(DoWrite(s, ok), t))
  {
    UnansweredIsAhead(s, t);
    WriteAnswersOnce(s, ok, t);
  }

  /** Every own step of the writer brings each unanswered ticket closer to its answer. */
  lemma OwnStepsAdvance(s: Sys, act: DiskAct, ok: bool, t: Ticket)
    requires WriterInv(s) && Placed(s, t) && t !in s.answers && DiskEnabled(s, act) && IsOwn(Disk(act), ok)
    ensures Closer(DistanceOf(s, t), DistanceOf(FireDisk(s, act), t)) && Placed(FireDisk(s, act), t)
  {
    UnansweredIsAhead(s, t);
    match act
    case DiskWrite(_) =>
      WriteIsCloser(s, ok, t);
      WrittenIsPlaced(s, ok, t);
    case DiskCapture(_, _) => StillPlaced(s, FireDisk(s, act), t);
    case DiskReceive =>
      TakenIsCloser(s, t);
      ReceivedIsPlaced(s, t);
    case DiskDrop =>
      TakenIsCloser(s, t);
      DroppedIsPlaced(s, t);
  }

  /** Nothing another part of the relay does puts a ticket further from its answer. */
  lemma OthersDoNotDelay(s: Sys, ev: Event, t: Ticket)
    requires t < s.nextTicket && (ev.Disk? ==> ev.disk.DiskNotify? || ev.disk.DiskRequestStop?)
    ensures DistanceOf(Apply(s, ev), t) == DistanceOf(s, t)
  {
    match ev
    case Connect =>
    case Client(a, act) =>
      if ActEnabled(s, a, act) {
        ActLeavesTheWriter(s, a, act);
        AheadAppend(s.queue, CmdTerminal(s.nextTicket), t);
      }
    case Disk(act) =>
      AheadAppend(s.queue, CmdMutate, t);
      AheadAppend(s.queue, CmdStop, t);
    case Clean(act) =>
      if SweepEnabled(s, act) {
        SweepLeavesTheWriter(s, act);
      }
  }

  // ---------------------------------------------------------------- the writer

  /** As long as a ticket is unanswered the writer has a step of its own to take. */
  lemma WriterCanMove(s: Sys, t: Ticket, ok: bool, clock: Clock) returns (act: DiskAct)
    requires Inv(s) && Placed(s, t) && t !in s.answers
    ensures DiskEnabled(s, act) && IsOwn(Disk(act), ok)
  {
    if s.phase.Capturing? && s.phase.todo == {} {
      act := DiskWrite(ok);
    } else if s.phase.Capturing? {
      var ref :| ref in s.phase.todo;
      act := DiskCapture(ref, clock);
    } else {
      assert s.queue != [];
      act := if s.phase.Ready? then DiskReceive else DiskDrop;
    }
  }

  /** A running writer answers with what its disk said, and keeps running. */
  lemma OwnStepAnswers(s: Sys, act: DiskAct, ok: bool, t: Ticket)
    requires WriterInv(s) && DiskEnabled(s, act) && IsOwn(Disk(act), ok)
    ensures t in s.answers ==> t in FireDisk(s, act).answers && FireDisk(s, act).answers[t] == s.answers[t]
    ensures Running(s) ==> Running(FireDisk(s, act))
    ensures Running(s) && t !in s.answers && t in FireDisk(s, act).answers ==> FireDisk(s, act).answers[t] == ok
  {
    DiskAnswersOnce(s, act, t);
    if act.DiskReceive? {
      ReceiveAnswersNobody(s);
    }
  }

  lemma WriterMoves(s: Sys, t: Ticket, ok: bool, clock: Clock) returns (ev: Event, next: Sys)
    requires Inv(s) && Placed(s, t) && t !in s.answers
    ensures IsOwn(ev, ok) && next == Apply(s, ev) && Inv(next) && Placed(next, t)
    ensures Closer(DistanceOf(s, t), DistanceOf(next, t))
    ensures Running(s) ==> Running(next) && (t in next.answers ==> next.answers[t] == ok)
  {
    var act := WriterCanMove(s, t, ok, clock);
    ev, next := Disk(act), FireDisk(s, act);
    StepInv(s, ev);
    OwnStepsAdvance(s, act, ok, t);
    OwnStepAnswers(s, act, ok, t);
  }

  /** What the writer's own steps make of a ticket: an answer already given stands, and a running writer's
      new one is what its disk said. */
  ghost predicate Decides(s: Sys, s': Sys, t: Ticket, ok: bool) {
    && t in s'.answers
    && (t in s.answers ==> s'.answers[t] == s.answers[t])
    && (t !in s.answers && Running(s) ==> s'.answers[t] == ok)
  }

  lemma DecidesOnward(s: Sys, ev: Event, next: Sys, rest: seq<Event>, t: Ticket, ok: bool)
    requires t !in s.answers && next == Apply(s, ev) && IsOwn(ev, ok)
    requires OwnSteps(rest, ok) && Decides(next, Exec(next, rest), t, ok)
    requires Running(s) ==> Running(next) && (t in next.answers ==> next.answers[t] == ok)
    ensures OwnSteps([ev] + rest, ok) && Decides(s, Exec(s, [ev] + rest), t, ok)
  {
    ExecFirst(s, ev, rest);
  }

  /** Every request is answered by some steps of the writer alone, whether or not the disk works. */
  lemma {:induction false} Answerable(s: Sys, t: Ticket, ok: bool, clock: Clock) returns (evs: seq<Event>)
    requires Inv(s) && Placed(s, t)
    ensures OwnSteps(evs, ok) && Decides(s, Exec(s, evs), t, ok)
    decreases DistanceOf(s, t).ahead, DistanceOf(s, t).persists, DistanceOf(s, t).rooms
  {
    if t in s.answers {
      evs := [];
    } else {
      var ev, next := WriterMoves(s, t, ok, clock);
      var rest := Answerable(next, t, ok, clock);
      DecidesOnward(s, ev, next, rest, t, ok);
      evs := [ev] + rest;
    }
  }

  /** Every terminal command is answered: from every reachable state some steps of the writer alone answer
      each ticket handed out so far, and unless the writer was asked to stop the answer is the disk's. */
  lemma TicketIsAnswered(restored: seq<RestoredRoom>, file: seq<Captured>, evs: seq<Event>, t: Ticket, ok: bool,
                         clock: Clock)
    returns (more: seq<Event>)
    requires Bootable(restored) && t < Exec(Boot(restored, file), evs).nextTicket
    ensures OwnSteps(more, ok)
    ensures Decides(Exec(Boot(restored, file), evs), Exec(Exec(Boot(restored, file), evs), more), t, ok)
  {
    Reachable(restored, file, evs);
    more := Answerable(Exec(Boot(restored, file), evs), t, ok, clock);
  }

  lemma {:induction false} WriterLeavesTheRest(s: Sys, evs: seq<Event>, ok: bool)
    requires OwnSteps(evs, ok)
    ensures var s' := Exec(s, evs); s'.reg == s.reg && s'.actors == s.actors && s'.log == s.log && s'.sweep == s.sweep
    decreases |evs|
  {
    if evs != [] {
      var mid, ev := Exec(s, evs[..|evs| - 1]), evs[|evs| - 1];
      WriterLeavesTheRest(s, evs[..|evs| - 1], ok);
      if DiskEnabled(mid, ev.disk) {
        DiskFrame(mid, ev.disk);
      }
    }
  }

  /** A waiting connection gets its answer. */
  lemma WaiterIsAnswered(s: Sys, a: ActorId, ok: bool, clock: Clock) returns (evs: seq<Event>)
    requires Inv(s) && a < |s.actors| && WaitsOn(s.actors[a].pc).Some?
    ensures OwnSteps(evs, ok)
    ensures var s' := Exec(s, evs);
            && Inv(s') && s'.reg == s.reg && s'.actors == s.actors && s'.log == s.log
            && Decides(s, s', WaitsOn(s.actors[a].pc).value, ok)
  {
    evs := Answerable(s, WaitsOn(s.actors[a].pc).value, ok, clock);
    WriterLeavesTheRest(s, evs, ok);
    ExecInv(s, evs);
  }

  /** Nothing is settled yet about the request of `a`, and the writer is not stopping. */
  predicate Undecided(s: Sys, a: ActorId)
    requires a < |s.actors|
  {
    Running(s) && (WaitsOn(s.actors[a].pc).Some? ==> WaitsOn(s.actors[a].pc).value !in s.answers)
  }

  // ---------------------------------------------------------------- leaving

  /** `evs` are steps of the writer and of `a`, the last of which is `last`, enabled where it stands. */
  ghost predicate EndsWith(s: Sys, evs: seq<Event>, a: ActorId, last: Act, ok: bool) {
    && OnlyBy(evs, a, ok) && evs != [] && evs[|evs| - 1] == Client(a, last)
    && ActEnabled(Exec(s, evs[..|evs| - 1]), a, last)
  }

  /** The state in which that last step is taken. */
  function Eve(s: Sys, evs: seq<Event>): Sys
    requires evs != []
  {
    Exec(s, evs[..|evs| - 1])
  }

  lemma Prepend(s: Sys, ev: Event, evs: seq<Event>, a: ActorId, last: Act, ok: bool)
    requires ev.Client? && ev.a == a && EndsWith(Apply(s, ev), evs, a, last, ok)
    ensures EndsWith(s, [ev] + evs, a, last, ok)
    ensures Exec(s, [ev] + evs) == Exec(Apply(s, ev), evs) && Eve(s, [ev] + evs) == Eve(Apply(s, ev), evs)
  {
    var all := [ev] + evs;
    assert all[..|all| - 1] == [ev] + evs[..|evs| - 1];
    ExecFirst(s, ev, evs[..|evs| - 1]);
    ExecFirst(s, ev, evs);
  }

  lemma Append(s: Sys, evs: seq<Event>, a: ActorId, last: Act, ok: bool)
    requires OwnSteps(evs, ok) && ActEnabled(Exec(s, evs), a, last)
    ensures EndsWith(s, evs + [Client(a, last)], a, last, ok)
    ensures Exec(s, evs + [Client(a, last)]) == FireAct(Exec(s, evs), a, last)
              && Eve(s, evs + [Client(a, last)]) == Exec(s, evs)
  {
    var all := evs + [Client(a, last)];
    assert all[..|all| - 1] == evs;
  }

  /** The state in which connection `a` has finished its leave: it is between messages again, and unless its
      room is closing its identity is no longer pending; gone for good and logged if the leave was `kept`. */
  ghost predicate LeaveOver(s: Sys, s': Sys, a: ActorId, kept: bool)
    requires IsSeated(s, a)
  {
    var h := HoldingOf(s, a);
    && a < |s'.actors| && s'.actors[a].pc.Idle?
    && h.room < |s'.reg.arena| && s'.reg.arena[h.room].closing == RoomOf(s, a).closing
    && (!RoomOf(s, a).closing ==>
          !Pending(s'.reg.arena[h.room], h.peerId) && (kept ==> (h.room, h.peerId) in s'.log.released))
  }

  /** What the connection is told in a live room. */
  ghost predicate LeaveTold(s: Sys, eve: Sys, a: ActorId, wall: WallTime, kept: bool)
    requires IsSeated(s, a) && ActEnabled(eve, a, ActFinishLeave(wall))
  {
    !RoomOf(s, a).closing ==>
      LeaveOutcome(eve, a, wall).effects.reply
      == Some(if kept then Left(RoomOf(s, a).sessionId, HoldingOf(s, a).peerId) else Error(InvalidMessage))
  }

  lemma FinishIsOver(s: Sys, a: ActorId, wall: WallTime)
    requires Core(s) && ActEnabled(s, a, ActFinishLeave(wall))
    ensures LeaveOver(s, FireAct(s, a, ActFinishLeave(wall)), a, s.answers[s.actors[a].pc.ticket])
    ensures LeaveTold(s, s, a, wall, s.answers[s.actors[a].pc.ticket])
  {
    assert LeaveOk(s.reg.arena, s.actors[a]);
    FinishLeaveShape(RoomOf(s, a), HoldingOf(s, a).peerId, HoldingOf(s, a).connId, s.answers[s.actors[a].pc.ticket],
        wall);
  }

  lemma WaitingLeaveFinishes(s: Sys, a: ActorId, ok: bool, clock: Clock, wall: WallTime)
    returns (evs: seq<Event>, kept: bool)
    requires Inv(s) && a < |s.actors| && s.actors[a].pc.LeaveWaiting?
    ensures IsSeated(s, a) && EndsWith(s, evs, a, ActFinishLeave(wall), ok)
    ensures LeaveOver(s, Exec(s, evs), a, kept) && LeaveTold(s, Eve(s, evs), a, wall, kept)
    ensures Undecided(s, a) ==> kept == ok
  {
    assert LeaveOk(s.reg.arena, s.actors[a]);
    var disk := WaiterIsAnswered(s, a, ok, clock);
    var s' := Exec(s, disk);
    FinishIsOver(s', a, wall);
    Append(s, disk, a, ActFinishLeave(wall), ok);
    evs, kept := disk + [Client(a, ActFinishLeave(wall))], s'.answers[s.actors[a].pc.ticket];
  }

  lemma SendingKeeps(s: Sys, a: ActorId)
    requires Inv(s) && a < |s.actors| && s.actors[a].pc.LeaveBegun?
    ensures var s' := Apply(s, Client(a, ActSendLeave));
            && Inv(s') && s'.reg == s.reg && |s'.actors| == |s.actors|
            && s'.actors[a].pc.LeaveWaiting? && s'.actors[a].current == s.actors[a].current
            && (Undecided(s, a) ==> Undecided(s', a))
  {
    StepInv(s, Client(a, ActSendLeave));
  }

  lemma SameSeat(s: Sys, s1: Sys, a: ActorId)
    requires IsSeated(s1, a) && s1.reg == s.reg && a < |s.actors| && s1.actors[a].current == s.actors[a].current
    ensures IsSeated(s, a) && HoldingOf(s, a) == HoldingOf(s1, a) && RoomOf(s, a) == RoomOf(s1, a)
  {
  }

  /** A leave in flight can always be finished by the writer and its own connection, and ends with a reply:
      what the disk says, unless its answer was settled or the writer stopping before. */
  lemma LeaveFinishes(s: Sys, a: ActorId, ok: bool, clock: Clock, wall: WallTime) returns (evs: seq<Event>, kept: bool)
    requires Inv(s) && a < |s.actors| && Leaving(s.actors[a].pc)
    ensures IsSeated(s, a) && EndsWith(s, evs, a, ActFinishLeave(wall), ok)
    ensures LeaveOver(s, Exec(s, evs), a, kept) && LeaveTold(s, Eve(s, evs), a, wall, kept)
    ensures Undecided(s, a) ==> kept == ok
  {
    if s.actors[a].pc.LeaveWaiting? {
      evs, kept := WaitingLeaveFinishes(s, a, ok, clock, wall);
    } else {
      var ev := Client(a, ActSendLeave);
      SendingKeeps(s, a);
      var rest;
      rest, kept := WaitingLeaveFinishes(Apply(s, ev), a, ok, clock, wall);
      Prepend(s, ev, rest, a, ActFinishLeave(wall), ok);
      SameSeat(s, Apply(s, ev), a);
      evs := [ev] + rest;
    }
  }

  /** No identity stays pending forever: from every reachable state with a pending mark in a live room, steps
      of the writer and of the one connection that is leaving clear it, with the room still live. That
      connection is told `left` if the disk works and an error if not, unless its answer was settled or the
      writer stopping before. */
  lemma PendingClears(restored: seq<RestoredRoom>, file: seq<Captured>, evs: seq<Event>, ref: RoomRef, p: PeerId,
                      ok: bool, clock: Clock, wall: WallTime) returns (a: ActorId, more: seq<Event>, kept: bool)
    requires Bootable(restored)
    requires var s := Exec(Boot(restored, file), evs);
             ref < |s.reg.arena| && !s.reg.arena[ref].closing && Pending(s.reg.arena[ref], p)
    ensures var s := Exec(Boot(restored, file), evs);
            && LeaveBy(s.actors, a, ref, p) && IsSeated(s, a) && EndsWith(s, more, a, ActFinishLeave(wall), ok)
            && LeaveOver(s, Exec(s, more), a, kept) && LeaveTold(s, Eve(s, more), a, wall, kept)
            && (Undecided(s, a) ==> kept == ok)
  {
    var s := Exec(Boot(restored, file), evs);
    Reachable(restored, file, evs);
    a := LeaveWindow(restored, file, evs, ref, p);
    more, kept := LeaveFinishes(s, a, ok, clock, wall);
  }

  // ---------------------------------------------------------------- ending

  /** How many steps of its own an endSession has left. */
  function EndSteps(pc: Pc): nat {
    match pc
    case EndBegun(_) => 4
    case EndUnmapped(_, _) => 3
    case EndReleased(_) => 2
    case EndWaiting(_, _) => 1
    case _ => 0
  }

  /** The next step of an endSession that is not waiting yet. */
  function NextEnd(pc: Pc): Act
    requires EndSteps(pc) > 1
  {
    match pc
    case EndBegun(_) => ActUnmapEnd
    case EndUnmapped(_, _) => ActReleaseEnd
    case EndReleased(_) => ActSendEnd
  }

  lemma EndStep(s: Sys, a: ActorId)
    requires PcsOk(s.reg.arena, s.actors) && a < |s.actors| && EndSteps(s.actors[a].pc) > 1
    ensures IsSeated(s, a) && ActEnabled(s, a, NextEnd(s.actors[a].pc))
    ensures var s' := FireAct(s, a, NextEnd(s.actors[a].pc));
            && |s'.actors| == |s.actors| && EndSteps(s'.actors[a].pc) == EndSteps(s.actors[a].pc) - 1
            && s'.actors[a].current == s.actors[a].current && s'.reg.arena == s.reg.arena
            && (Running(s) ==> Running(s')) && s'.answers == s.answers
            && (s'.actors[a].pc.EndWaiting? ==> s'.actors[a].pc.ticket == s.nextTicket)
  {
    assert PcOk(s.reg.arena, s.actors[a]);
  }

  lemma EndGoesOn(s: Sys, a: ActorId)
    requires Inv(s) && a < |s.actors| && EndSteps(s.actors[a].pc) > 1
    ensures IsSeated(s, a) && ActEnabled(s, a, NextEnd(s.actors[a].pc))
    ensures var s' := Apply(s, Client(a, NextEnd(s.actors[a].pc)));
            && Inv(s') && |s'.actors| == |s.actors| && EndSteps(s'.actors[a].pc) == EndSteps(s.actors[a].pc) - 1
            && s'.actors[a].current == s.actors[a].current && s'.reg.arena == s.reg.arena
            && (Undecided(s, a) ==> Undecided(s', a))
  {
    EndStep(s, a);
    StepInv(s, Client(a, NextEnd(s.actors[a].pc)));
  }

  /** The connection is in no room, and the end is logged if it was `kept`. */
  ghost predicate EndOver(s: Sys, s': Sys, a: ActorId, kept: bool)
    requires IsSeated(s, a)
  {
    a < |s'.actors| && s'.actors[a] == Actor(None, Idle) && (kept ==> HoldingOf(s, a).room in s'.log.ended)
  }

  ghost predicate EndTold(s: Sys, eve: Sys, a: ActorId, kept: bool)
    requires IsSeated(s, a) && ActEnabled(eve, a, ActFinishEnd)
  {
    EndOutcome(eve, a).effects.reply == Some(if kept then Ended(RoomOf(s, a).sessionId) else Error(InvalidMessage))
  }

  lemma FinishEndIsOver(s: Sys, a: ActorId)
    requires ActEnabled(s, a, ActFinishEnd)
    ensures EndOver(s, FireAct(s, a, ActFinishEnd), a, s.answers[s.actors[a].pc.ticket])
    ensures EndTold(s, s, a, s.answers[s.actors[a].pc.ticket])
  {
  }

  lemma WaitingEndFinishes(s: Sys, a: ActorId, ok: bool, clock: Clock) returns (evs: seq<Event>, kept: bool)
    requires Inv(s) && a < |s.actors| && s.actors[a].pc.EndWaiting?
    ensures IsSeated(s, a) && EndsWith(s, evs, a, ActFinishEnd, ok)
    ensures EndOver(s, Exec(s, evs), a, kept) && EndTold(s, Eve(s, evs), a, kept)
    ensures Undecided(s, a) ==> kept == ok
  {
    assert PcOk(s.reg.arena, s.actors[a]);
    var disk := WaiterIsAnswered(s, a, ok, clock);
    var s' := Exec(s, disk);
    FinishEndIsOver(s', a);
    Append(s, disk, a, ActFinishEnd, ok);
    evs, kept := disk + [Client(a, ActFinishEnd)], s'.answers[s.actors[a].pc.ticket];
  }

  /** An endSession in flight can always be finished by the writer and its own connection, with the same reply rule. */
  lemma {:induction false} EndFinishes(s: Sys, a: ActorId, ok: bool, clock: Clock) returns (evs: seq<Event>, kept: bool)
    requires Inv(s) && a < |s.actors| && Ending(s.actors[a].pc)
    ensures IsSeated(s, a) && EndsWith(s, evs, a, ActFinishEnd, ok)
    ensures EndOver(s, Exec(s, evs), a, kept) && EndTold(s, Eve(s, evs), a, kept)
    ensures Undecided(s, a) ==> kept == ok
    decreases EndSteps(s.actors[a].pc)
  {
    if s.actors[a].pc.EndWaiting? {
      evs, kept := WaitingEndFinishes(s, a, ok, clock);
    } else {
      var ev := Client(a, NextEnd(s.actors[a].pc));
      EndGoesOn(s, a);
      var rest;
      rest, kept := EndFinishes(Apply(s, ev), a, ok, clock);
      Prepend(s, ev, rest, a, ActFinishEnd, ok);
      evs := [ev] + rest;
    }
  }

  /** No endSession hangs: from every reachable state each one in flight gets its reply by steps of the writer
      and of its own connection, `ended` if the disk works and an error if not, unless its answer was settled
      or the writer stopping before. */
  lemma EndClears(restored: seq<RestoredRoom>, file: seq<Captured>, evs: seq<Event>, a: ActorId, ok: bool, clock: Clock)
    returns (more: seq<Event>, kept: bool)
    requires Bootable(restored)
    requires var s := Exec(Boot(restored, file), evs); a < |s.actors| && Ending(s.actors[a].pc)
    ensures var s := Exec(Boot(restored, file), evs);
            && IsSeated(s, a) && EndsWith(s, more, a, ActFinishEnd, ok)
            && EndOver(s, Exec(s, more), a, kept) && EndTold(s, Eve(s, more), a, kept)
            && (Undecided(s, a) ==> kept == ok)
  {
    Reachable(restored, file, evs);
    more, kept := EndFinishes(Exec(Boot(restored, file), evs), a, ok, clock);
  }
}
