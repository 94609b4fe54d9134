/** What holds in every state the relay can reach, whatever the interleaving: the main theorems. */
module Runs {
  import opened Protocol
  import opened RoomSpec
  import opened RoomInvariant
  import opened Snapshot
  import opened RegistrySpec
  import opened Writer
  import opened System
  import opened Seats
  import opened Seating
  import opened CoreInvariant
  import opened Durability
  import opened Answers
  import opened StepDurability
  import opened Closing
  import opened Books
  import opened StepRegistry
  import opened RaceFree
  import opened Tickets

  ghost predicate Inv(s: Sys) {
    Core(s) && Durable(s) && WriterInv(s) && Accounted(s) && ClosingOk(s) && OneEnder(s) && Capped(s.reg.quota)
    && WaitingOk(s)
  }

  lemma StepInv(s: Sys, ev: Event)
    requires Inv(s)
    ensures Inv(Apply(s, ev))
  {
    StepCore(s, ev);
    StepDurable(s, ev);
    StepAnswers(s, ev);
    StepAccounted(s, ev);
    StepClosing(s, ev);
    StepEnders(s, ev);
    StepCapped(s, ev);
    StepWaits(s, ev);
  }

  lemma {:induction false} ExecInv(s: Sys, evs: seq<Event>)
    requires Inv(s)
    ensures Inv(Exec(s, evs))
    decreases |evs|
  {
    if evs != [] {
      ExecInv(s, evs[..|evs| - 1]);
      StepInv(Exec(s, evs[..|evs| - 1]), evs[|evs| - 1]);
    }
  }

  // ---------------------------------------------------------------- running

  lemma {:induction false} ExecAppend(s: Sys, first: seq<Event>, second: seq<Event>)
    ensures Exec(s, first + second) == Exec(Exec(s, first), second)
    decreases |second|
  {
    if second == [] {
      assert first + second == first;
    } else {
      assert (first + second)[..|first + second| - 1] == first + second[..|second| - 1];
      ExecAppend(s, first, second[..|second| - 1]);
    }
  }

  lemma ExecSplit(s: Sys, evs: seq<Event>, n: nat)
    requires n <= |evs|
    ensures Exec(s, evs) == Exec(Exec(s, evs[..n]), evs[n..])
  {
    ExecAppend(s, evs[..n], evs[n..]);
    assert evs[..n] + evs[n..] == evs;
  }

  lemma ExecOne(s: Sys, ev: Event)
    ensures Exec(s, [ev]) == Apply(s, ev)
  {
    assert [ev][..0] == [];
    assert Exec(s, []) == s;
  }

  lemma ExecFirst(s: Sys, ev: Event, rest: seq<Event>)
    ensures Exec(s, [ev] + rest) == Exec(Apply(s, ev), rest)
  {
    ExecAppend(s, [ev], rest);
    ExecOne(s, ev);
  }

  // ---------------------------------------------------------------- startup

  /** Restored rooms the relay can start from: what loading a file it wrote always yields. */
  ghost predicate Bootable(restored: seq<RestoredRoom>) {
    && (forall i, j :: 0 <= i < j < |restored| ==> restored[i].sessionId != restored[j].sessionId)
    && (forall i :: 0 <= i < |restored| ==> RoomInv(Restore(restored[i])) && ValidSessionId(restored[i].sessionId))
  }

  /** A restored room is open and empty. */
  lemma RestoredIsEmpty(rr: RestoredRoom, p: PeerId)
    ensures !Restore(rr).closing && SeatOf(Restore(rr), p) == None && !Pending(Restore(rr), p)
              && Restore(rr).sessionId == rr.sessionId
  {
  }

  lemma BootTable(restored: seq<RestoredRoom>)
    requires Bootable(restored)
    ensures var reg := RestoreAll(restored); TableWf(reg) && RoomsOk(reg.arena) && LiveMapped(reg)
    ensures forall ref: RoomRef :: ref < |RestoreAll(restored).arena| ==> !RestoreAll(restored).arena[ref].closing
  {
    RestoreAllMaps(restored);
  }

  lemma BootSeats(restored: seq<RestoredRoom>)
    requires Bootable(restored)
    ensures SeatingOk(RestoreAll(restored).arena, [], {})
  {
    RestoreAllMaps(restored);
    var arena := RestoreAll(restored).arena;
    forall ref: RoomRef, p | ref < |arena| ensures SeatOf(arena[ref], p) == None && !Pending(arena[ref], p) {
      RestoredIsEmpty(restored[ref], p);
    }
  }

  /** With nobody connected and nothing said, most of the invariant says nothing. */
  lemma BootIsQuiet(restored: seq<RestoredRoom>, file: seq<Captured>)
    ensures var s := Boot(restored, file); Durable(s) && WriterInv(s) && Accounted(s) && OneEnder(s) && WaitingOk(s)
  {
  }

  lemma BootInv(restored: seq<RestoredRoom>, file: seq<Captured>)
    requires Bootable(restored)
    ensures Inv(Boot(restored, file))
  {
    BootIsQuiet(restored, file);
    BootTable(restored);
    BootSeats(restored);
    RestoreAllCharges(restored);
  }

  /** Every reachable state satisfies the whole invariant. */
  lemma Reachable(restored: seq<RestoredRoom>, file: seq<Captured>, evs: seq<Event>)
    requires Bootable(restored)
    ensures Inv(Exec(Boot(restored, file), evs))
  {
    BootInv(restored, file);
    ExecInv(Boot(restored, file), evs);
  }

  // ---------------------------------------------------------------- durability

  /** Finishing the leave of `a` at `wall` replies `left`. */
  predicate RepliesLeft(s: Sys, a: ActorId, wall: WallTime) {
    && ActEnabled(s, a, ActFinishLeave(wall))
    && LeaveOutcome(s, a, wall).effects.reply == Some(Left(RoomOf(s, a).sessionId, HoldingOf(s, a).peerId))
  }

  /** The file's record of that room object names the peer neither as host nor as reserved guest, and the
      leave is logged as confirmed. */
  ghost predicate LeaveIsDurable(s: Sys, a: ActorId, wall: WallTime)
    requires RepliesLeft(s, a, wall)
  {
    && NoMention(s.file, HoldingOf(s, a).room, HoldingOf(s, a).peerId)
    && (HoldingOf(s, a).room, HoldingOf(s, a).peerId) in Apply(s, Client(a, ActFinishLeave(wall))).log.released
  }

  lemma LeftIsLogged(s: Sys, a: ActorId, wall: WallTime)
    requires Core(s) && Durable(s) && RepliesLeft(s, a, wall)
    ensures LeaveIsDurable(s, a, wall)
  {
    FinishLeaveDurable(s, a, wall);
    assert Apply(s, Client(a, ActFinishLeave(wall))) == ConcludeLeave(s, a, LeaveOutcome(s, a, wall));
  }

  /** Durable leave: whenever finishing a leave replies `left`, the state file's record of that room
      object names the peer neither as host nor as reserved guest. */
  lemma DurableLeave(restored: seq<RestoredRoom>, file: seq<Captured>, evs: seq<Event>, a: ActorId, wall: WallTime)
    requires Bootable(restored)
    ensures RepliesLeft(Exec(Boot(restored, file), evs), a, wall) ==>
              LeaveIsDurable(Exec(Boot(restored, file), evs), a, wall)
  {
    Reachable(restored, file, evs);
    if RepliesLeft(Exec(Boot(restored, file), evs), a, wall) {
      LeftIsLogged(Exec(Boot(restored, file), evs), a, wall);
    }
  }

  /** And it stays out of every later file until the peer joins that room again. */
  lemma LeftStaysDurable(restored: seq<RestoredRoom>, file: seq<Captured>, evs: seq<Event>, ref: RoomRef, p: PeerId)
    requires Bootable(restored)
    requires (ref, p) in Exec(Boot(restored, file), evs).log.released
    ensures NoMention(Exec(Boot(restored, file), evs).file, ref, p)
  {
    Reachable(restored, file, evs);
    assert PeerGone(Exec(Boot(restored, file), evs), ref, p);
  }

  /** A confirmed leave is only withdrawn by an admission of that very peer. */
  lemma ReleasedUntilJoin(s: Sys, ev: Event, ref: RoomRef, p: PeerId)
    requires (ref, p) in s.log.released
    ensures || (ref, p) in Apply(s, ev).log.released
            || (ev.Client? && ev.act.ActJoin? && IsJoining(s, ev.a) && s.actors[ev.a].pc.target == ref
                && s.actors[ev.a].pc.peerId == p
                && JoinOutcome(s, ev.a, ev.act.now, ev.act.wall).effects.assignedConnId.Some?)
  {
  }

  lemma EndedStays(s: Sys, ev: Event, ref: RoomRef)
    requires ref in s.log.ended
    ensures ref in Apply(s, ev).log.ended
  {
  }

  lemma {:induction false} EndedForever(s: Sys, evs: seq<Event>, ref: RoomRef)
    requires ref in s.log.ended
    ensures ref in Exec(s, evs).log.ended
    decreases |evs|
  {
    if evs != [] {
      EndedForever(s, evs[..|evs| - 1], ref);
      EndedStays(Exec(s, evs[..|evs| - 1]), evs[|evs| - 1], ref);
    }
  }

  /** Durable end: `ended` is replied only when the file holds no record of that room object, and no
      later file, whatever happens next, ever holds one again. */
  lemma DurableEnd(restored: seq<RestoredRoom>, file: seq<Captured>, evs: seq<Event>, a: ActorId, later: seq<Event>)
    requires Bootable(restored)
    requires var s := Exec(Boot(restored, file), evs);
             && ActEnabled(s, a, ActFinishEnd)
             && EndOutcome(s, a).effects.reply == Some(Ended(RoomOf(s, a).sessionId))
    ensures var s := Exec(Boot(restored, file), evs);
            && NoRecord(s.file, HoldingOf(s, a).room)
            && NoRecord(Exec(Apply(s, Client(a, ActFinishEnd)), later).file, HoldingOf(s, a).room)
  {
    var s := Exec(Boot(restored, file), evs);
    var ref := HoldingOf(s, a).room;
    var s' := Apply(s, Client(a, ActFinishEnd));
    Reachable(restored, file, evs);
    FinishEndDurable(s, a);
    StepInv(s, Client(a, ActFinishEnd));
    ExecInv(s', later);
    EndedForever(s', later, ref);
    assert RoomGone(Exec(s', later), ref);
  }

  /** Every terminal command is answered exactly once: at any moment its ticket is answered, or the
      writer is persisting for it, or it is in the queue at one place, and only one of these. */
  lemma TicketHasOnePlace(restored: seq<RestoredRoom>, file: seq<Captured>, evs: seq<Event>, t: Ticket)
    requires Bootable(restored) && t < Exec(Boot(restored, file), evs).nextTicket
    ensures var s := Exec(Boot(restored, file), evs);
            && Placed(s, t)
            && !(t in s.answers && Waits(s.ledger, t))
            && (forall i :: Queued(s, i, t) ==> t !in s.answers && !Waits(s.ledger, t))
            && (forall i, j :: Queued(s, i, t) && Queued(s, j, t) ==> i == j)
  {
    Reachable(restored, file, evs);
  }

  /** A connection that waits does so on such a ticket, and no other connection waits on it. */
  lemma WaiterHasTicket(restored: seq<RestoredRoom>, file: seq<Captured>, evs: seq<Event>, a: ActorId, t: Ticket)
    requires Bootable(restored)
    requires var s := Exec(Boot(restored, file), evs); a < |s.actors| && WaitsOn(s.actors[a].pc) == Some(t)
    ensures var s := Exec(Boot(restored, file), evs);
            && t < s.nextTicket && Placed(s, t)
            && forall b: ActorId :: b < |s.actors| && WaitsOn(s.actors[b].pc) == Some(t) ==> b == a
  {
    Reachable(restored, file, evs);
  }

  /** And an answer, once given, stands. */
  lemma {:induction false} AnswersStand(s: Sys, evs: seq<Event>, t: Ticket)
    requires Inv(s) && t in s.answers
    ensures t in Exec(s, evs).answers && Exec(s, evs).answers[t] == s.answers[t]
    decreases |evs|
  {
    if evs != [] {
      AnswersStand(s, evs[..|evs| - 1], t);
      ExecInv(s, evs[..|evs| - 1]);
      AnsweredOnce(Exec(s, evs[..|evs| - 1]), evs[|evs| - 1], t);
    }
  }

  // ---------------------------------------------------------------- seats and leaves

  /** Leave window: in a live room a pending mark means exactly one leave in flight, and it is the
      occupant's. */
  lemma LeaveWindow(restored: seq<RestoredRoom>, file: seq<Captured>, evs: seq<Event>, ref: RoomRef, p: PeerId)
    returns (a: ActorId)
    requires Bootable(restored)
    requires var s := Exec(Boot(restored, file), evs);
             ref < |s.reg.arena| && !s.reg.arena[ref].closing && Pending(s.reg.arena[ref], p)
    ensures var s := Exec(Boot(restored, file), evs);
            && LeaveBy(s.actors, a, ref, p)
            && SeatOf(s.reg.arena[ref], p) == Some(s.actors[a].current.value.connId)
            && forall b: ActorId :: LeaveBy(s.actors, b, ref, p) ==> b == a
  {
    var s := Exec(Boot(restored, file), evs);
    Reachable(restored, file, evs);
    a :| LeaveBy(s.actors, a, ref, p);
    assert LeaveOk(s.reg.arena, s.actors[a]);
    forall b: ActorId | LeaveBy(s.actors, b, ref, p) ensures b == a {
      assert LeaveOk(s.reg.arena, s.actors[b]);
    }
  }

  /** In a live room a leave never ends silently, and its end, either way, clears the mark. */
  lemma LeaveAlwaysResolves(restored: seq<RestoredRoom>, file: seq<Captured>, evs: seq<Event>, a: ActorId,
                            wall: WallTime)
    requires Bootable(restored)
    requires var s := Exec(Boot(restored, file), evs); ActEnabled(s, a, ActFinishLeave(wall)) && !RoomOf(s, a).closing
    ensures var s := Exec(Boot(restored, file), evs);
            var o := LeaveOutcome(s, a, wall);
            && !Pending(o.room, HoldingOf(s, a).peerId)
            && o.effects.reply == Some(if s.answers[s.actors[a].pc.ticket]
                then Left(RoomOf(s, a).sessionId, HoldingOf(s, a).peerId)
                                       else Error(InvalidMessage))
  {
    var s := Exec(Boot(restored, file), evs);
    Reachable(restored, file, evs);
    assert LeaveOk(s.reg.arena, s.actors[a]);
    FinishLeaveShape(RoomOf(s, a), HoldingOf(s, a).peerId, HoldingOf(s, a).connId, s.answers[s.actors[a].pc.ticket],
        wall);
  }

  lemma SeatHolders(s: Sys, ref: RoomRef, p: PeerId, c: ConnId)
    requires Core(s) && ref < |s.reg.arena| && !s.reg.arena[ref].closing && SeatOf(s.reg.arena[ref], p) == Some(c)
    ensures (exists a: ActorId :: HeldBy(s.actors, a, ref, p, c)) <==> (ref, c) !in s.log.abandoned
    ensures forall a: ActorId, b: ActorId :: HeldBy(s.actors, a, ref, p, c) && HeldBy(s.actors, b, ref, p, c) ==> a == b
  {
    forall a: ActorId | HeldBy(s.actors, a, ref, p, c) ensures (ref, c) !in s.log.abandoned {
      assert HoldingOk(s.reg.arena, s.log.abandoned, s.actors[a].current.value);
    }
  }

  /** Occupancy agreement: a seat of a live room is held by some connection iff it was not abandoned
      by a refused endSession, and never by two. */
  lemma OccupancyAgrees(restored: seq<RestoredRoom>, file: seq<Captured>, evs: seq<Event>, ref: RoomRef, p: PeerId,
                        c: ConnId)
    requires Bootable(restored)
    requires var s := Exec(Boot(restored, file), evs);
             ref < |s.reg.arena| && !s.reg.arena[ref].closing && SeatOf(s.reg.arena[ref], p) == Some(c)
    ensures var s := Exec(Boot(restored, file), evs);
            && ((exists a: ActorId :: HeldBy(s.actors, a, ref, p, c)) <==> (ref, c) !in s.log.abandoned)
            && (forall a: ActorId, b: ActorId :: HeldBy(s.actors, a, ref, p, c) && HeldBy(s.actors, b, ref, p, c) ==>
                a == b)
  {
    Reachable(restored, file, evs);
    SeatHolders(Exec(Boot(restored, file), evs), ref, p, c);
  }

  /** Seats are only abandoned by a refused endSession, and then without the room noticing. */
  lemma OnlyRefusedEndAbandons(s: Sys, ev: Event, ref: RoomRef, c: ConnId)
    requires (ref, c) !in s.log.abandoned
    ensures (ref, c) in Apply(s, ev).log.abandoned <==>
              && ev.Client? && ev.act.ActBeginEnd? && ActEnabled(s, ev.a, ev.act)
              && HoldingOf(s, ev.a).room == ref && HoldingOf(s, ev.a).connId == c
              && !MayEnd(RoomOf(s, ev.a), HoldingOf(s, ev.a).peerId, c, ev.act.token, ev.act.version)
  {
  }

  // ---------------------------------------------------------------- quota

  /** No step of the run takes a room from under an endSession in flight. */
  ghost predicate NoRace(s: Sys, evs: seq<Event>)
    decreases |evs|
  {
    evs != [] ==> NoRace(s, evs[..|evs| - 1]) && !Races(Exec(s, evs[..|evs| - 1]), evs[|evs| - 1])
  }

  lemma {:induction false} BooksBalance(s: Sys, evs: seq<Event>)
    requires Inv(s) && Unraced(s) && Conserved(s) && NoRace(s, evs)
    ensures Unraced(Exec(s, evs)) && Conserved(Exec(s, evs))
    decreases |evs|
  {
    if evs != [] {
      var mid, ev := Exec(s, evs[..|evs| - 1]), evs[|evs| - 1];
      BooksBalance(s, evs[..|evs| - 1]);
      ExecInv(s, evs[..|evs| - 1]);
      StepUnraced(mid, ev);
      UnracedNeverOvercharges(mid, ev);
      ConservedUnlessOvercharged(mid, ev);
    }
  }

  lemma BootBooks(restored: seq<RestoredRoom>, file: seq<Captured>)
    requires Bootable(restored)
    ensures Conserved(Boot(restored, file)) && Unraced(Boot(restored, file))
  {
    var s := Boot(restored, file);
    RestoreAllMaps(restored);
    RestoreAllCharges(restored);
    forall k ensures Balance(s, k) == 0 {
      assert OwedBy(s.reg.arena, s.actors, k) == {};
      BootMapped(restored, k);
    }
  }

  lemma {:induction false} BootMapped(restored: seq<RestoredRoom>, k: IpKey)
    requires forall i, j :: 0 <= i < j < |restored| ==> restored[i].sessionId != restored[j].sessionId
    ensures |MappedBy(RestoreAll(restored), k)| == if k == "" then |restored| else 0
    decreases |restored|
  {
    if restored == [] {
      assert MappedBy(RestoreAll(restored), k) == {};
    } else {
      var before, last := restored[..|restored| - 1], restored[|restored| - 1];
      RestoreAllMaps(before);
      BootMapped(before, k);
      assert TableWf(RestoreAll(before));
      MappedAfterInsert(RestoreAll(before), last.sessionId, Restore(last), "", k);
    }
  }

  /** Quota conservation: on every run without such a race each owner's counter is its rooms in the
      table plus the releases still owed, and no owner but the startup key has more than three rooms. */
  lemma QuotaConservation(restored: seq<RestoredRoom>, file: seq<Captured>, evs: seq<Event>, k: IpKey)
    requires Bootable(restored) && NoRace(Boot(restored, file), evs)
    ensures Balance(Exec(Boot(restored, file), evs), k) == 0
    ensures k != "" ==> |MappedBy(Exec(Boot(restored, file), evs).reg, k)| <= MAX_ROOMS_PER_IP
  {
    BootInv(restored, file);
    BootBooks(restored, file);
    BooksBalance(Boot(restored, file), evs);
    Reachable(restored, file, evs);
  }

  /** Conserved in every state of the run. */
  ghost predicate AlwaysConserved(s: Sys, evs: seq<Event>)
    decreases |evs|
  {
    Conserved(Exec(s, evs)) && (evs != [] ==> AlwaysConserved(s, evs[..|evs| - 1]))
  }

  /** No event of the run is a second release against a non-zero counter. */
  ghost predicate NeverOvercharges(s: Sys, evs: seq<Event>)
    decreases |evs|
  {
    evs != [] ==> NeverOvercharges(s, evs[..|evs| - 1]) && !Overcharges(Exec(s, evs[..|evs| - 1]), evs[|evs| - 1])
  }

  /** Over whole runs: the books balance in every state exactly when no event overcharges. */
  lemma {:induction false} ConservedIffNeverOvercharged(s: Sys, evs: seq<Event>)
    requires Inv(s) && Conserved(s)
    ensures AlwaysConserved(s, evs) <==> NeverOvercharges(s, evs)
    decreases |evs|
  {
    if evs != [] {
      var before := evs[..|evs| - 1];
      ConservedIffNeverOvercharged(s, before);
      ExecInv(s, before);
      if AlwaysConserved(s, before) {
        ConservedUnlessOvercharged(Exec(s, before), evs[|evs| - 1]);
      }
    }
  }

  /** How many events of the run overcharge `k`. */
  function OverchargesIn(s: Sys, evs: seq<Event>, k: IpKey): int
    decreases |evs|
  {
    if evs == [] then 0
    else OverchargesIn(s, evs[..|evs| - 1], k) + Overcharge(Exec(s, evs[..|evs| - 1]), evs[|evs| - 1], k)
  }

  lemma {:induction false} BalanceBound(s: Sys, evs: seq<Event>, k: IpKey)
    requires Inv(s)
    ensures Balance(Exec(s, evs), k) <= Balance(s, k) + OverchargesIn(s, evs, k)
    decreases |evs|
  {
    if evs != [] {
      BalanceBound(s, evs[..|evs| - 1], k);
      ExecInv(s, evs[..|evs| - 1]);
      StepBalance(Exec(s, evs[..|evs| - 1]), evs[|evs| - 1], k);
    }
  }

  /** Races or not: over any run an address never has more rooms than three plus its overcharges. */
  lemma RoomsPerAddress(restored: seq<RestoredRoom>, file: seq<Captured>, evs: seq<Event>, k: IpKey)
    requires Bootable(restored) && k != ""
    ensures |MappedBy(Exec(Boot(restored, file), evs).reg, k)| <= MAX_ROOMS_PER_IP + OverchargesIn(Boot(restored, file),
              evs, k)
  {
    BootInv(restored, file);
    BootBooks(restored, file);
    assert Balance(Boot(restored, file), k) == 0;
    BalanceBound(Boot(restored, file), evs, k);
    Reachable(restored, file, evs);
  }
}
