/** Durability of terminal mutations. Whenever a client is told `left` or `ended`, the state file no
    longer knows the identity or the room, in every interleaving of connections, writer and sweep; and
    it stays that way until the identity joins again. */
module Durability {
  import opened Protocol
  import opened RoomSpec
  import opened RoomInvariant
  import opened Credentials
  import opened Snapshot
  import opened RegistrySpec
  import opened Writer
  import opened System
  import opened Seats
  import opened Seating
  import opened CoreInvariant
  import opened Moves

  ghost predicate NoMention(records: seq<Captured>, ref: RoomRef, p: PeerId) {
    forall i :: 0 <= i < |records| && records[i].origin == ref ==> !Mentions(records[i].dto, p)
  }

  ghost predicate NoRecord(records: seq<Captured>, ref: RoomRef) {
    forall i :: 0 <= i < |records| ==> records[i].origin != ref
  }

  /** The writer is persisting for `t` right now. */
  ghost predicate Waits(l: Ledger, t: Ticket) {
    exists w :: w in l.waiters && w.ticket == t
  }

  ghost predicate Confirmed(s: Sys, t: Ticket) {
    t in s.answers && s.answers[t]
  }

  /** A leave that waits for the writer and still owns its seat. */
  ghost predicate InFlight(s: Sys, b: ActorId) {
    && IsSeated(s, b)
    && s.actors[b].pc.LeaveWaiting?
    && StillLeaving(RoomOf(s, b), HoldingOf(s, b).peerId, HoldingOf(s, b).connId)
  }

  ghost predicate LeaveClean(s: Sys, t: Ticket, ref: RoomRef, p: PeerId) {
    && (Waits(s.ledger, t) ==> NoMention(Done(s), ref, p))
    && (Confirmed(s, t) ==> NoMention(s.file, ref, p) && NoMention(Done(s), ref, p))
  }

  ghost predicate EndClean(s: Sys, t: Ticket, ref: RoomRef) {
    && (Waits(s.ledger, t) ==> NoRecord(Done(s), ref))
    && (Confirmed(s, t) ==> NoRecord(s.file, ref) && NoRecord(Done(s), ref))
  }

  ghost predicate LeavesDurable(s: Sys) {
    forall b: ActorId :: InFlight(s, b) ==>
        LeaveClean(s, s.actors[b].pc.ticket, HoldingOf(s, b).room, HoldingOf(s, b).peerId)
  }

  ghost predicate EndsDurable(s: Sys) {
    forall b: ActorId :: IsSeated(s, b) && s.actors[b].pc.EndWaiting? ==>
        EndClean(s, s.actors[b].pc.ticket, HoldingOf(s, b).room)
  }

  ghost predicate RoomGone(s: Sys, ref: RoomRef) {
    ref < |s.reg.arena| && s.reg.arena[ref].closing && NoRecord(s.file, ref) && NoRecord(Done(s), ref)
  }

  ghost predicate PeerGone(s: Sys, ref: RoomRef, p: PeerId) {
    ref < |s.reg.arena| && !IsIdentity(s.reg.arena[ref], p) && NoMention(s.file, ref, p) && NoMention(Done(s), ref, p)
  }

  ghost predicate LogDurable(s: Sys) {
    && (forall ref :: ref in s.log.ended ==> RoomGone(s, ref))
    && (forall k :: k in s.log.released ==> PeerGone(s, k.0, k.1))
  }

  ghost predicate TicketsOk(s: Sys) {
    && (forall i :: 0 <= i < |s.queue| && s.queue[i].CmdTerminal? ==> s.queue[i].ticket < s.nextTicket)
    && (forall w :: w in s.ledger.waiters ==> w.ticket < s.nextTicket)
    && (forall t :: t in s.answers ==> t < s.nextTicket)
  }

  ghost predicate Durable(s: Sys) {
    LeavesDurable(s) && EndsDurable(s) && LogDurable(s) && TicketsOk(s)
  }

  // ---------------------------------------------------------------- rooms and connections move

  lemma MovedInFlight(s: Sys, s': Sys, a: ActorId, ref: RoomRef, admitted: set<PeerId>, b: ActorId)
    requires Core(s) && Moved(s, s', a, ref, admitted) && InFlight(s', b)
    requires a < |s.actors| && s'.actors[a] == s.actors[a] ==> !Leaving(s.actors[a].pc)
    ensures InFlight(s, b) && s'.actors[b] == s.actors[b]
  {
    var h := HoldingOf(s', b);
    assert b != a;
    assert HoldingOk(s.reg.arena, s.log.abandoned, h);
    assert h.room == ref ==> h.connId !in Mine(s, a, ref);
    assert SeatOf(RoomOf(s', b), h.peerId) == Some(h.connId);
  }

  /** Nothing new is claimed about an unchanged disk. */
  ghost predicate ClaimsShrink(s: Sys, s': Sys) {
    && SameDisk(s, s') && s'.queue == s.queue && s'.nextTicket == s.nextTicket
    && (forall b: ActorId :: InFlight(s', b) ==> InFlight(s, b) && s'.actors[b] == s.actors[b])
    && (forall b: ActorId :: IsSeated(s', b) && s'.actors[b].pc.EndWaiting? ==>
        IsSeated(s, b) && s'.actors[b] == s.actors[b])
    && (forall x :: x in s'.log.ended ==>
        x in s.log.ended && x < |s'.reg.arena| && (x < |s.reg.arena| && s.reg.arena[x].closing ==>
        s'.reg.arena[x].closing))
    && (forall k :: k in s'.log.released ==>
          (k in s.log.released && k.0 < |s'.reg.arena|
           && (k.0 < |s.reg.arena| && !IsIdentity(s.reg.arena[k.0], k.1) ==> !IsIdentity(s'.reg.arena[k.0], k.1))))
  }

  lemma ShrinkDurable(s: Sys, s': Sys)
    requires Durable(s) && ClaimsShrink(s, s')
    ensures Durable(s')
  {
    forall b: ActorId | InFlight(s', b)
        ensures LeaveClean(s', s'.actors[b].pc.ticket, HoldingOf(s', b).room, HoldingOf(s', b).peerId) {
      assert LeaveClean(s, s.actors[b].pc.ticket, HoldingOf(s, b).room, HoldingOf(s, b).peerId);
    }
    forall b: ActorId | IsSeated(s', b) && s'.actors[b].pc.EndWaiting?
        ensures EndClean(s', s'.actors[b].pc.ticket, HoldingOf(s', b).room) {
      assert EndClean(s, s.actors[b].pc.ticket, HoldingOf(s, b).room);
    }
    forall x | x in s'.log.ended ensures RoomGone(s', x) {
      assert RoomGone(s, x);
    }
    forall k | k in s'.log.released ensures PeerGone(s', k.0, k.1) {
      assert PeerGone(s, k.0, k.1);
    }
  }

  /** A move leaves the disk alone, so it keeps every claim; only an admission withdraws one. */
  lemma MovedDurable(s: Sys, s': Sys, a: ActorId, ref: RoomRef, admitted: set<PeerId>)
    requires Core(s) && Durable(s) && Moved(s, s', a, ref, admitted)
    requires a < |s.actors| && s'.actors[a] == s.actors[a] ==> !Leaving(s.actors[a].pc)
    requires s'.queue == s.queue && s'.nextTicket == s.nextTicket && s'.log.ended == s.log.ended
    requires forall k :: k in s'.log.released ==> k in s.log.released && !(k.0 == ref && k.1 in admitted)
    ensures Durable(s')
  {
    forall b: ActorId | InFlight(s', b) ensures InFlight(s, b) && s'.actors[b] == s.actors[b] {
      MovedInFlight(s, s', a, ref, admitted, b);
    }
    forall x | x in s'.log.ended ensures x < |s.reg.arena| {
      assert RoomGone(s, x);
    }
    forall k | k in s'.log.released ensures k.0 < |s.reg.arena| {
      assert PeerGone(s, k.0, k.1);
    }
    ShrinkDurable(s, s');
  }

  /** Connections change without starting to wait, and room objects or connections may be added. */
  lemma GrowDurable(s: Sys, s': Sys)
    requires Durable(s) && SameDisk(s, s') && s'.queue == s.queue && s'.nextTicket == s.nextTicket
    requires s'.log.ended == s.log.ended && s'.log.released == s.log.released
    requires s.reg.arena <= s'.reg.arena && |s.actors| <= |s'.actors|
    requires forall b: ActorId :: IsSeated(s', b) && (s'.actors[b].pc.LeaveWaiting? || s'.actors[b].pc.EndWaiting?) ==>
               IsSeated(s, b) && s'.actors[b] == s.actors[b]
    ensures Durable(s')
  {
    forall x | x in s'.log.ended ensures x < |s.reg.arena| {
      assert RoomGone(s, x);
    }
    forall k | k in s'.log.released ensures k.0 < |s.reg.arena| {
      assert PeerGone(s, k.0, k.1);
    }
    ShrinkDurable(s, s');
  }

  /** A fresh ticket has neither reached the writer nor been answered. */
  lemma SendDurable(s: Sys, a: ActorId, pc: Pc)
    requires Durable(s) && a < |s.actors|
               && (pc == LeaveWaiting(s.nextTicket) || (pc.EndWaiting? && pc.ticket == s.nextTicket))
    ensures Durable(DoSend(s, a, pc))
  {
    var s' := DoSend(s, a, pc);
    assert !Waits(s.ledger, s.nextTicket) && !Confirmed(s, s.nextTicket);
    forall b: ActorId | InFlight(s', b)
        ensures LeaveClean(s', s'.actors[b].pc.ticket, HoldingOf(s', b).room, HoldingOf(s', b).peerId) {
      assert b != a ==> InFlight(s, b);
    }
    forall b: ActorId | IsSeated(s', b) && s'.actors[b].pc.EndWaiting?
        ensures EndClean(s', s'.actors[b].pc.ticket, HoldingOf(s', b).room) {
      assert b != a ==> EndClean(s, s.actors[b].pc.ticket, HoldingOf(s, b).room);
    }
    forall x | x in s'.log.ended ensures RoomGone(s', x) {
      assert RoomGone(s, x);
    }
    forall k | k in s'.log.released ensures PeerGone(s', k.0, k.1) {
      assert PeerGone(s, k.0, k.1);
    }
  }

  // ---------------------------------------------------------------- the writer moves

  /** The claims survive when the disk changes so that each clean record set stays clean. */
  ghost predicate DiskKeeps(s: Sys, s': Sys) {
    && (forall b: ActorId :: InFlight(s, b) ==>
        LeaveClean(s', s.actors[b].pc.ticket, HoldingOf(s, b).room, HoldingOf(s, b).peerId))
    && (forall b: ActorId :: IsSeated(s, b) && s.actors[b].pc.EndWaiting? ==>
        EndClean(s', s.actors[b].pc.ticket, HoldingOf(s, b).room))
    && (forall x :: x in s.log.ended ==> RoomGone(s', x))
    && (forall k :: k in s.log.released ==> PeerGone(s', k.0, k.1))
  }

  lemma DiskDurable(s: Sys, s': Sys)
    requires s'.reg == s.reg && s'.actors == s.actors && s'.log == s.log && DiskKeeps(s, s') && TicketsOk(s')
    ensures Durable(s')
  {
    forall b: ActorId | InFlight(s', b)
        ensures LeaveClean(s', s'.actors[b].pc.ticket, HoldingOf(s', b).room, HoldingOf(s', b).peerId) {
      assert InFlight(s, b);
    }
    forall b: ActorId | IsSeated(s', b) && s'.actors[b].pc.EndWaiting?
        ensures EndClean(s', s'.actors[b].pc.ticket, HoldingOf(s', b).room) {
      assert IsSeated(s, b);
    }
  }

  /** A captured record never mentions a peer that is not an identity or is leaving. */
  lemma CaptureHides(r: Room, clock: Clock, p: PeerId)
    requires RoomInv(r) && (!IsIdentity(r, p) || Pending(r, p))
    ensures !Mentions(BuildRoomDto(r, clock), p)
  {
  }

  lemma CaptureNoMention(s: Sys, ref: RoomRef, clock: Clock, x: RoomRef, p: PeerId)
    requires s.phase.Capturing? && ref < |s.reg.arena| && RoomInv(s.reg.arena[ref]) && NoMention(Done(s), x, p)
    requires x == ref ==> !IsIdentity(s.reg.arena[ref], p) || Pending(s.reg.arena[ref], p)
    ensures NoMention(Done(DoCapture(s, ref, clock)), x, p)
  {
    CaptureNoRecord(s, ref, clock);
    if x == ref {
      CaptureHides(s.reg.arena[ref], clock, p);
    }
  }

  /** A capture adds at most one record, of the room captured, and none when that room is closing. */
  lemma CaptureNoRecord(s: Sys, ref: RoomRef, clock: Clock)
    requires s.phase.Capturing? && ref < |s.reg.arena|
    ensures Done(DoCapture(s, ref, clock)) ==
            Done(s) + if s.reg.arena[ref].closing then [] else [Captured(ref, BuildRoomDto(s.reg.arena[ref], clock))]
    ensures forall x :: NoRecord(Done(s), x) && (x == ref ==> s.reg.arena[ref].closing) ==>
              NoRecord(Done(DoCapture(s, ref, clock)), x)
  {
  }

  lemma CaptureLeaves(s: Sys, ref: RoomRef, clock: Clock, b: ActorId)
    requires Core(s) && Durable(s) && s.phase.Capturing? && ref < |s.reg.arena| && InFlight(s, b)
    ensures LeaveClean(DoCapture(s, ref, clock), s.actors[b].pc.ticket, HoldingOf(s, b).room, HoldingOf(s, b).peerId)
  {
    assert LeaveClean(s, s.actors[b].pc.ticket, HoldingOf(s, b).room, HoldingOf(s, b).peerId);
    if NoMention(Done(s), HoldingOf(s, b).room, HoldingOf(s, b).peerId) {
      CaptureNoMention(s, ref, clock, HoldingOf(s, b).room, HoldingOf(s, b).peerId);
    }
  }

  lemma CaptureEnds(s: Sys, ref: RoomRef, clock: Clock, b: ActorId)
    requires Core(s) && Durable(s) && s.phase.Capturing? && ref < |s.reg.arena| && IsSeated(s, b)
               && s.actors[b].pc.EndWaiting?
    ensures EndClean(DoCapture(s, ref, clock), s.actors[b].pc.ticket, HoldingOf(s, b).room)
  {
    assert EndClean(s, s.actors[b].pc.ticket, HoldingOf(s, b).room);
    assert PcOk(s.reg.arena, s.actors[b]);
    CaptureNoRecord(s, ref, clock);
  }

  lemma CaptureDurable(s: Sys, ref: RoomRef, clock: Clock)
    requires Core(s) && Durable(s) && s.phase.Capturing? && ref < |s.reg.arena|
    ensures Durable(DoCapture(s, ref, clock))
  {
    var s' := DoCapture(s, ref, clock);
    forall b: ActorId | InFlight(s, b)
        ensures LeaveClean(s', s.actors[b].pc.ticket, HoldingOf(s, b).room, HoldingOf(s, b).peerId) {
      CaptureLeaves(s, ref, clock, b);
    }
    forall b: ActorId | IsSeated(s, b) && s.actors[b].pc.EndWaiting?
        ensures EndClean(s', s.actors[b].pc.ticket, HoldingOf(s, b).room) {
      CaptureEnds(s, ref, clock, b);
    }
    forall x | x in s.log.ended ensures RoomGone(s', x) {
      assert RoomGone(s, x);
      CaptureNoRecord(s, ref, clock);
    }
    forall k | k in s.log.released ensures PeerGone(s', k.0, k.1) {
      assert PeerGone(s, k.0, k.1);
      CaptureNoMention(s, ref, clock, k.0, k.1);
    }
    DiskDurable(s, s');
  }

  /** Answers come from waiters and carry the persist's result; nobody joins the waiters. */
  lemma {:induction false} ResolveSources(waiters: seq<Waiter>, durable: nat, ok: bool)
    ensures var r := ResolveWaiters(waiters, durable, ok);
            && (forall a :: a in r.answers ==> a.ok == ok && exists w :: w in waiters && w.ticket == a.ticket)
            && (forall w :: w in r.remaining ==> w in waiters)
    decreases |waiters|
  {
    if waiters != [] {
      ResolveSources(waiters[1..], durable, ok);
      var rest := ResolveWaiters(waiters[1..], durable, ok);
      assert waiters[0] in waiters;
      forall a | a in rest.answers ensures exists w :: w in waiters && w.ticket == a.ticket {
        var w :| w in waiters[1..] && w.ticket == a.ticket;
        assert w in waiters;
      }
      forall a | a in ResolveWaiters(waiters, durable, ok).answers ensures a in rest.answers
          || a == Answer(waiters[0].ticket, ok) {
      }
    }
  }

  lemma {:induction false} PostSources(answers: map<Ticket, bool>, given: seq<Answer>, t: Ticket)
    ensures t in Post(answers, given) ==>
              (t in answers && Post(answers, given)[t] == answers[t]) || Answer(t, Post(answers, given)[t]) in given
    decreases |given|
  {
    if given != [] {
      PostSources(answers, given[..|given| - 1], t);
    }
  }

  lemma SettleSources(s: Sys, ok: bool, t: Ticket)
    ensures var settled := Settle(s.ledger, ok);
            && (Waits(settled.ledger, t) ==> Waits(s.ledger, t))
            && (t in Post(s.answers, settled.answers) && Post(s.answers, settled.answers)[t] ==>
                Confirmed(s, t) || (ok && Waits(s.ledger, t)))
            && (t in Post(s.answers, settled.answers) ==> t in s.answers || Waits(s.ledger, t))
  {
    var settled := Settle(s.ledger, ok);
    ResolveSources(s.ledger.waiters, settled.ledger.durable, ok);
    PostSources(s.answers, settled.answers, t);
  }

  lemma WriteTickets(s: Sys, ok: bool)
    requires TicketsOk(s) && s.phase.Capturing?
    ensures TicketsOk(DoWrite(s, ok))
  {
    var s' := DoWrite(s, ok);
    forall t | t in s'.answers ensures t < s.nextTicket {
      SettleSources(s, ok, t);
    }
    ResolveSources(s.ledger.waiters, s'.ledger.durable, ok);
  }

  /** The file becomes what was captured, and exactly the persist's own waiters learn of it. */
  lemma WriteDurable(s: Sys, ok: bool)
    requires Durable(s) && s.phase.Capturing?
    ensures Durable(DoWrite(s, ok))
  {
    var s' := DoWrite(s, ok);
    forall b: ActorId | InFlight(s, b)
        ensures LeaveClean(s', s.actors[b].pc.ticket, HoldingOf(s, b).room, HoldingOf(s, b).peerId) {
      assert LeaveClean(s, s.actors[b].pc.ticket, HoldingOf(s, b).room, HoldingOf(s, b).peerId);
      SettleSources(s, ok, s.actors[b].pc.ticket);
    }
    forall b: ActorId | IsSeated(s, b) && s.actors[b].pc.EndWaiting?
        ensures EndClean(s', s.actors[b].pc.ticket, HoldingOf(s, b).room) {
      assert EndClean(s, s.actors[b].pc.ticket, HoldingOf(s, b).room);
      SettleSources(s, ok, s.actors[b].pc.ticket);
    }
    forall x | x in s.log.ended ensures RoomGone(s', x) {
      assert RoomGone(s, x);
    }
    forall k | k in s.log.released ensures PeerGone(s', k.0, k.1) {
      assert PeerGone(s, k.0, k.1);
    }
    WriteTickets(s, ok);
    DiskDurable(s, s');
  }

  /** Outside a capture nothing is captured yet, so starting one is always clean. */
  ghost predicate KeepsFile(s: Sys, s': Sys) {
    && s'.file == s.file && Done(s) == [] && Done(s') == []
    && (forall t :: Confirmed(s', t) ==> Confirmed(s, t))
  }

  lemma IdleWriterDurable(s: Sys, s': Sys)
    requires Durable(s) && s'.reg == s.reg && s'.actors == s.actors && s'.log == s.log && KeepsFile(s, s')
               && TicketsOk(s')
    ensures Durable(s')
  {
    forall b: ActorId | InFlight(s, b)
        ensures LeaveClean(s', s.actors[b].pc.ticket, HoldingOf(s, b).room, HoldingOf(s, b).peerId) {
      assert LeaveClean(s, s.actors[b].pc.ticket, HoldingOf(s, b).room, HoldingOf(s, b).peerId);
    }
    forall b: ActorId | IsSeated(s, b) && s.actors[b].pc.EndWaiting?
        ensures EndClean(s', s.actors[b].pc.ticket, HoldingOf(s, b).room) {
      assert EndClean(s, s.actors[b].pc.ticket, HoldingOf(s, b).room);
    }
    forall x | x in s.log.ended ensures RoomGone(s', x) {
      assert RoomGone(s, x);
    }
    forall k | k in s.log.released ensures PeerGone(s', k.0, k.1) {
      assert PeerGone(s, k.0, k.1);
    }
    DiskDurable(s, s');
  }

  lemma ReceiveDurable(s: Sys)
    requires Durable(s) && s.phase.Ready? && s.queue != [] && s.ledger.waiters == []
    ensures Durable(DoReceive(s))
  {
    var s' := DoReceive(s);
    assert forall i :: 0 <= i < |s'.queue| ==> s'.queue[i] == s.queue[i + 1];
    IdleWriterDurable(s, s');
  }

  lemma DropDurable(s: Sys)
    requires Durable(s) && s.phase.Stopped? && s.queue != []
    ensures Durable(DoDrop(s))
  {
    var s' := DoDrop(s);
    assert forall i :: 0 <= i < |s'.queue| ==> s'.queue[i] == s.queue[i + 1];
    IdleWriterDurable(s, s');
  }
}
