/** What ties a connection that waits for the writer to its request: the ticket it waits on was handed
    out and is its own, and the capture the writer is in the middle of can always go on. */
module Tickets {
  import opened Protocol
  import opened HostTransfer
  import opened RegistrySpec
  import opened Writer
  import opened System
  import opened Seating
  import opened CoreInvariant
  import opened Moves
  import opened Answers

  /** The ticket a connection waits on. */
  function WaitsOn(pc: Pc): Option<Ticket> {
    match pc
    case LeaveWaiting(t) => Some(t)
    case EndWaiting(_, t) => Some(t)
    case _ => None
  }

  /** Connections wait on tickets that were handed out, each on its own. */
  ghost predicate TicketsHeld(actors: Actors, nextTicket: Ticket) {
    && (forall a :: 0 <= a < |actors| && WaitsOn(actors[a].pc).Some? ==> WaitsOn(actors[a].pc).value < nextTicket)
    && (forall a, b :: 0 <= a < b < |actors| && WaitsOn(actors[a].pc).Some? ==>
        WaitsOn(actors[a].pc) != WaitsOn(actors[b].pc))
  }

  /** The rooms still to capture exist. */
  ghost predicate CaptureInRange(s: Sys) {
    s.phase.Capturing? ==> forall x :: x in s.phase.todo ==> x < |s.reg.arena|
  }

  ghost predicate WaitingOk(s: Sys) {
    TicketsHeld(s.actors, s.nextTicket) && CaptureInRange(s)
  }

  lemma SameWaits(actors: Actors, actors': Actors, nextTicket: Ticket, a: ActorId)
    requires TicketsHeld(actors, nextTicket) && OneActor(actors, actors', a)
    ensures TicketsHeld(actors', nextTicket)
  {
    assert forall b :: 0 <= b < |actors'| && WaitsOn(actors'[b].pc).Some? ==>
        WaitsOn(actors'[b].pc) == WaitsOn(actors[b].pc);
  }

  lemma SendWaits(s: Sys, a: ActorId, pc: Pc)
    requires TicketsHeld(s.actors, s.nextTicket) && a < |s.actors| && WaitsOn(pc) == Some(s.nextTicket)
    ensures TicketsHeld(DoSend(s, a, pc).actors, DoSend(s, a, pc).nextTicket)
  {
  }

  lemma CreateWaits(s: Sys, a: ActorId, sid: SessionId, p: PeerId, token: Token, owner: IpKey, profile: Profile,
                    wall: WallTime)
    requires IsFree(s, a) && TableWf(s.reg)
    ensures var s' := DoCreate(s, a, sid, p, token, owner, profile, wall);
            OneActor(s.actors, s'.actors, a) && |s.reg.arena| <= |s'.reg.arena|
  {
    CreateCases(s, a, sid, p, token, owner, profile, wall);
  }

  lemma ActWaits(s: Sys, a: ActorId, act: Act)
    requires Core(s) && WaitingOk(s) && ActEnabled(s, a, act)
    ensures WaitingOk(FireAct(s, a, act))
  {
    ActLeavesTheWriter(s, a, act);
    if IsMove(act) {
      ActMoves(s, a, act);
      SameWaits(s.actors, FireAct(s, a, act).actors, s.nextTicket, a);
    } else if IsAside(act) {
      AsideFrame(s, a, act);
      SameWaits(s.actors, FireAct(s, a, act).actors, s.nextTicket, a);
    } else if act.ActCreate? {
      CreateWaits(s, a, act.sid, act.peerId, act.token, act.owner, act.profile, act.wall);
      SameWaits(s.actors, FireAct(s, a, act).actors, s.nextTicket, a);
    } else if act.ActSendLeave? {
      SendWaits(s, a, LeaveWaiting(s.nextTicket));
    } else {
      SendWaits(s, a, EndWaiting(s.actors[a].pc.guests, s.nextTicket));
    }
  }

  lemma DiskWaits(s: Sys, act: DiskAct)
    requires TableWf(s.reg) && WaitingOk(s) && DiskEnabled(s, act)
    ensures WaitingOk(FireDisk(s, act))
  {
    DiskFrame(s, act);
  }

  lemma SweepWaits(s: Sys, act: SweepAct)
    requires WaitingOk(s) && SweepEnabled(s, act)
    ensures WaitingOk(FireSweep(s, act))
  {
    SweepLeavesTheWriter(s, act);
  }

  lemma StepWaits(s: Sys, ev: Event)
    requires Core(s) && WaitingOk(s)
    ensures WaitingOk(Apply(s, ev))
  {
    match ev
    case Connect =>
    case Client(a, act) =>
      if ActEnabled(s, a, act) {
        ActWaits(s, a, act);
      }
    case Disk(act) =>
      if DiskEnabled(s, act) {
        DiskWaits(s, act);
      }
    case Clean(act) =>
      if SweepEnabled(s, act) {
        SweepWaits(s, act);
      }
  }
}
