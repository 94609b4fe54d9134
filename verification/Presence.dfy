/** The promises to the people in a room, in the running relay: what one says the others hear, whoever drops
    out can come back in time, and everybody hears of the end. */
module Presence {
  import opened Protocol
  import opened HostTransfer
  import opened RoomSpec
  import opened RoomInvariant
  import opened Credentials
  import opened Delivery
  import opened Admission
  import opened System
  import opened CoreInvariant
  import opened Runs
  import opened RoomHistory

  /** Connection `a` is between messages and is the occupant of the live room it thinks it is in. */
  predicate IsPresent(s: Sys, a: ActorId) {
    && IsIdle(s, a) && IsSeated(s, a) && !RoomOf(s, a).closing
    && Occupies(RoomOf(s, a), HoldingOf(s, a).peerId, HoldingOf(s, a).connId)
  }

  // ---------------------------------------------------------------- talking

  /** What `a` broadcasts reaches every other connection present in its room once, and not `a` itself. */
  lemma EverybodyHears(s: Sys, a: ActorId, payload: string, wall: WallTime, b: ActorId)
    requires Inv(s) && IsPresent(s, a) && IsPresent(s, b) && HoldingOf(s, b).room == HoldingOf(s, a).room
    ensures var h := HoldingOf(s, a);
            var act := ActRelay(OpBroadcast(h.peerId, h.connId, payload, wall));
            && ActEnabled(s, a, act)
            && Promised(MoveEffects(s, a, act).broadcast, HoldingOf(s, b).connId)
               == if b == a then [] else [Message(h.peerId, payload)]
  {
    var ha, hb := HoldingOf(s, a), HoldingOf(s, b);
    assert RoomInv(RoomOf(s, a));
    BroadcastReachesPeers(RoomOf(s, a), ha.peerId, ha.connId, payload, wall, hb.peerId);
    if b != a {
      SeatsApart(s, a, b);
    }
  }

  lemma SeatsApart(s: Sys, a: ActorId, b: ActorId)
    requires Core(s) && IsPresent(s, a) && IsPresent(s, b) && a != b && HoldingOf(s, b).room == HoldingOf(s, a).room
    ensures HoldingOf(s, a).peerId != HoldingOf(s, b).peerId
  {
    if a < b {
      assert HoldingOf(s, a).connId != HoldingOf(s, b).connId;
    } else {
      assert HoldingOf(s, b).connId != HoldingOf(s, a).connId;
    }
  }

  // ---------------------------------------------------------------- dropping out and coming back

  lemma DropLeavesAway(s: Sys, a: ActorId, d: Instant, gone: WallTime)
    requires Inv(s) && IsPresent(s, a)
    ensures var h := HoldingOf(s, a);
            var s' := Apply(s, Client(a, ActDisconnect(d, gone)));
            && Inv(s') && IsIdentity(RoomOf(s, a), h.peerId) && h.room < |s'.reg.arena| && RoomInv(s'.reg.arena[h.room])
            && AwaySince(s'.reg.arena[h.room], h.peerId, Credential(RoomOf(s, a), h.peerId), d)
  {
    var h := HoldingOf(s, a);
    StepInv(s, Client(a, ActDisconnect(d, gone)));
    IdleIsNotPending(s, a);
    assert RoomInv(RoomOf(s, a));
    DisconnectedIsAway(RoomOf(s, a), h.peerId, h.connId, d, gone);
    MoveIsOp(s, a, ActDisconnect(d, gone));
  }

  /** Whoever drops out of a live room at `d` gets back in with the token of its identity, through any
      interleaving, as long as its five minutes last, the room does not close, and it is not back already. */
  lemma DropOutsComeBack(s: Sys, a: ActorId, d: Instant, gone: WallTime, evs: seq<Event>, token: Token,
                         profile: Profile,
                         resumeOnly: bool, now: Instant, wall: WallTime)
    requires Inv(s) && IsPresent(s, a) && now < d + 5 * 60 * NANOS_PER_SECOND
    requires IsIdentity(RoomOf(s, a), HoldingOf(s, a).peerId)
             && token.verifier == Some(Credential(RoomOf(s, a), HoldingOf(s, a).peerId))
    ensures var ref, p := HoldingOf(s, a).room, HoldingOf(s, a).peerId;
            var s1 := Apply(s, Client(a, ActDisconnect(d, gone)));
            var r := Exec(s1, evs).reg.arena;
            && ref < |s1.reg.arena| && ref < |r|
            && (AllBefore(History(s1, evs, ref), d + 5 * 60 * NANOS_PER_SECOND) && !r[ref].closing
                && !ComesBack(s1.reg.arena[ref], History(s1, evs, ref), p) ==>
                  Comes(JoinOrResume(r[ref], p, token, profile, resumeOnly, now, wall).effects, Admitted,
                        r[ref].nextConnId, Welcome(r[ref], p, token, resumeOnly)))
  {
    var ref, p, v := HoldingOf(s, a).room, HoldingOf(s, a).peerId, token.verifier.value;
    var s1 := Apply(s, Client(a, ActDisconnect(d, gone)));
    DropLeavesAway(s, a, d, gone);
    RelayRunsAreRoomRuns(s1, evs, ref);
    var r, ops := s1.reg.arena[ref], History(s1, evs, ref);
    if AllBefore(ops, d + 5 * 60 * NANOS_PER_SECOND) && !Run(r, ops).closing && !ComesBack(r, ops, p) {
      RunKeepsAway(r, ops, p, v, d);
      AwayIsAdmitted(Run(r, ops), p, token, profile, resumeOnly, now, wall, v, d);
    }
  }

  // ---------------------------------------------------------------- the end

  /** `a` is ending its session throughout the run. */
  ghost predicate KeepsEnding(s: Sys, evs: seq<Event>, a: ActorId)
    decreases |evs|
  {
    && a < |Exec(s, evs).actors| && Ending(Exec(s, evs).actors[a].pc)
    && (evs != [] ==> KeepsEnding(s, evs[..|evs| - 1], a))
  }

  /** The guests an endSession in flight will tell. */
  function Guests(pc: Pc): set<ConnId> {
    match pc
    case EndBegun(guests) => guests
    case EndUnmapped(guests, _) => guests
    case EndReleased(guests) => guests
    case EndWaiting(guests, _) => guests
    case _ => {}
  }

  lemma OwnActKeepsGuests(s: Sys, a: ActorId, act: Act)
    requires ActEnabled(s, a, act) && Ending(s.actors[a].pc) && Ending(FireAct(s, a, act).actors[a].pc)
    ensures Guests(FireAct(s, a, act).actors[a].pc) == Guests(s.actors[a].pc)
    ensures FireAct(s, a, act).actors[a].current == s.actors[a].current
  {
  }

  lemma OthersKeepActor(s: Sys, a: ActorId, ev: Event)
    requires a < |s.actors| && !(ev.Client? && ev.a == a)
    ensures a < |Apply(s, ev).actors| && Apply(s, ev).actors[a] == s.actors[a]
  {
    if ev.Disk? && DiskEnabled(s, ev.disk) {
      DiskFrame(s, ev.disk);
    }
  }

  lemma {:induction false} EndKeepsGuests(s: Sys, evs: seq<Event>, a: ActorId)
    requires KeepsEnding(s, evs, a)
    ensures a < |s.actors| && Guests(Exec(s, evs).actors[a].pc) == Guests(s.actors[a].pc)
    ensures Exec(s, evs).actors[a].current == s.actors[a].current
    decreases |evs|
  {
    if evs != [] {
      var mid, ev := Exec(s, evs[..|evs| - 1]), evs[|evs| - 1];
      EndKeepsGuests(s, evs[..|evs| - 1], a);
      if ev.Client? && ev.a == a {
        if ActEnabled(mid, a, ev.act) {
          OwnActKeepsGuests(mid, a, ev.act);
        }
      } else {
        OthersKeepActor(mid, a, ev);
      }
    }
  }

  lemma AcceptedEnd(s: Sys, a: ActorId, token: Token)
    requires MayEndNow(s, a, token)
    ensures var s1 := Apply(s, Client(a, ActBeginEnd(token, 2)));
            && a < |s1.actors| && s1.actors[a].pc.EndBegun? && s1.actors[a].current == s.actors[a].current
            && Guests(s1.actors[a].pc) == Others(RoomOf(s, a), HoldingOf(s, a).peerId)
            && HoldingOf(s, a).room < |s1.reg.arena|
            && s1.reg.arena[HoldingOf(s, a).room] == RoomOf(s, a).(closing := true)
  {
  }

  /** What connection `c` is told at the confirmed end of a session of `r` by its host `p`. */
  ghost predicate HearsEnd(r: Room, p: PeerId, e: Effects, c: ConnId) {
    && Promised(e.broadcast, c) == (if IsOther(r, p, c) then [Ended(r.sessionId)] else [])
    && e.reply == Some(Ended(r.sessionId))
  }

  predicate IsConfirmed(s: Sys, a: ActorId) {
    ActEnabled(s, a, ActFinishEnd) && s.answers[s.actors[a].pc.ticket]
  }

  lemma EndIsHeardInRoom(r: Room, p: PeerId, connId: ConnId, token: Token, ops: seq<RoomOp>, c: ConnId)
    requires MayEnd(r, p, connId, token, 2)
    ensures HearsEnd(r, p, FinishEndSession(Run(r.(closing := true), ops), Others(r, p), true).effects, c)
  {
    var r1 := Run(r.(closing := true), ops);
    ClosingForever(r.(closing := true), ops);
    EndReaches(r, p, connId, token, ops, true, c);
    RunKeepsSession(r.(closing := true), ops);
    assert Step(r1, OpFinishEnd(Others(r, p), true)) == FinishEndSession(r1, Others(r, p), true);
  }

  lemma ConfirmedEnd(r: Room, p: PeerId, connId: ConnId, token: Token, ops: seq<RoomOp>, s: Sys, a: ActorId, c: ConnId)
    requires MayEnd(r, p, connId, token, 2) && IsConfirmed(s, a) && Guests(s.actors[a].pc) == Others(r, p)
    requires RoomOf(s, a) == Run(r.(closing := true), ops)
    ensures HearsEnd(r, p, EndOutcome(s, a).effects, c)
  {
    EndIsHeardInRoom(r, p, connId, token, ops, c);
  }

  /** If the end of connection `a` is confirmed in `s2`, `c` hears of it as of a session that looked like `s`. */
  ghost predicate EndIsHeard(s: Sys, s2: Sys, a: ActorId, c: ConnId) {
    IsSeated(s, a) && IsConfirmed(s2, a) ==>
      HearsEnd(RoomOf(s, a), HoldingOf(s, a).peerId, EndOutcome(s2, a).effects, c)
  }

  predicate MayEndNow(s: Sys, a: ActorId, token: Token) {
    IsPresent(s, a) && MayEnd(RoomOf(s, a), HoldingOf(s, a).peerId, HoldingOf(s, a).connId, token, 2)
  }

  /** When an accepted endSession of `a` is confirmed, every connection that was in the room when it began,
      `a` aside, is told `ended` once, and `a` by its reply, whatever happened meanwhile. */
  lemma EverybodyHearsTheEnd(s: Sys, a: ActorId, token: Token, evs: seq<Event>, c: ConnId)
    requires Inv(s) && MayEndNow(s, a, token)
    requires KeepsEnding(Apply(s, Client(a, ActBeginEnd(token, 2))), evs, a)
    ensures EndIsHeard(s, Exec(Apply(s, Client(a, ActBeginEnd(token, 2))), evs), a, c)
  {
    var h := HoldingOf(s, a);
    var s1 := Apply(s, Client(a, ActBeginEnd(token, 2)));
    var s2 := Exec(s1, evs);
    AcceptedEnd(s, a, token);
    EndKeepsGuests(s1, evs, a);
    StepInv(s, Client(a, ActBeginEnd(token, 2)));
    RelayRunsAreRoomRuns(s1, evs, h.room);
    if IsConfirmed(s2, a) {
      ConfirmedEnd(RoomOf(s, a), h.peerId, h.connId, token, History(s1, evs, h.room), s2, a, c);
    }
  }
}
