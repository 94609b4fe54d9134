/** Runs on which departures are confirmed: the laws about `left` and `ended` speak of runs that exist,
    for any names. */
module Witnesses {
  import opened Protocol
  import opened HostTransfer
  import opened RoomSpec
  import opened Snapshot
  import opened RegistrySpec
  import opened System
  import opened Runs
  import opened Progress
  import opened Exceptions

  // ---------------------------------------------------------------- a host ends the session

  function AskEnd(c: Cast): Event {
    Client(0, ActBeginEnd(c.token, RELAY_PROTOCOL_VERSION))
  }

  /** One open session held by connection 0, and a writer with nothing to do. */
  predicate JustOpen(c: Cast, s: Sys, sid: SessionId)
    requires CastOk(c)
  {
    && s.reg == Reg([Opened(c, sid)], map[sid := 0], map[c.owner := 1])
    && s.actors == [Actor(Some(Holding(0, c.host, 1)), Idle)]
    && s.queue == [] && s.phase == Ready && s.answers == map[]
  }

  lemma OpensOneSession(c: Cast, sid: SessionId)
    requires CastOk(c) && ValidSessionId(sid)
    ensures JustOpen(c, Exec(Boot([], []), Open(c, 0, sid)), sid)
  {
    Opens(c, Boot([], []), sid);
    FirstInsert(c, sid);
  }

  lemma EndIsAccepted(c: Cast, s: Sys, sid: SessionId)
    requires CastOk(c) && JustOpen(c, s, sid)
    ensures var s' := Apply(s, AskEnd(c));
            && |s'.actors| == 1 && s'.actors[0].pc.EndBegun? && s'.actors[0].current == Some(Holding(0, c.host, 1))
            && |s'.reg.arena| == 1 && s'.reg.arena[0].sessionId == sid
            && Undecided(s', 0)
  {
    assert MayEnd(RoomOf(s, 0), c.host, 1, c.token, RELAY_PROTOCOL_VERSION);
  }

  /** On a working disk the host of a fresh session that asks to end it is told `ended`. */
  lemma SomebodyEnds(c: Cast, sid: SessionId, clock: Clock) returns (evs: seq<Event>)
    requires CastOk(c) && ValidSessionId(sid)
    ensures evs != [] && ActEnabled(Eve(Boot([], []), evs), 0, ActFinishEnd)
    ensures EndOutcome(Eve(Boot([], []), evs), 0).effects.reply == Some(Ended(sid))
    ensures 0 in Exec(Boot([], []), evs).log.ended
  {
    var asked := Open(c, 0, sid) + [AskEnd(c)];
    OpensOneSession(c, sid);
    EndIsAccepted(c, Exec(Boot([], []), Open(c, 0, sid)), sid);
    AfterOne(Open(c, 0, sid), AskEnd(c));
    Reachable([], [], asked);
    var more, kept := EndFinishes(Exec(Boot([], []), asked), 0, true, clock);
    Glue(Boot([], []), asked, more);
    evs := asked + more;
  }

  lemma AfterOne(evs: seq<Event>, ev: Event)
    ensures Exec(Boot([], []), evs + [ev]) == Apply(Exec(Boot([], []), evs), ev)
  {
    ExecAppend(Boot([], []), evs, [ev]);
    ExecOne(Exec(Boot([], []), evs), ev);
  }

  lemma Glue(s: Sys, first: seq<Event>, second: seq<Event>)
    requires second != []
    ensures Exec(s, first + second) == Exec(Exec(s, first), second)
    ensures Eve(s, first + second) == Eve(Exec(s, first), second)
  {
    ExecAppend(s, first, second);
    GlueEve(s, first, second);
  }

  lemma GlueEve(s: Sys, first: seq<Event>, second: seq<Event>)
    requires second != []
    ensures Exec(s, (first + second)[..|first + second| - 1]) == Exec(Exec(s, first), second[..|second| - 1])
  {
    assert (first + second)[..|first + second| - 1] == first + second[..|second| - 1];
    ExecAppend(s, first, second[..|second| - 1]);
  }

  // ---------------------------------------------------------------- a guest leaves

  datatype Guest = Guest(peerId: PeerId, token: Token, profile: Profile)

  predicate GuestOk(c: Cast, g: Guest) {
    ValidPeerId(g.peerId) && g.peerId != c.host && g.token.verifier.Some?
  }

  function Find(g: Guest, sid: SessionId): Event {
    Client(1, ActFind(sid, g.peerId, g.token, RELAY_PROTOCOL_VERSION, g.profile, false))
  }

  const ENTER: Event := Client(1, ActJoin(0, 0))

  function AskLeave(g: Guest): Event {
    Client(1, ActBeginLeave(g.token, RELAY_PROTOCOL_VERSION))
  }

  /** The guest's connection has found the room. */
  predicate Found(c: Cast, g: Guest, s: Sys, sid: SessionId)
    requires CastOk(c)
  {
    && s.reg == Reg([Opened(c, sid)], map[sid := 0], map[c.owner := 1])
    && |s.actors| == 2 && s.actors[1] == Actor(None, Joining(0, g.peerId, g.token, g.profile, false))
    && s.queue == [] && s.phase == Ready && s.answers == map[]
  }

  /** The guest is in the room. */
  predicate Inside(g: Guest, s: Sys, sid: SessionId) {
    && |s.reg.arena| == 1 && s.reg.arena[0].sessionId == sid && !s.reg.arena[0].closing
        && s.reg.arena[0].hostPeerId != g.peerId
    && Occupies(s.reg.arena[0], g.peerId, 2)
    && g.peerId in s.reg.arena[0].reservations && !Pending(s.reg.arena[0], g.peerId)
    && Presents(g.token, s.reg.arena[0].reservations[g.peerId].verifier)
    && |s.actors| == 2 && s.actors[1] == Actor(Some(Holding(0, g.peerId, 2)), Idle)
    && s.queue == [] && s.phase == Ready && s.answers == map[]
  }

  lemma Finds(c: Cast, g: Guest, s: Sys, sid: SessionId)
    requires CastOk(c) && GuestOk(c, g) && ValidSessionId(sid) && JustOpen(c, s, sid)
    ensures Found(c, g, Apply(Apply(s, Connect), Find(g, sid)), sid)
  {
  }

  lemma Enters(c: Cast, g: Guest, s: Sys, sid: SessionId)
    requires CastOk(c) && GuestOk(c, g) && Found(c, g, s, sid)
    ensures Inside(g, Apply(s, ENTER), sid)
  {
    var r := Prune(s.reg.arena[0], 0);
    assert r == s.reg.arena[0];
    assert Authorized(r, g.peerId, g.token, false);
    assert |r.reservations| == 0;
  }

  lemma LeaveIsAccepted(g: Guest, s: Sys, sid: SessionId)
    requires Inside(g, s, sid) && g.token.verifier.Some?
    ensures var s' := Apply(s, AskLeave(g));
            && |s'.actors| == 2 && s'.actors[1].pc.LeaveBegun? && s'.actors[1].current == Some(Holding(0, g.peerId, 2))
            && |s'.reg.arena| == 1 && s'.reg.arena[0].sessionId == sid && !s'.reg.arena[0].closing
            && Undecided(s', 1)
  {
    assert MayLeave(s.reg.arena[0], g.peerId, 2, g.token, RELAY_PROTOCOL_VERSION);
  }

  lemma GuestAsksToLeave(c: Cast, g: Guest, sid: SessionId) returns (evs: seq<Event>)
    requires CastOk(c) && GuestOk(c, g) && ValidSessionId(sid)
    ensures var s := Exec(Boot([], []), evs);
            && |s.actors| == 2 && s.actors[1].pc.LeaveBegun? && s.actors[1].current == Some(Holding(0, g.peerId, 2))
            && |s.reg.arena| == 1 && s.reg.arena[0].sessionId == sid && !s.reg.arena[0].closing
            && Undecided(s, 1)
  {
    var open := Open(c, 0, sid);
    var s := Exec(Boot([], []), open);
    OpensOneSession(c, sid);
    Finds(c, g, s, sid);
    AfterOne(open, Connect);
    AfterOne(open + [Connect], Find(g, sid));
    var found := open + [Connect] + [Find(g, sid)];
    Enters(c, g, Exec(Boot([], []), found), sid);
    AfterOne(found, ENTER);
    LeaveIsAccepted(g, Exec(Boot([], []), found + [ENTER]), sid);
    AfterOne(found + [ENTER], AskLeave(g));
    evs := found + [ENTER] + [AskLeave(g)];
  }

  /** On a working disk a guest that joined a fresh session and asks to leave is told `left`. */
  lemma SomebodyLeaves(c: Cast, g: Guest, sid: SessionId, clock: Clock, wall: WallTime) returns (evs: seq<Event>)
    requires CastOk(c) && GuestOk(c, g) && ValidSessionId(sid)
    ensures evs != [] && RepliesLeft(Eve(Boot([], []), evs), 1, wall)
    ensures (0, g.peerId) in Exec(Boot([], []), evs).log.released
  {
    var asked := GuestAsksToLeave(c, g, sid);
    Reachable([], [], asked);
    var s := Exec(Boot([], []), asked);
    var more, kept := LeaveFinishes(s, 1, true, clock, wall);
    Glue(Boot([], []), asked, more);
    evs := asked + more;
    assert LeaveTold(s, Eve(s, more), 1, wall, true);
  }
}
