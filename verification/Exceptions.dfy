/** Runs on which a law fails, each showing that the condition in that law is needed: quota
    conservation without NoRace, and seat holding without the abandoned seats. The runs are spelled out
    for any names, so they are families of counterexamples. */
module Exceptions {
  import opened Protocol
  import opened HostTransfer
  import opened RoomSpec
  import opened RegistrySpec
  import opened System
  import opened Seats
  import opened Seating
  import opened CoreInvariant
  import opened Books
  import opened Runs

  const NEXT_DAY: WallTime := ROOM_MAX_AGE + 1

  /** Who plays: an address, a host name and the host's token. */
  datatype Cast = Cast(owner: IpKey, host: PeerId, token: Token, profile: Profile)

  predicate CastOk(c: Cast) {
    c.owner != "" && ValidPeerId(c.host) && c.token.verifier.Some?
  }

  function Opened(c: Cast, sid: SessionId): Room
    requires CastOk(c)
  {
    NewRoom(sid, c.host, c.token.verifier.value, c.token, c.owner, c.profile, 0).room
  }

  function CreateBy(c: Cast, a: ActorId, sid: SessionId): Event {
    Client(a, ActCreate(sid, c.host, c.token, RELAY_PROTOCOL_VERSION, c.owner, c.profile, 0))
  }

  /** Connection `a` arrives and creates a session. */
  function Open(c: Cast, a: ActorId, sid: SessionId): seq<Event> {
    [Connect, CreateBy(c, a, sid)]
  }

  // ---------------------------------------------------------------- running

  lemma ExecThree(s: Sys, e0: Event, e1: Event, e2: Event)
    ensures Exec(s, [e0, e1, e2]) == Apply(Apply(Apply(s, e0), e1), e2)
  {
    assert [e0, e1, e2] == [e0] + [e1, e2] && [e1, e2] == [e1] + [e2];
    ExecFirst(s, e0, [e1, e2]);
    ExecFirst(Apply(s, e0), e1, [e2]);
    ExecOne(Apply(Apply(s, e0), e1), e2);
  }

  // ---------------------------------------------------------------- opening sessions

  predicate HasRoom(c: Cast, s: Sys, sid: SessionId) {
    && TableWf(s.reg) && sid !in s.reg.table && ValidSessionId(sid)
    && |s.reg.table| < MAX_RETAINED_ROOMS && Count(s.reg.quota, c.owner) < MAX_ROOMS_PER_IP
  }

  /** What opening a session does. */
  ghost predicate Grew(c: Cast, s: Sys, s': Sys, sid: SessionId)
    requires CastOk(c)
  {
    && s'.reg == InsertRoom(s.reg, sid, Opened(c, sid), c.owner)
    && s'.actors == s.actors + [Actor(Some(Holding(|s.reg.arena|, c.host, 1)), Idle)]
    && s'.sweep == s.sweep && s'.queue == s.queue && s'.phase == s.phase && s'.answers == s.answers
  }

  lemma CreatesFresh(c: Cast, s: Sys, a: ActorId, sid: SessionId)
    requires CastOk(c) && HasRoom(c, s, sid) && IsFree(s, a)
    ensures var s' := Apply(s, CreateBy(c, a, sid));
            && s'.reg == InsertRoom(s.reg, sid, Opened(c, sid), c.owner)
            && s'.actors == s.actors[a := Actor(Some(Holding(|s.reg.arena|, c.host, 1)), Idle)]
            && s'.sweep == s.sweep && s'.queue == s.queue && s'.phase == s.phase && s'.answers == s.answers
  {
    assert ActEnabled(s, a, CreateBy(c, a, sid).act);
  }

  lemma Opens(c: Cast, s: Sys, sid: SessionId)
    requires CastOk(c) && HasRoom(c, s, sid)
    ensures Grew(c, s, Exec(s, Open(c, |s.actors|, sid)), sid)
  {
    var create := CreateBy(c, |s.actors|, sid);
    var joined := Apply(s, Connect);
    assert Open(c, |s.actors|, sid) == [Connect] + [create];
    ExecFirst(s, Connect, [create]);
    ExecOne(joined, create);
    CreatesFresh(c, joined, |s.actors|, sid);
  }

  // ---------------------------------------------------------------- the race

  /** The sweep and an endSession of connection 0 both remove room 0. */
  function Race(c: Cast): seq<Event> {
    [Clean(SweepStart(NEXT_DAY)), Client(0, ActBeginEnd(c.token, RELAY_PROTOCOL_VERSION)), Clean(SweepRoom(0, 0)),
        Clean(SweepUnmap),
     Client(0, ActUnmapEnd), Clean(SweepRelease), Client(0, ActReleaseEnd)]
  }

  /** Two sessions are open, the first held by connection 0. */
  predicate BothOpen(c: Cast, s: Sys, one: SessionId, two: SessionId)
    requires CastOk(c)
  {
    && one != two
    && s.reg == Reg([Opened(c, one), Opened(c, two)], map[one := 0, two := 1], map[c.owner := 2])
    && |s.actors| == 2 && s.actors[0] == Actor(Some(Holding(0, c.host, 1)), Idle)
    && s.sweep == Resting
  }

  /** The sweep is about to visit the first, which connection 0 is ending. */
  predicate BeingEnded(c: Cast, s: Sys, one: SessionId, two: SessionId)
    requires CastOk(c)
  {
    && one != two
    && s.reg == Reg([Opened(c, one).(closing := true), Opened(c, two)], map[one := 0, two := 1], map[c.owner := 2])
    && |s.actors| == 2 && s.actors[0].current == Some(Holding(0, c.host, 1)) && s.actors[0].pc.EndBegun?
    && s.sweep.Sweeping? && s.sweep.wall == NEXT_DAY && s.sweep.stage == Walking && 0 in s.sweep.todo
  }

  /** The sweep has taken it out of the table while the endSession is still under way. */
  predicate Contested(c: Cast, s: Sys, one: SessionId, two: SessionId)
    requires CastOk(c)
  {
    && one != two
    && |s.reg.arena| == 2 && s.reg.arena[0].sessionId == one && s.reg.arena[0].ownerIpKey == c.owner
        && s.reg.arena[1] == Opened(c, two)
    && s.reg.table == map[two := 1] && s.reg.quota == map[c.owner := 2]
    && |s.actors| == 2 && s.actors[0].current == Some(Holding(0, c.host, 1)) && s.actors[0].pc.EndBegun?
    && s.sweep.Sweeping? && s.sweep.stage == Unmapped(0)
  }

  /** Both removals have released a slot: the owner of the second session is charged for nothing. */
  predicate Undercharged(c: Cast, s: Sys, two: SessionId)
    requires CastOk(c)
  {
    && |s.reg.arena| == 2 && s.reg.arena[1] == Opened(c, two)
    && s.reg.table == map[two := 1] && s.reg.quota == map[]
    && |s.actors| == 2
  }

  lemma EndBegins(c: Cast, s: Sys, one: SessionId, two: SessionId)
    requires CastOk(c) && BothOpen(c, s, one, two)
    ensures BeingEnded(c, Apply(Apply(s, Race(c)[0]), Race(c)[1]), one, two)
  {
    var started := Apply(s, Race(c)[0]);
    assert s.reg.table[one] in s.reg.table.Values;
    assert MayEnd(RoomOf(started, 0), c.host, 1, c.token, RELAY_PROTOCOL_VERSION);
  }

  lemma SweepCloses(c: Cast, s: Sys, one: SessionId, two: SessionId)
    requires CastOk(c) && BeingEnded(c, s, one, two)
    ensures var s' := Apply(s, Race(c)[2]);
            && s'.reg.table == s.reg.table && s'.reg.quota == s.reg.quota && s'.actors == s.actors
            && |s'.reg.arena| == 2 && s'.reg.arena[0].sessionId == one && s'.reg.arena[0].ownerIpKey == c.owner
            && s'.reg.arena[1] == Opened(c, two)
            && s'.sweep.Sweeping? && s'.sweep.stage == Closed(0)
  {
    assert IsExpired(s.reg.arena[0], NEXT_DAY);
  }

  lemma SweepTakesIt(c: Cast, s: Sys, one: SessionId, two: SessionId)
    requires CastOk(c) && BeingEnded(c, s, one, two)
    ensures Contested(c, Apply(Apply(s, Race(c)[2]), Race(c)[3]), one, two)
  {
    SweepCloses(c, s, one, two);
    var closed := Apply(s, Race(c)[2]);
    assert IsCurrent(closed.reg, 0);
    assert closed.reg.table - {one} == map[two := 1];
  }

  lemma EndUnmapsNothing(c: Cast, s: Sys, one: SessionId, two: SessionId)
    requires CastOk(c) && Contested(c, s, one, two)
    ensures var s' := Apply(s, Race(c)[4]);
            && s'.reg == s.reg && s'.sweep == s.sweep && |s'.actors| == 2
            && s'.actors[0].current == s.actors[0].current && s'.actors[0].pc.EndUnmapped?
  {
  }

  lemma EndReleasesAgain(c: Cast, s: Sys, one: SessionId, two: SessionId)
    requires CastOk(c) && Contested(c, s, one, two)
    ensures Undercharged(c, Apply(Apply(Apply(s, Race(c)[4]), Race(c)[5]), Race(c)[6]), two)
  {
    EndUnmapsNothing(c, s, one, two);
    var released := Apply(Apply(s, Race(c)[4]), Race(c)[5]);
    assert released.reg.quota == map[c.owner := 1];
    assert map[c.owner := 1] - {c.owner} == map[];
  }

  lemma RaceRuns(c: Cast, s: Sys, one: SessionId, two: SessionId)
    requires CastOk(c) && BothOpen(c, s, one, two)
    ensures Undercharged(c, Exec(s, Race(c)), two)
  {
    var evs := Race(c);
    assert evs == [evs[0]] + ([evs[1], evs[2], evs[3]] + [evs[4], evs[5], evs[6]]);
    ExecFirst(s, evs[0], [evs[1], evs[2], evs[3]] + [evs[4], evs[5], evs[6]]);
    ExecAppend(Apply(s, evs[0]), [evs[1], evs[2], evs[3]], [evs[4], evs[5], evs[6]]);
    ExecThree(Apply(s, evs[0]), evs[1], evs[2], evs[3]);
    EndBegins(c, s, one, two);
    SweepTakesIt(c, Apply(Apply(s, evs[0]), evs[1]), one, two);
    var contested := Apply(Apply(Apply(Apply(s, evs[0]), evs[1]), evs[2]), evs[3]);
    ExecThree(contested, evs[4], evs[5], evs[6]);
    EndReleasesAgain(c, contested, one, two);
  }

  function Opening(c: Cast, one: SessionId, two: SessionId): seq<Event> {
    Open(c, 0, one) + Open(c, 1, two)
  }

  lemma FirstInsert(c: Cast, one: SessionId)
    requires CastOk(c)
    ensures InsertRoom(Reg([], map[], map[]), one, Opened(c, one), c.owner) == Reg([Opened(c, one)], map[one := 0],
              map[c.owner := 1])
  {
  }

  lemma SecondInsert(c: Cast, one: SessionId, two: SessionId)
    requires CastOk(c)
    ensures InsertRoom(Reg([Opened(c, one)], map[one := 0], map[c.owner := 1]), two, Opened(c, two), c.owner)
            == Reg([Opened(c, one), Opened(c, two)], map[one := 0, two := 1], map[c.owner := 2])
  {
  }

  lemma OpensBoth(c: Cast, one: SessionId, two: SessionId)
    requires CastOk(c) && ValidSessionId(one) && ValidSessionId(two) && one != two
    ensures BothOpen(c, Exec(Boot([], []), Opening(c, one, two)), one, two)
  {
    var start := Boot([], []);
    Opens(c, start, one);
    FirstInsert(c, one);
    var s := Exec(start, Open(c, 0, one));
    Opens(c, s, two);
    SecondInsert(c, one, two);
    ExecAppend(start, Open(c, 0, one), Open(c, 1, two));
  }

  function RacingRun(c: Cast, one: SessionId, two: SessionId): seq<Event> {
    Opening(c, one, two) + Race(c)
  }

  lemma RacingRunUndercharges(c: Cast, one: SessionId, two: SessionId)
    requires CastOk(c) && ValidSessionId(one) && ValidSessionId(two) && one != two
    ensures Undercharged(c, Exec(Boot([], []), RacingRun(c, one, two)), two)
  {
    OpensBoth(c, one, two);
    RaceRuns(c, Exec(Boot([], []), Opening(c, one, two)), one, two);
    ExecAppend(Boot([], []), Opening(c, one, two), Race(c));
  }

  /** Without NoRace the books do not balance: both removals of one room release a slot. */
  lemma RaceUnbalances(c: Cast, one: SessionId, two: SessionId)
    requires CastOk(c) && ValidSessionId(one) && ValidSessionId(two) && one != two
    ensures Balance(Exec(Boot([], []), RacingRun(c, one, two)), c.owner) > 0
  {
    RacingRunUndercharges(c, one, two);
    assert MappedBy(Exec(Boot([], []), RacingRun(c, one, two)).reg, c.owner) == {two};
  }

  // ---------------------------------------------------------------- four rooms at one address

  function OpenAll(c: Cast, a: ActorId, sids: seq<SessionId>): seq<Event>
    decreases |sids|
  {
    if sids == [] then [] else Open(c, a, sids[0]) + OpenAll(c, a + 1, sids[1..])
  }

  /** Names for sessions the table does not hold yet. */
  ghost predicate Unused(reg: Reg, sids: seq<SessionId>) {
    && (forall i :: 0 <= i < |sids| ==> ValidSessionId(sids[i]) && sids[i] !in reg.table)
    && (forall i, j :: 0 <= i < j < |sids| ==> sids[i] != sids[j])
  }

  lemma OpensOne(c: Cast, s: Sys, sid: SessionId)
    requires CastOk(c) && HasRoom(c, s, sid)
    ensures var s' := Exec(s, Open(c, |s.actors|, sid));
            && TableWf(s'.reg) && s'.reg.table.Keys == s.reg.table.Keys + {sid} && |s'.reg.table| == |s.reg.table| + 1
            && Count(s'.reg.quota, c.owner) == Count(s.reg.quota, c.owner) + 1
            && |MappedBy(s'.reg, c.owner)| == |MappedBy(s.reg, c.owner)| + 1
            && |s'.actors| == |s.actors| + 1
  {
    Opens(c, s, sid);
    MappedAfterInsert(s.reg, sid, Opened(c, sid), c.owner, c.owner);
    assert s.reg.table[sid := |s.reg.arena|].Keys == s.reg.table.Keys + {sid};
  }

  /** An address may open sessions until its counter, not its rooms, reaches the limit. */
  lemma {:induction false} OpensAll(c: Cast, s: Sys, sids: seq<SessionId>)
    requires CastOk(c) && TableWf(s.reg) && Unused(s.reg, sids)
    requires |s.reg.table| + |sids| <= MAX_RETAINED_ROOMS && Count(s.reg.quota, c.owner) + |sids| <= MAX_ROOMS_PER_IP
    ensures |MappedBy(Exec(s, OpenAll(c, |s.actors|, sids)).reg, c.owner)| == |MappedBy(s.reg, c.owner)| + |sids|
    decreases |sids|
  {
    if sids != [] {
      var s1 := Exec(s, Open(c, |s.actors|, sids[0]));
      OpensOne(c, s, sids[0]);
      OpensAll(c, s1, sids[1..]);
      ExecAppend(s, Open(c, |s.actors|, sids[0]), OpenAll(c, |s.actors| + 1, sids[1..]));
    }
  }

  /** Nor does the limit hold: after the race the same address can own four rooms at once. */
  lemma RaceBreaksTheLimit(c: Cast, sids: seq<SessionId>)
    requires CastOk(c) && |sids| == 5 && Unused(Reg([], map[], map[]), sids)
    ensures var evs := RacingRun(c, sids[0], sids[1]) + OpenAll(c, 2, sids[2..]);
            |MappedBy(Exec(Boot([], []), evs).reg, c.owner)| == MAX_ROOMS_PER_IP + 1
  {
    RacingRunUndercharges(c, sids[0], sids[1]);
    var s := Exec(Boot([], []), RacingRun(c, sids[0], sids[1]));
    assert MappedBy(s.reg, c.owner) == {sids[1]};
    OpensAll(c, s, sids[2..]);
    ExecAppend(Boot([], []), RacingRun(c, sids[0], sids[1]), OpenAll(c, 2, sids[2..]));
  }

  // ---------------------------------------------------------------- the refused endSession

  /** An endSession leaves the caller's seat in a live room taken; it is then held by no connection
      exactly when it was refused. */
  lemma RefusedEndOrphans(s: Sys, a: ActorId, token: Token, version: nat)
    requires Core(s) && ActEnabled(s, a, ActBeginEnd(token, version))
    requires !RoomOf(s, a).closing && SeatOf(RoomOf(s, a), HoldingOf(s, a).peerId) == Some(HoldingOf(s, a).connId)
    ensures var h := HoldingOf(s, a);
            var s' := Apply(s, Client(a, ActBeginEnd(token, version)));
            && h.room < |s'.reg.arena| && SeatOf(s'.reg.arena[h.room], h.peerId) == Some(h.connId)
            && ((forall b: ActorId :: !HeldBy(s'.actors, b, h.room, h.peerId, h.connId)) <==>
                  !MayEnd(RoomOf(s, a), h.peerId, h.connId, token, version))
  {
    var h := HoldingOf(s, a);
    var s' := Apply(s, Client(a, ActBeginEnd(token, version)));
    if MayEnd(RoomOf(s, a), h.peerId, h.connId, token, version) {
      assert HeldBy(s'.actors, a, h.room, h.peerId, h.connId);
    }
  }

  const MALFORMED: Act := ActBeginEnd(Token("", None), RELAY_PROTOCOL_VERSION)

  ghost predicate Orphaned(c: Cast, s: Sys) {
    && |s.reg.arena| == 1 && !s.reg.arena[0].closing && SeatOf(s.reg.arena[0], c.host) == Some(1)
    && forall b: ActorId :: !HeldBy(s.actors, b, 0, c.host, 1)
  }

  lemma MalformedOrphans(c: Cast, s: Sys, sid: SessionId)
    requires CastOk(c) && s.reg.arena == [Opened(c, sid)] && s.actors == [Actor(Some(Holding(0, c.host, 1)), Idle)]
    ensures Orphaned(c, Apply(s, Client(0, MALFORMED)))
  {
  }

  /** It happens: the host of a fresh room asks to end it with a malformed token. */
  lemma SeatWithoutHolder(c: Cast, sid: SessionId)
    requires CastOk(c) && ValidSessionId(sid)
    ensures Orphaned(c, Exec(Boot([], []), Open(c, 0, sid) + [Client(0, MALFORMED)]))
  {
    var s := Exec(Boot([], []), Open(c, 0, sid));
    Opens(c, Boot([], []), sid);
    FirstInsert(c, sid);
    MalformedOrphans(c, s, sid);
    ExecAppend(Boot([], []), Open(c, 0, sid), [Client(0, MALFORMED)]);
    ExecOne(s, Client(0, MALFORMED));
  }
}
