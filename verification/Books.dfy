/** The per-owner room counters. `Balance` is what the counter should be, rooms in the table plus
    releases still owed by removers in flight, minus what it is. Every event keeps it, except the
    release of an endSession that found its room already gone. */
module Books {
  import opened Protocol
  import opened RoomSpec
  import opened RegistrySpec
  import opened System
  import opened Seating
  import opened CoreInvariant
  import opened Moves
  import opened Closing

  /** Sessions in the table whose room belongs to `k`. */
  function MappedBy(reg: Reg, k: IpKey): set<SessionId> {
    set sid | sid in reg.table && reg.table[sid] < |reg.arena| && reg.arena[reg.table[sid]].ownerIpKey == k
  }

  predicate Owes(arena: Arena, actor: Actor, k: IpKey) {
    actor.pc.EndUnmapped? && actor.pc.removed && actor.current.Some? && actor.current.value.room < |arena|
    && arena[actor.current.value.room].ownerIpKey == k
  }

  /** Connections that took a room of `k` out of the table and have yet to release its slot. */
  function OwedBy(arena: Arena, actors: Actors, k: IpKey): set<ActorId> {
    set a: ActorId | 0 <= a < |actors| && Owes(arena, actors[a], k)
  }

  function OwedBySweep(s: Sys, k: IpKey): nat {
    if s.sweep.Sweeping? && s.sweep.stage.Unmapped? && s.sweep.stage.room < |s.reg.arena|
       && s.reg.arena[s.sweep.stage.room].ownerIpKey == k then 1 else 0
  }

  function Balance(s: Sys, k: IpKey): int {
    |MappedBy(s.reg, k)| + |OwedBy(s.reg.arena, s.actors, k)| + OwedBySweep(s, k) - Count(s.reg.quota, k)
  }

  /** A balance moves up by at most `d`, and by exactly `d` from zero. */
  predicate Shifts(before: int, after: int, d: int) {
    after <= before + d && (before == 0 ==> after == d)
  }

  ghost predicate Conserved(s: Sys) {
    forall k :: Balance(s, k) == 0
  }

  // ---------------------------------------------------------------- counting

  lemma CountAfterRelease(quota: map<IpKey, nat>, owner: IpKey, k: IpKey)
    ensures Count(ReleaseQuota(quota, owner), k) == Count(quota, k) - if k == owner && Count(quota, k) > 0 then 1 else 0
  {
  }

  /** Two sets that differ at most in `x`. */
  lemma Toggle<T>(before: set<T>, after: set<T>, x: T)
    requires before - {x} == after - {x}
    ensures |after| == |before| - (if x in before then 1 else 0) + (if x in after then 1 else 0)
  {
    assert x in before ==> before == (before - {x}) + {x};
    assert x !in before ==> before == before - {x};
    assert x in after ==> after == (after - {x}) + {x};
    assert x !in after ==> after == after - {x};
  }

  lemma MappedAfterUnmap(reg: Reg, ref: RoomRef, k: IpKey)
    requires TableWf(reg) && ref < |reg.arena|
    ensures |MappedBy(UnmapRoom(reg, ref), k)|
         == |MappedBy(reg, k)| - if IsCurrent(reg, ref) && reg.arena[ref].ownerIpKey == k then 1 else 0
  {
    Toggle(MappedBy(reg, k), MappedBy(UnmapRoom(reg, ref), k), reg.arena[ref].sessionId);
  }

  lemma OwedAfter(arena: Arena, actors: Actors, a: ActorId, actor: Actor, k: IpKey)
    requires a < |actors|
    ensures |OwedBy(arena, actors[a := actor], k)|
         == |OwedBy(arena, actors, k)| - (if Owes(arena, actors[a], k) then 1 else 0) + (if Owes(arena, actor, k) then 1
             else 0)
  {
    Toggle(OwedBy(arena, actors, k), OwedBy(arena, actors[a := actor], k), a);
  }

  // ---------------------------------------------------------------- events that keep the books

  /** Rooms and connections may move as long as no owner, table entry, counter or debt changes. */
  lemma QuietBooks(s: Sys, s': Sys, k: IpKey)
    requires s'.reg.table == s.reg.table && s'.reg.quota == s.reg.quota
    requires |s.reg.arena| == |s'.reg.arena|
    requires forall x :: 0 <= x < |s.reg.arena| ==> s'.reg.arena[x].ownerIpKey == s.reg.arena[x].ownerIpKey
    requires OwedBy(s'.reg.arena, s'.actors, k) == OwedBy(s.reg.arena, s.actors, k)
    requires OwedBySweep(s', k) == OwedBySweep(s, k)
    ensures Balance(s', k) == Balance(s, k)
  {
    assert MappedBy(s'.reg, k) == MappedBy(s.reg, k);
  }

  lemma MovedBooks(s: Sys, s': Sys, a: ActorId, ref: RoomRef, admitted: set<PeerId>, k: IpKey)
    requires Moved(s, s', a, ref, admitted) && s'.reg.table == s.reg.table && s'.reg.quota == s.reg.quota
    requires a < |s.actors| ==> !s.actors[a].pc.EndUnmapped? && !s'.actors[a].pc.EndUnmapped?
    requires s'.sweep == s.sweep || (OwedBySweep(s, k) == 0 && OwedBySweep(s', k) == 0)
    ensures Balance(s', k) == Balance(s, k)
  {
    assert OwedBy(s'.reg.arena, s'.actors, k) == OwedBy(s.reg.arena, s.actors, k);
    QuietBooks(s, s', k);
  }

  lemma ActorBooks(s: Sys, s': Sys, a: ActorId, actor: Actor, k: IpKey)
    requires a < |s.actors| && s'.reg == s.reg && s'.actors == s.actors[a := actor] && s'.sweep == s.sweep
    requires Owes(s.reg.arena, actor, k) == Owes(s.reg.arena, s.actors[a], k)
    ensures Balance(s', k) == Balance(s, k)
  {
    OwedAfter(s.reg.arena, s.actors, a, actor, k);
  }

  lemma UnmapEndBooks(s: Sys, a: ActorId, k: IpKey)
    requires TableWf(s.reg) && IsSeated(s, a) && s.actors[a].pc.EndBegun?
    ensures Balance(DoUnmapEnd(s, a), k) == Balance(s, k)
  {
    MappedAfterUnmap(s.reg, HoldingOf(s, a).room, k);
    OwedAfter(s.reg.arena, s.actors, a, DoUnmapEnd(s, a).actors[a], k);
  }

  lemma SweepUnmapBooks(s: Sys, k: IpKey)
    requires TableWf(s.reg) && s.sweep.Sweeping? && s.sweep.stage.Closed? && s.sweep.stage.room < |s.reg.arena|
    ensures Balance(DoSweepUnmap(s), k) == Balance(s, k)
  {
    MappedAfterUnmap(s.reg, s.sweep.stage.room, k);
  }

  /** A sweep's release always has a slot to release while the books balance. */
  lemma SweepReleaseBooks(s: Sys, k: IpKey)
    requires s.sweep.Sweeping? && s.sweep.stage.Unmapped? && s.sweep.stage.room < |s.reg.arena|
    ensures Shifts(Balance(s, k), Balance(DoSweepRelease(s), k), 0)
  {
    CountAfterRelease(s.reg.quota, s.reg.arena[s.sweep.stage.room].ownerIpKey, k);
  }

  /** An endSession's release balances iff it removed the room itself, or the counter is already zero. */
  lemma ReleaseEndBooks(s: Sys, a: ActorId, k: IpKey)
    requires IsSeated(s, a) && s.actors[a].pc.EndUnmapped?
    ensures Shifts(Balance(s, k), Balance(DoReleaseEnd(s, a), k),
                   if !s.actors[a].pc.removed && RoomOf(s, a).ownerIpKey == k && Count(s.reg.quota, k) > 0 then 1
                       else 0)
  {
    CountAfterRelease(s.reg.quota, RoomOf(s, a).ownerIpKey, k);
    OwedAfter(s.reg.arena, s.actors, a, DoReleaseEnd(s, a).actors[a], k);
    if Owes(s.reg.arena, s.actors[a], k) {
      assert a in OwedBy(s.reg.arena, s.actors, k);
    }
  }

  lemma VacateIsUnmap(reg: Reg, sid: SessionId, k: IpKey)
    requires TableWf(reg) && sid in reg.table
    ensures MappedBy(Vacate(reg, sid), k) == MappedBy(UnmapRoom(reg, reg.table[sid]), k)
  {
  }

  lemma VacateOwes(s: Sys, sid: SessionId, k: IpKey)
    requires TableWf(s.reg) && sid in s.reg.table
    ensures var s' := s.(reg := Vacate(s.reg, sid));
            && OwedBy(s'.reg.arena, s'.actors, k) == OwedBy(s.reg.arena, s.actors, k)
            && OwedBySweep(s', k) == OwedBySweep(s, k)
  {
  }

  lemma VacateBooks(s: Sys, sid: SessionId, k: IpKey)
    requires TableWf(s.reg) && sid in s.reg.table
    ensures Shifts(Balance(s, k), Balance(s.(reg := Vacate(s.reg, sid)), k), 0)
  {
    var ref := s.reg.table[sid];
    var s' := s.(reg := Vacate(s.reg, sid));
    MappedAfterUnmap(s.reg, ref, k);
    VacateIsUnmap(s.reg, sid, k);
    VacateOwes(s, sid, k);
    CountAfterRelease(s.reg.quota, s.reg.arena[ref].ownerIpKey, k);
    assert s.reg.arena[ref].ownerIpKey == k ==> sid in MappedBy(s.reg, k);
  }

  lemma MappedAfterInsert(reg: Reg, sid: SessionId, room: Room, owner: IpKey, k: IpKey)
    requires TableWf(reg) && sid !in reg.table && room.ownerIpKey == owner
    ensures |MappedBy(InsertRoom(reg, sid, room, owner), k)| == |MappedBy(reg, k)| + if k == owner then 1 else 0
  {
    Toggle(MappedBy(reg, k), MappedBy(InsertRoom(reg, sid, room, owner), k), sid);
  }

  lemma InsertBooks(s: Sys, a: ActorId, sid: SessionId, p: PeerId, room: Room, owner: IpKey, k: IpKey)
    requires Core(s) && SweepOk(s) && IsFree(s, a) && sid !in s.reg.table && room.ownerIpKey == owner
    ensures Balance(Inserted(s, a, sid, p, room, owner), k) == Balance(s, k)
  {
    MappedAfterInsert(s.reg, sid, room, owner, k);
    OwedGrows(s, room, a, Actor(Some(Holding(|s.reg.arena|, p, 1)), Idle), k);
  }

  /** A growing arena and a connection that owes nothing leave the debts as they are. */
  lemma OwedGrows(s: Sys, room: Room, a: ActorId, actor: Actor, k: IpKey)
    requires Core(s) && a < |s.actors| && !s.actors[a].pc.EndUnmapped? && !actor.pc.EndUnmapped?
    ensures OwedBy(s.reg.arena + [room], s.actors[a := actor], k) == OwedBy(s.reg.arena, s.actors, k)
  {
    forall b: ActorId | b < |s.actors|
      ensures Owes(s.reg.arena + [room], s.actors[a := actor][b], k) <==> Owes(s.reg.arena, s.actors[b], k)
    {
      assert PcOk(s.reg.arena, s.actors[b]);
    }
  }

  // ---------------------------------------------------------------- who races

  /** The sweep takes a room out of the table between its begin_end_session and its table removal. */
  ghost predicate Races(s: Sys, ev: Event) {
    ev == Clean(SweepUnmap) && SweepEnabled(s, SweepUnmap) && IsCurrent(s.reg, s.sweep.stage.room)
    && exists a :: EndsRoom(s.actors, a, s.sweep.stage.room)
  }

  /** A release for a room that somebody else already removed, hitting a counter that is not zero. */
  predicate Overcharges(s: Sys, ev: Event) {
    ev.Client? && ev.act == ActReleaseEnd && ActEnabled(s, ev.a, ActReleaseEnd)
    && !s.actors[ev.a].pc.removed && Count(s.reg.quota, RoomOf(s, ev.a).ownerIpKey) > 0
  }

  /** No endSession in flight has lost its room to the sweep. */
  ghost predicate Unraced(s: Sys) {
    && (forall a :: 0 <= a < |s.actors| && s.actors[a].pc.EndBegun? && IsSeated(s, a) ==>
        IsCurrent(s.reg, HoldingOf(s, a).room))
    && (forall a :: 0 <= a < |s.actors| && s.actors[a].pc.EndUnmapped? ==> s.actors[a].pc.removed)
  }

  /** A room is ended by at most one connection. */
  ghost predicate OneEnder(s: Sys) {
    forall a, b :: 0 <= a < b < |s.actors| && Ending(s.actors[a].pc) && Ending(s.actors[b].pc)
                   && s.actors[a].current.Some? && s.actors[b].current.Some? ==>
                     s.actors[a].current.value.room != s.actors[b].current.value.room
  }

  /** No key but the startup key ever exceeds three. */
  ghost predicate Capped(quota: map<IpKey, nat>) {
    forall k :: k != "" ==> Count(quota, k) <= MAX_ROOMS_PER_IP
  }
}
