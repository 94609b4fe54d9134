/** Closing rooms and the session table. A room leaves the table only while closing, a closing room
    still in the table has somebody on the way to remove it, and removal never hits another room. */
module Closing {
  import opened Protocol
  import opened RoomSpec
  import opened RegistrySpec
  import opened System
  import opened Seating
  import opened CoreInvariant
  import opened Moves

  predicate EndsRoom(actors: Actors, a: ActorId, ref: RoomRef) {
    a < |actors| && actors[a].pc.EndBegun? && actors[a].current.Some? && actors[a].current.value.room == ref
  }

  /** Somebody has closed `ref` and is about to take it out of the table. */
  ghost predicate Remover(s: Sys, ref: RoomRef) {
    (exists a :: EndsRoom(s.actors, a, ref)) || (s.sweep.Sweeping? && s.sweep.stage == Closed(ref))
  }

  ghost predicate LiveMapped(reg: Reg) {
    forall ref :: 0 <= ref < |reg.arena| && !reg.arena[ref].closing ==> IsCurrent(reg, ref)
  }

  ghost predicate ClosingAttended(s: Sys) {
    forall ref :: 0 <= ref < |s.reg.arena| && s.reg.arena[ref].closing && IsCurrent(s.reg, ref) ==> Remover(s, ref)
  }

  ghost predicate SweepOk(s: Sys) {
    s.sweep.Sweeping? && !s.sweep.stage.Walking? ==>
        s.sweep.stage.room < |s.reg.arena| && s.reg.arena[s.sweep.stage.room].closing
  }

  ghost predicate ClosingOk(s: Sys) {
    LiveMapped(s.reg) && ClosingAttended(s) && SweepOk(s)
  }

  /** Removers of rooms other than `except` stay removers. */
  ghost predicate RemoversKept(s: Sys, s': Sys, except: set<RoomRef>) {
    forall x: RoomRef :: x !in except && Remover(s, x) ==> Remover(s', x)
  }

  lemma MovedKeepsCurrent(s: Sys, s': Sys, a: ActorId, ref: RoomRef, admitted: set<PeerId>, x: RoomRef)
    requires Moved(s, s', a, ref, admitted) && s'.reg.table == s.reg.table && x < |s.reg.arena|
    ensures IsCurrent(s'.reg, x) <==> IsCurrent(s.reg, x)
  {
  }

  /** A move that does not touch the table: whoever closes a room becomes its remover. */
  lemma MovedClosing(s: Sys, s': Sys, a: ActorId, ref: RoomRef, admitted: set<PeerId>)
    requires ClosingOk(s) && Moved(s, s', a, ref, admitted) && s'.reg.table == s.reg.table
    requires RemoversKept(s, s', {})
    requires !s.reg.arena[ref].closing && s'.reg.arena[ref].closing ==> Remover(s', ref)
    requires s'.sweep == s.sweep || SweepOk(s')
    ensures ClosingOk(s')
  {
    forall x | 0 <= x < |s'.reg.arena|
      ensures !s'.reg.arena[x].closing ==> IsCurrent(s'.reg, x)
      ensures s'.reg.arena[x].closing && IsCurrent(s'.reg, x) ==> Remover(s', x)
    {
      MovedKeepsCurrent(s, s', a, ref, admitted, x);
    }
  }

  /** A connection that was not removing a room changes. */
  lemma ActorKeepsRemovers(s: Sys, s': Sys, a: ActorId)
    requires OneActor(s.actors, s'.actors, a) && s'.sweep == s.sweep && (a < |s.actors| ==> !s.actors[a].pc.EndBegun?)
    ensures RemoversKept(s, s', {})
  {
    forall x: RoomRef | Remover(s, x) ensures Remover(s', x) {
      if b :| EndsRoom(s.actors, b, x) {
        assert EndsRoom(s'.actors, b, x);
      }
    }
  }

  // ---------------------------------------------------------------- removal

  /** The identity guard: only the table entry of this very room object can go. */
  lemma UnmapIsExact(reg: Reg, ref: RoomRef)
    requires ref < |reg.arena|
    ensures !IsCurrent(UnmapRoom(reg, ref), ref)
    ensures forall sid :: sid in reg.table && reg.table[sid] != ref ==>
              sid in UnmapRoom(reg, ref).table && UnmapRoom(reg, ref).table[sid] == reg.table[sid]
    ensures forall sid :: sid in UnmapRoom(reg, ref).table ==>
              sid in reg.table && UnmapRoom(reg, ref).table[sid] == reg.table[sid]
  {
  }

  /** Taking a closing room out of the table. */
  lemma UnmapClosing(s: Sys, s': Sys, ref: RoomRef)
    requires ClosingOk(s) && ref < |s.reg.arena| && s.reg.arena[ref].closing && s'.reg == UnmapRoom(s.reg, ref)
    requires RemoversKept(s, s', {ref}) && SweepOk(s')
    ensures ClosingOk(s')
  {
    UnmapIsExact(s.reg, ref);
    forall x | 0 <= x < |s'.reg.arena|
      ensures !s'.reg.arena[x].closing ==> IsCurrent(s'.reg, x)
      ensures s'.reg.arena[x].closing && IsCurrent(s'.reg, x) ==> Remover(s', x)
    {
    }
  }

  lemma UnmapEndClosing(s: Sys, a: ActorId)
    requires Core(s) && ClosingOk(s) && IsSeated(s, a) && s.actors[a].pc.EndBegun?
    ensures ClosingOk(DoUnmapEnd(s, a))
  {
    var s' := DoUnmapEnd(s, a);
    var ref := HoldingOf(s, a).room;
    assert PcOk(s.reg.arena, s.actors[a]);
    forall x: RoomRef | x != ref && Remover(s, x) ensures Remover(s', x) {
      if b :| EndsRoom(s.actors, b, x) {
        assert EndsRoom(s'.actors, b, x);
      }
    }
    UnmapClosing(s, s', ref);
  }

  lemma SweepUnmapClosing(s: Sys)
    requires ClosingOk(s) && s.sweep.Sweeping? && s.sweep.stage.Closed? && s.sweep.stage.room < |s.reg.arena|
    ensures ClosingOk(DoSweepUnmap(s))
  {
    UnmapClosing(s, DoSweepUnmap(s), s.sweep.stage.room);
  }

  lemma UnmapUnmaps(reg: Reg, ref: RoomRef)
    requires TableWf(reg) && ref < |reg.arena|
    ensures !Maps(UnmapRoom(reg, ref), ref)
  {
  }

  lemma EndRemoves(s: Sys, a: ActorId, ref: RoomRef)
    requires TableWf(s.reg) && ref < |s.reg.arena| && EndsRoom(s.actors, a, ref)
    ensures !Maps(Apply(s, Client(a, ActUnmapEnd)).reg, ref)
  {
    UnmapUnmaps(s.reg, ref);
  }

  lemma SweepRemoves(s: Sys, ref: RoomRef)
    requires TableWf(s.reg) && ref < |s.reg.arena| && s.sweep.Sweeping? && s.sweep.stage == Closed(ref)
    ensures !Maps(Apply(s, Clean(SweepUnmap)).reg, ref)
  {
    UnmapUnmaps(s.reg, ref);
  }

  lemma ClosingHasRemover(s: Sys, ref: RoomRef)
    requires TableWf(s.reg) && ClosingAttended(s) && ref < |s.reg.arena| && s.reg.arena[ref].closing && Maps(s.reg, ref)
    ensures Remover(s, ref)
  {
    assert IsCurrent(s.reg, ref);
  }

  /** A pending removal can always proceed, and then nothing in the table points at the room. */
  lemma RemovalProceeds(s: Sys, ref: RoomRef) returns (ev: Event)
    requires Core(s) && ClosingOk(s) && ref < |s.reg.arena| && s.reg.arena[ref].closing && Maps(s.reg, ref)
    ensures (ev.Client? && ev.act == ActUnmapEnd) || ev == Clean(SweepUnmap)
    ensures !Maps(Apply(s, ev).reg, ref)
  {
    ClosingHasRemover(s, ref);
    if a: ActorId :| EndsRoom(s.actors, a, ref) {
      ev := Client(a, ActUnmapEnd);
      EndRemoves(s, a, ref);
    } else {
      ev := Clean(SweepUnmap);
      SweepRemoves(s, ref);
    }
  }

  // ---------------------------------------------------------------- create

  /** A fresh room enters the table under a free session id. */
  lemma InsertClosing(s: Sys, s': Sys, sid: SessionId, room: Room, owner: IpKey)
    requires ClosingOk(s) && TableWf(s.reg) && sid !in s.reg.table && room.sessionId == sid && !room.closing
    requires s'.reg == InsertRoom(s.reg, sid, room, owner) && s'.sweep == s.sweep && RemoversKept(s, s', {})
    ensures ClosingOk(s')
  {
    forall x | 0 <= x < |s'.reg.arena|
      ensures !s'.reg.arena[x].closing ==> IsCurrent(s'.reg, x)
      ensures s'.reg.arena[x].closing && IsCurrent(s'.reg, x) ==> Remover(s', x)
    {
      if x < |s.reg.arena| {
        assert s'.reg.arena[x] == s.reg.arena[x];
        assert IsCurrent(s'.reg, x) ==> s.reg.arena[x].sessionId != sid;
      }
    }
  }

  /** Reclaiming closes the abandoned room and takes it out of the table in the same step. */
  lemma VacateClosing(s: Sys, sid: SessionId)
    requires ClosingOk(s) && TableWf(s.reg) && sid in s.reg.table && IsReclaimable(s.reg.arena[s.reg.table[sid]])
    ensures ClosingOk(s.(reg := Vacate(s.reg, sid)))
  {
    var ref := s.reg.table[sid];
    var s' := s.(reg := Vacate(s.reg, sid));
    forall x | 0 <= x < |s'.reg.arena|
      ensures !s'.reg.arena[x].closing ==> IsCurrent(s'.reg, x)
      ensures s'.reg.arena[x].closing && IsCurrent(s'.reg, x) ==> Remover(s', x)
    {
      assert x != ref ==> s'.reg.arena[x] == s.reg.arena[x];
      if x != ref && IsCurrent(s'.reg, x) && s'.reg.arena[x].closing {
        assert Remover(s, x);
      }
    }
  }
}
