/** Who holds which seat, and which leaves are in flight. The invariant relates the connections'
    own notion of where they sit to the rooms; each lemma keeps it across one shape of change. */
module Seating {
  import opened Protocol
  import opened RoomSpec
  import opened RegistrySpec
  import opened System
  import opened Seats

  type Arena = seq<Room>
  type Actors = seq<Actor>
  type Lost = set<(RoomRef, ConnId)>

  predicate Leaving(pc: Pc) {
    pc.LeaveBegun? || pc.LeaveWaiting?
  }

  predicate HeldBy(actors: Actors, a: ActorId, ref: RoomRef, p: PeerId, c: ConnId) {
    a < |actors| && actors[a].current == Some(Holding(ref, p, c))
  }

  predicate LeaveBy(actors: Actors, a: ActorId, ref: RoomRef, p: PeerId) {
    a < |actors| && Leaving(actors[a].pc) && actors[a].current.Some?
    && actors[a].current.value.room == ref && actors[a].current.value.peerId == p
  }

  predicate HoldingOk(arena: Arena, lost: Lost, h: Holding) {
    h.room < |arena| && h.connId < arena[h.room].nextConnId && (h.room, h.connId) !in lost
  }

  /** Holdings name seats that were handed out, and no seat is held twice. */
  ghost predicate HoldingsOk(arena: Arena, actors: Actors, lost: Lost) {
    && (forall a :: 0 <= a < |actors| && actors[a].current.Some? ==> HoldingOk(arena, lost, actors[a].current.value))
    && (forall a, b :: 0 <= a < b < |actors| && actors[a].current.Some? && actors[b].current.Some? ==>
          actors[a].current.value.room != actors[b].current.value.room
              || actors[a].current.value.connId != actors[b].current.value.connId)
  }

  ghost predicate LostOk(arena: Arena, lost: Lost) {
    forall k :: k in lost ==> k.0 < |arena| && k.1 < arena[k.0].nextConnId
  }

  /** Every seat of a live room is held by a connection or was abandoned. */
  ghost predicate Attended(arena: Arena, actors: Actors, lost: Lost) {
    forall ref: RoomRef, p :: ref < |arena| && !arena[ref].closing && SeatOf(arena[ref], p).Some? ==>
      (ref, SeatOf(arena[ref], p).value) in lost || exists a :: HeldBy(actors, a, ref, p, SeatOf(arena[ref], p).value)
  }

  ghost predicate LeaveOk(arena: Arena, actor: Actor) {
    && actor.current.Some?
    && actor.current.value.room < |arena|
    && var h := actor.current.value;
       !arena[h.room].closing ==> SeatOf(arena[h.room], h.peerId) == Some(h.connId) && Pending(arena[h.room], h.peerId)
  }

  /** A leave in flight in a live room still owns its seat and its pending mark. */
  ghost predicate LeavesOk(arena: Arena, actors: Actors) {
    forall a :: 0 <= a < |actors| && Leaving(actors[a].pc) ==> LeaveOk(arena, actors[a])
  }

  /** A pending mark in a live room belongs to a leave in flight. */
  ghost predicate PendingOk(arena: Arena, actors: Actors) {
    forall ref: RoomRef, p :: ref < |arena| && !arena[ref].closing && Pending(arena[ref], p) ==>
        exists a :: LeaveBy(actors, a, ref, p)
  }

  ghost predicate SeatingOk(arena: Arena, actors: Actors, lost: Lost) {
    && HoldingsOk(arena, actors, lost)
    && LostOk(arena, lost)
    && Attended(arena, actors, lost)
    && LeavesOk(arena, actors)
    && PendingOk(arena, actors)
  }

  // ---------------------------------------------------------------- no seat changes

  lemma QuietSeating(arena: Arena, actors: Actors, lost: Lost, ref: RoomRef, r': Room)
    requires SeatingOk(arena, actors, lost) && ref < |arena| && Quiet(arena[ref], r')
    ensures SeatingOk(arena[ref := r'], actors, lost)
  {
    var arena' := arena[ref := r'];
    forall a | 0 <= a < |actors| && Leaving(actors[a].pc) ensures LeaveOk(arena', actors[a]) {
      assert LeaveOk(arena, actors[a]);
    }
    forall x: RoomRef, p | x < |arena'| && !arena'[x].closing && Pending(arena'[x], p)
        ensures exists a :: LeaveBy(actors, a, x, p) {
      assert Pending(arena[x], p);
    }
  }

  /** A connection moves on inside a message without changing seat or starting or ending a leave. */
  lemma PcSeating(arena: Arena, actors: Actors, lost: Lost, a: ActorId, actor: Actor)
    requires SeatingOk(arena, actors, lost) && a < |actors|
    requires actor.current == actors[a].current && Leaving(actor.pc) == Leaving(actors[a].pc)
    ensures SeatingOk(arena, actors[a := actor], lost)
  {
    var actors' := actors[a := actor];
    forall ref: RoomRef, p | ref < |arena| && !arena[ref].closing && SeatOf(arena[ref], p).Some?
      ensures (ref, SeatOf(arena[ref], p).value) in lost
                || exists b :: HeldBy(actors', b, ref, p, SeatOf(arena[ref], p).value)
    {
      var c := SeatOf(arena[ref], p).value;
      if (ref, c) !in lost {
        var b :| HeldBy(actors, b, ref, p, c);
        assert HeldBy(actors', b, ref, p, c);
      }
    }
    forall ref: RoomRef, p | ref < |arena| && !arena[ref].closing && Pending(arena[ref], p)
        ensures exists b :: LeaveBy(actors', b, ref, p) {
      var b :| LeaveBy(actors, b, ref, p);
      assert LeaveBy(actors', b, ref, p);
    }
  }

  lemma ConnectSeating(arena: Arena, actors: Actors, lost: Lost)
    requires SeatingOk(arena, actors, lost)
    ensures SeatingOk(arena, actors + [Actor(None, Idle)], lost)
  {
    var actors' := actors + [Actor(None, Idle)];
    forall ref: RoomRef, p | ref < |arena| && !arena[ref].closing && SeatOf(arena[ref], p).Some?
      ensures (ref, SeatOf(arena[ref], p).value) in lost
                || exists b :: HeldBy(actors', b, ref, p, SeatOf(arena[ref], p).value)
    {
      var c := SeatOf(arena[ref], p).value;
      if (ref, c) !in lost {
        var b :| HeldBy(actors, b, ref, p, c);
        assert HeldBy(actors', b, ref, p, c);
      }
    }
    forall ref: RoomRef, p | ref < |arena| && !arena[ref].closing && Pending(arena[ref], p)
        ensures exists b :: LeaveBy(actors', b, ref, p) {
      var b :| LeaveBy(actors, b, ref, p);
      assert LeaveBy(actors', b, ref, p);
    }
  }

  // ---------------------------------------------------------------- a room stops being live

  lemma ShutSeating(arena: Arena, actors: Actors, lost: Lost, ref: RoomRef, r': Room)
    requires SeatingOk(arena, actors, lost) && ref < |arena| && Shuts(arena[ref], r')
    ensures SeatingOk(arena[ref := r'], actors, lost)
  {
    var arena' := arena[ref := r'];
    forall a | 0 <= a < |actors| && Leaving(actors[a].pc) ensures LeaveOk(arena', actors[a]) {
      assert LeaveOk(arena, actors[a]);
    }
  }

  // ---------------------------------------------------------------- one connection changes seat

  /** A free connection takes a new seat. */
  lemma AdmitSeating(arena: Arena, actors: Actors, lost: Lost, a: ActorId, ref: RoomRef, r': Room, p: PeerId)
    requires SeatingOk(arena, actors, lost) && a < |actors| && actors[a].current.None?
    requires ref < |arena| && Admits(arena[ref], r', p)
    ensures SeatingOk(arena[ref := r'], actors[a := Actor(Some(Holding(ref, p, arena[ref].nextConnId)), Idle)], lost)
  {
    var arena' := arena[ref := r'];
    var actors' := actors[a := Actor(Some(Holding(ref, p, arena[ref].nextConnId)), Idle)];
    forall x: RoomRef, q | x < |arena'| && !arena'[x].closing && SeatOf(arena'[x], q).Some?
      ensures (x, SeatOf(arena'[x], q).value) in lost
                || exists b :: HeldBy(actors', b, x, q, SeatOf(arena'[x], q).value)
    {
      var c := SeatOf(arena'[x], q).value;
      if x == ref && q == p {
        assert HeldBy(actors', a, x, q, c);
      } else if (x, c) !in lost {
        assert SeatOf(arena[x], q) == Some(c);
        var b :| HeldBy(actors, b, x, q, c);
        assert HeldBy(actors', b, x, q, c);
      }
    }
    AdmitLeaves(arena, actors, lost, a, ref, r', p);
  }

  lemma AdmitLeaves(arena: Arena, actors: Actors, lost: Lost, a: ActorId, ref: RoomRef, r': Room, p: PeerId)
    requires LeavesOk(arena, actors) && PendingOk(arena, actors) && a < |actors| && actors[a].current.None?
    requires ref < |arena| && Admits(arena[ref], r', p)
    ensures LeavesOk(arena[ref := r'], actors[a := Actor(Some(Holding(ref, p, arena[ref].nextConnId)), Idle)])
    ensures PendingOk(arena[ref := r'], actors[a := Actor(Some(Holding(ref, p, arena[ref].nextConnId)), Idle)])
  {
    var arena' := arena[ref := r'];
    var actors' := actors[a := Actor(Some(Holding(ref, p, arena[ref].nextConnId)), Idle)];
    forall b | 0 <= b < |actors'| && Leaving(actors'[b].pc) ensures LeaveOk(arena', actors'[b]) {
      assert LeaveOk(arena, actors[b]);
    }
    forall x: RoomRef, q | x < |arena'| && !arena'[x].closing && Pending(arena'[x], q)
        ensures exists b :: LeaveBy(actors', b, x, q) {
      assert Pending(arena[x], q);
      var b :| LeaveBy(actors, b, x, q);
      assert LeaveBy(actors', b, x, q);
    }
  }

  /** The occupant's leave becomes pending. */
  lemma MarkSeating(arena: Arena, actors: Actors, lost: Lost, a: ActorId, r': Room)
    requires SeatingOk(arena, actors, lost) && a < |actors| && actors[a].current.Some? && !Leaving(actors[a].pc)
    requires var h := actors[a].current.value;
             h.room < |arena| && SeatOf(arena[h.room], h.peerId) == Some(h.connId)
                 && Marks(arena[h.room], r', h.peerId, true)
    ensures SeatingOk(arena[actors[a].current.value.room := r'], actors[a := actors[a].(pc := LeaveBegun)], lost)
  {
    var h := actors[a].current.value;
    var arena', actors' := arena[h.room := r'], actors[a := actors[a].(pc := LeaveBegun)];
    forall x: RoomRef, q | x < |arena'| && !arena'[x].closing && SeatOf(arena'[x], q).Some?
      ensures (x, SeatOf(arena'[x], q).value) in lost
                || exists b :: HeldBy(actors', b, x, q, SeatOf(arena'[x], q).value)
    {
      var c := SeatOf(arena'[x], q).value;
      if (x, c) !in lost {
        assert SeatOf(arena[x], q) == Some(c);
        var b :| HeldBy(actors, b, x, q, c);
        assert HeldBy(actors', b, x, q, c);
      }
    }
    forall b | 0 <= b < |actors'| && Leaving(actors'[b].pc) ensures LeaveOk(arena', actors'[b]) {
      assert b != a ==> LeaveOk(arena, actors[b]);
    }
    forall x: RoomRef, q | x < |arena'| && !arena'[x].closing && Pending(arena'[x], q)
        ensures exists b :: LeaveBy(actors', b, x, q) {
      if x == h.room && q == h.peerId {
        assert LeaveBy(actors', a, x, q);
      } else {
        var b :| LeaveBy(actors, b, x, q);
        assert LeaveBy(actors', b, x, q);
      }
    }
  }

  /** Two leaves in flight never meet on the same live seat. */
  lemma LeavesApart(arena: Arena, actors: Actors, lost: Lost, a: ActorId, b: ActorId)
    requires SeatingOk(arena, actors, lost) && a < |actors| && b < |actors| && a != b
    requires actors[a].current.Some? && Leaving(actors[b].pc)
    requires var h := actors[a].current.value;
             h.room < |arena| && !arena[h.room].closing && SeatOf(arena[h.room], h.peerId) == Some(h.connId)
    ensures actors[b].current.Some?
    ensures actors[b].current.value.room != actors[a].current.value.room
              || actors[b].current.value.peerId != actors[a].current.value.peerId
  {
    assert LeaveOk(arena, actors[b]);
  }

  /** The occupant's pending mark is rolled back. */
  lemma UnmarkSeating(arena: Arena, actors: Actors, lost: Lost, a: ActorId, r': Room)
    requires SeatingOk(arena, actors, lost) && a < |actors| && actors[a].current.Some?
    requires var h := actors[a].current.value;
             h.room < |arena| && SeatOf(arena[h.room], h.peerId) == Some(h.connId)
                 && Marks(arena[h.room], r', h.peerId, false)
    ensures SeatingOk(arena[actors[a].current.value.room := r'], actors[a := actors[a].(pc := Idle)], lost)
  {
    var h := actors[a].current.value;
    var arena', actors' := arena[h.room := r'], actors[a := actors[a].(pc := Idle)];
    forall x: RoomRef, q | x < |arena'| && !arena'[x].closing && SeatOf(arena'[x], q).Some?
      ensures (x, SeatOf(arena'[x], q).value) in lost
                || exists b :: HeldBy(actors', b, x, q, SeatOf(arena'[x], q).value)
    {
      var c := SeatOf(arena'[x], q).value;
      if (x, c) !in lost {
        assert SeatOf(arena[x], q) == Some(c);
        var b :| HeldBy(actors, b, x, q, c);
        assert HeldBy(actors', b, x, q, c);
      }
    }
    forall b | 0 <= b < |actors'| && Leaving(actors'[b].pc) ensures LeaveOk(arena', actors'[b]) {
      assert LeaveOk(arena, actors[b]);
      if !arena[h.room].closing {
        LeavesApart(arena, actors, lost, a, b);
      }
    }
    forall x: RoomRef, q | x < |arena'| && !arena'[x].closing && Pending(arena'[x], q)
        ensures exists b :: LeaveBy(actors', b, x, q) {
      assert Pending(arena[x], q);
      var b :| LeaveBy(actors, b, x, q);
      assert LeaveBy(actors', b, x, q);
    }
  }

  /** The occupant gives up its seat and the room hears of it. */
  lemma VacateSeating(arena: Arena, actors: Actors, lost: Lost, a: ActorId, r': Room, pc: Pc)
    requires SeatingOk(arena, actors, lost) && a < |actors| && actors[a].current.Some? && !Leaving(pc)
    requires var h := actors[a].current.value;
             h.room < |arena| && SeatOf(arena[h.room], h.peerId) == Some(h.connId)
                 && Vacates(arena[h.room], r', h.peerId)
    ensures SeatingOk(arena[actors[a].current.value.room := r'], actors[a := Actor(None, pc)], lost)
  {
    var h := actors[a].current.value;
    var arena', actors' := arena[h.room := r'], actors[a := Actor(None, pc)];
    forall x: RoomRef, q | x < |arena'| && !arena'[x].closing && SeatOf(arena'[x], q).Some?
      ensures (x, SeatOf(arena'[x], q).value) in lost
                || exists b :: HeldBy(actors', b, x, q, SeatOf(arena'[x], q).value)
    {
      var c := SeatOf(arena'[x], q).value;
      if (x, c) !in lost {
        assert SeatOf(arena[x], q) == Some(c);
        var b :| HeldBy(actors, b, x, q, c);
        assert HeldBy(actors', b, x, q, c);
      }
    }
    VacateLeaves(arena, actors, lost, a, r', pc);
  }

  lemma VacateLeaves(arena: Arena, actors: Actors, lost: Lost, a: ActorId, r': Room, pc: Pc)
    requires SeatingOk(arena, actors, lost) && a < |actors| && actors[a].current.Some? && !Leaving(pc)
    requires var h := actors[a].current.value;
             h.room < |arena| && SeatOf(arena[h.room], h.peerId) == Some(h.connId)
                 && Vacates(arena[h.room], r', h.peerId)
    ensures LeavesOk(arena[actors[a].current.value.room := r'], actors[a := Actor(None, pc)])
    ensures PendingOk(arena[actors[a].current.value.room := r'], actors[a := Actor(None, pc)])
  {
    var h := actors[a].current.value;
    var arena', actors' := arena[h.room := r'], actors[a := Actor(None, pc)];
    forall b | 0 <= b < |actors'| && Leaving(actors'[b].pc) ensures LeaveOk(arena', actors'[b]) {
      assert LeaveOk(arena, actors[b]);
      if !arena[h.room].closing {
        LeavesApart(arena, actors, lost, a, b);
      }
    }
    forall x: RoomRef, q | x < |arena'| && !arena'[x].closing && Pending(arena'[x], q)
        ensures exists b :: LeaveBy(actors', b, x, q) {
      assert Pending(arena[x], q);
      var b :| LeaveBy(actors, b, x, q);
      assert LeaveBy(actors', b, x, q);
    }
  }

  /** A connection forgets a seat that is no longer its own, or whose room is no longer live. */
  lemma ForgetSeating(arena: Arena, actors: Actors, lost: Lost, a: ActorId, pc: Pc)
    requires SeatingOk(arena, actors, lost) && a < |actors| && actors[a].current.Some? && !Leaving(pc)
    requires var h := actors[a].current.value;
             h.room < |arena| && (arena[h.room].closing || SeatOf(arena[h.room], h.peerId) != Some(h.connId))
    ensures SeatingOk(arena, actors[a := Actor(None, pc)], lost)
  {
    var h := actors[a].current.value;
    var actors' := actors[a := Actor(None, pc)];
    forall x: RoomRef, q | x < |arena| && !arena[x].closing && SeatOf(arena[x], q).Some?
      ensures (x, SeatOf(arena[x], q).value) in lost || exists b :: HeldBy(actors', b, x, q, SeatOf(arena[x], q).value)
    {
      var c := SeatOf(arena[x], q).value;
      if (x, c) !in lost {
        var b :| HeldBy(actors, b, x, q, c);
        assert HeldBy(actors', b, x, q, c);
      }
    }
    forall x: RoomRef, q | x < |arena| && !arena[x].closing && Pending(arena[x], q)
        ensures exists b :: LeaveBy(actors', b, x, q) {
      var b: ActorId :| LeaveBy(actors, b, x, q);
      assert LeaveOk(arena, actors[b]);
      assert LeaveBy(actors', b, x, q);
    }
  }

  /** A refused endSession: the connection forgets its seat while the room may still count it. */
  lemma AbandonSeating(arena: Arena, actors: Actors, lost: Lost, a: ActorId)
    requires SeatingOk(arena, actors, lost) && a < |actors| && actors[a].current.Some? && !Leaving(actors[a].pc)
    ensures var h := actors[a].current.value;
            SeatingOk(arena, actors[a := Actor(None, Idle)], lost + {(h.room, h.connId)})
  {
    var h := actors[a].current.value;
    var actors', lost' := actors[a := Actor(None, Idle)], lost + {(h.room, h.connId)};
    assert HoldingOk(arena, lost, h);
    forall x: RoomRef, q | x < |arena| && !arena[x].closing && SeatOf(arena[x], q).Some?
      ensures (x, SeatOf(arena[x], q).value) in lost' || exists b :: HeldBy(actors', b, x, q, SeatOf(arena[x], q).value)
    {
      var c := SeatOf(arena[x], q).value;
      if (x, c) !in lost' {
        var b :| HeldBy(actors, b, x, q, c);
        assert HeldBy(actors', b, x, q, c);
      }
    }
    forall x: RoomRef, q | x < |arena| && !arena[x].closing && Pending(arena[x], q)
        ensures exists b :: LeaveBy(actors', b, x, q) {
      var b :| LeaveBy(actors, b, x, q);
      assert LeaveBy(actors', b, x, q);
    }
  }

  /** A new room appears with its creator seated. */
  lemma NewRoomSeating(arena: Arena, actors: Actors, lost: Lost, a: ActorId, room: Room, p: PeerId)
    requires SeatingOk(arena, actors, lost) && a < |actors| && actors[a].current.None?
    requires room.nextConnId == 2 && room.reservations == map[] && forall q :: SeatOf(room, q) == if q == p then Some(1)
               else None
    ensures SeatingOk(arena + [room], actors[a := Actor(Some(Holding(|arena|, p, 1)), Idle)], lost)
  {
    var arena', actors' := arena + [room], actors[a := Actor(Some(Holding(|arena|, p, 1)), Idle)];
    forall x: RoomRef, q | x < |arena'| && !arena'[x].closing && SeatOf(arena'[x], q).Some?
      ensures (x, SeatOf(arena'[x], q).value) in lost
                || exists b :: HeldBy(actors', b, x, q, SeatOf(arena'[x], q).value)
    {
      var c := SeatOf(arena'[x], q).value;
      if x == |arena| {
        assert HeldBy(actors', a, x, q, c);
      } else if (x, c) !in lost {
        var b :| HeldBy(actors, b, x, q, c);
        assert HeldBy(actors', b, x, q, c);
      }
    }
    forall b | 0 <= b < |actors'| && Leaving(actors'[b].pc) ensures LeaveOk(arena', actors'[b]) {
      assert LeaveOk(arena, actors[b]);
    }
    forall x: RoomRef, q | x < |arena'| && !arena'[x].closing && Pending(arena'[x], q)
        ensures exists b :: LeaveBy(actors', b, x, q) {
      var b :| LeaveBy(actors, b, x, q);
      assert LeaveBy(actors', b, x, q);
    }
  }
}
