/** The registry as the mutable object behind the relay's locks (src/registry.rs). */
module Registry {
  import opened Protocol
  import opened HostTransfer
  import opened RoomSpec
  import opened Snapshot
  import opened RegistrySpec

  class RoomTable {
    var arena: seq<Room>
    var rooms: map<SessionId, RoomRef>
    var roomsPerIp: map<IpKey, nat>

    ghost function Value(): Reg
      reads this
    {
      Reg(arena, rooms, roomsPerIp)
    }

    ghost predicate Valid()
      reads this
    {
      TableWf(Value())
    }

    /** `new` followed by `restore`: rooms loaded at startup, in order. */
    constructor (restored: seq<RestoredRoom>)
      ensures Value() == RestoreAll(restored)
    {
      arena, rooms, roomsPerIp := [], map[], map[];
      new;
      for i := 0 to |restored|
        invariant Value() == RestoreAll(restored[..i])
      {
        var r := restored[i];
        var ref := |arena|;
        arena := arena + [Restore(r)];
        rooms := rooms[r.sessionId := ref];
        roomsPerIp := roomsPerIp["" := (if "" in roomsPerIp then roomsPerIp[""] else 0) + 1];
        assert restored[..i + 1][..i] == restored[..i];
      }
      assert restored[..|restored|] == restored;
    }

    method ReleaseRoomQuota(owner: IpKey)
      modifies this`roomsPerIp
      ensures Value() == ReleaseRoom(old(Value()), owner)
    {
      if owner in roomsPerIp {
        var count := roomsPerIp[owner];
        if count > 0 {
          count := count - 1;
          roomsPerIp := roomsPerIp[owner := count];
        }
        if count == 0 {
          roomsPerIp := roomsPerIp - {owner};
        }
      }
      assert roomsPerIp == ReleaseQuota(old(roomsPerIp), owner);
    }

    method TryClaimRoomQuota(owner: IpKey) returns (ok: bool)
      modifies this`roomsPerIp
      ensures ok <==> Count(old(roomsPerIp), owner) < MAX_ROOMS_PER_IP
      ensures roomsPerIp == if ok then ClaimQuota(old(roomsPerIp), owner) else old(roomsPerIp)
    {
      var count := if owner in roomsPerIp then roomsPerIp[owner] else 0;
      if count >= MAX_ROOMS_PER_IP {
        return false;
      }
      roomsPerIp := roomsPerIp[owner := count + 1];
      ok := true;
    }

    /** remove_if_current: the table entry goes only if it still points at this very object, and only
        then is the owner's slot released. */
    method RemoveIfCurrent(ref: RoomRef) returns (removed: bool)
      requires ref < |arena|
      modifies this`rooms, this`roomsPerIp
      ensures removed <==> IsCurrent(old(Value()), ref)
      ensures Value() == if removed then ReleaseRoom(UnmapRoom(old(Value()), ref), arena[ref].ownerIpKey)
                else old(Value())
    {
      var sid := arena[ref].sessionId;
      removed := false;
      if sid in rooms && rooms[sid] == ref {
        rooms := rooms - {sid};
        removed := true;
      }
      if removed {
        ReleaseRoomQuota(arena[ref].ownerIpKey);
      }
    }

    method Create(sid: SessionId, host: PeerId, token: Token, owner: IpKey, profile: Profile, wall: WallTime)
      returns (room: Option<RoomRef>, effects: Effects)
      requires Valid()
      modifies this
      ensures Valid()
      ensures var o := RegistrySpec.Create(old(Value()), sid, host, token, owner, profile, wall);
              Value() == o.reg && room == o.room && effects == o.effects
    {
      if token.verifier.None? {
        return None, Refusal(InvalidMessage);
      }
      if sid in rooms {
        var ref := rooms[sid];
        var existing := arena[ref];
        if !existing.closing && existing.hostPeerId == host && existing.hostVerifier == token.verifier.value {
          var o := ReconnectHost(existing, profile, token);
          arena := arena[ref := o.room];
          return Some(ref), o.effects;
        }
        if existing.closing || existing.peers != map[] {
          return None, Refusal(RoomExists);
        }
        arena := arena[ref := existing.(closing := true)];
        rooms := rooms - {sid};
        ReleaseRoomQuota(existing.ownerIpKey);
      }
      room, effects := InsertFresh(sid, host, token, owner, profile, wall);
    }

    method InsertFresh(sid: SessionId, host: PeerId, token: Token, owner: IpKey, profile: Profile, wall: WallTime)
      returns (room: Option<RoomRef>, effects: Effects)
      requires Valid() && token.verifier.Some?
      modifies this
      ensures Valid()
      ensures var o := CreateFresh(old(Value()), sid, host, token, owner, profile, wall);
              Value() == o.reg && room == o.room && effects == o.effects
    {
      if |rooms| >= MAX_RETAINED_ROOMS {
        return None, Refusal(RateLimited);
      }
      var claimed := TryClaimRoomQuota(owner);
      if !claimed {
        return None, Refusal(RateLimited);
      }
      var o := NewRoom(sid, host, token.verifier.value, token, owner, profile, wall);
      var ref := |arena|;
      arena := arena + [o.room];
      rooms := rooms[sid := ref];
      return Some(ref), o.effects;
    }

    /** build_snapshot without interleaving: one record per mapped room that is not closing, in some
        order, `order` being that order. */
    method BuildSnapshot(clock: Clock) returns (dtos: seq<RoomDto>, ghost order: seq<RoomRef>)
      requires Valid()
      ensures forall i :: 0 <= i < |order| ==> order[i] < |arena|
      ensures dtos == BuildAll(Pick(arena, order), clock)
      ensures forall ref: RoomRef :: ref in order <==> Maps(Value(), ref) && !arena[ref].closing
      ensures forall i, j :: 0 <= i < j < |order| ==> order[i] != order[j]
      ensures forall ref: RoomRef :: Maps(Value(), ref) && !arena[ref].closing ==>
                BuildRoomDto(arena[ref], clock) in dtos
    {
      dtos, order := [], [];
      var todo := rooms.Values;
      while todo != {}
        invariant todo <= rooms.Values
        invariant forall i :: 0 <= i < |order| ==> order[i] < |arena|
        invariant forall ref :: ref in order <==> ref in rooms.Values && ref !in todo && !arena[ref].closing
        invariant forall i, j :: 0 <= i < j < |order| ==> order[i] != order[j]
        invariant dtos == BuildAll(Pick(arena, order), clock)
        decreases |todo|
      {
        var ref :| ref in todo;
        if !arena[ref].closing {
          ghost var before := order;
          dtos := dtos + [BuildRoomDto(arena[ref], clock)];
          order := order + [ref];
          PickOneMore(arena, before, clock, ref);
          assert forall r :: r in order <==> r in before || r == ref;
        }
        todo := todo - {ref};
      }
      forall ref: RoomRef | Maps(Value(), ref) && !arena[ref].closing ensures BuildRoomDto(arena[ref], clock) in dtos {
        PickedIsBuilt(arena, order, clock, ref);
      }
    }
  }

  ghost function Pick(arena: seq<Room>, order: seq<RoomRef>): seq<Room>
    requires forall i :: 0 <= i < |order| ==> order[i] < |arena|
  {
    seq(|order|, i requires 0 <= i < |order| => arena[order[i]])
  }

  lemma PickOneMore(arena: seq<Room>, order: seq<RoomRef>, clock: Clock, ref: RoomRef)
    requires (forall i :: 0 <= i < |order| ==> order[i] < |arena|) && ref < |arena|
    ensures BuildAll(Pick(arena, order + [ref]), clock) == BuildAll(Pick(arena, order), clock)
              + [BuildRoomDto(arena[ref], clock)]
  {
  }

  lemma PickedIsBuilt(arena: seq<Room>, order: seq<RoomRef>, clock: Clock, ref: RoomRef)
    requires (forall i :: 0 <= i < |order| ==> order[i] < |arena|) && ref in order
    ensures ref < |arena| && BuildRoomDto(arena[ref], clock) in BuildAll(Pick(arena, order), clock)
  {
    var i :| 0 <= i < |order| && order[i] == ref;
    assert BuildAll(Pick(arena, order), clock)[i] == BuildRoomDto(arena[ref], clock);
  }

  /** Saving the whole registry and loading the file back restores every live room within the limits. */
  lemma RegistryRoundTrip(reg: Reg, order: seq<RoomRef>, saved: Clock, loaded: Clock)
    requires TableWf(reg)
    requires forall ref: RoomRef :: ref in order ==> Maps(reg, ref)
    requires forall i, j :: 0 <= i < j < |order| ==> order[i] != order[j]
    requires forall i :: 0 <= i < |order| ==> order[i] < |reg.arena| && Saveable(reg.arena[order[i]])
    ensures Load(Some(StateDto(SNAPSHOT_FORMAT_VERSION, BuildAll(Pick(reg.arena, order), saved))), loaded)
         == Survivors(Pick(reg.arena, order), saved, loaded)
  {
    var rooms := Pick(reg.arena, order);
    forall i, j | 0 <= i < j < |rooms| ensures rooms[i].sessionId != rooms[j].sessionId {
      assert Maps(reg, order[i]) && Maps(reg, order[j]);
    }
    SaveThenLoad(rooms, saved, loaded);
  }
}
