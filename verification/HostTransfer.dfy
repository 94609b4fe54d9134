/** Host-transfer eligibility (src/host_transfer.rs). The executable rules walk a list of peers; the
    reference rules read a roster map. The lemmas show that the list's order never matters. */
module HostTransfer {
  import opened Protocol

  /** What a connection declared when it was admitted. */
  datatype Profile = Profile(syncProtocolVersion: int, hostTransferCapable: bool)

  datatype PeerInfo = PeerInfo(peerId: PeerId, profile: Profile)

  type Roster = map<PeerId, Profile>

  predicate IsFirst(peers: seq<PeerInfo>, id: PeerId, i: int) {
    0 <= i < |peers| && peers[i].peerId == id && forall j :: 0 <= j < i ==> peers[j].peerId != id
  }

  function Find(peers: seq<PeerInfo>, id: PeerId): (found: Option<Profile>)
    ensures found.None? <==> forall i :: 0 <= i < |peers| ==> peers[i].peerId != id
    ensures found.Some? ==> exists i :: IsFirst(peers, id, i) && peers[i] == PeerInfo(id, found.value)
  {
    if |peers| == 0 then None
    else if peers[0].peerId == id then
      assert IsFirst(peers, id, 0);
      Some(peers[0].profile)
    else
      var rest := Find(peers[1..], id);
      assert forall i :: IsFirst(peers[1..], id, i) ==> IsFirst(peers, id, i + 1) && peers[1..][i] == peers[i + 1];
      assert rest.None? ==> forall i :: 0 < i < |peers| ==> peers[i] == peers[1..][i - 1];
      rest
  }

  /** One peer's effect on a host declaring `host`: it blocks when its version is not positive, or
      when it shares the host's version without the capability. */
  predicate Compatible(host: Profile, other: Profile) {
    && other.syncProtocolVersion > 0
    && (other.syncProtocolVersion == host.syncProtocolVersion ==> other.hostTransferCapable)
  }

  predicate EligibleHost(host: PeerId, peers: seq<PeerInfo>) {
    match Find(peers, host)
    case None => false
    case Some(h) =>
      && h.syncProtocolVersion > 0
      && h.hostTransferCapable
      && forall i :: 0 <= i < |peers| ==> Compatible(h, peers[i].profile)
  }

  predicate IsValidTarget(host: PeerId, peers: seq<PeerInfo>, reserved: set<PeerId>, target: PeerId) {
    && target != host
    && EligibleHost(host, peers)
    && Find(peers, host).Some?
    && Find(peers, target).Some?
    && target in reserved
    && Find(peers, target).value.hostTransferCapable
    && Find(peers, target).value.syncProtocolVersion == Find(peers, host).value.syncProtocolVersion
  }

  function Ids(peers: seq<PeerInfo>): (ids: seq<PeerId>)
    ensures |ids| == |peers| && forall i :: 0 <= i < |ids| ==> ids[i] == peers[i].peerId
  {
    seq(|peers|, i requires 0 <= i < |peers| => peers[i].peerId)
  }

  lemma IdsAreMembers(peers: seq<PeerInfo>, id: PeerId)
    ensures id in Ids(peers) <==> exists p :: p in peers && p.peerId == id
  {
    if p :| p in peers && p.peerId == id {
      var i :| 0 <= i < |peers| && peers[i] == p;
      assert Ids(peers)[i] == id;
    }
    if i :| 0 <= i < |peers| && Ids(peers)[i] == id {
      assert peers[i] in peers;
    }
  }

  function Keep(peers: seq<PeerInfo>, wanted: PeerInfo -> bool): (kept: seq<PeerInfo>)
    ensures forall p :: p in kept <==> p in peers && wanted(p)
  {
    if |peers| == 0 then []
    else
      assert peers == [peers[0]] + peers[1..];
      (if wanted(peers[0]) then [peers[0]] else []) + Keep(peers[1..], wanted)
  }

  /** The eligibility notice: recipients and targets, or nothing when no peer declared the capability. */
  function ComputeEligibility(host: PeerId, peers: seq<PeerInfo>, reserved: set<PeerId>): Option<(seq<PeerId>,
                              seq<PeerId>)> {
    var recipients := Ids(Keep(peers, (p: PeerInfo) => p.profile.hostTransferCapable));
    if recipients == [] then None
    else Some((recipients, Ids(Keep(peers, (p: PeerInfo) => IsValidTarget(host, peers, reserved, p.peerId)))))
  }

  // ---------------------------------------------------------------- reference rules on a roster

  predicate CanOffer(host: PeerId, roster: Roster) {
    && host in roster
    && roster[host].syncProtocolVersion > 0
    && roster[host].hostTransferCapable
    && forall p :: p in roster ==> Compatible(roster[host], roster[p])
  }

  function ValidTargets(host: PeerId, roster: Roster, reserved: set<PeerId>): set<PeerId> {
    if !CanOffer(host, roster) then {}
    else set p | p in roster && p != host && p in reserved && roster[p] == roster[host]
  }

  function CapablePeers(roster: Roster): set<PeerId> {
    set p | p in roster && roster[p].hostTransferCapable
  }

  /** `peers` lists `roster`: every entry once, in some order. */
  ghost predicate Lists(peers: seq<PeerInfo>, roster: Roster) {
    && (forall i :: 0 <= i < |peers| ==> peers[i].peerId in roster && roster[peers[i].peerId] == peers[i].profile)
    && (forall p :: p in roster ==> PeerInfo(p, roster[p]) in peers)
    && (forall i, j :: 0 <= i < j < |peers| ==> peers[i].peerId != peers[j].peerId)
  }

  lemma FindInListing(peers: seq<PeerInfo>, roster: Roster, id: PeerId)
    requires Lists(peers, roster)
    ensures Find(peers, id) == if id in roster then Some(roster[id]) else None
  {
    if id in roster {
      assert PeerInfo(id, roster[id]) in peers;
    }
  }

  /** Eligibility read off any listing of the roster is eligibility of the roster. */
  lemma EligibilityIgnoresOrder(host: PeerId, peers: seq<PeerInfo>, roster: Roster)
    requires Lists(peers, roster)
    ensures EligibleHost(host, peers) <==> CanOffer(host, roster)
  {
    FindInListing(peers, roster, host);
    if host in roster {
      assert forall p :: p in roster ==> PeerInfo(p, roster[p]) in peers;
    }
  }

  lemma TargetIgnoresOrder(host: PeerId, peers: seq<PeerInfo>, roster: Roster, reserved: set<PeerId>, target: PeerId)
    requires Lists(peers, roster)
    ensures IsValidTarget(host, peers, reserved, target) <==> target in ValidTargets(host, roster, reserved)
  {
    EligibilityIgnoresOrder(host, peers, roster);
    FindInListing(peers, roster, host);
    FindInListing(peers, roster, target);
  }

  /** The notice computed from any listing: sent iff somebody is capable, to exactly the capable
      peers, naming exactly the valid targets. */
  lemma NoticeIgnoresOrder(host: PeerId, peers: seq<PeerInfo>, roster: Roster, reserved: set<PeerId>)
    requires Lists(peers, roster)
    ensures ComputeEligibility(host, peers, reserved).None? <==> CapablePeers(roster) == {}
    ensures ComputeEligibility(host, peers, reserved).Some? ==>
              var (recipients, targets) := ComputeEligibility(host, peers, reserved).value;
              && (set p | p in recipients) == CapablePeers(roster)
              && (set p | p in targets) == ValidTargets(host, roster, reserved)
  {
    var capable := Keep(peers, (p: PeerInfo) => p.profile.hostTransferCapable);
    var valid := Keep(peers, (p: PeerInfo) => IsValidTarget(host, peers, reserved, p.peerId));
    forall p ensures p in Ids(capable) <==> p in CapablePeers(roster) {
      IdsAreMembers(capable, p);
      if p in CapablePeers(roster) {
        assert PeerInfo(p, roster[p]) in capable;
      }
    }
    forall p ensures p in Ids(valid) <==> p in ValidTargets(host, roster, reserved) {
      TargetIgnoresOrder(host, peers, roster, reserved, p);
      IdsAreMembers(valid, p);
      if p in ValidTargets(host, roster, reserved) {
        assert PeerInfo(p, roster[p]) in valid;
      }
    }
    assert capable == [] <==> Ids(capable) == [];
    if CapablePeers(roster) != {} {
      var p :| p in CapablePeers(roster);
      assert p in Ids(capable);
    }
    if capable != [] {
      assert Ids(capable)[0] in CapablePeers(roster);
    }
  }

  /** Handing the host role to a valid target leaves host and targets the same group of peers. */
  lemma TransferGroupIsStable(host: PeerId, target: PeerId, roster: Roster, reserved: set<PeerId>)
    requires target in ValidTargets(host, roster, reserved)
    ensures {target} + ValidTargets(target, roster, reserved - {target} + {host})
         == {host} + ValidTargets(host, roster, reserved)
  {
    assert CanOffer(target, roster);
  }
}
