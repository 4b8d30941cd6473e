/**
 The validator set (src/chain/context/peer_set.rs, src/chain/context/peer.rs) and the quorum arithmetic
 that consensus builds on it. The thresholds are the library's defaults: a quorum holds more than 2/3 of
 the total voting power, a skip threshold more than 1/3.
 */
module PeerSets {
  import opened Options

  const BASE_VOTING_POWER: nat := 1

  datatype BasePeer = BasePeer(id: nat) {
    function VotingPower(): nat { BASE_VOTING_POWER }
  }

  datatype PeerSet = PeerSet(peers: seq<BasePeer>) {
    function Count(): nat { |peers| }

    function TotalVotingPower(): nat { Count() }

    /** The first peer with the given address, if there is one. */
    function GetByAddress(address: nat): (r: Option<BasePeer>)
      ensures r.None? <==> forall p :: p in peers ==> p.id != address
      ensures r.Some? ==> r.value in peers && r.value.id == address
    {
      FindFrom(address, 0)
    }

    function FindFrom(address: nat, from: nat): (r: Option<BasePeer>)
      requires from <= |peers|
      ensures r.None? <==> forall p :: p in peers[from..] ==> p.id != address
      ensures r.Some? ==> r.value in peers && r.value.id == address
      decreases |peers| - from
    {
      if from == |peers| then None
      else if peers[from].id == address then Some(peers[from])
      else
        assert peers[from..] == [peers[from]] + peers[from + 1..];
        FindFrom(address, from + 1)
    }
  }

  /** The set `BasePeerSet::new` builds: peers 0, 1, ..., size - 1, in this order. */
  function Numbered(size: nat): PeerSet {
    PeerSet(seq(size, i requires 0 <= i => BasePeer(i)))
  }

  method NewPeerSet(size: nat) returns (vs: PeerSet)
    ensures vs == Numbered(size)
    ensures vs.TotalVotingPower() == size
    ensures forall i :: 0 <= i < size ==> vs.GetByAddress(i) == Some(BasePeer(i))
  {
    var peers := [];
    for i := 0 to size
      invariant peers == seq(i, j requires 0 <= j => BasePeer(j))
    {
      peers := peers + [BasePeer(i)];
    }
    vs := PeerSet(peers);
    forall i | 0 <= i < size ensures vs.GetByAddress(i) == Some(BasePeer(i)) {
      assert peers[i] == BasePeer(i);
    }
  }

  /** The voting power that the peers in `members` hold together. */
  function PowerOf(peers: seq<BasePeer>, members: set<nat>): nat {
    if peers == [] then 0
    else
      var last := peers[|peers| - 1];
      PowerOf(peers[..|peers| - 1], members) + if last.id in members then last.VotingPower() else 0
  }

  function SumOfPowers(peers: seq<BasePeer>): nat {
    if peers == [] then 0 else SumOfPowers(peers[..|peers| - 1]) + peers[|peers| - 1].VotingPower()
  }

  predicate IsQuorum(vs: PeerSet, members: set<nat>) {
    3 * PowerOf(vs.peers, members) > 2 * vs.TotalVotingPower()
  }

  predicate ExceedsThird(vs: PeerSet, members: set<nat>) {
    3 * PowerOf(vs.peers, members) > vs.TotalVotingPower()
  }

  /** Reporting the number of peers as the total power is right: it is the sum of the single powers. */
  lemma {:induction false} TotalPowerIsSum(vs: PeerSet)
    ensures vs.TotalVotingPower() == SumOfPowers(vs.peers)
    decreases |vs.peers|
  {
    if vs.peers != [] {
      TotalPowerIsSum(PeerSet(vs.peers[..|vs.peers| - 1]));
    }
  }

  lemma {:induction false} PowerMonotone(peers: seq<BasePeer>, a: set<nat>, b: set<nat>)
    requires forall p :: p in peers && p.id in a ==> p.id in b
    ensures PowerOf(peers, a) <= PowerOf(peers, b)
  {
    if peers != [] {
      PowerMonotone(peers[..|peers| - 1], a, b);
    }
  }

  lemma {:induction false} PowerOfAll(peers: seq<BasePeer>, members: set<nat>)
    requires forall p :: p in peers ==> p.id in members
    ensures PowerOf(peers, members) == |peers|
  {
    if peers != [] {
      PowerOfAll(peers[..|peers| - 1], members);
    }
  }

  lemma {:induction false} PowerOverlap(peers: seq<BasePeer>, a: set<nat>, b: set<nat>)
    ensures PowerOf(peers, a) + PowerOf(peers, b) <= |peers| + PowerOf(peers, a * b)
  {
    if peers != [] {
      PowerOverlap(peers[..|peers| - 1], a, b);
    }
  }

  lemma {:induction false} PowerHasMember(peers: seq<BasePeer>, a: set<nat>, b: set<nat>) returns (c: nat)
    requires PowerOf(peers, a) > PowerOf(peers, b)
    ensures c in a && c !in b && BasePeer(c) in peers
  {
    var last := peers[|peers| - 1];
    if last.id in a && last.id !in b {
      c := last.id;
    } else {
      c := PowerHasMember(peers[..|peers| - 1], a, b);
    }
  }

  /** The members that are peers of the set of `n`. */
  function MembersBelow(n: nat, members: set<nat>): set<nat> {
    set i: nat | i < n && i in members
  }

  lemma {:induction false} PowerIsCount(n: nat, members: set<nat>)
    ensures PowerOf(Numbered(n).peers, members) == |MembersBelow(n, members)|
  {
    if n == 0 {
      assert MembersBelow(0, members) == {};
    } else {
      PowerIsCount(n - 1, members);
      assert Numbered(n).peers[..n - 1] == Numbered(n - 1).peers;
      var rest := MembersBelow(n - 1, members);
      assert MembersBelow(n, members) == if n - 1 in members then rest + {n - 1} else rest;
    }
  }

  /** Thresholds by head count: a quorum is more than two thirds of the peers, a skip more than one third. */
  lemma ThresholdsByCount(n: nat, members: set<nat>)
    ensures IsQuorum(Numbered(n), members) <==> 3 * |MembersBelow(n, members)| > 2 * n
    ensures ExceedsThird(Numbered(n), members) <==> 3 * |MembersBelow(n, members)| > n
    ensures n == 4 ==> (IsQuorum(Numbered(n), members) <==> |MembersBelow(n, members)| >= 3)
  {
    PowerIsCount(n, members);
  }

  /** Two quorums share a peer outside any set that holds at most a third of the power. */
  lemma QuorumsIntersect(vs: PeerSet, a: set<nat>, b: set<nat>, faulty: set<nat>) returns (c: nat)
    requires IsQuorum(vs, a) && IsQuorum(vs, b) && !ExceedsThird(vs, faulty)
    ensures c in a && c in b && c !in faulty && BasePeer(c) in vs.peers
  {
    PowerOverlap(vs.peers, a, b);
    c := PowerHasMember(vs.peers, a * b, faulty);
  }

  /** A quorum has a member outside any set that holds at most a third of the power. */
  lemma QuorumHasCorrect(vs: PeerSet, a: set<nat>, faulty: set<nat>) returns (c: nat)
    requires IsQuorum(vs, a) && !ExceedsThird(vs, faulty)
    ensures c in a && c !in faulty && BasePeer(c) in vs.peers
  {
    c := PowerHasMember(vs.peers, a, faulty);
  }

  lemma QuorumMonotone(vs: PeerSet, a: set<nat>, b: set<nat>)
    requires IsQuorum(vs, a) && forall c :: c in a ==> c in b
    ensures IsQuorum(vs, b)
  {
    PowerMonotone(vs.peers, a, b);
  }

  lemma EveryoneIsQuorum(n: nat, members: set<nat>)
    requires n > 0 && forall i: nat :: i < n ==> i in members
    ensures IsQuorum(Numbered(n), members)
  {
    PowerOfAll(Numbered(n).peers, members);
  }
}
