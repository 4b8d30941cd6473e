/**
 Agreement of the consensus rules by quorum intersection, for any validator set, any delivery history, any
 timeouts and rounds, any proposals, and faulty peers holding up to a third of the voting power.
 `Disciplined` collects what a peer's own log says about its own votes; every input and every rule keeps
 it, and a cluster of disciplined peers with authentic logs cannot decide two values at one height.
 */
module Agreement {
  import opened Options
  import opened PeerSets
  import opened Messages
  import opened Consensus

  ghost predicate Owns(p: Peer, v: Vote) {
    v in p.votes && v.voter == p.id
  }

  ghost predicate OneVotePerRound(p: Peer) {
    forall v, w :: Owns(p, v) && Owns(p, w) && v.kind == w.kind && v.height == w.height && v.round == w.round ==> v == w
  }

  /** Own votes are never ahead of the peer's height, round and step. */
  ghost predicate NotAhead(p: Peer) {
    && p.lockedRound >= -1
    && (p.round < 0 ==> p.height == 0)
    && forall v :: Owns(p, v) ==>
         && v.height <= p.height && 0 <= v.round
         && (v.height == p.height ==> v.round <= p.round)
         && (v.height == p.height && v.round == p.round ==>
               if v.kind.Prevotes? then !p.step.Propose? else p.step.Precommit?)
  }

  ghost predicate PrecommitsBacked(vs: PeerSet, p: Peer) {
    forall v :: Owns(p, v) && v.kind.Precommits? && v.value.Val? ==>
      IsQuorum(vs, Voters(p.votes, Prevotes, v.height, v.round, v.value))
  }

  /** The lock is the latest own precommit of the current height. */
  ghost predicate LockIsLatest(p: Peer) {
    && (p.lockedRound >= 0 ==> NewPrecommit(p.height, p.lockedRound, Val(p.lockedId), p.id) in p.votes)
    && (forall v :: Owns(p, v) && v.kind.Precommits? && v.value.Val? && v.height == p.height ==>
          v.round <= p.lockedRound)
  }

  /** After a precommit, a prevote for a value needs a later precommit for that same value. */
  ghost predicate PrevotesRespectLock(p: Peer) {
    forall v, w :: && Owns(p, v) && v.kind.Prevotes? && v.value.Val?
                   && Owns(p, w) && w.kind.Precommits? && w.value.Val?
                   && v.height == w.height && w.round < v.round ==>
      Relocked(p, v, w.round)
  }

  ghost predicate Relocked(p: Peer, v: Vote, from: int) {
    exists r :: from <= r < v.round && NewPrecommit(v.height, r, v.value, p.id) in p.votes
  }

  ghost predicate HoldsPrecommits(vs: PeerSet, p: Peer, height: nat, round: int, id: nat) {
    IsQuorum(vs, Voters(p.votes, Precommits, height, round, Val(id)))
  }

  ghost predicate DecisionBacked(vs: PeerSet, p: Peer) {
    p.decision.Some? ==>
      HoldsPrecommits(vs, p, p.height, p.decision.value.round, p.decision.value.value.id)
  }

  ghost predicate Disciplined(vs: PeerSet, p: Peer) {
    && OneVotePerRound(p)
    && NotAhead(p)
    && PrecommitsBacked(vs, p)
    && LockIsLatest(p)
    && PrevotesRespectLock(p)
    && DecisionBacked(vs, p)
  }

  /** Inputs do not forge the peer's own votes and never lead back to a height. */
  ghost predicate FairInput(p: Peer, input: Input) {
    && (input.VoteInput? && input.vote.voter == p.id ==> input.vote in p.votes)
    && (input.StartHeight? ==> p.round < 0 || input.height > p.height)
  }

  lemma QuorumsSurvive(vs: PeerSet, p: Peer, p': Peer)
    requires p.votes <= p'.votes
    ensures forall k, h, r, val :: IsQuorum(vs, Voters(p.votes, k, h, r, val)) ==> IsQuorum(vs, Voters(p'.votes, k, h, r, val))
  {
    forall k, h, r, val | IsQuorum(vs, Voters(p.votes, k, h, r, val))
      ensures IsQuorum(vs, Voters(p'.votes, k, h, r, val))
    {
      QuorumMonotone(vs, Voters(p.votes, k, h, r, val), Voters(p'.votes, k, h, r, val));
    }
  }

  /** `q` is `p` after casting the one vote of its current step, as the algorithm demands. */
  ghost predicate Casts(vs: PeerSet, p: Peer, q: Peer, v: Vote) {
    && p.round >= 0 && p.decision.None? && q.decision.None?
    && v.voter == p.id == q.id && v.height == p.height == q.height && v.round == p.round == q.round
    && q.votes == p.votes + {v}
    && (if v.kind.Prevotes? then p.step.Propose? && q.step.Prevote? else !p.step.Precommit? && q.step.Precommit?)
    && (if v.kind.Precommits? && v.value.Val? then
          && IsQuorum(vs, Voters(p.votes, Prevotes, v.height, v.round, v.value))
          && q.lockedRound == v.round && q.lockedId == v.value.id
        else
          q.lockedRound == p.lockedRound && q.lockedId == p.lockedId)
    && (v.kind.Prevotes? && v.value.Val? ==> p.lockedRound == -1 || p.lockedId == v.value.id)
  }

  lemma CastKeepsLock(vs: PeerSet, p: Peer, q: Peer, v: Vote)
    requires NotAhead(p) && LockIsLatest(p) && PrevotesRespectLock(p) && Casts(vs, p, q, v)
    ensures LockIsLatest(q)
    ensures PrevotesRespectLock(q)
  {
    forall a, b | && Owns(q, a) && a.kind.Prevotes? && a.value.Val?
                  && Owns(q, b) && b.kind.Precommits? && b.value.Val?
                  && a.height == b.height && b.round < a.round
      ensures Relocked(q, a, b.round)
    {
      if a == v {
        assert Owns(p, b);
        assert NewPrecommit(a.height, p.lockedRound, a.value, q.id) in q.votes;
      } else if b == v {
        assert Owns(p, a);
        assert false;
      } else {
        assert Owns(p, a) && Owns(p, b) && Relocked(p, a, b.round);
        var r :| b.round <= r < a.round && NewPrecommit(a.height, r, a.value, p.id) in p.votes;
        assert NewPrecommit(a.height, r, a.value, q.id) in q.votes;
      }
    }
  }

  lemma CastKeepsCount(vs: PeerSet, p: Peer, q: Peer, v: Vote)
    requires OneVotePerRound(p) && NotAhead(p) && Casts(vs, p, q, v)
    ensures OneVotePerRound(q) && NotAhead(q)
  {
    assert forall w :: Owns(q, w) ==> w == v || Owns(p, w);
  }

  lemma CastKeepsBacking(vs: PeerSet, p: Peer, q: Peer, v: Vote)
    requires PrecommitsBacked(vs, p) && Casts(vs, p, q, v)
    ensures PrecommitsBacked(vs, q)
  {
    QuorumsSurvive(vs, p, q);
    assert forall w :: Owns(q, w) ==> w == v || Owns(p, w);
  }

  lemma CastKeeps(vs: PeerSet, p: Peer, q: Peer, v: Vote)
    requires Disciplined(vs, p) && Casts(vs, p, q, v)
    ensures Disciplined(vs, q)
  {
    CastKeepsLock(vs, p, q, v);
    CastKeepsCount(vs, p, q, v);
    CastKeepsBacking(vs, p, q, v);
  }

  /** Learning votes of others keeps the discipline. */
  lemma LearnKeeps(vs: PeerSet, p: Peer, q: Peer)
    requires Disciplined(vs, p)
    requires p.votes <= q.votes && forall v :: Owns(q, v) ==> Owns(p, v)
    requires q == p.(votes := q.votes, proposals := q.proposals, values := q.values)
    ensures Disciplined(vs, q)
  {
    QuorumsSurvive(vs, p, q);
    forall v, from | Owns(p, v) && Relocked(p, v, from) ensures Relocked(q, v, from) {
      var r :| from <= r < v.round && NewPrecommit(v.height, r, v.value, p.id) in p.votes;
      assert NewPrecommit(v.height, r, v.value, q.id) in q.votes;
    }
  }

  /** Entering a later round, or round 0 of a later height, keeps the discipline. */
  lemma EnterKeeps(vs: PeerSet, p: Peer, q: Peer)
    requires Disciplined(vs, p) && q.votes == p.votes && q.id == p.id && q.step.Propose? && q.decision.None?
    requires || (q.height == p.height && q.round > p.round && q.lockedRound == p.lockedRound && q.lockedId == p.lockedId)
             || (q.height > p.height && q.round == 0 && q.lockedRound == -1)
             || (p.round < 0 && q.height >= p.height && q.round == 0 && q.lockedRound == -1)
    ensures Disciplined(vs, q)
  {
    forall v, from | Relocked(p, v, from) ensures Relocked(q, v, from) {
      var r :| from <= r < v.round && NewPrecommit(v.height, r, v.value, p.id) in p.votes;
      assert NewPrecommit(v.height, r, v.value, q.id) in q.votes;
    }
  }

  lemma FireKeeps(vs: PeerSet, p: Peer, rule: Rule)
    requires vs.peers != [] && Disciplined(vs, p) && Enabled(vs, p, rule)
    ensures Disciplined(vs, Fire(vs, p, rule).peer)
    ensures p.votes <= Fire(vs, p, rule).peer.votes && Fire(vs, p, rule).peer.id == p.id
  {
    hide OneVotePerRound; hide PrecommitsBacked; hide LockIsLatest; hide PrevotesRespectLock;
    var q := Fire(vs, p, rule).peer;
    match rule
    case PrevoteRule(x, pv) =>
      var ok := pv.valid && (p.lockedRound == -1 || p.lockedId == x.value.id);
      CastKeeps(vs, p, q, NewPrevote(p.height, p.round, if ok then Val(x.value.id) else NilVote, p.id));
    case PrecommitRule(x, pv) =>
      if p.step.Prevote? {
        CastKeeps(vs, p, q, NewPrecommit(p.height, p.round, Val(x.value.id), p.id));
      } else {
        RevalueKeeps(vs, p, q);
      }
    case PrecommitNilRule => CastKeeps(vs, p, q, NewPrecommit(p.height, p.round, NilVote, p.id));
    case DecisionRule(x, pv) => RevalueKeeps(vs, p, q);
    case SkipRule(r) => EnterKeeps(vs, p, q);
  }

  /** Neither the valid value nor a backed decision touches what the discipline speaks of. */
  lemma RevalueKeeps(vs: PeerSet, p: Peer, q: Peer)
    requires Disciplined(vs, p) && DecisionBacked(vs, q)
    requires q == p.(validRound := q.validRound, validValue := q.validValue, decision := q.decision, announced := q.announced)
    ensures Disciplined(vs, q)
  {
    forall v, from | Relocked(p, v, from) ensures Relocked(q, v, from) {
      var r :| from <= r < v.round && NewPrecommit(v.height, r, v.value, p.id) in p.votes;
      assert NewPrecommit(v.height, r, v.value, q.id) in q.votes;
    }
  }

  lemma AcceptKeeps(vs: PeerSet, p: Peer, input: Input)
    requires vs.peers != [] && Disciplined(vs, p) && FairInput(p, input)
    ensures Disciplined(vs, Accept(vs, p, input).peer)
    ensures p.votes <= Accept(vs, p, input).peer.votes && Accept(vs, p, input).peer.id == p.id
  {
    hide OneVotePerRound; hide PrecommitsBacked; hide LockIsLatest; hide PrevotesRespectLock;
    var q := Accept(vs, p, input).peer;
    match input
    case StartHeight(h, _) => EnterKeeps(vs, p, q);
    case VoteInput(v) => LearnKeeps(vs, p, q);
    case ProposalInput(x) => LearnKeeps(vs, p, q);
    case ProposedValueInput(pv) => LearnKeeps(vs, p, q);
    case ProposeInput(w) => LearnKeeps(vs, p, q);
    case TimeoutElapsed(t) =>
      if t.kind.CommitTimeout? {
        RevalueKeeps(vs, p, q);
      } else if p.round >= 0 && p.round == t.round && p.decision.None? {
        match t.kind
        case ProposeTimeout =>
          if p.step.Propose? { CastKeeps(vs, p, q, NewPrevote(p.height, p.round, NilVote, p.id)); }
        case PrevoteTimeout =>
          if p.step.Prevote? { CastKeeps(vs, p, q, NewPrecommit(p.height, p.round, NilVote, p.id)); }
        case PrecommitTimeout => EnterKeeps(vs, p, q);
        case CommitTimeout =>
      }
  }

  lemma {:induction false} ReactKeeps(vs: PeerSet, p: Peer, input: Input, rules: seq<Rule>)
    requires vs.peers != [] && Disciplined(vs, p) && FairInput(p, input) && Fires(vs, p, input, rules)
    ensures Disciplined(vs, React(vs, p, input, rules).peer)
    ensures p.votes <= React(vs, p, input, rules).peer.votes && React(vs, p, input, rules).peer.id == p.id
    decreases |rules|
  {
    if rules == [] {
      AcceptKeeps(vs, p, input);
    } else {
      var init := rules[..|rules| - 1];
      ReactKeeps(vs, p, input, init);
      FireKeeps(vs, React(vs, p, input, init).peer, rules[|rules| - 1]);
    }
  }

  // --- The cluster ---------------------------------------------------------------------------------------

  /** A vote in a correct peer's log that names a correct voter was cast by that voter. */
  ghost predicate Authentic(peers: seq<Peer>, faulty: set<nat>) {
    forall i, v :: 0 <= i < |peers| && i !in faulty && v in peers[i].votes && v.voter < |peers| && v.voter !in faulty ==>
      v in peers[v.voter].votes
  }

  ghost predicate ClusterInv(vs: PeerSet, peers: seq<Peer>, faulty: set<nat>) {
    && vs == Numbered(|peers|) && |peers| > 0
    && !ExceedsThird(vs, faulty)
    && (forall i :: 0 <= i < |peers| ==> peers[i].id == i)
    && (forall i :: 0 <= i < |peers| && i !in faulty ==> Disciplined(vs, peers[i]))
    && Authentic(peers, faulty)
  }

  lemma VoterCast(vs: PeerSet, peers: seq<Peer>, faulty: set<nat>, i: nat, c: nat,
                  kind: VoteType, h: nat, r: int, value: NilOrVal)
    requires ClusterInv(vs, peers, faulty) && i < |peers| && i !in faulty
    requires c in Voters(peers[i].votes, kind, h, r, value) && c < |peers| && c !in faulty
    ensures Owns(peers[c], Vote(kind, h, r, value, c))
  {
  }

  /**
   Once a correct peer holds a quorum of precommits for a value, no correct peer ever holds a quorum of
   prevotes for another value in that round or a later one.
   */
  lemma {:induction false} PrevoteQuorumsFollow(vs: PeerSet, peers: seq<Peer>, faulty: set<nat>, h: nat,
                                                 i: nat, r: int, id: nat, j: nat, r': int, id': nat)
    requires ClusterInv(vs, peers, faulty) && i < |peers| && j < |peers| && i !in faulty && j !in faulty
    requires HoldsPrecommits(vs, peers[i], h, r, id)
    requires IsQuorum(vs, Voters(peers[j].votes, Prevotes, h, r', Val(id')))
    requires r <= r'
    ensures id == id'
    decreases r' - r
  {
    var precommits := Voters(peers[i].votes, Precommits, h, r, Val(id));
    var prevotes := Voters(peers[j].votes, Prevotes, h, r', Val(id'));
    if r == r' {
      var b := QuorumHasCorrect(vs, precommits, faulty);
      VoterCast(vs, peers, faulty, i, b, Precommits, h, r, Val(id));
      var backing := Voters(peers[b].votes, Prevotes, h, r, Val(id));
      var c := QuorumsIntersect(vs, backing, prevotes, faulty);
      VoterCast(vs, peers, faulty, b, c, Prevotes, h, r, Val(id));
      VoterCast(vs, peers, faulty, j, c, Prevotes, h, r, Val(id'));
    } else {
      var c := QuorumsIntersect(vs, precommits, prevotes, faulty);
      VoterCast(vs, peers, faulty, i, c, Precommits, h, r, Val(id));
      VoterCast(vs, peers, faulty, j, c, Prevotes, h, r', Val(id'));
      var v := Vote(Prevotes, h, r', Val(id'), c);
      assert Relocked(peers[c], v, r);
      var m :| r <= m < r' && NewPrecommit(h, m, Val(id'), c) in peers[c].votes;
      assert Owns(peers[c], NewPrecommit(h, m, Val(id'), c));
      PrevoteQuorumsFollow(vs, peers, faulty, h, i, r, id, c, m, id');
    }
  }

  /** Agreement: precommit quorums of one height, in whatever rounds, are for one value. */
  lemma PrecommitQuorumsAgree(vs: PeerSet, peers: seq<Peer>, faulty: set<nat>, h: nat,
                              i: nat, r: int, id: nat, j: nat, r': int, id': nat)
    requires ClusterInv(vs, peers, faulty) && i < |peers| && j < |peers| && i !in faulty && j !in faulty
    requires HoldsPrecommits(vs, peers[i], h, r, id)
    requires HoldsPrecommits(vs, peers[j], h, r', id')
    ensures id == id'
    decreases if r' < r then 1 else 0
  {
    if r' < r {
      PrecommitQuorumsAgree(vs, peers, faulty, h, j, r', id', i, r, id);
    } else {
      var b := QuorumHasCorrect(vs, Voters(peers[j].votes, Precommits, h, r', Val(id')), faulty);
      VoterCast(vs, peers, faulty, j, b, Precommits, h, r', Val(id'));
      PrevoteQuorumsFollow(vs, peers, faulty, h, i, r, id, b, r', id');
    }
  }

  /** One correct peer is given one input, by an adversary that cannot forge votes of correct peers. */
  ghost predicate ClusterStep(vs: PeerSet, faulty: set<nat>, peers: seq<Peer>, peers': seq<Peer>, i: nat, input: Input, rules: seq<Rule>) {
    && vs.peers != [] && i < |peers| && i !in faulty
    && FairInput(peers[i], input)
    && (input.VoteInput? && input.vote.voter < |peers| && input.vote.voter !in faulty ==>
          input.vote in peers[input.vote.voter].votes)
    && Fires(vs, peers[i], input, rules)
    && peers' == peers[i := React(vs, peers[i], input, rules).peer]
  }

  /** Every vote in `q`'s log was in `p`'s, is `q`'s own, or came with the input. */
  ghost predicate LogsOnly(p: Peer, q: Peer, input: Input) {
    q.id == p.id && forall v :: v in q.votes ==> v in p.votes || v.voter == p.id || input == VoteInput(v)
  }

  lemma FireLogs(vs: PeerSet, p: Peer, q: Peer, input: Input, rule: Rule)
    requires vs.peers != [] && LogsOnly(p, q, input) && Enabled(vs, q, rule)
    ensures LogsOnly(p, Fire(vs, q, rule).peer, input)
  {
    match rule
    case PrevoteRule(x, pv) =>
    case PrecommitRule(x, pv) =>
    case PrecommitNilRule =>
    case DecisionRule(x, pv) =>
    case SkipRule(r) => assert Fire(vs, q, rule).peer.votes == q.votes;
  }

  lemma AcceptLogs(vs: PeerSet, p: Peer, input: Input)
    requires vs.peers != []
    ensures LogsOnly(p, Accept(vs, p, input).peer, input)
  {
    match input
    case StartHeight(h, _) => assert Accept(vs, p, input).peer.votes == p.votes;
    case VoteInput(v) =>
    case ProposalInput(x) =>
    case ProposedValueInput(pv) =>
    case ProposeInput(w) =>
    case TimeoutElapsed(t) =>
  }

  lemma {:induction false} ReactLogs(vs: PeerSet, p: Peer, input: Input, rules: seq<Rule>)
    requires vs.peers != [] && Fires(vs, p, input, rules)
    ensures LogsOnly(p, React(vs, p, input, rules).peer, input)
    decreases |rules|
  {
    if rules == [] {
      AcceptLogs(vs, p, input);
    } else {
      var init := rules[..|rules| - 1];
      ReactLogs(vs, p, input, init);
      FireLogs(vs, p, React(vs, p, input, init).peer, input, rules[|rules| - 1]);
    }
  }

  lemma ClusterStepKeeps(vs: PeerSet, faulty: set<nat>, peers: seq<Peer>, peers': seq<Peer>, i: nat, input: Input, rules: seq<Rule>)
    requires ClusterInv(vs, peers, faulty) && ClusterStep(vs, faulty, peers, peers', i, input, rules)
    ensures ClusterInv(vs, peers', faulty)
    ensures |peers'| == |peers| && forall k :: 0 <= k < |peers| ==> peers[k].votes <= peers'[k].votes
  {
    ReactKeeps(vs, peers[i], input, rules);
    ReactLogs(vs, peers[i], input, rules);
  }

  datatype Given = Given(peer: nat, input: Input, rules: seq<Rule>)

  ghost predicate IsClusterRun(n: nat, faulty: set<nat>, run: seq<seq<Peer>>, given: seq<Given>) {
    && |run| == |given| + 1
    && run[0] == seq(n, i requires 0 <= i => NewPeer(i))
    && forall t :: 0 <= t < |given| ==>
         ClusterStep(Numbered(n), faulty, run[t], run[t + 1], given[t].peer, given[t].input, given[t].rules)
  }

  lemma {:induction false} ClusterRunKeeps(n: nat, faulty: set<nat>, run: seq<seq<Peer>>, given: seq<Given>, t: nat)
    requires n > 0 && !ExceedsThird(Numbered(n), faulty) && IsClusterRun(n, faulty, run, given) && t < |run|
    ensures |run[t]| == n && ClusterInv(Numbered(n), run[t], faulty)
  {
    if t > 0 {
      ClusterRunKeeps(n, faulty, run, given, t - 1);
      ClusterStepKeeps(Numbered(n), faulty, run[t - 1], run[t], given[t - 1].peer, given[t - 1].input, given[t - 1].rules);
    }
  }

  lemma {:induction false} LogsGrow(n: nat, faulty: set<nat>, run: seq<seq<Peer>>, given: seq<Given>, t: nat, u: nat, i: nat)
    requires n > 0 && !ExceedsThird(Numbered(n), faulty) && IsClusterRun(n, faulty, run, given)
    requires t <= u < |run| && i < n
    ensures |run[t]| == |run[u]| == n && run[t][i].votes <= run[u][i].votes
    decreases u - t
  {
    ClusterRunKeeps(n, faulty, run, given, t);
    if t < u {
      ClusterStepKeeps(Numbered(n), faulty, run[t], run[t + 1], given[t].peer, given[t].input, given[t].rules);
      LogsGrow(n, faulty, run, given, t + 1, u, i);
    }
  }

  /** In every run, correct peers that ever decide at the same height decide on the same value id. */
  lemma AgreementInEveryRun(n: nat, faulty: set<nat>, run: seq<seq<Peer>>, given: seq<Given>, t: nat, u: nat, i: nat, j: nat)
    requires n > 0 && !ExceedsThird(Numbered(n), faulty) && IsClusterRun(n, faulty, run, given)
    requires t < |run| && u < |run| && i < |run[t]| && j < |run[u]| && i !in faulty && j !in faulty
    requires run[t][i].decision.Some? && run[u][j].decision.Some? && run[t][i].height == run[u][j].height
    ensures run[t][i].decision.value.value.id == run[u][j].decision.value.value.id
  {
    var vs, last := Numbered(n), |run| - 1;
    ClusterRunKeeps(n, faulty, run, given, t);
    ClusterRunKeeps(n, faulty, run, given, u);
    ClusterRunKeeps(n, faulty, run, given, last);
    LogsGrow(n, faulty, run, given, t, last, i);
    LogsGrow(n, faulty, run, given, u, last, j);
    QuorumsSurvive(vs, run[t][i], run[last][i]);
    QuorumsSurvive(vs, run[u][j], run[last][j]);
    var a, b := run[t][i].decision.value, run[u][j].decision.value;
    PrecommitQuorumsAgree(vs, run[last], faulty, run[t][i].height, i, a.round, a.value.id, j, b.round, b.value.id);
  }
}
