/** Every single acceptance of an input and every single rule firing keeps `Safe`. */
module ProtocolSteps {
  import opened Options
  import opened Primitives
  import opened PeerSets
  import opened Messages
  import opened Consensus
  import App = Application
  import opened Pipeline
  import Simulator
  import opened Protocol
  import opened ProtocolInvariant

  // --- Framing: one peer moves, logs grow ------------------------------------------------------------------

  /** From `s` to `s'` only peer `i` has moved, its log has grown, and no value was built. */
  ghost predicate Moves(s: Sys, s': Sys, i: nat) {
    && Shape(s) && i < s.n
    && s'.n == s.n && s'.built == s.built && s'.read == s.read && s'.consumer == s.consumer
    && Taken(s) <= Taken(s')
    && |s'.peers| == s.n && s'.peers == s.peers[i := s'.peers[i]]
    && s'.peers[i].id == i
    && s.peers[i].votes <= s'.peers[i].votes
    && s.peers[i].proposals <= s'.peers[i].proposals
    && s.peers[i].values <= s'.peers[i].values
  }

  lemma SupportGrows(s: Sys, s': Sys, i: nat, k: nat)
    requires Moves(s, s', i) && k < s.n
    ensures forall h: nat :: Supported(s, s.peers[k], h) ==> Supported(s', s'.peers[k], h)
  {
    forall h: nat | Supported(s, s.peers[k], h) ensures Supported(s', s'.peers[k], h) {
      var val := Val(s.built[h].id);
      QuorumMonotone(s.Peers(), Voters(s.peers[k].votes, Precommits, h, 0, val), Voters(s'.peers[k].votes, Precommits, h, 0, val));
    }
  }

  lemma OthersStayOk(s: Sys, s': Sys, i: nat)
    requires Moves(s, s', i) && PeersOk(s) && PeerOk(s', s'.peers[i])
    ensures PeersOk(s')
  {
    forall k | 0 <= k < s.n && k != i ensures PeerOk(s', s'.peers[k]) {
      assert PeerOk(s, s.peers[k]);
      SupportGrows(s, s', i, k);
    }
  }

  lemma EnvelopesStayOk(s: Sys, s': Sys, i: nat, e: Envelope)
    requires Moves(s, s', i) && EnvelopeOk(s, e)
    ensures EnvelopeOk(s', e)
  {
  }

  lemma NetworkStaysOk(s: Sys, s': Sys, i: nat, sent: seq<Envelope>)
    requires Moves(s, s', i) && NetworkOk(s)
    requires s'.network <= s.network + multiset(sent)
    requires forall e :: e in sent ==> EnvelopeOk(s', e)
    ensures NetworkOk(s')
  {
    forall e | e in s'.network ensures EnvelopeOk(s', e) {
      assert e in s.network || e in sent;
      if e in s.network {
        EnvelopesStayOk(s, s', i, e);
      }
    }
  }

  /** Peer `i`'s control inputs are as due, those of the others are untouched. */
  lemma TokensStay(s: Sys, s': Sys, i: nat)
    requires Moves(s, s', i) && Tokens(s)
    requires forall k, x :: 0 <= k < s.n && k != i && App.IsControl(x) ==>
               s'.network[Envelope(k, k, x)] == s.network[Envelope(k, k, x)]
    requires forall x :: App.IsControl(x) ==> s'.network[Envelope(i, i, x)] == if Due(s', i) == Some(x) then 1 else 0
    ensures Tokens(s')
  {
    forall k | 0 <= k < s.n && k != i ensures Due(s', k) == Due(s, k) {
    }
    hide Due; hide Moves;
  }

  /** Nothing was announced and peer 0 proposed nothing. */
  lemma StepsStay(s: Sys, s': Sys, i: nat)
    requires Moves(s, s', i) && StepsOk(s) && ConsumerOk(s) && s'.steps == s.steps
    requires s'.peers[0].proposals == s.peers[0].proposals || i != 0
    requires AnnouncedHeights(s'.peers[i]) == AnnouncedHeights(s.peers[i])
    ensures StepsOk(s') && ConsumerOk(s')
  {
    assert forall d :: StepOk(s, d) ==> StepOk(s', d);
    assert forall steps, h :: ProposedIn(s, steps, h) <==> ProposedIn(s', steps, h);
  }

  // --- A message from the network enters the log of its destination ----------------------------------------

  function Learned(p: Peer, input: Input): Peer
    requires !App.IsControl(input)
  {
    match input
    case VoteInput(v) => p.(votes := p.votes + {v})
    case ProposalInput(x) => p.(proposals := p.proposals + {x})
    case ProposedValueInput(pv) => p.(values := p.values + {pv})
  }

  ghost predicate Learns(s: Sys, e: Envelope, s': Sys) {
    && Shape(s) && e in s.network && EnvelopeOk(s, e) && !App.IsControl(e.payload)
    && s' == s.(peers := s.peers[e.destination := Learned(s.peers[e.destination], e.payload)],
                network := s.network - multiset{e})
  }

  lemma LearnMoves(s: Sys, e: Envelope, s': Sys)
    requires Learns(s, e, s')
    ensures Moves(s, s', e.destination)
  {
  }

  lemma LearnLogOk(s: Sys, e: Envelope, s': Sys)
    requires Learns(s, e, s') && LogOk(s, s.peers[e.destination]) && OwnVotes(s, s.peers[e.destination])
    ensures LogOk(s', s'.peers[e.destination]) && OwnVotes(s', s'.peers[e.destination])
  {
  }

  lemma LearnPeersOk(s: Sys, e: Envelope, s': Sys)
    requires Learns(s, e, s') && PeersOk(s)
    ensures PeersOk(s')
  {
    var i := e.destination;
    assert PeerOk(s, s.peers[i]);
    LearnMoves(s, e, s');
    LearnLogOk(s, e, s');
    SupportGrows(s, s', i, i);
    assert PeerOk(s', s'.peers[i]) by {
      hide LogOk; hide OwnVotes; hide Supported;
    }
    hide PeerOk; hide Moves; hide Learns;
    OthersStayOk(s, s', i);
  }

  lemma LearnSpread(s: Sys, e: Envelope, s': Sys)
    requires Learns(s, e, s') && VotesSpread(s)
    ensures VotesSpread(s')
  {
    assert forall x :: x in s.network && x != e ==> x in s'.network;
  }

  lemma LearnProposalsSpread(s: Sys, e: Envelope, s': Sys)
    requires Learns(s, e, s') && ProposalsSpread(s)
    ensures ProposalsSpread(s')
  {
    assert forall x :: x in s.network && x != e ==> x in s'.network;
  }

  lemma LearnTokens(s: Sys, e: Envelope, s': Sys)
    requires Learns(s, e, s') && Moves(s, s', e.destination) && Tokens(s) && PeersOk(s)
    ensures Tokens(s')
  {
    assert PeerOk(s, s.peers[0]);
    TokensStay(s, s', e.destination);
  }

  lemma LearnSafe(s: Sys, e: Envelope, s': Sys)
    requires Safe(s) && Learns(s, e, s')
    ensures Safe(s')
  {
    hide Moves; hide SlotOrder; hide PeersOk; hide NetworkOk; hide Tokens; hide VotesSpread; hide ProposalsSpread;
    hide StepsOk; hide ConsumerOk; hide EnvelopeOk;
    var i := e.destination;
    LearnMoves(s, e, s');
    LearnPeersOk(s, e, s');
    LearnSpread(s, e, s');
    LearnProposalsSpread(s, e, s');
    LearnTokens(s, e, s');
    NetworkStaysOk(s, s', i, []);
    LearnRest(s, e, s');
  }

  lemma LearnRest(s: Sys, e: Envelope, s': Sys)
    requires Learns(s, e, s') && Moves(s, s', e.destination) && StepsOk(s) && ConsumerOk(s) && SlotOrder(s)
    ensures SlotOrder(s') && StepsOk(s') && ConsumerOk(s')
  {
    StepsStay(s, s', e.destination);
  }

  // --- A peer casts the vote of its step -------------------------------------------------------------------

  function Voted(s: Sys, p: Peer, kind: VoteType): Peer
    requires p.height < |s.built|
  {
    var votes := p.votes + {TheVote(s, kind, p.height, p.id)};
    if kind.Prevotes? then p.(step := Prevote, votes := votes)
    else p.(step := Precommit, votes := votes, lockedRound := 0, lockedId := s.built[p.height].id,
            validRound := 0, validValue := Some(s.built[p.height]))
  }

  ghost predicate Votes(s: Sys, i: nat, kind: VoteType, s': Sys) {
    && Shape(s) && i < s.n
    && var p := s.peers[i];
       && p.round == 0 && p.decision.None? && p.height < Taken(s)
       && (if kind.Prevotes? then p.step.Propose? else p.step.Prevote?)
       && s' == s.(peers := s.peers[i := Voted(s, p, kind)],
                   network := s.network + multiset(App.VoteEnvelopes(i, s.Peers().peers, TheVote(s, kind, p.height, i))))
  }

  lemma VoteMoves(s: Sys, i: nat, kind: VoteType, s': Sys)
    requires Votes(s, i, kind, s')
    ensures Moves(s, s', i)
  {
  }

  lemma VotePeersOk(s: Sys, i: nat, kind: VoteType, s': Sys)
    requires Votes(s, i, kind, s') && PeersOk(s)
    ensures PeersOk(s')
  {
    assert PeerOk(s, s.peers[i]);
    VoteMoves(s, i, kind, s');
    VoteLogOk(s, i, kind, s');
    SupportGrows(s, s', i, i);
    assert PeerOk(s', s'.peers[i]) by {
      hide LogOk; hide OwnVotes; hide Supported;
    }
    hide PeerOk; hide Moves; hide Votes;
    OthersStayOk(s, s', i);
  }

  lemma VoteLogOk(s: Sys, i: nat, kind: VoteType, s': Sys)
    requires Votes(s, i, kind, s') && LogOk(s, s.peers[i]) && OwnVotes(s, s.peers[i])
    ensures LogOk(s', s'.peers[i]) && OwnVotes(s', s'.peers[i])
  {
  }

  lemma VoteNetworkOk(s: Sys, i: nat, kind: VoteType, s': Sys)
    requires Votes(s, i, kind, s') && Moves(s, s', i) && NetworkOk(s) && Tokens(s)
    ensures NetworkOk(s')
    ensures Tokens(s')
  {
    var v := TheVote(s, kind, s.peers[i].height, i);
    var sent := App.VoteEnvelopes(i, s.Peers().peers, v);
    forall e: Envelope ensures multiset(sent)[e] == if e == Envelope(i, e.destination, VoteInput(v)) && e.destination < s.n && e.destination != i then 1 else 0 {
      App.VoteReachesOthersOnce(i, s.n, v, e);
    }
    NetworkStaysOk(s, s', i, sent);
    TokensStay(s, s', i);
  }

  lemma VoteSpread(s: Sys, i: nat, kind: VoteType, s': Sys)
    requires Votes(s, i, kind, s') && VotesSpread(s) && ProposalsSpread(s)
    ensures VotesSpread(s') && ProposalsSpread(s')
  {
    var v := TheVote(s, kind, s.peers[i].height, i);
    forall k | 0 <= k < s.n && k != i ensures Envelope(i, k, VoteInput(v)) in s'.network {
      App.VoteReachesOthersOnce(i, s.n, v, Envelope(i, k, VoteInput(v)));
    }
  }

  lemma VoteRest(s: Sys, i: nat, kind: VoteType, s': Sys)
    requires Votes(s, i, kind, s') && Moves(s, s', i) && StepsOk(s) && ConsumerOk(s) && SlotOrder(s)
    ensures SlotOrder(s') && StepsOk(s') && ConsumerOk(s')
  {
    hide Moves; hide StepsOk; hide ConsumerOk; hide App.VoteEnvelopes;
    StepsStay(s, s', i);
  }

  lemma VoteSafe(s: Sys, i: nat, kind: VoteType, s': Sys)
    requires Safe(s) && Votes(s, i, kind, s')
    ensures Safe(s')
  {
    hide Moves; hide SlotOrder; hide PeersOk; hide NetworkOk; hide Tokens; hide VotesSpread; hide ProposalsSpread;
    hide StepsOk; hide ConsumerOk;
    VoteMoves(s, i, kind, s');
    VotePeersOk(s, i, kind, s');
    VoteNetworkOk(s, i, kind, s');
    VoteSpread(s, i, kind, s');
    VoteRest(s, i, kind, s');
  }

  // --- A peer decides, and its decision is announced -------------------------------------------------------

  ghost predicate Decides(s: Sys, i: nat, s': Sys) {
    && Shape(s) && i < s.n
    && var p := s.peers[i];
       && p.round == 0 && p.decision.None? && Supported(s, p, p.height)
       && s' == s.(peers := s.peers[i := p.(decision := Some(Commitment(0, s.built[p.height])))],
                   network := s.network + multiset{Envelope(i, i, TimeoutElapsed(Timeout(0, CommitTimeout)))})
  }

  lemma DecidePeersOk(s: Sys, i: nat, s': Sys)
    requires Decides(s, i, s') && PeersOk(s)
    ensures Moves(s, s', i) && PeersOk(s')
  {
    assert PeerOk(s, s.peers[i]);
    SupportGrows(s, s', i, i);
    assert PeerOk(s', s'.peers[i]) by {
      hide Supported;
    }
    hide PeerOk;
    OthersStayOk(s, s', i);
  }

  lemma DecideTokens(s: Sys, i: nat, s': Sys)
    requires Decides(s, i, s') && Moves(s, s', i) && Tokens(s) && PeersOk(s)
    ensures Tokens(s')
  {
    assert PeerOk(s, s.peers[i]);
    assert Due(s, i) == None;
    forall x | App.IsControl(x) ensures s'.network[Envelope(i, i, x)] == if Due(s', i) == Some(x) then 1 else 0 {
      assert s.network[Envelope(i, i, x)] == 0;
    }
    hide Moves; hide Supported; hide Tokens;
    TokensStay(s, s', i);
  }

  lemma DecideNetworkOk(s: Sys, i: nat, s': Sys)
    requires Decides(s, i, s') && Moves(s, s', i) && NetworkOk(s) && VotesSpread(s) && ProposalsSpread(s)
    ensures NetworkOk(s') && VotesSpread(s') && ProposalsSpread(s')
  {
    hide Moves; hide Supported; hide NetworkOk;
    var e := Envelope(i, i, TimeoutElapsed(Timeout(0, CommitTimeout)));
    assert multiset{e} == multiset([e]);
    NetworkStaysOk(s, s', i, [e]);
  }

  lemma DecideSafe(s: Sys, i: nat, s': Sys)
    requires Safe(s) && Decides(s, i, s')
    ensures Safe(s')
  {
    hide Moves; hide PeersOk; hide NetworkOk; hide Tokens; hide VotesSpread; hide ProposalsSpread;
    hide StepsOk; hide ConsumerOk; hide Supported;
    DecidePeersOk(s, i, s');
    DecideTokens(s, i, s');
    DecideNetworkOk(s, i, s');
    StepsStay(s, s', i);
  }

  lemma {:induction false} FinalizedByConcat(a: seq<DecisionStep>, b: seq<DecisionStep>, i: nat)
    ensures FinalizedBy(a + b, i) == FinalizedBy(a, i) + FinalizedBy(b, i)
    decreases |b|
  {
    if b == [] {
      assert a + b == a;
    } else {
      assert (a + b)[..|a + b| - 1] == a + b[..|b| - 1];
      FinalizedByConcat(a, b[..|b| - 1], i);
    }
  }

  /** The consumer has not read what is appended to the steps. */
  lemma ConsumerUnaffected(s: Sys, s': Sys, more: seq<DecisionStep>)
    requires ConsumerOk(s) && s'.steps == s.steps + more
    requires s'.built == s.built && s'.read == s.read && s'.consumer == s.consumer
    ensures ConsumerOk(s')
  {
    assert s'.steps[..s.read] == s.steps[..s.read];
    assert forall steps, h :: ProposedIn(s, steps, h) <==> ProposedIn(s', steps, h);
  }

  lemma CausalExtends(s: Sys, s': Sys, more: seq<DecisionStep>)
    requires Causal(s) && s'.built == s.built && s'.steps == s.steps + more
    requires forall d :: d in more && d.Finalized? ==> ProposedIn(s, s.steps, d.height)
    ensures Causal(s')
  {
    forall k | 0 <= k < |s'.steps| && s'.steps[k].Finalized?
      ensures ProposedIn(s', s'.steps[..k], s'.steps[k].height)
    {
      if k < |s.steps| {
        assert s'.steps[..k] == s.steps[..k];
        assert ProposedIn(s, s.steps[..k], s.steps[k].height);
      } else {
        assert s'.steps[k] == more[k - |s.steps|];
        var d := Proposed(TheValue(s, s'.steps[k].height));
        assert s.steps <= s'.steps[..k];
        assert d in s'.steps[..k];
      }
    }
  }

  lemma StepsStillOk(s: Sys, s': Sys, more: seq<DecisionStep>)
    requires s'.built == s.built && s'.slot == s.slot && s'.n == s.n && s'.steps == s.steps + more
    requires forall d :: d in s.steps || d in more ==> StepOk(s, d)
    ensures forall d :: d in s'.steps ==> StepOk(s', d)
  {
    forall d | d in s'.steps ensures StepOk(s', d) {
      assert d in s.steps || d in more;
    }
  }

  ghost predicate Announces(s: Sys, i: nat, s': Sys) {
    && Shape(s) && i < s.n
    && var p := s.peers[i];
       var e := Envelope(i, i, TimeoutElapsed(Timeout(0, CommitTimeout)));
       && p.round == 0 && p.height < Taken(s) && p.decision == Some(Commitment(0, s.built[p.height])) && !p.announced
       && e in s.network
       && s' == s.(peers := s.peers[i := p.(announced := true)],
                   network := s.network - multiset{e} + multiset{Envelope(i, i, StartHeight(p.height + 1, s.Peers()))},
                   steps := s.steps + [Finalized(i, s.built[p.height].id, p.height)])
  }

  lemma AnnouncePeersOk(s: Sys, i: nat, s': Sys)
    requires Announces(s, i, s') && PeersOk(s)
    ensures Moves(s, s', i) && PeersOk(s')
  {
    assert PeerOk(s, s.peers[i]);
    SupportGrows(s, s', i, i);
    assert PeerOk(s', s'.peers[i]) by {
      hide Supported;
    }
    hide PeerOk;
    OthersStayOk(s, s', i);
  }

  lemma AnnounceTokens(s: Sys, i: nat, s': Sys)
    requires Announces(s, i, s') && Moves(s, s', i) && Tokens(s)
    ensures Tokens(s')
  {
    forall x | App.IsControl(x) ensures s'.network[Envelope(i, i, x)] == if Due(s', i) == Some(x) then 1 else 0 {
      assert s.network[Envelope(i, i, x)] == if Due(s, i) == Some(x) then 1 else 0;
    }
    hide Moves; hide Tokens;
    TokensStay(s, s', i);
  }

  lemma AnnounceNetworkOk(s: Sys, i: nat, s': Sys)
    requires Announces(s, i, s') && Moves(s, s', i) && NetworkOk(s) && VotesSpread(s) && ProposalsSpread(s)
    ensures NetworkOk(s') && VotesSpread(s') && ProposalsSpread(s')
  {
    hide Moves; hide NetworkOk;
    var e := Envelope(i, i, StartHeight(s.peers[i].height + 1, s.Peers()));
    assert multiset{e} == multiset([e]);
    NetworkStaysOk(s, s', i, [e]);
    assert forall x :: x in s.network && !App.IsControl(x.payload) ==> x in s'.network;
  }

  lemma AnnounceFinalizes(s: Sys, i: nat, s': Sys)
    requires Announces(s, i, s')
    requires forall k :: 0 <= k < s.n ==> FinalizedBy(s.steps, k) == UpTo(AnnouncedHeights(s.peers[k]))
    ensures forall k :: 0 <= k < s.n ==> FinalizedBy(s'.steps, k) == UpTo(AnnouncedHeights(s'.peers[k]))
  {
    var h := s.peers[i].height;
    var d := Finalized(i, s.built[h].id, h);
    assert s'.steps == s.steps + [d];
    forall k | 0 <= k < s.n ensures FinalizedBy(s'.steps, k) == UpTo(AnnouncedHeights(s'.peers[k])) {
      FinalizedByConcat(s.steps, [d], k);
      assert FinalizedBy([d], k) == if k == i then [h] else [];
      hide FinalizedBy; hide Announces;
      assert UpTo(h + 1) == UpTo(h) + [h];
    }
  }

  lemma AnnounceStepsOk(s: Sys, i: nat, s': Sys)
    requires Announces(s, i, s') && StepsOk(s) && ConsumerOk(s) && PeersOk(s)
    ensures StepsOk(s') && ConsumerOk(s')
  {
    var h := s.peers[i].height;
    var d := Finalized(i, s.built[h].id, h);
    assert ProposedIn(s, s.steps, h) by {
      assert PeerOk(s, s.peers[i]) && Supported(s, s.peers[i], h);
    }
    hide FinalizedBy; hide ConsumerOk; hide PeersOk; hide Causal; hide UpTo;
    ConsumerUnaffected(s, s', [d]);
    CausalExtends(s, s', [d]);
    AnnounceFinalizes(s, i, s');
    StepsStillOk(s, s', [d]);
  }

  lemma AnnounceSafe(s: Sys, i: nat, s': Sys)
    requires Safe(s) && Announces(s, i, s')
    ensures Safe(s')
  {
    hide Moves; hide PeersOk; hide NetworkOk; hide Tokens; hide VotesSpread; hide ProposalsSpread;
    hide StepsOk; hide ConsumerOk;
    AnnouncePeersOk(s, i, s');
    AnnounceTokens(s, i, s');
    AnnounceNetworkOk(s, i, s');
    AnnounceStepsOk(s, i, s');
  }

  // --- A peer starts a height ------------------------------------------------------------------------------

  function Started(p: Peer, h: nat): Peer {
    p.(height := h, round := 0, step := Propose, lockedRound := -1, lockedId := 0, validRound := -1, validValue := None,
       decision := None, announced := false)
  }

  /** Peer 0 also takes the value of the new height from the slot. */
  ghost predicate StartsHeight(s: Sys, i: nat, h: nat, s': Sys) {
    && Shape(s) && SlotOrder(s) && i < s.n
    && Due(s, i) == Some(StartHeight(h, s.Peers()))
    && var p := s.peers[i];
       var e := Envelope(i, i, StartHeight(h, s.Peers()));
       && e in s.network
       && if i == 0 then
            && s.slot.Some?
            && s' == s.(peers := s.peers[i := Started(p, h)], slot := None,
                        network := s.network - multiset{e}
                                   + multiset{Envelope(0, 0, ProposeInput(ValueToPropose(h, 0, s.slot.value)))})
          else
            s' == s.(peers := s.peers[i := Started(p, h)], network := s.network - multiset{e})
  }

  lemma StartMoves(s: Sys, i: nat, h: nat, s': Sys)
    requires StartsHeight(s, i, h, s') && PeersOk(s)
    ensures Moves(s, s', i) && SlotOrder(s')
    ensures if s.peers[i].round < 0 then h == s.peers[i].height == 0 && !s.peers[i].announced
            else s.peers[i].decision.Some? && s.peers[i].announced && h == s.peers[i].height + 1
  {
    assert PeerOk(s, s.peers[i]);
    assert PeerOk(s, s.peers[0]);
  }

  lemma StartOwnVotes(s: Sys, i: nat, h: nat, s': Sys)
    requires StartsHeight(s, i, h, s') && Moves(s, s', i) && PeersOk(s)
    requires if s.peers[i].round < 0 then h == s.peers[i].height == 0 && !s.peers[i].announced
             else s.peers[i].decision.Some? && s.peers[i].announced && h == s.peers[i].height + 1
    ensures Confined(s', s'.peers[i]) && OwnVotes(s', s'.peers[i])
  {
    var p := s.peers[i];
    assert PeerOk(s, p);
    hide LogOk; hide PastSupported; hide Moves;
    if h < |s.built| {
      forall kind ensures TheVote(s, kind, h, i) !in p.votes {
        if TheVote(s, kind, h, i) in p.votes {
          assert TheVote(s, kind, h, i).height <= p.height;
          assert p.step.Propose?;
          match kind case Prevotes => case Precommits =>
        }
      }
    }
  }

  lemma StartPeersOk(s: Sys, i: nat, h: nat, s': Sys)
    requires StartsHeight(s, i, h, s') && PeersOk(s)
    ensures Moves(s, s', i) && SlotOrder(s') && PeersOk(s')
  {
    hide OwnVotes; hide Supported; hide Confined; hide Moves; hide SlotOrder;
    StartMoves(s, i, h, s');
    StartOwnVotes(s, i, h, s');
    assert PeerOk(s, s.peers[i]);
    SupportGrows(s, s', i, i);
    StartLogOk(s, i, h, s');
    OthersStayOk(s, s', i);
  }

  /** The log is untouched, and what was decided before the new height is what it was. */
  lemma StartLogOk(s: Sys, i: nat, h: nat, s': Sys)
    requires StartsHeight(s, i, h, s') && Moves(s, s', i) && LogOk(s, s.peers[i]) && PastSupported(s, s.peers[i])
    requires h <= DecidedHeights(s.peers[i])
    requires forall k: nat :: Supported(s, s.peers[i], k) ==> Supported(s', s'.peers[i], k)
    ensures LogOk(s', s'.peers[i]) && PastSupported(s', s'.peers[i])
  {
    hide Supported; hide Due; hide SlotOrder;
  }

  lemma StartTokens(s: Sys, i: nat, h: nat, s': Sys)
    requires StartsHeight(s, i, h, s') && Moves(s, s', i) && SlotOrder(s') && Tokens(s) && PeersOk(s)
    ensures Tokens(s')
  {
    assert PeerOk(s, s.peers[0]);
    forall x | App.IsControl(x) ensures s'.network[Envelope(i, i, x)] == if Due(s', i) == Some(x) then 1 else 0 {
      assert s.network[Envelope(i, i, x)] == if Due(s, i) == Some(x) then 1 else 0;
    }
    hide Moves; hide Tokens; hide PeersOk;
    TokensStay(s, s', i);
  }

  lemma StartNetworkOk(s: Sys, i: nat, h: nat, s': Sys)
    requires StartsHeight(s, i, h, s') && Moves(s, s', i) && NetworkOk(s)
    ensures NetworkOk(s')
  {
    hide Moves; hide NetworkOk; hide SlotOrder; hide Due; hide Started;
    if i == 0 {
      var e := Envelope(0, 0, ProposeInput(ValueToPropose(h, 0, s.slot.value)));
      assert multiset{e} == multiset([e]);
      NetworkStaysOk(s, s', i, [e]);
    } else {
      NetworkStaysOk(s, s', i, []);
    }
  }

  lemma StartSpread(s: Sys, i: nat, h: nat, s': Sys)
    requires StartsHeight(s, i, h, s') && VotesSpread(s) && ProposalsSpread(s)
    ensures VotesSpread(s') && ProposalsSpread(s')
  {
    hide SlotOrder; hide Due;
    assert forall x :: x in s.network && !App.IsControl(x.payload) ==> x in s'.network;
  }

  lemma StartSafe(s: Sys, i: nat, h: nat, s': Sys)
    requires Safe(s) && StartsHeight(s, i, h, s')
    ensures Safe(s')
  {
    hide Moves; hide PeersOk; hide NetworkOk; hide Tokens; hide VotesSpread; hide ProposalsSpread;
    hide StepsOk; hide ConsumerOk; hide SlotOrder;
    StartMoves(s, i, h, s');
    StartPeersOk(s, i, h, s');
    StartTokens(s, i, h, s');
    StartNetworkOk(s, i, h, s');
    StartSpread(s, i, h, s');
    StepsStay(s, s', i);
  }

  // --- Peer 0 publishes the proposal of its height ---------------------------------------------------------

  ghost predicate Proposes(s: Sys, s': Sys) {
    && Shape(s)
    && var p := s.peers[0];
       && p.round == 0 && p.decision.None? && p.height < Taken(s)
       && var x := TheProposal(s, p.height);
          var e := Envelope(0, 0, ProposeInput(ValueToPropose(p.height, 0, s.built[p.height])));
          && x !in p.proposals
          && e in s.network
          && s' == s.(peers := s.peers[0 := p.(proposals := p.proposals + {x}, values := p.values + {App.ProposedValueOf(x)})],
                      network := s.network - multiset{e} + multiset(App.ProposalEnvelopes(0, s.Peers().peers, x)),
                      steps := s.steps + App.Announcements(s.Peers().peers, x))
  }

  lemma ProposePeersOk(s: Sys, s': Sys)
    requires Proposes(s, s') && PeersOk(s)
    ensures Moves(s, s', 0) && PeersOk(s')
  {
    assert PeerOk(s, s.peers[0]);
    SupportGrows(s, s', 0, 0);
    assert PeerOk(s', s'.peers[0]) by {
      hide Supported;
    }
    hide PeerOk;
    OthersStayOk(s, s', 0);
  }

  lemma ProposeSends(s: Sys, s': Sys) returns (sent: seq<Envelope>)
    requires Proposes(s, s') && Moves(s, s', 0)
    ensures s'.network == s.network - multiset{Envelope(0, 0, ProposeInput(ValueToPropose(s.peers[0].height, 0, s.built[s.peers[0].height])))}
                          + multiset(sent)
    ensures forall e: Envelope :: e in sent ==> EnvelopeOk(s', e) && !App.IsControl(e.payload)
    ensures forall k :: 0 <= k < s.n ==>
              var x := TheProposal(s, s.peers[0].height);
              Envelope(0, k, ProposalInput(x)) in sent && Envelope(0, k, ProposedValueInput(App.ProposedValueOf(x))) in sent
  {
    var x := TheProposal(s, s.peers[0].height);
    sent := App.ProposalEnvelopes(0, s.Peers().peers, x);
    forall e: Envelope ensures e in sent ==> EnvelopeOk(s', e) && !App.IsControl(e.payload) {
      App.ProposalReachesAllOnce(0, s.n, x, e);
    }
    hide EnvelopeOk; hide Moves; hide App.ProposalEnvelopes;
    forall k | 0 <= k < s.n
      ensures Envelope(0, k, ProposalInput(x)) in sent && Envelope(0, k, ProposedValueInput(App.ProposedValueOf(x))) in sent
    {
      App.ProposalReachesAllOnce(0, s.n, x, Envelope(0, k, ProposalInput(x)));
      App.ProposalReachesAllOnce(0, s.n, x, Envelope(0, k, ProposedValueInput(App.ProposedValueOf(x))));
    }
  }

  lemma ProposeTokens(s: Sys, s': Sys)
    requires Proposes(s, s') && Moves(s, s', 0) && Tokens(s)
    ensures Tokens(s')
  {
    var sent := ProposeSends(s, s');
    hide EnvelopeOk;
    forall k, y | 0 <= k < s.n && App.IsControl(y)
      ensures k != 0 ==> s'.network[Envelope(k, k, y)] == s.network[Envelope(k, k, y)]
      ensures k == 0 ==> s'.network[Envelope(k, k, y)] == if Due(s', 0) == Some(y) then 1 else 0
    {
      assert s.network[Envelope(k, k, y)] == if Due(s, k) == Some(y) then 1 else 0;
      assert Envelope(k, k, y) !in sent;
    }
    hide Moves; hide Tokens;
    TokensStay(s, s', 0);
  }

  lemma ProposeNetworkOk(s: Sys, s': Sys)
    requires Proposes(s, s') && Moves(s, s', 0) && NetworkOk(s)
    ensures NetworkOk(s')
  {
    hide NetworkOk; hide EnvelopeOk; hide Moves;
    var sent := ProposeSends(s, s');
    NetworkStaysOk(s, s', 0, sent);
  }

  lemma ProposeVotesSpread(s: Sys, s': Sys)
    requires Proposes(s, s') && VotesSpread(s)
    ensures VotesSpread(s')
  {
    hide App.ProposalEnvelopes; hide App.Announcements;
    assert forall e :: e in s.network && !App.IsControl(e.payload) ==> e in s'.network;
  }

  lemma ProposeSpread(s: Sys, s': Sys)
    requires Proposes(s, s') && Moves(s, s', 0) && ProposalsSpread(s)
    ensures ProposalsSpread(s')
  {
    hide EnvelopeOk; hide Moves; hide App.ProposalEnvelopes; hide App.Announcements;
    var sent := ProposeSends(s, s');
    assert forall e :: e in s.network && !App.IsControl(e.payload) ==> e in s'.network;
    assert forall e :: e in sent ==> e in s'.network;
  }

  lemma {:induction false} NoneFinalized(steps: seq<DecisionStep>, i: nat)
    requires forall d :: d in steps ==> d.Proposed?
    ensures FinalizedBy(steps, i) == []
  {
    if steps != [] {
      assert steps[|steps| - 1] in steps;
      NoneFinalized(steps[..|steps| - 1], i);
    }
  }

  /** Announcing a canonical proposal, any number of times, keeps what the steps promise. */
  lemma AnnouncementsOk(s: Sys, s': Sys, x: Proposal, more: seq<DecisionStep>)
    requires Moves(s, s', 0) && StepsOk(s) && ConsumerOk(s)
    requires s'.steps == s.steps + more && Proposed(App.ProposedValueOf(x)) in more && IsTheProposal(s, x)
    requires forall d :: d in more ==> d == Proposed(App.ProposedValueOf(x))
    requires s'.peers[0].proposals == s.peers[0].proposals + {x}
    requires AnnouncedHeights(s'.peers[0]) == AnnouncedHeights(s.peers[0])
    ensures StepsOk(s') && ConsumerOk(s')
  {
    hide ConsumerOk; hide Causal; hide UpTo; hide FinalizedBy;
    ConsumerUnaffected(s, s', more);
    CausalExtends(s, s', more);
    forall k | 0 <= k < s.n ensures FinalizedBy(s'.steps, k) == UpTo(AnnouncedHeights(s'.peers[k])) {
      FinalizedByConcat(s.steps, more, k);
      NoneFinalized(more, k);
    }
    forall d | d in s'.steps ensures StepOk(s', d) {
      if d in s.steps {
        assert StepOk(s, d);
      } else {
        assert d in more;
      }
    }
  }

  lemma ProposeStepsOk(s: Sys, s': Sys)
    requires Proposes(s, s') && Moves(s, s', 0) && StepsOk(s) && ConsumerOk(s)
    ensures StepsOk(s') && ConsumerOk(s')
  {
    var x := TheProposal(s, s.peers[0].height);
    var more := App.Announcements(s.Peers().peers, x);
    assert more[0] == Proposed(App.ProposedValueOf(x));
    hide Moves; hide StepsOk; hide ConsumerOk; hide App.ProposalEnvelopes;
    AnnouncementsOk(s, s', x, more);
  }

  lemma ProposeSafe(s: Sys, s': Sys)
    requires Safe(s) && Proposes(s, s')
    ensures Safe(s')
  {
    hide Moves; hide PeersOk; hide NetworkOk; hide Tokens; hide VotesSpread; hide ProposalsSpread;
    hide StepsOk; hide ConsumerOk;
    ProposePeersOk(s, s');
    ProposeNetworkOk(s, s');
    ProposeTokens(s, s');
    ProposeVotesSpread(s, s');
    ProposeSpread(s, s');
    ProposeStepsOk(s, s');
  }
}
