/** What the consensus pipe guarantees in every run: its main theorems. */
module ProtocolTheorems {
  import opened Options
  import opened Primitives
  import opened PeerSets
  import opened Messages
  import opened Consensus
  import App = Application
  import opened Pipeline
  import opened Protocol
  import opened ProtocolInvariant
  import opened ProtocolSteps
  import opened ProtocolRuns
  import Agreement
  import EffectOrder

  // --- Round 0 ---------------------------------------------------------------------------------------------

  ghost predicate RoundZeroInput(input: Input) {
    match input
    case VoteInput(v) => v.round == 0 && v.value.Val?
    case ProposalInput(x) => x.round == 0
    case ProposedValueInput(pv) => pv.round == 0 && pv.valid
    case ProposeInput(w) => w.round == 0
    case TimeoutElapsed(t) => t.kind.CommitTimeout? && t.round == 0
    case StartHeight(_, _) => true
  }

  /** No peer leaves round 0, and everything sent or logged belongs to round 0; no vote is nil. */
  lemma RoundZero(s: Sys)
    requires Inv(s)
    ensures forall i :: 0 <= i < s.n ==> s.peers[i].round <= 0
    ensures forall i, v :: 0 <= i < s.n && v in s.peers[i].votes ==> v.round == 0 && v.value.Val?
    ensures forall e :: e in s.network ==> RoundZeroInput(e.payload)
  {
    hide SlotOrder; hide VotesSpread; hide ProposalsSpread; hide StepsOk; hide ConsumerOk; hide AllQuiescent; hide Quiescent;
    forall i | 0 <= i < s.n
      ensures s.peers[i].round <= 0
      ensures forall v :: v in s.peers[i].votes ==> v.round == 0 && v.value.Val?
    {
      assert PeerOk(s, s.peers[i]);
    }
    forall e | e in s.network ensures RoundZeroInput(e.payload) {
      assert EnvelopeOk(s, e);
      if App.IsControl(e.payload) {
        assert e == Envelope(e.source, e.source, e.payload);
        assert Due(s, e.source) == Some(e.payload);
      }
    }
  }

  /** In every run the effects reserved for later rounds are never produced. */
  lemma RoundZeroInEveryRun(n: nat, run: seq<Sys>, actions: seq<Action>, t: nat)
    requires IsRun(n, run, actions) && t < |run|
    ensures forall i :: 0 <= i < |run[t].peers| ==> run[t].peers[i].round <= 0
    ensures forall i, v :: 0 <= i < |run[t].peers| && v in run[t].peers[i].votes ==> v.round == 0 && v.value.Val?
    ensures forall e :: e in run[t].network ==> RoundZeroInput(e.payload)
    ensures t < |actions| && actions[t].Deliver? ==>
              var d := actions[t];
              && CanDeliver(run[t], d.envelope, d.rules)
              && forall x :: x in React(run[t].Peers(), run[t].peers[d.envelope.destination], d.envelope.payload, d.rules).effects ==>
                   !IsRoundEffect(x)
  {
    RunKeepsInv(n, run, actions, t);
    assert |run[t].peers| == run[t].n;
    hide Safe; hide Fires; hide React; hide Enabled; hide App.HandleAll; hide Delivered; hide Quiescent; hide AllQuiescent; hide Inv;
    RoundZero(run[t]);
    if t < |actions| {
      StepKeepsInv(run[t], actions[t]);
    }
  }

  // --- Agreement ---------------------------------------------------------------------------------------------

  /** A delivery is a step of the cluster of `Agreement`, in which no peer is faulty. */
  lemma DeliveryIsClusterStep(s: Sys, e: Envelope, rules: seq<Rule>)
    requires Inv(s) && CanDeliver(s, e, rules)
    ensures Agreement.ClusterStep(s.Peers(), {}, s.peers, Delivered(s, e, rules).peers, e.destination, e.payload, rules)
  {
    hide Fires; hide React; hide Enabled; hide App.HandleAll;
    assert EnvelopeOk(s, e);
    if e.payload.StartHeight? {
      DueIsAccepted(s, e);
    }
  }

  lemma InitIsCluster(n: nat)
    requires n > 0
    ensures |Init(n).peers| == n && Agreement.ClusterInv(Numbered(n), Init(n).peers, {})
  {
    PowerOfNone(Numbered(n).peers);
  }

  lemma StepIsClusterStep(s: Sys, a: Action)
    requires Inv(s) && CanStep(s, a) && |s.peers| == s.n && Agreement.ClusterInv(s.Peers(), s.peers, {})
    ensures |Do(s, a).peers| == s.n == Do(s, a).n && Agreement.ClusterInv(s.Peers(), Do(s, a).peers, {})
  {
    hide Inv; hide Agreement.ClusterInv; hide Agreement.ClusterStep; hide Fires; hide React; hide Enabled; hide App.HandleAll; hide Quiescent;
    if a.Deliver? {
      DeliveryIsClusterStep(s, a.envelope, a.rules);
      Agreement.ClusterStepKeeps(s.Peers(), {}, s.peers, Do(s, a).peers, a.envelope.destination, a.envelope.payload, a.rules);
    }
  }

  lemma {:induction false} RunKeepsCluster(n: nat, run: seq<Sys>, actions: seq<Action>, t: nat)
    requires IsRun(n, run, actions) && t < |run|
    ensures |run[t].peers| == run[t].n == n && Agreement.ClusterInv(Numbered(n), run[t].peers, {})
  {
    hide Inv; hide CanStep; hide Do; hide Init; hide Agreement.ClusterInv;
    RunKeepsInv(n, run, actions, t);
    if t == 0 {
      InitIsCluster(n);
    } else {
      RunKeepsInv(n, run, actions, t - 1);
      RunKeepsCluster(n, run, actions, t - 1);
      StepIsClusterStep(run[t - 1], actions[t - 1]);
    }
  }

  /**
   In every run, two peers that finalize a height name the same value id: that of the value the proposer
   published for the height. Quorum intersection gives the first part, for quorums in any rounds.
   */
  lemma AgreementInEveryRun(n: nat, run: seq<Sys>, actions: seq<Action>, t: nat, a: DecisionStep, b: DecisionStep)
    requires IsRun(n, run, actions) && t < |run|
    requires a in run[t].steps && b in run[t].steps && a.Finalized? && b.Finalized? && a.height == b.height
    ensures a.valueId == b.valueId == a.height
    ensures |run[t].peers| == n
    ensures exists x :: x in run[t].peers[0].proposals && x.height == a.height && x.value.id == a.valueId && x.proposer == 0
  {
    var s := run[t];
    RunKeepsInv(n, run, actions, t);
    assert StepOk(s, a) && StepOk(s, b);
    var h := a.height;
    FinalizedIsSupported(s, a);
    FinalizedIsSupported(s, b);
    assert a.valueId == b.valueId by {
      RunKeepsCluster(n, run, actions, t);
      Agreement.PrecommitQuorumsAgree(Numbered(n), s.peers, {}, h, a.peer, 0, a.valueId, b.peer, 0, b.valueId);
    }
    var x := TheProposal(s, h);
    assert PeerOk(s, s.peers[a.peer]);
    assert x in s.peers[0].proposals;
  }

  lemma {:induction false} FinalizedListed(steps: seq<DecisionStep>, d: DecisionStep)
    requires d in steps && d.Finalized?
    ensures d.height in FinalizedBy(steps, d.peer)
  {
    if d != steps[|steps| - 1] {
      assert d in steps[..|steps| - 1];
      FinalizedListed(steps[..|steps| - 1], d);
    }
  }

  lemma FinalizedIsSupported(s: Sys, d: DecisionStep)
    requires Inv(s) && d in s.steps && d.Finalized?
    ensures StepOk(s, d) && d.peer < |s.peers| && Supported(s, s.peers[d.peer], d.height)
    ensures Agreement.HoldsPrecommits(s.Peers(), s.peers[d.peer], d.height, 0, d.valueId)
  {
    assert StepOk(s, d);
    var p := s.peers[d.peer];
    FinalizedListed(s.steps, d);
    assert d.height < AnnouncedHeights(p);
    assert PeerOk(s, p);
    assert Supported(s, p, d.height);
  }

  /**
   Values compare by id alone. In every reachable state this loses nothing: two proposals anywhere in the
   system whose values have the same id carry the same batch.
   */
  lemma ValuesIdentifiedById(n: nat, run: seq<Sys>, actions: seq<Action>, t: nat, i: nat, j: nat, x: Proposal, y: Proposal)
    requires IsRun(n, run, actions) && t < |run| && i < |run[t].peers| && j < |run[t].peers|
    requires x in run[t].peers[i].proposals && y in run[t].peers[j].proposals && x.value.id == y.value.id
    ensures x == y && x.height < |run[t].built| && x.value == run[t].built[x.height]
  {
    RunKeepsInv(n, run, actions, t);
    assert PeerOk(run[t], run[t].peers[i]) && PeerOk(run[t], run[t].peers[j]);
  }

  // --- The network never runs dry -----------------------------------------------------------------------------

  lemma {:induction false} LowestPeer(peers: seq<Peer>) returns (m: nat)
    requires peers != []
    ensures m < |peers| && forall i :: 0 <= i < |peers| ==> peers[m].height <= peers[i].height
  {
    if |peers| == 1 {
      m := 0;
    } else {
      m := LowestPeer(peers[..|peers| - 1]);
      if peers[|peers| - 1].height < peers[m].height {
        m := |peers| - 1;
      }
    }
  }

  lemma DueIsInFlight(s: Sys, i: nat)
    requires Shape(s) && Tokens(s) && i < s.n
    ensures Due(s, i).Some? ==> Envelope(i, i, Due(s, i).value) in s.network
  {
    var due := Due(s, i);
    if due.Some? {
      assert App.IsControl(due.value);
      assert s.network[Envelope(i, i, due.value)] == 1;
    }
  }

  /** With nothing in flight every peer is in the middle of a height, and what anyone knows everyone knows. */
  lemma EmptyMeansShared(s: Sys)
    requires Inv(s) && s.network == multiset{}
    ensures forall i :: 0 <= i < s.n ==> s.peers[i].round == 0 && s.peers[i].decision.None?
    ensures s.peers[0].height < |s.built| && TheProposal(s, s.peers[0].height) in s.peers[0].proposals
    ensures forall i, j :: 0 <= i < s.n && 0 <= j < s.n ==> s.peers[i].votes <= s.peers[j].votes
    ensures forall i, x :: 0 <= i < s.n && x in s.peers[0].proposals ==>
              x in s.peers[i].proposals && App.ProposedValueOf(x) in s.peers[i].values
  {
    forall i | 0 <= i < s.n ensures Due(s, i) == None && s.peers[i].round <= 0 {
      DueIsInFlight(s, i);
      assert PeerOk(s, s.peers[i]);
    }
    hide Tokens; hide StepsOk; hide ConsumerOk; hide NetworkOk;
    forall i, j | 0 <= i < s.n && 0 <= j < s.n ensures s.peers[i].votes <= s.peers[j].votes {
      EmptyMeansVotesShared(s, i, j);
    }
  }

  lemma EmptyMeansVotesShared(s: Sys, i: nat, j: nat)
    requires Shape(s) && PeersOk(s) && VotesSpread(s) && s.network == multiset{} && i < s.n && j < s.n
    ensures s.peers[i].votes <= s.peers[j].votes
  {
    forall v | v in s.peers[i].votes ensures v in s.peers[j].votes {
      assert PeerOk(s, s.peers[i]);
      assert v in s.peers[v.voter].votes;
    }
  }

  /** A peer in the middle of a height that holds the proposal and a precommit quorum is not quiescent. */
  lemma WouldDecide(s: Sys, m: nat)
    requires Shape(s) && m < s.n && s.peers[m].round == 0 && s.peers[m].decision.None?
    requires Supported(s, s.peers[m], s.peers[m].height)
    ensures !AllQuiescent(s)
  {
    var p := s.peers[m];
    assert Enabled(s.Peers(), p, DecisionRule(TheProposal(s, p.height), TheValue(s, p.height)));
  }

  lemma SomeoneAhead(s: Sys, m: nat, q: nat)
    requires Inv(s) && m < s.n && q < s.n && s.peers[m].height < s.peers[q].height
    ensures s.network != multiset{}
  {
    if s.network == multiset{} {
      EmptyMeansShared(s);
      var p, h := s.peers[m], s.peers[m].height;
      assert PeerOk(s, s.peers[q]);
      assert Supported(s, s.peers[q], h);
      var val := Val(s.built[h].id);
      QuorumMonotone(s.Peers(), Voters(s.peers[q].votes, Precommits, h, 0, val), Voters(p.votes, Precommits, h, 0, val));
      WouldDecide(s, m);
    }
  }

  /** If all peers hold the proposal of one height, quiescence forces all of them to have precommitted. */
  lemma QuietMeansPrecommitted(s: Sys, h: nat)
    requires Inv(s) && h < Taken(s)
    requires forall i :: 0 <= i < s.n ==>
               && s.peers[i].height == h && s.peers[i].round == 0 && s.peers[i].decision.None?
               && TheProposal(s, h) in s.peers[i].proposals && TheValue(s, h) in s.peers[i].values
    requires forall i, j :: 0 <= i < s.n && 0 <= j < s.n ==> s.peers[i].votes <= s.peers[j].votes
    ensures forall i :: 0 <= i < s.n ==> s.peers[i].step.Precommit?
  {
    hide SlotOrder; hide NetworkOk; hide Tokens; hide VotesSpread; hide ProposalsSpread; hide StepsOk; hide ConsumerOk;
    var x, pv := TheProposal(s, h), TheValue(s, h);
    forall i | 0 <= i < s.n ensures TheVote(s, Prevotes, h, i) in s.peers[i].votes {
      assert PeerOk(s, s.peers[i]);
      assert !Enabled(s.Peers(), s.peers[i], PrevoteRule(x, pv));
    }
    forall i | 0 <= i < s.n ensures s.peers[i].step.Precommit? {
      var p := s.peers[i];
      var voters := Voters(p.votes, Prevotes, h, 0, Val(x.value.id));
      forall k: nat | k < s.n ensures k in voters {
        assert TheVote(s, Prevotes, h, k) in p.votes;
      }
      EveryoneIsQuorum(s.n, voters);
      assert PeerOk(s, p);
      assert !Enabled(s.Peers(), p, PrecommitRule(x, pv));
    }
  }

  lemma AllLevel(s: Sys)
    requires Inv(s) && forall i :: 0 <= i < s.n ==> s.peers[i].height == s.peers[0].height
    ensures s.network != multiset{}
  {
    if s.network == multiset{} {
      EmptyMeansShared(s);
      var h := s.peers[0].height;
      assert h < Taken(s);
      QuietMeansPrecommitted(s, h);
      var p := s.peers[0];
      var voters := Voters(p.votes, Precommits, h, 0, Val(s.built[h].id));
      forall k: nat | k < s.n ensures k in voters {
        assert PeerOk(s, s.peers[k]);
        assert TheVote(s, Precommits, h, k) in s.peers[k].votes;
        assert TheVote(s, Precommits, h, k) in p.votes;
      }
      EveryoneIsQuorum(s.n, voters);
      WouldDecide(s, 0);
    }
  }

  /** The network is never empty, so the simulator's blocking receive never hangs. */
  lemma NeverStalls(s: Sys)
    requires Inv(s)
    ensures s.network != multiset{}
  {
    hide Safe; hide AllQuiescent;
    SafeShape(s);
    var m := LowestPeer(s.peers);
    if q :| 0 <= q < |s.peers| && s.peers[q].height > s.peers[m].height {
      SomeoneAhead(s, m, q);
    } else {
      AllLevel(s);
    }
  }

  lemma NeverStallsInAnyRun(n: nat, run: seq<Sys>, actions: seq<Action>, t: nat)
    requires IsRun(n, run, actions) && t < |run|
    ensures run[t].network != multiset{}
  {
    RunKeepsInv(n, run, actions, t);
    NeverStalls(run[t]);
  }

  // --- Something can always happen -------------------------------------------------------------------------------

  /** How many more rules a peer may fire in its height. */
  function RulesLeft(p: Peer): nat {
    if p.decision.Some? then 0
    else match p.step case Propose => 3 case Prevote => 2 case Precommit => 1
  }

  lemma StartPanicsIff(s: Sys, e: Envelope)
    requires Shape(s) && EnvelopeOk(s, e) && e.payload.StartHeight? && e.payload.validators == s.Peers()
    ensures App.HandleAll(e.destination, s.Peers(), Accept(s.Peers(), s.peers[e.destination], e.payload).effects, s.slot).Panic?
            <==> e.destination == 0 && s.slot.None?
  {
    hide Accept; hide App.HandleAll;
    var h := e.payload.height;
    StartReaction(s.n, s.peers[e.destination], h);
    HandleOne(e.destination, s.Peers(), GetValue(h, 0), s.slot);
    HandleNone(e.destination, s.Peers(), s.slot);
  }

  /**
   The application is documented to wait for a value to propose; it panics instead. In a reachable state
   accepting an envelope panics exactly when peer 0 starts a height while the slot is empty.
   */
  lemma AcceptancePanicsIff(s: Sys, e: Envelope)
    requires Inv(s) && e in s.network && EnvelopeOk(s, e)
    ensures App.HandleAll(e.destination, s.Peers(), Accept(s.Peers(), s.peers[e.destination], e.payload).effects, s.slot).Panic?
            <==> e.payload.StartHeight? && e.destination == 0 && s.slot.None?
  {
    hide SlotOrder; hide PeersOk; hide NetworkOk; hide Tokens; hide VotesSpread; hide ProposalsSpread;
    hide StepsOk; hide ConsumerOk; hide App.HandleAll; hide Accept; hide EnvelopeOk; hide AfterAccept;
    hide Announces; hide Proposes; hide Learns; hide AllQuiescent;
    InRange(s, e);
    var r := Accept(s.Peers(), s.peers[e.destination], e.payload);
    var o := App.HandleAll(e.destination, s.Peers(), r.effects, s.slot);
    if !App.IsControl(e.payload) {
      AcceptLearns(s, e, r, o);
    } else {
      DueIsAccepted(s, e);
      match e.payload
      case StartHeight(_, _) => StartPanicsIff(s, e);
      case TimeoutElapsed(_) => AcceptAnnounces(s, e, r, o);
      case ProposeInput(_) => AcceptProposes(s, e, r, o);
    }
  }

  /** The panic is within reach: it awaits peer 0's first envelope if the builder has not been quick enough. */
  lemma FirstDeliveryMayPanic(n: nat)
    requires n > 0
    ensures var s, e := Init(n), Envelope(0, 0, StartHeight(0, Numbered(n)));
            && Inv(s) && e in s.network
            && App.HandleAll(0, s.Peers(), Accept(s.Peers(), s.peers[0], e.payload).effects, s.slot).Panic?
  {
    var s, e := Init(n), Envelope(0, 0, StartHeight(0, Numbered(n)));
    InitInv(n);
    StartsOnce(Numbered(n), n, e);
    assert e in s.network;
    assert EnvelopeOk(s, e);
    hide Inv; hide Accept; hide App.HandleAll; hide EnvelopeOk;
    AcceptancePanicsIff(s, e);
  }

  /** An enabled rule can always be fired after a delivery, and it leaves fewer rules to fire. */
  lemma DeliverExtends(s: Sys, e: Envelope, rules: seq<Rule>, rule: Rule)
    requires Safe(s) && CanDeliver(s, e, rules)
    requires Enabled(s.Peers(), Delivered(s, e, rules).peers[e.destination], rule)
    ensures CanDeliver(s, e, rules + [rule])
    ensures RulesLeft(Delivered(s, e, rules + [rule]).peers[e.destination]) < RulesLeft(Delivered(s, e, rules).peers[e.destination])
  {
    var i := e.destination;
    var more := rules + [rule];
    assert more[..|more| - 1] == rules && more[|more| - 1] == rule;
    var m := Delivered(s, e, rules);
    assert Safe(m) by { DeliverSafe(s, e, rules); }
    hide Safe; hide Enabled; hide Accept; hide App.HandleAll;
    var before := React(s.Peers(), s.peers[i], e.payload, rules);
    FireSafe(m, i, rule);
    var after := Fire(s.Peers(), before.peer, rule);
    assert Fires(s.Peers(), s.peers[i], e.payload, more);
    ReactOneMore(s.Peers(), s.peers[i], e.payload, more);
    App.HandleAllConcat(i, s.Peers(), before.effects, after.effects, s.slot);
    FiringUsesUpRules(m, i, rule);
  }

  lemma InFlightOk(s: Sys, e: Envelope)
    requires Safe(s) && e in s.network
    ensures Shape(s) && EnvelopeOk(s, e)
  {
  }

  /** The same for a whole delivery: no rule that fires after the input is accepted adds a panic. */
  lemma {:induction false} DeliveryPanicsIff(s: Sys, e: Envelope, rules: seq<Rule>)
    requires Inv(s) && e in s.network && e.destination < s.n && Fires(s.Peers(), s.peers[e.destination], e.payload, rules)
    ensures Handled(s, e, rules).Panic? <==> e.payload.StartHeight? && e.destination == 0 && s.slot.None?
    decreases |rules|
  {
    hide Safe; hide AllQuiescent; hide Accept; hide App.HandleAll; hide Enabled; hide EnvelopeOk;
    SafeShape(s);
    if rules == [] {
      InFlightOk(s, e);
      AcceptancePanicsIff(s, e);
    } else {
      var init, last := rules[..|rules| - 1], rules[|rules| - 1];
      DeliveryPanicsIff(s, e, init);
      if Handled(s, e, init).Sent? {
        DeliverExtends(s, e, init, last);
        assert init + [last] == rules;
      } else {
        var before := React(s.Peers(), s.peers[e.destination], e.payload, init);
        App.HandleAllConcat(e.destination, s.Peers(), before.effects, Fire(s.Peers(), before.peer, last).effects, s.slot);
      }
    }
  }

  /** Whatever order the library yields its effects in, a simulator step panics exactly in that case. */
  lemma SimulatorStepPanicsIff(s: Sys, e: Envelope, rules: seq<Rule>, effects: seq<Effect>, p': Peer)
    requires Inv(s) && e in s.network && e.destination < s.n
    requires LibraryAnswers(s.Peers(), s.peers[e.destination], e.payload, rules, effects, p')
    ensures App.HandleAll(e.destination, s.Peers(), effects, s.slot).Panic?
            <==> e.payload.StartHeight? && e.destination == 0 && s.slot.None?
  {
    hide Safe; hide AllQuiescent; hide App.HandleAll; hide Fires; hide React; hide Visible; hide Quiescent;
    SafeShape(s);
    var i, vs := e.destination, s.Peers();
    var all := React(vs, s.peers[i], e.payload, rules).effects;
    DeliveryPanicsIff(s, e, rules);
    SilentEffects(i, vs, effects, s.slot);
    if App.HandleAll(i, vs, all, s.slot).Sent? {
      EffectOrder.OrderIsImmaterial(i, vs, all, Visible(effects), s.slot);
    } else if App.HandleAll(i, vs, Visible(effects), s.slot).Sent? {
      EffectOrder.OrderIsImmaterial(i, vs, Visible(effects), all, s.slot);
    }
  }

  lemma FiringUsesUpRules(s: Sys, i: nat, rule: Rule)
    requires Safe(s) && i < s.n && Enabled(s.Peers(), s.peers[i], rule)
    ensures RulesLeft(Fire(s.Peers(), s.peers[i], rule).peer) < RulesLeft(s.peers[i])
  {
    hide SlotOrder; hide PeersOk; hide NetworkOk; hide Tokens; hide VotesSpread; hide ProposalsSpread;
    hide StepsOk; hide ConsumerOk; hide Supported;
    EnabledRules(s, i, rule);
  }

  lemma {:induction false} Settles(s: Sys, e: Envelope, rules: seq<Rule>) returns (all: seq<Rule>)
    requires Safe(s) && CanDeliver(s, e, rules)
    ensures CanStep(s, Deliver(e, all))
    decreases RulesLeft(Delivered(s, e, rules).peers[e.destination])
  {
    hide Safe; hide CanDeliver; hide Delivered; hide Enabled;
    DeliveredInRange(s, e, rules);
    var p := Delivered(s, e, rules).peers[e.destination];
    if Quiescent(s.Peers(), p) {
      all := rules;
    } else {
      var rule :| Enabled(s.Peers(), p, rule);
      DeliverExtends(s, e, rules, rule);
      all := Settles(s, e, rules + [rule]);
    }
  }

  lemma DeliveredInRange(s: Sys, e: Envelope, rules: seq<Rule>)
    requires CanDeliver(s, e, rules)
    ensures s.Peers().peers != [] && e.destination < |Delivered(s, e, rules).peers|
  {
  }

  /** With a value in the slot, every envelope in flight can be delivered right now. */
  lemma EveryEnvelopeIsDeliverable(s: Sys, e: Envelope) returns (rules: seq<Rule>)
    requires Inv(s) && s.slot.Some? && e in s.network
    ensures CanStep(s, Deliver(e, rules))
  {
    assert EnvelopeOk(s, e);
    hide App.HandleAll; hide Accept;
    AcceptancePanicsIff(s, e);
    assert CanDeliver(s, e, []);
    rules := Settles(s, e, []);
  }

  /** In no reachable state is everything stuck: the builder can build, or some envelope can be delivered. */
  lemma NoDeadlockInAnyRun(n: nat, run: seq<Sys>, actions: seq<Action>, t: nat) returns (a: Action)
    requires IsRun(n, run, actions) && t < |run|
    ensures CanStep(run[t], a) && !a.Read?
  {
    RunKeepsInv(n, run, actions, t);
    hide Inv; hide CanDeliver; hide Delivered; hide Quiescent;
    var s := run[t];
    if s.slot.None? {
      a := Build([]);
    } else {
      NeverStalls(s);
      var e :| e in s.network;
      var rules := EveryEnvelopeIsDeliverable(s, e);
      a := Deliver(e, rules);
    }
  }

  // --- The consumer and the pipe -----------------------------------------------------------------------------------

  /**
   Whatever the consumer reads next, its unwrap succeeds; a step finalized by peer 0 is for the height after
   those relayed so far, and the value found by height is the one the decision names.
   */
  lemma ConsumerNeverPanics(n: nat, run: seq<Sys>, actions: seq<Action>, t: nat)
    requires IsRun(n, run, actions) && t < |run| && run[t].read < |run[t].steps|
    ensures CanStep(run[t], Read)
    ensures var s := run[t];
            var d := s.steps[s.read];
            d.Finalized? && d.peer == 0 ==>
              && d.height == |s.consumer.relayed|
              && d.height in s.consumer.decisions
              && s.consumer.decisions[d.height].id == d.valueId
              && Do(s, Read).consumer.relayed == s.consumer.relayed + [s.consumer.decisions[d.height].transactions]
  {
    RunKeepsInv(n, run, actions, t);
    ReadSucceeds(run[t]);
  }

  /** In every run the consumer of the machine is the consumer's loop over the steps read so far. */
  lemma {:induction false} ConsumerIsLoop(n: nat, run: seq<Sys>, actions: seq<Action>, t: nat)
    requires IsRun(n, run, actions) && t < |run|
    ensures run[t].read <= |run[t].steps|
    ensures ConsumeAll(Consumer(map[], []), run[t].steps[..run[t].read]) == Some(run[t].consumer)
  {
    if t > 0 {
      hide Consume;
      ConsumerIsLoop(n, run, actions, t - 1);
      StepContinuesLoop(run[t - 1], actions[t - 1]);
    }
  }

  lemma StepContinuesLoop(s: Sys, a: Action)
    requires CanStep(s, a) && s.read <= |s.steps| && ConsumeAll(Consumer(map[], []), s.steps[..s.read]) == Some(s.consumer)
    ensures var s' := Do(s, a);
            s'.read <= |s'.steps| && ConsumeAll(Consumer(map[], []), s'.steps[..s'.read]) == Some(s'.consumer)
  {
    hide Consume; hide Fires; hide React; hide App.HandleAll; hide Quiescent;
    match a
    case Build(_) =>
    case Deliver(e, rules) => assert Do(s, a).steps[..s.read] == s.steps[..s.read];
    case Read => assert s.steps[..s.read + 1][..s.read] == s.steps[..s.read];
  }

  /**
   In every run, a consumer that reads everything announced so far never fails, and it has then relayed the
   batch of every height that peer 0 has finalized: the first batches built, in order.
   */
  lemma ReadingAllRelaysFinalized(n: nat, run: seq<Sys>, actions: seq<Action>, t: nat)
    requires IsRun(n, run, actions) && t < |run|
    ensures var c := ConsumeAll(Consumer(map[], []), run[t].steps);
            var finalized := FinalizedBy(run[t].steps, 0);
            && c.Some?
            && |finalized| <= |run[t].built|
            && c.value.relayed == BatchesOf(run[t].built, |finalized|)
  {
    hide Inv; hide Consume; hide FinalizedBy;
    RunKeepsInv(n, run, actions, t);
    ConsumerIsLoop(n, run, actions, t);
    ReadsToTheEnd(run[t]);
  }

  lemma {:induction false} ReadsToTheEnd(s: Sys)
    requires Inv(s) && s.read <= |s.steps| && ConsumeAll(Consumer(map[], []), s.steps[..s.read]) == Some(s.consumer)
    ensures var c := ConsumeAll(Consumer(map[], []), s.steps);
            var finalized := FinalizedBy(s.steps, 0);
            c.Some? && |finalized| <= |s.built| && c.value.relayed == BatchesOf(s.built, |finalized|)
    decreases |s.steps| - s.read
  {
    if s.read == |s.steps| {
      assert s.steps[..s.read] == s.steps;
      assert ConsumerOk(s);
    } else {
      ReadSucceeds(s);
      hide Safe; hide AllQuiescent; hide Consume;
      StepContinuesLoop(s, Read);
      StepKeepsInv(s, Read);
      ReadsToTheEnd(Do(s, Read));
    }
  }

  /** A plain FIFO pipe: what was put in, and what has come out. */
  datatype Pipe = Pipe(input: seq<seq<Tx>>, output: seq<seq<Tx>>)

  predicate PipeNext(p: Pipe, q: Pipe) {
    || q == p
    || (|q.input| == |p.input| + 1 && p.input <= q.input && q.output == p.output)
    || (q.input == p.input && |p.output| < |p.input| && q.output == p.output + [p.input[|p.output|]])
  }

  ghost predicate PipeValid(p: Pipe) {
    p.output <= p.input
  }

  function PipeOf(s: Sys): Pipe {
    Pipe(BatchesOf(s.built, |s.built|), s.consumer.relayed)
  }

  /** Every step of the system is a step of the pipe: a build puts a batch in, a relay takes the next one out. */
  lemma StepRefinesPipe(s: Sys, a: Action)
    requires Inv(s) && CanStep(s, a)
    ensures PipeNext(PipeOf(s), PipeOf(Do(s, a)))
    ensures a.Build? ==> PipeOf(Do(s, a)) == Pipe(PipeOf(s).input + [a.txs], PipeOf(s).output)
    ensures a.Deliver? ==> PipeOf(Do(s, a)) == PipeOf(s)
  {
    hide PeersOk; hide NetworkOk; hide Tokens; hide VotesSpread; hide ProposalsSpread; hide AllQuiescent; hide SlotOrder;
    match a
    case Build(txs) =>
      assert BatchesOf(s.built + [Value(|s.built|, txs)], |s.built| + 1) == BatchesOf(s.built, |s.built|) + [txs];
    case Deliver(_, _) => hide Fires; hide React; hide App.HandleAll; hide Quiescent;
    case Read =>
      ReadSucceeds(s);
      hide StepsOk;
      assert BatchesOf(s.built, |s.built|)[..|s.consumer.relayed|] == BatchesOf(s.built, |s.consumer.relayed|);
  }

  /**
   In every run the batches relayed to the execution task are a prefix of the batches built, in order,
   without loss, duplication or swap; the batch relayed at height h is the one built with id h.
   */
  lemma RelayedIsPrefixOfBuilt(n: nat, run: seq<Sys>, actions: seq<Action>, t: nat)
    requires IsRun(n, run, actions) && t < |run|
    ensures PipeValid(PipeOf(run[t]))
    ensures |run[t].consumer.relayed| <= |run[t].built|
    ensures forall h :: 0 <= h < |run[t].consumer.relayed| ==>
              run[t].built[h].id == h && run[t].consumer.relayed[h] == run[t].built[h].transactions
    ensures t < |actions| ==> PipeNext(PipeOf(run[t]), PipeOf(run[t + 1]))
  {
    RunKeepsInv(n, run, actions, t);
    if t < |actions| {
      StepRefinesPipe(run[t], actions[t]);
    }
  }
}
