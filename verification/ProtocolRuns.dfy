/** Every step of the consensus pipe keeps its invariant, hence every run does. */
module ProtocolRuns {
  import opened Options
  import opened Primitives
  import opened PeerSets
  import opened Messages
  import opened Consensus
  import App = Application
  import opened Pipeline
  import Simulator
  import opened Protocol
  import opened ProtocolInvariant
  import opened ProtocolSteps

  /** Effects whose arms in the application are left unimplemented because no round above 0 is expected. */
  predicate IsRoundEffect(e: Effect) {
    e.GetVoteSet? || e.SendVoteSetResponse? || e.RestreamValue? || e.VerifyCertificate?
  }

  /** The system after the shell at peer `i` has handled one reaction. */
  ghost function Performed(s: Sys, i: nat, r: Reaction, o: App.Outcome): Sys
    requires i < |s.peers| && o.Sent?
  {
    s.(peers := s.peers[i := r.peer], network := s.network + multiset(o.envelopes), steps := s.steps + o.steps, slot := o.slot)
  }

  lemma HandleNone(i: nat, vs: PeerSet, slot: Option<Value>)
    ensures App.HandleAll(i, vs, [], slot) == App.Sent([], [], slot)
  {
  }

  lemma HandleOne(i: nat, vs: PeerSet, e: Effect, slot: Option<Value>)
    ensures App.HandleAll(i, vs, [e], slot) == App.Handle(i, vs, e, slot)
  {
    var o := App.Handle(i, vs, e, slot);
    assert [e][..0] == [];
    if o.Sent? {
      assert [] + o.envelopes == o.envelopes && [] + o.steps == o.steps;
    }
  }

  // --- One rule fires ----------------------------------------------------------------------------------------

  lemma NoNilQuorum(s: Sys, p: Peer)
    requires Shape(s) && LogOk(s, p)
    ensures !IsQuorum(s.Peers(), Voters(p.votes, Prevotes, p.height, p.round, NilVote))
  {
    var voters := Voters(p.votes, Prevotes, p.height, p.round, NilVote);
    assert voters == {};
    PowerMonotone(s.Peers().peers, voters, {});
    PowerOfNone(s.Peers().peers);
  }

  lemma {:induction false} PowerOfNone(peers: seq<BasePeer>)
    ensures PowerOf(peers, {}) == 0
  {
    if peers != [] {
      PowerOfNone(peers[..|peers| - 1]);
    }
  }

  lemma NobodyAhead(s: Sys, p: Peer, r: nat)
    requires Shape(s) && LogOk(s, p) && r > 0
    ensures !ExceedsThird(s.Peers(), Heard(p, r))
  {
    assert Heard(p, r) == {};
    PowerOfNone(s.Peers().peers);
  }

  /** Only voting rules and the decision rule are ever enabled, and only for the canonical proposal. */
  lemma EnabledRules(s: Sys, i: nat, rule: Rule)
    requires Shape(s) && PeersOk(s) && i < s.n && Enabled(s.Peers(), s.peers[i], rule)
    ensures s.peers[i].round == 0 && s.peers[i].height < Taken(s)
    ensures match rule
            case PrevoteRule(x, pv) => s.peers[i].step.Propose? && x == TheProposal(s, s.peers[i].height) && pv.valid && s.peers[i].lockedRound == -1
            case PrecommitRule(x, pv) => s.peers[i].step.Prevote? && x == TheProposal(s, s.peers[i].height)
            case DecisionRule(x, pv) => x == TheProposal(s, s.peers[i].height) && Supported(s, s.peers[i], s.peers[i].height)
            case _ => false
  {
    var p := s.peers[i];
    assert PeerOk(s, p);
    match rule
    case PrevoteRule(x, pv) => assert IsTheProposal(s, x) && IsTheValue(s, pv);
    case PrecommitRule(x, pv) => assert IsTheProposal(s, x);
    case PrecommitNilRule => NoNilQuorum(s, p);
    case DecisionRule(x, pv) => assert IsTheProposal(s, x) && IsTheValue(s, pv);
    case SkipRule(r) => NobodyAhead(s, p, r);
  }

  lemma FireVotes(s: Sys, i: nat, rule: Rule)
    requires Shape(s) && PeersOk(s) && i < s.n && Enabled(s.Peers(), s.peers[i], rule)
    requires rule.PrevoteRule? || rule.PrecommitRule?
    ensures var r := Fire(s.Peers(), s.peers[i], rule);
            var o := App.HandleAll(i, s.Peers(), r.effects, s.slot);
            && o.Sent? && Votes(s, i, if rule.PrevoteRule? then Prevotes else Precommits, Performed(s, i, r, o))
            && forall e :: e in r.effects ==> !IsRoundEffect(e)
  {
    EnabledRules(s, i, rule);
    var p := s.peers[i];
    hide PeersOk; hide IsQuorum; hide Voters;
    var v := TheVote(s, if rule.PrevoteRule? then Prevotes else Precommits, p.height, i);
    var r := Fire(s.Peers(), p, rule);
    assert r.effects == [Publish(VoteMsg(v))];
    HandleOne(i, s.Peers(), Publish(VoteMsg(v)), s.slot);
    hide App.VoteEnvelopes; hide App.HandleAll;
    assert s.steps + [] == s.steps;
  }

  lemma FireDecides(s: Sys, i: nat, rule: Rule)
    requires Shape(s) && PeersOk(s) && i < s.n && Enabled(s.Peers(), s.peers[i], rule)
    requires rule.DecisionRule?
    ensures var r := Fire(s.Peers(), s.peers[i], rule);
            var o := App.HandleAll(i, s.Peers(), r.effects, s.slot);
            && o.Sent? && Decides(s, i, Performed(s, i, r, o))
            && forall e :: e in r.effects ==> !IsRoundEffect(e)
  {
    EnabledRules(s, i, rule);
    hide PeersOk; hide IsQuorum; hide Voters; hide Supported;
    var r := Fire(s.Peers(), s.peers[i], rule);
    HandleOne(i, s.Peers(), r.effects[0], s.slot);
    hide App.HandleAll;
    assert s.steps + [] == s.steps;
  }

  lemma FireSafe(s: Sys, i: nat, rule: Rule)
    requires Safe(s) && i < s.n && Enabled(s.Peers(), s.peers[i], rule)
    ensures var r := Fire(s.Peers(), s.peers[i], rule);
            var o := App.HandleAll(i, s.Peers(), r.effects, s.slot);
            o.Sent? && Safe(Performed(s, i, r, o)) && forall e :: e in r.effects ==> !IsRoundEffect(e)
  {
    hide SlotOrder; hide PeersOk; hide NetworkOk; hide Tokens; hide VotesSpread; hide ProposalsSpread;
    hide StepsOk; hide ConsumerOk; hide App.HandleAll; hide Fire; hide Votes; hide Decides;
    EnabledRules(s, i, rule);
    var r := Fire(s.Peers(), s.peers[i], rule);
    if rule.DecisionRule? {
      FireDecides(s, i, rule);
      DecideSafe(s, i, Performed(s, i, r, App.HandleAll(i, s.Peers(), r.effects, s.slot)));
    } else {
      FireVotes(s, i, rule);
      VoteSafe(s, i, if rule.PrevoteRule? then Prevotes else Precommits, Performed(s, i, r, App.HandleAll(i, s.Peers(), r.effects, s.slot)));
    }
  }

  // --- One input is accepted -----------------------------------------------------------------------------------

  /** The system after peer `e.destination` has accepted `e`, before any rule fires. */
  ghost predicate Accepts(s: Sys, e: Envelope, r: Reaction, o: App.Outcome) {
    && Shape(s) && e in s.network && EnvelopeOk(s, e)
    && r == Accept(s.Peers(), s.peers[e.destination], e.payload)
    && o == App.HandleAll(e.destination, s.Peers(), r.effects, s.slot)
  }

  ghost function AfterAccept(s: Sys, e: Envelope, r: Reaction, o: App.Outcome): Sys
    requires e.destination < |s.peers| && o.Sent?
  {
    Performed(s.(network := s.network - multiset{e}), e.destination, r, o)
  }

  lemma InRange(s: Sys, e: Envelope)
    requires Shape(s) && EnvelopeOk(s, e)
    ensures e.source < s.n && e.destination < s.n
  {
  }

  lemma AcceptLearns(s: Sys, e: Envelope, r: Reaction, o: App.Outcome)
    requires Accepts(s, e, r, o) && !App.IsControl(e.payload)
    ensures o.Sent? && r.effects == [] && Learns(s, e, AfterAccept(s, e, r, o))
  {
    HandleNone(e.destination, s.Peers(), s.slot);
    assert s.steps + [] == s.steps;
    hide EnvelopeOk; hide App.HandleAll;
  }

  lemma DueIsAccepted(s: Sys, e: Envelope)
    requires Shape(s) && Tokens(s) && e in s.network && EnvelopeOk(s, e) && App.IsControl(e.payload)
    ensures e.source == e.destination && Due(s, e.destination) == Some(e.payload)
  {
    assert e == Envelope(e.destination, e.destination, e.payload);
  }

  lemma StartReaction(n: nat, p: Peer, h: nat)
    requires n > 0
    ensures var r := Accept(Numbered(n), p, StartHeight(h, Numbered(n)));
            r.peer == Started(p, h) && r.effects == if p.id == 0 then [GetValue(h, 0)] else []
  {
    assert SelectProposer(Numbered(n)) == 0;
    assert [] + [GetValue(h, 0)] == [GetValue(h, 0)];
  }

  lemma AcceptStarts(s: Sys, e: Envelope, r: Reaction, o: App.Outcome)
    requires Accepts(s, e, r, o) && SlotOrder(s) && o.Sent?
    requires e.payload.StartHeight? && e.source == e.destination && Due(s, e.destination) == Some(e.payload)
    ensures StartsHeight(s, e.destination, e.payload.height, AfterAccept(s, e, r, o))
    ensures forall x :: x in r.effects ==> x.GetValue?
  {
    hide SlotOrder; hide Accept; hide EnvelopeOk; hide App.HandleAll; hide Started;
    InRange(s, e);
    var i, h := e.destination, e.payload.height;
    StartReaction(s.n, s.peers[i], h);
    assert e == Envelope(i, i, StartHeight(h, s.Peers()));
    hide Due;
    assert s.steps + [] == s.steps;
    if i == 0 {
      HandleOne(i, s.Peers(), GetValue(h, 0), s.slot);
      var x := Envelope(0, 0, ProposeInput(ValueToPropose(h, 0, s.slot.value)));
      assert multiset([x]) == multiset{x};
    } else {
      HandleNone(i, s.Peers(), s.slot);
    }
  }

  lemma AcceptAnnounces(s: Sys, e: Envelope, r: Reaction, o: App.Outcome)
    requires Accepts(s, e, r, o) && PeersOk(s)
    requires e.payload.TimeoutElapsed? && e.source == e.destination && Due(s, e.destination) == Some(e.payload)
    ensures o.Sent? && Announces(s, e.destination, AfterAccept(s, e, r, o))
    ensures forall x :: x in r.effects ==> x.Decide?
  {
    hide App.HandleAll;
    var i := e.destination;
    var p := s.peers[i];
    assert PeerOk(s, p);
    assert Confined(s, p);
    hide PeersOk; hide PeerOk; hide EnvelopeOk;
    assert e == Envelope(i, i, TimeoutElapsed(Timeout(0, CommitTimeout)));
    var c := CommitCertificate(p.height, 0, s.built[p.height].id);
    assert r == Reaction(p.(announced := true), [Decide(c)]);
    hide Accept; hide Due; hide Confined;
    HandleOne(i, s.Peers(), Decide(c), s.slot);
    var x := Envelope(i, i, StartHeight(p.height + 1, s.Peers()));
    assert multiset([x]) == multiset{x};
  }

  lemma AcceptProposes(s: Sys, e: Envelope, r: Reaction, o: App.Outcome)
    requires Accepts(s, e, r, o) && PeersOk(s) && SlotOrder(s)
    requires e.payload.ProposeInput? && e.source == e.destination && Due(s, e.destination) == Some(e.payload)
    ensures o.Sent? && Proposes(s, AfterAccept(s, e, r, o))
    ensures forall x :: x in r.effects ==> x.Publish?
  {
    var p := s.peers[0];
    assert PeerOk(s, p);
    assert Confined(s, p);
    hide PeersOk; hide LogOk; hide OwnVotes; hide PastSupported; hide EnvelopeOk;
    var x := TheProposal(s, p.height);
    assert r.effects == [Publish(ProposalMsg(x))];
    HandleOne(0, s.Peers(), Publish(ProposalMsg(x)), s.slot);
    hide App.HandleAll; hide App.ProposalEnvelopes; hide App.Announcements;
  }

  lemma AcceptSafe(s: Sys, e: Envelope, r: Reaction, o: App.Outcome)
    requires Safe(s) && Accepts(s, e, r, o) && o.Sent?
    ensures Safe(AfterAccept(s, e, r, o)) && forall x :: x in r.effects ==> !IsRoundEffect(x)
  {
    hide SlotOrder; hide PeersOk; hide NetworkOk; hide Tokens; hide VotesSpread; hide ProposalsSpread;
    hide StepsOk; hide ConsumerOk; hide App.HandleAll; hide Accept; hide EnvelopeOk;
    hide Learns; hide StartsHeight; hide Announces; hide Proposes; hide Due; hide AfterAccept; hide Performed;
    InRange(s, e);
    var s' := AfterAccept(s, e, r, o);
    if !App.IsControl(e.payload) {
      AcceptLearns(s, e, r, o);
      LearnSafe(s, e, s');
    } else {
      DueIsAccepted(s, e);
      if e.payload.StartHeight? {
        AcceptStarts(s, e, r, o);
        StartSafe(s, e.destination, e.payload.height, s');
      } else if e.payload.TimeoutElapsed? {
        AcceptAnnounces(s, e, r, o);
        AnnounceSafe(s, e.destination, s');
      } else {
        AcceptProposes(s, e, r, o);
        ProposeSafe(s, s');
      }
    }
  }

  // --- Deliveries, steps and runs --------------------------------------------------------------------------------

  lemma ReactOneMore(vs: PeerSet, p: Peer, input: Input, rules: seq<Rule>)
    requires vs.peers != [] && rules != [] && Fires(vs, p, input, rules)
    ensures var init := rules[..|rules| - 1];
            && Fires(vs, p, input, init)
            && Enabled(vs, React(vs, p, input, init).peer, rules[|rules| - 1])
            && var r := Fire(vs, React(vs, p, input, init).peer, rules[|rules| - 1]);
               React(vs, p, input, rules) == Reaction(r.peer, React(vs, p, input, init).effects + r.effects)
  {
    hide Enabled; hide Fire; hide Accept;
  }

  /** Firing one more rule at the end of a delivery. */
  lemma DeliverOneMore(s: Sys, e: Envelope, rules: seq<Rule>)
    requires CanDeliver(s, e, rules) && rules != []
    ensures var init, i := rules[..|rules| - 1], e.destination;
            && CanDeliver(s, e, init)
            && var m := Delivered(s, e, init);
               && m.n == s.n && |m.peers| == s.n
               && Enabled(s.Peers(), m.peers[i], rules[|rules| - 1])
               && var r := Fire(s.Peers(), m.peers[i], rules[|rules| - 1]);
                  var o := App.HandleAll(i, s.Peers(), r.effects, m.slot);
                  && o.Sent? && Delivered(s, e, rules) == Performed(m, i, r, o)
                  && React(s.Peers(), s.peers[i], e.payload, rules).effects
                     == React(s.Peers(), s.peers[i], e.payload, init).effects + r.effects
  {
    hide Fires; hide React; hide Enabled; hide Fire; hide App.HandleAll;
    var init, i := rules[..|rules| - 1], e.destination;
    ReactOneMore(s.Peers(), s.peers[i], e.payload, rules);
    var before := React(s.Peers(), s.peers[i], e.payload, init);
    var after := Fire(s.Peers(), before.peer, rules[|rules| - 1]);
    App.HandleAllConcat(i, s.Peers(), before.effects, after.effects, s.slot);
    var first := App.HandleAll(i, s.Peers(), before.effects, s.slot);
    var second := App.HandleAll(i, s.Peers(), after.effects, first.slot);
    assert s.steps + (first.steps + second.steps) == s.steps + first.steps + second.steps;
    assert multiset(first.envelopes + second.envelopes) == multiset(first.envelopes) + multiset(second.envelopes);
  }

  lemma {:induction false} DeliverSafe(s: Sys, e: Envelope, rules: seq<Rule>)
    requires Safe(s) && CanDeliver(s, e, rules)
    ensures Safe(Delivered(s, e, rules))
    ensures forall x :: x in React(s.Peers(), s.peers[e.destination], e.payload, rules).effects ==> !IsRoundEffect(x)
    decreases |rules|
  {
    var i := e.destination;
    if rules == [] {
      assert EnvelopeOk(s, e);
      hide Safe; hide Accept; hide EnvelopeOk; hide App.HandleAll;
      assert Shape(s) by { SafeShape(s); }
      var r := Accept(s.Peers(), s.peers[i], e.payload);
      var o := Handled(s, e, []);
      AcceptSafe(s, e, r, o);
      assert Delivered(s, e, []) == AfterAccept(s, e, r, o);
    } else {
      hide Safe; hide Fire; hide Accept; hide Enabled; hide App.HandleAll; hide React; hide Delivered; hide CanDeliver;
      DeliverOneMore(s, e, rules);
      var init := rules[..|rules| - 1];
      DeliverSafe(s, e, init);
      FireSafe(Delivered(s, e, init), i, rules[|rules| - 1]);
    }
  }

  // --- The builder ---------------------------------------------------------------------------------------------

  /** Peers, network and steps are untouched; values may have been built, and steps read. */
  ghost predicate Outside(s: Sys, s': Sys) {
    && Shape(s) && SlotOrder(s)
    && s.built <= s'.built && Taken(s') == Taken(s)
    && s' == s.(slot := s'.slot, built := s'.built, read := s'.read, consumer := s'.consumer)
  }

  lemma OutsidePeersOk(s: Sys, s': Sys)
    requires Outside(s, s') && PeersOk(s)
    ensures PeersOk(s')
  {
    forall i | 0 <= i < s.n ensures PeerOk(s', s'.peers[i]) {
      var p := s.peers[i];
      assert PeerOk(s, p);
      assert forall h: nat :: Supported(s, p, h) ==> Supported(s', p, h);
    }
  }

  lemma OutsideNetworkOk(s: Sys, s': Sys)
    requires Outside(s, s') && NetworkOk(s) && Tokens(s) && VotesSpread(s) && ProposalsSpread(s)
    ensures NetworkOk(s') && Tokens(s') && VotesSpread(s') && ProposalsSpread(s')
  {
    forall e | e in s'.network ensures EnvelopeOk(s', e) {
      assert EnvelopeOk(s, e);
    }
    forall i | 0 <= i < s.n ensures Due(s', i) == Due(s, i) {
    }
  }

  lemma ProposedInStays(s: Sys, s': Sys, steps: seq<DecisionStep>, h: nat)
    requires Outside(s, s') && StepsOk(s) && steps <= s.steps
    ensures ProposedIn(s, steps, h) <==> ProposedIn(s', steps, h)
  {
    if ProposedIn(s', steps, h) {
      assert Proposed(TheValue(s', h)) in s.steps;
      assert StepOk(s, Proposed(TheValue(s', h)));
    }
  }

  lemma OutsideStepsOk(s: Sys, s': Sys)
    requires Outside(s, s') && StepsOk(s)
    ensures StepsOk(s')
  {
    assert forall d :: StepOk(s, d) ==> StepOk(s', d);
    forall k | 0 <= k < |s.steps| && s.steps[k].Finalized? ensures ProposedIn(s', s.steps[..k], s.steps[k].height) {
      ProposedInStays(s, s', s.steps[..k], s.steps[k].height);
    }
  }

  lemma BuildConsumerOk(s: Sys, s': Sys)
    requires Outside(s, s') && StepsOk(s) && ConsumerOk(s) && s'.read == s.read && s'.consumer == s.consumer
    ensures ConsumerOk(s')
  {
    forall h: nat ensures ProposedIn(s, s.steps[..s.read], h) <==> ProposedIn(s', s.steps[..s.read], h) {
      ProposedInStays(s, s', s.steps[..s.read], h);
    }
    assert BatchesOf(s'.built, |s.consumer.relayed|) == BatchesOf(s.built, |s.consumer.relayed|);
  }

  lemma BuildSafe(s: Sys, txs: seq<Tx>)
    requires Safe(s) && s.slot.None?
    ensures Safe(Do(s, Build(txs)))
  {
    hide PeersOk; hide NetworkOk; hide Tokens; hide VotesSpread; hide ProposalsSpread; hide StepsOk; hide ConsumerOk;
    var s' := Do(s, Build(txs));
    OutsidePeersOk(s, s');
    OutsideNetworkOk(s, s');
    OutsideStepsOk(s, s');
    BuildConsumerOk(s, s');
  }

  // --- The consumer --------------------------------------------------------------------------------------------

  /** What peer 0 finalizes next in the unread steps is the height after those already relayed. */
  lemma NextFinalized(s: Sys)
    requires Shape(s) && StepsOk(s) && ConsumerOk(s) && s.read < |s.steps|
    requires s.steps[s.read].Finalized? && s.steps[s.read].peer == 0
    ensures s.steps[s.read].height == |s.consumer.relayed|
  {
    var upto := s.steps[..s.read + 1];
    assert upto[..s.read] == s.steps[..s.read];
    assert s.steps == upto + s.steps[s.read + 1..];
    FinalizedByConcat(upto, s.steps[s.read + 1..], 0);
    var k := |s.consumer.relayed|;
    assert FinalizedBy(upto, 0) == UpTo(k) + [s.steps[s.read].height];
    assert FinalizedBy(s.steps, 0)[k] == s.steps[s.read].height;
  }

  /** Reading never fails, and a finalized step relays the value it names. */
  lemma ReadSucceeds(s: Sys)
    requires Shape(s) && StepsOk(s) && ConsumerOk(s) && s.read < |s.steps|
    ensures Consume(s.consumer, s.steps[s.read]).Some?
    ensures var d := s.steps[s.read];
            d.Finalized? && d.peer == 0 ==>
              && d.height in s.consumer.decisions
              && s.consumer.decisions[d.height].id == d.valueId
              && d.height == |s.consumer.relayed| < |s.built|
  {
    var d := s.steps[s.read];
    assert d in s.steps && StepOk(s, d);
    if d.Finalized? {
      assert ProposedIn(s, s.steps[..s.read], d.height);
      if d.peer == 0 {
        NextFinalized(s);
      }
    }
  }

  ghost predicate ReadsOne(s: Sys, s': Sys, d: DecisionStep) {
    && ConsumerOk(s) && s.read < |s.steps| && d == s.steps[s.read] && StepOk(s, d)
    && Consume(s.consumer, d).Some? && s' == s.(read := s.read + 1, consumer := Consume(s.consumer, d).value)
    && FinalizedBy(s'.steps[..s'.read], 0) ==
       FinalizedBy(s.steps[..s.read], 0) + (if d.Finalized? && d.peer == 0 then [d.height] else [])
    && forall h: nat :: ProposedIn(s', s'.steps[..s'.read], h) <==>
         ProposedIn(s, s.steps[..s.read], h) || (d.Proposed? && d.proposed.height == h)
  }

  lemma ReadRelays(s: Sys, s': Sys, d: DecisionStep)
    requires ReadsOne(s, s', d) && d.Finalized? && d.peer == 0
    requires d.height in s.consumer.decisions && d.height == |s.consumer.relayed| < |s.built|
    ensures ConsumerOk(s')
  {
    hide FinalizedBy; hide ProposedIn;
    var k := |s.consumer.relayed|;
    assert UpTo(k + 1) == UpTo(k) + [k];
    assert BatchesOf(s.built, k + 1) == BatchesOf(s.built, k) + [s.built[k].transactions];
  }

  lemma ReadNotes(s: Sys, s': Sys, d: DecisionStep)
    requires ReadsOne(s, s', d) && (d.Proposed? || d.peer != 0)
    ensures ConsumerOk(s')
  {
    hide FinalizedBy; hide ProposedIn; hide BatchesOf; hide UpTo;
  }

  lemma FinalizedByNext(steps: seq<DecisionStep>, k: nat, i: nat)
    requires k < |steps|
    ensures FinalizedBy(steps[..k + 1], i) ==
            FinalizedBy(steps[..k], i) + if steps[k].Finalized? && steps[k].peer == i then [steps[k].height] else []
  {
    assert steps[..k + 1][..k] == steps[..k];
  }

  lemma ProposedInNext(s: Sys, k: nat, h: nat)
    requires k < |s.steps| && StepOk(s, s.steps[k])
    ensures ProposedIn(s, s.steps[..k + 1], h) <==>
            ProposedIn(s, s.steps[..k], h) || (s.steps[k].Proposed? && s.steps[k].proposed.height == h)
  {
    assert s.steps[..k + 1] == s.steps[..k] + [s.steps[k]];
  }

  lemma ReadIsOne(s: Sys)
    requires Shape(s) && StepsOk(s) && ConsumerOk(s) && s.read < |s.steps| && Consume(s.consumer, s.steps[s.read]).Some?
    ensures ReadsOne(s, Do(s, Read), s.steps[s.read])
  {
    hide ConsumerOk; hide Consume; hide FinalizedBy;
    var s', d := Do(s, Read), s.steps[s.read];
    assert d in s.steps && StepOk(s, d);
    hide StepsOk;
    FinalizedByNext(s.steps, s.read, 0);
    forall h: nat
      ensures ProposedIn(s', s'.steps[..s'.read], h) <==> ProposedIn(s, s.steps[..s.read], h) || (d.Proposed? && d.proposed.height == h)
    {
      ProposedInNext(s, s.read, h);
    }
  }

  lemma ReadConsumerOk(s: Sys)
    requires Shape(s) && StepsOk(s) && ConsumerOk(s) && s.read < |s.steps| && Consume(s.consumer, s.steps[s.read]).Some?
    ensures ConsumerOk(Do(s, Read))
  {
    hide StepsOk; hide ConsumerOk; hide ReadsOne; hide Consume;
    ReadSucceeds(s);
    ReadIsOne(s);
    var d := s.steps[s.read];
    if d.Finalized? && d.peer == 0 {
      ReadRelays(s, Do(s, Read), d);
    } else {
      ReadNotes(s, Do(s, Read), d);
    }
  }

  lemma ReadSafe(s: Sys)
    requires Safe(s) && s.read < |s.steps| && Consume(s.consumer, s.steps[s.read]).Some?
    ensures Safe(Do(s, Read))
  {
    hide PeersOk; hide NetworkOk; hide Tokens; hide VotesSpread; hide ProposalsSpread; hide StepsOk; hide ConsumerOk;
    hide Consume;
    var s' := Do(s, Read);
    ReadConsumerOk(s);
    OutsidePeersOk(s, s');
    OutsideNetworkOk(s, s');
    OutsideStepsOk(s, s');
  }

  // --- Runs ------------------------------------------------------------------------------------------------------

  lemma {:induction false} StartsOnce(vs: PeerSet, k: nat, e: Envelope)
    ensures multiset(Simulator.Starts(vs, k))[e] ==
              if e.source == e.destination && e.source < k && e.payload == StartHeight(0, vs) then 1 else 0
  {
    if k > 0 {
      StartsOnce(vs, k - 1, e);
      assert Simulator.Starts(vs, k) == Simulator.Starts(vs, k - 1) + [Envelope(k - 1, k - 1, StartHeight(0, vs))];
    }
  }

  lemma InitTokens(n: nat)
    requires n > 0
    ensures Shape(Init(n)) && NetworkOk(Init(n)) && Tokens(Init(n))
  {
    var s := Init(n);
    forall e: Envelope
      ensures s.network[e] == if e.source == e.destination && e.source < n && e.payload == StartHeight(0, s.Peers()) then 1 else 0
    {
      StartsOnce(s.Peers(), n, e);
    }
  }

  lemma InitInv(n: nat)
    requires n > 0
    ensures Inv(Init(n))
  {
    hide NetworkOk; hide Tokens; hide Simulator.Starts;
    var s := Init(n);
    InitTokens(n);
    assert PeersOk(s);
    assert forall i :: 0 <= i < n ==> FinalizedBy(s.steps, i) == UpTo(0);
    assert AllQuiescent(s);
  }

  /** What a delivery changes and what it leaves alone. */
  lemma DeliverQuiet(s: Sys, e: Envelope, rules: seq<Rule>)
    requires Shape(s) && AllQuiescent(s) && CanStep(s, Deliver(e, rules)) && Shape(Do(s, Deliver(e, rules)))
    ensures AllQuiescent(Do(s, Deliver(e, rules)))
  {
    var s' := Do(s, Deliver(e, rules));
    hide Fires; hide React; hide Enabled; hide App.HandleAll; hide Quiescent;
    assert forall i :: 0 <= i < s.n && i != e.destination ==> s'.peers[i] == s.peers[i];
  }

  lemma StepKeepsInv(s: Sys, a: Action)
    requires Inv(s) && CanStep(s, a)
    ensures Inv(Do(s, a))
    ensures a.Deliver? ==> forall x :: x in React(s.Peers(), s.peers[a.envelope.destination], a.envelope.payload, a.rules).effects ==> !IsRoundEffect(x)
  {
    hide Safe; hide AllQuiescent; hide React; hide Fires; hide Enabled; hide App.HandleAll; hide Delivered; hide Quiescent;
    match a
    case Build(txs) =>
      BuildSafe(s, txs);
      QuietOutside(s, Do(s, a));
    case Deliver(e, rules) =>
      DeliverSafe(s, e, rules);
      SafeShape(s);
      SafeShape(Do(s, a));
      DeliverQuiet(s, e, rules);
    case Read =>
      ReadSafe(s);
      QuietOutside(s, Do(s, a));
  }

  lemma QuietOutside(s: Sys, s': Sys)
    requires Inv(s) && Safe(s') && s'.peers == s.peers && s'.n == s.n
    ensures Inv(s')
  {
  }

  lemma SafeShape(s: Sys)
    requires Safe(s)
    ensures Shape(s)
  {
  }

  lemma {:induction false} RunKeepsInv(n: nat, run: seq<Sys>, actions: seq<Action>, t: nat)
    requires IsRun(n, run, actions) && t < |run|
    ensures Inv(run[t]) && run[t].n == n
  {
    hide Inv; hide CanStep; hide Do;
    if t == 0 {
      InitInv(n);
    } else {
      RunKeepsInv(n, run, actions, t - 1);
      StepKeepsInv(run[t - 1], actions[t - 1]);
      DoKeepsSize(run[t - 1], actions[t - 1]);
    }
  }

  lemma DoKeepsSize(s: Sys, a: Action)
    requires CanStep(s, a)
    ensures Do(s, a).n == s.n
  {
  }
}
