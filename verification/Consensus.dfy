/**
 The consensus library as the application sees it. The library is not part of the repository; this module
 is the one place that says what is assumed of it. Each peer follows the rules of Algorithm 1 of "The
 latest gossip on BFT consensus" (arXiv:1807.04938), adapted to how the application uses the library:
 - a proposal counts once both its `Proposal` and its `ProposedValue` have arrived;
 - a peer logs its own votes and its own proposal at once, without the network;
 - the decision rule schedules a Commit timeout, and `Decide` follows when that timeout elapses;
 - messages of every height stay in the log, so those of a future height wait there until it starts;
 - no proposal carries a proof-of-lock round, so lines 28-33 never apply.
 An input is first accepted, then enabled rules fire in any order until none is enabled.
 */
module Consensus {
  import opened Options
  import opened PeerSets
  import opened Messages

  datatype Step = Propose | Prevote | Precommit

  datatype Commitment = Commitment(round: int, value: Value)

  /** Consensus state of one peer; round -1 means that no height was started yet. */
  datatype Peer = Peer(
    id: nat,
    height: nat,
    round: int,
    step: Step,
    lockedRound: int,
    lockedId: nat,
    validRound: int,
    validValue: Option<Value>,
    proposals: set<Proposal>,
    values: set<ProposedValue>,
    votes: set<Vote>,
    decision: Option<Commitment>,
    announced: bool)

  datatype Reaction = Reaction(peer: Peer, effects: seq<Effect>)

  function NewPeer(id: nat): Peer {
    Peer(id, 0, -1, Propose, -1, 0, -1, None, {}, {}, {}, None, false)
  }

  function Voters(votes: set<Vote>, kind: VoteType, height: nat, round: int, value: NilOrVal): set<nat> {
    set v | v in votes && v.kind == kind && v.height == height && v.round == round && v.value == value :: v.voter
  }

  /** The peers heard from in a given round of a given height. */
  function Heard(p: Peer, round: int): set<nat> {
    (set v | v in p.votes && v.height == p.height && v.round == round :: v.voter)
    + (set x | x in p.proposals && x.height == p.height && x.round == round :: x.proposer)
  }

  /** Both halves of a proposal of the current height have arrived, and it comes from the proposer. */
  predicate Complete(vs: PeerSet, p: Peer, x: Proposal, pv: ProposedValue)
    requires vs.peers != []
  {
    && x in p.proposals && pv in p.values
    && x.height == pv.height == p.height
    && x.round == pv.round
    && x.value.id == pv.value.id
    && x.proposer == SelectProposer(vs)
  }

  /** Casts a vote: it is logged at once and published. */
  function Cast(p: Peer, v: Vote): Reaction {
    Reaction(p.(votes := p.votes + {v}), [Publish(VoteMsg(v))])
  }

  /** Proposes a value: both halves of the proposal are logged at once, and the proposal is published. */
  function MakeProposal(p: Peer, value: Value): Reaction {
    var x := NewProposal(p.height, p.round, value, p.id);
    Reaction(
      p.(proposals := p.proposals + {x},
         values := p.values + {ProposedValue(p.height, p.round, -1, p.id, value, true)}),
      [Publish(ProposalMsg(x))])
  }

  /** Lines 11-21. A round above 0 also asks for the votes of that round. */
  function EnterRound(vs: PeerSet, p: Peer, round: nat): Reaction
    requires vs.peers != []
  {
    var q := p.(round := round, step := Propose);
    var ask := if round > 0 then [GetVoteSet(p.height, round)] else [];
    if SelectProposer(vs) != p.id then
      Reaction(q, ask)
    else if p.validValue.Some? then
      var made := MakeProposal(q, p.validValue.value);
      Reaction(made.peer, ask + [RestreamValue(p.height, round)] + made.effects)
    else
      Reaction(q, ask + [GetValue(p.height, round)])
  }

  /** How an input changes the peer before any rule fires. */
  function Accept(vs: PeerSet, p: Peer, input: Input): Reaction
    requires vs.peers != []
  {
    match input
    case StartHeight(h, _) =>
      EnterRound(vs, p.(height := h, lockedRound := -1, lockedId := 0, validRound := -1, validValue := None,
                        decision := None, announced := false), 0)
    case VoteInput(v) => Reaction(p.(votes := p.votes + {v}), [])
    case ProposalInput(x) => Reaction(p.(proposals := p.proposals + {x}), [])
    case ProposedValueInput(pv) => Reaction(p.(values := p.values + {pv}), [])
    case ProposeInput(w) =>
      if w.height == p.height && w.round == p.round && p.round >= 0 && p.decision.None?
      then MakeProposal(p, w.value)
      else Reaction(p, [])
    case TimeoutElapsed(t) => AcceptTimeout(vs, p, t)
  }

  /** Lines 57-67, and the Commit timeout that stands between a decision and its announcement. */
  function AcceptTimeout(vs: PeerSet, p: Peer, t: Timeout): Reaction
    requires vs.peers != []
  {
    if t.kind.CommitTimeout? then
      if p.decision.Some? && p.decision.value.round == t.round && !p.announced then
        Reaction(p.(announced := true),
                 [Decide(CommitCertificate(p.height, t.round, p.decision.value.value.id))])
      else Reaction(p, [])
    else if p.round < 0 || p.round != t.round || p.decision.Some? then
      Reaction(p, [])
    else match t.kind
      case ProposeTimeout =>
        if p.step.Propose? then Cast(p.(step := Prevote), NewPrevote(p.height, p.round, NilVote, p.id))
        else Reaction(p, [])
      case PrevoteTimeout =>
        if p.step.Prevote? then Cast(p.(step := Precommit), NewPrecommit(p.height, p.round, NilVote, p.id))
        else Reaction(p, [])
      case PrecommitTimeout => EnterRound(vs, p, p.round + 1)
      case CommitTimeout => Reaction(p, [])
  }

  datatype Rule =
    | PrevoteRule(x: Proposal, pv: ProposedValue)    // lines 22-27
    | PrecommitRule(x: Proposal, pv: ProposedValue)  // lines 36-43
    | PrecommitNilRule                               // lines 44-46
    | DecisionRule(x: Proposal, pv: ProposedValue)   // lines 49-54
    | SkipRule(round: nat)                           // lines 55-56

  predicate Enabled(vs: PeerSet, p: Peer, rule: Rule)
    requires vs.peers != []
  {
    && p.round >= 0
    && p.decision.None?
    && match rule
       case PrevoteRule(x, pv) => p.step.Propose? && Complete(vs, p, x, pv) && x.round == p.round
       case PrecommitRule(x, pv) =>
         && !p.step.Propose? && p.validRound != p.round
         && Complete(vs, p, x, pv) && x.round == p.round && pv.valid
         && IsQuorum(vs, Voters(p.votes, Prevotes, p.height, p.round, Val(x.value.id)))
       case PrecommitNilRule =>
         p.step.Prevote? && IsQuorum(vs, Voters(p.votes, Prevotes, p.height, p.round, NilVote))
       case DecisionRule(x, pv) =>
         && Complete(vs, p, x, pv) && pv.valid
         && IsQuorum(vs, Voters(p.votes, Precommits, p.height, x.round, Val(x.value.id)))
       case SkipRule(r) => r > p.round && ExceedsThird(vs, Heard(p, r))
  }

  function Fire(vs: PeerSet, p: Peer, rule: Rule): Reaction
    requires vs.peers != []
    requires Enabled(vs, p, rule)
  {
    match rule
    case PrevoteRule(x, pv) =>
      var ok := pv.valid && (p.lockedRound == -1 || p.lockedId == x.value.id);
      Cast(p.(step := Prevote), NewPrevote(p.height, p.round, if ok then Val(x.value.id) else NilVote, p.id))
    case PrecommitRule(x, pv) =>
      var q := p.(validRound := p.round, validValue := Some(x.value));
      if p.step.Prevote? then
        Cast(q.(step := Precommit, lockedRound := p.round, lockedId := x.value.id),
             NewPrecommit(p.height, p.round, Val(x.value.id), p.id))
      else Reaction(q, [])
    case PrecommitNilRule =>
      Cast(p.(step := Precommit), NewPrecommit(p.height, p.round, NilVote, p.id))
    case DecisionRule(x, pv) =>
      Reaction(p.(decision := Some(Commitment(x.round, x.value))), [ScheduleTimeout(Timeout(x.round, CommitTimeout))])
    case SkipRule(r) => EnterRound(vs, p, r)
  }

  /** The rules can fire one after the other once the input is accepted. */
  predicate Fires(vs: PeerSet, p: Peer, input: Input, rules: seq<Rule>)
    requires vs.peers != []
    decreases |rules|, 0
  {
    rules != [] ==>
      var init := rules[..|rules| - 1];
      Fires(vs, p, input, init) && Enabled(vs, React(vs, p, input, init).peer, rules[|rules| - 1])
  }

  /** The peer after accepting the input and firing the rules, and all effects on the way. */
  function React(vs: PeerSet, p: Peer, input: Input, rules: seq<Rule>): Reaction
    requires vs.peers != []
    requires Fires(vs, p, input, rules)
    decreases |rules|, 1
  {
    if rules == [] then Accept(vs, p, input)
    else
      var before := React(vs, p, input, rules[..|rules| - 1]);
      var after := Fire(vs, before.peer, rules[|rules| - 1]);
      Reaction(after.peer, before.effects + after.effects)
  }

  ghost predicate Quiescent(vs: PeerSet, p: Peer)
    requires vs.peers != []
  {
    forall rule :: !Enabled(vs, p, rule)
  }

  /** Effects that the application answers without sending anything. */
  predicate IsSilent(e: Effect) {
    || e.ResetTimeouts? || e.CancelAllTimeouts? || e.CancelTimeout? || e.StartRound?
    || e.GetValidatorSet? || e.VerifySignature? || e.PersistMessage? || e.PersistTimeout?
    || e.SignVote? || e.SignProposal?
    || (e.ScheduleTimeout? && !e.timeout.kind.CommitTimeout?)
  }

  function Visible(effects: seq<Effect>): seq<Effect> {
    if effects == [] then []
    else
      var last := effects[|effects| - 1];
      Visible(effects[..|effects| - 1]) + if IsSilent(last) then [] else [last]
  }

  /** Effects that announce steps to the environment. */
  predicate IsAnnouncing(e: Effect) {
    e.Decide? || (e.Publish? && e.msg.ProposalMsg?)
  }

  function Announcing(effects: seq<Effect>): seq<Effect> {
    if effects == [] then []
    else
      var last := effects[|effects| - 1];
      Announcing(effects[..|effects| - 1]) + if IsAnnouncing(last) then [last] else []
  }

  /** The same effects in another order, with the announcing ones in the same order. */
  ghost predicate Reorders(a: seq<Effect>, b: seq<Effect>) {
    multiset(a) == multiset(b) && Announcing(a) == Announcing(b)
  }

  /**
   The whole assumption about the library: it answers an input with effects that, apart from silent ones and
   up to their order, are those of accepting the input and firing enabled rules until the peer is quiescent.
   */
  ghost predicate LibraryAnswers(vs: PeerSet, p: Peer, input: Input, rules: seq<Rule>, effects: seq<Effect>, p': Peer)
    requires vs.peers != []
  {
    && Fires(vs, p, input, rules)
    && React(vs, p, input, rules).peer == p'
    && Reorders(Visible(effects), React(vs, p, input, rules).effects)
    && Quiescent(vs, p')
  }
}
