/**
 The invariant of the consensus pipe. Each height has one canonical proposal, the value the builder handed
 over for it; every message in flight or in a log is canonical for its height; each peer has at most one
 pending control input, and its state says which; what a peer cast has reached every other peer's log or
 is on its way there; and the steps announced so far are what the consumer can rely on.
 */
module ProtocolInvariant {
  import opened Options
  import opened Primitives
  import opened PeerSets
  import opened Messages
  import opened Consensus
  import App = Application
  import opened Pipeline
  import Simulator
  import opened Protocol

  // --- Canonical messages ----------------------------------------------------------------------------------

  function TheProposal(s: Sys, h: nat): Proposal
    requires h < |s.built|
  {
    Proposal(h, 0, s.built[h], 0)
  }

  function TheValue(s: Sys, h: nat): ProposedValue
    requires h < |s.built|
  {
    App.ProposedValueOf(TheProposal(s, h))
  }

  function TheVote(s: Sys, kind: VoteType, h: nat, voter: nat): Vote
    requires h < |s.built|
  {
    Vote(kind, h, 0, Val(s.built[h].id), voter)
  }

  /** The number of values taken from the slot so far. */
  function Taken(s: Sys): int {
    |s.built| - if s.slot.Some? then 1 else 0
  }

  ghost predicate IsTheVote(s: Sys, v: Vote) {
    v.height < Taken(s) && v.voter < s.n && v == TheVote(s, v.kind, v.height, v.voter)
  }

  ghost predicate IsTheProposal(s: Sys, x: Proposal) {
    x.height < Taken(s) && x == TheProposal(s, x.height)
  }

  ghost predicate IsTheValue(s: Sys, pv: ProposedValue) {
    pv.height < Taken(s) && pv == TheValue(s, pv.height)
  }

  // --- Conjuncts -------------------------------------------------------------------------------------------

  ghost predicate Shape(s: Sys) {
    && s.n > 0 && |s.peers| == s.n
    && forall i :: 0 <= i < s.n ==> s.peers[i].id == i
  }

  /** Values leave the slot in the order they were built, one per height that peer 0 has started. */
  ghost predicate SlotOrder(s: Sys)
    requires Shape(s)
  {
    && (s.slot.Some? ==> |s.built| > 0 && s.slot.value == s.built[|s.built| - 1])
    && Taken(s) == (if s.peers[0].round < 0 then 0 else s.peers[0].height + 1)
    && forall k :: 0 <= k < |s.built| ==> s.built[k].id == k
  }

  /** A peer never leaves round 0, and its local state follows its step. */
  ghost predicate Confined(s: Sys, p: Peer) {
    && (p.round == 0 || (p == NewPeer(p.id).(proposals := p.proposals, values := p.values, votes := p.votes)))
    && (if p.step.Precommit? then p.lockedRound == p.validRound == 0 else p.lockedRound == p.validRound == -1)
    && (p.decision.Some? ==> p.height < Taken(s) && p.decision.value == Commitment(0, s.built[p.height]))
    && (p.announced ==> p.decision.Some?)
  }

  /** A peer's log holds canonical messages that their authors really produced. */
  ghost predicate LogOk(s: Sys, p: Peer)
    requires Shape(s)
  {
    && (forall x :: x in p.proposals ==> IsTheProposal(s, x) && x in s.peers[0].proposals)
    && (forall pv :: pv in p.values ==> IsTheValue(s, pv) && pv in s.peers[0].values)
    && (forall v :: v in p.votes ==> IsTheVote(s, v) && v in s.peers[v.voter].votes)
  }

  /** Own votes are exactly those of the steps taken. */
  ghost predicate OwnVotes(s: Sys, p: Peer) {
    && (forall v :: v in p.votes && v.voter == p.id ==> v.height <= p.height)
    && (p.height < |s.built| ==>
          && (TheVote(s, Prevotes, p.height, p.id) in p.votes <==> !p.step.Propose?)
          && (TheVote(s, Precommits, p.height, p.id) in p.votes <==> p.step.Precommit?))
    && (p.height >= Taken(s) ==> p.step.Propose?)
  }

  function DecidedHeights(p: Peer): nat {
    p.height + if p.decision.Some? then 1 else 0
  }

  function AnnouncedHeights(p: Peer): nat {
    p.height + if p.announced then 1 else 0
  }

  /** The peer's log holds the proposal of height `h` and a quorum of precommits for it. */
  ghost predicate Supported(s: Sys, p: Peer, h: nat) {
    && h < Taken(s)
    && TheProposal(s, h) in p.proposals && TheValue(s, h) in p.values
    && IsQuorum(s.Peers(), Voters(p.votes, Precommits, h, 0, Val(s.built[h].id)))
  }

  ghost predicate PastSupported(s: Sys, p: Peer) {
    forall h: nat :: h < DecidedHeights(p) ==> Supported(s, p, h)
  }

  ghost predicate PeerOk(s: Sys, p: Peer)
    requires Shape(s)
  {
    Confined(s, p) && LogOk(s, p) && OwnVotes(s, p) && PastSupported(s, p)
  }

  ghost predicate PeersOk(s: Sys)
    requires Shape(s)
  {
    forall i :: 0 <= i < s.n ==> PeerOk(s, s.peers[i])
  }

  /** Envelopes are addressed to peers and carry canonical messages of their sources. */
  ghost predicate EnvelopeOk(s: Sys, e: Envelope)
    requires Shape(s)
  {
    && App.Addressed(s.n, e)
    && match e.payload
       case VoteInput(v) => IsTheVote(s, v) && v.voter == e.source && v in s.peers[v.voter].votes
       case ProposalInput(x) => IsTheProposal(s, x) && x in s.peers[0].proposals
       case ProposedValueInput(pv) => IsTheValue(s, pv) && pv in s.peers[0].values
       case _ => true
  }

  ghost predicate NetworkOk(s: Sys)
    requires Shape(s)
  {
    forall e :: e in s.network ==> EnvelopeOk(s, e)
  }

  /** The control input that is on its way to peer `i`, if any. */
  function Due(s: Sys, i: nat): Option<Input>
    requires i < |s.peers|
  {
    var p := s.peers[i];
    if p.round < 0 then Some(StartHeight(0, s.Peers()))
    else if p.decision.Some? then
      if p.announced then Some(StartHeight(p.height + 1, s.Peers())) else Some(TimeoutElapsed(Timeout(0, CommitTimeout)))
    else if i == 0 && p.height < |s.built| && TheProposal(s, p.height) !in p.proposals then
      Some(ProposeInput(ValueToPropose(p.height, 0, s.built[p.height])))
    else None
  }

  ghost predicate Tokens(s: Sys)
    requires Shape(s)
  {
    forall i, x :: 0 <= i < s.n && App.IsControl(x) ==>
      s.network[Envelope(i, i, x)] == if Due(s, i) == Some(x) then 1 else 0
  }

  /** What a peer cast is in every other log or on its way there. */
  ghost predicate VotesSpread(s: Sys)
    requires Shape(s)
  {
    forall v: Vote, i :: 0 <= i < s.n && v.voter < s.n && v.voter != i && v in s.peers[v.voter].votes ==>
      v in s.peers[i].votes || Envelope(v.voter, i, VoteInput(v)) in s.network
  }

  ghost predicate ProposalsSpread(s: Sys)
    requires Shape(s)
  {
    && (forall x, i :: 0 <= i < s.n && x in s.peers[0].proposals ==>
          x in s.peers[i].proposals || Envelope(0, i, ProposalInput(x)) in s.network)
    && (forall x, i :: 0 <= i < s.n && x in s.peers[0].proposals ==>
          var pv := App.ProposedValueOf(x);
          pv in s.peers[i].values || Envelope(0, i, ProposedValueInput(pv)) in s.network)
  }

  ghost predicate AllQuiescent(s: Sys)
    requires Shape(s)
  {
    forall i :: 0 <= i < s.n ==> Quiescent(s.Peers(), s.peers[i])
  }

  // --- Announced steps and the consumer --------------------------------------------------------------------

  /** The heights peer `i` has finalized, in the order of the announcements. */
  function FinalizedBy(steps: seq<DecisionStep>, i: nat): seq<nat> {
    if steps == [] then []
    else
      var last := steps[|steps| - 1];
      FinalizedBy(steps[..|steps| - 1], i) + if last.Finalized? && last.peer == i then [last.height] else []
  }

  function UpTo(k: nat): seq<nat> { seq(k, i requires 0 <= i => i) }

  ghost predicate StepOk(s: Sys, d: DecisionStep) {
    match d
    case Proposed(pv) => IsTheValue(s, pv)
    case Finalized(i, id, h) => h < Taken(s) && i < s.n && id == s.built[h].id
  }

  /** A finalized height was proposed before. */
  ghost predicate Causal(s: Sys) {
    forall k :: 0 <= k < |s.steps| && s.steps[k].Finalized? ==> ProposedIn(s, s.steps[..k], s.steps[k].height)
  }

  ghost predicate ProposedIn(s: Sys, steps: seq<DecisionStep>, h: nat) {
    h < |s.built| && Proposed(TheValue(s, h)) in steps
  }

  ghost predicate StepsOk(s: Sys)
    requires Shape(s)
  {
    && (forall d :: d in s.steps ==> StepOk(s, d))
    && Causal(s)
    && (forall x :: x in s.peers[0].proposals ==> Proposed(App.ProposedValueOf(x)) in s.steps)
    && (forall i :: 0 <= i < s.n ==> FinalizedBy(s.steps, i) == UpTo(AnnouncedHeights(s.peers[i])))
  }

  function BatchesOf(built: seq<Value>, k: nat): seq<seq<Tx>>
    requires k <= |built|
  {
    seq(k, i requires 0 <= i < k => built[i].transactions)
  }

  /** The consumer knows exactly the proposals it has read, and has relayed what peer 0 finalized. */
  ghost predicate ConsumerOk(s: Sys) {
    && s.read <= |s.steps|
    && (forall h :: h in s.consumer.decisions <==> 0 <= h && ProposedIn(s, s.steps[..s.read], h))
    && (forall h :: h in s.consumer.decisions ==> s.consumer.decisions[h] == s.built[h])
    && |s.consumer.relayed| <= |s.built|
    && FinalizedBy(s.steps[..s.read], 0) == UpTo(|s.consumer.relayed|)
    && s.consumer.relayed == BatchesOf(s.built, |s.consumer.relayed|)
  }

  /** What every single acceptance and rule firing keeps. */
  ghost predicate Safe(s: Sys) {
    && Shape(s)
    && SlotOrder(s)
    && PeersOk(s)
    && NetworkOk(s)
    && Tokens(s)
    && VotesSpread(s)
    && ProposalsSpread(s)
    && StepsOk(s)
    && ConsumerOk(s)
  }

  ghost predicate Inv(s: Sys) {
    Safe(s) && AllQuiescent(s)
  }
}
