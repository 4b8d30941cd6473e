/**
 The data that peers, the consensus library and the environment exchange: values, proposals, votes, the
 inputs and effects of the library, network envelopes and decision steps
 (src/chain/context.rs, the files under src/chain/context, src/chain/decision.rs, src/chain/simulator.rs).
 Signatures are absent: the application accepts every signature.
 */
module Messages {
  import opened Options
  import opened PeerSets
  import opened Primitives

  /** A batch of transactions; consensus refers to it by `id` alone. */
  datatype Value = Value(id: nat, transactions: seq<Tx>)

  datatype NilOrVal = NilVote | Val(id: nat)

  datatype VoteType = Prevotes | Precommits

  /** Rounds are integers with -1 for the nil round. */
  datatype Vote = Vote(kind: VoteType, height: nat, round: int, value: NilOrVal, voter: nat)

  /** A proposal never carries a proof-of-lock round (src/chain/context/proposals.rs:63-66). */
  datatype Proposal = Proposal(height: nat, round: int, value: Value, proposer: nat)

  datatype ProposedValue = ProposedValue(height: nat, round: int, validRound: int, proposer: nat, value: Value, valid: bool)

  datatype ValueToPropose = ValueToPropose(height: nat, round: int, value: Value)

  datatype TimeoutKind = ProposeTimeout | PrevoteTimeout | PrecommitTimeout | CommitTimeout

  datatype Timeout = Timeout(round: int, kind: TimeoutKind)

  datatype CommitCertificate = CommitCertificate(height: nat, round: int, valueId: nat)

  datatype ConsensusMsg = VoteMsg(vote: Vote) | ProposalMsg(proposal: Proposal)

  /** What the library is fed with. */
  datatype Input =
    | StartHeight(height: nat, validators: PeerSet)
    | VoteInput(vote: Vote)
    | ProposalInput(proposal: Proposal)
    | ProposedValueInput(proposed: ProposedValue)
    | ProposeInput(toPropose: ValueToPropose)
    | TimeoutElapsed(timeout: Timeout)

  /** What the library asks the application to do. */
  datatype Effect =
    | ResetTimeouts
    | CancelAllTimeouts
    | CancelTimeout(timeout: Timeout)
    | ScheduleTimeout(timeout: Timeout)
    | StartRound(height: nat, round: int, proposer: nat)
    | Publish(msg: ConsensusMsg)
    | GetValue(height: nat, round: int)
    | GetValidatorSet(height: nat)
    | VerifySignature(msg: ConsensusMsg)
    | Decide(certificate: CommitCertificate)
    | RestreamValue(height: nat, round: int)
    | PersistMessage(msg: ConsensusMsg)
    | PersistTimeout(timeout: Timeout)
    | SignVote(vote: Vote)
    | SignProposal(proposal: Proposal)
    | GetVoteSet(height: nat, round: int)
    | SendVoteSetResponse(height: nat, round: int)
    | VerifyCertificate(certificate: CommitCertificate)

  datatype Envelope = Envelope(source: nat, destination: nat, payload: Input)

  datatype DecisionStep =
    | Proposed(proposed: ProposedValue)
    | Finalized(peer: nat, valueId: nat, height: nat)

  /** The proposer is the first peer of the set, at every height and in every round. */
  function SelectProposer(vs: PeerSet): nat
    requires vs.peers != []
  {
    vs.peers[0].id
  }

  function NewProposal(height: nat, round: int, value: Value, address: nat): Proposal {
    Proposal(height, round, value, address)
  }

  function NewPrevote(height: nat, round: int, value: NilOrVal, address: nat): Vote {
    Vote(Prevotes, height, round, value, address)
  }

  function NewPrecommit(height: nat, round: int, value: NilOrVal, address: nat): Vote {
    Vote(Precommits, height, round, value, address)
  }
}
