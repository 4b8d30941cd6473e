/**
 The shell around the consensus library at each peer (src/chain/application.rs): it turns every effect of
 the library into envelopes on the network, steps for the environment, and a take from the proposals slot.
 */
module Application {
  import opened Options
  import opened PeerSets
  import opened Messages

  // --- What each effect sends ----------------------------------------------------------------------------

  function ProposedValueOf(x: Proposal): ProposedValue {
    ProposedValue(x.height, x.round, -1, x.proposer, x.value, true)
  }

  function VoteEnvelopes(self: nat, peers: seq<BasePeer>, v: Vote): seq<Envelope> {
    if peers == [] then []
    else
      var d := peers[|peers| - 1].id;
      VoteEnvelopes(self, peers[..|peers| - 1], v) + if d != self then [Envelope(self, d, VoteInput(v))] else []
  }

  function ProposalEnvelopes(self: nat, peers: seq<BasePeer>, x: Proposal): seq<Envelope> {
    if peers == [] then []
    else
      var d := peers[|peers| - 1].id;
      ProposalEnvelopes(self, peers[..|peers| - 1], x)
      + [Envelope(self, d, ProposalInput(x)), Envelope(self, d, ProposedValueInput(ProposedValueOf(x)))]
  }

  /** One announcement per peer. */
  function Announcements(peers: seq<BasePeer>, x: Proposal): seq<DecisionStep> {
    seq(|peers|, _ => Proposed(ProposedValueOf(x)))
  }

  /** The result of handling effects: a panic, or what was sent and what is left in the proposals slot. */
  datatype Outcome =
    | Panic
    | Sent(envelopes: seq<Envelope>, steps: seq<DecisionStep>, slot: Option<Value>)

  function Handle(self: nat, vs: PeerSet, effect: Effect, slot: Option<Value>): Outcome {
    match effect
    case ScheduleTimeout(t) =>
      Sent(if t.kind.CommitTimeout? then [Envelope(self, self, TimeoutElapsed(t))] else [], [], slot)
    case Publish(VoteMsg(v)) => Sent(VoteEnvelopes(self, vs.peers, v), [], slot)
    case Publish(ProposalMsg(x)) => Sent(ProposalEnvelopes(self, vs.peers, x), Announcements(vs.peers, x), slot)
    case GetValue(h, r) =>
      if slot.None? then Panic
      else Sent([Envelope(self, self, ProposeInput(ValueToPropose(h, r, slot.value)))], [], None)
    case Decide(c) =>
      Sent([Envelope(self, self, StartHeight(c.height + 1, vs))], [Finalized(self, c.valueId, c.height)], slot)
    case RestreamValue(_, _) => Panic
    case GetVoteSet(_, _) => Panic
    case SendVoteSetResponse(_, _) => Panic
    case VerifyCertificate(_) => Panic
    case _ => Sent([], [], slot)
  }

  function HandleAll(self: nat, vs: PeerSet, effects: seq<Effect>, slot: Option<Value>): Outcome {
    if effects == [] then Sent([], [], slot)
    else
      var before := HandleAll(self, vs, effects[..|effects| - 1], slot);
      if before.Panic? then Panic else Then(before, Handle(self, vs, effects[|effects| - 1], before.slot))
  }

  function Then(a: Outcome, b: Outcome): Outcome
    requires a.Sent?
  {
    if b.Panic? then Panic else Sent(a.envelopes + b.envelopes, a.steps + b.steps, b.slot)
  }

  lemma ThenAssociates(a: Outcome, b: Outcome, c: Outcome)
    requires a.Sent? && b.Sent?
    ensures Then(Then(a, b), c) == Then(a, Then(b, c))
  {
    if c.Sent? {
      assert a.envelopes + b.envelopes + c.envelopes == a.envelopes + (b.envelopes + c.envelopes);
      assert a.steps + b.steps + c.steps == a.steps + (b.steps + c.steps);
    }
  }

  lemma {:induction false} HandleAllConcat(self: nat, vs: PeerSet, a: seq<Effect>, b: seq<Effect>, slot: Option<Value>)
    ensures HandleAll(self, vs, a + b, slot) ==
              var first := HandleAll(self, vs, a, slot);
              if first.Panic? then Panic else Then(first, HandleAll(self, vs, b, first.slot))
    decreases |b|
  {
    if b == [] {
      assert a + b == a;
    } else {
      var init, last := b[..|b| - 1], b[|b| - 1];
      assert (a + b)[..|a + b| - 1] == a + init && (a + b)[|a + b| - 1] == last;
      HandleAllConcat(self, vs, a, init, slot);
      var first := HandleAll(self, vs, a, slot);
      if first.Sent? {
        var mid := HandleAll(self, vs, init, first.slot);
        if mid.Sent? {
          ThenAssociates(first, mid, Handle(self, vs, last, mid.slot));
        }
      }
    }
  }

  // --- What a publication reaches ------------------------------------------------------------------------

  /** A vote is sent to every other peer exactly once, and nothing else is sent. */
  lemma {:induction false} VoteReachesOthersOnce(self: nat, n: nat, v: Vote, e: Envelope)
    ensures multiset(VoteEnvelopes(self, Numbered(n).peers, v))[e] ==
              if e == Envelope(self, e.destination, VoteInput(v)) && e.destination < n && e.destination != self then 1 else 0
  {
    var peers := Numbered(n).peers;
    if n > 0 {
      VoteReachesOthersOnce(self, n - 1, v, e);
      assert peers[..n - 1] == Numbered(n - 1).peers;
    }
  }

  lemma TwoMore(sent: seq<Envelope>, first: Envelope, second: Envelope, e: Envelope)
    ensures multiset(sent + [first, second])[e] == multiset(sent)[e] + (if e == first then 1 else 0) + (if e == second then 1 else 0)
  {
    assert sent + [first, second] == sent + [first] + [second];
  }

  lemma ToLastPeer(self: nat, n: nat, x: Proposal)
    requires n > 0
    ensures ProposalEnvelopes(self, Numbered(n).peers, x) ==
            ProposalEnvelopes(self, Numbered(n - 1).peers, x)
            + [Envelope(self, n - 1, ProposalInput(x)), Envelope(self, n - 1, ProposedValueInput(ProposedValueOf(x)))]
  {
    assert Numbered(n).peers[..n - 1] == Numbered(n - 1).peers;
  }

  /** Both halves of a proposal are sent to every peer exactly once, and nothing else is sent. */
  lemma {:induction false} ProposalReachesAllOnce(self: nat, n: nat, x: Proposal, e: Envelope)
    ensures multiset(ProposalEnvelopes(self, Numbered(n).peers, x))[e] ==
              if && e.source == self && e.destination < n
                 && (e.payload == ProposalInput(x) || e.payload == ProposedValueInput(ProposedValueOf(x)))
              then 1 else 0
  {
    if n > 0 {
      hide ProposalEnvelopes; hide Numbered; hide ProposedValueOf;
      ProposalReachesAllOnce(self, n - 1, x, e);
      ToLastPeer(self, n, x);
      TwoMore(ProposalEnvelopes(self, Numbered(n - 1).peers, x), Envelope(self, n - 1, ProposalInput(x)),
              Envelope(self, n - 1, ProposedValueInput(ProposedValueOf(x))), e);
    }
  }

  /** Votes leave in the order of the peers, oneself left out. */
  lemma {:induction false} VotesInPeerOrder(self: nat, n: nat, v: Vote)
    ensures var sent := VoteEnvelopes(self, Numbered(n).peers, v);
            && |sent| == (if self < n then n - 1 else n)
            && forall k :: 0 <= k < |sent| ==> sent[k] == Envelope(self, if k < self then k else k + 1, VoteInput(v))
  {
    if n > 0 {
      VotesInPeerOrder(self, n - 1, v);
      assert Numbered(n).peers[..n - 1] == Numbered(n - 1).peers;
    }
  }

  /** Proposals leave in the order of the peers, each followed by its proposed value. */
  lemma {:induction false} ProposalsInPeerOrder(self: nat, n: nat, x: Proposal)
    ensures var sent := ProposalEnvelopes(self, Numbered(n).peers, x);
            && |sent| == 2 * n
            && forall d: nat :: d < n ==>
                 && sent[2 * d] == Envelope(self, d, ProposalInput(x))
                 && sent[2 * d + 1] == Envelope(self, d, ProposedValueInput(ProposedValueOf(x)))
  {
    if n > 0 {
      ProposalsInPeerOrder(self, n - 1, x);
      assert Numbered(n).peers[..n - 1] == Numbered(n - 1).peers;
    }
  }

  /** A published proposal is announced to the environment once per peer, and a vote not at all. */
  lemma AnnouncedOncePerPeer(self: nat, n: nat, msg: ConsensusMsg, slot: Option<Value>)
    ensures var o := Handle(self, Numbered(n), Publish(msg), slot);
            && o.Sent? && o.slot == slot
            && |o.steps| == (if msg.ProposalMsg? then n else 0)
            && forall d :: d in o.steps ==>
                 msg.ProposalMsg? && var x := msg.proposal; d == Proposed(ProposedValue(x.height, x.round, -1, x.proposer, x.value, true))
  {
  }

  /** What effects send and announce goes out in the order of the effects. */
  lemma EffectsInOrder(self: nat, vs: PeerSet, effects: seq<Effect>, slot: Option<Value>, i: nat)
    requires i < |effects| && HandleAll(self, vs, effects, slot).Sent?
    ensures var before := HandleAll(self, vs, effects[..i], slot);
            && before.Sent?
            && var o, all := Handle(self, vs, effects[i], before.slot), HandleAll(self, vs, effects, slot);
               && o.Sent?
               && before.envelopes + o.envelopes <= all.envelopes
               && before.steps + o.steps <= all.steps
  {
    hide Handle;
    assert effects == effects[..i + 1] + effects[i + 1..] && effects[..i + 1][..i] == effects[..i];
    HandleAllConcat(self, vs, effects[..i + 1], effects[i + 1..], slot);
  }

  // --- What holds of every send, whatever the library answers --------------------------------------------

  predicate IsControl(input: Input) {
    input.StartHeight? || input.ProposeInput? || input.TimeoutElapsed?
  }

  /** The envelope is for one of the peers; control inputs only ever go from a peer to itself. */
  predicate Addressed(n: nat, e: Envelope) {
    e.source < n && e.destination < n && (IsControl(e.payload) ==> e.source == e.destination)
  }

  /** Each `ProposedValue` on the wire comes after the `Proposal` it completes. */
  ghost predicate ProposalsFirst(wire: seq<Envelope>) {
    forall j :: 0 <= j < |wire| && wire[j].payload.ProposedValueInput? ==> ProposedBefore(wire, j)
  }

  ghost predicate ProposedBefore(wire: seq<Envelope>, j: nat)
    requires j < |wire| && wire[j].payload.ProposedValueInput?
  {
    exists x :: wire[j].payload.proposed == ProposedValueOf(x)
                && Envelope(wire[j].source, wire[j].destination, ProposalInput(x)) in wire[..j]
  }

  lemma ProposalsFirstAppend(wire: seq<Envelope>, more: seq<Envelope>)
    requires ProposalsFirst(wire)
    requires forall e :: e in more ==> !e.payload.ProposedValueInput?
    ensures ProposalsFirst(wire + more)
  {
    var all := wire + more;
    forall j | 0 <= j < |all| && all[j].payload.ProposedValueInput? ensures ProposedBefore(all, j) {
      assert j < |wire|;
      assert ProposedBefore(wire, j);
      assert all[..j] == wire[..j];
    }
  }

  lemma {:induction false} PublicationKeepsOrder(wire: seq<Envelope>, self: nat, peers: seq<BasePeer>, x: Proposal)
    requires ProposalsFirst(wire)
    ensures ProposalsFirst(wire + ProposalEnvelopes(self, peers, x))
  {
    if peers == [] {
      assert wire + [] == wire;
    } else {
      var before := wire + ProposalEnvelopes(self, peers[..|peers| - 1], x);
      PublicationKeepsOrder(wire, self, peers[..|peers| - 1], x);
      var d := peers[|peers| - 1].id;
      var first, second := Envelope(self, d, ProposalInput(x)), Envelope(self, d, ProposedValueInput(ProposedValueOf(x)));
      ProposalsFirstAppend(before, [first]);
      var all := wire + ProposalEnvelopes(self, peers, x);
      assert all == before + [first] + [second];
      assert all[..|all| - 1] == before + [first];
      forall j | 0 <= j < |all| && all[j].payload.ProposedValueInput? ensures ProposedBefore(all, j) {
        if j < |all| - 1 {
          assert ProposedBefore(before + [first], j);
          assert all[..j] == (before + [first])[..j];
        } else {
          assert first in all[..j];
        }
      }
    }
  }

  lemma {:induction false} PublicationAddressed(self: nat, n: nat, m: nat, msg: ConsensusMsg)
    requires self < n && m <= n
    ensures msg.VoteMsg? ==> forall e :: e in VoteEnvelopes(self, Numbered(m).peers, msg.vote) ==>
              Addressed(n, e) && e.payload.VoteInput?
    ensures msg.ProposalMsg? ==> forall e :: e in ProposalEnvelopes(self, Numbered(m).peers, msg.proposal) ==> Addressed(n, e)
  {
    if m > 0 {
      PublicationAddressed(self, n, m - 1, msg);
      assert Numbered(m).peers[..m - 1] == Numbered(m - 1).peers;
    }
  }

  /** Whatever effects the library produces, the shell sends only well-addressed envelopes, in order. */
  lemma {:induction false} ShellIsSafe(wire: seq<Envelope>, self: nat, n: nat, effects: seq<Effect>, slot: Option<Value>)
    requires self < n && ProposalsFirst(wire)
    ensures var o := HandleAll(self, Numbered(n), effects, slot);
            o.Sent? ==> (forall e :: e in o.envelopes ==> Addressed(n, e)) && ProposalsFirst(wire + o.envelopes)
    decreases |effects|
  {
    var vs := Numbered(n);
    if effects == [] {
      assert wire + [] == wire;
    } else {
      ShellIsSafe(wire, self, n, effects[..|effects| - 1], slot);
      var before := HandleAll(self, vs, effects[..|effects| - 1], slot);
      if before.Sent? {
        var last := effects[|effects| - 1];
        var o := Handle(self, vs, last, before.slot);
        if o.Sent? {
          assert wire + (before.envelopes + o.envelopes) == wire + before.envelopes + o.envelopes;
          if last.Publish? {
            PublicationAddressed(self, n, n, last.msg);
          }
          if last.Publish? && last.msg.ProposalMsg? {
            PublicationKeepsOrder(wire + before.envelopes, self, vs.peers, last.msg.proposal);
          } else {
            ProposalsFirstAppend(wire + before.envelopes, o.envelopes);
          }
        }
      }
    }
  }

  // --- The application object ----------------------------------------------------------------------------

  /** The channels every application shares: the network, the decision steps and the one-slot proposals channel. */
  class Channels {
    var network: seq<Envelope>
    var steps: seq<DecisionStep>
    var slot: Option<Value>

    constructor ()
      ensures network == [] && steps == [] && slot == None
    {
      network, steps, slot := [], [], None;
    }

    /** What has been sent since `network`, `steps` and `slot` were as given. */
    ghost predicate Extends(network': seq<Envelope>, steps': seq<DecisionStep>, o: Outcome)
      reads this
    {
      o.Sent? && network == network' + o.envelopes && steps == steps' + o.steps && slot == o.slot
    }
  }

  class Application {
    const peerId: nat
    const channels: Channels

    constructor (peerId: nat, channels: Channels)
      ensures this.peerId == peerId && this.channels == channels
    {
      this.peerId, this.channels := peerId, channels;
    }

    method Init(validators: PeerSet)
      modifies channels
      ensures channels.network == old(channels.network) + [Envelope(peerId, peerId, StartHeight(0, validators))]
      ensures channels.steps == old(channels.steps) && channels.slot == old(channels.slot)
    {
      channels.network := channels.network + [Envelope(peerId, peerId, StartHeight(0, validators))];
    }

    method HandleScheduleTimeout(t: Timeout)
      modifies channels
      ensures channels.Extends(old(channels.network), old(channels.steps),
                               Handle(peerId, PeerSet([]), ScheduleTimeout(t), old(channels.slot)))
    {
      if t.kind == CommitTimeout {
        channels.network := channels.network + [Envelope(peerId, peerId, TimeoutElapsed(t))];
      }
    }

    method HandlePublish(msg: ConsensusMsg, validators: PeerSet)
      modifies channels
      ensures channels.Extends(old(channels.network), old(channels.steps),
                               Handle(peerId, validators, Publish(msg), old(channels.slot)))
    {
      var peers := validators.peers;
      for i := 0 to |peers|
        invariant channels.slot == old(channels.slot)
        invariant msg.VoteMsg? ==>
                    && channels.network == old(channels.network) + VoteEnvelopes(peerId, peers[..i], msg.vote)
                    && channels.steps == old(channels.steps)
        invariant msg.ProposalMsg? ==>
                    && channels.network == old(channels.network) + ProposalEnvelopes(peerId, peers[..i], msg.proposal)
                    && channels.steps == old(channels.steps) + Announcements(peers[..i], msg.proposal)
      {
        assert peers[..i + 1][..i] == peers[..i];
        var destination := peers[i].id;
        match msg
        case VoteMsg(v) =>
          if destination != peerId {
            channels.network := channels.network + [Envelope(peerId, destination, VoteInput(v))];
          }
        case ProposalMsg(x) =>
          channels.network := channels.network + [Envelope(peerId, destination, ProposalInput(x))];
          var pv := ProposedValue(x.height, x.round, -1, x.proposer, x.value, true);
          channels.steps := channels.steps + [Proposed(pv)];
          channels.network := channels.network + [Envelope(peerId, destination, ProposedValueInput(pv))];
      }
      assert peers[..|peers|] == peers;
    }

    method HandleDecide(certificate: CommitCertificate, validators: PeerSet)
      modifies channels
      ensures channels.Extends(old(channels.network), old(channels.steps),
                               Handle(peerId, validators, Decide(certificate), old(channels.slot)))
    {
      channels.steps := channels.steps + [Finalized(peerId, certificate.valueId, certificate.height)];
      channels.network := channels.network + [Envelope(peerId, peerId, StartHeight(certificate.height + 1, validators))];
    }

    /** Takes the value from the slot; `ok` is false when there is none, and the caller then panics. */
    method HandleGetValue(h: nat, r: int) returns (ok: bool)
      modifies channels
      ensures ok == old(channels.slot).Some?
      ensures ok ==> channels.Extends(old(channels.network), old(channels.steps),
                                      Handle(peerId, PeerSet([]), GetValue(h, r), old(channels.slot)))
      ensures !ok ==> channels.network == old(channels.network) && channels.steps == old(channels.steps) && channels.slot == None
    {
      match channels.slot
      case None => return false;
      case Some(value) =>
        channels.slot := None;
        channels.network := channels.network + [Envelope(peerId, peerId, ProposeInput(ValueToPropose(h, r, value)))];
        return true;
    }

    /** Handles one effect; `ok` is false when the source panics. */
    method HandleEffect(validators: PeerSet, effect: Effect) returns (ok: bool)
      modifies channels
      ensures ok <==> Handle(peerId, validators, effect, old(channels.slot)).Sent?
      ensures ok ==> channels.Extends(old(channels.network), old(channels.steps),
                                      Handle(peerId, validators, effect, old(channels.slot)))
    {
      ok := true;
      match effect
      case ScheduleTimeout(t) => HandleScheduleTimeout(t);
      case Publish(msg) => HandlePublish(msg, validators);
      case GetValue(h, r) => ok := HandleGetValue(h, r);
      case Decide(certificate) => HandleDecide(certificate, validators);
      case RestreamValue(_, _) => ok := false;
      case GetVoteSet(_, _) => ok := false;
      case SendVoteSetResponse(_, _) => ok := false;
      case VerifyCertificate(_) => ok := false;
      case _ => // answered without sending anything
    }

    /** Handles the effects with which the library answers one input, in the order it yields them. */
    method ApplyInput(validators: PeerSet, effects: seq<Effect>) returns (ok: bool)
      modifies channels
      ensures ok <==> HandleAll(peerId, validators, effects, old(channels.slot)).Sent?
      ensures ok ==> channels.Extends(old(channels.network), old(channels.steps),
                                      HandleAll(peerId, validators, effects, old(channels.slot)))
    {
      ghost var slot := channels.slot;
      for i := 0 to |effects|
        invariant channels.Extends(old(channels.network), old(channels.steps),
                                   HandleAll(peerId, validators, effects[..i], slot))
      {
        assert effects[..i + 1][..i] == effects[..i];
        var handled := HandleEffect(validators, effects[i]);
        if !handled {
          assert effects == effects[..i + 1] + effects[i + 1..];
          HandleAllConcat(peerId, validators, effects[..i + 1], effects[i + 1..], slot);
          return false;
        }
      }
      assert effects[..|effects|] == effects;
      return true;
    }
  }
}
