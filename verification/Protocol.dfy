/**
 The whole consensus pipe as one state machine: the block builder, n peers running the consensus rules
 behind their shells, the network, and the consumer. The network is a multiset, and a delivery may take any
 envelope: this covers the simulator's FIFO queue (`FifoStepRefines`) and every other delivery order.
 */
module Protocol {
  import opened Options
  import opened Primitives
  import opened PeerSets
  import opened Messages
  import opened Consensus
  import App = Application
  import opened Pipeline
  import Simulator
  import EffectOrder

  /** `built` are the values the builder has handed over; `read` counts the steps the consumer has read. */
  datatype Sys = Sys(
    n: nat,
    peers: seq<Peer>,
    network: multiset<Envelope>,
    steps: seq<DecisionStep>,
    slot: Option<Value>,
    built: seq<Value>,
    read: nat,
    consumer: Consumer)
  {
    function Peers(): PeerSet { Numbered(n) }
  }

  datatype Action =
    | Build(txs: seq<Tx>)
    | Deliver(envelope: Envelope, rules: seq<Rule>)
    | Read

  function Init(n: nat): Sys {
    Sys(n, seq(n, i requires 0 <= i => NewPeer(i)), multiset(Simulator.Starts(Numbered(n), n)), [], None, [], 0, Consumer(map[], []))
  }

  /** Delivery of one envelope: the peer accepts it and fires the given rules, the shell sends the effects. */
  ghost predicate CanDeliver(s: Sys, e: Envelope, rules: seq<Rule>) {
    && s.n > 0 && |s.peers| == s.n
    && e in s.network && e.destination < s.n
    && Fires(s.Peers(), s.peers[e.destination], e.payload, rules)
    && Handled(s, e, rules).Sent?
  }

  function Handled(s: Sys, e: Envelope, rules: seq<Rule>): App.Outcome
    requires s.n > 0 && |s.peers| == s.n && e.destination < s.n
    requires Fires(s.Peers(), s.peers[e.destination], e.payload, rules)
  {
    App.HandleAll(e.destination, s.Peers(), React(s.Peers(), s.peers[e.destination], e.payload, rules).effects, s.slot)
  }

  ghost function Delivered(s: Sys, e: Envelope, rules: seq<Rule>): Sys
    requires CanDeliver(s, e, rules)
  {
    var o := Handled(s, e, rules);
    s.(peers := s.peers[e.destination := React(s.Peers(), s.peers[e.destination], e.payload, rules).peer],
       network := s.network - multiset{e} + multiset(o.envelopes),
       steps := s.steps + o.steps,
       slot := o.slot)
  }

  /** A delivery is a step only when the peer has become quiescent; reading and building are single steps. */
  ghost predicate CanStep(s: Sys, a: Action) {
    match a
    case Build(_) => s.slot.None?
    case Deliver(e, rules) => CanDeliver(s, e, rules) && Quiescent(s.Peers(), Delivered(s, e, rules).peers[e.destination])
    case Read => s.read < |s.steps| && Consume(s.consumer, s.steps[s.read]).Some?
  }

  ghost function Do(s: Sys, a: Action): Sys
    requires CanStep(s, a)
  {
    match a
    case Build(txs) =>
      var v := Value(|s.built|, txs);
      s.(slot := Some(v), built := s.built + [v])
    case Deliver(e, rules) => Delivered(s, e, rules)
    case Read => s.(read := s.read + 1, consumer := Consume(s.consumer, s.steps[s.read]).value)
  }

  ghost predicate IsRun(n: nat, run: seq<Sys>, actions: seq<Action>) {
    && n > 0
    && |run| == |actions| + 1
    && run[0] == Init(n)
    && forall t :: 0 <= t < |actions| ==> CanStep(run[t], actions[t]) && run[t + 1] == Do(run[t], actions[t])
  }

  // --- The simulator's queue is one delivery order --------------------------------------------------------

  ghost predicate Abstracts(s: Sys, v: Simulator.Snapshot) {
    && s.peers == v.peers && s.network == multiset(v.network) && s.steps == v.steps && s.slot == v.slot
  }

  /** The simulator right after initialization is the initial state. */
  lemma FifoInitRefines(n: nat, v: Simulator.Snapshot)
    requires v.peers == seq(n, i requires 0 <= i => NewPeer(i)) && v.network == Simulator.Starts(Numbered(n), n)
    requires v.steps == [] && v.slot == None
    ensures Abstracts(Init(n), v)
  {
  }

  /** A turn of the block builder, which waits for the slot to be free, is a build of the machine. */
  lemma BuilderTurnRefines(s: Sys, v: Simulator.Snapshot, txs: seq<Tx>)
    requires Abstracts(s, v) && v.slot == None
    ensures CanStep(s, Build(txs))
    ensures Abstracts(Do(s, Build(txs)), v.(slot := Some(Value(|s.built|, txs))))
    ensures Do(s, Build(txs)).built == s.built + [Value(|s.built|, txs)]
  {
  }

  lemma SilentEffect(self: nat, vs: PeerSet, e: Effect, slot: Option<Value>)
    requires IsSilent(e)
    ensures App.Handle(self, vs, e, slot) == App.Sent([], [], slot)
  {
  }

  lemma {:induction false} SilentEffects(self: nat, vs: PeerSet, effects: seq<Effect>, slot: Option<Value>)
    ensures App.HandleAll(self, vs, effects, slot) == App.HandleAll(self, vs, Visible(effects), slot)
    decreases |effects|
  {
    if effects != [] {
      hide App.Handle;
      var init, last := effects[..|effects| - 1], effects[|effects| - 1];
      SilentEffects(self, vs, init, slot);
      if IsSilent(last) {
        assert Visible(effects) == Visible(init);
        var before := App.HandleAll(self, vs, init, slot);
        if before.Sent? {
          SilentEffect(self, vs, last, before.slot);
          assert App.Then(before, App.Handle(self, vs, last, before.slot)) == before;
        }
      } else {
        assert Visible(effects)[..|Visible(effects)| - 1] == Visible(init);
      }
    }
  }

  /** A step of the simulator with an answer of the library is the delivery of the oldest envelope. */
  lemma FifoStepRefines(s: Sys, a: Simulator.Snapshot, b: Simulator.Snapshot, rules: seq<Rule>, effects: seq<Effect>, p': Peer)
    requires s.n > 0 && |s.peers| == s.n && Abstracts(s, a)
    requires Simulator.StepsTo(s.Peers(), a, effects, p', b)
    requires var e := a.network[0]; LibraryAnswers(s.Peers(), s.peers[e.destination], e.payload, rules, effects, p')
    ensures CanStep(s, Deliver(a.network[0], rules))
    ensures Abstracts(Do(s, Deliver(a.network[0], rules)), b)
  {
    hide App.HandleAll; hide React; hide Fires; hide Visible; hide Quiescent; hide Reorders;
    var e := a.network[0];
    SilentEffects(e.destination, s.Peers(), effects, s.slot);
    EffectOrder.OrderIsImmaterial(e.destination, s.Peers(), Visible(effects),
                                  React(s.Peers(), s.peers[e.destination], e.payload, rules).effects, s.slot);
    PopBag(a.network);
  }

  lemma PopBag(network: seq<Envelope>)
    requires network != []
    ensures multiset(network[1..]) == multiset(network) - multiset{network[0]}
  {
    assert network == [network[0]] + network[1..];
  }
}
