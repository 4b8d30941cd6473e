/**
 The simulated network of peers (src/chain/simulator.rs): construction, initialization, and the step that
 pops one envelope and applies it at its destination. The library's answer, a new peer state and a list of
 effects, is an arbitrary argument of `Step`: what this module states holds for any library.
 */
module Simulator {
  import opened Options
  import opened PeerSets
  import opened Messages
  import opened Consensus
  import App = Application

  datatype Params = Params(initialHeight: nat, validators: PeerSet, address: nat)

  datatype Metrics = Metrics

  /** The state of peers and channels between two steps. */
  datatype Snapshot = Snapshot(peers: seq<Peer>, network: seq<Envelope>, steps: seq<DecisionStep>, slot: Option<Value>)

  /** One step: the oldest envelope is delivered, and the shell handles the library's effects. */
  ghost predicate StepsTo(vs: PeerSet, a: Snapshot, effects: seq<Effect>, p': Peer, b: Snapshot) {
    && a.network != [] && a.network[0].destination < |a.peers|
    && var e := a.network[0];
       var o := App.HandleAll(e.destination, vs, effects, a.slot);
       && o.Sent?
       && b == Snapshot(a.peers[e.destination := p'], a.network[1..] + o.envelopes, a.steps + o.steps, o.slot)
  }

  /** The first `k` envelopes of initialization: each peer starts height 0. */
  function Starts(vs: PeerSet, k: nat): seq<Envelope> {
    seq(k, i requires 0 <= i => Envelope(i, i, StartHeight(0, vs)))
  }

  class Simulator {
    const size: nat
    const channels: App.Channels
    var validators: PeerSet
    var params: map<nat, Params>
    var metrics: map<nat, Metrics>
    var apps: map<nat, App.Application>
    var states: seq<Peer>
    ghost var delivered: seq<Envelope>

    /** Params, app and state registered under an address carry that address and share the channels. */
    ghost predicate Wired()
      reads this
    {
      && size > 0
      && validators == Numbered(size)
      && |states| == size
      && (forall i :: i in params <==> 0 <= i < size)
      && (forall i :: i in apps <==> 0 <= i < size)
      && forall i :: 0 <= i < size ==>
           && params[i] == Params(0, validators, i)
           && apps[i].peerId == i && apps[i].channels == channels
           && states[i].id == i
    }

    ghost predicate Metered()
      reads this
    {
      forall i :: i in metrics <==> 0 <= i < size
    }

    /** Everything ever sent, in sending order: what was delivered and then what is still queued. */
    ghost function Wire(): seq<Envelope>
      reads this, channels
    {
      delivered + channels.network
    }

    /** Holds in every state of every run after initialization, whatever the library answers. */
    ghost predicate Valid()
      reads this, channels
    {
      && Wired() && Metered()
      && (forall e :: e in Wire() ==> App.Addressed(size, e))
      && App.ProposalsFirst(Wire())
    }

    ghost function View(): Snapshot
      reads this, channels
    {
      Snapshot(states, channels.network, channels.steps, channels.slot)
    }

    constructor (size: nat, channels: App.Channels)
      requires 4 <= size < 25
      requires channels.network == []
      ensures Wired() && this.size == size && this.channels == channels
      ensures states == seq(size, i requires 0 <= i => NewPeer(i))
      ensures metrics == map[] && delivered == []
    {
      this.size, this.channels := size, channels;
      new;
      validators := NewPeerSet(size);
      states, params, apps, metrics, delivered := [], map[], map[], map[], [];
      for i := 0 to size
        invariant validators == Numbered(size) && metrics == map[] && delivered == []
        invariant states == seq(i, j requires 0 <= j => NewPeer(j))
        invariant forall j :: j in params <==> 0 <= j < i
        invariant forall j :: j in apps <==> 0 <= j < i
        invariant forall j :: 0 <= j < i ==> params[j] == Params(0, validators, j)
        invariant forall j :: 0 <= j < i ==> apps[j].peerId == j && apps[j].channels == channels
      {
        params := params[i := Params(0, validators, i)];
        states := states + [NewPeer(i)];
        var app := new App.Application(i, channels);
        apps := apps[i := app];
      }
    }

    /** Registers the metrics of every peer and sends each peer the start of height 0. */
    method InitializeSystem()
      requires Wired() && metrics == map[] && channels.network == [] && delivered == []
      modifies this`metrics, channels
      ensures Valid()
      ensures channels.network == Starts(validators, size)
      ensures channels.steps == old(channels.steps) && channels.slot == old(channels.slot)
    {
      for i := 0 to size
        invariant forall j :: j in metrics <==> 0 <= j < i
        invariant channels.network == Starts(validators, i)
        invariant channels.steps == old(channels.steps) && channels.slot == old(channels.slot)
      {
        var address := states[i].id;
        metrics := metrics[address := Metrics];
        apps[address].Init(params[address].validators);
      }
    }

    /** Applies an envelope that was taken off the queue; `ok` is false when handling the effects panics. */
    method StepWithEnvelope(envelope: Envelope, state': Peer, effects: seq<Effect>) returns (ok: bool)
      requires Wired() && Metered() && envelope.destination < size && state'.id == envelope.destination
      modifies this`states, channels
      ensures Wired()
      ensures states == old(states)[envelope.destination := state']
      ensures ok <==> App.HandleAll(envelope.destination, validators, effects, old(channels.slot)).Sent?
      ensures ok ==> channels.Extends(old(channels.network), old(channels.steps),
                                      App.HandleAll(envelope.destination, validators, effects, old(channels.slot)))
    {
      var address := envelope.destination;
      var peerParams := params[address];
      var peerMetrics := metrics[address];
      var application := apps[address];
      ok := application.ApplyInput(peerParams.validators, effects);
      states := states[address := state'];
    }

    /**
     Delivers the oldest envelope, given the library's answer to it: a new state of the same peer, and
     effects. `ok` is false when handling the effects panics.
     */
    method Step(state': Peer, effects: seq<Effect>) returns (ok: bool)
      requires Valid() && channels.network != []
      requires state'.id == channels.network[0].destination
      modifies this`states, this`delivered, channels
      ensures ok <==> App.HandleAll(state'.id, validators, effects, old(channels.slot)).Sent?
      ensures ok ==> Valid() && StepsTo(validators, old(View()), effects, state', View())
      ensures ok ==> old(Wire()) <= Wire() && delivered == old(delivered) + [old(channels.network[0])]
    {
      var envelope := channels.network[0];
      ghost var wire := Wire();
      assert envelope in wire;
      channels.network := channels.network[1..];
      delivered := delivered + [envelope];
      assert Wire() == wire;
      ok := StepWithEnvelope(envelope, state', effects);
      if ok {
        App.ShellIsSafe(wire, state'.id, size, effects, old(channels.slot));
        assert Wire() == wire + App.HandleAll(state'.id, validators, effects, old(channels.slot)).envelopes;
      }
    }
  }
}
