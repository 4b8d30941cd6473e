/**
 The two ends of the consensus pipe (src/chain.rs): the block builder, which numbers batches 0, 1, 2, ...
 and hands them over through a one-slot channel, and the consumer, which pairs proposed and finalized
 steps by height and relays batches to the execution task.
 */
module Pipeline {
  import opened Options
  import opened Primitives
  import opened Messages
  import App = Application

  /** The consumer's memory and what it has relayed so far. */
  datatype Consumer = Consumer(decisions: map<nat, Value>, relayed: seq<seq<Tx>>)

  /** One step read by the consumer; `None` when the unwrap of a missing proposal panics. */
  function Consume(c: Consumer, d: DecisionStep): Option<Consumer> {
    match d
    case Proposed(pv) =>
      Some(if pv.height in c.decisions then c else c.(decisions := c.decisions[pv.height := pv.value]))
    case Finalized(peer, _, height) =>
      if peer != 0 then Some(c)
      else if height !in c.decisions then None
      else Some(c.(relayed := c.relayed + [c.decisions[height].transactions]))
  }

  function ConsumeAll(c: Consumer, steps: seq<DecisionStep>): Option<Consumer> {
    if steps == [] then Some(c)
    else
      var before := ConsumeAll(c, steps[..|steps| - 1]);
      if before.None? then None else Consume(before.value, steps[|steps| - 1])
  }

  // --- What the consumer relays, said without its fold ---------------------------------------------------

  predicate IsProposalOf(d: DecisionStep, h: nat) {
    d.Proposed? && d.proposed.height == h
  }

  /** A decision of peer 0, the only ones that are relayed. */
  predicate IsRelayed(d: DecisionStep) {
    d.Finalized? && d.peer == 0
  }

  /** Before step `k` height `h` is known: remembered from earlier, or proposed among the first `k` steps. */
  ghost predicate Known(decisions: map<nat, Value>, steps: seq<DecisionStep>, k: nat, h: nat)
    requires k <= |steps|
  {
    h in decisions || exists j :: 0 <= j < k && IsProposalOf(steps[j], h)
  }

  ghost predicate FirstProposal(steps: seq<DecisionStep>, h: nat, j: nat) {
    j < |steps| && IsProposalOf(steps[j], h) && forall i :: 0 <= i < j ==> !IsProposalOf(steps[i], h)
  }

  /** The value of height `h` before step `k`: the one remembered, or else the first one proposed. */
  ghost predicate IsValueOf(decisions: map<nat, Value>, steps: seq<DecisionStep>, k: nat, h: nat, v: Value) {
    if h in decisions then v == decisions[h]
    else exists j: nat :: j < k && FirstProposal(steps, h, j) && steps[j].proposed.value == v
  }

  /** A decision of peer 0 for a height that was never proposed before it. */
  ghost predicate Unmatched(decisions: map<nat, Value>, steps: seq<DecisionStep>, k: nat) {
    k < |steps| && IsRelayed(steps[k]) && !Known(decisions, steps, k, steps[k].height)
  }

  ghost predicate RelayedAt(decisions: map<nat, Value>, steps: seq<DecisionStep>, k: nat, batch: seq<Tx>) {
    k < |steps| && IsRelayed(steps[k])
    && exists v :: IsValueOf(decisions, steps, k, steps[k].height, v) && batch == v.transactions
  }

  /**
   `at` lists, in order, the places of peer 0's decisions among the first `n` steps, and `batches` are the
   batches of their heights' first proposals, in the same order.
   */
  ghost predicate RelaysExactly(decisions: map<nat, Value>, steps: seq<DecisionStep>, n: nat, at: seq<nat>, batches: seq<seq<Tx>>)
    requires n <= |steps|
  {
    && |batches| == |at|
    && (forall i, j :: 0 <= i < j < |at| ==> at[i] < at[j])
    && (forall k: nat :: k in at <==> k < n && IsRelayed(steps[k]))
    && (forall i :: 0 <= i < |at| ==> RelayedAt(decisions, steps, at[i], batches[i]))
  }

  /** After `n` steps the consumer remembers exactly the known heights, each with its first value. */
  ghost predicate Remembers(decisions: map<nat, Value>, steps: seq<DecisionStep>, n: nat, now: map<nat, Value>)
    requires n <= |steps|
  {
    forall h: nat ::
      && (h in now <==> Known(decisions, steps, n, h))
      && (h in now ==> IsValueOf(decisions, steps, n, h, now[h]))
  }

  lemma RemembersNext(decisions: map<nat, Value>, steps: seq<DecisionStep>, n: nat, c: Consumer)
    requires n < |steps| && Remembers(decisions, steps, n, c.decisions) && Consume(c, steps[n]).Some?
    ensures Remembers(decisions, steps, n + 1, Consume(c, steps[n]).value.decisions)
  {
    var now := Consume(c, steps[n]).value.decisions;
    forall h: nat
      ensures h in now <==> Known(decisions, steps, n + 1, h)
      ensures h in now ==> IsValueOf(decisions, steps, n + 1, h, now[h])
    {
      if h in c.decisions {
        assert Known(decisions, steps, n, h) && IsValueOf(decisions, steps, n, h, c.decisions[h]);
      } else {
        assert !Known(decisions, steps, n, h);
        if h in now {
          assert IsProposalOf(steps[n], h) && FirstProposal(steps, h, n);
        }
      }
    }
  }

  lemma {:induction false} ConsumeAllRemembers(c: Consumer, steps: seq<DecisionStep>, n: nat)
    requires n <= |steps| && ConsumeAll(c, steps[..n]).Some?
    ensures Remembers(c.decisions, steps, n, ConsumeAll(c, steps[..n]).value.decisions)
  {
    if n > 0 {
      hide Remembers; hide Consume;
      assert steps[..n][..n - 1] == steps[..n - 1];
      ConsumeAllRemembers(c, steps, n - 1);
      RemembersNext(c.decisions, steps, n - 1, ConsumeAll(c, steps[..n - 1]).value);
    } else {
      assert forall h: nat :: !Known(map[], steps, 0, h);
    }
  }

  /** Reading fails exactly at a decision of peer 0 whose height was not proposed before. */
  lemma {:induction false} ConsumeAllFailsIff(c: Consumer, steps: seq<DecisionStep>, n: nat)
    requires n <= |steps|
    ensures ConsumeAll(c, steps[..n]).None? <==> exists k: nat :: k < n && Unmatched(c.decisions, steps, k)
  {
    if n > 0 {
      assert steps[..n][..n - 1] == steps[..n - 1];
      ConsumeAllFailsIff(c, steps, n - 1);
      var before := ConsumeAll(c, steps[..n - 1]);
      if before.Some? {
        ConsumeAllRemembers(c, steps, n - 1);
        assert ConsumeAll(c, steps[..n]) == Consume(before.value, steps[n - 1]);
        assert Consume(before.value, steps[n - 1]).None? <==> Unmatched(c.decisions, steps, n - 1);
      }
    }
  }

  /** What reading relays: one batch per decision of peer 0, in order, that of the height's first proposal. */
  lemma {:induction false} ConsumeAllRelays(c: Consumer, steps: seq<DecisionStep>, n: nat) returns (at: seq<nat>, batches: seq<seq<Tx>>)
    requires n <= |steps| && ConsumeAll(c, steps[..n]).Some?
    ensures ConsumeAll(c, steps[..n]).value.relayed == c.relayed + batches
    ensures RelaysExactly(c.decisions, steps, n, at, batches)
  {
    if n == 0 {
      at, batches := [], [];
    } else {
      assert steps[..n][..n - 1] == steps[..n - 1];
      at, batches := ConsumeAllRelays(c, steps, n - 1);
      var before, d := ConsumeAll(c, steps[..n - 1]).value, steps[n - 1];
      ConsumeAllRemembers(c, steps, n - 1);
      if IsRelayed(d) {
        var v := before.decisions[d.height];
        assert RelayedAt(c.decisions, steps, n - 1, v.transactions);
        hide Remembers; hide RelaysExactly; hide RelayedAt;
        RelaysOneMore(c.decisions, steps, n - 1, at, batches, v.transactions);
        assert before.relayed + [v.transactions] == c.relayed + (batches + [v.transactions]);
        at, batches := at + [n - 1], batches + [v.transactions];
      }
    }
  }

  lemma RelaysOneMore(decisions: map<nat, Value>, steps: seq<DecisionStep>, n: nat, at: seq<nat>, batches: seq<seq<Tx>>, batch: seq<Tx>)
    requires n < |steps| && RelaysExactly(decisions, steps, n, at, batches) && RelayedAt(decisions, steps, n, batch)
    ensures RelaysExactly(decisions, steps, n + 1, at + [n], batches + [batch])
  {
    assert IsRelayed(steps[n]);
    hide RelayedAt;
    forall i | 0 <= i < |at| ensures at[i] < n {
      assert at[i] in at;
    }
  }

  class ChainConsumer {
    var decisions: map<nat, Value>
    var toTask: seq<seq<Tx>>

    ghost function View(): Consumer
      reads this
    {
      Consumer(decisions, toTask)
    }

    constructor ()
      ensures View() == Consumer(map[], [])
    {
      decisions, toTask := map[], [];
    }

    /**
     Reads steps until the channel is closed; `ok` is false when a finalized height was never proposed.
     `read` counts the steps handled, and `at` lists the relayed decisions among them.
     */
    method Run(fromChain: seq<DecisionStep>) returns (ok: bool, ghost read: nat, ghost at: seq<nat>)
      modifies this
      ensures read <= |fromChain| && forall k: nat :: k < read ==> !Unmatched(old(decisions), fromChain, k)
      ensures if ok then read == |fromChain| else Unmatched(old(decisions), fromChain, read)
      ensures old(toTask) <= toTask
      ensures RelaysExactly(old(decisions), fromChain, read, at, toTask[|old(toTask)|..])
      ensures Remembers(old(decisions), fromChain, read, decisions)
      ensures ConsumeAll(old(View()), fromChain[..read]) == Some(View())
    {
      read, ok := |fromChain|, true;
      for i := 0 to |fromChain|
        invariant read == |fromChain| && ok
        invariant ConsumeAll(old(View()), fromChain[..i]) == Some(View())
      {
        assert fromChain[..i + 1][..i] == fromChain[..i];
        match fromChain[i]
        case Proposed(p) =>
          if p.height !in decisions {
            decisions := decisions[p.height := p.value];
          }
        case Finalized(peer, valueId, height) =>
          if peer == 0 {
            if height !in decisions {
              read, ok := i, false;
              break;
            }
            toTask := toTask + [decisions[height].transactions];
          }
      }
      ConsumeAllFailsIff(old(View()), fromChain, read);
      ConsumeAllRemembers(old(View()), fromChain, read);
      ghost var batches;
      at, batches := ConsumeAllRelays(old(View()), fromChain, read);
    }
  }

  class BlockBuilder {
    const channels: App.Channels
    var valueCounter: nat
    ghost var built: seq<Value>

    /** The k-th value handed over carries id k. */
    ghost predicate Valid()
      reads this
    {
      valueCounter == |built| && forall i :: 0 <= i < |built| ==> built[i].id == i
    }

    constructor (channels: App.Channels)
      ensures Valid() && built == [] && this.channels == channels
    {
      this.channels, valueCounter, built := channels, 0, [];
    }

    /** One turn of the builder loop, given the pool's transactions; the send waits for the slot to be free. */
    method BuildNext(txs: seq<Tx>)
      requires Valid() && channels.slot == None
      modifies this, channels`slot
      ensures Valid()
      ensures built == old(built) + [Value(|old(built)|, txs)]
      ensures channels.slot == Some(built[|built| - 1])
    {
      var value := Value(valueCounter, txs);
      channels.slot := Some(value);
      built := built + [value];
      valueCounter := valueCounter + 1;
    }
  }
}
