/** What the execution side guarantees in every run of the task. */
module TaskTheorems {
  import opened Options
  import opened Primitives
  import opened Chains
  import opened Storage
  import opened TaskModel
  import opened Client
  import Protocol
  import ProtocolInvariant
  import ProtocolTheorems

  /** The world after a run from the start. */
  ghost predicate Reaches(spec: ChainSpec, best: SealedHeader, events: Option<EventStream>, pool: set<nat>,
                          actions: seq<Action>, w: World) {
    CanRun(spec, Init(best, events, pool), actions) && w == Run(spec, Init(best, events, pool), actions)
  }

  lemma ReachesInv(spec: ChainSpec, best: SealedHeader, events: Option<EventStream>, pool: set<nat>, actions: seq<Action>, w: World)
    requires Reaches(spec, best, events, pool, actions, w)
    ensures Inv(spec, w, events)
  {
    InitInv(spec, best, events, pool);
    RunKeepsInv(spec, Init(best, events, pool), events, actions);
  }

  /** `w'` is `w` some steps later: blocks, updates and heads have only been added. */
  ghost predicate Grown(w: World, w': World) {
    && w'.chain.base == w.chain.base && w'.chain.baseHash == w.chain.baseHash
    && w.chain.blocks <= w'.chain.blocks
    && w.updates <= w'.updates
    && w.heads <= w'.heads
    && w.attempts <= w'.attempts
  }

  lemma StepGrows(spec: ChainSpec, w: World, a: Action)
    requires CanStep(spec, w, a)
    ensures Grown(w, Do(w, a))
  {
    hide BuiltOn;
  }

  lemma {:induction false} RunGrows(spec: ChainSpec, w: World, actions: seq<Action>, t: nat)
    requires CanRun(spec, w, actions) && t <= |actions|
    ensures CanRun(spec, w, actions[..t]) && Grown(Run(spec, w, actions[..t]), Run(spec, w, actions))
    decreases |actions|
  {
    hide CanStep; hide Do;
    if t == |actions| {
      assert actions[..t] == actions;
    } else {
      var init := actions[..|actions| - 1];
      assert init[..t] == actions[..t];
      RunGrows(spec, w, init, t);
      StepGrows(spec, Run(spec, w, init), actions[|actions| - 1]);
    }
  }

  // --- Fork-choice heads stay downloadable -------------------------------------------------------------------------

  /** Each header names its successor in the list as its parent, and the last one names the base. */
  ghost predicate ParentLinked(hs: seq<Header>, base: Hash) {
    forall k :: 0 <= k < |hs| ==> hs[k].parentHash == if k == |hs| - 1 then base else HashOf(hs[k + 1])
  }

  /** The headers of blocks `i`, `i - 1`, ..., 0 of the chain. */
  function DownTo(c: Chain, i: nat): seq<Header>
    requires i < |c.blocks|
  {
    Reversed(HeadersOf(c.blocks[..i + 1]))
  }

  lemma DownloadsAll(c: Chain, i: nat, limit: nat)
    requires c.Linked() && i < |c.blocks| && limit > i
    ensures HeadersAnswer(c, HeadersRequest(ByHash(HashOf(c.blocks[i].header)), limit, Falling)) == DownTo(c, i)
    ensures |DownTo(c, i)| == i + 1 && ParentLinked(DownTo(c, i), c.baseHash)
  {
    StartIndexOfBlock(c, i);
    var hs := DownTo(c, i);
    forall k | 0 <= k <= i ensures hs[k] == c.blocks[i - k].header {
    }
    HeadersLinked(c, i, hs);
  }

  lemma HeadersLinked(c: Chain, i: nat, hs: seq<Header>)
    requires c.Linked() && i < |c.blocks| && |hs| == i + 1 && forall k :: 0 <= k <= i ==> hs[k] == c.blocks[i - k].header
    ensures ParentLinked(hs, c.baseHash)
  {
    forall k | 0 <= k < |hs| ensures hs[k].parentHash == if k == |hs| - 1 then c.baseHash else HashOf(hs[k + 1]) {
      assert c.LinkedAt(i - k);
    }
  }

  /**
   Every fork-choice update ever sent names, as head, safe and finalized hash, a block such that a falling
   fetch from it with a large enough limit returns the whole parent-linked chain down to the first local
   block: when the update is sent and in every later state, with the same answer.
   */
  lemma UpdatesStayDownloadable(spec: ChainSpec, best: SealedHeader, events: Option<EventStream>, pool: set<nat>,
                                actions: seq<Action>, t: nat, now: World, later: World, u: ForkchoiceState)
    returns (i: nat)
    requires t <= |actions|
    requires Reaches(spec, best, events, pool, actions[..t], now) && Reaches(spec, best, events, pool, actions, later)
    requires u in now.updates
    ensures i < |now.chain.blocks| <= |later.chain.blocks|
    ensures u.head == u.safe == u.finalized == HashOf(later.chain.blocks[i].header)
    ensures forall limit: nat :: limit > i ==>
              && HeadersAnswer(later.chain, HeadersRequest(ByHash(u.head), limit, Falling)) == DownTo(later.chain, i)
              && HeadersAnswer(now.chain, HeadersRequest(ByHash(u.head), limit, Falling)) == DownTo(later.chain, i)
    ensures |DownTo(later.chain, i)| == i + 1 && ParentLinked(DownTo(later.chain, i), best.hash)
  {
    hide Inv; hide CanRun; hide Run; hide HeadersAnswer; hide Chain.Linked; hide UpdateOk; hide DownTo; hide ParentLinked;
    var start := Init(best, events, pool);
    ReachesInv(spec, best, events, pool, actions[..t], now);
    ReachesInv(spec, best, events, pool, actions, later);
    RunGrows(spec, start, actions, t);
    BaseKept(spec, best, events, pool, actions, later);
    InvParts(spec, now, events);
    InvParts(spec, later, events);
    i := UpdateBlock(now.chain, u);
    DownloadsSame(now.chain, later.chain, i);
  }

  lemma BaseKept(spec: ChainSpec, best: SealedHeader, events: Option<EventStream>, pool: set<nat>, actions: seq<Action>, w: World)
    requires Reaches(spec, best, events, pool, actions, w)
    ensures w.chain.base == best.header && w.chain.baseHash == best.hash
  {
    var start := Init(best, events, pool);
    RunGrows(spec, start, actions, 0);
    assert Run(spec, start, actions[..0]) == start;
  }

  lemma InvParts(spec: ChainSpec, w: World, events: Option<EventStream>)
    requires Inv(spec, w, events)
    ensures w.chain.Linked() && forall u :: u in w.updates ==> UpdateOk(w.chain, u)
  {
  }

  lemma UpdateBlock(c: Chain, u: ForkchoiceState) returns (i: nat)
    requires UpdateOk(c, u)
    ensures i < |c.blocks| && u.head == u.safe == u.finalized == HashOf(c.blocks[i].header)
  {
    i :| i < |c.blocks| && u == UpdateTo(Seal(c.blocks[i]));
  }

  lemma DownloadsSame(c: Chain, c': Chain, i: nat)
    requires c.Linked() && c'.Linked() && c.blocks <= c'.blocks && i < |c.blocks|
    ensures c.blocks[i] == c'.blocks[i]
    ensures forall limit: nat :: limit > i ==>
              && HeadersAnswer(c', HeadersRequest(ByHash(HashOf(c'.blocks[i].header)), limit, Falling)) == DownTo(c', i)
              && HeadersAnswer(c, HeadersRequest(ByHash(HashOf(c'.blocks[i].header)), limit, Falling)) == DownTo(c', i)
    ensures |DownTo(c', i)| == i + 1 && ParentLinked(DownTo(c', i), c'.baseHash)
  {
    hide HeadersAnswer; hide Chain.Linked;
    assert c.blocks[..i + 1] == c'.blocks[..i + 1] && c.blocks[i] == c'.blocks[i];
    forall limit: nat | limit > i
      ensures HeadersAnswer(c', HeadersRequest(ByHash(HashOf(c'.blocks[i].header)), limit, Falling)) == DownTo(c', i)
      ensures HeadersAnswer(c, HeadersRequest(ByHash(HashOf(c'.blocks[i].header)), limit, Falling)) == DownTo(c', i)
    {
      DownloadsAll(c, i, limit);
      DownloadsAll(c', i, limit);
    }
    DownloadsAll(c', i, i + 1);
  }

  // --- Batches, blocks and transactions ------------------------------------------------------------------------------

  /** What was relayed is completed, in flight, queued or still on the channel: nothing else, and in order. */
  lemma BatchesConserved(spec: ChainSpec, best: SealedHeader, events: Option<EventStream>, pool: set<nat>, actions: seq<Action>, w: World)
    requires Reaches(spec, best, events, pool, actions, w)
    ensures w.received == w.completed + InFlight(w) + w.queued
    ensures w.relayed == w.completed + InFlight(w) + w.queued + w.channel
    ensures BatchesOf(w.attempts) <= w.received <= w.relayed
  {
    ReachesInv(spec, best, events, pool, actions, w);
  }

  /**
   The transaction lists of the local blocks are the executed batches without the failed ones, in order;
   blocks and failures together account for every execution that has returned.
   */
  lemma ExecutionHistory(spec: ChainSpec, best: SealedHeader, events: Option<EventStream>, pool: set<nat>, actions: seq<Action>, w: World)
    requires Reaches(spec, best, events, pool, actions, w)
    ensures TransactionsOf(w.chain.blocks) == Succeeded(w.attempts)
    ensures w.chain.Best() - best.header.number + Failures(w.attempts) == |w.attempts|
    ensures w.chain.Linked() && WellBuilt(spec, w.chain)
  {
    ReachesInv(spec, best, events, pool, actions, w);
    var start := Init(best, events, pool);
    RunGrows(spec, start, actions, 0);
    assert Run(spec, start, actions[..0]) == start;
  }

  /** A failed execution leaves the chain, the pool and the heads as they were. */
  lemma FailureChangesNothing(w: World)
    requires w.job.Some?
    ensures var w' := Do(w, Fail);
            w'.chain == w.chain && w'.pool == w.pool && w'.updates == w.updates && w'.Head() == w.Head()
            && Succeeded(w'.attempts) == Succeeded(w.attempts)
  {
    assert Do(w, Fail).attempts[..|w.attempts|] == w.attempts;
  }

  /** Every transaction ever in the pool is still there or in a stored block. */
  lemma NoTransactionLost(spec: ChainSpec, best: SealedHeader, events: Option<EventStream>, pool: set<nat>,
                          actions: seq<Action>, w: World, tx: nat)
    requires Reaches(spec, best, events, pool, actions, w) && tx in w.submitted
    ensures tx in w.pool || InSomeBlock(w.chain, tx)
  {
    ReachesInv(spec, best, events, pool, actions, w);
  }

  /** On a store that stands for the chain of a run, the total difficulty is the base's plus 2 per local block. */
  lemma TotalDifficulty(spec: ChainSpec, best: SealedHeader, events: Option<EventStream>, pool: set<nat>,
                        actions: seq<Action>, w: World, s: Store)
    requires Reaches(spec, best, events, pool, actions, w) && Represents(s, w.chain)
    ensures s.totalDifficulty == best.header.difficulty + 2 * (s.bestBlock - best.header.number)
  {
    ExecutionHistory(spec, best, events, pool, actions, w);
    DifficultyIsTwoPerBlock(spec, w.chain);
    var start := Init(best, events, pool);
    RunGrows(spec, start, actions, 0);
    assert Run(spec, start, actions[..0]) == start;
  }

  // --- Canonical head and event stream -------------------------------------------------------------------------------

  /** Head, safe and finalized are the same stored block; over a run the head's number only rises. */
  lemma HeadsRise(spec: ChainSpec, best: SealedHeader, events: Option<EventStream>, pool: set<nat>,
                  actions: seq<Action>, t: nat, now: World, later: World)
    requires t <= |actions|
    requires Reaches(spec, best, events, pool, actions[..t], now) && Reaches(spec, best, events, pool, actions, later)
    ensures later.safe == later.finalized == later.Head()
    ensures later.Head().Some? ==>
              Stored(later.chain, later.Head().value) && later.Head().value.header.number <= later.chain.Best()
    ensures now.Head().Some? ==>
              && later.Head().Some?
              && now.Head().value.header.number <= later.Head().value.header.number
              && (|now.heads| < |later.heads| ==> now.Head().value.header.number < later.Head().value.header.number)
  {
    ReachesInv(spec, best, events, pool, actions, later);
    RunGrows(spec, Init(best, events, pool), actions, t);
    hide CanRun; hide Run; hide Stored;
    if now.Head().Some? {
      assert now.heads[|now.heads| - 1] == later.heads[|now.heads| - 1];
    }
  }

  /** The task holds its event stream exactly when no job is in flight and no update was refused or failed. */
  lemma EventStreamHeld(spec: ChainSpec, best: SealedHeader, stream: EventStream, pool: set<nat>, actions: seq<Action>, w: World)
    requires Reaches(spec, best, Some(stream), pool, actions, w)
    ensures w.events == Some(stream) <==> w.job.None? && !w.lost
    ensures w.events.Some? ==> w.events == Some(stream)
    ensures w.lost <==> exists k :: 0 <= k < |actions| && (actions[k] == Answer(Invalid) || actions[k] == Answer(EngineError))
  {
    ReachesInv(spec, best, Some(stream), pool, actions, w);
    LostIff(spec, Init(best, Some(stream), pool), actions);
  }

  lemma StepLoses(spec: ChainSpec, w: World, a: Action)
    requires CanStep(spec, w, a)
    ensures Do(w, a).lost <==> w.lost || a == Answer(Invalid) || a == Answer(EngineError)
  {
    hide BuiltOn;
  }

  lemma {:induction false} LostIff(spec: ChainSpec, w: World, actions: seq<Action>)
    requires CanRun(spec, w, actions)
    ensures Run(spec, w, actions).lost <==>
            w.lost || exists k :: 0 <= k < |actions| && (actions[k] == Answer(Invalid) || actions[k] == Answer(EngineError))
    decreases |actions|
  {
    hide CanStep; hide Do;
    if actions != [] {
      var init, last := actions[..|actions| - 1], actions[|actions| - 1];
      LostIff(spec, w, init);
      StepLoses(spec, Run(spec, w, init), last);
      assert forall k :: 0 <= k < |init| ==> actions[k] == init[k];
    }
  }

  // --- From the builder to the blocks --------------------------------------------------------------------------------

  /**
   End to end: if what has reached the task's channel is part of what the consumer has relayed, then the
   executed batches are the first batches the builder made, and the blocks hold those that succeeded.
   */
  lemma BuilderToBlocks(n: nat, run: seq<Protocol.Sys>, steps: seq<Protocol.Action>, k: nat,
                        spec: ChainSpec, best: SealedHeader, events: Option<EventStream>, pool: set<nat>, actions: seq<Action>, w: World)
    requires Protocol.IsRun(n, run, steps) && k < |run|
    requires Reaches(spec, best, events, pool, actions, w) && w.relayed <= run[k].consumer.relayed
    ensures |w.attempts| <= |run[k].built|
    ensures forall h :: 0 <= h < |w.attempts| ==> w.attempts[h].batch == run[k].built[h].transactions && run[k].built[h].id == h
    ensures TransactionsOf(w.chain.blocks) == Succeeded(w.attempts)
  {
    ProtocolTheorems.RelayedIsPrefixOfBuilt(n, run, steps, k);
    BatchesConserved(spec, best, events, pool, actions, w);
    ExecutionHistory(spec, best, events, pool, actions, w);
    hide CanRun; hide Run; hide Protocol.IsRun;
    forall h | 0 <= h < |w.attempts|
      ensures w.attempts[h].batch == run[k].built[h].transactions && run[k].built[h].id == h
    {
      assert BatchesOf(w.attempts)[h] == w.attempts[h].batch == w.relayed[h] == run[k].consumer.relayed[h];
    }
  }
}
