/**
 What the steps of a run add up to: the state of the execution side read off from the actions taken. Nothing
 happens that no action accounts for, and no action goes without its effect.
 */
module TaskHistory {
  import opened Options
  import opened Primitives
  import opened Chains
  import opened TaskModel
  import opened TaskTheorems

  function Arrivals(actions: seq<Action>): seq<seq<Tx>> {
    if actions == [] then []
    else
      var last := actions[|actions| - 1];
      Arrivals(actions[..|actions| - 1]) + if last.Arrive? then [last.batch] else []
  }

  function Inserted(actions: seq<Action>): seq<Block> {
    if actions == [] then []
    else
      var last := actions[|actions| - 1];
      Inserted(actions[..|actions| - 1]) + if last.Insert? then [last.block] else []
  }

  // --- The ledger ------------------------------------------------------------------------------------------------

  /** What arrived is what was relayed, and the blocks are those inserted. */
  ghost predicate ListsMatch(actions: seq<Action>, w: World) {
    w.relayed == Arrivals(actions) && w.chain.blocks == Inserted(actions)
  }

  /** Receipts, executions, updates, heads and finished jobs are as many as the actions account for. */
  ghost predicate CountsMatch(times: multiset<Action>, w: World) {
    && |w.received| == times[Receive]
    && |w.attempts| == |w.chain.blocks| + times[Fail]
    && |w.updates| == |w.chain.blocks| + times[Answer(Syncing)]
    && |w.heads| == times[Answer(Valid)]
    && |w.completed| == times[Fail] + times[Answer(Valid)] + times[Answer(Invalid)] + times[Answer(EngineError)]
  }

  lemma ListsNext(spec: ChainSpec, actions: seq<Action>, w: World, a: Action)
    requires ListsMatch(actions, w) && CanStep(spec, w, a)
    ensures ListsMatch(actions + [a], Do(w, a))
  {
    hide BuiltOn; hide Arrivals; hide Inserted; hide Hashes; hide UpdateTo; hide Seal; hide Chain.HashAt; hide Chain.HeaderAt;
    OneMoreAction(actions, a);
  }

  lemma OneMoreAction(actions: seq<Action>, a: Action)
    ensures Arrivals(actions + [a]) == if a.Arrive? then Arrivals(actions) + [a.batch] else Arrivals(actions)
    ensures Inserted(actions + [a]) == if a.Insert? then Inserted(actions) + [a.block] else Inserted(actions)
  {
    assert (actions + [a])[..|actions|] == actions;
  }

  lemma CountsNext(spec: ChainSpec, times: multiset<Action>, w: World, a: Action)
    requires CountsMatch(times, w) && CanStep(spec, w, a)
    ensures CountsMatch(times + multiset{a}, Do(w, a))
  {
    hide BuiltOn;
  }

  /** In every run each kind of action has had its effect exactly as often as it was taken. */
  lemma {:induction false} RunLedger(spec: ChainSpec, best: SealedHeader, events: Option<EventStream>, pool: set<nat>, actions: seq<Action>, w: World)
    requires Reaches(spec, best, events, pool, actions, w)
    ensures ListsMatch(actions, w) && CountsMatch(multiset(actions), w)
    decreases |actions|
  {
    if actions != [] {
      hide CanStep; hide Do; hide ListsMatch; hide CountsMatch;
      var init, last := actions[..|actions| - 1], actions[|actions| - 1];
      var before := Run(spec, Init(best, events, pool), init);
      RunLedger(spec, best, events, pool, init, before);
      ListsNext(spec, init, before, last);
      CountsNext(spec, multiset(init), before, last);
      assert init + [last] == actions;
    }
  }

  // --- The pool ----------------------------------------------------------------------------------------------------

  ghost predicate Holds(b: Block, tx: nat) {
    exists t :: t in b.body.transactions && t.hash == tx
  }

  ghost predicate Takes(a: Action, tx: nat) {
    a.Insert? && Holds(a.block, tx)
  }

  /** `tx` entered the pool at action `m`, or was there from the start if `m` is -1, and no block has taken it since. */
  ghost predicate PooledSince(pool: set<nat>, actions: seq<Action>, tx: nat, m: int) {
    && -1 <= m < |actions|
    && (if m < 0 then tx in pool else actions[m] == Submit(tx))
    && forall k :: m < k < |actions| ==> !Takes(actions[k], tx)
  }

  lemma PooledNext(pool: set<nat>, actions: seq<Action>, a: Action, tx: nat)
    ensures (exists m :: PooledSince(pool, actions + [a], tx, m))
            <==> a == Submit(tx) || (!Takes(a, tx) && exists m :: PooledSince(pool, actions, tx, m))
  {
    var more, n := actions + [a], |actions|;
    if a == Submit(tx) {
      assert PooledSince(pool, more, tx, n);
    } else if m :| PooledSince(pool, more, tx, m) {
      assert m < n && !Takes(more[n], tx);
      forall k | m < k < n ensures !Takes(actions[k], tx) {
        assert more[k] == actions[k];
      }
      assert PooledSince(pool, actions, tx, m);
    } else if m :| PooledSince(pool, actions, tx, m) && !Takes(a, tx) {
      assert PooledSince(pool, more, tx, m);
    }
  }

  /** In every run the pool holds exactly the transactions that no block has taken since they last entered. */
  lemma {:induction false} PoolExactly(spec: ChainSpec, best: SealedHeader, events: Option<EventStream>, pool: set<nat>,
                                       actions: seq<Action>, w: World, tx: nat)
    requires Reaches(spec, best, events, pool, actions, w)
    ensures tx in w.pool <==> exists m :: PooledSince(pool, actions, tx, m)
    decreases |actions|
  {
    if actions == [] {
      assert tx in pool ==> PooledSince(pool, actions, tx, -1);
    } else {
      hide PooledSince;
      var init, last := actions[..|actions| - 1], actions[|actions| - 1];
      var before := Run(spec, Init(best, events, pool), init);
      PoolExactly(spec, best, events, pool, init, before, tx);
      PoolNext(spec, before, last, tx);
      PooledNext(pool, init, last, tx);
      assert init + [last] == actions;
    }
  }

  lemma PoolNext(spec: ChainSpec, w: World, a: Action, tx: nat)
    requires CanStep(spec, w, a)
    ensures tx in Do(w, a).pool <==> a == Submit(tx) || (tx in w.pool && !Takes(a, tx))
  {
    hide BuiltOn;
  }

  /** The transactions counted as submitted are those pooled at the start and those submitted since. */
  lemma {:induction false} SubmittedExactly(spec: ChainSpec, best: SealedHeader, events: Option<EventStream>, pool: set<nat>,
                                            actions: seq<Action>, w: World, tx: nat)
    requires Reaches(spec, best, events, pool, actions, w)
    ensures tx in w.submitted <==> tx in pool || Submit(tx) in actions
    decreases |actions|
  {
    if actions != [] {
      hide BuiltOn;
      var init, last := actions[..|actions| - 1], actions[|actions| - 1];
      SubmittedExactly(spec, best, events, pool, init, Run(spec, Init(best, events, pool), init), tx);
      assert actions == init + [last];
    }
  }

  lemma {:induction false} InsertedAt(actions: seq<Action>, i: nat) returns (k: nat)
    requires i < |Inserted(actions)|
    ensures k < |actions| && actions[k] == Insert(Inserted(actions)[i])
    decreases |actions|
  {
    var init := actions[..|actions| - 1];
    if i < |Inserted(init)| {
      k := InsertedAt(init, i);
    } else {
      k := |actions| - 1;
    }
  }

  /** A pooled transaction that is in a stored block was submitted again after the block was inserted. */
  lemma PooledWasResubmitted(spec: ChainSpec, best: SealedHeader, events: Option<EventStream>, pool: set<nat>,
                             actions: seq<Action>, w: World, tx: nat, i: nat) returns (k: nat, m: nat)
    requires Reaches(spec, best, events, pool, actions, w)
    requires tx in w.pool && i < |w.chain.blocks| && Holds(w.chain.blocks[i], tx)
    ensures k < m < |actions| && actions[k] == Insert(w.chain.blocks[i]) && actions[m] == Submit(tx)
  {
    RunLedger(spec, best, events, pool, actions, w);
    PoolExactly(spec, best, events, pool, actions, w, tx);
    hide Reaches;
    k := InsertedAt(actions, i);
    assert Takes(actions[k], tx);
    m :| PooledSince(pool, actions, tx, m);
  }

  // --- The updates --------------------------------------------------------------------------------------------------

  /** `owner[j]` is the block that the j-th update names; blocks are announced in order, and none is left out. */
  ghost predicate Announces(w: World, owner: seq<nat>) {
    && |owner| == |w.updates|
    && (forall j :: 0 <= j < |owner| ==> owner[j] < |w.chain.blocks| && w.updates[j] == UpdateTo(Seal(w.chain.blocks[owner[j]])))
    && (forall i, j :: 0 <= i < j < |owner| ==> owner[i] <= owner[j])
    && (forall k: nat :: k < |w.chain.blocks| ==> k in owner)
  }

  lemma AnnouncesOneMore(w: World, w': World, owner: seq<nat>, k: nat)
    requires Announces(w, owner) && k < |w'.chain.blocks| == k + 1
    requires w.chain.blocks <= w'.chain.blocks && |w.chain.blocks| >= k
    requires w'.updates == w.updates + [UpdateTo(Seal(w'.chain.blocks[k]))]
    ensures Announces(w', owner + [k])
  {
    var more := owner + [k];
    forall j | 0 <= j < |more|
      ensures more[j] <= k && w'.updates[j] == UpdateTo(Seal(w'.chain.blocks[more[j]]))
    {
    }
    forall i: nat | i < |w'.chain.blocks| ensures i in more {
      assert i < k ==> i in owner;
      assert more[|owner|] == k;
    }
  }

  /**
   In every run every stored block was announced to the engine, the updates for earlier blocks before those
   for later ones; besides the first update of each block there is one for each Syncing reply.
   */
  lemma {:induction false} BlocksAnnounced(spec: ChainSpec, best: SealedHeader, events: Option<EventStream>, pool: set<nat>,
                                           actions: seq<Action>, w: World) returns (owner: seq<nat>)
    requires Reaches(spec, best, events, pool, actions, w)
    ensures Announces(w, owner)
    ensures |w.updates| == |w.chain.blocks| + multiset(actions)[Answer(Syncing)]
    decreases |actions|
  {
    RunLedger(spec, best, events, pool, actions, w);
    if actions == [] {
      owner := [];
    } else {
      hide CanStep; hide Do; hide Announces; hide ListsMatch;
      var init, last := actions[..|actions| - 1], actions[|actions| - 1];
      var before := Run(spec, Init(best, events, pool), init);
      owner := BlocksAnnounced(spec, best, events, pool, init, before);
      ReachesInv(spec, best, events, pool, init, before);
      owner := AnnouncesNext(spec, before, events, last, owner);
      assert Announces(w, owner);
    }
  }

  lemma AnnouncesNext(spec: ChainSpec, w: World, events: Option<EventStream>, a: Action, owner: seq<nat>) returns (owner': seq<nat>)
    requires Inv(spec, w, events) && CanStep(spec, w, a) && Announces(w, owner)
    ensures Announces(Do(w, a), owner')
  {
    hide BuiltOn; hide Conserved; hide HistoryOk; hide ChainOk; hide HeadsOk; hide EventsOk; hide NoneLost;
    owner' := owner;
    if a.Insert? || a == Answer(Syncing) {
      var w' := Do(w, a);
      var k := |w'.chain.blocks| - 1;
      AnnouncesOneMore(w, w', owner, k);
      owner' := owner + [k];
    }
  }

  /** All updates for a block come before all updates for a later one, and the head hashes tell them apart. */
  lemma UpdatesInOrder(spec: ChainSpec, best: SealedHeader, events: Option<EventStream>, pool: set<nat>,
                       actions: seq<Action>, w: World, i: nat, j: nat, a: nat, b: nat)
    requires Reaches(spec, best, events, pool, actions, w) && i < |w.updates| && j < |w.updates|
    requires a < b < |w.chain.blocks| && w.updates[i].head == HashOf(w.chain.blocks[a].header)
    requires w.updates[j].head == HashOf(w.chain.blocks[b].header)
    ensures i < j
  {
    var owner := BlocksAnnounced(spec, best, events, pool, actions, w);
    ReachesInv(spec, best, events, pool, actions, w);
    hide Reaches; hide Conserved; hide HistoryOk; hide UpdatesOk; hide HeadsOk; hide EventsOk; hide NoneLost;
    if owner[i] != a {
      HashesDiffer(w.chain, owner[i] + 1, a + 1);
    }
    if owner[j] != b {
      HashesDiffer(w.chain, owner[j] + 1, b + 1);
    }
  }

  // --- The heads ----------------------------------------------------------------------------------------------------

  /**
   A Valid reply makes the block that the answered job built from its batch the canonical, safe and finalized
   head: it is the tip of the chain, and the run's list of heads has it in the reply's place.
   */
  lemma ValidSetsHead(spec: ChainSpec, best: SealedHeader, events: Option<EventStream>, pool: set<nat>,
                      actions: seq<Action>, t: nat, now: World, next: World, w: World)
    requires t < |actions| && actions[t] == Answer(Valid)
    requires Reaches(spec, best, events, pool, actions[..t], now) && Reaches(spec, best, events, pool, actions[..t + 1], next)
    requires Reaches(spec, best, events, pool, actions, w)
    ensures now.job.Some? && next.job.None? && next.chain == now.chain && next.chain.blocks != []
    ensures var tip := next.chain.blocks[|next.chain.blocks| - 1];
            && tip.body.transactions == now.job.value.batch
            && next.Head() == next.safe == next.finalized == Some(Seal(tip))
            && next.heads == now.heads + [Seal(tip)]
            && var place := multiset(actions[..t])[Answer(Valid)];
               place < |w.heads| == multiset(actions)[Answer(Valid)] && w.heads[place] == Seal(tip)
  {
    hide Do; hide CanStep; hide ListsMatch; hide CountsMatch; hide Inv; hide Seal;
    var upTo := actions[..t + 1];
    assert upTo[..|upTo| - 1] == actions[..t] && upTo[|upTo| - 1] == Answer(Valid);
    RunGrows(spec, Init(best, events, pool), actions, t + 1);
    ReachesInv(spec, best, events, pool, actions[..t], now);
    RunLedger(spec, best, events, pool, actions[..t], now);
    RunLedger(spec, best, events, pool, actions, w);
    hide Reaches; hide CanRun; hide Run;
    ValidStep(spec, events, now);
    assert w.heads[|now.heads|] == next.heads[|now.heads|];
    HeadsCounted(multiset(actions[..t]), now);
    HeadsCounted(multiset(actions), w);
  }

  lemma HeadsCounted(times: multiset<Action>, w: World)
    requires CountsMatch(times, w)
    ensures |w.heads| == times[Answer(Valid)]
  {
  }

  /** One Valid reply: head, safe and finalized become the tip, which holds the job's batch. */
  lemma ValidStep(spec: ChainSpec, events: Option<EventStream>, w: World)
    requires Inv(spec, w, events) && CanStep(spec, w, Answer(Valid))
    ensures var w' := Do(w, Answer(Valid));
            && w.job.Some? && w'.job.None? && w'.chain == w.chain && w'.chain.blocks != []
            && var tip := w'.chain.blocks[|w'.chain.blocks| - 1];
               && tip.body.transactions == w.job.value.batch
               && w'.heads == w.heads + [Seal(tip)]
               && w'.Head() == w'.safe == w'.finalized == Some(Seal(tip))
  {
    hide Conserved; hide HistoryOk; hide ChainOk; hide HeadsOk; hide EventsOk; hide NoneLost;
  }
}
