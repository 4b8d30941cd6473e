/**
 The execution task as a state machine (src/chain/task.rs): batches arrive on a channel, are queued, and one
 insert job at a time builds a block, appends it to the chain, drives the engine's fork choice and moves
 the canonical head. Executor results, engine replies, timestamps and arrivals are arbitrary.
 */
module TaskModel {
  import opened Options
  import opened Primitives
  import opened Chains

  /** The three hashes of a fork-choice update. */
  datatype ForkchoiceState = ForkchoiceState(head: Hash, safe: Hash, finalized: Hash)

  datatype Reply = Valid | Invalid | Syncing | EngineError

  datatype EventStream = EventStream(id: nat)

  datatype Stage = Building | Awaiting(header: SealedHeader)

  /** The insert job in flight: its batch, the event stream it took along, and how far it is. */
  datatype Job = Job(batch: seq<Tx>, events: Option<EventStream>, stage: Stage)

  /** The outcome of one execution: the batch and whether a block was built from it. */
  datatype Attempt = Attempt(batch: seq<Tx>, ok: bool)

  /**
   The task and its surroundings. `relayed`, `received`, `completed`, `attempts`, `submitted` and `lost` are
   history: batches put on the channel, batches taken from it, batches whose job has ended, executions that
   have returned, transactions ever submitted to the pool, and whether a fork-choice update has ended Invalid
   or in error.
   */
  datatype World = World(
    chain: Chain,
    channel: seq<seq<Tx>>,
    queued: seq<seq<Tx>>,
    job: Option<Job>,
    events: Option<EventStream>,
    pool: set<nat>,
    updates: seq<ForkchoiceState>,
    heads: seq<SealedHeader>,
    safe: Option<SealedHeader>,
    finalized: Option<SealedHeader>,
    relayed: seq<seq<Tx>>,
    received: seq<seq<Tx>>,
    completed: seq<seq<Tx>>,
    attempts: seq<Attempt>,
    submitted: set<nat>,
    lost: bool)
  {
    /** The header the canonical head was last set to. */
    function Head(): Option<SealedHeader> {
      if heads == [] then None else Some(heads[|heads| - 1])
    }
  }

  function Init(best: SealedHeader, events: Option<EventStream>, pool: set<nat>): World {
    World(Chain(best.header, best.hash, []), [], [], None, events, pool, [], [], None, None, [], [], [], [], pool, false)
  }

  datatype Action =
    | Submit(tx: nat)            // a transaction enters the pool
    | Arrive(batch: seq<Tx>)     // the consumer relays a batch
    | Receive                    // the task takes a batch off the channel
    | Start                      // an insert job starts with the oldest queued batch
    | Fail                       // the job's execution fails and the job ends
    | Insert(block: Block)       // the job's execution succeeds: block stored, pool cleared, first update sent
    | Answer(reply: Reply)       // the engine answers the last update

  function Hashes(batch: seq<Tx>): set<nat> {
    set tx | tx in batch :: tx.hash
  }

  function Seal(b: Block): SealedHeader {
    SealedHeader(b.header, HashOf(b.header))
  }

  function UpdateTo(h: SealedHeader): ForkchoiceState {
    ForkchoiceState(h.hash, h.hash, h.hash)
  }

  ghost predicate CanStep(spec: ChainSpec, w: World, a: Action) {
    match a
    case Submit(_) => true
    case Arrive(_) => true
    case Receive => w.channel != []
    case Start => w.job.None? && w.queued != []
    case Fail => w.job.Some? && w.job.value.stage.Building?
    case Insert(b) =>
      && w.job.Some? && w.job.value.stage.Building?
      && b.body.transactions == w.job.value.batch
      && b.header.number == w.chain.Best() + 1 && b.header.parentHash == w.chain.HashAt(|w.chain.blocks|)
      && BuiltOn(spec, w.chain.HeaderAt(|w.chain.blocks|), b)
    case Answer(_) => w.job.Some? && w.job.value.stage.Awaiting?
  }

  /** The job ends and hands back an event stream, or none. */
  function End(w: World, job: Job, events: Option<EventStream>): World {
    w.(job := None, events := events, completed := w.completed + [job.batch])
  }

  function Do(w: World, a: Action): World
    requires match a
             case Receive => w.channel != []
             case Start => w.queued != []
             case Fail => w.job.Some?
             case Insert(_) => w.job.Some?
             case Answer(_) => w.job.Some? && w.job.value.stage.Awaiting?
             case _ => true
  {
    match a
    case Submit(tx) => w.(pool := w.pool + {tx}, submitted := w.submitted + {tx})
    case Arrive(batch) => w.(channel := w.channel + [batch], relayed := w.relayed + [batch])
    case Receive =>
      w.(channel := w.channel[1..], queued := w.queued + [w.channel[0]], received := w.received + [w.channel[0]])
    case Start => w.(queued := w.queued[1..], job := Some(Job(w.queued[0], w.events, Building)), events := None)
    case Fail =>
      var job := w.job.value;
      End(w.(attempts := w.attempts + [Attempt(job.batch, false)]), job, job.events)
    case Insert(b) =>
      var job := w.job.value;
      var sealed := Seal(b);
      w.(chain := w.chain.Extend(b),
         pool := w.pool - Hashes(job.batch),
         attempts := w.attempts + [Attempt(job.batch, true)],
         updates := w.updates + [UpdateTo(sealed)],
         job := Some(job.(stage := Awaiting(sealed))))
    case Answer(reply) =>
      var job := w.job.value;
      var header := job.stage.header;
      match reply
      case Valid => End(w.(heads := w.heads + [header], safe := Some(header), finalized := Some(header)), job, job.events)
      case Syncing => w.(updates := w.updates + [UpdateTo(header)])
      case Invalid => End(w.(lost := true), job, None)
      case EngineError => End(w.(lost := true), job, None)
  }

  /** The actions can be taken one after the other. */
  ghost predicate CanRun(spec: ChainSpec, w: World, actions: seq<Action>)
    decreases |actions|, 0
  {
    actions != [] ==>
      var init := actions[..|actions| - 1];
      CanRun(spec, w, init) && CanStep(spec, Run(spec, w, init), actions[|actions| - 1])
  }

  ghost function Run(spec: ChainSpec, w: World, actions: seq<Action>): World
    requires CanRun(spec, w, actions)
    decreases |actions|, 1
  {
    if actions == [] then w
    else Do(Run(spec, w, actions[..|actions| - 1]), actions[|actions| - 1])
  }

  // --- The invariant -------------------------------------------------------------------------------------------

  function InFlight(w: World): seq<seq<Tx>> {
    if w.job.Some? then [w.job.value.batch] else []
  }

  /** No batch is lost, duplicated or reordered on its way through the task. */
  ghost predicate Conserved(w: World) {
    && w.relayed == w.received + w.channel
    && w.received == w.completed + InFlight(w) + w.queued
  }

  function BatchesOf(attempts: seq<Attempt>): seq<seq<Tx>> {
    seq(|attempts|, i requires 0 <= i < |attempts| => attempts[i].batch)
  }

  function Succeeded(attempts: seq<Attempt>): seq<seq<Tx>> {
    if attempts == [] then []
    else
      var last := attempts[|attempts| - 1];
      Succeeded(attempts[..|attempts| - 1]) + if last.ok then [last.batch] else []
  }

  function Failures(attempts: seq<Attempt>): nat {
    if attempts == [] then 0
    else Failures(attempts[..|attempts| - 1]) + if attempts[|attempts| - 1].ok then 0 else 1
  }

  function TransactionsOf(blocks: seq<Block>): seq<seq<Tx>> {
    seq(|blocks|, i requires 0 <= i < |blocks| => blocks[i].body.transactions)
  }

  /** The batch in flight, if its execution has returned. */
  function Executed(w: World): seq<seq<Tx>> {
    if w.job.Some? && w.job.value.stage.Awaiting? then [w.job.value.batch] else []
  }

  /** The blocks hold exactly the batches that executed, in order. */
  ghost predicate HistoryOk(w: World) {
    && BatchesOf(w.attempts) == w.completed + Executed(w)
    && TransactionsOf(w.chain.blocks) == Succeeded(w.attempts)
    && |w.chain.blocks| + Failures(w.attempts) == |w.attempts|
  }

  ghost predicate ChainOk(spec: ChainSpec, w: World) {
    w.chain.Linked() && WellBuilt(spec, w.chain)
  }

  /** A sealed header that is block `i` of the chain. */
  ghost predicate IsBlock(c: Chain, h: SealedHeader, i: nat) {
    i < |c.blocks| && h == Seal(c.blocks[i])
  }

  ghost predicate Stored(c: Chain, h: SealedHeader) {
    exists i: nat :: IsBlock(c, h, i)
  }

  ghost predicate UpdateOk(c: Chain, u: ForkchoiceState) {
    exists i: nat :: i < |c.blocks| && u == UpdateTo(Seal(c.blocks[i]))
  }

  /** Every update ever sent names a stored block; a job that awaits a reply has built the tip from its batch. */
  ghost predicate UpdatesOk(w: World) {
    && (forall u :: u in w.updates ==> UpdateOk(w.chain, u))
    && (w.job.Some? && w.job.value.stage.Awaiting? ==>
          && w.chain.blocks != [] && IsBlock(w.chain, w.job.value.stage.header, |w.chain.blocks| - 1)
          && w.chain.blocks[|w.chain.blocks| - 1].body.transactions == w.job.value.batch)
  }

  /** Canonical heads are stored blocks with rising numbers; head, safe and finalized move together. */
  ghost predicate HeadsOk(w: World) {
    && (forall h :: h in w.heads ==> Stored(w.chain, h) && h.header.number <= w.chain.Best())
    && (forall i, j :: 0 <= i < j < |w.heads| ==> w.heads[i].header.number < w.heads[j].header.number)
    && (w.job.Some? && w.job.value.stage.Awaiting? ==> forall h :: h in w.heads ==> h.header.number < w.chain.Best())
    && w.safe == w.finalized == w.Head()
  }

  /** The event stream is with the task when no job is in flight, with the job otherwise, until it is lost. */
  ghost predicate EventsOk(w: World, stream: Option<EventStream>) {
    var token := if w.lost then None else stream;
    && w.events == (if w.job.None? then token else None)
    && (w.job.Some? ==> w.job.value.events == token)
  }

  /** Every submitted transaction is still in the pool or in a stored block. */
  ghost predicate NoneLost(w: World) {
    forall tx :: tx in w.submitted ==> tx in w.pool || InSomeBlock(w.chain, tx)
  }

  ghost predicate InSomeBlock(c: Chain, tx: nat) {
    exists i: nat :: i < |c.blocks| && tx in Hashes(c.blocks[i].body.transactions)
  }

  ghost predicate Inv(spec: ChainSpec, w: World, stream: Option<EventStream>) {
    && Conserved(w)
    && HistoryOk(w)
    && ChainOk(spec, w)
    && UpdatesOk(w)
    && HeadsOk(w)
    && EventsOk(w, stream)
    && NoneLost(w)
  }

  lemma InitInv(spec: ChainSpec, best: SealedHeader, events: Option<EventStream>, pool: set<nat>)
    ensures Inv(spec, Init(best, events, pool), events)
  {
  }

  // --- Every action keeps it -----------------------------------------------------------------------------------

  lemma BlocksStayStored(c: Chain, b: Block)
    ensures forall h, i: nat :: IsBlock(c, h, i) ==> IsBlock(c.Extend(b), h, i)
    ensures forall h :: Stored(c, h) ==> Stored(c.Extend(b), h)
    ensures forall u :: UpdateOk(c, u) ==> UpdateOk(c.Extend(b), u)
    ensures forall tx :: InSomeBlock(c, tx) ==> InSomeBlock(c.Extend(b), tx)
  {
    var c' := c.Extend(b);
    forall h | Stored(c, h) ensures Stored(c', h) {
      var i: nat :| IsBlock(c, h, i);
      assert IsBlock(c', h, i);
    }
    forall u | UpdateOk(c, u) ensures UpdateOk(c', u) {
      var i: nat :| i < |c.blocks| && u == UpdateTo(Seal(c.blocks[i]));
      assert c'.blocks[i] == c.blocks[i];
    }
    forall tx | InSomeBlock(c, tx) ensures InSomeBlock(c', tx) {
      var i: nat :| i < |c.blocks| && tx in Hashes(c.blocks[i].body.transactions);
      assert c'.blocks[i] == c.blocks[i];
    }
  }

  /** The first of `tail` moves to the end of `front`. */
  lemma MoveFirst(front: seq<seq<Tx>>, tail: seq<seq<Tx>>)
    requires tail != []
    ensures front + tail == front + [tail[0]] + tail[1..]
  {
  }

  lemma ConservedKept(spec: ChainSpec, w: World, a: Action)
    requires Conserved(w) && CanStep(spec, w, a)
    ensures Conserved(Do(w, a))
  {
    hide BuiltOn; hide Chain.Linked; hide Hashes; hide UpdateTo; hide Seal; hide Chain.HashAt; hide Chain.HeaderAt;
    var w' := Do(w, a);
    match a
    case Receive =>
      MoveFirst(w.received, w.channel);
      assert w.completed + InFlight(w) + w.queued + [w.channel[0]] == w.completed + InFlight(w) + (w.queued + [w.channel[0]]);
    case Start =>
      MoveFirst(w.completed, w.queued);
      assert w.completed + [] == w.completed;
    case Arrive(batch) => assert w.received + w.channel + [batch] == w.received + (w.channel + [batch]);
    case _ =>
      assert w'.relayed == w.relayed && w'.received == w.received && w'.channel == w.channel && w'.queued == w.queued;
      assert w'.completed + InFlight(w') == w.completed + InFlight(w);
  }

  lemma HistoryKept(spec: ChainSpec, w: World, a: Action)
    requires HistoryOk(w) && CanStep(spec, w, a)
    ensures HistoryOk(Do(w, a))
  {
    hide HistoryOk; hide CanStep; hide Do;
    if a.Fail? || a.Insert? {
      ExecutionRecorded(spec, w, a);
    } else {
      HistoryUntouched(spec, w, a);
    }
  }

  /** An execution that returns is recorded, and so is its block if there is one. */
  lemma ExecutionRecorded(spec: ChainSpec, w: World, a: Action)
    requires HistoryOk(w) && CanStep(spec, w, a) && (a.Fail? || a.Insert?)
    ensures HistoryOk(Do(w, a))
  {
    hide BuiltOn; hide Hashes; hide UpdateTo; hide Seal; hide Chain.HashAt; hide Chain.HeaderAt;
    var w', tried := Do(w, a), Attempt(w.job.value.batch, a.Insert?);
    AttemptAdded(w.attempts, tried);
    hide BatchesOf; hide Succeeded; hide Failures;
    assert BatchesOf(w.attempts) == w.completed;
    if a.Insert? {
      assert TransactionsOf(w'.chain.blocks) == TransactionsOf(w.chain.blocks) + [tried.batch];
    }
  }

  /** No other action touches the executions; a job that ends moves its batch from in flight to completed. */
  lemma HistoryUntouched(spec: ChainSpec, w: World, a: Action)
    requires HistoryOk(w) && CanStep(spec, w, a) && !a.Fail? && !a.Insert?
    ensures HistoryOk(Do(w, a))
  {
    hide BatchesOf; hide Succeeded; hide Failures; hide TransactionsOf; hide UpdateTo;
    var w' := Do(w, a);
    assert w'.completed + Executed(w') == w.completed + Executed(w);
  }

  lemma AttemptAdded(attempts: seq<Attempt>, a: Attempt)
    ensures BatchesOf(attempts + [a]) == BatchesOf(attempts) + [a.batch]
    ensures Succeeded(attempts + [a]) == Succeeded(attempts) + if a.ok then [a.batch] else []
    ensures Failures(attempts + [a]) == Failures(attempts) + if a.ok then 0 else 1
  {
    assert (attempts + [a])[..|attempts|] == attempts;
  }

  lemma ChainKept(spec: ChainSpec, w: World, a: Action)
    requires ChainOk(spec, w) && CanStep(spec, w, a)
    ensures ChainOk(spec, Do(w, a))
  {
    if a.Insert? {
      ExtendLinks(w.chain, a.block);
      ExtendKeeps(spec, w.chain, a.block);
    }
  }

  lemma UpdatesKept(spec: ChainSpec, w: World, a: Action)
    requires UpdatesOk(w) && CanStep(spec, w, a)
    ensures UpdatesOk(Do(w, a))
  {
    hide BuiltOn;
    var w' := Do(w, a);
    if a.Insert? {
      BlocksStayStored(w.chain, a.block);
      var i := |w.chain.blocks|;
      assert w'.chain.blocks[i] == a.block;
      assert UpdateOk(w'.chain, UpdateTo(w'.job.value.stage.header));
    } else if a.Answer? {
      assert UpdateOk(w.chain, UpdateTo(w.job.value.stage.header));
    }
  }

  lemma HeadsKept(spec: ChainSpec, w: World, a: Action)
    requires HeadsOk(w) && UpdatesOk(w) && w.chain.Linked() && CanStep(spec, w, a)
    ensures HeadsOk(Do(w, a))
  {
    hide BuiltOn; hide UpdatesOk; hide Chain.Linked; hide Stored;
    if a.Insert? {
      HeadsAfterInsert(w, a.block);
    } else if a.Answer? && a.reply.Valid? {
      HeadAppended(w, Do(w, a));
    }
  }

  lemma HeadsAfterInsert(w: World, b: Block)
    requires HeadsOk(w) && w.job.Some?
    ensures HeadsOk(Do(w, Insert(b)))
  {
    BlocksStayStored(w.chain, b);
    hide Stored;
  }

  lemma HeadAppended(w: World, w': World)
    requires HeadsOk(w) && UpdatesOk(w) && w.chain.Linked() && w.job.Some? && w.job.value.stage.Awaiting?
    requires w' == Do(w, Answer(Valid))
    ensures HeadsOk(w')
  {
    var h, i := w.job.value.stage.header, |w.chain.blocks| - 1;
    assert IsBlock(w.chain, h, i) && w.chain.LinkedAt(i);
    assert Stored(w'.chain, h);
    hide UpdatesOk; hide Stored; hide IsBlock; hide Chain.Linked;
    assert w'.heads == w.heads + [h];
  }

  lemma EventsKept(spec: ChainSpec, w: World, stream: Option<EventStream>, a: Action)
    requires EventsOk(w, stream) && CanStep(spec, w, a)
    ensures EventsOk(Do(w, a), stream)
  {
    hide BuiltOn;
  }

  lemma NoneLostKept(spec: ChainSpec, w: World, a: Action)
    requires NoneLost(w) && CanStep(spec, w, a)
    ensures NoneLost(Do(w, a))
  {
    hide BuiltOn;
    var w' := Do(w, a);
    if a.Insert? {
      BlocksStayStored(w.chain, a.block);
      var i := |w.chain.blocks|;
      assert w'.chain.blocks[i] == a.block;
      assert forall tx :: tx in Hashes(a.block.body.transactions) ==> InSomeBlock(w'.chain, tx);
    }
  }

  lemma StepKeepsInv(spec: ChainSpec, w: World, stream: Option<EventStream>, a: Action)
    requires Inv(spec, w, stream) && CanStep(spec, w, a)
    ensures Inv(spec, Do(w, a), stream)
  {
    hide Conserved; hide HistoryOk; hide UpdatesOk; hide HeadsOk; hide EventsOk; hide NoneLost; hide Chain.Linked; hide WellBuilt; hide Do; hide CanStep;
    ConservedKept(spec, w, a);
    HistoryKept(spec, w, a);
    ChainKept(spec, w, a);
    UpdatesKept(spec, w, a);
    HeadsKept(spec, w, a);
    EventsKept(spec, w, stream, a);
    NoneLostKept(spec, w, a);
  }

  lemma {:induction false} RunKeepsInv(spec: ChainSpec, w: World, stream: Option<EventStream>, actions: seq<Action>)
    requires Inv(spec, w, stream) && CanRun(spec, w, actions)
    ensures Inv(spec, Run(spec, w, actions), stream)
    decreases |actions|
  {
    if actions != [] {
      hide Inv; hide Do; hide CanStep;
      RunKeepsInv(spec, w, stream, actions[..|actions| - 1]);
      StepKeepsInv(spec, Run(spec, w, actions[..|actions| - 1]), stream, actions[|actions| - 1]);
    }
  }

  lemma {:induction false} RunConcat(spec: ChainSpec, w: World, a: seq<Action>, b: seq<Action>)
    requires CanRun(spec, w, a) && CanRun(spec, Run(spec, w, a), b)
    ensures CanRun(spec, w, a + b) && Run(spec, w, a + b) == Run(spec, Run(spec, w, a), b)
    decreases |b|
  {
    hide CanStep; hide Do;
    if b == [] {
      assert a + b == a;
    } else {
      assert (a + b)[..|a + b| - 1] == a + b[..|b| - 1];
      RunConcat(spec, w, a, b[..|b| - 1]);
    }
  }

  lemma RunNone(spec: ChainSpec, w: World)
    ensures CanRun(spec, w, []) && Run(spec, w, []) == w
  {
  }

  lemma RunOne(spec: ChainSpec, w: World, a: Action)
    requires CanStep(spec, w, a)
    ensures CanRun(spec, w, [a]) && Run(spec, w, [a]) == Do(w, a)
  {
    hide CanStep; hide Do;
    assert [a][..0] == [];
    assert CanRun(spec, w, []);
  }
}
