/**
 The execution task object (src/chain/task.rs). Each of its operations is a run of the machine of
 `TaskModel`; `Poll` is the hand-written poll loop, proved to terminate and to return only when a job is
 pending or there is nothing left to do.
 */
module Task {
  import opened Options
  import opened Primitives
  import opened Chains
  import opened Storage
  import opened TaskModel

  /**
   What the surroundings contribute to one poll of the insert job: whether the storage lock is free, the
   clock, the execution result, and the engine replies that are available by now, in order.
   */
  datatype JobTurn = JobTurn(lockFree: bool, timestamp: nat, execution: Option<Execution>, replies: seq<Reply>)

  function Total(late: seq<seq<seq<Tx>>>): nat {
    if late == [] then 0 else |late[0]| + Total(late[1..])
  }

  // --- What a poll must achieve ------------------------------------------------------------------------------------

  predicate HasFinal(replies: seq<Reply>) {
    exists i :: 0 <= i < |replies| && !replies[i].Syncing?
  }

  /** The replies a job acts on: all up to and including the first that is not Syncing. */
  function ActedOn(replies: seq<Reply>): (r: seq<Reply>)
    ensures r <= replies && forall i :: 0 <= i < |r| - 1 ==> r[i].Syncing?
    ensures if HasFinal(replies) then r != [] && !r[|r| - 1].Syncing? else r == replies
  {
    if replies == [] then []
    else if !replies[0].Syncing? then [replies[0]]
    else
      assert HasFinal(replies) <==> HasFinal(replies[1..]) by {
        if i :| 0 <= i < |replies| && !replies[i].Syncing? { assert !replies[1..][i - 1].Syncing?; }
        assert forall i :: 0 <= i < |replies| - 1 ==> replies[1..][i] == replies[i + 1];
      }
      [replies[0]] + ActedOn(replies[1..])
  }

  function Answers(replies: seq<Reply>): seq<Action> {
    seq(|replies|, i requires 0 <= i < |replies| => Answer(replies[i]))
  }

  /** The job ends in this turn: its execution fails, or a reply that is not Syncing is available. */
  predicate JobEnds(job: Job, turn: JobTurn) {
    if job.stage.Awaiting? then HasFinal(turn.replies)
    else turn.lockFree && (turn.execution.None? || HasFinal(turn.replies))
  }

  /** The job cannot go on: the storage lock is taken, or every available reply was Syncing. */
  predicate JobWaits(job: Job, turn: JobTurn) {
    if job.stage.Building? then !turn.lockFree else !HasFinal(turn.replies)
  }

  /** The block that the turn's execution completes from the job's batch. */
  predicate IsBlockOf(job: Job, turn: JobTurn, b: Block) {
    && turn.execution.Some? && Completes(b.header, turn.execution.value)
    && b.header.timestamp == turn.timestamp && b.body.transactions == job.batch && b.body.ommers == []
  }

  /** All that one poll of the job does, in order. */
  predicate JobActs(job: Job, turn: JobTurn, actions: seq<Action>) {
    if job.stage.Awaiting? then actions == Answers(ActedOn(turn.replies))
    else if !turn.lockFree then actions == []
    else if turn.execution.None? then actions == [Fail]
    else
      && actions != [] && actions[0].Insert? && IsBlockOf(job, turn, actions[0].block)
      && actions[1..] == Answers(ActedOn(turn.replies))
  }

  /** All that one pass of the poll loop does: take a batch if there is one, start a job if none is in flight, poll it. */
  ghost predicate IsPass(w: World, turn: JobTurn, actions: seq<Action>, again: bool) {
    var received, queued := if w.channel != [] then [Receive] else [], w.queued + w.channel[..if w.channel != [] then 1 else 0];
    if w.job.None? && queued == [] then actions == [] && !again
    else
      var begun := received + if w.job.None? then [Start] else [];
      var job := if w.job.Some? then w.job.value else Job(queued[0], w.events, Building);
      begun <= actions && JobActs(job, turn, actions[|begun|..]) && again == JobEnds(job, turn)
  }

  function ArriveAll(w: World, batches: seq<seq<Tx>>): World {
    w.(channel := w.channel + batches, relayed := w.relayed + batches)
  }

  /** One pass of the poll loop: the world it looks at, arrivals included, and what it does. */
  datatype Pass = Pass(world: World, actions: seq<Action>)

  ghost predicate PassAt(spec: ChainSpec, start: World, late: seq<seq<seq<Tx>>>, oracle: nat -> JobTurn, passes: seq<Pass>, k: nat, again: bool)
    requires k < |passes|
  {
    && CanRun(spec, passes[k].world, passes[k].actions)
    && IsPass(passes[k].world, oracle(k), passes[k].actions, again)
    && (k > 0 ==> CanRun(spec, passes[k - 1].world, passes[k - 1].actions))
    && var before := if k == 0 then start else Run(spec, passes[k - 1].world, passes[k - 1].actions);
       passes[k].world == ArriveAll(before, if k < |late| then late[k] else [])
  }

  /** A poll: passes one after the other, all but the last of which end their job, and the last of which does not. */
  ghost predicate IsPoll(spec: ChainSpec, start: World, late: seq<seq<seq<Tx>>>, oracle: nat -> JobTurn, passes: seq<Pass>, end: World) {
    && passes != []
    && (forall k: nat :: k < |passes| - 1 ==> PassAt(spec, start, late, oracle, passes, k, true))
    && var last := |passes| - 1;
       PassAt(spec, start, late, oracle, passes, last, false)
       && end == Run(spec, passes[last].world, passes[last].actions)
  }

  class MalachiteTask {
    const spec: ChainSpec
    const storage: StorageInner
    var insertTask: Option<Job>
    var pool: set<nat>
    var queued: seq<seq<Tx>>
    var toEngine: seq<ForkchoiceState>
    var pipeLineEvents: Option<EventStream>
    var chainRx: seq<seq<Tx>>
    var canonicalHeads: seq<SealedHeader>
    var safe: Option<SealedHeader>
    var finalized: Option<SealedHeader>
    ghost var relayed: seq<seq<Tx>>
    ghost var received: seq<seq<Tx>>
    ghost var completed: seq<seq<Tx>>
    ghost var attempts: seq<Attempt>
    ghost var submitted: set<nat>
    ghost var lost: bool

    ghost function View(): World
      reads this, storage
    {
      World(storage.chain, chainRx, queued, insertTask, pipeLineEvents, pool, toEngine, canonicalHeads, safe, finalized,
            relayed, received, completed, attempts, submitted, lost)
    }

    /** The object went from `w` to its present state by the given actions. */
    ghost predicate Ran(w: World, actions: seq<Action>)
      reads this, storage
    {
      CanRun(spec, w, actions) && View() == Run(spec, w, actions)
    }

    constructor (spec: ChainSpec, best: SealedHeader, storage: StorageInner, pool: set<nat>)
      requires storage.chain == Chain(best.header, best.hash, [])
      ensures this.spec == spec && this.storage == storage
      ensures View() == Init(best, None, pool)
    {
      this.spec, this.storage, this.pool := spec, storage, pool;
      insertTask, queued, toEngine, pipeLineEvents, chainRx := None, [], [], None, [];
      canonicalHeads, safe, finalized := [], None, None;
      relayed, received, completed, attempts, submitted, lost := [], [], [], [], pool, false;
    }

    method SetPipelineEvents(events: EventStream)
      modifies this`pipeLineEvents
      ensures View() == old(View()).(events := Some(events))
    {
      pipeLineEvents := Some(events);
    }

    /** Batches come in on the channel. */
    method Deliver(batches: seq<seq<Tx>>) returns (ghost actions: seq<Action>)
      modifies this`chainRx, this`relayed
      ensures Ran(old(View()), actions)
      ensures View() == ArriveAll(old(View()), batches) && chainRx == old(chainRx) + batches
    {
      hide CanRun; hide Run;
      actions := [];
      RunNone(spec, View());
      for i := 0 to |batches|
        invariant Ran(old(View()), actions)
        invariant chainRx == old(chainRx) + batches[..i] && relayed == old(relayed) + batches[..i]
      {
        ghost var w := View();
        chainRx, relayed := chainRx + [batches[i]], relayed + [batches[i]];
        Extend(old(View()), actions, w, Arrive(batches[i]));
        actions := actions + [Arrive(batches[i])];
      }
    }

    /** One more action after a run. */
    lemma Extend(start: World, actions: seq<Action>, w: World, a: Action)
      requires CanRun(spec, start, actions) && w == Run(spec, start, actions)
      requires CanStep(spec, w, a) && View() == Do(w, a)
      ensures Ran(start, actions + [a])
    {
      hide CanStep; hide Do;
      RunOne(spec, w, a);
      RunConcat(spec, start, actions, [a]);
    }

    /** A run of one action. */
    lemma Single(w: World, a: Action)
      requires CanStep(spec, w, a) && View() == Do(w, a)
      ensures Ran(w, [a])
    {
      hide CanStep; hide Do;
      RunOne(spec, w, a);
    }

    method Receive() returns (ghost actions: seq<Action>)
      requires chainRx != []
      modifies this`chainRx, this`queued, this`received
      ensures Ran(old(View()), actions)
      ensures actions == [TaskModel.Receive]
      ensures chainRx == old(chainRx)[1..] && queued == old(queued) + [old(chainRx)[0]]
    {
      var v := chainRx[0];
      chainRx := chainRx[1..];
      queued := queued + [v];
      received := received + [v];
      Single(old(View()), TaskModel.Receive);
      actions := [TaskModel.Receive];
    }

    /** Takes the oldest queued batch and the event stream into a new insert job. */
    method StartJob() returns (ghost actions: seq<Action>)
      requires insertTask.None? && queued != []
      modifies this`queued, this`insertTask, this`pipeLineEvents
      ensures Ran(old(View()), actions)
      ensures actions == [Start]
      ensures queued == old(queued)[1..] && insertTask == Some(Job(old(queued)[0], old(pipeLineEvents), Building))
    {
      var transactions := queued[0];
      queued := queued[1..];
      var events := pipeLineEvents;
      pipeLineEvents := None;
      insertTask := Some(Job(transactions, events, Building));
      Single(old(View()), Start);
      actions := [Start];
    }

    /** A block built on the world's chain is one the machine may insert. */
    lemma BuiltCanBeInserted(w: World, job: Job, b: Block)
      requires w.job == Some(job) && job.stage.Building?
      requires storage.Valid() && storage.chain == w.chain.Extend(b)
      requires b.body.transactions == job.batch && BuiltOn(spec, w.chain.HeaderAt(|w.chain.blocks|), b)
      ensures CanStep(spec, w, Insert(b))
    {
      hide BuiltOn; hide HeadersOk; hide IndexOk; hide BodiesOk;
      assert storage.chain.LinkedAt(|w.chain.blocks|);
      assert storage.chain.HashAt(|w.chain.blocks|) == w.chain.HashAt(|w.chain.blocks|);
    }

    /** The block is stored: its transactions leave the pool and the first update is sent. */
    method AfterInsert(header: SealedHeader, ghost w: World, ghost b: Block)
      requires CanStep(spec, w, Insert(b)) && View() == w.(chain := w.chain.Extend(b)) && insertTask == w.job
      requires header == SealedHeader(b.header, HashOf(b.header))
      modifies this`pool, this`toEngine, this`insertTask, this`attempts
      ensures Ran(w, [Insert(b)])
      ensures insertTask == Some(old(insertTask.value).(stage := Awaiting(header)))
      ensures pool == old(pool) - Hashes(old(insertTask.value.batch))
      ensures toEngine == old(toEngine) + [UpdateTo(header)]
    {
      hide BuiltOn; hide CanRun; hide Run;
      var job := insertTask.value;
      pool := pool - Hashes(job.batch);
      toEngine := toEngine + [ForkchoiceState(header.hash, header.hash, header.hash)];
      insertTask := Some(job.(stage := Awaiting(header)));
      attempts := attempts + [Attempt(job.batch, true)];
      Single(w, Insert(b));
    }

    /** The execution failed: the job ends and hands back its event stream. */
    method AfterFailure()
      requires insertTask.Some? && insertTask.value.stage.Building?
      modifies this`attempts, this`completed, this`insertTask, this`pipeLineEvents
      ensures Ran(old(View()), [Fail]) && insertTask.None?
      ensures completed == old(completed) + [old(insertTask.value.batch)] && pipeLineEvents == old(insertTask.value.events)
    {
      hide BuiltOn; hide CanRun; hide Run;
      var job := insertTask.value;
      attempts := attempts + [Attempt(job.batch, false)];
      completed := completed + [job.batch];
      insertTask := None;
      pipeLineEvents := job.events;
      Single(old(View()), Fail);
    }

    /** The job executes its batch: on success the block is stored, on failure the job ends. */
    method Execute(turn: JobTurn) returns (ghost actions: seq<Action>)
      requires storage.Valid() && insertTask.Some? && insertTask.value.stage.Building?
      modifies this, storage
      ensures storage.Valid()
      ensures Ran(old(View()), actions)
      ensures chainRx == old(chainRx) && queued == old(queued)
      ensures turn.execution.None? ==>
                && actions == [Fail] && insertTask.None? && storage.View() == old(storage.View())
                && completed == old(completed) + [old(insertTask.value.batch)]
                && pool == old(pool) && toEngine == old(toEngine) && pipeLineEvents == old(insertTask.value.events)
      ensures turn.execution.Some? ==>
                && |actions| == 1 && actions[0].Insert? && IsBlockOf(old(insertTask.value), turn, actions[0].block)
                && storage.chain == old(storage.chain).Extend(actions[0].block)
                && var header := Seal(actions[0].block);
                   && insertTask == Some(old(insertTask.value).(stage := Awaiting(header)))
                   && pool == old(pool) - Hashes(old(insertTask.value.batch))
                   && toEngine == old(toEngine) + [ForkchoiceState(header.hash, header.hash, header.hash)]
                   && header.hash == storage.bestHash
                   && completed == old(completed)
    {
      hide StorageInner.Valid; hide BuiltOn; hide CanRun; hide Run; hide Completes; hide CanStep; hide Do;
      hide Chain.HeaderAt; hide Chain.HashAt; hide Hashes;
      var job := insertTask.value;
      ghost var w := View();
      var built := storage.BuildAndExecute(job.batch, [], turn.timestamp, spec, turn.execution);
      match built
      case Some(header) =>
        ghost var b := storage.chain.blocks[|w.chain.blocks|];
        BuiltCanBeInserted(w, job, b);
        AfterInsert(header, w, b);
        actions := [Insert(b)];
      case None =>
        assert View() == w;
        AfterFailure();
        actions := [Fail];
    }

    /** The engine is syncing: the same update is sent again. */
    method Resend()
      requires insertTask.Some? && insertTask.value.stage.Awaiting?
      modifies this`toEngine
      ensures Ran(old(View()), [Answer(Syncing)])
      ensures toEngine == old(toEngine) + [UpdateTo(insertTask.value.stage.header)]
    {
      var header := insertTask.value.stage.header;
      toEngine := toEngine + [ForkchoiceState(header.hash, header.hash, header.hash)];
      Single(old(View()), Answer(Syncing));
    }

    /** The update is valid: the canonical, safe and finalized heads move, and the job ends. */
    method Settle()
      requires insertTask.Some? && insertTask.value.stage.Awaiting?
      modifies this`canonicalHeads, this`safe, this`finalized, this`completed, this`insertTask, this`pipeLineEvents
      ensures Ran(old(View()), [Answer(Valid)]) && insertTask.None?
      ensures canonicalHeads == old(canonicalHeads) + [old(insertTask.value.stage.header)]
      ensures safe == finalized == Some(old(insertTask.value.stage.header))
      ensures completed == old(completed) + [old(insertTask.value.batch)] && pipeLineEvents == old(insertTask.value.events)
    {
      var job := insertTask.value;
      canonicalHeads := canonicalHeads + [job.stage.header];
      safe := Some(job.stage.header);
      finalized := Some(job.stage.header);
      completed := completed + [job.batch];
      insertTask, pipeLineEvents := None, job.events;
      Single(old(View()), Answer(Valid));
    }

    /** The update was refused or failed: the job ends without handing back the event stream. */
    method Abandon(reply: Reply)
      requires insertTask.Some? && insertTask.value.stage.Awaiting? && (reply.Invalid? || reply.EngineError?)
      modifies this`completed, this`insertTask, this`pipeLineEvents, this`lost
      ensures Ran(old(View()), [Answer(reply)]) && insertTask.None?
      ensures completed == old(completed) + [old(insertTask.value.batch)] && pipeLineEvents == None
    {
      hide CanRun; hide Run;
      completed := completed + [insertTask.value.batch];
      insertTask, pipeLineEvents, lost := None, None, true;
      Single(old(View()), Answer(reply));
    }

    /** The engine has answered; `ready` says whether the job has ended. */
    method HandleReply(reply: Reply) returns (ready: bool, ghost actions: seq<Action>)
      requires insertTask.Some? && insertTask.value.stage.Awaiting?
      modifies this
      ensures Ran(old(View()), actions)
      ensures chainRx == old(chainRx) && queued == old(queued)
      ensures actions == [Answer(reply)]
      ensures ready <==> !reply.Syncing?
      ensures if ready then insertTask.None? else insertTask == old(insertTask)
      ensures completed == old(completed) + if ready then [old(insertTask.value.batch)] else []
      ensures pool == old(pool)
      ensures var header := old(insertTask.value.stage.header);
              if reply.Valid? then
                && canonicalHeads == old(canonicalHeads) + [header] && safe == finalized == Some(header)
                && pipeLineEvents == old(insertTask.value.events)
              else canonicalHeads == old(canonicalHeads) && safe == old(safe) && finalized == old(finalized)
      ensures toEngine == old(toEngine) + if reply.Syncing? then [UpdateTo(old(insertTask.value.stage.header))] else []
      ensures reply.Invalid? || reply.EngineError? ==> pipeLineEvents == None
    {
      hide CanRun; hide Run;
      actions := [Answer(reply)];
      ready := !reply.Syncing?;
      match reply
      case Syncing => Resend();
      case Valid => Settle();
      case Invalid => Abandon(reply);
      case EngineError => Abandon(reply);
    }

    /** The fork-choice loop of the job, as far as the available replies carry it. */
    method AwaitReplies(replies: seq<Reply>) returns (ready: bool, ghost actions: seq<Action>)
      requires insertTask.Some? && insertTask.value.stage.Awaiting?
      modifies this
      ensures Ran(old(View()), actions)
      ensures chainRx == old(chainRx) && queued == old(queued)
      ensures actions == Answers(ActedOn(replies))
      ensures ready <==> HasFinal(replies)
      ensures if ready then insertTask.None? else insertTask == old(insertTask)
      ensures |completed| == |old(completed)| + if ready then 1 else 0
    {
      hide CanStep; hide Do; hide Run; hide CanRun; hide UpdateTo;
      actions := [];
      RunNone(spec, View());
      for i := 0 to |replies|
        invariant insertTask == old(insertTask) && chainRx == old(chainRx) && queued == old(queued)
        invariant Ran(old(View()), actions)
        invariant actions == Answers(replies[..i]) && forall j :: 0 <= j < i ==> replies[j].Syncing?
        invariant |completed| == |old(completed)|
      {
        ghost var more;
        ready, more := HandleReply(replies[i]);
        RunConcat(spec, old(View()), actions, more);
        assert Answers(replies[..i + 1]) == actions + more;
        actions := actions + more;
        if ready {
          assert ActedOn(replies) == replies[..i + 1];
          return true, actions;
        }
      }
      assert replies[..|replies|] == replies;
      ready := false;
    }

    /** One poll of the insert job; `ready` says whether it has ended. */
    method PollJob(turn: JobTurn) returns (ready: bool, ghost actions: seq<Action>)
      requires storage.Valid() && insertTask.Some?
      modifies this, storage
      ensures storage.Valid()
      ensures Ran(old(View()), actions)
      ensures chainRx == old(chainRx) && queued == old(queued)
      ensures JobActs(old(insertTask.value), turn, actions)
      ensures ready <==> JobEnds(old(insertTask.value), turn)
      ensures if ready then insertTask.None? else insertTask.Some? && JobWaits(insertTask.value, turn)
      ensures |completed| == |old(completed)| + if ready then 1 else 0
    {
      hide StorageInner.Valid; hide CanStep; hide Do; hide Run; hide CanRun; hide IsBlockOf; hide Hashes; hide ActedOn;
      hide Seal; hide HasFinal; hide Answers;
      actions := [];
      RunNone(spec, View());
      if insertTask.value.stage.Building? {
        if !turn.lockFree {
          return false, [];
        }
        actions := Execute(turn);
        if insertTask.None? {
          return true, actions;
        }
      }
      ghost var answers;
      ready, answers := AwaitReplies(turn.replies);
      RunConcat(spec, old(View()), actions, answers);
      assert actions == [] ==> actions + answers == answers;
      actions := actions + answers;
    }

    /**
     The poll loop. `late[i]` are the batches that arrive just before the i-th look at the channel, and
     `oracle(i)` is what the surroundings contribute to the i-th poll of the job.
     */
    method Poll(late: seq<seq<seq<Tx>>>, oracle: nat -> JobTurn) returns (ghost actions: seq<Action>, ghost passes: seq<Pass>)
      requires storage.Valid()
      modifies this, storage
      ensures storage.Valid()
      ensures Ran(old(View()), actions)
      ensures IsPoll(spec, old(View()), late, oracle, passes, View())
      ensures |completed| == |old(completed)| + |passes| - 1
      ensures if insertTask.None? then queued == [] && chainRx == [] else JobWaits(insertTask.value, oracle(|passes| - 1))
    {
      hide StorageInner.Valid; hide CanStep; hide Do; hide Run; hide CanRun; hide IsPass; hide JobWaits; hide ArriveAll; hide PassAt;
      actions, passes := [], [];
      RunNone(spec, View());
      var i, rest := 0, late;
      while true
        invariant storage.Valid()
        invariant Ran(old(View()), actions)
        invariant i == |passes| && (i > 0 ==> CanRun(spec, passes[i - 1].world, passes[i - 1].actions))
        invariant rest == if i < |late| then late[i..] else []
        invariant forall k: nat :: k < i ==> PassAt(spec, old(View()), late, oracle, passes, k, true)
        invariant View() == if i == 0 then old(View()) else Run(spec, passes[i - 1].world, passes[i - 1].actions)
        invariant |completed| == |old(completed)| + i
        decreases Total(rest) + |chainRx| + |queued| + (if insertTask.Some? then 1 else 0)
      {
        ghost var w, done, more;
        var ready;
        ready, w, done, more := NextPass(if rest != [] then rest[0] else [], oracle(i));
        rest := if rest != [] then rest[1..] else [];
        RunConcat(spec, old(View()), actions, more);
        actions := actions + more;
        PassesGrow(old(View()), late, oracle, passes, Pass(w, done), ready);
        passes := passes + [Pass(w, done)];
        if !ready {
          break;
        }
        i := i + 1;
      }
    }

    /** Batches arrive, and one pass is made; `w` is the world the pass looks at and `done` what it does. */
    method NextPass(batches: seq<seq<Tx>>, turn: JobTurn)
      returns (again: bool, ghost w: World, ghost done: seq<Action>, ghost actions: seq<Action>)
      requires storage.Valid()
      modifies this, storage
      ensures storage.Valid()
      ensures Ran(old(View()), actions)
      ensures w == ArriveAll(old(View()), batches) && IsPass(w, turn, done, again) && Ran(w, done)
      ensures !again ==> if insertTask.None? then queued == [] && chainRx == [] else JobWaits(insertTask.value, turn)
      ensures |completed| == |old(completed)| + if again then 1 else 0
      ensures again ==> insertTask.None? && |chainRx| + |queued| + 1 == old(|chainRx| + |queued| + (if insertTask.Some? then 1 else 0)) + |batches|
    {
      hide StorageInner.Valid; hide CanStep; hide Do; hide Run; hide CanRun; hide IsPass; hide JobWaits; hide ArriveAll;
      ghost var arrived := Deliver(batches);
      w := View();
      again, done := Turn(turn);
      RunConcat(spec, old(View()), arrived, done);
      actions := arrived + done;
    }

    /** One more pass after those made so far. */
    lemma PassesGrow(start: World, late: seq<seq<seq<Tx>>>, oracle: nat -> JobTurn, passes: seq<Pass>, p: Pass, again: bool)
      requires forall k: nat :: k < |passes| ==> PassAt(spec, start, late, oracle, passes, k, true)
      requires CanRun(spec, p.world, p.actions) && IsPass(p.world, oracle(|passes|), p.actions, again)
      requires passes != [] ==> CanRun(spec, passes[|passes| - 1].world, passes[|passes| - 1].actions)
      requires var before := if passes == [] then start else Run(spec, passes[|passes| - 1].world, passes[|passes| - 1].actions);
               p.world == ArriveAll(before, if |passes| < |late| then late[|passes|] else [])
      ensures forall k: nat :: k < |passes| ==> PassAt(spec, start, late, oracle, passes + [p], k, true)
      ensures PassAt(spec, start, late, oracle, passes + [p], |passes|, again)
    {
      hide CanRun; hide Run; hide IsPass; hide ArriveAll;
      forall k: nat | k < |passes| ensures PassAt(spec, start, late, oracle, passes + [p], k, true) {
        assert PassAt(spec, start, late, oracle, passes, k, true);
      }
    }

    /** One pass through the poll loop; `again` is false when the loop ends here. */
    method Turn(turn: JobTurn) returns (again: bool, ghost actions: seq<Action>)
      requires storage.Valid()
      modifies this, storage
      ensures storage.Valid()
      ensures Ran(old(View()), actions)
      ensures IsPass(old(View()), turn, actions, again)
      ensures !again ==> if insertTask.None? then queued == [] && chainRx == [] else JobWaits(insertTask.value, turn)
      ensures |completed| == |old(completed)| + if again then 1 else 0
      ensures again ==> insertTask.None? && |chainRx| + |queued| + 1 == old(|chainRx| + |queued| + (if insertTask.Some? then 1 else 0))
    {
      hide StorageInner.Valid; hide CanStep; hide Do; hide Run; hide CanRun; hide JobActs; hide JobEnds; hide JobWaits;
      actions := [];
      RunNone(spec, View());
      if chainRx != [] {
        actions := Receive();
      }
      if insertTask.None? {
        if queued == [] {
          return false, actions;
        }
        ghost var started := StartJob();
        RunConcat(spec, old(View()), actions, started);
        actions := actions + started;
      }
      ghost var polled;
      again, polled := PollJob(turn);
      RunConcat(spec, old(View()), actions, polled);
      actions := actions + polled;
    }
  }
}
