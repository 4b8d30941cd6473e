/**
 The in-memory store (src/chain/storage.rs): three maps and three fields that together stand for a plain
 chain of blocks. `Represents` ties them to the chain; the base block has a header and a body but no entry
 in the hash index.
 */
module Storage {
  import opened Options
  import opened Primitives
  import opened Chains

  datatype BlockHashOrNumber = ByHash(hash: Hash) | ByNumber(number: nat)

  /** The contents of the store. */
  datatype Store = Store(
    headers: map<nat, Header>,
    hashToNumber: map<Hash, nat>,
    bodies: map<Hash, BlockBody>,
    bestBlock: nat,
    bestHash: Hash,
    totalDifficulty: nat)
  {
    function HeaderByHashOrNumber(at: BlockHashOrNumber): Option<Header> {
      match at
      case ByHash(hash) =>
        if hash in hashToNumber && hashToNumber[hash] in headers then Some(headers[hashToNumber[hash]]) else None
      case ByNumber(number) => if number in headers then Some(headers[number]) else None
    }
  }

  const EMPTY_BODY := BlockBody([], [], None, None)

  // --- The store and the chain ---------------------------------------------------------------------------------

  ghost predicate HeadersOk(s: Store, c: Chain) {
    && (forall n :: n in s.headers <==> c.base.number <= n <= c.Best())
    && (forall i: nat {:trigger c.HeaderAt(i)} :: i <= |c.blocks| ==> s.headers[c.base.number + i] == c.HeaderAt(i))
  }

  /** The index is a bijection between the hashes and the numbers of the local blocks. */
  ghost predicate IndexOk(s: Store, c: Chain) {
    && (forall h :: h in s.hashToNumber ==>
          && c.base.number < s.hashToNumber[h] <= c.Best()
          && s.hashToNumber[h] in s.headers && h == HashOf(s.headers[s.hashToNumber[h]]))
    && (forall i: nat {:trigger c.HashAt(i)} :: 0 < i <= |c.blocks| ==>
          c.HashAt(i) in s.hashToNumber && s.hashToNumber[c.HashAt(i)] == c.base.number + i)
  }

  ghost predicate BodiesOk(s: Store, c: Chain) {
    && (forall h :: h in s.bodies ==> h == c.baseHash || h in s.hashToNumber)
    && c.baseHash in s.bodies && s.bodies[c.baseHash] == EMPTY_BODY
    && (forall i: nat {:trigger c.HashAt(i)} :: 0 < i <= |c.blocks| ==>
          c.HashAt(i) in s.bodies && s.bodies[c.HashAt(i)] == c.blocks[i - 1].body)
  }

  ghost predicate Represents(s: Store, c: Chain) {
    && c.Linked()
    && HeadersOk(s, c)
    && IndexOk(s, c)
    && BodiesOk(s, c)
    && s.bestBlock == c.Best()
    && s.bestHash == c.HashAt(|c.blocks|)
    && s.totalDifficulty == c.base.difficulty + SumDifficulty(c.blocks)
  }

  /** The stored form of a block appended to `s`. */
  function Appended(s: Store, header: Header, body: BlockBody): Store {
    var hash := HashOf(header);
    Store(s.headers[header.number := header], s.hashToNumber[hash := header.number], s.bodies[hash := body],
          header.number, hash, s.totalDifficulty + header.difficulty)
  }

  lemma AppendedRepresents(s: Store, c: Chain, header: Header, body: BlockBody)
    requires Represents(s, c) && header.number == s.bestBlock + 1 && header.parentHash == s.bestHash
    ensures Represents(Appended(s, header, body), c.Extend(Block(header, body)))
  {
    var b := Block(header, body);
    var c' := c.Extend(b);
    ExtendLinks(c, b);
    assert c'.blocks[..|c'.blocks| - 1] == c.blocks;
    forall i: nat | i <= |c.blocks|
      ensures c'.HashAt(i) == c.HashAt(i) && c'.HeaderAt(i) == c.HeaderAt(i) && c.HashAt(i) != HashOf(header)
    {
      HashesDiffer(c', i, |c'.blocks|);
    }
    hide HeadersOk; hide IndexOk; hide BodiesOk;
    AppendedHeaders(s, c, c', b);
    AppendedIndex(s, c, c', b);
    AppendedBodies(s, c, c', b);
  }

  /** Positions up to the old tip are untouched by appending `b`, and none of them has its hash. */
  ghost predicate Extends(c: Chain, c': Chain, b: Block) {
    && c' == c.Extend(b)
    && b.header.number == c.Best() + 1
    && c'.HashAt(|c'.blocks|) == HashOf(b.header) && c'.HeaderAt(|c'.blocks|) == b.header
    && forall i: nat {:trigger c'.HashAt(i)} {:trigger c'.HeaderAt(i)} :: i <= |c.blocks| ==>
         c'.HashAt(i) == c.HashAt(i) && c'.HeaderAt(i) == c.HeaderAt(i) && c.HashAt(i) != HashOf(b.header)
  }

  lemma AppendedHeaders(s: Store, c: Chain, c': Chain, b: Block)
    requires HeadersOk(s, c) && Extends(c, c', b)
    ensures HeadersOk(Appended(s, b.header, b.body), c')
  {
    hide Chain.HashAt; hide Chain.HeaderAt;
    var s' := Appended(s, b.header, b.body);
    forall i: nat | i <= |c'.blocks| ensures s'.headers[c.base.number + i] == c'.HeaderAt(i) {
      if i <= |c.blocks| {
        assert c'.HeaderAt(i) == c.HeaderAt(i);
      }
    }
  }

  lemma AppendedIndex(s: Store, c: Chain, c': Chain, b: Block)
    requires HeadersOk(s, c) && IndexOk(s, c) && Extends(c, c', b)
    ensures IndexOk(Appended(s, b.header, b.body), c')
  {
    hide Chain.HashAt; hide Chain.HeaderAt;
    var s' := Appended(s, b.header, b.body);
    forall i: nat | 0 < i <= |c'.blocks|
      ensures c'.HashAt(i) in s'.hashToNumber && s'.hashToNumber[c'.HashAt(i)] == c.base.number + i
    {
      if i <= |c.blocks| {
        assert c'.HashAt(i) == c.HashAt(i);
      }
    }
  }

  lemma AppendedBodies(s: Store, c: Chain, c': Chain, b: Block)
    requires IndexOk(s, c) && BodiesOk(s, c) && Extends(c, c', b) && c'.HashAt(0) == c.baseHash
    ensures BodiesOk(Appended(s, b.header, b.body), c')
  {
    hide Chain.HashAt; hide Chain.HeaderAt; hide IndexOk;
    var s' := Appended(s, b.header, b.body);
    forall i: nat | 0 < i <= |c'.blocks|
      ensures c'.HashAt(i) in s'.bodies && s'.bodies[c'.HashAt(i)] == c'.blocks[i - 1].body
    {
      if i <= |c.blocks| {
        assert c'.HashAt(i) == c.HashAt(i);
      }
    }
  }

  lemma TipHeader(s: Store, c: Chain)
    requires Represents(s, c)
    ensures s.bestBlock in s.headers && s.headers[s.bestBlock] == c.HeaderAt(|c.blocks|)
  {
  }

  // --- The store object --------------------------------------------------------------------------------------------

  /** The execution result: the roots and gas that complete the header. */
  datatype Execution = Execution(stateRoot: nat, receiptsRoot: nat, logsBloom: nat, gasUsed: nat)

  /** The header carries the results of execution. */
  predicate Completes(h: Header, x: Execution) {
    && h.stateRoot == ExecutionRoot(x.stateRoot) && h.receiptsRoot == ExecutionRoot(x.receiptsRoot)
    && h.logsBloom == x.logsBloom && h.gasUsed == x.gasUsed
  }

  class StorageInner {
    var headers: map<nat, Header>
    var hashToNumber: map<Hash, nat>
    var bodies: map<Hash, BlockBody>
    var bestBlock: nat
    var bestHash: Hash
    var totalDifficulty: nat
    ghost var chain: Chain

    function View(): Store
      reads this
    {
      Store(headers, hashToNumber, bodies, bestBlock, bestHash, totalDifficulty)
    }

    ghost predicate Valid()
      reads this
    {
      Represents(View(), chain)
    }

    constructor (best: SealedHeader)
      ensures Valid() && chain == Chain(best.header, best.hash, [])
    {
      headers := map[best.header.number := best.header];
      bodies := map[best.hash := EMPTY_BODY];
      hashToNumber := map[];
      bestBlock, bestHash, totalDifficulty := best.header.number, best.hash, best.header.difficulty;
      chain := Chain(best.header, best.hash, []);
    }

    /** The hash of a local block by number; the index is searched in an arbitrary order. */
    method BlockHash(num: nat) returns (r: Option<Hash>)
      requires Valid()
      ensures r == if chain.base.number < num <= chain.Best() then Some(chain.HashAt(num - chain.base.number)) else None
    {
      assert chain.base.number < num <= chain.Best() ==>
               var i := num - chain.base.number;
               && chain.HashAt(i) in hashToNumber && hashToNumber[chain.HashAt(i)] == num
               && headers[num] == chain.HeaderAt(i) && chain.HashAt(i) == HashOf(headers[num]);
      hide HeadersOk; hide BodiesOk; hide Chain.Linked;
      var left := hashToNumber.Keys;
      while left != {}
        invariant left <= hashToNumber.Keys
        invariant forall h :: h in hashToNumber && h !in left ==> hashToNumber[h] != num
      {
        var k :| k in left;
        if hashToNumber[k] == num {
          return Some(k);
        }
        left := left - {k};
      }
      return None;
    }

    /** Appends a block; its number and parent are those of the store's tip, whatever the header said. */
    method InsertNewBlock(header: Header, body: BlockBody)
      requires Valid()
      modifies this
      ensures Valid()
      ensures chain == old(chain).Extend(Block(header.(number := old(bestBlock) + 1, parentHash := old(bestHash)), body))
      ensures bestHash == HashOf(header.(number := old(bestBlock) + 1, parentHash := old(bestHash)))
    {
      hide HeadersOk; hide IndexOk; hide BodiesOk; hide Chain.Linked;
      var h := header.(number := bestBlock + 1, parentHash := bestHash);
      ghost var before := View();
      bestHash := HashOf(h);
      bestBlock := h.number;
      totalDifficulty := totalDifficulty + h.difficulty;
      headers := headers[h.number := h];
      bodies := bodies[bestHash := body];
      hashToNumber := hashToNumber[bestHash := bestBlock];
      AppendedRepresents(before, chain, h, body);
      chain := chain.Extend(Block(h, body));
    }

    /** The header before execution: every field but the execution results. */
    method BuildHeaderTemplate(timestamp: nat, transactions: seq<Tx>, ommers: seq<Header>,
                               withdrawals: Option<seq<Withdrawal>>, requests: Option<seq<Request>>, spec: ChainSpec)
      returns (header: Header)
      requires Valid()
      ensures header.parentHash == bestHash && header.number == bestBlock + 1 && header.timestamp == timestamp
      ensures RootsMatch(Block(header, BlockBody(transactions, ommers, withdrawals, requests)))
      ensures TemplateOn(spec, chain.HeaderAt(|chain.blocks|), header)
    {
      TipHeader(View(), chain);
      hide Represents;
      var parent := headers[bestBlock];
      var baseFeePerGas := spec.nextBlockBaseFee(parent, timestamp);
      var blobGasUsed := None;
      if spec.isCancunActive(timestamp) {
        var sum := 0;
        for i := 0 to |transactions|
          invariant sum == BlobGas(transactions[..i])
        {
          assert transactions[..i + 1][..i] == transactions[..i];
          if transactions[i].blobGas.Some? {
            sum := sum + transactions[i].blobGas.value;
          }
        }
        assert transactions[..|transactions|] == transactions;
        blobGasUsed := Some(sum);
      }
      assert blobGasUsed == if spec.isCancunActive(timestamp) then Some(BlobGas(transactions)) else None;
      header := Header(
        bestHash, OmmersRoot(ommers), EmptyRoot, TransactionsRoot(transactions), EmptyRoot,
        if withdrawals.Some? then Some(WithdrawalsRoot(withdrawals.value)) else None,
        0, 2, bestBlock + 1, spec.maxGasLimit, 0, timestamp, baseFeePerGas, blobGasUsed, None, None,
        if requests.Some? then Some(RequestsRoot(requests.value)) else None);
      if spec.isCancunActive(timestamp) {
        header := header.(parentBeaconBlockRoot := parent.parentBeaconBlockRoot, blobGasUsed := Some(0));
        var excess, used := 0, 0;
        if spec.isCancunActive(parent.timestamp) {
          excess, used := OrZero(parent.excessBlobGas), OrZero(parent.blobGasUsed);
        }
        header := header.(excessBlobGas := Some(CalculateExcessBlobGas(excess, used)));
      }
    }

    /**
     Builds and executes a block; `execution` is `None` when recovering senders, reading state, executing or
     computing the state root fails. On success the sealed header is the stored tip under its true hash.
     */
    method BuildAndExecute(transactions: seq<Tx>, ommers: seq<Header>, timestamp: nat, spec: ChainSpec, execution: Option<Execution>)
      returns (sealed: Option<SealedHeader>)
      requires Valid()
      modifies this
      ensures Valid()
      ensures sealed.Some? <==> execution.Some?
      ensures sealed.None? ==> View() == old(View()) && chain == old(chain)
      ensures sealed.Some? ==>
                && |chain.blocks| == |old(chain).blocks| + 1
                && var b := chain.blocks[|old(chain).blocks|];
                   && chain == old(chain).Extend(b)
                   && b.body == BlockBody(transactions, ommers, if spec.isShanghaiActive(timestamp) then Some([]) else None,
                                          if spec.isPragueActive(timestamp) then Some([]) else None)
                   && b.header.timestamp == timestamp
                   && BuiltOn(spec, old(chain).HeaderAt(|old(chain).blocks|), b)
                   && Completes(b.header, execution.value)
                   && sealed.value == SealedHeader(b.header, HashOf(b.header))
                   && bestHash == sealed.value.hash && headers[bestBlock] == sealed.value.header
    {
      var withdrawals := if spec.isShanghaiActive(timestamp) then Some([]) else None;
      var requests := if spec.isPragueActive(timestamp) then Some([]) else None;
      var header := BuildHeaderTemplate(timestamp, transactions, ommers, withdrawals, requests, spec);
      match execution
      case None => return None;
      case Some(x) =>
        var body := BlockBody(transactions, ommers, withdrawals, requests);
        header := header.(stateRoot := ExecutionRoot(x.stateRoot), gasUsed := x.gasUsed);
        header := header.(logsBloom := x.logsBloom);
        header := header.(receiptsRoot := ExecutionRoot(x.receiptsRoot));
        InsertNewBlock(header, body);
        TipHeader(View(), chain);
        return Some(SealedHeader(header, bestHash));
    }
  }
}
