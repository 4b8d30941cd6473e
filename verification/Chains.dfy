/**
 The plain list of blocks that the store stands for: the base header, its hash, and the blocks built on top
 of it. The base hash is arbitrary; block hashes are `HashOf` their headers.
 */
module Chains {
  import opened Options
  import opened Primitives

  datatype Chain = Chain(base: Header, baseHash: Hash, blocks: seq<Block>) {
    function Best(): nat { base.number + |blocks| }

    /** Header and hash at position `i`, where position 0 is the base. */
    function HeaderAt(i: nat): Header
      requires i <= |blocks|
    {
      if i == 0 then base else blocks[i - 1].header
    }

    function HashAt(i: nat): Hash
      requires i <= |blocks|
    {
      if i == 0 then baseHash else HashOf(blocks[i - 1].header)
    }

    /** Numbers are contiguous from the base, and each block names the hash of its predecessor. */
    ghost predicate Linked() {
      forall i: nat :: i < |blocks| ==> LinkedAt(i)
    }

    predicate LinkedAt(i: nat)
      requires i < |blocks|
    {
      blocks[i].header.number == base.number + i + 1 && blocks[i].header.parentHash == HashAt(i)
    }

    function Extend(b: Block): Chain {
      this.(blocks := blocks + [b])
    }
  }

  /** The number of headers nested in a hash. */
  function Depth(h: Hash): nat {
    match h
    case HashOf(header) => 1 + Depth(header.parentHash)
    case Opaque(_) => 0
  }

  lemma {:induction false} DepthOfPosition(c: Chain, i: nat)
    requires c.Linked() && i <= |c.blocks|
    ensures Depth(c.HashAt(i)) == Depth(c.baseHash) + i
  {
    if i > 0 {
      DepthOfPosition(c, i - 1);
      assert c.LinkedAt(i - 1);
    }
  }

  /** Positions have pairwise different hashes, whatever the base hash is. */
  lemma HashesDiffer(c: Chain, i: nat, j: nat)
    requires c.Linked() && i <= |c.blocks| && j <= |c.blocks| && i != j
    ensures c.HashAt(i) != c.HashAt(j)
  {
    DepthOfPosition(c, i);
    DepthOfPosition(c, j);
  }

  function SumDifficulty(blocks: seq<Block>): nat {
    if blocks == [] then 0 else SumDifficulty(blocks[..|blocks| - 1]) + blocks[|blocks| - 1].header.difficulty
  }

  // --- Blocks as they are built ------------------------------------------------------------------------------

  /** The parts of the chain specification that block building consults. */
  datatype ChainSpec = ChainSpec(
    isCancunActive: nat -> bool,
    isShanghaiActive: nat -> bool,
    isPragueActive: nat -> bool,
    maxGasLimit: nat,
    nextBlockBaseFee: (Header, nat) -> Option<nat>)

  const TARGET_DATA_GAS_PER_BLOCK: nat := 393216

  const BLOCK_DIFFICULTY: nat := 2

  function OrZero(o: Option<nat>): nat {
    if o.Some? then o.value else 0
  }

  /** The excess blob gas of EIP-4844, section "Header extension". */
  function CalculateExcessBlobGas(parentExcess: nat, parentUsed: nat): nat {
    if parentExcess + parentUsed < TARGET_DATA_GAS_PER_BLOCK then 0
    else parentExcess + parentUsed - TARGET_DATA_GAS_PER_BLOCK
  }

  /** Blob gas of a parent, counted as zero before Cancun. */
  function ExcessAfter(spec: ChainSpec, parent: Header): nat {
    if spec.isCancunActive(parent.timestamp)
    then CalculateExcessBlobGas(OrZero(parent.excessBlobGas), OrZero(parent.blobGasUsed))
    else CalculateExcessBlobGas(0, 0)
  }

  function BlobGas(txs: seq<Tx>): nat {
    if txs == [] then 0 else BlobGas(txs[..|txs| - 1]) + OrZero(txs[|txs| - 1].blobGas)
  }

  /** The roots in the header are those of the body. */
  predicate RootsMatch(b: Block) {
    && b.header.transactionsRoot == TransactionsRoot(b.body.transactions)
    && b.header.ommersHash == OmmersRoot(b.body.ommers)
    && b.header.withdrawalsRoot == (if b.body.withdrawals.Some? then Some(WithdrawalsRoot(b.body.withdrawals.value)) else None)
    && b.header.requestsRoot == (if b.body.requests.Some? then Some(RequestsRoot(b.body.requests.value)) else None)
  }

  /** What building a block on a parent header fixes, whatever the execution result. */
  predicate BuiltOn(spec: ChainSpec, parent: Header, b: Block) {
    && RootsMatch(b)
    && TemplateOn(spec, parent, b.header)
    && b.body.withdrawals == (if spec.isShanghaiActive(b.header.timestamp) then Some([]) else None)
    && b.body.requests == (if spec.isPragueActive(b.header.timestamp) then Some([]) else None)
  }

  predicate TemplateOn(spec: ChainSpec, parent: Header, h: Header) {
    var cancun := spec.isCancunActive(h.timestamp);
    && h.difficulty == BLOCK_DIFFICULTY
    && h.gasLimit == spec.maxGasLimit
    && h.baseFeePerGas == spec.nextBlockBaseFee(parent, h.timestamp)
    && h.blobGasUsed == (if cancun then Some(0) else None)
    && h.excessBlobGas == (if cancun then Some(ExcessAfter(spec, parent)) else None)
    && h.parentBeaconBlockRoot == (if cancun then parent.parentBeaconBlockRoot else None)
  }

  /** Every block was built on its predecessor. */
  ghost predicate WellBuilt(spec: ChainSpec, c: Chain) {
    forall i: nat :: i < |c.blocks| ==> BuiltAt(spec, c, i)
  }

  predicate BuiltAt(spec: ChainSpec, c: Chain, i: nat)
    requires i < |c.blocks|
  {
    BuiltOn(spec, c.HeaderAt(i), c.blocks[i])
  }

  lemma ExtendLinks(c: Chain, b: Block)
    requires c.Linked() && b.header.number == c.Best() + 1 && b.header.parentHash == c.HashAt(|c.blocks|)
    ensures c.Extend(b).Linked()
  {
    var c' := c.Extend(b);
    forall i: nat | i < |c'.blocks| ensures c'.LinkedAt(i) {
      assert i < |c.blocks| ==> c.LinkedAt(i);
    }
  }

  lemma ExtendKeeps(spec: ChainSpec, c: Chain, b: Block)
    requires WellBuilt(spec, c) && BuiltOn(spec, c.HeaderAt(|c.blocks|), b)
    ensures WellBuilt(spec, c.Extend(b))
  {
    hide BuiltOn;
    var c' := c.Extend(b);
    forall i: nat | i < |c'.blocks| ensures BuiltAt(spec, c', i) {
      assert c'.HeaderAt(i) == c.HeaderAt(i);
      assert i < |c.blocks| ==> c'.blocks[i] == c.blocks[i] && BuiltAt(spec, c, i);
    }
  }

  lemma {:induction false} DifficultyIsTwoPerBlock(spec: ChainSpec, c: Chain)
    requires WellBuilt(spec, c)
    ensures SumDifficulty(c.blocks) == 2 * |c.blocks|
    decreases |c.blocks|
  {
    if c.blocks != [] {
      var d := c.(blocks := c.blocks[..|c.blocks| - 1]);
      forall i: nat | i < |d.blocks| ensures BuiltAt(spec, d, i) {
        assert d.HeaderAt(i) == c.HeaderAt(i) && BuiltAt(spec, c, i);
      }
      DifficultyIsTwoPerBlock(spec, d);
      assert BuiltAt(spec, c, |c.blocks| - 1);
    }
  }

  /**
   On a chain that is Cancun-active from its base on, the k-th local block has the base's excess and used
   blob gas, less k times the target, and never less than zero: local blocks record no blob gas as used.
   */
  lemma {:induction false} ExcessBlobGasDecays(spec: ChainSpec, c: Chain, k: nat)
    requires WellBuilt(spec, c) && 0 < k <= |c.blocks|
    requires forall i: nat :: i <= k ==> spec.isCancunActive(c.HeaderAt(i).timestamp)
    ensures var left := OrZero(c.base.excessBlobGas) + OrZero(c.base.blobGasUsed) - k * TARGET_DATA_GAS_PER_BLOCK;
            c.HeaderAt(k).excessBlobGas == Some(if left < 0 then 0 else left)
  {
    assert BuiltAt(spec, c, k - 1);
    if k > 1 {
      ExcessBlobGasDecays(spec, c, k - 1);
      assert BuiltAt(spec, c, k - 2);
    }
  }

  /** The first Cancun block after an earlier fork starts with no excess blob gas. */
  lemma FirstCancunBlock(spec: ChainSpec, c: Chain, i: nat)
    requires WellBuilt(spec, c) && i < |c.blocks| && spec.isCancunActive(c.blocks[i].header.timestamp)
    requires !spec.isCancunActive(c.HeaderAt(i).timestamp)
    ensures c.blocks[i].header.excessBlobGas == Some(0)
  {
    assert BuiltAt(spec, c, i);
  }

  /** On a chain that is Cancun-active throughout, every local block carries the base's beacon root. */
  lemma {:induction false} BeaconRootInherited(spec: ChainSpec, c: Chain, k: nat)
    requires WellBuilt(spec, c) && k <= |c.blocks|
    requires forall i: nat :: i <= k ==> spec.isCancunActive(c.HeaderAt(i).timestamp)
    ensures c.HeaderAt(k).parentBeaconBlockRoot == c.base.parentBeaconBlockRoot
  {
    if k > 0 {
      BeaconRootInherited(spec, c, k - 1);
      assert BuiltAt(spec, c, k - 1);
    }
  }

  /** A header commits to its body: the roots leave no choice of transactions, ommers, withdrawals or requests. */
  lemma HeaderCommitsToBody(h: Header, a: BlockBody, b: BlockBody)
    requires RootsMatch(Block(h, a)) && RootsMatch(Block(h, b))
    ensures a == b
  {
  }

  /**
   A Cancun block's header should record the blob gas of its transactions. It always records zero, so the
   record is right exactly when the block's transactions use no blob gas.
   */
  lemma BlobGasRecordedIffNone(spec: ChainSpec, c: Chain, i: nat)
    requires WellBuilt(spec, c) && i < |c.blocks| && spec.isCancunActive(c.blocks[i].header.timestamp)
    ensures c.blocks[i].header.blobGasUsed == Some(BlobGas(c.blocks[i].body.transactions))
            <==> forall tx :: tx in c.blocks[i].body.transactions ==> OrZero(tx.blobGas) == 0
  {
    assert BuiltAt(spec, c, i);
    BlobGasZero(c.blocks[i].body.transactions);
  }

  lemma {:induction false} BlobGasZero(txs: seq<Tx>)
    ensures BlobGas(txs) == 0 <==> forall tx :: tx in txs ==> OrZero(tx.blobGas) == 0
  {
    if txs != [] {
      BlobGasZero(txs[..|txs| - 1]);
      assert txs == txs[..|txs| - 1] + [txs[|txs| - 1]];
    }
  }
}
