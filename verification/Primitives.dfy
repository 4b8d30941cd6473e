/**
 Transactions, headers and block bodies. Hashes and Merkle roots are free constructors over the hashed
 content, so that they are injective by construction and nothing is assumed about them.
 */
module Primitives {
  import opened Options

  /** A signed transaction; `blobGas` is present on EIP-4844 transactions. */
  datatype Tx = Tx(hash: nat, blobGas: Option<nat>)

  datatype Withdrawal = Withdrawal(index: nat)

  datatype Request = Request(data: nat)

  /** `HashOf` is the hash of a header; `Opaque` any hash whose preimage is not known here. */
  datatype Hash = HashOf(header: Header) | Opaque(bits: nat)

  datatype Root =
    | EmptyRoot
    | TransactionsRoot(transactions: seq<Tx>)
    | OmmersRoot(ommers: seq<Header>)
    | WithdrawalsRoot(withdrawals: seq<Withdrawal>)
    | RequestsRoot(requests: seq<Request>)
    | ExecutionRoot(digest: nat)

  datatype Header = Header(
    parentHash: Hash,
    ommersHash: Root,
    stateRoot: Root,
    transactionsRoot: Root,
    receiptsRoot: Root,
    withdrawalsRoot: Option<Root>,
    logsBloom: nat,
    difficulty: nat,
    number: nat,
    gasLimit: nat,
    gasUsed: nat,
    timestamp: nat,
    baseFeePerGas: Option<nat>,
    blobGasUsed: Option<nat>,
    excessBlobGas: Option<nat>,
    parentBeaconBlockRoot: Option<nat>,
    requestsRoot: Option<Root>)

  datatype BlockBody = BlockBody(
    transactions: seq<Tx>,
    ommers: seq<Header>,
    withdrawals: Option<seq<Withdrawal>>,
    requests: Option<seq<Request>>)

  datatype SealedHeader = SealedHeader(header: Header, hash: Hash)

  /** A locally built block: the header as it is stored, and its body. */
  datatype Block = Block(header: Header, body: BlockBody)
}
