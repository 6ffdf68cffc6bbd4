/**
  The data shapes of the governance-token subgraph: the decoded contract
  events the handlers receive, the entities they store, and the identity
  keys under which the entities are stored.

  The key encodings of the indexing library (`Bytes.concatI32`,
  `Bytes.toString`, `Address.toHexString`) are modelled as constructors,
  which makes each of them injective by construction; their byte layouts
  are not part of this model.
 */
module Schema {

  type Bytes = seq<bv8>

  /** A 20-byte account address, as the event parameters carry it. */
  type Address = Bytes

  /** Unsigned big integers (`uint256` amounts, block numbers, timestamps). */
  type BigInt = nat

  // ---------------------------------------------------------------------------
  // Identity keys

  /** `hash.concatI32(logIndex)`: the raw byte identity of an audit record. */
  datatype RawId = ConcatI32(hash: Bytes, logIndex: nat)

  /** `hash.concatI32(logIndex).toString()`: the string form of that identity. */
  datatype StringId = ToString(raw: RawId)

  /** `address.toHexString()`: the identity of a `Delegate` projection. */
  datatype HexId = ToHexString(address: Address)

  // ---------------------------------------------------------------------------
  // Events

  datatype Block = Block(number: BigInt, timestamp: BigInt)

  datatype Transaction = Transaction(hash: Bytes)

  /** A decoded log entry with its kind-specific parameters `P`. */
  datatype Event<P> = Event(params: P, block: Block, transaction: Transaction, logIndex: nat)

  datatype ApprovalParams = ApprovalParams(owner: Address, spender: Address, value: BigInt)

  datatype DelegateChangedParams =
    DelegateChangedParams(delegator: Address, fromDelegate: Address, toDelegate: Address)

  datatype DelegateVotesChangedParams =
    DelegateVotesChangedParams(delegate: Address, previousBalance: BigInt, newBalance: BigInt)

  datatype OwnershipTransferredParams =
    OwnershipTransferredParams(previousOwner: Address, newOwner: Address)

  datatype TransferParams = TransferParams(from: Address, to: Address, value: BigInt)

  type ApprovalEvent = Event<ApprovalParams>
  type DelegateChangedEvent = Event<DelegateChangedParams>
  type DelegateVotesChangedEvent = Event<DelegateVotesChangedParams>
  type OwnershipTransferredEvent = Event<OwnershipTransferredParams>
  type TransferEvent = Event<TransferParams>

  /** The raw identity key of an event: transaction hash and log index. */
  function EventRawId<P>(event: Event<P>): (id: RawId) {
    ConcatI32(event.transaction.hash, event.logIndex)
  }

  /** The string identity key of an event, used by the two delegate records. */
  function EventStringId<P>(event: Event<P>): (id: StringId) {
    ToString(EventRawId(event))
  }

  // ---------------------------------------------------------------------------
  // Entities (the `id` of each entity is the key it is stored under)

  datatype Approval = Approval(
    owner: Address, spender: Address, value: BigInt,
    blockNumber: BigInt, blockTimestamp: BigInt, transactionHash: Bytes)

  datatype DelegateChanged = DelegateChanged(
    delegator: Address, fromDelegate: Address, toDelegate: Address,
    newBalance: BigInt, balanceBlockTimestamp: BigInt,
    blockNumber: BigInt, blockTimestamp: BigInt, transactionHash: Bytes)

  datatype DelegateVotesChanged = DelegateVotesChanged(
    delegate: Address, previousBalance: BigInt, newBalance: BigInt,
    blockNumber: BigInt, blockTimestamp: BigInt, transactionHash: Bytes)

  /** The mutable projection: current voting weight of one delegate. */
  datatype Delegate = Delegate(latestBalance: BigInt, blockTimestamp: BigInt)

  datatype OwnershipTransferred = OwnershipTransferred(
    previousOwner: Address, newOwner: Address,
    blockNumber: BigInt, blockTimestamp: BigInt, transactionHash: Bytes)

  datatype Transfer = Transfer(
    from: Address, to: Address, value: BigInt,
    blockNumber: BigInt, blockTimestamp: BigInt, transactionHash: Bytes)
}
