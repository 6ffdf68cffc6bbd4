/**
  The five event handlers of the governance-token subgraph.

  Each handler is given twice: as a function from the store before the
  event to the store after it (the specification, used by the lemmas),
  and as a method of the class `Store`, which builds the entity and saves
  it into its own map fields the way the handler does, and is proved to
  produce exactly the state the function describes.

  Only `DelegateVotesChanged` writes the `Delegate` projection;
  `DelegateChanged` reads it to snapshot a balance into its audit record.
 */
module GovernanceToken {
  import opened Schema
  import opened EntityStore

  // ---------------------------------------------------------------------------
  // Specification: one store transition per handler

  /** handleApproval: one `Approval` record at `hash ‖ logIndex`, fields copied. */
  function ApplyApproval(s: StoreState, event: ApprovalEvent): (t: StoreState)
    ensures EventRawId(event) in t.approvals
    ensures var r := t.approvals[EventRawId(event)];
      && r.owner == event.params.owner && r.spender == event.params.spender
      && r.value == event.params.value
      && r.blockNumber == event.block.number && r.blockTimestamp == event.block.timestamp
      && r.transactionHash == event.transaction.hash
    ensures t.approvals.Keys == s.approvals.Keys + {EventRawId(event)}
    ensures forall k :: k in s.approvals && k != EventRawId(event) ==> t.approvals[k] == s.approvals[k]
    ensures t.(approvals := s.approvals) == s
  {
    var entity := Approval(
      owner := event.params.owner,
      spender := event.params.spender,
      value := event.params.value,
      blockNumber := event.block.number,
      blockTimestamp := event.block.timestamp,
      transactionHash := event.transaction.hash);
    s.(approvals := Save(s.approvals, EventRawId(event), entity))
  }

  /**
    handleDelegateChanged: one `DelegateChanged` record at the string form of
    `hash ‖ logIndex`, carrying the current projection of `toDelegate` (or
    the sentinel `(0, 0)`). The projection itself is left as it was.
   */
  function ApplyDelegateChanged(s: StoreState, event: DelegateChangedEvent): (t: StoreState)
    ensures EventStringId(event) in t.delegateChanges
    ensures var r := t.delegateChanges[EventStringId(event)];
      && r.delegator == event.params.delegator
      && r.fromDelegate == event.params.fromDelegate
      && r.toDelegate == event.params.toDelegate
      && r.blockNumber == event.block.number && r.blockTimestamp == event.block.timestamp
      && r.transactionHash == event.transaction.hash
    ensures var id, r := ToHexString(event.params.toDelegate), t.delegateChanges[EventStringId(event)];
      if id in s.delegates
      then r.newBalance == s.delegates[id].latestBalance
        && r.balanceBlockTimestamp == s.delegates[id].blockTimestamp
      else r.newBalance == 0 && r.balanceBlockTimestamp == 0
    ensures t.delegateChanges.Keys == s.delegateChanges.Keys + {EventStringId(event)}
    ensures forall k :: k in s.delegateChanges && k != EventStringId(event) ==>
      t.delegateChanges[k] == s.delegateChanges[k]
    ensures t.delegates == s.delegates
    ensures t.(delegateChanges := s.delegateChanges) == s
  {
    var toDelegate := LoadOrDefault(s.delegates, ToHexString(event.params.toDelegate));
    var entity := DelegateChanged(
      delegator := event.params.delegator,
      fromDelegate := event.params.fromDelegate,
      toDelegate := event.params.toDelegate,
      newBalance := toDelegate.latestBalance,
      balanceBlockTimestamp := toDelegate.blockTimestamp,
      blockNumber := event.block.number,
      blockTimestamp := event.block.timestamp,
      transactionHash := event.transaction.hash);
    s.(delegateChanges := Save(s.delegateChanges, EventStringId(event), entity))
  }

  /**
    handleDelegateVotesChanged: the projection of `delegate` becomes exactly
    `(newBalance, block timestamp)`, whether or not it existed and whatever
    `previousBalance` says; then one `DelegateVotesChanged` record is saved
    at the string form of `hash ‖ logIndex`.
   */
  function ApplyDelegateVotesChanged(s: StoreState, event: DelegateVotesChangedEvent): (t: StoreState)
    ensures var id := ToHexString(event.params.delegate);
      && t.delegates.Keys == s.delegates.Keys + {id}
      && t.delegates[id] == Delegate(event.params.newBalance, event.block.timestamp)
      && forall k :: k in s.delegates && k != id ==> t.delegates[k] == s.delegates[k]
    ensures EventStringId(event) in t.delegateVotesChanges
    ensures var r := t.delegateVotesChanges[EventStringId(event)];
      && r.delegate == event.params.delegate
      && r.previousBalance == event.params.previousBalance
      && r.newBalance == event.params.newBalance
      && r.blockNumber == event.block.number && r.blockTimestamp == event.block.timestamp
      && r.transactionHash == event.transaction.hash
    ensures t.delegateVotesChanges.Keys == s.delegateVotesChanges.Keys + {EventStringId(event)}
    ensures forall k :: k in s.delegateVotesChanges && k != EventStringId(event) ==>
      t.delegateVotesChanges[k] == s.delegateVotesChanges[k]
    ensures t.(delegates := s.delegates, delegateVotesChanges := s.delegateVotesChanges) == s
  {
    var delegateId := ToHexString(event.params.delegate);
    var delegate :=
      match Load(s.delegates, delegateId)
      case Some(found) => found
      case None => Unset;
    var delegate := delegate.(latestBalance := event.params.newBalance,
                              blockTimestamp := event.block.timestamp);
    var entity := DelegateVotesChanged(
      delegate := event.params.delegate,
      previousBalance := event.params.previousBalance,
      newBalance := event.params.newBalance,
      blockNumber := event.block.number,
      blockTimestamp := event.block.timestamp,
      transactionHash := event.transaction.hash);
    s.(delegates := Save(s.delegates, delegateId, delegate),
       delegateVotesChanges := Save(s.delegateVotesChanges, EventStringId(event), entity))
  }

  /** handleOwnershipTransferred: one record at `hash ‖ logIndex`, fields copied. */
  function ApplyOwnershipTransferred(s: StoreState, event: OwnershipTransferredEvent): (t: StoreState)
    ensures EventRawId(event) in t.ownershipTransfers
    ensures var r := t.ownershipTransfers[EventRawId(event)];
      && r.previousOwner == event.params.previousOwner && r.newOwner == event.params.newOwner
      && r.blockNumber == event.block.number && r.blockTimestamp == event.block.timestamp
      && r.transactionHash == event.transaction.hash
    ensures t.ownershipTransfers.Keys == s.ownershipTransfers.Keys + {EventRawId(event)}
    ensures forall k :: k in s.ownershipTransfers && k != EventRawId(event) ==>
      t.ownershipTransfers[k] == s.ownershipTransfers[k]
    ensures t.(ownershipTransfers := s.ownershipTransfers) == s
  {
    var entity := OwnershipTransferred(
      previousOwner := event.params.previousOwner,
      newOwner := event.params.newOwner,
      blockNumber := event.block.number,
      blockTimestamp := event.block.timestamp,
      transactionHash := event.transaction.hash);
    s.(ownershipTransfers := Save(s.ownershipTransfers, EventRawId(event), entity))
  }

  /** handleTransfer: one `Transfer` record at `hash ‖ logIndex`, fields copied. */
  function ApplyTransfer(s: StoreState, event: TransferEvent): (t: StoreState)
    ensures EventRawId(event) in t.transfers
    ensures var r := t.transfers[EventRawId(event)];
      && r.from == event.params.from && r.to == event.params.to && r.value == event.params.value
      && r.blockNumber == event.block.number && r.blockTimestamp == event.block.timestamp
      && r.transactionHash == event.transaction.hash
    ensures t.transfers.Keys == s.transfers.Keys + {EventRawId(event)}
    ensures forall k :: k in s.transfers && k != EventRawId(event) ==> t.transfers[k] == s.transfers[k]
    ensures t.(transfers := s.transfers) == s
  {
    var entity := Transfer(
      from := event.params.from,
      to := event.params.to,
      value := event.params.value,
      blockNumber := event.block.number,
      blockTimestamp := event.block.timestamp,
      transactionHash := event.transaction.hash);
    s.(transfers := Save(s.transfers, EventRawId(event), entity))
  }

  // ---------------------------------------------------------------------------
  // The store and the handlers as they run against it

  /** The entity store: one mutable map per entity kind. */
  class Store {
    var approvals: map<RawId, Approval>
    var delegateChanges: map<StringId, DelegateChanged>
    var delegateVotesChanges: map<StringId, DelegateVotesChanged>
    var delegates: map<HexId, Delegate>
    var ownershipTransfers: map<RawId, OwnershipTransferred>
    var transfers: map<RawId, Transfer>

    /** The store's contents as a value. */
    function State(): StoreState
      reads this
    {
      StoreState(approvals, delegateChanges, delegateVotesChanges, delegates,
                 ownershipTransfers, transfers)
    }

    constructor ()
      ensures State() == Empty
    {
      approvals, delegateChanges, delegateVotesChanges := map[], map[], map[];
      delegates, ownershipTransfers, transfers := map[], map[], map[];
    }

    /** `Delegate.load(id)`: reads the projection, changes nothing. */
    method LoadDelegate(id: HexId) returns (found: Option<Delegate>)
      ensures found.Some? <==> id in delegates
      ensures found.Some? ==> found.value == delegates[id]
    {
      if id in delegates {
        found := Some(delegates[id]);
      } else {
        found := None;
      }
    }

    method HandleApproval(event: ApprovalEvent)
      modifies this`approvals
      ensures State() == ApplyApproval(old(State()), event)
    {
      var entity := Approval(
        owner := event.params.owner,
        spender := event.params.spender,
        value := event.params.value,
        blockNumber := event.block.number,
        blockTimestamp := event.block.timestamp,
        transactionHash := event.transaction.hash);
      approvals := approvals[EventRawId(event) := entity];
    }

    method HandleDelegateChanged(event: DelegateChangedEvent)
      modifies this`delegateChanges
      ensures delegates == old(delegates)
      ensures State() == ApplyDelegateChanged(old(State()), event)
    {
      var toDelegate := LoadDelegate(ToHexString(event.params.toDelegate));
      var newBalance, balanceBlockTimestamp;
      if toDelegate.Some? {
        newBalance := toDelegate.value.latestBalance;
        balanceBlockTimestamp := toDelegate.value.blockTimestamp;
      } else {
        newBalance, balanceBlockTimestamp := 0, 0;
      }
      var entity := DelegateChanged(
        delegator := event.params.delegator,
        fromDelegate := event.params.fromDelegate,
        toDelegate := event.params.toDelegate,
        newBalance := newBalance,
        balanceBlockTimestamp := balanceBlockTimestamp,
        blockNumber := event.block.number,
        blockTimestamp := event.block.timestamp,
        transactionHash := event.transaction.hash);
      delegateChanges := delegateChanges[EventStringId(event) := entity];
    }

    method HandleDelegateVotesChanged(event: DelegateVotesChangedEvent)
      modifies this`delegates, this`delegateVotesChanges
      ensures ToHexString(event.params.delegate) in delegates
      ensures delegates[ToHexString(event.params.delegate)] ==
              Delegate(event.params.newBalance, event.block.timestamp)
      ensures State() == ApplyDelegateVotesChanged(old(State()), event)
    {
      var delegateId := ToHexString(event.params.delegate);
      var loaded := LoadDelegate(delegateId);
      var delegate := if loaded.None? then Unset else loaded.value;
      delegate := delegate.(latestBalance := event.params.newBalance);
      delegate := delegate.(blockTimestamp := event.block.timestamp);
      delegates := delegates[delegateId := delegate];

      var entity := DelegateVotesChanged(
        delegate := event.params.delegate,
        previousBalance := event.params.previousBalance,
        newBalance := event.params.newBalance,
        blockNumber := event.block.number,
        blockTimestamp := event.block.timestamp,
        transactionHash := event.transaction.hash);
      delegateVotesChanges := delegateVotesChanges[EventStringId(event) := entity];
    }

    method HandleOwnershipTransferred(event: OwnershipTransferredEvent)
      modifies this`ownershipTransfers
      ensures State() == ApplyOwnershipTransferred(old(State()), event)
    {
      var entity := OwnershipTransferred(
        previousOwner := event.params.previousOwner,
        newOwner := event.params.newOwner,
        blockNumber := event.block.number,
        blockTimestamp := event.block.timestamp,
        transactionHash := event.transaction.hash);
      ownershipTransfers := ownershipTransfers[EventRawId(event) := entity];
    }

    method HandleTransfer(event: TransferEvent)
      modifies this`transfers
      ensures State() == ApplyTransfer(old(State()), event)
    {
      var entity := Transfer(
        from := event.params.from,
        to := event.params.to,
        value := event.params.value,
        blockNumber := event.block.number,
        blockTimestamp := event.block.timestamp,
        transactionHash := event.transaction.hash);
      transfers := transfers[EventRawId(event) := entity];
    }
  }
}
