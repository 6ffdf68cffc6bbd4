/**
  Properties of the handlers over a stream of events.

  The delivery engine hands the events to the handlers one at a time, in
  canonical order, and dispatches each by its kind; `Replay` is that
  sequential processing as a fold of the store transitions. The lemmas
  below state how the `Delegate` projection evolves (a keyed state machine
  Unset -> Set(balance, timestamp), written only by vote-weight changes,
  last write wins), how the snapshot taken by `DelegateChanged` depends on
  processing order, and that re-delivery and audit records behave as
  upserts into an append-only log.
 */
module Properties {
  import opened Schema
  import opened EntityStore
  import opened GovernanceToken

  /** One decoded log of the governance token, of any of the five kinds. */
  datatype GovernanceEvent =
    | ApprovalLog(approval: ApprovalEvent)
    | DelegateChangedLog(delegateChanged: DelegateChangedEvent)
    | DelegateVotesChangedLog(votesChanged: DelegateVotesChangedEvent)
    | OwnershipTransferredLog(ownershipTransferred: OwnershipTransferredEvent)
    | TransferLog(transfer: TransferEvent)

  /** Dispatch by event kind to the one handler for it. */
  function Dispatch(s: StoreState, e: GovernanceEvent): (t: StoreState) {
    match e
    case ApprovalLog(ev) => ApplyApproval(s, ev)
    case DelegateChangedLog(ev) => ApplyDelegateChanged(s, ev)
    case DelegateVotesChangedLog(ev) => ApplyDelegateVotesChanged(s, ev)
    case OwnershipTransferredLog(ev) => ApplyOwnershipTransferred(s, ev)
    case TransferLog(ev) => ApplyTransfer(s, ev)
  }

  /** The store after handling `events`, in order, starting from `s`. */
  function Replay(s: StoreState, events: seq<GovernanceEvent>): (t: StoreState)
    decreases |events|
  {
    if events == [] then s
    else Dispatch(Replay(s, events[..|events| - 1]), events[|events| - 1])
  }

  /** Does `e` write the `Delegate` projection stored under `id`? */
  predicate WritesDelegate(e: GovernanceEvent, id: HexId) {
    e.DelegateVotesChangedLog? && ToHexString(e.votesChanged.params.delegate) == id
  }

  /** The projection the last vote-weight change for `id` in `events` sets, if any. */
  function LastBalanceWrite(events: seq<GovernanceEvent>, id: HexId): (last: Option<Delegate>)
    decreases |events|
  {
    if events == [] then None
    else
      var e := events[|events| - 1];
      if WritesDelegate(e, id)
      then Some(Delegate(e.votesChanged.params.newBalance, e.votesChanged.block.timestamp))
      else LastBalanceWrite(events[..|events| - 1], id)
  }

  // ---------------------------------------------------------------------------
  // The Delegate projection over a stream

  /**
    After any stream, the projection under `id` is the one set by the last
    vote-weight change for `id` in the stream, and the one the stream
    started with when there was none.
   */
  lemma {:induction false} ReplayDelegate(s: StoreState, events: seq<GovernanceEvent>, id: HexId)
    ensures Load(Replay(s, events).delegates, id) ==
      match LastBalanceWrite(events, id)
      case Some(d) => Some(d)
      case None => Load(s.delegates, id)
    decreases |events|
  {
    if events != [] {
      ReplayDelegate(s, events[..|events| - 1], id);
    }
  }

  /** No vote-weight change for `id` in the stream: there is no last write. */
  lemma {:induction false} NoWriteNoLastBalance(events: seq<GovernanceEvent>, id: HexId)
    requires forall i :: 0 <= i < |events| ==> !WritesDelegate(events[i], id)
    ensures LastBalanceWrite(events, id) == None
    decreases |events|
  {
    if events != [] {
      NoWriteNoLastBalance(events[..|events| - 1], id);
    }
  }

  /** Only vote-weight changes for `id` write `Delegate[id]`; every other event leaves it alone. */
  lemma {:induction false} DelegateWrittenOnlyByVotesChanged(s: StoreState, events: seq<GovernanceEvent>, id: HexId)
    requires forall i :: 0 <= i < |events| ==> !WritesDelegate(events[i], id)
    ensures Load(Replay(s, events).delegates, id) == Load(s.delegates, id)
  {
    NoWriteNoLastBalance(events, id);
    ReplayDelegate(s, events, id);
  }

  /** No transition returns a delegate to Unset: a stored projection stays stored. */
  lemma {:induction false} DelegateNeverUnset(s: StoreState, events: seq<GovernanceEvent>, id: HexId)
    requires id in s.delegates
    ensures id in Replay(s, events).delegates
  {
    ReplayDelegate(s, events, id);
  }

  /**
    Last write wins: the final projection of the delegate of the last event
    is that event's new balance and timestamp, whatever came before.
   */
  lemma LastWriteWins(s: StoreState, events: seq<GovernanceEvent>, e: DelegateVotesChangedEvent)
    ensures var t := Replay(s, events + [DelegateVotesChangedLog(e)]);
      && ToHexString(e.params.delegate) in t.delegates
      && t.delegates[ToHexString(e.params.delegate)] == Delegate(e.params.newBalance, e.block.timestamp)
  {
    var events' := events + [DelegateVotesChangedLog(e)];
    assert events'[..|events'| - 1] == events;
  }

  /** Two changes for one delegate, balances 100 then 50, leave 50: no max, no merge. */
  lemma HundredThenFifty(s: StoreState, e1: DelegateVotesChangedEvent, e2: DelegateVotesChangedEvent)
    requires e1.params.delegate == e2.params.delegate
    requires e1.params.newBalance == 100 && e2.params.newBalance == 50
    ensures var t := Replay(s, [DelegateVotesChangedLog(e1), DelegateVotesChangedLog(e2)]);
      t.delegates[ToHexString(e2.params.delegate)].latestBalance == 50
  {
    LastWriteWins(s, [DelegateVotesChangedLog(e1)], e2);
  }

  /** The projection ignores `previousBalance`: events differing only there set the same state. */
  lemma PreviousBalanceIgnored(s: StoreState, e: DelegateVotesChangedEvent, previous: BigInt)
    ensures ApplyDelegateVotesChanged(s, e).delegates ==
            ApplyDelegateVotesChanged(s, e.(params := e.params.(previousBalance := previous))).delegates
  {
  }

  // ---------------------------------------------------------------------------
  // The snapshot taken by DelegateChanged

  /**
    A `DelegateChanged` handled after `events` records the balance and
    timestamp of the last vote-weight change for `toDelegate` among those
    events, or what the starting store held (the sentinel when absent).
   */
  lemma SnapshotAtProcessingTime(s: StoreState, events: seq<GovernanceEvent>, e: DelegateChangedEvent)
    ensures var id := ToHexString(e.params.toDelegate);
      var r := Replay(s, events + [DelegateChangedLog(e)]).delegateChanges[EventStringId(e)];
      var expected := match LastBalanceWrite(events, id)
        case Some(d) => d
        case None => LoadOrDefault(s.delegates, id);
      r.newBalance == expected.latestBalance && r.balanceBlockTimestamp == expected.blockTimestamp
  {
    var events' := events + [DelegateChangedLog(e)];
    assert events'[..|events'| - 1] == events;
    ReplayDelegate(s, events, ToHexString(e.params.toDelegate));
  }

  /** Vote change for A, then a delegation to A: the record carries A's new balance. */
  lemma VotesThenDelegation(s: StoreState, v: DelegateVotesChangedEvent, c: DelegateChangedEvent)
    requires v.params.delegate == c.params.toDelegate
    ensures var r := Replay(s, [DelegateVotesChangedLog(v), DelegateChangedLog(c)])
                       .delegateChanges[EventStringId(c)];
      r.newBalance == v.params.newBalance && r.balanceBlockTimestamp == v.block.timestamp
  {
    SnapshotAtProcessingTime(s, [DelegateVotesChangedLog(v)], c);
  }

  /**
    The reverse order from a store without a projection for A: the record
    keeps the sentinel 0 although A's projection is afterwards the new
    balance. The snapshot is never corrected.
   */
  lemma DelegationThenVotes(s: StoreState, c: DelegateChangedEvent, v: DelegateVotesChangedEvent)
    requires v.params.delegate == c.params.toDelegate
    requires ToHexString(c.params.toDelegate) !in s.delegates
    ensures var t := Replay(s, [DelegateChangedLog(c), DelegateVotesChangedLog(v)]);
      && EventStringId(c) in t.delegateChanges
      && t.delegateChanges[EventStringId(c)].newBalance == 0
      && t.delegateChanges[EventStringId(c)].balanceBlockTimestamp == 0
      && t.delegates[ToHexString(v.params.delegate)].latestBalance == v.params.newBalance
  {
    SnapshotAtProcessingTime(s, [], c);
    LastWriteWins(s, [DelegateChangedLog(c)], v);
  }

  // ---------------------------------------------------------------------------
  // Upserts and the audit log

  /**
    Re-delivering an identical event straight after the first delivery
    leaves the store as one delivery did.
   */
  lemma RedeliveryIdempotent(s: StoreState, e: GovernanceEvent)
    ensures Dispatch(Dispatch(s, e), e) == Dispatch(s, e)
  {
    match e
    case ApprovalLog(ev) =>
    case DelegateChangedLog(ev) =>
    case DelegateVotesChangedLog(ev) =>
    case OwnershipTransferredLog(ev) =>
    case TransferLog(ev) =>
  }

  /** One handled event removes no key from any map of the store. */
  lemma DispatchKeepsKeys(s: StoreState, e: GovernanceEvent)
    ensures var t := Dispatch(s, e);
      && s.approvals.Keys <= t.approvals.Keys
      && s.delegateChanges.Keys <= t.delegateChanges.Keys
      && s.delegateVotesChanges.Keys <= t.delegateVotesChanges.Keys
      && s.ownershipTransfers.Keys <= t.ownershipTransfers.Keys
      && s.transfers.Keys <= t.transfers.Keys
      && s.delegates.Keys <= t.delegates.Keys
  {
    match e
    case ApprovalLog(ev) =>
    case DelegateChangedLog(ev) =>
    case DelegateVotesChangedLog(ev) =>
    case OwnershipTransferredLog(ev) =>
    case TransferLog(ev) =>
  }

  /** Audit records are never removed: every audit key stays present over any stream. */
  lemma {:induction false} AuditLogAppendOnly(s: StoreState, events: seq<GovernanceEvent>)
    ensures var t := Replay(s, events);
      && s.approvals.Keys <= t.approvals.Keys
      && s.delegateChanges.Keys <= t.delegateChanges.Keys
      && s.delegateVotesChanges.Keys <= t.delegateVotesChanges.Keys
      && s.ownershipTransfers.Keys <= t.ownershipTransfers.Keys
      && s.transfers.Keys <= t.transfers.Keys
      && s.delegates.Keys <= t.delegates.Keys
    decreases |events|
  {
    if events != [] {
      var prefix := events[..|events| - 1];
      AuditLogAppendOnly(s, prefix);
      DispatchKeepsKeys(Replay(s, prefix), events[|events| - 1]);
    }
  }

  /** Does `e` save an `Approval` under key `k`? */
  predicate SavesApproval(e: GovernanceEvent, k: RawId) {
    e.ApprovalLog? && EventRawId(e.approval) == k
  }

  /** Does `e` save a `DelegateChanged` under key `k`? */
  predicate SavesDelegateChange(e: GovernanceEvent, k: StringId) {
    e.DelegateChangedLog? && EventStringId(e.delegateChanged) == k
  }

  /** Does `e` save a `DelegateVotesChanged` under key `k`? */
  predicate SavesVotesChange(e: GovernanceEvent, k: StringId) {
    e.DelegateVotesChangedLog? && EventStringId(e.votesChanged) == k
  }

  /** Does `e` save an `OwnershipTransferred` under key `k`? */
  predicate SavesOwnershipTransfer(e: GovernanceEvent, k: RawId) {
    e.OwnershipTransferredLog? && EventRawId(e.ownershipTransferred) == k
  }

  /** Does `e` save a `Transfer` under key `k`? */
  predicate SavesTransfer(e: GovernanceEvent, k: RawId) {
    e.TransferLog? && EventRawId(e.transfer) == k
  }

  /** An `Approval` record is never updated by a stream that does not re-deliver its event. */
  lemma {:induction false} ApprovalNeverUpdated(s: StoreState, events: seq<GovernanceEvent>, k: RawId)
    requires k in s.approvals
    requires forall i :: 0 <= i < |events| ==> !SavesApproval(events[i], k)
    ensures k in Replay(s, events).approvals && Replay(s, events).approvals[k] == s.approvals[k]
    decreases |events|
  {
    if events != [] {
      ApprovalNeverUpdated(s, events[..|events| - 1], k);
    }
  }

  /**
    A `DelegateChanged` record, snapshot included, is never corrected by a
    stream that does not re-deliver its event: later vote-weight changes of
    its `toDelegate` leave it as it was.
   */
  lemma {:induction false} DelegateChangeNeverUpdated(s: StoreState, events: seq<GovernanceEvent>, k: StringId)
    requires k in s.delegateChanges
    requires forall i :: 0 <= i < |events| ==> !SavesDelegateChange(events[i], k)
    ensures k in Replay(s, events).delegateChanges
    ensures Replay(s, events).delegateChanges[k] == s.delegateChanges[k]
    decreases |events|
  {
    if events != [] {
      DelegateChangeNeverUpdated(s, events[..|events| - 1], k);
    }
  }

  /** A `DelegateVotesChanged` record is never updated by a stream that does not re-deliver its event. */
  lemma {:induction false} VotesChangeNeverUpdated(s: StoreState, events: seq<GovernanceEvent>, k: StringId)
    requires k in s.delegateVotesChanges
    requires forall i :: 0 <= i < |events| ==> !SavesVotesChange(events[i], k)
    ensures k in Replay(s, events).delegateVotesChanges
    ensures Replay(s, events).delegateVotesChanges[k] == s.delegateVotesChanges[k]
    decreases |events|
  {
    if events != [] {
      VotesChangeNeverUpdated(s, events[..|events| - 1], k);
    }
  }

  /** An `OwnershipTransferred` record is never updated by a stream that does not re-deliver its event. */
  lemma {:induction false} OwnershipTransferNeverUpdated(s: StoreState, events: seq<GovernanceEvent>, k: RawId)
    requires k in s.ownershipTransfers
    requires forall i :: 0 <= i < |events| ==> !SavesOwnershipTransfer(events[i], k)
    ensures k in Replay(s, events).ownershipTransfers
    ensures Replay(s, events).ownershipTransfers[k] == s.ownershipTransfers[k]
    decreases |events|
  {
    if events != [] {
      OwnershipTransferNeverUpdated(s, events[..|events| - 1], k);
    }
  }

  /** A `Transfer` record is never updated by a stream that does not re-deliver its event. */
  lemma {:induction false} TransferNeverUpdated(s: StoreState, events: seq<GovernanceEvent>, k: RawId)
    requires k in s.transfers
    requires forall i :: 0 <= i < |events| ==> !SavesTransfer(events[i], k)
    ensures k in Replay(s, events).transfers && Replay(s, events).transfers[k] == s.transfers[k]
    decreases |events|
  {
    if events != [] {
      TransferNeverUpdated(s, events[..|events| - 1], k);
    }
  }

  /**
    Re-delivery is idempotent only back to back: a `DelegateChanged`
    delivered again after a vote-weight change of its `toDelegate` takes a
    new snapshot and overwrites its own record, which had the sentinel 0.
   */
  lemma DelayedRedeliveryRefreshesSnapshot(c: DelegateChangedEvent, v: DelegateVotesChangedEvent)
    requires v.params.delegate == c.params.toDelegate
    requires v.params.newBalance == 100
    ensures var first := Replay(Empty, [DelegateChangedLog(c), DelegateVotesChangedLog(v)]);
      && EventStringId(c) in first.delegateChanges
      && first.delegateChanges[EventStringId(c)].newBalance == 0
    ensures var again := Replay(Empty, [DelegateChangedLog(c), DelegateVotesChangedLog(v), DelegateChangedLog(c)]);
      again.delegateChanges[EventStringId(c)].newBalance == 100
  {
    DelegationThenVotes(Empty, c, v);
    SnapshotAtProcessingTime(Empty, [DelegateChangedLog(c), DelegateVotesChangedLog(v)], c);
  }

  /** Two transfers with distinct `(hash, logIndex)` give two records, each with its own fields. */
  lemma DistinctTransfersDistinctRecords(s: StoreState, e1: TransferEvent, e2: TransferEvent)
    requires (e1.transaction.hash, e1.logIndex) != (e2.transaction.hash, e2.logIndex)
    ensures var t := Replay(s, [TransferLog(e1), TransferLog(e2)]);
      && EventRawId(e1) in t.transfers && EventRawId(e2) in t.transfers
      && t.transfers[EventRawId(e1)] == Transfer(e1.params.from, e1.params.to, e1.params.value,
           e1.block.number, e1.block.timestamp, e1.transaction.hash)
      && t.transfers[EventRawId(e2)] == Transfer(e2.params.from, e2.params.to, e2.params.value,
           e2.block.number, e2.block.timestamp, e2.transaction.hash)
  {
  }

  /**
    The same for delegations, whose records use the string form of the key:
    each record keeps its own addresses and provenance.
   */
  lemma DistinctDelegationsDistinctRecords(s: StoreState, e1: DelegateChangedEvent, e2: DelegateChangedEvent)
    requires (e1.transaction.hash, e1.logIndex) != (e2.transaction.hash, e2.logIndex)
    ensures var t := Replay(s, [DelegateChangedLog(e1), DelegateChangedLog(e2)]);
      && EventStringId(e1) in t.delegateChanges && EventStringId(e2) in t.delegateChanges
      && var r1, r2 := t.delegateChanges[EventStringId(e1)], t.delegateChanges[EventStringId(e2)];
      && r1.delegator == e1.params.delegator && r1.fromDelegate == e1.params.fromDelegate
      && r1.toDelegate == e1.params.toDelegate
      && r1.blockNumber == e1.block.number && r1.blockTimestamp == e1.block.timestamp
      && r1.transactionHash == e1.transaction.hash
      && r2.delegator == e2.params.delegator && r2.fromDelegate == e2.params.fromDelegate
      && r2.toDelegate == e2.params.toDelegate
      && r2.blockNumber == e2.block.number && r2.blockTimestamp == e2.block.timestamp
      && r2.transactionHash == e2.transaction.hash
  {
  }

  // ---------------------------------------------------------------------------
  // The ordering scenarios run against the store object

  /**
    A fresh store handles a delegation to A and then a vote-weight change
    for A; the delegation's record keeps the sentinel balance while A's
    projection ends at the new balance.
   */
  method DelegationThenVotesOnStore(c: DelegateChangedEvent, v: DelegateVotesChangedEvent)
    returns (snapshot: BigInt, latest: BigInt)
    requires v.params.delegate == c.params.toDelegate
    ensures snapshot == 0 && latest == v.params.newBalance
  {
    var store := new Store();
    store.HandleDelegateChanged(c);
    store.HandleDelegateVotesChanged(v);
    DelegationThenVotes(Empty, c, v);
    snapshot := store.delegateChanges[EventStringId(c)].newBalance;
    latest := store.delegates[ToHexString(v.params.delegate)].latestBalance;
  }

  /** The same two events in the other order: the record carries the new balance. */
  method VotesThenDelegationOnStore(v: DelegateVotesChangedEvent, c: DelegateChangedEvent)
    returns (snapshot: BigInt)
    requires v.params.delegate == c.params.toDelegate
    ensures snapshot == v.params.newBalance
  {
    var store := new Store();
    store.HandleDelegateVotesChanged(v);
    store.HandleDelegateChanged(c);
    VotesThenDelegation(Empty, v, c);
    snapshot := store.delegateChanges[EventStringId(c)].newBalance;
  }
}
