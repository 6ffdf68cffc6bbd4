# Governance-token subgraph handlers, modelled in Dafny

This project models the event handlers of a subgraph that indexes a
vote-delegating governance token. The handlers turn decoded contract events
into entities in a keyed store. Five of the six entity kinds are immutable
audit records, one per event: `Approval`, `DelegateChanged`,
`DelegateVotesChanged`, `OwnershipTransferred` and `Transfer`. The sixth is
the mutable projection `Delegate`, which holds the latest voting balance of a
delegate and is keyed by the delegate's address in hex.

- `schema.dfy` (module `Schema`): the events and entities as datatypes. It
  also holds the three identity-key encodings as separate constructors.
  `ConcatI32(hash, logIndex)` is the raw byte key of `Approval`,
  `OwnershipTransferred` and `Transfer`. `ToString(ConcatI32(...))` is the
  string key of `DelegateChanged` and `DelegateVotesChanged`.
  `ToHexString(address)` keys `Delegate`. The two audit-key forms are kept
  apart, as in the code.
- `entity_store.dfy` (module `EntityStore`): the store as one map per entity
  kind. `Load` returns an explicit absent value, `Save` is an upsert, and
  `LoadOrDefault` is the read-only lookup with the sentinel `(0, 0)`. The
  same sentinel `Unset` is the starting value of a projection the writer
  creates.
- `governance_token.dfy` (module `GovernanceToken`): each handler appears
  twice. One form is a pure store transition (`ApplyApproval`, ...) whose
  contract states what the handler writes and that nothing else changes. The
  other is a method of the class `Store`, whose fields are the six maps. The
  method builds the entity and saves it the way the handler does, within a
  `modifies` frame that names only the maps the handler writes, and it is
  proved to produce exactly the state its transition describes.
- `properties.dfy` (module `Properties`): sequential delivery of a stream of
  events as a fold (`Replay`) over a dispatch by event kind. It holds the
  lemmas about the `Delegate` state machine (Unset, then Set(balance,
  timestamp)), last write wins, how the snapshot depends on processing order,
  idempotent re-delivery and the audit records, which no later event
  updates unless the same event is delivered again. It also states both
  ordering scenarios as methods on a `Store` object.

`DelegateChanged` and `DelegateVotesChanged` are keyed by `ToString` of the
raw key (src/governance-token.ts:36, :73). `Approval`,
`OwnershipTransferred` and `Transfer` use the raw key (:20, :86, :98).

Re-delivering an identical event straight after the first delivery changes
nothing. A `DelegateChanged` delivered again LATER, after a vote-weight
change of its `toDelegate`, takes a fresh snapshot and overwrites its own
record (`DelayedRedeliveryRefreshesSnapshot`). Apart from such re-delivery
of the same event, no audit record is ever updated (`ApprovalNeverUpdated`
and its four siblings).

## Model

| member | source | states |
|---|---|---|
| `EntityStore.Load` | src/governance-token.ts:33 | a loaded entity is present exactly when its id is in the map, and it is the stored entity |
| `EntityStore.Save` | src/governance-token.ts:28 | upsert: the id maps to the saved entity afterwards, no other key changes, and the key set gains only that id |
| `EntityStore.LoadOrDefault` | src/governance-token.ts:43-49 | the stored projection when there is one; otherwise balance 0 and timestamp 0 |
| `GovernanceToken.ApplyApproval` | src/governance-token.ts:18-29 | exactly one `Approval` at the raw key of `hash ‖ logIndex`, with owner, spender, value and provenance copied; every other key and every other map unchanged |
| `GovernanceToken.ApplyDelegateChanged` | src/governance-token.ts:31-55 | one `DelegateChanged` at the string key, with its addresses copied; it holds the `toDelegate` projection's balance and timestamp when that projection exists, and 0 and 0 when it does not; the `Delegate` map and every other map are unchanged |
| `GovernanceToken.ApplyDelegateVotesChanged` | src/governance-token.ts:57-82 | afterwards `Delegate[hex(delegate)]` is exactly `(newBalance, timestamp)`, whether or not it existed; other delegates are unchanged; one `DelegateVotesChanged` is saved at the string key with its fields copied; no other map changes |
| `GovernanceToken.ApplyOwnershipTransferred` | src/governance-token.ts:84-94 | exactly one `OwnershipTransferred` at the raw key, with previous and new owner and provenance copied; nothing else changes |
| `GovernanceToken.ApplyTransfer` | src/governance-token.ts:96-107 | exactly one `Transfer` at the raw key, with from, to, value and provenance copied; nothing else changes |
| `GovernanceToken.Store.LoadDelegate` | src/governance-token.ts:33 | `Delegate.load` as a read of the store object: found exactly when stored, and then the stored value; it writes nothing |
| `GovernanceToken.Store.HandleApproval` | src/governance-token.ts:18-29 | writes only the `Approval` map, and the new store is `ApplyApproval` of the old one |
| `GovernanceToken.Store.HandleDelegateChanged` | src/governance-token.ts:31-55 | writes only the `DelegateChanged` map; the `Delegate` map is unchanged; the new store is `ApplyDelegateChanged` of the old one |
| `GovernanceToken.Store.HandleDelegateVotesChanged` | src/governance-token.ts:57-82 | writes only the `Delegate` and `DelegateVotesChanged` maps; afterwards the delegate's entry is `(newBalance, timestamp)`; the new store is `ApplyDelegateVotesChanged` of the old one |
| `GovernanceToken.Store.HandleOwnershipTransferred` | src/governance-token.ts:84-94 | writes only the `OwnershipTransferred` map, and the new store is `ApplyOwnershipTransferred` of the old one |
| `GovernanceToken.Store.HandleTransfer` | src/governance-token.ts:96-107 | writes only the `Transfer` map, and the new store is `ApplyTransfer` of the old one |
| `Properties.ReplayDelegate` | src/governance-token.ts:57-69 | after any stream, a delegate's projection is the one set by the last vote-weight change for it in the stream, or the starting one when the stream has none |
| `Properties.NoWriteNoLastBalance` | src/governance-token.ts:58-69 | a stream with no vote-weight change for a key has no last write for it |
| `Properties.DelegateWrittenOnlyByVotesChanged` | src/governance-token.ts:31-107 | events other than a vote-weight change for the key, of any kind and in any number, leave that delegate's projection as it was |
| `Properties.DelegateNeverUnset` | src/governance-token.ts:61-69 | once stored, a projection stays stored: no transition returns it to Unset |
| `Properties.LastWriteWins` | src/governance-token.ts:67-69 | after any history, a vote-weight change leaves its delegate at exactly its own new balance and timestamp |
| `Properties.HundredThenFifty` | src/governance-token.ts:67-69 | two changes for one delegate with new balances 100 and then 50 leave 50, so there is no max or merge |
| `Properties.PreviousBalanceIgnored` | src/governance-token.ts:67-69 | two vote-weight events that differ only in `previousBalance` produce the same `Delegate` map |
| `Properties.SnapshotAtProcessingTime` | src/governance-token.ts:33-49 | a delegation handled after a stream records the last balance and timestamp written for `toDelegate` in that stream, or else the starting projection or the sentinel |
| `Properties.VotesThenDelegation` | src/governance-token.ts:33-49 | a vote change for A followed by a delegation to A gives a record with A's new balance and timestamp |
| `Properties.DelegationThenVotes` | src/governance-token.ts:33-69 | in the reverse order, from a store with no projection for A, the record keeps balance 0 and timestamp 0 while A's projection ends at the new balance: the snapshot is never corrected |
| `Properties.RedeliveryIdempotent` | src/governance-token.ts:28 | handling an identical event twice back to back leaves the same store as handling it once; the `Delegate` update is included |
| `Properties.DispatchKeepsKeys` | src/governance-token.ts:28 | one handled event removes no key from any map |
| `Properties.AuditLogAppendOnly` | src/governance-token.ts:28 | over any stream, no audit record and no projection is ever removed |
| `Properties.ApprovalNeverUpdated` | src/governance-token.ts:18-29 | a stored `Approval` keeps its exact content over any stream that does not deliver its own event again |
| `Properties.DelegateChangeNeverUpdated` | src/governance-token.ts:31-55 | a stored `DelegateChanged` record, snapshot included, keeps its exact content over any stream that does not deliver its own event again, whatever vote-weight changes follow |
| `Properties.VotesChangeNeverUpdated` | src/governance-token.ts:71-81 | a stored `DelegateVotesChanged` keeps its exact content over any stream that does not deliver its own event again |
| `Properties.OwnershipTransferNeverUpdated` | src/governance-token.ts:84-94 | a stored `OwnershipTransferred` keeps its exact content over any stream that does not deliver its own event again |
| `Properties.TransferNeverUpdated` | src/governance-token.ts:96-107 | a stored `Transfer` keeps its exact content over any stream that does not deliver its own event again |
| `Properties.DelayedRedeliveryRefreshesSnapshot` | src/governance-token.ts:33-54 | a delegation delivered, then a vote change to 100 for its `toDelegate`, then the same delegation again: the record's balance goes from 0 to 100, so a later re-delivery acts as a refresh |
| `Properties.DistinctTransfersDistinctRecords` | src/governance-token.ts:96-107 | two transfers with distinct `(hash, logIndex)` leave two records, each equal to the record of its own event's from, to, value and provenance |
| `Properties.DistinctDelegationsDistinctRecords` | src/governance-token.ts:35-53 | two delegations with distinct `(hash, logIndex)` leave two records under their string keys, each with its own delegator, from and to delegates and provenance |
| `Properties.DelegationThenVotesOnStore` | src/governance-token.ts:31-82 | on a new `Store` object, a delegation to A and then a vote change for A leave the record's balance 0 and A's projection at the new balance |
| `Properties.VotesThenDelegationOnStore` | src/governance-token.ts:31-82 | on a new `Store` object, a vote change for A and then a delegation to A leave the record with A's new balance |

## Left out

- Byte layouts of the indexing library: `Bytes.concatI32`, `Bytes.toString` and `Address.toHexString` are modelled as constructors. That makes each of them injective. The real `toString` of arbitrary bytes may not be injective, and this model does not capture that.
- DistinctDelegationsDistinctRecords: holds only because `ToString` is modelled as injective; with a lossy `toString`, two delegations could share a key.
- Creating a `Delegate` (src/governance-token.ts:63): `new Delegate(id)` leaves `latestBalance` and `blockTimestamp` unset. The model starts at (0, 0), which lines 67-68 overwrite before the save, so the difference cannot be observed.
- The truncation of `logIndex.toI32()`: the log index is an unbounded natural number in the keys.
- `BigInt` arithmetic and width: amounts, block numbers and timestamps are `nat`. The handlers do no arithmetic on them.
- The `id` field of each entity: the id is the key the entity is stored under.
- The generated event and schema classes: they are plain datatypes here, not objects with getters and setters. Entities are built as values and saved into the store object's maps.
- Event delivery, ABI decoding, block ordering and the commit and durability of store writes: these are external. The ordered stream appears only as the specification function `Replay`.
- Store write failures and retries: the handlers contain no error handling, and the engine owns the policy.
- Any query layer over the stored entities.
