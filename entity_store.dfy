/**
  The entity store as the handlers see it: one map per entity kind, with
  `load` (absent is an explicit value) and `save` (upsert by id). The
  `Delegate` projection is read in two ways: a read-only lookup that falls
  back to the sentinel `(0, 0)`, and the load-then-create of its one
  writer (`Load`, and the sentinel as the starting value when absent).
 */
module EntityStore {
  import opened Schema

  datatype Option<T> = None | Some(value: T)

  /** `Entity.load(id)`: the stored entity, or `None` when there is none. */
  function Load<K, V>(m: map<K, V>, id: K): (r: Option<V>)
    ensures r.Some? <==> id in m
    ensures r.Some? ==> r.value == m[id]
  {
    if id in m then Some(m[id]) else None
  }

  /** `entity.save()`: create when absent, overwrite when present. */
  function Save<K, V>(m: map<K, V>, id: K, entity: V): (r: map<K, V>)
    ensures r.Keys == m.Keys + {id}
    ensures id in r && r[id] == entity
    ensures forall k :: k in m && k != id ==> r[k] == m[k]
  {
    m[id := entity]
  }

  /**
    The sentinel state of a delegate that has never had a balance change,
    and the starting value of a newly created projection.
   */
  const Unset: Delegate := Delegate(0, 0)

  /** Read-only lookup: the stored projection, or the sentinel `(0, 0)`. */
  function LoadOrDefault(delegates: map<HexId, Delegate>, id: HexId): (d: Delegate)
    ensures id in delegates ==> d == delegates[id]
    ensures id !in delegates ==> d.latestBalance == 0 && d.blockTimestamp == 0
  {
    match Load(delegates, id)
    case Some(found) => found
    case None => Unset
  }

  /** The whole store: one map per entity kind, keyed by entity id. */
  datatype StoreState = StoreState(
    approvals: map<RawId, Approval>,
    delegateChanges: map<StringId, DelegateChanged>,
    delegateVotesChanges: map<StringId, DelegateVotesChanged>,
    delegates: map<HexId, Delegate>,
    ownershipTransfers: map<RawId, OwnershipTransferred>,
    transfers: map<RawId, Transfer>)

  /** The store before any event has been handled. */
  const Empty: StoreState := StoreState(map[], map[], map[], map[], map[], map[])
}
