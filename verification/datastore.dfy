/**
 * The slice of the datastore client library that the contest package relies
 * on: hierarchical keys, the errors the store reports, the shape of a
 * keys-only query, and the reply of a single-key fetch. The store itself is
 * a collaborator and is represented by the maps and functions the clients
 * hold; nothing here talks to a server.
 */
module Datastore {
  import opened Wrappers

  /** Go's int64. */
  newtype Int64 = x: int | -0x8000_0000_0000_0000 <= x < 0x8000_0000_0000_0000

  /**
   * A complete key as built by `datastore.IDKey(kind, id, parent)`: a kind,
   * a numeric id (0 leaves the id to the store) and an optional ancestor.
   * Name and namespace are never set by the contest package.
   */
  datatype Key = IDKey(kind: string, id: Int64, parent: Option<Key>)

  /** Failures the store itself reports for a fetch or a query. */
  datatype StoreError =
    | NoSuchEntity              // datastore.ErrNoSuchEntity
    | Unavailable(reason: string) // any other failure: deadline, permission, transport

  /**
   * Every error value the contest package can return. The first three are
   * the package's own sentinels; `FromStore` is a store error passed on
   * unchanged; `Multi` is a positional datastore.MultiError, one slot per
   * key; `LengthMismatch` is the batch read's complaint that it was given
   * different numbers of keys and destinations.
   */
  datatype Error =
    | MissingKey
    | NotFound
    | InvalidCache
    | FromStore(cause: StoreError)
    | Multi(slots: seq<Option<Error>>)
    | LengthMismatch

  /** A Go `(value, error)` pair in which exactly one side is set. */
  datatype Reply<+T> = Ok(value: T) | Fail(error: Error)

  /** What the store answers to a fetch or a query. */
  datatype StoreReply<+T> = Found(value: T) | Failed(cause: StoreError)

  /** A single-key fetch from a store represented as a map: an absent key is "no such entity". */
  function Fetch<T>(store: map<Key, StoreReply<T>>, k: Key): StoreReply<T>
  {
    if k in store then store[k] else Failed(NoSuchEntity)
  }

  /** A property value used in an equality filter. */
  datatype PropertyValue = BoolValue(b: bool) | IntValue(i: int)

  /** An equality filter `Filter("<property>=", value)`. */
  datatype Filter = Equals(property: string, value: PropertyValue)

  /** A query as the builder chain `NewQuery(kind).Ancestor(..).Filter(..)...KeysOnly()` leaves it. */
  datatype Query = Query(kind: string, ancestor: Option<Key>, filters: seq<Filter>, keysOnly: bool)

  /** The keys-only query `GetAll`: the matching keys, or the store's error. */
  type QueryService = Query -> StoreReply<seq<Key>>

  /** The keys of a query result handed on as (non-nil) key pointers. */
  function Present(ks: seq<Key>): (r: seq<Option<Key>>)
    ensures |r| == |ks|
    ensures forall i :: 0 <= i < |ks| ==> r[i] == Some(ks[i])
  {
    seq(|ks|, i requires 0 <= i < |ks| => Some(ks[i]))
  }
}
