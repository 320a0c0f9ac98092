# Contest read path, modelled in Dafny

The `contest` package of SlothNinja keeps a ledger of pending rating
adjustments ("contests") produced by finished games. This project models its
read and aggregation path in both versions of the package:

- `contest.go` (version 1) resolves contests cache-aside. `mcGet` looks a key
  up in a process-local cache, `dsGet` fetches it from the durable store and
  warms the cache, `get` tries the first and falls back to the second, and
  `getMulti` runs `get` over a batch of keys. The batch reports a positional
  multi-error when any key failed.
- `v2/contest.go` has no cache. It allocates one blank contest per key and
  hands them to the datastore library's batch read.
- Both versions build contests from game results (`New`, `GenContests`). Both
  answer the unapplied contests of a player (`UnappliedFor`), and group and
  flag them applied (`Unapplied`).

## Layout

- `wrappers.dfy`: `Option`.
- `datastore.dfy`: the part of the datastore library the package relies on.
  It holds keys, store errors, the package's error values, query shapes and a
  single-key fetch from a store given as a map.
- `entity.dfy`: the contest as a heap object (`Contest`, with its field
  values `Value()`) and the key derivation. It also holds `New`, the query the
  two unapplied reads run, and the batch generator `GenContests` with the
  value-level definition it is proved against (`GenValues`).
- `resolver.dfy`: the version 1 read path over values. The cache is a map
  from key to a contest value or a foreign value. `CacheGet`, `StoreGet`,
  `Resolve` and `ResolveAll` give what `mcGet`, `dsGet`, `get` and
  `getMulti` compute, with lemmas about them. `FetchAll` gives what the
  library's batch read answers.
- `grouping.dfy`: the marking and grouping loop that ends `Unapplied` in both
  versions. `Group` is its specification over values.
- `client.dfy`: the version 1 client as a class. It holds a cache of contest
  references, the store, the query service and a ghost log of store reads.
  Every method is proved against `resolver.dfy`.
- `client_v2.dfy`: the version 2 client as a class, with the library's batch
  read modelled on the same store.

The version 1 cache holds pointers, so the contest returned by a cache hit is
the very object the cache keeps. `Unapplied` then flags those shared objects
in place, and the cached entries show the flag too. The model follows the
code here. It keeps contests as heap objects and proves that every flagged
object is one the cache holds.

## Model

| member | source | states |
|---|---|---|
| Entity.ContestKeyInjective | contest.go:83-85 | `key(id, pk)` (the function `ContestKey`, which has no contract of its own) is `IDKey("Contest", id, pk)`: equal keys have equal ids and owners, and the owner is the key's parent |
| Entity.Contest.New | contest.go:72-81 | `New` builds a contest keyed `key(id, pk)` with the given game id, type, rating, deviation and outcome, not applied, zero timestamps (v2/contest.go:61-70 is the same) |
| Entity.Contest.Blank | contest.go:182 | `new(Contest)` holds the zero value in every field |
| Entity.Contest.Assign | contest.go:48-60 | the store's Load and LoadKey hooks leave exactly the given entity and key in the object |
| Entity.UnappliedQuery | contest.go:103-107 | the query is of kind Contest under the owner, keys only, filters `Applied=false`, and filters `Type=t` exactly when a type is given |
| Entity.GenMapAt | contest.go:90-94 | result `n` of owner entry `e` becomes the contest at its running position in that results map, built by `New(c, 0, owner, ...)` |
| Entity.GenMapSound | contest.go:90-94 | every contest generated from one results map comes from one of its results |
| Entity.GenValuesLength | contest.go:87-97 | `GenContests` yields exactly as many contests as there are results over all places and owners |
| Entity.GenValuesAt | contest.go:87-97 | each result becomes the contest at its running position, keyed `IDKey("Contest", 0, owner)`, fields copied, not applied, zero timestamps |
| Entity.GenValuesSound | contest.go:87-97 | every generated contest comes from some result of some owner, with its fields copied |
| Entity.NewContests | contest.go:91-93 | the inner loop creates one fresh, distinct contest per result of one owner, in order |
| Entity.GenContests | contest.go:87-97 | the nested loops return fresh, pairwise distinct contests whose values are `GenValues(places)`, one per result (v2/contest.go:72-81 is the same) |
| Resolver.ResolveCases | contest.go:153-201 | this states the facts of `CacheGet` (`mcGet`), `StoreGet` (`dsGet`) and `Resolve` (`get`), which have no contracts of their own: a nil key fails with MissingKey and touches nothing; a hit returns the cached contest with no store read; a miss or a wrong-typed entry reads the store once and answers what the fetch answers; a failure leaves the cache alone and is never NotFound or InvalidCache; a success caches the returned contest under its key |
| Resolver.ResolveAgainHits | contest.go:182-201 | after a successful `get(k)`, the next `get(k)` is a cache hit with the same contest and no store read, whatever the store holds by then |
| Resolver.ResolveAll | contest.go:203-220 | the batch has one reply per key |
| Resolver.ResolveAllShape | contest.go:203-220 | a batch reads the store at most once per key, never reports a cache error in a slot, and keeps every contest the cache held |
| Resolver.ResolveAllCached | contest.go:188 | every contest a batch returns is the one the cache holds for its key after the batch |
| Resolver.ResolveAllPrefix | contest.go:210-215 | the replies for the first `n` keys are the first `n` replies of the whole batch |
| Resolver.ResolveAllSlot | contest.go:210-211 | slot `i` is exactly `get(ks[i])` in the cache state the first `i` lookups left |
| Resolver.OneFailure | contest.go:212-219 | when exactly one key fails, the batch error is a multi-error whose only non-nil slot is that key's error |
| Resolver.FetchAll | v2/contest.go:105 | the library's batch read answers one reply per key |
| Resolver.ResolveCoherent | contest.go:192-201 | against a cache whose contests are what the store holds, `get` answers what a fetch answers and the cache stays so |
| Resolver.ResolveAllCoherent | contest.go:203-220 | against such a cache (a cold one included), `getMulti` answers every key as the library's batch read does |
| Grouping.Group | contest.go:145-150 | every bucket is non-empty and holds only contests of its own type, all flagged applied |
| Grouping.GroupIsOfType | contest.go:145-150 | a type has a bucket exactly when some contest has that type, and the bucket is that type's contests in resolution order |
| Grouping.GroupPlaces | contest.go:146-148 | every contest lands, flagged applied, in the bucket of its own type |
| Grouping.GroupSize | contest.go:145-150 | the bucket sizes add up to the number of contests grouped |
| Grouping.GroupByMembers | contest.go:146-148 | every object in the buckets is one of the objects grouped |
| Grouping.GroupByFiled | contest.go:145-150 | grouping the objects files them as `Group` files their values |
| Grouping.FiledAppend | contest.go:148 | appending a contest to its type's bucket files its value under that type |
| Grouping.MarkApplied | contest.go:145-150 | each object is flagged applied in place, the map holds those very objects, and it files them as `Group` files their values (v2/contest.go:140-145 is the same loop) |
| Grouping.MarkedFiled | contest.go:145-150 | after the loop every object carries its flagged value and the map files them as `Group` does |
| ContestClient.FilledStep | contest.go:210-215 | one turn of the `getMulti` loop fills slot `i` and keeps the earlier slots, as the cache keeps its contests |
| ContestClient.FilledDone | contest.go:207-219 | after the loop the error slice is the batch's and `isNil` holds exactly when every key succeeded |
| ContestClient.Client.constructor | contest.go:31-33 | `NewClient` wires the store, the query service and the cache |
| ContestClient.Client.McGet | contest.go:153-172 | `mcGet` fails exactly as `CacheGet` does, with MissingKey, NotFound or InvalidCache, and on a hit returns the object the cache holds |
| ContestClient.Client.DsGet | contest.go:174-190 | `dsGet` fails with MissingKey for a nil key without a read; otherwise it reads once, and on success returns a new object holding the loaded entity, also cached under the key; a store error is passed on unchanged and the cache is untouched |
| ContestClient.Client.Get | contest.go:192-201 | `get` does what `Resolve` says on the cache's values; a hit returns the cached object itself, anything else returned is new, and no cached contest is dropped |
| ContestClient.Client.Fill | contest.go:207-215 | the loop runs `get` once per key in order; the store reads and the final cache are those of `ResolveAll`, and each slot holds that key's contest or error |
| ContestClient.Client.GetMulti | contest.go:203-220 | `getMulti` answers the batch `ResolveAll` gives: nil contests exactly at failed slots, every other slot the contest of its reply; the error is nil when every key succeeded and the full positional multi-error otherwise; each returned object is the one now cached under its key, cached before the call or new |
| ContestClient.Client.Done | contest.go:216-219 | once every key was looked up, the slices and the aggregate error answer the whole batch |
| ContestClient.Client.UnappliedFor | contest.go:99-120 | a query error is passed on and no key gives `(nil, nil)`, both with no store read and the cache untouched; otherwise the result of `getMulti` on the keys, partial results and all |
| ContestClient.Client.Unapplied | contest.go:124-151 | a query error is passed on and no key gives `(nil, nil)`; a `getMulti` error gives `(nil, err)`, touching no contest; on success the buckets file the batch's contests, flagged applied, as `Group` does, and every flagged object is one the cache holds |
| ContestClientV2.Blanks | v2/contest.go:100-103 | the allocation loop yields one fresh, distinct, zero-valued contest per key |
| ContestClientV2.Client.constructor | v2/contest.go:17-19 | `NewClient` wires the store and the query service |
| ContestClientV2.Client.GetMulti | v2/contest.go:105 | the library's batch read: unequal lengths are refused before any read; otherwise each key is read once in order, a found entity is loaded into its own destination, a failed one leaves its destination alone, and the error is nil exactly when every read succeeded |
| ContestClientV2.Client.UnappliedFor | v2/contest.go:83-110 | a query error is passed on and no key gives `(nil, nil)`, both with no read; a batch error gives `(nil, err)`; otherwise one fresh, distinct contest per key holding what its fetch loaded |
| ContestClientV2.Client.Unapplied | v2/contest.go:114-146 | a query error is passed on and no key gives `(nil, nil)`; a batch error gives `(nil, err)`; on success the buckets file the fetched contests, flagged applied, as `Group` does, and every object in them is new |

## Left out

- Key encoding: the cache is keyed by the key itself. `Key.Encode` is injective, so nothing is lost.
- Cache expiry: go-cache's default expiry and eviction are not modelled. An entry stays until it is overwritten.
- A typed nil `*Contest` stored in the cache is not modelled. A cached contest is always a real object.
- Datastore property serialisation: `Load`, `Save` and `LoadKey` (contest.go:48-60, v2/contest.go:35-47) are modelled only by their effect, the entity's fields plus its key (`Contest.Assign`, `Load`). `Save` writes nothing on the read path and reads the wall clock, so it is not modelled.
- The store is a map from key to an entity or an error, read through `Fetch`. Deadlines, transport failures and permissions are one `Unavailable` error.
- The keys-only query `GetAll` is an abstract function from the query to keys or an error, fixed for the client's lifetime.
- The store is a `const` of both clients, so it cannot change between calls on one client. Writes by other processes are not modelled. `Resolver.ResolveAgainHits` still states the cache-hit fact for any later store.
- ContestClientV2.Client.GetMulti: this models the datastore library, whose source is not part of this model. It requires pairwise distinct destinations, which both callers meet because they pass freshly allocated contests.
- Floating point: ratings, deviations and outcomes are carried as 64-bit patterns. They are only copied.
- Time: timestamps are whole nanoseconds from Go's zero time. Only `New` and `new(Contest)` build the zero time. A contest loaded from the store carries the stored `CreatedAt` and `UpdatedAt`, which are copied unchanged.
- A nil `*Result` in a results list makes `GenContests` panic when it dereferences `r` (contest.go:92, v2/contest.go:76). `Result` is a value here, so that panic is not modelled.
- Go map iteration order: a results map is a sequence of (owner, results) pairs in one iteration's order. The properties are stated for whatever order is given.
- Logging, the gin request context, and the go-cache and web-framework concurrency are not modelled.
- Nil slices and maps are empty sequences and maps. The capacity hint of `make(ContestMap, ...)` creates no entry and is not modelled.
- The `contests` and `me` slices of `getMulti` are sequence values updated by index. No other code can see them during the loop.
- ContestClient.Client.Unapplied: on success the contract does not state the cache view afterwards. The flagged objects are the cached ones, so the cached entries show `Applied=true`. The source does not promise this, and the contract states only that the flagged objects are cached ones. On success the contract also does not frame the cache map or the cached contests outside the batch.
- Version 1 flags the cached objects themselves: contest.go:147 acts on the pointers that contest.go:188 cached. Cached entries therefore show `Applied=true` afterwards, and the model follows the code.
