/**
 * What the cache-aside read path of contest.go computes, stated over values:
 * the local cache as a map from key to either a contest or a value of some
 * other type, the store as a map from key to what a fetch answers. The
 * class in client.dfy is proved against these functions.
 */
module Resolver {
  import opened Wrappers
  import opened Datastore
  import opened Entity

  /** A cache entry: a contest, or a value of some other type under the same encoded key. */
  datatype CachedValue = Holds(contest: ContestValue) | Foreign

  type CacheView = map<Key, CachedValue>

  /** `mcGet`: a nil key, a miss, or a wrong-typed entry is an error; a contest entry is returned. */
  function CacheGet(cache: CacheView, k: Option<Key>): Reply<ContestValue>
  {
    if k.None? then Fail(MissingKey)
    else if k.value !in cache then Fail(NotFound)
    else match cache[k.value]
      case Holds(v) => Ok(v)
      case Foreign => Fail(InvalidCache)
  }

  /** The result of one lookup: the reply, the cache afterwards, and the keys read from the store. */
  datatype Step = Step(reply: Reply<ContestValue>, cache: CacheView, storeReads: seq<Key>)

  /** `dsGet`: a nil key is an error; otherwise one fetch, whose success is written to the cache. */
  function StoreGet(cache: CacheView, store: Store, k: Option<Key>): Step
  {
    if k.None? then Step(Fail(MissingKey), cache, [])
    else match Fetch(store, k.value)
      case Found(entity) =>
        var v := Load(k.value, entity);
        Step(Ok(v), cache[k.value := Holds(v)], [k.value])
      case Failed(cause) => Step(Fail(FromStore(cause)), cache, [k.value])
  }

  /** What one fetch of `k` answers: the loaded contest, or the store's error passed on. */
  function FetchReply(store: Store, k: Key): Reply<ContestValue>
  {
    match Fetch(store, k)
    case Found(entity) => Ok(Load(k, entity))
    case Failed(cause) => Fail(FromStore(cause))
  }

  /** The key holds a contest in the cache. */
  predicate Hit(cache: CacheView, k: Option<Key>)
  {
    k.Some? && k.value in cache && cache[k.value].Holds?
  }

  /** `get`: the cache first, and the store on any cache error. */
  function Resolve(cache: CacheView, store: Store, k: Option<Key>): Step
  {
    match CacheGet(cache, k)
    case Ok(v) => Step(Ok(v), cache, [])
    case Fail(_) => StoreGet(cache, store, k)
  }

  /**
   * What one lookup does. A nil key fails with MissingKey and touches
   * nothing; a hit returns the cached contest and reads no store; a miss
   * reads the store exactly once and answers what the fetch answers. A
   * failure leaves the cache alone and is never a cache error; a success
   * leaves the returned contest in the cache under its key.
   */
  lemma ResolveCases(cache: CacheView, store: Store, k: Option<Key>)
    ensures var s := Resolve(cache, store, k);
            && (k.None? ==> s == Step(Fail(MissingKey), cache, []))
            && (Hit(cache, k) ==> s == Step(Ok(cache[k.value].contest), cache, []))
            && (k.Some? && !Hit(cache, k) ==> s.storeReads == [k.value] && s.reply == FetchReply(store, k.value))
            && (s.reply.Fail? ==> s.cache == cache && (s.reply.error == MissingKey || s.reply.error.FromStore?))
            && (s.reply.Ok? ==> k.Some? && s.cache == cache[k.value := Holds(s.reply.value)])
  {
  }

  /**
   * Once a lookup succeeded, looking the same key up again is answered by
   * the cache with the same contest, whatever the store now holds.
   */
  lemma ResolveAgainHits(cache: CacheView, store: Store, store': Store, k: Key)
    requires Resolve(cache, store, Some(k)).reply.Ok?
    ensures var s := Resolve(cache, store, Some(k));
            Resolve(s.cache, store', Some(k)) == Step(s.reply, s.cache, [])
  {
    ResolveCases(cache, store, Some(k));
  }

  /** The outcome of a batch: one reply per key, the final cache, and all store reads. */
  datatype Batch = Batch(replies: seq<Reply<ContestValue>>, cache: CacheView, storeReads: seq<Key>)

  /** `getMulti`: the keys resolved one after the other, each against the cache the earlier ones left. */
  function ResolveAll(cache: CacheView, store: Store, ks: seq<Option<Key>>): (b: Batch)
    ensures |b.replies| == |ks|
    decreases |ks|
  {
    if ks == [] then Batch([], cache, [])
    else
      var b := ResolveAll(cache, store, ks[..|ks| - 1]);
      var s := Resolve(b.cache, store, ks[|ks| - 1]);
      Batch(b.replies + [s.reply], s.cache, b.storeReads + s.storeReads)
  }

  /**
   * The shape of a batch: one reply per key, at most one store read per
   * key, no cache error in any slot, and a contest the cache held before
   * the batch is still held after it.
   */
  lemma {:induction false} ResolveAllShape(cache: CacheView, store: Store, ks: seq<Option<Key>>)
    ensures var b := ResolveAll(cache, store, ks);
            && |b.storeReads| <= |ks|
            && (forall i :: 0 <= i < |ks| && b.replies[i].Fail? ==>
                  b.replies[i].error == MissingKey || b.replies[i].error.FromStore?)
            && (forall k :: k in cache && cache[k].Holds? ==> k in b.cache && b.cache[k] == cache[k])
    decreases |ks|
  {
    if ks != [] {
      var init := ks[..|ks| - 1];
      ResolveAllShape(cache, store, init);
      var b := ResolveAll(cache, store, init);
      ResolveCases(b.cache, store, ks[|ks| - 1]);
    }
  }

  /**
   * Every contest a batch returns is the one the cache holds for its key
   * once the batch is over: a later lookup of the same key in the batch
   * hits it rather than replacing it.
   */
  lemma {:induction false} ResolveAllCached(cache: CacheView, store: Store, ks: seq<Option<Key>>, j: nat)
    requires j < |ks| && ResolveAll(cache, store, ks).replies[j].Ok?
    ensures var b := ResolveAll(cache, store, ks);
            ks[j].Some? && ks[j].value in b.cache && b.cache[ks[j].value] == Holds(b.replies[j].value)
    decreases |ks|
  {
    var n := |ks| - 1;
    var b := ResolveAll(cache, store, ks[..n]);
    ResolveCases(b.cache, store, ks[n]);
    if j < n {
      ResolveAllCached(cache, store, ks[..n], j);
    }
  }

  /** A batch of the first `i + 1` keys is the batch of the first `i` followed by the lookup of key `i`. */
  lemma ResolveAllStep(cache: CacheView, store: Store, ks: seq<Option<Key>>, i: nat)
    requires i < |ks|
    ensures var b := ResolveAll(cache, store, ks[..i]);
            var s := Resolve(b.cache, store, ks[i]);
            ResolveAll(cache, store, ks[..i + 1]) == Batch(b.replies + [s.reply], s.cache, b.storeReads + s.storeReads)
  {
    assert ks[..i + 1][..i] == ks[..i];
  }

  /** The replies of a batch of the first `n` keys are the first `n` replies of the whole batch. */
  lemma {:induction false} ResolveAllPrefix(cache: CacheView, store: Store, ks: seq<Option<Key>>, n: nat)
    requires n <= |ks|
    ensures ResolveAll(cache, store, ks[..n]).replies == ResolveAll(cache, store, ks).replies[..n]
    decreases |ks|
  {
    if n < |ks| {
      var last := |ks| - 1;
      ResolveAllPrefix(cache, store, ks[..last], n);
      assert ks[..last][..n] == ks[..n];
    } else {
      assert ks[..n] == ks;
    }
  }

  /**
   * Slot `i` of a batch is exactly the single lookup of `ks[i]` in the
   * state the first `i` lookups left: keys are processed in order, once each.
   */
  lemma ResolveAllSlot(cache: CacheView, store: Store, ks: seq<Option<Key>>, i: nat)
    requires i < |ks|
    ensures ResolveAll(cache, store, ks).replies[i] == Resolve(ResolveAll(cache, store, ks[..i]).cache, store, ks[i]).reply
  {
    ResolveAllPrefix(cache, store, ks, i + 1);
    assert ks[..i + 1][..i] == ks[..i];
  }

  /** The error slot of one reply: nil on success. */
  function ErrorOf(r: Reply<ContestValue>): Option<Error>
  {
    if r.Fail? then Some(r.error) else None
  }

  /** The error slots of a batch, aligned with its keys. */
  function Errors(replies: seq<Reply<ContestValue>>): (es: seq<Option<Error>>)
  {
    seq(|replies|, i requires 0 <= i < |replies| => ErrorOf(replies[i]))
  }

  /** The aggregate error of `getMulti`: nil when every slot succeeded, else the whole positional multi-error. */
  function Aggregate(replies: seq<Reply<ContestValue>>): Option<Error>
  {
    if forall i :: 0 <= i < |replies| ==> replies[i].Ok? then None else Some(Multi(Errors(replies)))
  }

  /**
   * When exactly one key fails, the batch reports an error whose one
   * non-nil slot is that key's error, at that key's position.
   */
  lemma OneFailure(replies: seq<Reply<ContestValue>>, i: nat)
    requires i < |replies| && replies[i].Fail?
    requires forall j :: 0 <= j < |replies| && j != i ==> replies[j].Ok?
    ensures Aggregate(replies) == Some(Multi(Errors(replies)))
    ensures Errors(replies)[i] == Some(replies[i].error)
    ensures forall j :: 0 <= j < |replies| && j != i ==> Errors(replies)[j].None?
  {
  }

  /** The contests of a batch in which every key succeeded. */
  function Contests(replies: seq<Reply<ContestValue>>): (vs: seq<ContestValue>)
    requires forall i :: 0 <= i < |replies| ==> replies[i].Ok?
  {
    seq(|replies|, i requires 0 <= i < |replies| => replies[i].value)
  }

  /** The batch read of the datastore library: every key fetched on its own, in order. */
  function FetchAll(store: Store, ks: seq<Key>): (rs: seq<Reply<ContestValue>>)
    ensures |rs| == |ks|
  {
    seq(|ks|, i requires 0 <= i < |ks| => FetchReply(store, ks[i]))
  }

  /** Every contest the cache holds is what a fetch of its key would load. */
  ghost predicate Coherent(cache: CacheView, store: Store)
  {
    forall k :: k in cache && cache[k].Holds? ==> FetchReply(store, k) == Ok(cache[k].contest)
  }

  /** Against a coherent cache a lookup answers what a fetch answers, and the cache stays coherent. */
  lemma ResolveCoherent(cache: CacheView, store: Store, k: Key)
    requires Coherent(cache, store)
    ensures var s := Resolve(cache, store, Some(k));
            s.reply == FetchReply(store, k) && Coherent(s.cache, store)
  {
    ResolveCases(cache, store, Some(k));
  }

  /**
   * A coherent cache is transparent: the cache-aside batch answers every
   * key exactly as the library's batch read does (a cold cache is
   * coherent), duplicates and failures included.
   */
  lemma {:induction false} ResolveAllCoherent(cache: CacheView, store: Store, ks: seq<Key>)
    requires Coherent(cache, store)
    ensures var b := ResolveAll(cache, store, Present(ks));
            b.replies == FetchAll(store, ks) && Coherent(b.cache, store)
    decreases |ks|
  {
    if ks != [] {
      var n := |ks| - 1;
      assert Present(ks)[..n] == Present(ks[..n]);
      ResolveAllCoherent(cache, store, ks[..n]);
      var b := ResolveAll(cache, store, Present(ks[..n]));
      ResolveCoherent(b.cache, store, ks[n]);
      assert FetchAll(store, ks) == FetchAll(store, ks[..n]) + [FetchReply(store, ks[n])];
    }
  }
}
