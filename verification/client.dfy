/**
 * The client of contest.go: a cache-aside reader of contests over a local
 * cache and the durable store, and the two queries built on it. The cache
 * holds pointers, so a contest handed out from the cache is the very object
 * the cache keeps. Every method is proved against the value-level functions
 * of module Resolver.
 */
module ContestClient {
  import opened Wrappers
  import opened Datastore
  import opened Entity
  import opened Grouping
  import opened Resolver

  /** What the local cache holds under a key: a contest pointer, or a value of some other type. */
  datatype CacheItem = ContestItem(contest: Contest) | OtherItem

  /** A result slot holds the contest of a successful reply, and nil for a failed one. */
  ghost predicate Matches(c: Contest?, r: Reply<ContestValue>)
    reads c
  {
    if r.Ok? then c != null && c.Value() == r.value else c == null
  }

  /** `cs` and `err` are what `getMulti` returns for the batch `b`. */
  ghost predicate Answered(b: Batch, cs: seq<Contest?>, err: Option<Error>)
    reads cs
  {
    && |cs| == |b.replies|
    && (forall i :: 0 <= i < |cs| ==> Matches(cs[i], b.replies[i]))
    && err == Aggregate(b.replies)
  }

  /**
   * Slot `j` of `getMulti` once key `k` was looked up with reply `r`: a nil
   * result exactly when the lookup failed, a contest the one the cache holds
   * under its key, and the error slot the lookup's error.
   */
  ghost predicate Slot(k: Option<Key>, c: Contest?, e: Option<Error>, r: Reply<ContestValue>, cache: map<Key, CacheItem>)
  {
    && (c == null <==> r.Fail?)
    && (c != null ==> k.Some? && k.value in cache && cache[k.value] == ContestItem(c))
    && e == ErrorOf(r)
  }

  /**
   * The slices of `getMulti` after the keys that `replies` answer: every
   * slot filled as `Slot` says, and `isNil` cleared by any failure.
   */
  ghost predicate Filled(ks: seq<Option<Key>>, contests: seq<Contest?>, me: seq<Option<Error>>, isNil: bool,
                         replies: seq<Reply<ContestValue>>, cache: map<Key, CacheItem>)
  {
    && |replies| <= |ks| == |contests| == |me|
    && (isNil <==> forall j :: 0 <= j < |replies| ==> replies[j].Ok?)
    && forall j {:trigger Slot(ks[j], contests[j], me[j], replies[j], cache)} :: 0 <= j < |replies| ==>
         Slot(ks[j], contests[j], me[j], replies[j], cache)
  }

  /** One more key looked up: its slot is filled and the earlier ones still hold, as the cache keeps its contests. */
  lemma FilledStep(ks: seq<Option<Key>>, contests: seq<Contest?>, me: seq<Option<Error>>, isNil: bool,
                   replies: seq<Reply<ContestValue>>, cache: map<Key, CacheItem>, r: Reply<ContestValue>,
                   c: Contest?, e: Option<Error>, cache': map<Key, CacheItem>)
    requires Filled(ks, contests, me, isNil, replies, cache) && |replies| < |ks|
    requires Slot(ks[|replies|], c, e, r, cache')
    requires forall k :: k in cache && cache[k].ContestItem? ==> k in cache' && cache'[k] == cache[k]
    ensures var i := |replies|;
            Filled(ks, contests[i := c], me[i := e], isNil && e.None?, replies + [r], cache')
  {
    var i := |replies|;
    forall j | 0 <= j < i + 1
      ensures Slot(ks[j], contests[i := c][j], me[i := e][j], (replies + [r])[j], cache')
    {
      if j < i {
        assert Slot(ks[j], contests[j], me[j], replies[j], cache);
      }
    }
    assert forall j :: 0 <= j < i ==> (replies + [r])[j] == replies[j];
  }

  /** Once every key was looked up, the error slice is the batch's and `isNil` says whether the batch succeeded. */
  lemma FilledDone(ks: seq<Option<Key>>, contests: seq<Contest?>, me: seq<Option<Error>>, isNil: bool,
                   replies: seq<Reply<ContestValue>>, cache: map<Key, CacheItem>)
    requires Filled(ks, contests, me, isNil, replies, cache) && |replies| == |ks|
    ensures me == Errors(replies) && (isNil <==> Aggregate(replies).None?)
    ensures forall j :: 0 <= j < |ks| ==> Slot(ks[j], contests[j], me[j], replies[j], cache)
  {
    forall j | 0 <= j < |ks|
      ensures Slot(ks[j], contests[j], me[j], replies[j], cache)
    {
    }
  }

  /**
   * Concatenation is associative. Dafny proves this with an empty body; the
   * getMulti loop calls it because that is cheaper for the solver than
   * asserting the step inline.
   */
  lemma AppendAssoc<T>(a: seq<T>, b: seq<T>, c: seq<T>)
    ensures a + (b + c) == a + b + c
  {
  }

  class Client {
    /** The local cache, keyed by the contest key (its string encoding is injective). */
    var cache: map<Key, CacheItem>
    /** The durable store. */
    const store: Store
    /** The keys-only query of the store. */
    const getAll: QueryService
    /** Every key fetched from the store so far, in order. */
    ghost var storeReads: seq<Key>

    /** The contests the cache points to. */
    ghost function Objects(): set<Contest>
      reads this
    {
      set k | k in cache && cache[k].ContestItem? :: cache[k].contest
    }

    /** The cache as values: the current fields of every cached contest. */
    ghost function View(): CacheView
      reads this, Objects()
    {
      map k | k in cache :: if cache[k].ContestItem? then Holds(cache[k].contest.Value()) else Foreign
    }

    /** `NewClient`: a client over the given store, query service and cache. */
    constructor (store: Store, getAll: QueryService, cache: map<Key, CacheItem>)
      ensures this.store == store && this.getAll == getAll && this.cache == cache && storeReads == []
    {
      this.store, this.getAll, this.cache := store, getAll, cache;
      storeReads := [];
    }

    /**
     * `mcGet`: the cache alone. It fails exactly when `CacheGet` does, with
     * the same error; on success it returns the object the cache holds.
     */
    method McGet(k: Option<Key>) returns (c: Contest?, err: Option<Error>)
      ensures err.None? <==> CacheGet(View(), k).Ok?
      ensures err.Some? ==> c == null && CacheGet(View(), k) == Fail(err.value)
      ensures err.None? ==> c != null && k.Some? && k.value in cache && cache[k.value] == ContestItem(c)
                            && CacheGet(View(), k) == Ok(c.Value())
    {
      if k.None? {
        return null, Some(MissingKey);
      }
      if k.value !in cache {
        return null, Some(NotFound);
      }
      match cache[k.value]
      case OtherItem =>
        return null, Some(InvalidCache);
      case ContestItem(x) =>
        return x, None;
    }

    /**
     * `dsGet`: one fetch into a new contest, which on success is also
     * written to the cache under its key. A nil key reads nothing.
     */
    method DsGet(k: Option<Key>) returns (c: Contest?, err: Option<Error>)
      modifies this`cache, this`storeReads
      ensures var s := StoreGet(old(View()), store, k);
              && View() == s.cache
              && storeReads == old(storeReads) + s.storeReads
              && (err.None? <==> s.reply.Ok?)
              && (s.reply.Fail? ==> c == null && err == Some(s.reply.error) && cache == old(cache))
              && (s.reply.Ok? ==> c != null && fresh(c) && c.Value() == s.reply.value
                                  && cache == old(cache)[k.value := ContestItem(c)])
    {
      if k.None? {
        return null, Some(MissingKey);
      }
      var contest := new Contest.Blank();
      var reply := Fetch(store, k.value);
      storeReads := storeReads + [k.value];
      match reply
      case Failed(cause) =>
        return null, Some(FromStore(cause));
      case Found(entity) =>
        contest.Assign(Load(k.value, entity));
        cache := cache[k.value := ContestItem(contest)];
        return contest, None;
    }

    /**
     * `get`: the cache first, the store on any cache error, as `Resolve`
     * says. A hit hands out the cached object itself; anything else it
     * returns is new.
     */
    method Get(k: Option<Key>) returns (c: Contest?, err: Option<Error>)
      modifies this`cache, this`storeReads
      ensures var s := Resolve(old(View()), store, k);
              && View() == s.cache
              && storeReads == old(storeReads) + s.storeReads
              && (err.None? <==> s.reply.Ok?)
              && (s.reply.Fail? ==> c == null && err == Some(s.reply.error) && cache == old(cache))
              && (s.reply.Ok? ==> c != null && c.Value() == s.reply.value && k.Some?
                                  && cache == old(cache)[k.value := ContestItem(c)])
      ensures Hit(old(View()), k) ==> old(cache)[k.value] == ContestItem(c)
      ensures !Hit(old(View()), k) ==> c == null || fresh(c)
      ensures forall k' :: k' in old(cache) && old(cache)[k'].ContestItem? ==> k' in cache && cache[k'] == old(cache)[k']
    {
      c, err := McGet(k);
      if err.Some? {
        c, err := DsGet(k);
      }
    }

    /**
     * The loop of `getMulti`: `get` for each key in order, each result and
     * error stored at the key's position and `isNil` cleared by any error.
     * The lookups are `ResolveAll` of the keys, and every contest the cache
     * ends up holding was cached before the call or is new.
     */
    method Fill(ks: seq<Option<Key>>) returns (contests: seq<Contest?>, me: seq<Option<Error>>, isNil: bool)
      modifies this`cache, this`storeReads
      ensures var b := ResolveAll(old(View()), store, ks);
              && View() == b.cache
              && storeReads == old(storeReads) + b.storeReads
              && Filled(ks, contests, me, isNil, b.replies, cache)
      ensures forall k :: k in cache && cache[k].ContestItem? ==> cache[k].contest in old(Objects()) || fresh(cache[k].contest)
    {
      ghost var view0, reads0, objects0 := View(), storeReads, Objects();
      ghost var b := ResolveAll(view0, store, ks[..0]);
      var l := |ks|;
      isNil := true;
      contests, me := seq(l, _ => null), seq(l, _ => None);
      for i := 0 to l
        invariant b == ResolveAll(view0, store, ks[..i])
        invariant View() == b.cache && storeReads == reads0 + b.storeReads
        invariant forall k :: k in cache && cache[k].ContestItem? ==> cache[k].contest in objects0 || fresh(cache[k].contest)
        invariant Filled(ks, contests, me, isNil, b.replies, cache)
      {
        ResolveAllStep(view0, store, ks, i);
        ghost var s := Resolve(b.cache, store, ks[i]);
        ghost var cache0 := cache;
        var c, e := Get(ks[i]);
        FilledStep(ks, contests, me, isNil, b.replies, cache0, s.reply, c, e, cache);
        contests, me := contests[i := c], me[i := e];
        if e.Some? {
          isNil := false;
        }
        AppendAssoc(reads0, b.storeReads, s.storeReads);
        b := Batch(b.replies + [s.reply], s.cache, b.storeReads + s.storeReads);
      }
      assert ks[..l] == ks;
    }

    /**
     * `getMulti`: the lookups of `Fill`, then nil as the error when every
     * key succeeded and the whole positional error slice otherwise. The
     * batch is `ResolveAll` of the keys; every contest returned is the one
     * the cache then holds for its key, either cached before the call or new.
     */
    method GetMulti(ks: seq<Option<Key>>) returns (cs: seq<Contest?>, err: Option<Error>)
      modifies this`cache, this`storeReads
      ensures var b := ResolveAll(old(View()), store, ks);
              && View() == b.cache
              && storeReads == old(storeReads) + b.storeReads
              && Answered(b, cs, err)
      ensures forall i :: 0 <= i < |cs| && cs[i] != null ==>
                i < |ks| && ks[i].Some? && ks[i].value in cache && cache[ks[i].value] == ContestItem(cs[i])
      ensures forall i :: 0 <= i < |cs| && cs[i] != null ==> cs[i] in old(Objects()) || fresh(cs[i])
    {
      ghost var view0 := View();
      var me, isNil;
      cs, me, isNil := Fill(ks);
      Done(view0, ks, cs, me, isNil, ResolveAll(view0, store, ks));
      if isNil {
        return cs, None;
      }
      return cs, Some(Multi(me));
    }

    /**
     * After the last key: the slices answer the whole batch, each contest
     * being the one the cache holds, with the values the batch returned.
     */
    lemma Done(view0: CacheView, ks: seq<Option<Key>>, cs: seq<Contest?>, me: seq<Option<Error>>, isNil: bool, b: Batch)
      requires b == ResolveAll(view0, store, ks) && View() == b.cache
      requires Filled(ks, cs, me, isNil, b.replies, cache) && |b.replies| == |ks|
      ensures Answered(b, cs, if isNil then None else Some(Multi(me)))
      ensures forall i :: 0 <= i < |cs| && cs[i] != null ==>
                ks[i].Some? && ks[i].value in cache && cache[ks[i].value] == ContestItem(cs[i])
    {
      FilledDone(ks, cs, me, isNil, b.replies, cache);
      forall j | 0 <= j < |ks| && b.replies[j].Ok?
        ensures Matches(cs[j], b.replies[j])
      {
        ResolveAllCached(view0, store, ks, j);
      }
    }

    /**
     * `UnappliedFor`: the unapplied contests of `owner` of type `t`. A query
     * error is passed on and no key yields `(nil, nil)`, both without a
     * store fetch; otherwise the result of `getMulti` on the keys, partial
     * results and all.
     */
    method UnappliedFor(owner: Option<Key>, t: GameType) returns (cs: seq<Contest?>, err: Option<Error>)
      modifies this`cache, this`storeReads
      ensures match getAll(UnappliedQuery(owner, Some(t)))
              case Failed(cause) =>
                cs == [] && err == Some(FromStore(cause)) && cache == old(cache) && storeReads == old(storeReads)
              case Found(ks) =>
                if ks == [] then
                  cs == [] && err.None? && cache == old(cache) && storeReads == old(storeReads)
                else
                  var b := ResolveAll(old(View()), store, Present(ks));
                  View() == b.cache && storeReads == old(storeReads) + b.storeReads && Answered(b, cs, err)
    {
      match getAll(UnappliedQuery(owner, Some(t)))
      case Failed(cause) =>
        return [], Some(FromStore(cause));
      case Found(ks) =>
        if |ks| == 0 {
          return [], None;
        }
        cs, err := GetMulti(Present(ks));
    }

    /**
     * `Unapplied`: every unapplied contest of `owner`, flagged applied and
     * grouped by type. A query error is passed on and no key yields
     * `(nil, nil)`; a `getMulti` error yields `(nil, err)`. On success the
     * buckets file the batch's contests as `Group` does, and the flagged
     * objects are the ones the cache holds.
     */
    method Unapplied(owner: Option<Key>) returns (cm: map<GameType, seq<Contest>>, err: Option<Error>)
      modifies this`cache, this`storeReads, Objects()
      ensures match getAll(UnappliedQuery(owner, None))
              case Failed(cause) =>
                cm == map[] && err == Some(FromStore(cause)) && cache == old(cache) && storeReads == old(storeReads)
                && unchanged(old(Objects()))
              case Found(ks) =>
                if ks == [] then
                  cm == map[] && err.None? && cache == old(cache) && storeReads == old(storeReads)
                  && unchanged(old(Objects()))
                else
                  var b := ResolveAll(old(View()), store, Present(ks));
                  && storeReads == old(storeReads) + b.storeReads
                  && (Aggregate(b.replies).Some? ==>
                        cm == map[] && err == Aggregate(b.replies) && View() == b.cache && unchanged(old(Objects())))
                  && (Aggregate(b.replies).None? ==> err.None? && Filed(cm, Group(Contests(b.replies))))
      ensures forall t, j :: t in cm && 0 <= j < |cm[t]| ==> cm[t][j] in Objects()
    {
      match getAll(UnappliedQuery(owner, None))
      case Failed(cause) =>
        return map[], Some(FromStore(cause));
      case Found(ks) =>
        if |ks| == 0 {
          return map[], None;
        }
        ghost var view0 := View();
        var cs;
        cs, err := GetMulti(Present(ks));
        ghost var b := ResolveAll(view0, store, Present(ks));
        if err.Some? {
          return map[], err;
        }
        var objs := Refs(cs);
        cm := MarkApplied(objs, Contests(b.replies));
    }
  }
}
