/**
 * The client of v2/contest.go: no local cache, every read goes to the store
 * through the datastore library's batch read, which fills objects the caller
 * allocates. `New` and `GenContests` are the ones of module Entity.
 */
module ContestClientV2 {
  import opened Wrappers
  import opened Datastore
  import opened Entity
  import opened Grouping
  import opened Resolver

  /** The allocation loop `for i := range cs { cs[i] = new(Contest) }`: `n` distinct blank contests. */
  method Blanks(n: nat) returns (cs: seq<Contest>)
    ensures |cs| == n
    ensures forall i :: 0 <= i < n ==> fresh(cs[i]) && cs[i].Value() == ZeroContest
    ensures forall i, j :: 0 <= i < j < n ==> cs[i] != cs[j]
  {
    cs := [];
    for i := 0 to n
      invariant |cs| == i
      invariant forall j :: 0 <= j < i ==> fresh(cs[j]) && cs[j].Value() == ZeroContest
      invariant forall j, k :: 0 <= j < k < i ==> cs[j] != cs[k]
    {
      var c := new Contest.Blank();
      cs := cs + [c];
    }
  }

  class Client {
    /** The durable store. */
    const store: Store
    /** The keys-only query of the store. */
    const getAll: QueryService
    /** Every key fetched from the store so far, in order. */
    ghost var storeReads: seq<Key>

    /** `NewClient`: a client over the given store and query service. */
    constructor (store: Store, getAll: QueryService)
      ensures this.store == store && this.getAll == getAll && storeReads == []
    {
      this.store, this.getAll := store, getAll;
      storeReads := [];
    }

    /**
     * The library's `GetMulti(ctx, keys, dst)`: with as many destinations as
     * keys, each key is fetched once, in order, and a found entity is loaded
     * into its own destination; a destination whose fetch failed keeps its
     * fields. The error is nil when every fetch succeeded and the positional
     * multi-error otherwise. Unequal lengths are refused before any fetch.
     */
    method GetMulti(ks: seq<Key>, dst: seq<Contest>) returns (err: Option<Error>)
      requires forall i, j :: 0 <= i < j < |dst| ==> dst[i] != dst[j]
      modifies dst, this`storeReads
      ensures |ks| != |dst| ==> err == Some(LengthMismatch) && storeReads == old(storeReads)
                                && forall i :: 0 <= i < |dst| ==> dst[i].Value() == old(dst[i].Value())
      ensures |ks| == |dst| ==>
                var rs := FetchAll(store, ks);
                && err == Aggregate(rs)
                && storeReads == old(storeReads) + ks
                && forall i :: 0 <= i < |ks| ==>
                     dst[i].Value() == (if rs[i].Ok? then rs[i].value else old(dst[i].Value()))
    {
      if |ks| != |dst| {
        return Some(LengthMismatch);
      }
      ghost var rs := FetchAll(store, ks);
      var me: seq<Option<Error>> := [];
      var failed := false;
      for i := 0 to |ks|
        invariant |me| == i && storeReads == old(storeReads) + ks[..i]
        invariant forall j :: 0 <= j < i ==> me[j] == ErrorOf(rs[j])
        invariant failed <==> exists j :: 0 <= j < i && rs[j].Fail?
        invariant forall j :: 0 <= j < |ks| ==>
                    dst[j].Value() == (if j < i && rs[j].Ok? then rs[j].value else old(dst[j].Value()))
      {
        var reply := Fetch(store, ks[i]);
        assert rs[i] == if reply.Found? then Ok(Load(ks[i], reply.value)) else Fail(FromStore(reply.cause));
        storeReads := storeReads + [ks[i]];
        if reply.Found? {
          dst[i].Assign(Load(ks[i], reply.value));
          me := me + [None];
        } else {
          me := me + [Some(FromStore(reply.cause))];
          failed := true;
        }
        assert ks[..i + 1] == ks[..i] + [ks[i]];
      }
      assert ks[..|ks|] == ks;
      assert me == Errors(rs);
      if failed {
        return Some(Multi(me));
      }
      return None;
    }

    /**
     * `UnappliedFor`: the unapplied contests of `owner` of type `t`. A query
     * error is passed on and no key yields `(nil, nil)`, both without a
     * fetch. Otherwise one new contest per key is filled by the batch read;
     * any failed key discards them all and yields `(nil, err)`.
     */
    method UnappliedFor(owner: Option<Key>, t: GameType) returns (cs: seq<Contest>, err: Option<Error>)
      modifies this`storeReads
      ensures match getAll(UnappliedQuery(owner, Some(t)))
              case Failed(cause) => cs == [] && err == Some(FromStore(cause)) && storeReads == old(storeReads)
              case Found(ks) =>
                if ks == [] then cs == [] && err.None? && storeReads == old(storeReads)
                else
                  var rs := FetchAll(store, ks);
                  && storeReads == old(storeReads) + ks
                  && (Aggregate(rs).Some? ==> cs == [] && err == Aggregate(rs))
                  && (Aggregate(rs).None? ==>
                        && err.None? && |cs| == |ks|
                        && (forall i :: 0 <= i < |ks| ==> fresh(cs[i]) && rs[i] == Ok(cs[i].Value()))
                        && (forall i, j :: 0 <= i < j < |cs| ==> cs[i] != cs[j]))
    {
      var q := getAll(UnappliedQuery(owner, Some(t)));
      if q.Failed? {
        return [], Some(FromStore(q.cause));
      }
      var ks := q.value;
      if |ks| == 0 {
        return [], None;
      }
      cs := Blanks(|ks|);
      err := GetMulti(ks, cs);
      if err.Some? {
        return [], err;
      }
    }

    /**
     * `Unapplied`: every unapplied contest of `owner`, read into new
     * contests, flagged applied and grouped by type. A query error is passed
     * on and no key yields `(nil, nil)`; a batch error yields `(nil, err)`.
     * On success the buckets file the fetched contests as `Group` does, and
     * every object in them is new.
     */
    method Unapplied(owner: Option<Key>) returns (cm: map<GameType, seq<Contest>>, err: Option<Error>)
      modifies this`storeReads
      ensures match getAll(UnappliedQuery(owner, None))
              case Failed(cause) => cm == map[] && err == Some(FromStore(cause)) && storeReads == old(storeReads)
              case Found(ks) =>
                if ks == [] then cm == map[] && err.None? && storeReads == old(storeReads)
                else
                  var rs := FetchAll(store, ks);
                  && storeReads == old(storeReads) + ks
                  && (Aggregate(rs).Some? ==> cm == map[] && err == Aggregate(rs))
                  && (Aggregate(rs).None? ==> err.None? && Filed(cm, Group(Contests(rs))))
      ensures forall t, j :: t in cm && 0 <= j < |cm[t]| ==> fresh(cm[t][j])
    {
      var q := getAll(UnappliedQuery(owner, None));
      if q.Failed? {
        return map[], Some(FromStore(q.cause));
      }
      var ks := q.value;
      if |ks| == 0 {
        return map[], None;
      }
      var cs := Blanks(|ks|);
      err := GetMulti(ks, cs);
      if err.Some? {
        return map[], err;
      }
      cm := MarkApplied(cs, Contests(FetchAll(store, ks)));
    }
  }
}
