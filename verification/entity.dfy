/**
 * The contest entity, its key, and the batch generator that turns the
 * results of one finished game into new contests. contest.go and
 * v2/contest.go declare the same struct and the same `New` and
 * `GenContests`; this module models both.
 */
module Entity {
  import opened Wrappers
  import opened Datastore

  /** The datastore kind of every contest. */
  const Kind: string := "Contest"

  /** A float64, carried as its bit pattern: ratings and outcomes are only copied. */
  datatype Float64 = Float64(bits: bv64)

  /** A time.Time, counted from Go's zero time. */
  datatype Time = Time(nanos: int)

  const ZeroTime: Time := Time(0)

  /** The rating category (gtype.Type, sn.Type): a Go int. */
  newtype GameType = x: int | -0x8000_0000_0000_0000 <= x < 0x8000_0000_0000_0000

  /** The field values of a contest at one moment (the request context is left out). */
  datatype ContestValue = ContestValue(
    key: Option<Key>,
    gameID: Int64,
    typ: GameType,
    r: Float64,
    rd: Float64,
    outcome: Float64,
    applied: bool,
    createdAt: Time,
    updatedAt: Time)

  /** The value of `new(Contest)`. */
  const ZeroContest: ContestValue :=
    ContestValue(None, 0, 0, Float64(0), Float64(0), Float64(0), false, ZeroTime, ZeroTime)

  /** `key(id, pk)`: the key of a contest owned by `pk`. */
  function ContestKey(id: Int64, pk: Option<Key>): Key
  {
    IDKey(Kind, id, pk)
  }

  /** Keys are derived deterministically and tell owners and ids apart. */
  lemma ContestKeyInjective(id1: Int64, pk1: Option<Key>, id2: Int64, pk2: Option<Key>)
    ensures ContestKey(id1, pk1) == ContestKey(id2, pk2) <==> id1 == id2 && pk1 == pk2
    ensures ContestKey(id1, pk1).kind == Kind && ContestKey(id1, pk1).parent == pk1
  {
  }

  /** A contest as the Go program holds it: a heap object that the cache and callers share. */
  class Contest {
    var key: Option<Key>
    var gameID: Int64
    var typ: GameType
    var r: Float64
    var rd: Float64
    var outcome: Float64
    var applied: bool
    var createdAt: Time
    var updatedAt: Time

    ghost function Value(): ContestValue
      reads this
    {
      ContestValue(key, gameID, typ, r, rd, outcome, applied, createdAt, updatedAt)
    }

    /** `new(Contest)`: every field at its zero value. */
    constructor Blank()
      ensures Value() == ZeroContest
    {
      key, gameID, typ := None, 0, 0;
      r, rd, outcome := Float64(0), Float64(0), Float64(0);
      applied, createdAt, updatedAt := false, ZeroTime, ZeroTime;
    }

    /** `New(c, id, pk, gid, t, r, rd, outcome)`: an unapplied contest with zero timestamps. */
    constructor New(id: Int64, pk: Option<Key>, gid: Int64, t: GameType, r: Float64, rd: Float64, outcome: Float64)
      ensures Value() == ContestValue(Some(ContestKey(id, pk)), gid, t, r, rd, outcome, false, ZeroTime, ZeroTime)
    {
      key, gameID, typ := Some(ContestKey(id, pk)), gid, t;
      this.r, this.rd, this.outcome := r, rd, outcome;
      applied, createdAt, updatedAt := false, ZeroTime, ZeroTime;
    }

    /** The store filling this struct with an entity's properties (its Load hook) and key (its LoadKey hook). */
    method Assign(v: ContestValue)
      modifies this
      ensures Value() == v
    {
      key, gameID, typ := v.key, v.gameID, v.typ;
      r, rd, outcome := v.r, v.rd, v.outcome;
      applied, createdAt, updatedAt := v.applied, v.createdAt, v.updatedAt;
    }
  }

  /** The value a fetch of key `k` leaves in a fresh contest: the stored properties, keyed by `k`. */
  function Load(k: Key, entity: ContestValue): ContestValue
  {
    entity.(key := Some(k))
  }

  /** The durable store as the contest package sees it. */
  type Store = map<Key, StoreReply<ContestValue>>

  /** The query both versions run for the unapplied contests of `owner`, optionally of one type. */
  function UnappliedQuery(owner: Option<Key>, t: Option<GameType>): (q: Query)
    ensures q.kind == Kind && q.ancestor == owner && q.keysOnly
    ensures Equals("Applied=", BoolValue(false)) in q.filters
    ensures t.Some? ==> Equals("Type=", IntValue(t.value as int)) in q.filters
    ensures t.None? ==> forall f :: f in q.filters ==> f.property != "Type="
  {
    Query(Kind, owner, [Equals("Applied=", BoolValue(false))]
      + (if t.Some? then [Equals("Type=", IntValue(t.value as int))] else []), true)
  }

  // ---------------------------------------------------------------------
  // Batch generator
  // ---------------------------------------------------------------------

  /** One participant's outcome of a finished game. */
  datatype Result = Result(gameID: Int64, typ: GameType, r: Float64, rd: Float64, outcome: Float64)

  /**
   * A Go `map[*datastore.Key][]*Result`, as the (owner, results) pairs in the
   * order one iteration visited them. Go does not fix that order.
   */
  type ResultsMap = seq<(Option<Key>, seq<Result>)>

  type Places = seq<ResultsMap>

  /** What `New(c, 0, owner, r.GameID, r.Type, r.R, r.RD, r.Outcome)` builds. */
  function FromResult(owner: Option<Key>, res: Result): ContestValue
  {
    ContestValue(Some(ContestKey(0, owner)), res.gameID, res.typ, res.r, res.rd, res.outcome, false, ZeroTime, ZeroTime)
  }

  /** `v` is the contest generated for `res` of `owner`, field by field. */
  ghost predicate MadeFrom(v: ContestValue, owner: Option<Key>, res: Result)
  {
    && v.key == Some(IDKey(Kind, 0, owner))
    && v.gameID == res.gameID && v.typ == res.typ
    && v.r == res.r && v.rd == res.rd && v.outcome == res.outcome
    && !v.applied && v.createdAt == ZeroTime && v.updatedAt == ZeroTime
  }

  /** The contests for one owner's results, in order. */
  function GenResults(owner: Option<Key>, rs: seq<Result>): seq<ContestValue>
  {
    seq(|rs|, n requires 0 <= n < |rs| => FromResult(owner, rs[n]))
  }

  /** The contests for one results map, entry by entry. */
  function GenMap(rm: ResultsMap): seq<ContestValue>
  {
    if rm == [] then []
    else GenMap(rm[..|rm| - 1]) + GenResults(rm[|rm| - 1].0, rm[|rm| - 1].1)
  }

  /** The contests `GenContests` generates, place by place. */
  function GenValues(places: Places): seq<ContestValue>
  {
    if places == [] then []
    else GenValues(places[..|places| - 1]) + GenMap(places[|places| - 1])
  }

  /** The number of results in one results map. */
  function MapCount(rm: ResultsMap): nat
  {
    if rm == [] then 0 else MapCount(rm[..|rm| - 1]) + |rm[|rm| - 1].1|
  }

  /** The number of results over all places. */
  function ResultCount(places: Places): nat
  {
    if places == [] then 0 else ResultCount(places[..|places| - 1]) + MapCount(places[|places| - 1])
  }

  lemma {:induction false} GenMapAt(rm: ResultsMap, e: nat, n: nat)
    requires e < |rm| && n < |rm[e].1|
    ensures |GenMap(rm)| == MapCount(rm)
    ensures MapCount(rm[..e]) + n < |GenMap(rm)|
    ensures GenMap(rm)[MapCount(rm[..e]) + n] == FromResult(rm[e].0, rm[e].1[n])
  {
    var last := |rm| - 1;
    assert rm[..last][..last] == rm[..last];
    if e < last {
      GenMapAt(rm[..last], e, n);
      assert rm[..last][..e] == rm[..e];
    } else {
      assert rm[..e] == rm[..last];
      GenMapLength(rm[..last]);
    }
  }

  lemma {:induction false} GenMapLength(rm: ResultsMap)
    ensures |GenMap(rm)| == MapCount(rm)
  {
    if rm != [] {
      GenMapLength(rm[..|rm| - 1]);
    }
  }

  /** `GenContests` yields exactly as many contests as there are results in all places. */
  lemma {:induction false} GenValuesLength(places: Places)
    ensures |GenValues(places)| == ResultCount(places)
  {
    if places != [] {
      GenValuesLength(places[..|places| - 1]);
      GenMapLength(places[|places| - 1]);
    }
  }

  /**
   * The result at position `n` of entry `e` of place `p` becomes exactly the
   * contest at its running position: one contest per result, fields copied.
   */
  lemma {:induction false} GenValuesAt(places: Places, p: nat, e: nat, n: nat)
    requires p < |places| && e < |places[p]| && n < |places[p][e].1|
    ensures ResultCount(places[..p]) + MapCount(places[p][..e]) + n < |GenValues(places)|
    ensures MadeFrom(GenValues(places)[ResultCount(places[..p]) + MapCount(places[p][..e]) + n],
                     places[p][e].0, places[p][e].1[n])
  {
    var last := |places| - 1;
    var init := places[..last];
    assert init[..last] == init;
    if p < last {
      GenValuesAt(init, p, e, n);
      assert init[..p] == places[..p];
      assert init[p] == places[p];
    } else {
      assert places[..p] == init;
      GenValuesLength(init);
      GenMapAt(places[p], e, n);
    }
  }

  lemma {:induction false} GenMapSound(rm: ResultsMap, i: nat)
    requires i < |GenMap(rm)|
    ensures exists e, n :: 0 <= e < |rm| && 0 <= n < |rm[e].1| && GenMap(rm)[i] == FromResult(rm[e].0, rm[e].1[n])
  {
    var last := |rm| - 1;
    var init := GenMap(rm[..last]);
    if i < |init| {
      GenMapSound(rm[..last], i);
      var e, n :| 0 <= e < |rm[..last]| && 0 <= n < |rm[..last][e].1|
               && init[i] == FromResult(rm[..last][e].0, rm[..last][e].1[n]);
      assert GenMap(rm)[i] == FromResult(rm[e].0, rm[e].1[n]);
    } else {
      var n := i - |init|;
      assert GenMap(rm)[i] == FromResult(rm[last].0, rm[last].1[n]);
    }
  }

  /** Every generated contest comes from some result of some owner, with its fields copied. */
  lemma {:induction false} GenValuesSound(places: Places, i: nat)
    requires i < |GenValues(places)|
    ensures exists p, e, n :: 0 <= p < |places| && 0 <= e < |places[p]| && 0 <= n < |places[p][e].1|
                              && MadeFrom(GenValues(places)[i], places[p][e].0, places[p][e].1[n])
  {
    var last := |places| - 1;
    var init := GenValues(places[..last]);
    if i < |init| {
      GenValuesSound(places[..last], i);
      var p, e, n :| 0 <= p < |places[..last]| && 0 <= e < |places[..last][p]| && 0 <= n < |places[..last][p][e].1|
                     && MadeFrom(init[i], places[..last][p][e].0, places[..last][p][e].1[n]);
      assert GenValues(places)[i] == init[i];
      assert places[..last][p] == places[p];
    } else {
      GenMapSound(places[last], i - |init|);
      var e, n :| 0 <= e < |places[last]| && 0 <= n < |places[last][e].1|
               && GenMap(places[last])[i - |init|] == FromResult(places[last][e].0, places[last][e].1[n]);
      assert GenValues(places)[i] == GenMap(places[last])[i - |init|];
    }
  }

  /** The innermost loop of `GenContests`: one fresh contest per result of one owner. */
  method NewContests(ukey: Option<Key>, rs: seq<Result>) returns (cs: seq<Contest>)
    ensures |cs| == |rs|
    ensures forall i :: 0 <= i < |cs| ==> fresh(cs[i]) && cs[i].Value() == FromResult(ukey, rs[i])
    ensures forall i, j :: 0 <= i < j < |cs| ==> cs[i] != cs[j]
  {
    cs := [];
    for n := 0 to |rs|
      invariant |cs| == n
      invariant forall i :: 0 <= i < n ==> fresh(cs[i]) && cs[i].Value() == FromResult(ukey, rs[i])
      invariant forall i, j :: 0 <= i < j < n ==> cs[i] != cs[j]
    {
      var r := rs[n];
      var c := new Contest.New(0, ukey, r.gameID, r.typ, r.r, r.rd, r.outcome);
      cs := cs + [c];
    }
  }

  /**
   * `GenContests`: one fresh, unapplied contest per result, owner by owner and
   * place by place, in the order the nested loops visit them.
   */
  method GenContests(places: Places) returns (cs: seq<Contest>)
    ensures |cs| == |GenValues(places)|
    ensures forall i :: 0 <= i < |cs| ==> fresh(cs[i]) && cs[i].Value() == GenValues(places)[i]
    ensures forall i, j :: 0 <= i < j < |cs| ==> cs[i] != cs[j]
  {
    cs := [];
    for p := 0 to |places|
      invariant |cs| == |GenValues(places[..p])|
      invariant forall i :: 0 <= i < |cs| ==> fresh(cs[i]) && cs[i].Value() == GenValues(places[..p])[i]
      invariant forall i, j :: 0 <= i < j < |cs| ==> cs[i] != cs[j]
    {
      var rmap := places[p];
      ghost var before := GenValues(places[..p]);
      for e := 0 to |rmap|
        invariant |cs| == |before + GenMap(rmap[..e])|
        invariant forall i :: 0 <= i < |cs| ==> fresh(cs[i]) && cs[i].Value() == (before + GenMap(rmap[..e]))[i]
        invariant forall i, j :: 0 <= i < j < |cs| ==> cs[i] != cs[j]
      {
        var more := NewContests(rmap[e].0, rmap[e].1);
        assert GenMap(rmap[..e + 1]) == GenMap(rmap[..e]) + GenResults(rmap[e].0, rmap[e].1) by {
          assert rmap[..e + 1][..e] == rmap[..e];
        }
        cs := cs + more;
      }
      assert rmap[..|rmap|] == rmap;
      assert places[..p + 1][..p] == places[..p];
    }
    assert places[..|places|] == places;
  }

  /** A slice of contest pointers none of which is nil, as non-null references. */
  function Refs(cs: seq<Contest?>): (r: seq<Contest>)
    requires forall i :: 0 <= i < |cs| ==> cs[i] != null
    ensures |r| == |cs| && forall i :: 0 <= i < |cs| ==> r[i] == cs[i]
  {
    seq(|cs|, i requires 0 <= i < |cs| => cs[i] as Contest)
  }
}
