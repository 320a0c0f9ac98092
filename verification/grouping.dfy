/**
 * The last step of `Unapplied` in both versions: every resolved contest is
 * flagged applied in place and appended to the bucket of its type.
 */
module Grouping {
  import opened Entity

  /** The contest after `c.Applied = true`. */
  function Mark(v: ContestValue): (r: ContestValue)
  {
    v.(applied := true)
  }

  /** A ContestMap as values: type to the contests of that type. */
  type Buckets = map<GameType, seq<ContestValue>>

  /**
   * The buckets the grouping loop builds from `vs`, one append at a time.
   * Only types that occur get an entry, every bucket holds contests of its
   * own type, and every one of them is flagged applied.
   */
  function Group(vs: seq<ContestValue>): (m: Buckets)
    ensures forall t :: t in m ==> m[t] != []
    ensures forall t, j :: t in m && 0 <= j < |m[t]| ==> m[t][j].typ == t && m[t][j].applied
  {
    if vs == [] then map[]
    else
      var m := Group(vs[..|vs| - 1]);
      var v := Mark(vs[|vs| - 1]);
      m[v.typ := (if v.typ in m then m[v.typ] else []) + [v]]
  }

  /** Reference definition: the contests of type `t`, flagged applied, in input order. */
  function OfType(vs: seq<ContestValue>, t: GameType): seq<ContestValue>
  {
    if vs == [] then []
    else if vs[0].typ == t then [Mark(vs[0])] + OfType(vs[1..], t)
    else OfType(vs[1..], t)
  }

  lemma {:induction false} OfTypeSnoc(vs: seq<ContestValue>, v: ContestValue, t: GameType)
    ensures OfType(vs + [v], t) == OfType(vs, t) + (if v.typ == t then [Mark(v)] else [])
  {
    if vs != [] {
      assert (vs + [v])[1..] == vs[1..] + [v];
      OfTypeSnoc(vs[1..], v, t);
    }
  }

  /**
   * Each bucket of the grouping is exactly the input's contests of that
   * type, flagged applied, in resolution order; a type has a bucket exactly
   * when some input contest has that type.
   */
  lemma {:induction false} GroupIsOfType(vs: seq<ContestValue>, t: GameType)
    ensures t in Group(vs) <==> exists i :: 0 <= i < |vs| && vs[i].typ == t
    ensures t in Group(vs) ==> Group(vs)[t] == OfType(vs, t)
    ensures t !in Group(vs) ==> OfType(vs, t) == []
  {
    if vs != [] {
      var init, v := vs[..|vs| - 1], vs[|vs| - 1];
      assert vs == init + [v];
      GroupIsOfType(init, t);
      OfTypeSnoc(init, v, t);
      if t in Group(vs) && t !in Group(init) {
        assert v.typ == t;
      }
      forall i | 0 <= i < |init| && init[i].typ == t
        ensures vs[i].typ == t
      {
      }
    }
  }

  /** Every contest lands, flagged applied, in the bucket of its own type (and, by Group's contract, in no other). */
  lemma GroupPlaces(vs: seq<ContestValue>, i: nat)
    requires i < |vs|
    ensures vs[i].typ in Group(vs) && Mark(vs[i]) in Group(vs)[vs[i].typ]
  {
    GroupIsOfType(vs, vs[i].typ);
    OfTypeHas(vs, i);
  }

  lemma {:induction false} OfTypeHas(vs: seq<ContestValue>, i: nat)
    requires i < |vs|
    ensures Mark(vs[i]) in OfType(vs, vs[i].typ)
  {
    if i > 0 {
      OfTypeHas(vs[1..], i - 1);
    }
  }

  /** The total number of contests over all buckets. */
  ghost function Size(m: Buckets): nat
    decreases |m|
  {
    if m == map[] then 0
    else
      var t := PickType(m);
      |m[t]| + Size(m - {t})
  }

  ghost function PickType(m: Buckets): (t: GameType)
    requires m != map[]
    ensures t in m
  {
    var t :| t in m; t
  }

  lemma {:induction false} SizeRemove(m: Buckets, t: GameType)
    requires t in m
    ensures Size(m) == |m[t]| + Size(m - {t})
    decreases |m|
  {
    var u := PickType(m);
    if u != t {
      var mu, mt := m - {u}, m - {t};
      SizeRemove(mu, t);
      SizeRemove(mt, u);
      assert mu - {t} == mt - {u};
    }
  }

  lemma SizeUpdate(m: Buckets, t: GameType, s: seq<ContestValue>)
    ensures Size(m[t := s]) == Size(m) - (if t in m then |m[t]| else 0) + |s|
  {
    SizeRemove(m[t := s], t);
    assert m[t := s] - {t} == m - {t};
    if t in m {
      SizeRemove(m, t);
    } else {
      assert m - {t} == m;
    }
  }

  /** The bucket sizes add up to the number of contests grouped. */
  lemma {:induction false} GroupSize(vs: seq<ContestValue>)
    ensures Size(Group(vs)) == |vs|
  {
    if vs != [] {
      var init := vs[..|vs| - 1];
      GroupSize(init);
      var m, v := Group(init), Mark(vs[|vs| - 1]);
      SizeUpdate(m, v.typ, (if v.typ in m then m[v.typ] else []) + [v]);
    }
  }

  /** The objects of `cm` line up, value for value, with the buckets `g`. */
  ghost predicate Filed(cm: map<GameType, seq<Contest>>, g: Buckets)
    reads set t, j | t in cm && 0 <= j < |cm[t]| :: cm[t][j]
  {
    && cm.Keys == g.Keys
    && forall t :: t in cm ==>
         |cm[t]| == |g[t]| && forall j :: 0 <= j < |cm[t]| ==> cm[t][j].Value() == g[t][j]
  }

  /** The categories of a sequence of contests. */
  function Types(vs: seq<ContestValue>): (ts: seq<GameType>)
  {
    seq(|vs|, i requires 0 <= i < |vs| => vs[i].typ)
  }

  /** The buckets of objects the grouping loop builds when `cs[i]` has type `ts[i]`. */
  function GroupBy(cs: seq<Contest>, ts: seq<GameType>): (cm: map<GameType, seq<Contest>>)
    requires |cs| == |ts|
  {
    if cs == [] then map[]
    else
      var cm := GroupBy(cs[..|cs| - 1], ts[..|ts| - 1]);
      var t := ts[|ts| - 1];
      cm[t := (if t in cm then cm[t] else []) + [cs[|cs| - 1]]]
  }

  /** Every object the grouping files is one of the objects grouped. */
  lemma {:induction false} GroupByMembers(cs: seq<Contest>, ts: seq<GameType>)
    requires |cs| == |ts|
    ensures forall t, j :: t in GroupBy(cs, ts) && 0 <= j < |GroupBy(cs, ts)[t]| ==> GroupBy(cs, ts)[t][j] in cs
  {
    if cs != [] {
      var n := |cs| - 1;
      var prev, u := GroupBy(cs[..n], ts[..n]), ts[n];
      GroupByMembers(cs[..n], ts[..n]);
      var cm := GroupBy(cs, ts);
      forall t, j | t in cm && 0 <= j < |cm[t]|
        ensures cm[t][j] in cs
      {
        if t == u && j == |cm[t]| - 1 {
          assert cm[t][j] == cs[n];
        } else {
          assert t in prev && j < |prev[t]| && cm[t][j] == prev[t][j];
          assert prev[t][j] in cs[..n];
          assert forall c :: c in cs[..n] ==> c in cs;
        }
      }
    }
  }

  lemma GroupBySnoc(cs: seq<Contest>, ts: seq<GameType>, i: nat)
    requires |cs| == |ts| && i < |cs|
    ensures var cm := GroupBy(cs[..i], ts[..i]);
            GroupBy(cs[..i + 1], ts[..i + 1]) == cm[ts[i] := (if ts[i] in cm then cm[ts[i]] else []) + [cs[i]]]
  {
    assert cs[..i + 1][..i] == cs[..i];
    assert ts[..i + 1][..i] == ts[..i];
  }

  /** Grouping the objects by type files them exactly as `Group` files their values. */
  lemma {:induction false} GroupByFiled(cs: seq<Contest>, vs: seq<ContestValue>)
    requires |cs| == |vs|
    requires forall j :: 0 <= j < |cs| ==> cs[j].Value() == Mark(vs[j])
    ensures Filed(GroupBy(cs, Types(vs)), Group(vs))
  {
    if cs != [] {
      var n := |cs| - 1;
      assert Types(vs)[..n] == Types(vs[..n]);
      GroupByFiled(cs[..n], vs[..n]);
      FiledAppend(GroupBy(cs[..n], Types(vs[..n])), Group(vs[..n]), cs[n]);
    }
  }

  /**
   * The loop `for _, c := range cs { c.Applied = true; cm[c.Type] = append(cm[c.Type], c) }`,
   * where `vals` are the objects' field values on entry. Each object is
   * flagged in place (an object listed twice is flagged twice, harmlessly),
   * and the map holds those very objects, grouped as `Group` groups their values.
   */
  method MarkApplied(cs: seq<Contest>, ghost vals: seq<ContestValue>) returns (cm: map<GameType, seq<Contest>>)
    requires |vals| == |cs| && forall j :: 0 <= j < |cs| ==> cs[j].Value() == vals[j]
    modifies cs
    ensures forall j :: 0 <= j < |cs| ==> cs[j].Value() == Mark(vals[j])
    ensures Filed(cm, Group(vals))
    ensures forall t, j :: t in cm && 0 <= j < |cm[t]| ==> cm[t][j] in cs
  {
    ghost var ts := Types(vals);
    cm := map[];
    for i := 0 to |cs|
      invariant forall j :: 0 <= j < |cs| ==> cs[j].Value() == vals[j].(applied := cs[j].applied)
      invariant forall j :: 0 <= j < i ==> cs[j].applied
      invariant cm == GroupBy(cs[..i], ts[..i])
    {
      var c := cs[i];
      c.applied := true;
      cm := cm[c.typ := (if c.typ in cm then cm[c.typ] else []) + [c]];
      GroupBySnoc(cs, ts, i);
    }
    assert cs[..|cs|] == cs && ts[..|cs|] == ts;
    MarkedFiled(cs, vals, cm);
  }

  /** After the loop: every object carries its flagged value, and the map files them as `Group` does. */
  lemma MarkedFiled(cs: seq<Contest>, vals: seq<ContestValue>, cm: map<GameType, seq<Contest>>)
    requires |cs| == |vals|
    requires forall j :: 0 <= j < |cs| ==> cs[j].Value() == vals[j].(applied := cs[j].applied) && cs[j].applied
    requires cm == GroupBy(cs, Types(vals))
    ensures forall j :: 0 <= j < |cs| ==> cs[j].Value() == Mark(vals[j])
    ensures Filed(cm, Group(vals))
    ensures forall t, j :: t in cm && 0 <= j < |cm[t]| ==> cm[t][j] in cs
  {
    GroupByMembers(cs, Types(vals));
    forall j | 0 <= j < |cs|
      ensures cs[j].Value() == Mark(vals[j])
    {
    }
    GroupByFiled(cs, vals);
  }

  /** Appending `c` to its type's bucket files its value under that type. */
  lemma FiledAppend(cm: map<GameType, seq<Contest>>, g: Buckets, c: Contest)
    requires Filed(cm, g)
    ensures Filed(cm[c.typ := (if c.typ in cm then cm[c.typ] else []) + [c]],
                  g[c.typ := (if c.typ in g then g[c.typ] else []) + [c.Value()]])
  {
  }
}
