/**
 * `buildAssociationQuery` as written: it walks an ordered, possibly nested
 * parameter array and makes `innerJoin`, `andWhere` and `setParameter`
 * calls on a query builder, recursing when a value nested under an
 * association is itself an array.
 *
 * `Build` and its helpers say which calls a build makes; the method
 * `BuildAssociationQuery` makes them on a `QueryBuilder` and is proved to
 * make exactly those. The lemmas state what the calls are.
 */
module AssociationQuery {
  import opened QueryBuilding
  import opened EntityManagers

  /** What a build leaves behind: the calls made on the query builder, and
      the exception that ended the build, if any. Calls made before the
      exception stay made. */
  datatype Trace = Trace(ops: seq<Op>, error: Option<Error>)

  function Emitted(ops: seq<Op>): Trace
  {
    Trace(ops, None)
  }

  /** Running `next` after `first`: an exception in `first` skips `next`. */
  function Then(first: Trace, next: Trace): Trace
  {
    if first.error.Some? then first else Trace(first.ops + next.ops, next.error)
  }

  /** `str_replace(".", "", $s)` */
  function StripDots(s: string): (r: string)
    ensures '.' !in r
    ensures '.' !in s ==> r == s
    ensures |r| <= |s|
  {
    if s == [] then [] else (if s[0] == '.' then [] else [s[0]]) + StripDots(s[1..])
  }

  /** Stripping dots works piece by piece, so it keeps every other character in order. */
  lemma {:induction false} StripDotsAppend(a: string, b: string)
    ensures StripDots(a + b) == StripDots(a) + StripDots(b)
  {
    if a != [] {
      assert (a + b)[0] == a[0];
      assert (a + b)[1..] == a[1..] + b;
      StripDotsAppend(a[1..], b);
    } else {
      assert a + b == b;
    }
  }

  /** `_getEntityManager($connection)` then `getClassMetadata($assoc)`. */
  function Metadata(settings: Settings, assoc: EntityRef, connection: string): (r: Result<ClassMetadata>)
    ensures r.Success? <==>
      var name := EffectiveConnection(connection);
      name in settings.entityManagers && name in settings.ems && assoc in settings.ems[name].classes
    ensures r.Success? ==> r.value == settings.ems[EffectiveConnection(connection)].classes[assoc]
    ensures r.Failure? ==>
      var name := EffectiveConnection(connection);
      r.error == if name !in settings.entityManagers then InvalidEntityManager(name)
                 else if name !in settings.ems then ManagerNotRetrieved(name)
                 else UnknownEntityMetadata(assoc)
  {
    match GetEntityManager(settings, connection)
    case Failure(e) => Failure(e)
    case Success(None) => Failure(ManagerNotRetrieved(EffectiveConnection(connection)))
    case Success(Some(em)) => ClassMetadataFor(em, assoc)
  }

  /** The calls of the generic branch for one key. They name the root
      alias `s`, whatever alias the build was given. */
  function GenericOps(key: string, val: Value): (ops: seq<Op>)
    ensures |ops| == if val.Null? then 1 else 2
    ensures ops[0].AndWhere? && "s." <= ops[0].condition
    ensures !val.Null? ==> ops[1].SetParameter? && ops[1].value == val && '.' !in ops[1].name
    ensures forall op :: op in ops ==> !op.InnerJoin?
  {
    if val.Null? then [AndWhere("s." + key + " IS NULL")]
    else
      var name := StripDots("s_" + key);
      [AndWhere("s." + key + " = :" + name), SetParameter(name, val)]
  }

  lemma GenericOpsCounts(key: string, val: Value)
    ensures CountWheres(GenericOps(key, val)) == 1
    ensures CountParameters(GenericOps(key, val)) == (if val.Null? then 0 else 1)
    ensures CountJoins(GenericOps(key, val)) == 0
  {
    var g := GenericOps(key, val);
    assert g[..1][..0] == [];
    assert CountJoins(g[..1]) == CountJoins(g[..1][..0]) + 0;
    if !val.Null? {
      assert g[..|g| - 1] == g[..1];
      assert CountWheres(g[..1]) == 1 && CountParameters(g[..1]) == 0 && CountJoins(g[..1]) == 0;
    }
  }

  /** `$key . '__' . $column` */
  function NestedParamName(key: string, column: string): string
  {
    key + "__" + column
  }

  /** The calls for a non-array value nested under a joined association. */
  function NestedOps(key: string, column: string, v: Value): (ops: seq<Op>)
    ensures |ops| == 2 && ops[0].AndWhere? && ops[1].SetParameter?
    ensures ops[1].value == v && ops[1].name == key + "__" + column
    ensures ops[0].condition == key + "." + column + " = :" + ops[1].name
  {
    var name := NestedParamName(key, column);
    [AndWhere(key + "." + column + " = :" + name), SetParameter(name, v)]
  }

  /** A key takes the join branch: it is an association and its value an array. */
  predicate TakesJoin(md: ClassMetadata, e: Entry)
  {
    IsAssociation(md, e.key) && e.value.Map?
  }

  /** `buildAssociationQuery($qb, $assoc, $alias, $params, $connection)` */
  function Build(settings: Settings, assoc: EntityRef, alias: string, params: seq<Entry>, connection: string): Trace
    decreases params, 2
  {
    match Metadata(settings, assoc, connection)
    case Failure(e) => Trace([], Some(e))
    case Success(md) => Entries(settings, md, alias, params, connection)
  }

  /** The `foreach` over `$params`, one key after the other. */
  function Entries(settings: Settings, md: ClassMetadata, alias: string, params: seq<Entry>, connection: string): Trace
    decreases params, 1
  {
    if params == [] then Emitted([])
    else
      Then(Entries(settings, md, alias, params[..|params| - 1], connection),
           KeyTrace(settings, md, alias, params[|params| - 1], connection))
  }

  /** The body of the outer `foreach` for one key. */
  function KeyTrace(settings: Settings, md: ClassMetadata, alias: string, e: Entry, connection: string): Trace
    decreases e, 0
  {
    if TakesJoin(md, e) then
      Then(Emitted([InnerJoin(alias + "." + e.key, e.key)]), Nested(settings, e.key, e.value.entries, connection))
    else
      Emitted(GenericOps(e.key, e.value))
  }

  /** The inner `foreach` over the array nested under the joined key `key`.
      A nested array is handed whole to a recursive build whose alias is the
      nested column name and whose entity is `$map['targetEntity']`, where
      `$map` is the boolean `true`: PHP reads `null` there. */
  function Nested(settings: Settings, key: string, entries: seq<Entry>, connection: string): Trace
    decreases entries, 0
  {
    if entries == [] then Emitted([])
    else
      var c := entries[|entries| - 1];
      Then(Nested(settings, key, entries[..|entries| - 1], connection),
           if c.value.Map? then Build(settings, NullEntity, c.key, c.value.entries, connection)
           else Emitted(NestedOps(key, c.key, c.value)))
  }

  // ---------------------------------------------------------------------
  // The builder on a query builder object
  // ---------------------------------------------------------------------

  /** `buildAssociationQuery` making its calls on `qb`. It returns the
      exception that ended it, if any; the calls made before it stay in `qb`. */
  method BuildAssociationQuery(qb: QueryBuilder, settings: Settings, assoc: EntityRef, alias: string,
                               params: seq<Entry>, connection: string)
    returns (error: Option<Error>)
    modifies qb
    ensures qb.ops == old(qb.ops) + Build(settings, assoc, alias, params, connection).ops
    ensures error == Build(settings, assoc, alias, params, connection).error
    decreases params, 2
  {
    var data := Metadata(settings, assoc, connection);
    BuildStartsWithLookup(settings, assoc, alias, params, connection);
    if data.Failure? {
      return Some(data.error);
    }
    error := AddKeys(qb, settings, data.value, alias, params, connection);
  }

  /** The outer `foreach` of `buildAssociationQuery`, once the metadata
      `md` of the entity is known, making its calls on `qb`. */
  method AddKeys(qb: QueryBuilder, settings: Settings, md: ClassMetadata, alias: string, params: seq<Entry>,
                 connection: string)
    returns (error: Option<Error>)
    modifies qb
    ensures qb.ops == old(qb.ops) + Entries(settings, md, alias, params, connection).ops
    ensures error == Entries(settings, md, alias, params, connection).error
    decreases params, 1
  {
    ghost var start := qb.ops;
    for i := 0 to |params|
      invariant Entries(settings, md, alias, params[..i], connection).error == None
      invariant qb.ops == start + Entries(settings, md, alias, params[..i], connection).ops
    {
      EntriesStep(settings, md, alias, params, i, connection);
      var err := AddKey(qb, settings, md, alias, params[i], connection);
      ghost var sofar := Entries(settings, md, alias, params[..i + 1], connection);
      assert qb.ops == start + sofar.ops && err == sofar.error;
      if err.Some? {
        EntriesStopAtError(settings, md, alias, params, i + 1, connection);
        return err;
      }
    }
    assert params[..|params|] == params;
    return None;
  }

  /** The body of the outer `foreach` of `buildAssociationQuery` for one key,
      making its calls on `qb`. */
  method AddKey(qb: QueryBuilder, settings: Settings, md: ClassMetadata, alias: string, e: Entry, connection: string)
    returns (error: Option<Error>)
    modifies qb
    ensures qb.ops == old(qb.ops) + KeyTrace(settings, md, alias, e, connection).ops
    ensures error == KeyTrace(settings, md, alias, e, connection).error
    decreases e
  {
    var key, val := e.key, e.value;
    if md.associationMappings.Some? {
      if key in md.associationMappings.value {
        if val.Map? {
          qb.InnerJoin(alias + "." + key, key);
          error := JoinNested(qb, settings, key, val.entries, connection);
          return;
        }
      }
    }
    if val.Null? {
      qb.AndWhere("s." + key + " IS NULL");
    } else {
      var paramName := StripDots("s_" + key);
      qb.AndWhere("s." + key + " = :" + paramName);
      qb.SetParameter(paramName, val);
    }
    return None;
  }

  /** The inner `foreach` of `buildAssociationQuery`, over the array nested
      under the joined key `key`, making its calls on `qb`. */
  method JoinNested(qb: QueryBuilder, settings: Settings, key: string, entries: seq<Entry>, connection: string)
    returns (error: Option<Error>)
    modifies qb
    ensures qb.ops == old(qb.ops) + Nested(settings, key, entries, connection).ops
    ensures error == Nested(settings, key, entries, connection).error
    decreases entries
  {
    ghost var start := qb.ops;
    for j := 0 to |entries|
      invariant Nested(settings, key, entries[..j], connection).error == None
      invariant qb.ops == start + Nested(settings, key, entries[..j], connection).ops
    {
      var column, v := entries[j].key, entries[j].value;
      assert entries[..j + 1][..j] == entries[..j];
      ghost var sofar := Nested(settings, key, entries[..j + 1], connection);
      if v.Map? {
        var err := BuildAssociationQuery(qb, settings, NullEntity, column, v.entries, connection);
        assert qb.ops == start + (Nested(settings, key, entries[..j], connection).ops
                                  + Build(settings, NullEntity, column, v.entries, connection).ops);
        assert qb.ops == start + sofar.ops && err == sofar.error;
        if err.Some? {
          NestedStopsAtError(settings, key, entries, j + 1, connection);
          assert Nested(settings, key, entries, connection) == sofar;
          return err;
        }
        continue;
      }
      var paramName := key + "__" + column;
      qb.AndWhere(key + "." + column + " = :" + paramName);
      qb.SetParameter(paramName, v);
    }
    assert entries[..|entries|] == entries;
    return None;
  }

  /** A build first looks the entity up; only then does it walk the keys. */
  lemma BuildStartsWithLookup(settings: Settings, assoc: EntityRef, alias: string, params: seq<Entry>,
                              connection: string)
    ensures var m := Metadata(settings, assoc, connection);
      Build(settings, assoc, alias, params, connection)
      == if m.Failure? then Trace([], Some(m.error)) else Entries(settings, m.value, alias, params, connection)
  {
  }

  /** One more key is one more run of the loop body. */
  lemma EntriesStep(settings: Settings, md: ClassMetadata, alias: string, params: seq<Entry>, i: nat, connection: string)
    requires i < |params|
    ensures Entries(settings, md, alias, params[..i + 1], connection)
         == Then(Entries(settings, md, alias, params[..i], connection), KeyTrace(settings, md, alias, params[i], connection))
  {
    assert params[..i + 1][..i] == params[..i];
  }

  /** An exception in the first `k` keys ends the build there. */
  lemma {:induction false} EntriesStopAtError(settings: Settings, md: ClassMetadata, alias: string,
                                              params: seq<Entry>, k: nat, connection: string)
    requires k <= |params|
    requires Entries(settings, md, alias, params[..k], connection).error.Some?
    ensures Entries(settings, md, alias, params, connection) == Entries(settings, md, alias, params[..k], connection)
    decreases |params|
  {
    if k == |params| {
      assert params[..k] == params;
    } else {
      var init := params[..|params| - 1];
      assert init[..k] == params[..k];
      EntriesStopAtError(settings, md, alias, init, k, connection);
    }
  }

  /** An exception in the first `k` nested entries ends the inner loop there. */
  lemma {:induction false} NestedStopsAtError(settings: Settings, key: string, entries: seq<Entry>, k: nat,
                                              connection: string)
    requires k <= |entries|
    requires Nested(settings, key, entries[..k], connection).error.Some?
    ensures Nested(settings, key, entries, connection) == Nested(settings, key, entries[..k], connection)
    decreases |entries|
  {
    if k == |entries| {
      assert entries[..k] == entries;
    } else {
      var init := entries[..|entries| - 1];
      assert init[..k] == entries[..k];
      NestedStopsAtError(settings, key, init, k, connection);
    }
  }

  // ---------------------------------------------------------------------
  // What the calls are
  // ---------------------------------------------------------------------

  lemma ThenAssociative(a: Trace, b: Trace, c: Trace)
    ensures Then(Then(a, b), c) == Then(a, Then(b, c))
  {
    if a.error == None && b.error == None {
      assert (a.ops + b.ops) + c.ops == a.ops + (b.ops + c.ops);
    }
  }

  /** A one-key array is handled by the body of the loop once. */
  lemma EntriesSingleton(settings: Settings, md: ClassMetadata, alias: string, e: Entry, connection: string)
    ensures Entries(settings, md, alias, [e], connection) == KeyTrace(settings, md, alias, e, connection)
  {
    assert [e][..0] == [];
    var k := KeyTrace(settings, md, alias, e, connection);
    assert [] + k.ops == k.ops;
  }

  /** An empty parameter array makes no call; only the lookups can fail. */
  lemma EmptyParamsMakeNoCalls(settings: Settings, assoc: EntityRef, alias: string, connection: string)
    ensures Build(settings, assoc, alias, [], connection).ops == []
    ensures Build(settings, assoc, alias, [], connection).error == None <==> Metadata(settings, assoc, connection).Success?
  {
  }

  /** Keys are handled in the array's order: building `p1 + p2` is building
      `p1` and then `p2`. */
  lemma {:induction false} EntriesAppend(settings: Settings, md: ClassMetadata, alias: string,
                                         p1: seq<Entry>, p2: seq<Entry>, connection: string)
    ensures Entries(settings, md, alias, p1 + p2, connection)
         == Then(Entries(settings, md, alias, p1, connection), Entries(settings, md, alias, p2, connection))
    decreases |p2|
  {
    if p2 == [] {
      assert p1 + p2 == p1;
      var t := Entries(settings, md, alias, p1, connection);
      assert t.ops + [] == t.ops;
    } else {
      var init := p2[..|p2| - 1];
      var last := p2[|p2| - 1];
      assert (p1 + p2)[..|p1 + p2| - 1] == p1 + init;
      assert (p1 + p2)[|p1 + p2| - 1] == last;
      EntriesAppend(settings, md, alias, p1, init, connection);
      ThenAssociative(Entries(settings, md, alias, p1, connection),
                      Entries(settings, md, alias, init, connection),
                      KeyTrace(settings, md, alias, last, connection));
    }
  }

  /** Nested entries are handled in the array's order: the inner loop over
      `a + b` is the inner loop over `a`, then over `b`. */
  lemma {:induction false} NestedAppend(settings: Settings, key: string, a: seq<Entry>, b: seq<Entry>,
                                        connection: string)
    ensures Nested(settings, key, a + b, connection)
         == Then(Nested(settings, key, a, connection), Nested(settings, key, b, connection))
    decreases |b|
  {
    if b == [] {
      assert a + b == a;
      var t := Nested(settings, key, a, connection);
      assert t.ops + [] == t.ops;
    } else {
      var init := b[..|b| - 1];
      var c := b[|b| - 1];
      assert (a + b)[..|a + b| - 1] == a + init;
      assert (a + b)[|a + b| - 1] == c;
      NestedAppend(settings, key, a, init, connection);
      ThenAssociative(Nested(settings, key, a, connection),
                      Nested(settings, key, init, connection),
                      if c.value.Map? then Build(settings, NullEntity, c.key, c.value.entries, connection)
                      else Emitted(NestedOps(key, c.key, c.value)));
    }
  }

  /** A nested array anywhere among the nested entries contributes exactly the
      recursive build for the `null` entity, at alias = its column, with the
      whole nested array, and no predicate of its own; the entries around it
      are handled before and after it. */
  lemma NestedArrayAmong(settings: Settings, key: string, before: seq<Entry>, column: string, inner: seq<Entry>,
                         after: seq<Entry>, connection: string)
    ensures Nested(settings, key, before + [Entry(column, Map(inner))] + after, connection)
         == Then(Then(Nested(settings, key, before, connection), Build(settings, NullEntity, column, inner, connection)),
                 Nested(settings, key, after, connection))
  {
    var c := Entry(column, Map(inner));
    NestedAppend(settings, key, before + [c], after, connection);
    NestedAppend(settings, key, before, [c], connection);
    assert [c][..0] == [];
    var b := Build(settings, NullEntity, column, inner, connection);
    assert Nested(settings, key, [c], connection) == Trace([] + b.ops, b.error);
    assert [] + b.ops == b.ops;
  }

  /** A key that is no association, or whose metadata has no association
      mappings, with a `null` value: one `IS NULL` predicate on the root
      alias and no parameter. */
  lemma GenericNull(settings: Settings, md: ClassMetadata, alias: string, key: string, connection: string)
    requires !IsAssociation(md, key)
    ensures Entries(settings, md, alias, [Entry(key, Null)], connection) == Emitted([AndWhere("s." + key + " IS NULL")])
  {
    EntriesSingleton(settings, md, alias, Entry(key, Null), connection);
  }

  /** A non-null value outside the join branch (no association, or an
      association whose value is no array): an equality predicate on the
      root alias, whatever `alias` is, bound to a parameter named `s_` and
      the key without its dots. */
  lemma GenericValue(settings: Settings, md: ClassMetadata, alias: string, key: string, val: Value, connection: string)
    requires !IsAssociation(md, key) || !val.Map?
    requires !val.Null?
    ensures var name := "s_" + StripDots(key);
      && '.' !in name
      && Entries(settings, md, alias, [Entry(key, val)], connection)
         == Emitted([AndWhere("s." + key + " = :" + name), SetParameter(name, val)])
  {
    StripDotsAppend("s_", key);
    EntriesSingleton(settings, md, alias, Entry(key, val), connection);
  }

  /** An association key with a non-array value makes no join. */
  lemma AssociationScalarMakesNoJoin(settings: Settings, md: ClassMetadata, alias: string, key: string, val: Value,
                                     connection: string)
    requires IsAssociation(md, key) && !val.Map?
    ensures Entries(settings, md, alias, [Entry(key, val)], connection) == Emitted(GenericOps(key, val))
    ensures CountJoins(Entries(settings, md, alias, [Entry(key, val)], connection).ops) == 0
  {
    EntriesSingleton(settings, md, alias, Entry(key, val), connection);
    GenericOpsCounts(key, val);
  }

  /** Number of entries whose value is not `null`. */
  function NonNullCount(params: seq<Entry>): nat
  {
    if params == [] then 0
    else NonNullCount(params[..|params| - 1]) + (if params[|params| - 1].value.Null? then 0 else 1)
  }

  /** Without a join, every key makes exactly one predicate, every non-null
      value exactly one parameter, no parameter name holds a dot, and nothing fails. */
  lemma {:induction false} GenericKeysShape(settings: Settings, md: ClassMetadata, alias: string,
                                            params: seq<Entry>, connection: string)
    requires forall i :: 0 <= i < |params| ==> !TakesJoin(md, params[i])
    ensures var t := Entries(settings, md, alias, params, connection);
      && t.error == None
      && CountWheres(t.ops) == |params|
      && CountParameters(t.ops) == NonNullCount(params)
      && CountJoins(t.ops) == 0
      && forall op :: op in t.ops && op.SetParameter? ==> '.' !in op.name
  {
    if params != [] {
      var init := params[..|params| - 1];
      var last := params[|params| - 1];
      GenericKeysShape(settings, md, alias, init, connection);
      var t0 := Entries(settings, md, alias, init, connection);
      var g := GenericOps(last.key, last.value);
      CountsAppend(t0.ops, g);
      GenericOpsCounts(last.key, last.value);
    }
  }

  /** `op` joins `<alias>.<a>` as `<a>`: a join made from the alias `alias`. */
  predicate JoinFrom(op: Op, alias: string)
  {
    op.InnerJoin? && op.join == alias + "." + op.alias
  }

  /** The alias reaches only the paths of the joins it makes: building at
      `alias1` and at `alias2` makes the same calls, except joins of `<alias1>.<a>`
      against joins of `<alias2>.<a>`, both as `<a>`. */
  ghost predicate SameButJoinPaths(t1: Trace, t2: Trace, alias1: string, alias2: string)
  {
    && t1.error == t2.error
    && |t1.ops| == |t2.ops|
    && forall k :: 0 <= k < |t1.ops| ==>
         || t1.ops[k] == t2.ops[k]
         || (JoinFrom(t1.ops[k], alias1) && JoinFrom(t2.ops[k], alias2) && t1.ops[k].alias == t2.ops[k].alias)
  }

  lemma ThenKeepsSameButJoinPaths(a1: Trace, a2: Trace, b1: Trace, b2: Trace, alias1: string, alias2: string)
    requires SameButJoinPaths(a1, a2, alias1, alias2) && SameButJoinPaths(b1, b2, alias1, alias2)
    ensures SameButJoinPaths(Then(a1, b1), Then(a2, b2), alias1, alias2)
  {
    if a1.error == None {
      var o1, o2 := a1.ops + b1.ops, a2.ops + b2.ops;
      forall k | 0 <= k < |o1|
        ensures || o1[k] == o2[k]
                || (JoinFrom(o1[k], alias1) && JoinFrom(o2[k], alias2) && o1[k].alias == o2[k].alias)
      {
        if k >= |a1.ops| {
          assert o1[k] == b1.ops[k - |a1.ops|] && o2[k] == b2.ops[k - |a1.ops|];
        }
      }
    }
  }

  lemma {:induction false} AliasOnlyInJoinPaths(settings: Settings, md: ClassMetadata, alias1: string, alias2: string,
                                                params: seq<Entry>, connection: string)
    ensures SameButJoinPaths(Entries(settings, md, alias1, params, connection),
                             Entries(settings, md, alias2, params, connection), alias1, alias2)
  {
    if params != [] {
      var init := params[..|params| - 1];
      var e := params[|params| - 1];
      AliasOnlyInJoinPaths(settings, md, alias1, alias2, init, connection);
      var k1 := KeyTrace(settings, md, alias1, e, connection);
      var k2 := KeyTrace(settings, md, alias2, e, connection);
      if TakesJoin(md, e) {
        var n := Nested(settings, e.key, e.value.entries, connection);
        ThenKeepsSameButJoinPaths(Emitted([InnerJoin(alias1 + "." + e.key, e.key)]),
                                  Emitted([InnerJoin(alias2 + "." + e.key, e.key)]), n, n, alias1, alias2);
      }
      ThenKeepsSameButJoinPaths(Entries(settings, md, alias1, init, connection),
                                Entries(settings, md, alias2, init, connection), k1, k2, alias1, alias2);
    }
  }

  /** Without a join the alias makes no difference at all. */
  lemma {:induction false} GenericKeysIgnoreAlias(settings: Settings, md: ClassMetadata, alias1: string, alias2: string,
                                                  params: seq<Entry>, connection: string)
    requires forall i :: 0 <= i < |params| ==> !TakesJoin(md, params[i])
    ensures Entries(settings, md, alias1, params, connection) == Entries(settings, md, alias2, params, connection)
  {
    if params != [] {
      GenericKeysIgnoreAlias(settings, md, alias1, alias2, params[..|params| - 1], connection);
    }
  }

  /** Each key that completes makes at least one call: its join or its predicate. */
  lemma {:induction false} EveryKeyMakesACall(settings: Settings, md: ClassMetadata, alias: string,
                                              params: seq<Entry>, connection: string)
    requires Entries(settings, md, alias, params, connection).error == None
    ensures |Entries(settings, md, alias, params, connection).ops| >= |params|
  {
    if params != [] {
      var init := params[..|params| - 1];
      assert Entries(settings, md, alias, init, connection).error == None;
      EveryKeyMakesACall(settings, md, alias, init, connection);
    }
  }

  /** The inner loop over non-array values: two calls per nested entry, an
      equality predicate on the joined alias and its parameter. */
  lemma {:induction false} FlatNestedShape(settings: Settings, key: string, entries: seq<Entry>, connection: string)
    requires forall j :: 0 <= j < |entries| ==> !entries[j].value.Map?
    ensures var t := Nested(settings, key, entries, connection);
      && t.error == None
      && |t.ops| == 2 * |entries|
      && forall j :: 0 <= j < |entries| ==>
           && t.ops[2 * j] == AndWhere(key + "." + entries[j].key + " = :" + key + "__" + entries[j].key)
           && t.ops[2 * j + 1] == SetParameter(key + "__" + entries[j].key, entries[j].value)
  {
    if entries != [] {
      var init := entries[..|entries| - 1];
      FlatNestedShape(settings, key, init, connection);
      var t0 := Nested(settings, key, init, connection);
      var c := entries[|entries| - 1];
      var t := Nested(settings, key, entries, connection);
      assert t.ops == t0.ops + NestedOps(key, c.key, c.value);
      forall j | 0 <= j < |entries|
        ensures t.ops[2 * j] == AndWhere(key + "." + entries[j].key + " = :" + key + "__" + entries[j].key)
        ensures t.ops[2 * j + 1] == SetParameter(key + "__" + entries[j].key, entries[j].value)
      {
        if j < |init| {
          assert entries[j] == init[j];
        }
      }
    }
  }

  /** An association key with an array value: its join, then the inner loop. */
  lemma JoinedKey(settings: Settings, md: ClassMetadata, alias: string, key: string, entries: seq<Entry>,
                  connection: string)
    requires IsAssociation(md, key)
    ensures Entries(settings, md, alias, [Entry(key, Map(entries))], connection)
         == Then(Emitted([InnerJoin(alias + "." + key, key)]), Nested(settings, key, entries, connection))
  {
    EntriesSingleton(settings, md, alias, Entry(key, Map(entries)), connection);
  }

  /** An association key with an array of non-array values: one join of
      `<alias>.<key>` as `<key>`, then a predicate and a parameter per
      nested entry, a nested `null` included (an equality, never `IS NULL`). */
  lemma FlatJoinShape(settings: Settings, md: ClassMetadata, alias: string, key: string, entries: seq<Entry>,
                      connection: string)
    requires IsAssociation(md, key)
    requires forall j :: 0 <= j < |entries| ==> !entries[j].value.Map?
    ensures var t := Entries(settings, md, alias, [Entry(key, Map(entries))], connection);
      && t.error == None
      && |t.ops| == 1 + 2 * |entries|
      && t.ops[0] == InnerJoin(alias + "." + key, key)
      && forall j :: 0 <= j < |entries| ==>
           && t.ops[1 + 2 * j] == AndWhere(key + "." + entries[j].key + " = :" + key + "__" + entries[j].key)
           && t.ops[2 + 2 * j] == SetParameter(key + "__" + entries[j].key, entries[j].value)
  {
    FlatNestedShape(settings, key, entries, connection);
    var n := Nested(settings, key, entries, connection);
    var t := Entries(settings, md, alias, [Entry(key, Map(entries))], connection);
    JoinedKey(settings, md, alias, key, entries, connection);
    assert t.ops == [InnerJoin(alias + "." + key, key)] + n.ops;
    forall j | 0 <= j < |entries|
      ensures t.ops[1 + 2 * j] == n.ops[2 * j] && t.ops[2 + 2 * j] == n.ops[2 * j + 1]
    {
    }
  }

  /** A nested `null` gets an equality predicate and a `null` parameter. */
  lemma NestedNullIsEquality(settings: Settings, md: ClassMetadata, alias: string, key: string, column: string,
                             connection: string)
    requires IsAssociation(md, key)
    ensures Entries(settings, md, alias, [Entry(key, Map([Entry(column, Null)]))], connection)
         == Emitted([InnerJoin(alias + "." + key, key),
                     AndWhere(key + "." + column + " = :" + key + "__" + column),
                     SetParameter(key + "__" + column, Null)])
  {
    EntriesSingleton(settings, md, alias, Entry(key, Map([Entry(column, Null)])), connection);
    assert [Entry(column, Null)][..0] == [];
    var name := key + "__" + column;
    assert name == NestedParamName(key, column);
    assert key + "." + column + " = :" + name == key + "." + column + " = :" + key + "__" + column;
    var n := Nested(settings, key, [Entry(column, Null)], connection);
    assert Nested(settings, key, [], connection) == Emitted([]);
    assert Nested(settings, key, [Entry(column, Null)][..0], connection) == Emitted([]);
    assert n == Then(Emitted([]), Emitted(NestedOps(key, column, Null)));
    assert n == Emitted(NestedOps(key, column, Null));
    assert KeyTrace(settings, md, alias, Entry(key, Map([Entry(column, Null)])), connection)
        == Then(Emitted([InnerJoin(alias + "." + key, key)]), n);
  }

  /** A nested array under a joined key makes no predicate of its own: after
      the join, it is a build of the whole nested array at alias `column`
      for the `null` entity. */
  lemma NestedArrayRecurses(settings: Settings, md: ClassMetadata, alias: string, key: string, column: string,
                            inner: seq<Entry>, connection: string)
    requires IsAssociation(md, key)
    ensures Entries(settings, md, alias, [Entry(key, Map([Entry(column, Map(inner))]))], connection)
         == Then(Emitted([InnerJoin(alias + "." + key, key)]), Build(settings, NullEntity, column, inner, connection))
  {
    var entries := [Entry(column, Map(inner))];
    EntriesSingleton(settings, md, alias, Entry(key, Map(entries)), connection);
    assert entries[..0] == [];
    var b := Build(settings, NullEntity, column, inner, connection);
    assert Nested(settings, key, entries, connection) == Trace([] + b.ops, b.error);
    assert [] + b.ops == b.ops;
  }
  /** The same for a nested array among other nested entries, such as
      `[key => [name => 'x', column => [...]]]`: the join, the entries before
      it, the recursive build, then the entries after it. */
  lemma NestedArrayAmongEntries(settings: Settings, md: ClassMetadata, alias: string, key: string,
                                before: seq<Entry>, column: string, inner: seq<Entry>, after: seq<Entry>,
                                connection: string)
    requires IsAssociation(md, key)
    ensures Entries(settings, md, alias, [Entry(key, Map(before + [Entry(column, Map(inner))] + after))], connection)
         == Then(Emitted([InnerJoin(alias + "." + key, key)]),
                 Then(Then(Nested(settings, key, before, connection), Build(settings, NullEntity, column, inner, connection)),
                      Nested(settings, key, after, connection)))
  {
    JoinedKey(settings, md, alias, key, before + [Entry(column, Map(inner))] + after, connection);
    NestedArrayAmong(settings, key, before, column, inner, after, connection);
  }


  /** Exceptions come only from the lookups: an unknown connection or entity
      at the start (before any call), or the `null` entity's metadata in a
      recursive call (after the calls already made). */
  lemma {:induction false} BuildFailsOnlyInLookups(settings: Settings, assoc: EntityRef, alias: string,
                                                   params: seq<Entry>, connection: string)
    ensures var t := Build(settings, assoc, alias, params, connection);
      t.error.Some? ==>
        || (Metadata(settings, assoc, connection).Failure? && t.ops == []
            && t.error == Some(Metadata(settings, assoc, connection).error))
        || (Metadata(settings, NullEntity, connection).Failure?
            && t.error == Some(Metadata(settings, NullEntity, connection).error))
    decreases params, 2
  {
    var m := Metadata(settings, assoc, connection);
    if m.Success? {
      EntriesFailOnlyInLookups(settings, m.value, alias, params, connection);
    }
  }

  lemma {:induction false} EntriesFailOnlyInLookups(settings: Settings, md: ClassMetadata, alias: string,
                                                    params: seq<Entry>, connection: string)
    ensures var t := Entries(settings, md, alias, params, connection);
      t.error.Some? ==>
        Metadata(settings, NullEntity, connection).Failure? && t.error == Some(Metadata(settings, NullEntity, connection).error)
    decreases params, 1
  {
    if params != [] {
      var e := params[|params| - 1];
      EntriesFailOnlyInLookups(settings, md, alias, params[..|params| - 1], connection);
      if TakesJoin(md, e) {
        NestedFailsOnlyInLookups(settings, e.key, e.value.entries, connection);
      }
    }
  }

  lemma {:induction false} NestedFailsOnlyInLookups(settings: Settings, key: string, entries: seq<Entry>,
                                                    connection: string)
    ensures var t := Nested(settings, key, entries, connection);
      t.error.Some? ==>
        Metadata(settings, NullEntity, connection).Failure? && t.error == Some(Metadata(settings, NullEntity, connection).error)
    decreases entries, 0
  {
    if entries != [] {
      var c := entries[|entries| - 1];
      NestedFailsOnlyInLookups(settings, key, entries[..|entries| - 1], connection);
      if c.value.Map? {
        BuildFailsOnlyInLookups(settings, NullEntity, c.key, c.value.entries, connection);
      }
    }
  }

  /** When the `null` entity has no metadata, a nested array under a joined
      key ends the build with that exception, after the calls of the keys
      before it and the join: the query builder is left partly built. */
  lemma NestedArrayFailsAfterJoin(settings: Settings, md: ClassMetadata, alias: string, before: seq<Entry>,
                                  key: string, column: string, inner: seq<Entry>, connection: string)
    requires IsAssociation(md, key)
    requires Entries(settings, md, alias, before, connection).error == None
    requires Metadata(settings, NullEntity, connection).Failure?
    ensures var t := Entries(settings, md, alias, before + [Entry(key, Map([Entry(column, Map(inner))]))], connection);
      && t.ops == Entries(settings, md, alias, before, connection).ops + [InnerJoin(alias + "." + key, key)]
      && t.error == Some(Metadata(settings, NullEntity, connection).error)
  {
    var e := Entry(key, Map([Entry(column, Map(inner))]));
    assert (before + [e])[..|before + [e]| - 1] == before;
    NestedArrayRecurses(settings, md, alias, key, column, inner, connection);
    assert [InnerJoin(alias + "." + key, key)] + [] == [InnerJoin(alias + "." + key, key)];
    assert KeyTrace(settings, md, alias, e, connection)
        == Trace([InnerJoin(alias + "." + key, key)], Some(Metadata(settings, NullEntity, connection).error));
  }
}
