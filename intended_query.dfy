/**
 * The association query builder as its documentation ("you can use entity
 * associations to build complex queries") and its own recursion evidently
 * mean it: a nested array under a joined association is followed to the
 * association's target entity, through the alias of the join, and the
 * generic branch qualifies its predicate by the alias it was given.
 *
 * Three things change against `AssociationQuery`: the recursive call looks
 * the target entity up in the association mapping (instead of reading
 * `targetEntity` from a boolean), it receives the joined key as its alias
 * and only the one nested entry as its parameters, and the generic branch
 * writes the given alias instead of `s`.
 */
module IntendedAssociationQuery {
  import opened QueryBuilding
  import opened EntityManagers
  import AQ = AssociationQuery

  /** The generic branch at alias `alias`. */
  function GenericOps(alias: string, key: string, val: Value): (ops: seq<Op>)
    ensures |ops| == if val.Null? then 1 else 2
    ensures ops[0].AndWhere? && alias + "." <= ops[0].condition
    ensures !val.Null? ==> ops[1].SetParameter? && ops[1].value == val && '.' !in ops[1].name
  {
    if val.Null? then [AndWhere(alias + "." + key + " IS NULL")]
    else
      var name := AQ.StripDots(alias + "_" + key);
      [AndWhere(alias + "." + key + " = :" + name), SetParameter(name, val)]
  }

  /** `$data->associationMappings[$key]['targetEntity']` */
  function Target(md: ClassMetadata, key: string): EntityRef
    requires IsAssociation(md, key)
  {
    Entity(md.associationMappings.value[key])
  }

  function Build(settings: Settings, assoc: EntityRef, alias: string, params: seq<Entry>, connection: string): AQ.Trace
    decreases params, 2
  {
    match AQ.Metadata(settings, assoc, connection)
    case Failure(e) => AQ.Trace([], Some(e))
    case Success(md) => Entries(settings, md, alias, params, connection)
  }

  function Entries(settings: Settings, md: ClassMetadata, alias: string, params: seq<Entry>, connection: string): AQ.Trace
    decreases params, 1
  {
    if params == [] then AQ.Emitted([])
    else
      AQ.Then(Entries(settings, md, alias, params[..|params| - 1], connection),
              Key(settings, md, alias, params[|params| - 1], connection))
  }

  function Key(settings: Settings, md: ClassMetadata, alias: string, e: Entry, connection: string): AQ.Trace
    decreases e, 1
  {
    if AQ.TakesJoin(md, e) then
      AQ.Then(AQ.Emitted([InnerJoin(alias + "." + e.key, e.key)]),
              Nested(settings, Target(md, e.key), e.key, e.value.entries, connection))
    else
      AQ.Emitted(GenericOps(alias, e.key, e.value))
  }

  /** The inner loop under the joined key `key`, whose entity is `target`. */
  function Nested(settings: Settings, target: EntityRef, key: string, entries: seq<Entry>, connection: string): AQ.Trace
    decreases entries, 1
  {
    if entries == [] then AQ.Emitted([])
    else
      var c := entries[|entries| - 1];
      AQ.Then(Nested(settings, target, key, entries[..|entries| - 1], connection),
              if c.value.Map? then Step(settings, target, key, c, connection)
              else AQ.Emitted(AQ.NestedOps(key, c.key, c.value)))
  }

  /** The recursive call for one nested entry: a build of `[column => v]` for
      the target entity, at the alias of the join. */
  function Step(settings: Settings, target: EntityRef, alias: string, c: Entry, connection: string): AQ.Trace
    decreases c, 2
  {
    match AQ.Metadata(settings, target, connection)
    case Failure(e) => AQ.Trace([], Some(e))
    case Success(md) => Key(settings, md, alias, c, connection)
  }

  /** The recursive call is `buildAssociationQuery($qb, $target, $key, [$column => $v])`. */
  lemma StepIsBuild(settings: Settings, target: EntityRef, alias: string, c: Entry, connection: string)
    ensures Step(settings, target, alias, c, connection) == Build(settings, target, alias, [c], connection)
  {
    assert [c][..0] == [];
    var m := AQ.Metadata(settings, target, connection);
    if m.Success? {
      var k := Key(settings, m.value, alias, c, connection);
      assert Entries(settings, m.value, alias, [], connection) == AQ.Emitted([]);
      assert [] + k.ops == k.ops;
    }
  }

  /** Where the written code has no nested array under a join, the correction
      changes nothing: at the root alias `s` both make the same calls. */
  lemma {:induction false} AgreesWhereNothingNests(settings: Settings, md: ClassMetadata, params: seq<Entry>,
                                                   connection: string)
    requires forall i :: 0 <= i < |params| && AQ.TakesJoin(md, params[i]) ==>
               forall j :: 0 <= j < |params[i].value.entries| ==> !params[i].value.entries[j].value.Map?
    ensures Entries(settings, md, "s", params, connection) == AQ.Entries(settings, md, "s", params, connection)
  {
    if params != [] {
      var init := params[..|params| - 1];
      var e := params[|params| - 1];
      AgreesWhereNothingNests(settings, md, init, connection);
      if AQ.TakesJoin(md, e) {
        NestedAgreesWhenFlat(settings, Target(md, e.key), e.key, e.value.entries, connection);
      } else {
        assert "s" + "." + e.key == "s." + e.key;
        assert "s" + "_" + e.key == "s_" + e.key;
      }
    }
  }

  lemma {:induction false} NestedAgreesWhenFlat(settings: Settings, target: EntityRef, key: string, entries: seq<Entry>,
                                                connection: string)
    requires forall j :: 0 <= j < |entries| ==> !entries[j].value.Map?
    ensures Nested(settings, target, key, entries, connection) == AQ.Nested(settings, key, entries, connection)
  {
    if entries != [] {
      NestedAgreesWhenFlat(settings, target, key, entries[..|entries| - 1], connection);
    }
  }

  /** Two levels of associations: the nested array is joined from the first
      join's alias, and its values are compared on the second join's alias. */
  lemma ChainedJoin(settings: Settings, md: ClassMetadata, alias: string, key: string, column: string,
                    inner: seq<Entry>, connection: string)
    requires IsAssociation(md, key)
    requires AQ.Metadata(settings, Target(md, key), connection).Success?
    requires IsAssociation(AQ.Metadata(settings, Target(md, key), connection).value, column)
    requires forall j :: 0 <= j < |inner| ==> !inner[j].value.Map?
    ensures Entries(settings, md, alias, [Entry(key, Map([Entry(column, Map(inner))]))], connection)
         == AQ.Emitted([InnerJoin(alias + "." + key, key), InnerJoin(key + "." + column, column)]
                       + AQ.Nested(settings, column, inner, connection).ops)
  {
    var md2 := AQ.Metadata(settings, Target(md, key), connection).value;
    var c := Entry(column, Map(inner));
    NestedAgreesWhenFlat(settings, Target(md2, column), column, inner, connection);
    AQ.FlatNestedShape(settings, column, inner, connection);
    var n := AQ.Nested(settings, column, inner, connection);
    assert Step(settings, Target(md, key), key, c, connection)
        == AQ.Emitted([InnerJoin(key + "." + column, column)] + n.ops);
    assert [c][..0] == [];
    var e := Entry(key, Map([c]));
    assert [e][..0] == [];
    assert Nested(settings, Target(md, key), key, [c], connection)
        == AQ.Emitted([] + ([InnerJoin(key + "." + column, column)] + n.ops));
    assert [] + ([InnerJoin(key + "." + column, column)] + n.ops) == [InnerJoin(key + "." + column, column)] + n.ops;
    assert [InnerJoin(alias + "." + key, key)] + ([InnerJoin(key + "." + column, column)] + n.ops)
        == [InnerJoin(alias + "." + key, key), InnerJoin(key + "." + column, column)] + n.ops;
    var k := Key(settings, md, alias, e, connection);
    assert [] + k.ops == k.ops;
  }

  // ---------------------------------------------------------------------
  // Two levels of associations, e.g. posts, their author, the author's
  // address: `[key => [column => [leaf => v]]]`
  // ---------------------------------------------------------------------

  /** The parameter array of two nested associations ending in one value. */
  function TwoLevels(key: string, column: string, leaf: string, v: Value): seq<Entry>
  {
    [Entry(key, Map([Entry(column, Map([Entry(leaf, v)]))]))]
  }

  /** One non-array entry under a join: its predicate and its parameter. */
  lemma SingleNestedValue(settings: Settings, key: string, column: string, v: Value, connection: string)
    requires !v.Map?
    ensures AQ.Nested(settings, key, [Entry(column, v)], connection)
         == AQ.Emitted([AndWhere(key + "." + column + " = :" + key + "__" + column), SetParameter(key + "__" + column, v)])
  {
    AQ.FlatNestedShape(settings, key, [Entry(column, v)], connection);
    var n := AQ.Nested(settings, key, [Entry(column, v)], connection);
    assert n.ops == [n.ops[0], n.ops[1]];
  }

  /** The corrected builder joins both associations, the second from the
      alias of the first, and compares the value on the second join's alias. */
  lemma IntendedTwoLevels(settings: Settings, assoc: EntityRef, key: string, column: string, leaf: string, v: Value,
                          connection: string)
    requires AQ.Metadata(settings, assoc, connection).Success?
    requires IsAssociation(AQ.Metadata(settings, assoc, connection).value, key)
    requires AQ.Metadata(settings, Target(AQ.Metadata(settings, assoc, connection).value, key), connection).Success?
    requires IsAssociation(AQ.Metadata(settings, Target(AQ.Metadata(settings, assoc, connection).value, key), connection).value,
                           column)
    requires !v.Map?
    ensures Build(settings, assoc, "s", TwoLevels(key, column, leaf, v), connection)
         == AQ.Emitted([InnerJoin("s." + key, key), InnerJoin(key + "." + column, column),
                        AndWhere(column + "." + leaf + " = :" + column + "__" + leaf),
                        SetParameter(column + "__" + leaf, v)])
  {
    var md := AQ.Metadata(settings, assoc, connection).value;
    ChainedJoin(settings, md, "s", key, column, [Entry(leaf, v)], connection);
    SingleNestedValue(settings, column, leaf, v, connection);
    assert "s" + "." + key == "s." + key;
  }

  /** As written, the same array makes one join only: the join of `key`, then
      either nothing (the `null` entity has no metadata) or the generic
      predicate of `leaf` on the root alias. */
  lemma AsWrittenTwoLevels(settings: Settings, assoc: EntityRef, key: string, column: string, leaf: string, v: Value,
                           connection: string)
    requires AQ.Metadata(settings, assoc, connection).Success?
    requires IsAssociation(AQ.Metadata(settings, assoc, connection).value, key)
    requires !v.Map?
    ensures var ops := AQ.Build(settings, assoc, "s", TwoLevels(key, column, leaf, v), connection).ops;
      || ops == [InnerJoin("s." + key, key)]
      || ops == [InnerJoin("s." + key, key)] + AQ.GenericOps(leaf, v)
    ensures CountJoins(AQ.Build(settings, assoc, "s", TwoLevels(key, column, leaf, v), connection).ops) == 1
  {
    var md := AQ.Metadata(settings, assoc, connection).value;
    AQ.NestedArrayRecurses(settings, md, "s", key, column, [Entry(leaf, v)], connection);
    assert "s" + "." + key == "s." + key;
    var b := AQ.Build(settings, NullEntity, column, [Entry(leaf, v)], connection);
    NullEntityBuildsGeneric(settings, column, leaf, v, connection);
    var j := [InnerJoin("s." + key, key)];
    assert AQ.Build(settings, assoc, "s", TwoLevels(key, column, leaf, v), connection).ops == j + b.ops;
    assert j[..0] == [];
    assert CountJoins(j) == 1;
    CountsAppend(j, b.ops);
  }

  /** The recursive call as written, for one non-array entry: nothing when the
      `null` entity has no metadata, else the generic branch of the entry. */
  lemma NullEntityBuildsGeneric(settings: Settings, alias: string, leaf: string, v: Value, connection: string)
    requires !v.Map?
    ensures var b := AQ.Build(settings, NullEntity, alias, [Entry(leaf, v)], connection);
      && (b.ops == [] || b.ops == AQ.GenericOps(leaf, v))
      && CountJoins(b.ops) == 0
  {
    var m := AQ.Metadata(settings, NullEntity, connection);
    if m.Success? {
      AQ.EntriesSingleton(settings, m.value, alias, Entry(leaf, v), connection);
      AQ.GenericOpsCounts(leaf, v);
    }
  }

  /** Wherever the corrected builder joins two levels, the written one makes
      different calls. */
  lemma AsWrittenDiffersFromIntended(settings: Settings, assoc: EntityRef, key: string, column: string, leaf: string,
                                     v: Value, connection: string)
    requires AQ.Metadata(settings, assoc, connection).Success?
    requires IsAssociation(AQ.Metadata(settings, assoc, connection).value, key)
    requires AQ.Metadata(settings, Target(AQ.Metadata(settings, assoc, connection).value, key), connection).Success?
    requires IsAssociation(AQ.Metadata(settings, Target(AQ.Metadata(settings, assoc, connection).value, key), connection).value,
                           column)
    requires !v.Map?
    ensures AQ.Build(settings, assoc, "s", TwoLevels(key, column, leaf, v), connection).ops
         != Build(settings, assoc, "s", TwoLevels(key, column, leaf, v), connection).ops
  {
    IntendedTwoLevels(settings, assoc, key, column, leaf, v, connection);
    AsWrittenTwoLevels(settings, assoc, key, column, leaf, v, connection);
  }
}
