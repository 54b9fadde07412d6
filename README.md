# Association queries of the SymfonyDoctrine module

This project models the part of the Codeception `SymfonyDoctrine` module that
turns a test's parameter array into a Doctrine query: `buildAssociationQuery`
and the entity-manager lookup `_getEntityManager` it starts with.

`seeInRepository`, `dontSeeInRepository` and `grabFromRepository` create a
query builder on the root alias `s` and hand it to `buildAssociationQuery`
together with the entity and an ordered, possibly nested parameter array.
The builder walks the array key by key:

- an association of the entity whose value is an array gets `innerJoin`;
- every non-array entry under that join gets an equality predicate and a
  parameter named `<key>__<column>`;
- a nested array triggers a recursive call;
- every other key gets `s.<key> IS NULL`, or `s.<key> = :s_<key>` with its
  parameter (the parameter name loses its dots).

The model has four modules:

- `QueryBuilding` (`query_builder.dfy`): parameter values (`Null`, `Scalar`,
  `Map` with ordered entries) and the query builder as a class whose `ops`
  field logs every `innerJoin`, `andWhere` and `setParameter` call.
- `EntityManagers` (`entity_managers.dfy`): the module's configured names
  and the managers retrieved so far. It defines `_getEntityManager` with
  PHP's truthiness default for the connection name, its `ModuleException`,
  and the metadata lookup the builder relies on.
- `AssociationQuery` (`association_query.dfy`): the builder as written.
  - The functions `Build`, `Entries`, `KeyTrace` and `Nested` say which
    calls a build makes and which exception, if any, ends it.
  - The methods `BuildAssociationQuery`, `AddKeys`, `AddKey` and
    `JoinNested` make those calls on a `QueryBuilder` with the source's
    loops. Each is proved to append exactly the calls its function
    describes and to return the same exception.
  - The lemmas state what the calls are.
- `IntendedAssociationQuery` (`intended_query.dfy`): the corrected recursion
  behind the finding below, and lemmas comparing it with the written one.

An exception is modelled as a returned `Error`. The calls made before it stay
in the query builder, as they do in PHP. The recursive call receives PHP
`null` as its entity, because `$map` holds the boolean from
`array_key_exists`. That value is modelled as `NullEntity`. Whether the ORM
has metadata for it is part of the manager, a parameter of every lemma. The
module's documentation says associations can be used to build complex
queries; the model follows the code, which does not follow a nested
association to its target entity.

## Model

| member | source | states |
|---|---|---|
| `QueryBuilding.QueryBuilder.InnerJoin` | src/SymfonyDoctrine.php:329 | a join call is appended to the log and nothing else changes |
| `QueryBuilding.QueryBuilder.AndWhere` | src/SymfonyDoctrine.php:336 | a predicate call is appended to the log and nothing else changes |
| `QueryBuilding.QueryBuilder.SetParameter` | src/SymfonyDoctrine.php:337 | a parameter call is appended to the log and nothing else changes |
| `EntityManagers.EffectiveConnection` | src/SymfonyDoctrine.php:355 | the result is truthy; it is the given name exactly when that name is truthy (not `""`, not `"0"`), otherwise `"default"` |
| `EntityManagers.GetEntityManager` | src/SymfonyDoctrine.php:353-364 | fails with the invalid-manager exception exactly when the defaulted name is not configured; otherwise yields the stored manager, or nothing when none is stored under that name |
| `EntityManagers.RetrievedNamesYieldManagers` | src/SymfonyDoctrine.php:353-364 | once every configured name has its manager, a configured name always yields that manager |
| `EntityManagers.DefaultingIsIdempotent` | src/SymfonyDoctrine.php:355 | asking again with the defaulted name gives the same answer |
| `EntityManagers.DefaultConfigurationAccepts` | src/SymfonyDoctrine.php:30-35 | with the default configuration exactly `""`, `"0"` and `"default"` are accepted |
| `EntityManagers.ClassMetadataFor` | src/SymfonyDoctrine.php:324 | the lookup succeeds exactly for an entity the manager knows, with its metadata; otherwise it fails naming the entity |
| `AssociationQuery.Metadata` | src/SymfonyDoctrine.php:323-324 | the manager lookup and then the metadata lookup: fails exactly when one of them fails; the exception is the invalid-manager one for an unconfigured name, the missing-manager one for a configured name with no manager, otherwise the unknown-entity one; on success it gives the entity's metadata |
| `AssociationQuery.StripDots` | src/SymfonyDoctrine.php:346 | the result has no dot, is shorter or equal, and is the input itself when the input has no dot |
| `AssociationQuery.StripDotsAppend` | src/SymfonyDoctrine.php:346 | stripping dots distributes over concatenation |
| `AssociationQuery.Build` | src/SymfonyDoctrine.php:321-351 | the specification of a build: the lookup, then the walk over the keys; a failed lookup makes no call |
| `AssociationQuery.Entries` | src/SymfonyDoctrine.php:325 | the outer `foreach`: the keys' calls in array order, stopping at the first exception |
| `AssociationQuery.KeyTrace` | src/SymfonyDoctrine.php:326-349 | one key: the join and the inner loop when it takes the join branch, otherwise the generic calls |
| `AssociationQuery.Nested` | src/SymfonyDoctrine.php:330-338 | the inner `foreach`: a nested array gives the recursive build for the `null` entity at alias = its column with the whole nested array, any other value its predicate and parameter |
| `AssociationQuery.TakesJoin` | src/SymfonyDoctrine.php:326-328 | the join branch is taken exactly when the metadata has association mappings, the key is one of them and its value is an array |
| `AssociationQuery.GenericOps` | src/SymfonyDoctrine.php:343-348 | one call for `null`, two otherwise; the first is a predicate on the root alias `s.`; the second sets the value under a parameter name without dots; never a join |
| `AssociationQuery.NestedOps` | src/SymfonyDoctrine.php:335-337 | exactly a predicate and a parameter; the parameter is named `<key>__<column>`, holds the value, and the predicate is `<key>.<column> = :` that name |
| `AssociationQuery.BuildAssociationQuery` | src/SymfonyDoctrine.php:321-351 | the calls appended to `qb` and the exception returned are exactly those of `Build` |
| `AssociationQuery.AddKeys` | src/SymfonyDoctrine.php:325-350 | the outer loop appends exactly the calls of `Entries` and returns its exception, stopping at the first one |
| `AssociationQuery.AddKey` | src/SymfonyDoctrine.php:326-349 | one loop iteration appends exactly the calls of `KeyTrace` for its key |
| `AssociationQuery.JoinNested` | src/SymfonyDoctrine.php:330-338 | the inner loop appends exactly the calls of `Nested` and returns its exception, stopping at the first one |
| `AssociationQuery.BuildStartsWithLookup` | src/SymfonyDoctrine.php:323-325 | a failed lookup makes no call; otherwise the build is the walk over the keys |
| `AssociationQuery.EntriesStopAtError` | src/SymfonyDoctrine.php:325-340 | an exception raised while handling the first `k` keys is the result of the whole walk |
| `AssociationQuery.NestedStopsAtError` | src/SymfonyDoctrine.php:330-338 | an exception raised in the first `k` nested entries is the result of the whole inner loop |
| `AssociationQuery.EmptyParamsMakeNoCalls` | src/SymfonyDoctrine.php:325 | an empty parameter array makes no call; it succeeds exactly when the lookups do |
| `AssociationQuery.EntriesAppend` | src/SymfonyDoctrine.php:325 | keys are handled in array order: building `p1 + p2` is building `p1`, then `p2` |
| `AssociationQuery.GenericOpsCounts` | src/SymfonyDoctrine.php:343-348 | the generic branch makes one predicate, a parameter unless the value is `null`, and no join |
| `AssociationQuery.GenericNull` | src/SymfonyDoctrine.php:326-344 | a non-association key (or metadata without mappings) with `null` makes exactly `andWhere("s.<key> IS NULL")` |
| `AssociationQuery.GenericValue` | src/SymfonyDoctrine.php:345-348 | a non-null value outside the join branch makes `andWhere("s.<key> = :<p>")` then `setParameter(<p>, val)`, with `<p>` = `s_` and the key without dots, which has no dot; alias `s` whatever the alias argument |
| `AssociationQuery.AssociationScalarMakesNoJoin` | src/SymfonyDoctrine.php:327-348 | an association key with a non-array value takes the generic branch and makes no join |
| `AssociationQuery.GenericKeysShape` | src/SymfonyDoctrine.php:325-349 | without joins: no exception, one predicate per key, one parameter per non-null value, no join, no dot in any parameter name |
| `AssociationQuery.AliasOnlyInJoinPaths` | src/SymfonyDoctrine.php:329-347 | building at `alias1` and at `alias2` gives the same exception and the same number of calls; wherever two calls differ, they are joins as the same `<a>`, of `<alias1>.<a>` and of `<alias2>.<a>` |
| `AssociationQuery.GenericKeysIgnoreAlias` | src/SymfonyDoctrine.php:344-347 | without joins the alias argument makes no difference at all |
| `AssociationQuery.EveryKeyMakesACall` | src/SymfonyDoctrine.php:325-349 | a walk that ends without an exception makes at least one call per key |
| `AssociationQuery.FlatNestedShape` | src/SymfonyDoctrine.php:330-338 | over non-array nested values: no exception, two calls per entry, in order, each an equality predicate `<key>.<col> = :<key>__<col>` and its parameter |
| `AssociationQuery.FlatJoinShape` | src/SymfonyDoctrine.php:328-338 | an association with an array of non-array values makes `innerJoin("<alias>.<key>", <key>)` first, then a predicate and parameter per entry |
| `AssociationQuery.NestedNullIsEquality` | src/SymfonyDoctrine.php:330-337 | a nested `null` makes the join, an equality predicate and a `null` parameter, never `IS NULL` |
| `AssociationQuery.JoinedKey` | src/SymfonyDoctrine.php:327-339 | an association key with an array value makes its join and then exactly the inner loop over that array |
| `AssociationQuery.NestedAppend` | src/SymfonyDoctrine.php:330 | nested entries are handled in array order: the inner loop over `a + b` is the loop over `a`, then over `b` |
| `AssociationQuery.NestedArrayAmong` | src/SymfonyDoctrine.php:330-338 | a nested array anywhere among the nested entries contributes exactly the recursive build for the `null` entity at alias = its column, and no predicate of its own, between the entries before and after it |
| `AssociationQuery.NestedArrayAmongEntries` | src/SymfonyDoctrine.php:327-338 | for a joined key whose array mixes other entries with a nested array: the join, the entries before, the recursive build, the entries after |
| `AssociationQuery.NestedArrayRecurses` | src/SymfonyDoctrine.php:327-333 | a nested array makes the join and then exactly the recursive build for the `null` entity, at alias = the column, with the whole nested array |
| `AssociationQuery.BuildFailsOnlyInLookups` | src/SymfonyDoctrine.php:323-333 | a build's exception is that of its own lookup (with no call made) or that of the `null` entity's lookup |
| `AssociationQuery.NestedArrayFailsAfterJoin` | src/SymfonyDoctrine.php:325-333 | when the `null` entity has no metadata, a nested array ends the build with that exception after the earlier keys' calls and the join |
| `IntendedAssociationQuery.GenericOps` | src/SymfonyDoctrine.php:343-348 | the corrected generic branch: one call for `null`, two otherwise, the predicate on the given alias, the parameter named without dots |
| `IntendedAssociationQuery.Target` | src/SymfonyDoctrine.php:332 | the corrected target entity: the one the association mapping names for the key |
| `IntendedAssociationQuery.Build` | src/SymfonyDoctrine.php:321-351 | the corrected build: the lookup, then the walk over the keys |
| `IntendedAssociationQuery.Entries` | src/SymfonyDoctrine.php:325 | the corrected outer loop: the keys' calls in order, stopping at the first exception |
| `IntendedAssociationQuery.Key` | src/SymfonyDoctrine.php:326-349 | one key of the corrected build: the join and the corrected inner loop, or the generic calls on the given alias |
| `IntendedAssociationQuery.Nested` | src/SymfonyDoctrine.php:330-338 | the corrected inner loop: a nested array is built for the target entity, other values get the predicate and parameter of the written code |
| `IntendedAssociationQuery.Step` | src/SymfonyDoctrine.php:332 | the corrected recursive call for one nested entry: the target entity's lookup, then that entry at the join's alias |
| `IntendedAssociationQuery.StepIsBuild` | src/SymfonyDoctrine.php:332 | the corrected recursive call is a build of the one nested entry for the target entity at the join's alias |
| `IntendedAssociationQuery.AgreesWhereNothingNests` | src/SymfonyDoctrine.php:325-349 | without a nested array under a join, the corrected and the written builder make the same calls at alias `s` |
| `IntendedAssociationQuery.ChainedJoin` | src/SymfonyDoctrine.php:327-338 | the corrected builder joins the second association from the first join's alias and compares its values there |
| `IntendedAssociationQuery.IntendedTwoLevels` | src/SymfonyDoctrine.php:327-338 | for `[key => [column => [leaf => v]]]`: two joins, then `column.leaf = :column__leaf` and its parameter |
| `IntendedAssociationQuery.AsWrittenTwoLevels` | src/SymfonyDoctrine.php:327-348 | as written the same array makes one join only, followed by nothing or by the generic `s.<leaf>` predicate |
| `IntendedAssociationQuery.AsWrittenDiffersFromIntended` | src/SymfonyDoctrine.php:327-348 | wherever both associations exist, the written and the corrected builder make different calls |

## Left out

- Getting the entity managers from the Symfony container and connecting them (src/SymfonyDoctrine.php:78-99). These are framework calls. The model takes the managers retrieved so far as the `ems` map.
- Per-test transactions: begin, rollback, close, and the swallowed `PDOException` (src/SymfonyDoctrine.php:69-76, 101-116). This is database I/O.
- `clean`, `persistEntity`, `haveFakeRepository` and `haveInRepository` (src/SymfonyDoctrine.php:121-242). These use runtime reflection and mocking of ORM objects.
- Running the built query: `getQuery()`, its results, and the `getDQL` debug output (src/SymfonyDoctrine.php:274-311). They belong to the ORM. The model stops at the calls made on the query builder and gives the query text no meaning.
- What the ORM's `getClassMetadata` does with an unknown name or with `null`. It is a map held by the manager, and every lemma takes it as a parameter.
- Calling a method on the `null` that `$this->ems` yields for a configured name without a manager. This is modelled as the `ManagerNotRetrieved` error.
- `GetEntityManager`: `in_array` compares loosely in PHP. The model compares names as exact strings, so a numeric name that PHP equates with another is not captured.
- `Entry`: PHP arrays may have integer keys. The model uses string keys only; interpolating an integer key gives the same text its decimal digits would.
- `QueryBuilding.QueryBuilder`: Doctrine's `setParameter` replaces a parameter already set under the same name. The model logs every call and does not merge them.
- `examples/unit/SampleTest.php` is a usage example with no logic of its own.

## Findings

| source | as written | input that shows it | evidently intended | confidence | as-written member | corrected member |
|---|---|---|---|---|---|---|
| src/SymfonyDoctrine.php:327,332,344-347 | `$map` holds the boolean from `array_key_exists`, so the recursive call for a nested array gets a `null` entity. It receives the column as alias and the whole nested array as parameters. Its generic branch writes the root alias `s` | `['author' => ['address' => ['city' => 'Hue']]]`, where `author` is an association of the entity and `address` one of its target | join `s.author` as `author`, then `author.address` as `address`, then compare `address.city = :address__city` | high, not executed | `IntendedAssociationQuery.AsWrittenTwoLevels` | `IntendedAssociationQuery.IntendedTwoLevels` |
