/**
 * The values a test hands to the association query builder, and the
 * Doctrine query builder it drives, seen as the log of calls made on it.
 */
module QueryBuilding {

  /** A parameter value: PHP `null`, any value that is not an array, or a
      PHP array whose entries keep their insertion order. */
  datatype Value = Null | Scalar(text: string) | Map(entries: seq<Entry>)

  /** One `key => value` pair of a parameter array. */
  datatype Entry = Entry(key: string, value: Value)

  /** One call made on the query builder. */
  datatype Op =
    | InnerJoin(join: string, alias: string)
    | AndWhere(condition: string)
    | SetParameter(name: string, value: Value)

  /** The query builder handed to `buildAssociationQuery`; it records every
      call in `ops`, in the order the calls were made. */
  class QueryBuilder {
    var ops: seq<Op>

    constructor ()
      ensures ops == []
    {
      ops := [];
    }

    /** `innerJoin($join, $alias)` */
    method InnerJoin(join: string, alias: string)
      modifies this
      ensures ops == old(ops) + [Op.InnerJoin(join, alias)]
    {
      ops := ops + [Op.InnerJoin(join, alias)];
    }

    /** `andWhere($condition)` */
    method AndWhere(condition: string)
      modifies this
      ensures ops == old(ops) + [Op.AndWhere(condition)]
    {
      ops := ops + [Op.AndWhere(condition)];
    }

    /** `setParameter($name, $value)` */
    method SetParameter(name: string, value: Value)
      modifies this
      ensures ops == old(ops) + [Op.SetParameter(name, value)]
    {
      ops := ops + [Op.SetParameter(name, value)];
    }
  }

  /** Number of `andWhere` calls in a log. */
  function CountWheres(ops: seq<Op>): nat
  {
    if ops == [] then 0
    else CountWheres(ops[..|ops| - 1]) + (if ops[|ops| - 1].AndWhere? then 1 else 0)
  }

  /** Number of `setParameter` calls in a log. */
  function CountParameters(ops: seq<Op>): nat
  {
    if ops == [] then 0
    else CountParameters(ops[..|ops| - 1]) + (if ops[|ops| - 1].SetParameter? then 1 else 0)
  }

  /** Number of `innerJoin` calls in a log. */
  function CountJoins(ops: seq<Op>): nat
  {
    if ops == [] then 0
    else CountJoins(ops[..|ops| - 1]) + (if ops[|ops| - 1].InnerJoin? then 1 else 0)
  }

  /** The three counts add up over a concatenation of logs. */
  lemma {:induction false} CountsAppend(a: seq<Op>, b: seq<Op>)
    ensures CountWheres(a + b) == CountWheres(a) + CountWheres(b)
    ensures CountParameters(a + b) == CountParameters(a) + CountParameters(b)
    ensures CountJoins(a + b) == CountJoins(a) + CountJoins(b)
    decreases |b|
  {
    if b == [] {
      assert a + b == a;
    } else {
      var b' := b[..|b| - 1];
      CountsAppend(a, b');
      assert (a + b)[..|a + b| - 1] == a + b';
      assert (a + b)[|a + b| - 1] == b[|b| - 1];
    }
  }
}
