/**
 * Statements as the mapping library builds them. The library's statement
 * objects are generative: every clause method returns a new statement with
 * that clause extended (where, group_by, having, order_by, options,
 * returning, values, execution_options) or replaced (offset, limit). Here a
 * SELECT is a record of its clauses, where an empty sequence means the
 * clause is absent, and an INSERT, UPDATE or DELETE keeps the list of clause
 * calls made on it, in order, leaving their merging to the library.
 */
module Statements {
  import opened Wrappers

  /** A mapped model class; only whether it has a `deleted_at` column matters here. */
  datatype Model = Model(name: string, hasDeletedAt: bool)

  /** A clause element: an opaque fragment supplied by the caller, or one of the few this layer builds itself. */
  datatype Expr<F> =
    | Frag(fragment: F)             // column, predicate, order expression, load option, ...
    | Entity(model: Model)          // a whole model class used as a column source
    | DeletedAtIsNull(model: Model) // model.deleted_at.is_(None)
    | CountAll                      // func.count()

  datatype SelectStmt<F> = SelectStmt(
    columns: seq<Expr<F>>,
    sources: seq<Model>,
    where: seq<Expr<F>>,
    groupBy: seq<Expr<F>>,
    having: seq<Expr<F>>,
    orderBy: seq<Expr<F>>,
    offset: Option<int>,
    limit: Option<int>,
    options: seq<Expr<F>>)
  {
    function Where(predicates: seq<Expr<F>>): SelectStmt<F> { this.(where := where + predicates) }
    function GroupBy(clauses: seq<Expr<F>>): SelectStmt<F> { this.(groupBy := groupBy + clauses) }
    function Having(predicates: seq<Expr<F>>): SelectStmt<F> { this.(having := having + predicates) }
    function OrderBy(clauses: seq<Expr<F>>): SelectStmt<F> { this.(orderBy := orderBy + clauses) }
    function Offset(n: int): SelectStmt<F> { this.(offset := Some(n)) }
    function Limit(n: int): SelectStmt<F> { this.(limit := Some(n)) }
    function Options(loads: seq<Expr<F>>): SelectStmt<F> { this.(options := options + loads) }
    function SelectFrom(m: Model): SelectStmt<F> { this.(sources := sources + [m]) }

    // The builders guard each clause call (`if fragments: stmt = stmt.where(*fragments)`);
    // a guarded call with no fragments leaves the statement as it was.

    function WhereIfAny(predicates: seq<Expr<F>>): (r: SelectStmt<F>)
      ensures r == this.(where := where + predicates)
    {
      if |predicates| > 0 then Where(predicates) else assert where + predicates == where; this
    }

    function GroupByIfAny(clauses: seq<Expr<F>>): (r: SelectStmt<F>)
      ensures r == this.(groupBy := groupBy + clauses)
    {
      if |clauses| > 0 then GroupBy(clauses) else assert groupBy + clauses == groupBy; this
    }

    function HavingIfAny(predicates: seq<Expr<F>>): (r: SelectStmt<F>)
      ensures r == this.(having := having + predicates)
    {
      if |predicates| > 0 then Having(predicates) else assert having + predicates == having; this
    }

    function OrderByIfAny(clauses: seq<Expr<F>>): (r: SelectStmt<F>)
      ensures r == this.(orderBy := orderBy + clauses)
    {
      if |clauses| > 0 then OrderBy(clauses) else assert orderBy + clauses == orderBy; this
    }

    function OptionsIfAny(loads: seq<Expr<F>>): (r: SelectStmt<F>)
      ensures r == this.(options := options + loads)
    {
      if |loads| > 0 then Options(loads) else assert options + loads == options; this
    }

    /** `if n is not None: stmt = stmt.offset(n)`. */
    function OffsetIfSet(n: Option<int>): (r: SelectStmt<F>)
      ensures r == this.(offset := if n.Some? then n else offset)
    {
      if n.Some? then Offset(n.value) else this
    }

    /** `if n is not None: stmt = stmt.limit(n)`. */
    function LimitIfSet(n: Option<int>): (r: SelectStmt<F>)
      ensures r == this.(limit := if n.Some? then n else limit)
    {
      if n.Some? then Limit(n.value) else this
    }
  }

  /** `select(*columns)`: a statement with that projection and no other clause. */
  function Select<F>(columns: seq<Expr<F>>): SelectStmt<F> {
    SelectStmt(columns, [], [], [], [], [], None, None, [])
  }

  /** `select(func.count()).select_from(model)`. */
  function CountStmt<F>(model: Model): SelectStmt<F> {
    Select([CountAll]).SelectFrom(model)
  }

  datatype Verb = Insert | Update | Delete

  /** The arguments of one `values(*args, **kwargs)` call. */
  datatype ValuesArgs<V> = ValuesArgs(args: seq<V>, kwargs: map<string, V>)

  /** One clause call made on an INSERT, UPDATE or DELETE statement. */
  datatype DmlCall<F, V> =
    | ValuesCall(values: ValuesArgs<V>)
    | WhereCall(predicates: seq<Expr<F>>)
    | ReturningCall(entities: seq<Expr<F>>)
    | ExecutionOptionsCall(options: map<string, V>)

  datatype DmlStmt<F, V> = DmlStmt(verb: Verb, table: Model, calls: seq<DmlCall<F, V>>) {
    /** The statement with one more clause call. */
    function Then(c: DmlCall<F, V>): DmlStmt<F, V> { this.(calls := calls + [c]) }

    /** The predicates of all `where` calls, AND-combined in call order. */
    function Predicates(): seq<Expr<F>> { Flatten(calls, WherePart) }

    /** The entities of all `returning` calls, in call order. */
    function Returned(): seq<Expr<F>> { Flatten(calls, ReturningPart) }

    /** The arguments of all `values` calls, in call order. */
    function Assignments(): seq<ValuesArgs<V>> { Flatten(calls, ValuesPart) }
  }

  function WherePart<F, V>(c: DmlCall<F, V>): seq<Expr<F>> {
    if c.WhereCall? then c.predicates else []
  }

  function ReturningPart<F, V>(c: DmlCall<F, V>): seq<Expr<F>> {
    if c.ReturningCall? then c.entities else []
  }

  function ValuesPart<F, V>(c: DmlCall<F, V>): seq<ValuesArgs<V>> {
    if c.ValuesCall? then [c.values] else []
  }

  /** Concatenates what `part` picks out of each call, in call order. */
  function Flatten<F, V, T>(calls: seq<DmlCall<F, V>>, part: DmlCall<F, V> -> seq<T>): seq<T> {
    if |calls| == 0 then [] else part(calls[0]) + Flatten(calls[1..], part)
  }

  lemma {:induction false} FlattenAppend<F, V, T>(a: seq<DmlCall<F, V>>, b: seq<DmlCall<F, V>>, part: DmlCall<F, V> -> seq<T>)
    ensures Flatten(a + b, part) == Flatten(a, part) + Flatten(b, part)
  {
    if |a| == 0 {
      assert a + b == b;
    } else {
      assert (a + b)[1..] == a[1..] + b;
      FlattenAppend(a[1..], b, part);
    }
  }

  /**
   * A clause call extends exactly its own view of the statement: a `where`
   * call appends its predicates after the earlier ones, a `returning` call its
   * entities, a `values` call its arguments; the other views stay as they were.
   */
  lemma ThenExtends<F, V>(s: DmlStmt<F, V>, c: DmlCall<F, V>)
    ensures s.Then(c).verb == s.verb && s.Then(c).table == s.table
    ensures s.Then(c).Predicates() == s.Predicates() + WherePart(c)
    ensures s.Then(c).Returned() == s.Returned() + ReturningPart(c)
    ensures s.Then(c).Assignments() == s.Assignments() + ValuesPart(c)
  {
    FlattenAppend(s.calls, [c], WherePart);
    FlattenAppend(s.calls, [c], ReturningPart);
    FlattenAppend(s.calls, [c], ValuesPart);
  }

  /** A statement created lazily: the one already stored, or a fresh one for `table`. */
  function OrNew<F, V>(stored: Option<DmlStmt<F, V>>, verb: Verb, table: Model): (r: DmlStmt<F, V>)
    ensures stored.Some? ==> r == stored.value
    ensures stored.None? ==> r.verb == verb && r.table == table && r.Predicates() == [] && r.Returned() == [] && r.Assignments() == []
  {
    if stored.Some? then stored.value else DmlStmt(verb, table, [])
  }

  /** What a session can execute. */
  datatype Stmt<F, V> = Query(select: SelectStmt<F>) | Dml(dml: DmlStmt<F, V>)
}
