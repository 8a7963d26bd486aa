/**
 * SelectBuilder of fluent_alchemy/builders/select.py. Its predicates and its
 * session resolution come from BaseWhereBuilder of
 * src/flex_alchemy/builders/base.py, held in `base`.
 */
module FluentSelect {
  import opened Wrappers
  import opened Statements
  import opened Sessions
  import FlexBase

  /** The clauses the select builder keeps itself, as one value. */
  datatype SelectParts<F> = SelectParts(
    entities: seq<Expr<F>>,
    offset: Option<int>,
    limit: Option<int>,
    groupBy: seq<Expr<F>>,
    having: seq<Expr<F>>,
    orderBy: seq<Expr<F>>,
    options: seq<Expr<F>>)

  function NoParts<F>(): SelectParts<F> {
    SelectParts([], None, None, [], [], [], [])
  }

  /**
   * `_build`: the SELECT of the given entities, or of the whole model when
   * none were given, then each clause whose fragments were given (or whose
   * value was set), with its fragments in the order they were added.
   */
  function BuildStmt<F>(model: Model, wheres: seq<Expr<F>>, parts: SelectParts<F>): (r: SelectStmt<F>)
    ensures |parts.entities| > 0 ==> r.columns == parts.entities
    ensures |parts.entities| == 0 ==> r.columns == [Entity(model)]
    ensures r.sources == []
    ensures r.where == wheres && r.groupBy == parts.groupBy && r.having == parts.having
    ensures r.orderBy == parts.orderBy && r.options == parts.options
    ensures r.offset == parts.offset && r.limit == parts.limit
  {
    var s0 := if |parts.entities| > 0 then Select(parts.entities) else Select([Entity(model)]);
    s0.WhereIfAny(wheres)
      .OffsetIfSet(parts.offset)
      .LimitIfSet(parts.limit)
      .GroupByIfAny(parts.groupBy)
      .HavingIfAny(parts.having)
      .OrderByIfAny(parts.orderBy)
      .OptionsIfAny(parts.options)
  }

  class SelectBuilder<F, V> {
    const base: FlexBase.BaseWhereBuilder<F, V>
    var entities: seq<Expr<F>>
    var offset: Option<int>
    var limit: Option<int>
    var groupBy: seq<Expr<F>>
    var having: seq<Expr<F>>
    var orderBy: seq<Expr<F>>
    var options: seq<Expr<F>>

    function Parts(): SelectParts<F>
      reads this
    {
      SelectParts(entities, offset, limit, groupBy, having, orderBy, options)
    }

    constructor (model: Model, session: Option<SessionRef<F, V>>)
      ensures fresh(base) && fresh(base.base)
      ensures base.base.model == model && base.base.session == session
      ensures base.whereClauses == [] && Parts() == NoParts()
    {
      base := new FlexBase.BaseWhereBuilder(model, session);
      entities, offset, limit := [], None, None;
      groupBy, having, orderBy, options := [], [], [], [];
    }

    /** `select(*entities)`: adds to the projection; a second call is additive and never raises. */
    method Select(es: seq<Expr<F>>)
      modifies this
      ensures Parts() == old(Parts()).(entities := old(entities) + es)
    {
      entities := entities + es;
    }

    method Offset(n: int)
      modifies this
      ensures Parts() == old(Parts()).(offset := Some(n))
    {
      offset := Some(n);
    }

    method Limit(n: int)
      modifies this
      ensures Parts() == old(Parts()).(limit := Some(n))
    {
      limit := Some(n);
    }

    method GroupBy(es: seq<Expr<F>>)
      modifies this
      ensures Parts() == old(Parts()).(groupBy := old(groupBy) + es)
    {
      groupBy := groupBy + es;
    }

    method Having(ps: seq<Expr<F>>)
      modifies this
      ensures Parts() == old(Parts()).(having := old(having) + ps)
    {
      having := having + ps;
    }

    method OrderBy(cs: seq<Expr<F>>)
      modifies this
      ensures Parts() == old(Parts()).(orderBy := old(orderBy) + cs)
    {
      orderBy := orderBy + cs;
    }

    method Options(loads: seq<Expr<F>>)
      modifies this
      ensures Parts() == old(Parts()).(options := old(options) + loads)
    {
      options := options + loads;
    }

    /** `_build`: reads the builder and never writes it. */
    function Build(): (r: SelectStmt<F>)
      reads this, base
      ensures r.columns == (if |entities| > 0 then entities else [Entity(base.base.model)])
      ensures r.sources == [] && r.where == base.whereClauses
      ensures r.groupBy == groupBy && r.having == having && r.orderBy == orderBy && r.options == options
      ensures r.offset == offset && r.limit == limit
    {
      BuildStmt(base.base.model, base.whereClauses, Parts())
    }

    /**
     * `execute(session)`: resolves the session first, raising
     * SessionNotProvided with nothing executed; otherwise executes the built
     * statement on that session exactly once.
     */
    method Execute(perCall: Option<SessionRef<F, V>>) returns (r: Result<Handle>)
      modifies base.base.Reachable(perCall)
      ensures base.base.GetSession(perCall).Err? ==> r == Err(SessionNotProvided) && unchanged(base.base.Reachable(perCall))
      ensures base.base.GetSession(perCall).Ok? ==>
        var s := base.base.GetSession(perCall).value;
        && r == Ok(Handle(|old(s.executed)|))
        && s.executed == old(s.executed) + [Query(Build())]
        && s.commits == old(s.commits)
    {
      var resolved := base.base.GetSession(perCall);
      if resolved.Err? {
        return Err(resolved.error);
      }
      var stmt := Build();
      var h := resolved.value.Execute(Query(stmt));
      r := Ok(h);
    }
  }
}
