/**
 * QueryBuilder of sqlalchemy_model/builder.py: a select builder bound to one
 * session and model, which adds the soft-delete filter for models with a
 * `deleted_at` column unless trashed rows were asked for, and pages results
 * with a COUNT query followed by the data query.
 */
module ModelQuery {
  import opened Wrappers
  import opened Statements
  import opened Sessions
  import opened Registries

  /** The clauses the builder accumulates, as one value. */
  datatype QueryParts<F> = QueryParts(
    entities: seq<Expr<F>>,
    wheres: seq<Expr<F>>,
    orders: seq<Expr<F>>,
    offset: Option<int>,
    limit: Option<int>,
    options: seq<Expr<F>>,
    withTrashed: bool)

  function NoParts<F>(): QueryParts<F> {
    QueryParts([], [], [], None, None, [], false)
  }

  /** The statement `_get_stmt` starts from: the given one, else a SELECT of the entities, else of the model. */
  function StartStmt<F>(model: Model, entities: seq<Expr<F>>, stmt: Option<SelectStmt<F>>): SelectStmt<F> {
    if stmt.Some? then stmt.value
    else if |entities| > 0 then Select(entities)
    else Select([Entity(model)])
  }

  /**
   * `_is_softdeleted() and not _with_trashed`: whether `_get_stmt` filters
   * out deleted rows. `_is_softdeleted` is `hasattr(model, "deleted_at")`.
   */
  predicate Filters(model: Model, withTrashed: bool) {
    model.hasDeletedAt && !withTrashed
  }

  /** The predicates the soft-delete rule contributes: `deleted_at IS NULL` when it filters, nothing otherwise. */
  function SoftDeleteFilter<F>(model: Model, withTrashed: bool): (r: seq<Expr<F>>)
    ensures Filters(model, withTrashed) ==> r == [DeletedAtIsNull(model)]
    ensures !Filters(model, withTrashed) ==> r == []
  {
    if Filters(model, withTrashed) then [DeletedAtIsNull(model)] else []
  }

  /** Order, offset and limit, each only when given; none of them for a pageable statement. */
  function WithPaging<F>(s: SelectStmt<F>, parts: QueryParts<F>, pageable: bool): (r: SelectStmt<F>)
    ensures r.columns == s.columns && r.sources == s.sources && r.where == s.where
    ensures r.groupBy == s.groupBy && r.having == s.having && r.options == s.options
    ensures pageable ==> r == s
    ensures !pageable ==> r.orderBy == s.orderBy + parts.orders
    ensures !pageable ==> r.offset == (if parts.offset.Some? then parts.offset else s.offset)
    ensures !pageable ==> r.limit == (if parts.limit.Some? then parts.limit else s.limit)
  {
    if pageable then s else s.OrderByIfAny(parts.orders).OffsetIfSet(parts.offset).LimitIfSet(parts.limit)
  }

  /**
   * `_get_stmt(stmt, pageable)`: the starting statement, then the soft-delete
   * filter, then the builder's predicates, then (unless pageable) its order,
   * offset and limit, then its loader options. Whatever the starting
   * statement already held is kept in front.
   */
  function GetStmtOf<F>(model: Model, parts: QueryParts<F>, stmt: Option<SelectStmt<F>>, pageable: bool): (r: SelectStmt<F>)
    ensures var s := StartStmt(model, parts.entities, stmt);
      && r.columns == s.columns && r.sources == s.sources
      && r.groupBy == s.groupBy && r.having == s.having
      && r.where == s.where + SoftDeleteFilter(model, parts.withTrashed) + parts.wheres
      && r.options == s.options + parts.options
      && (pageable ==> r.orderBy == s.orderBy && r.offset == s.offset && r.limit == s.limit)
      && (!pageable ==> r.orderBy == s.orderBy + parts.orders)
      && (!pageable ==> r.offset == (if parts.offset.Some? then parts.offset else s.offset))
      && (!pageable ==> r.limit == (if parts.limit.Some? then parts.limit else s.limit))
  {
    var s := StartStmt(model, parts.entities, stmt);
    WithPaging(s.WhereIfAny(SoftDeleteFilter(model, parts.withTrashed)).WhereIfAny(parts.wheres), parts, pageable)
      .OptionsIfAny(parts.options)
  }

  /**
   * Without a starting statement the result selects the entities (or the
   * model) from nothing else, and its predicates are exactly the soft-delete
   * filter followed by the builder's own, the clauses in the order given.
   */
  lemma FreshStmt<F>(model: Model, parts: QueryParts<F>)
    ensures var r := GetStmtOf(model, parts, None, false);
      && r.columns == (if |parts.entities| > 0 then parts.entities else [Entity(model)])
      && r.sources == [] && r.groupBy == [] && r.having == []
      && r.where == SoftDeleteFilter(model, parts.withTrashed) + parts.wheres
      && r.orderBy == parts.orders && r.options == parts.options
      && r.offset == parts.offset && r.limit == parts.limit
  {
  }

  /**
   * The filter is there exactly when the model has `deleted_at` and trashed
   * rows were not asked for: as the first predicate then, and nowhere when
   * the builder's own predicates do not mention it either.
   */
  lemma FilterIffSoftDeleted<F>(model: Model, parts: QueryParts<F>)
    ensures var r := GetStmtOf(model, parts, None, false);
      && (Filters(model, parts.withTrashed) ==> |r.where| > 0 && r.where[0] == DeletedAtIsNull(model))
      && (DeletedAtIsNull(model) !in parts.wheres ==>
            (DeletedAtIsNull(model) in r.where <==> Filters(model, parts.withTrashed)))
  {
  }

  /** Adding a predicate to the builder adds it, and only it, at the end of the statement's predicates. */
  lemma WhereAppends<F>(model: Model, parts: QueryParts<F>, stmt: Option<SelectStmt<F>>, pageable: bool, ps: seq<Expr<F>>)
    ensures GetStmtOf(model, parts.(wheres := parts.wheres + ps), stmt, pageable).where
         == GetStmtOf(model, parts, stmt, pageable).where + ps
  {
  }

  /**
   * The COUNT query `paginate` runs: a bare count over the model, with the
   * same predicates as the data query, and without order, offset or limit.
   */
  lemma CountMatchesData<F>(model: Model, parts: QueryParts<F>)
    ensures var c := GetStmtOf(model, parts, Some(CountStmt(model)), true);
      && c.columns == [CountAll] && c.sources == [model]
      && c.where == GetStmtOf(model, parts, None, false).where
      && c.orderBy == [] && c.offset.None? && c.limit.None?
  {
  }

  /** `math.ceil(a / b)` on integers: the least integer at or above the exact quotient. */
  function CeilDiv(a: int, b: int): (r: int)
    requires b != 0
    ensures b > 0 ==> (r - 1) * b < a <= r * b
    ensures b < 0 ==> r * b <= a < (r - 1) * b
  {
    if b > 0 then CeilDivPositive(a, b) else CeilDivPositive(-a, -b)
  }

  function CeilDivPositive(a: int, b: int): (r: int)
    requires b > 0
    ensures (r - 1) * b < a <= r * b
  {
    -((-a) / b)
  }

  /** The page `paginate` returns, the dict of the source as a record. */
  datatype Page = Page(total: nat, perPage: int, currentPage: int, lastPage: int, data: Handle)

  class QueryBuilder<F, V> {
    const session: Session<F, V>
    const model: Model
    var selectEntities: seq<Expr<F>>
    var whereClauses: seq<Expr<F>>
    var orderClauses: seq<Expr<F>>
    var offset: Option<int>
    var limit: Option<int>
    var options: seq<Expr<F>>
    var withTrashed: bool
    /**
     * The macro and scope tables the scope of
     * sqlalchemy_model/scopes/softdelete.py writes through `_set_macros` and
     * `_remove_scope`; the builder of sqlalchemy_model/builder.py does not
     * define them.
     */
    var registry: Registry

    function Parts(): QueryParts<F>
      reads this
    {
      QueryParts(selectEntities, whereClauses, orderClauses, offset, limit, options, withTrashed)
    }

    constructor (session: Session<F, V>, model: Model)
      ensures this.session == session && this.model == model
      ensures Parts() == NoParts() && registry == Empty
    {
      this.session := session;
      this.model := model;
      selectEntities, whereClauses, orderClauses := [], [], [];
      offset, limit, options := None, None, [];
      withTrashed := false;
      registry := Empty;
    }

    method Select(es: seq<Expr<F>>)
      modifies this`selectEntities
      ensures Parts() == old(Parts()).(entities := old(selectEntities) + es)
    {
      selectEntities := selectEntities + es;
    }

    method Where(ps: seq<Expr<F>>)
      modifies this`whereClauses
      ensures Parts() == old(Parts()).(wheres := old(whereClauses) + ps)
    {
      whereClauses := whereClauses + ps;
    }

    method Offset(n: int)
      modifies this`offset
      ensures Parts() == old(Parts()).(offset := Some(n))
    {
      offset := Some(n);
    }

    method Limit(n: int)
      modifies this`limit
      ensures Parts() == old(Parts()).(limit := Some(n))
    {
      limit := Some(n);
    }

    method OrderBy(cs: seq<Expr<F>>)
      modifies this`orderClauses
      ensures Parts() == old(Parts()).(orders := old(orderClauses) + cs)
    {
      orderClauses := orderClauses + cs;
    }

    method Options(loads: seq<Expr<F>>)
      modifies this`options
      ensures Parts() == old(Parts()).(options := old(options) + loads)
    {
      options := options + loads;
    }

    /** `with_trashed()`: later statements keep deleted rows; there is no way back. */
    method WithTrashed()
      modifies this`withTrashed
      ensures Parts() == old(Parts()).(withTrashed := true)
    {
      withTrashed := true;
    }

    /** `_get_stmt(stmt, pageable)` on the builder's current clauses. */
    function GetStmt(stmt: Option<SelectStmt<F>>, pageable: bool): (r: SelectStmt<F>)
      reads this
      ensures var s := StartStmt(model, selectEntities, stmt);
        && r.columns == s.columns && r.sources == s.sources
        && r.where == s.where + SoftDeleteFilter(model, withTrashed) + whereClauses
        && r.options == s.options + options
        && (pageable ==> r.orderBy == s.orderBy && r.offset == s.offset && r.limit == s.limit)
        && (!pageable ==> r.orderBy == s.orderBy + orderClauses)
        && (!pageable ==> r.offset == (if offset.Some? then offset else s.offset))
        && (!pageable ==> r.limit == (if limit.Some? then limit else s.limit))
    {
      GetStmtOf(model, Parts(), stmt, pageable)
    }

    /** `first(stmt)`: runs the given statement as it is, or the built one, once; the builder is unchanged. */
    method First(stmt: Option<SelectStmt<F>>) returns (h: Handle)
      modifies session
      ensures session.executed == old(session.executed) + [Query(if stmt.Some? then stmt.value else GetStmt(None, false))]
      ensures session.commits == old(session.commits) && h.index == |old(session.executed)|
    {
      var s := if stmt.Some? then stmt.value else GetStmt(None, false);
      h := session.Execute(Query(s));
    }

    /** `get(stmt)`: as `first`, fetching every row. */
    method Get(stmt: Option<SelectStmt<F>>) returns (h: Handle)
      modifies session
      ensures session.executed == old(session.executed) + [Query(if stmt.Some? then stmt.value else GetStmt(None, false))]
      ensures session.commits == old(session.commits) && h.index == |old(session.executed)|
    {
      var s := if stmt.Some? then stmt.value else GetStmt(None, false);
      h := session.Execute(Query(s));
    }

    /**
     * `paginate(page, per_page)`: records the offset and limit of the page,
     * runs the COUNT query, then divides by `per_page` (ZeroDivision, after
     * the COUNT query, when it is 0) and runs the data query, whose offset
     * and limit are those of the page.
     */
    method Paginate(page: int := 1, perPage: int := 50) returns (r: Result<Page>)
      modifies this`offset, this`limit, session
      ensures Parts() == old(Parts()).(offset := Some((page - 1) * perPage), limit := Some(perPage))
      ensures var count := GetStmt(Some(CountStmt(model)), true);
        && (perPage == 0 ==>
              && r == Err(ZeroDivision)
              && session.executed == old(session.executed) + [Query(count)])
        && (perPage != 0 ==>
              && session.executed == old(session.executed) + [Query(count), Query(GetStmt(None, false))]
              && r == Ok(Page(session.countOf(count), perPage, page,
                              CeilDiv(session.countOf(count), perPage),
                              Handle(|old(session.executed)| + 1))))
      ensures session.commits == old(session.commits)
    {
      offset := Some((page - 1) * perPage);
      limit := Some(perPage);
      var count := GetStmt(Some(CountStmt(model)), true);
      var _ := First(Some(count));
      var total := session.countOf(count);
      if perPage == 0 {
        return Err(ZeroDivision);
      }
      var lastPage := CeilDiv(total, perPage);
      var data := Get(None);
      r := Ok(Page(total, perPage, page, lastPage, data));
    }

    /** `_set_macros(name, fn)`: stores the macro under `name`, replacing an earlier one. */
    method SetMacros(name: string, m: Macro)
      modifies this`registry
      ensures registry == old(registry).WithMacro(name, Callable(m))
    {
      registry := registry.WithMacro(name, Callable(m));
    }

    /** `_remove_scope(kind)`: drops the scopes of that class from the table. */
    method RemoveScope(kind: string)
      modifies this`registry
      ensures registry == old(registry).WithoutScope(kind)
    {
      registry := registry.WithoutScope(kind);
    }
  }

  /**
   * The data query of a page skips the rows of the earlier pages and takes
   * at most one page.
   */
  lemma PageWindow<F>(model: Model, parts: QueryParts<F>, page: int, perPage: int)
    ensures var d := GetStmtOf(model, parts.(offset := Some((page - 1) * perPage), limit := Some(perPage)), None, false);
      && d.offset == Some((page - 1) * perPage) && d.limit == Some(perPage)
  {
  }
}
