/**
 * BaseBuilder of fluent_alchemy/builders/base.py: a builder bound to a
 * session and a model that keeps one list per clause, the last offset and
 * limit, the merged execution options, and the scope and macro tables.
 */
module FluentBase {
  import opened Wrappers
  import opened Statements
  import opened Sessions
  import opened Registries

  /** The clause state of a builder, as one value. */
  datatype Fragments<F, V> = Fragments(
    entities: seq<Expr<F>>,
    wheres: seq<Expr<F>>,
    groups: seq<Expr<F>>,
    havings: seq<Expr<F>>,
    orders: seq<Expr<F>>,
    offset: Option<int>,
    limit: Option<int>,
    options: seq<Expr<F>>,
    executionOptions: Option<map<string, V>>,
    returnings: seq<Expr<F>>)

  /** The clause state of a new builder: every list empty, nothing set. */
  function NoFragments<F, V>(): Fragments<F, V> {
    Fragments([], [], [], [], [], None, None, [], None, [])
  }

  /**
   * `execution_options(**options)`: the stored map, created empty on first
   * use, updated key by key: a key given now takes the new value, every other
   * stored key keeps its value.
   */
  function MergeOptions<V>(current: Option<map<string, V>>, options: map<string, V>): (r: map<string, V>)
    ensures r.Keys == options.Keys + (if current.Some? then current.value.Keys else {})
    ensures forall k :: k in options ==> r[k] == options[k]
    ensures current.Some? ==> forall k :: k in current.value && k !in options ==> r[k] == current.value[k]
  {
    current.GetOr(map[]) + options
  }

  class BaseBuilder<F, V> {
    const session: Session<F, V>
    const model: Model
    var selectEntities: seq<Expr<F>>
    var whereClauses: seq<Expr<F>>
    var groupClauses: seq<Expr<F>>
    var havingClauses: seq<Expr<F>>
    var orderClauses: seq<Expr<F>>
    var offset: Option<int>
    var limit: Option<int>
    var options: seq<Expr<F>>
    var executionOptions: Option<map<string, V>>
    var returnings: seq<Expr<F>>
    var registry: Registry
    /** The scopes whose `boot(self)` this builder has called, in call order. */
    ghost var booted: seq<object>

    function State(): Fragments<F, V>
      reads this
    {
      Fragments(selectEntities, whereClauses, groupClauses, havingClauses, orderClauses,
                offset, limit, options, executionOptions, returnings)
    }

    constructor (session: Session<F, V>, model: Model)
      ensures this.session == session && this.model == model
      ensures State() == NoFragments() && registry == Empty && booted == []
    {
      this.session := session;
      this.model := model;
      selectEntities, whereClauses, groupClauses, havingClauses, orderClauses := [], [], [], [], [];
      offset, limit := None, None;
      options := [];
      executionOptions := None;
      returnings := [];
      registry := Empty;
      booted := [];
    }

    method Select(entities: seq<Expr<F>>)
      modifies this
      ensures State() == old(State()).(entities := old(selectEntities) + entities)
      ensures registry == old(registry) && booted == old(booted)
    {
      selectEntities := selectEntities + entities;
    }

    method Where(predicates: seq<Expr<F>>)
      modifies this
      ensures State() == old(State()).(wheres := old(whereClauses) + predicates)
      ensures registry == old(registry) && booted == old(booted)
    {
      whereClauses := whereClauses + predicates;
    }

    /** `offset(n)`: replaces any earlier offset. */
    method Offset(n: int)
      modifies this
      ensures State() == old(State()).(offset := Some(n))
      ensures registry == old(registry) && booted == old(booted)
    {
      offset := Some(n);
    }

    /** `limit(n)`: replaces any earlier limit. */
    method Limit(n: int)
      modifies this
      ensures State() == old(State()).(limit := Some(n))
      ensures registry == old(registry) && booted == old(booted)
    {
      limit := Some(n);
    }

    method GroupBy(entities: seq<Expr<F>>)
      modifies this
      ensures State() == old(State()).(groups := old(groupClauses) + entities)
      ensures registry == old(registry) && booted == old(booted)
    {
      groupClauses := groupClauses + entities;
    }

    method Having(predicates: seq<Expr<F>>)
      modifies this
      ensures State() == old(State()).(havings := old(havingClauses) + predicates)
      ensures registry == old(registry) && booted == old(booted)
    {
      havingClauses := havingClauses + predicates;
    }

    method OrderBy(clauses: seq<Expr<F>>)
      modifies this
      ensures State() == old(State()).(orders := old(orderClauses) + clauses)
      ensures registry == old(registry) && booted == old(booted)
    {
      orderClauses := orderClauses + clauses;
    }

    method Returning(entities: seq<Expr<F>>)
      modifies this
      ensures State() == old(State()).(returnings := old(returnings) + entities)
      ensures registry == old(registry) && booted == old(booted)
    {
      returnings := returnings + entities;
    }

    method Options(loads: seq<Expr<F>>)
      modifies this
      ensures State() == old(State()).(options := old(options) + loads)
      ensures registry == old(registry) && booted == old(booted)
    {
      options := options + loads;
    }

    method ExecutionOptions(opts: map<string, V>)
      modifies this
      ensures State() == old(State()).(executionOptions := Some(MergeOptions(old(executionOptions), opts)))
      ensures registry == old(registry) && booted == old(booted)
    {
      if executionOptions.None? {
        executionOptions := Some(map[]);
      }
      executionOptions := Some(executionOptions.value + opts);
    }

    /** `execute(stmt)`: hands exactly `stmt` to the bound session, once, and returns its result. */
    method Execute(stmt: Stmt<F, V>) returns (h: Handle)
      modifies session
      ensures session.executed == old(session.executed) + [stmt]
      ensures session.commits == old(session.commits)
      ensures h.index == |old(session.executed)|
    {
      h := session.Execute(stmt);
    }

    /** `apply_scopes(scopes)`: installs the table, resets `_on_delete` and calls `boot(self)` once per scope, in order. */
    method ApplyScopes(table: seq<ScopeEntry>)
      modifies this
      ensures registry == old(registry).WithScopes(table)
      ensures booted == old(booted) + Instances(table)
      ensures State() == old(State())
    {
      registry := registry.WithScopes(table);
      for i := 0 to |table|
        invariant registry == old(registry).WithScopes(table)
        invariant State() == old(State())
        invariant booted == old(booted) + Instances(table[..i])
      {
        booted := booted + [table[i].scope];
        assert table[..i + 1] == table[..i] + [table[i]];
      }
      assert table[..|table|] == table;
    }

    /** `macro(name, callable_)`. */
    method Macro(name: string, arg: MacroArg)
      modifies this
      ensures registry == old(registry).WithMacro(name, arg)
      ensures State() == old(State()) && booted == old(booted)
    {
      registry := registry.WithMacro(name, arg);
    }
  }
}
