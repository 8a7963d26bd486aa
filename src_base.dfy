/**
 * The builder bases of src/builders/base.py: the session-bound base with
 * its commit, scope booting and macro table, the predicate-accumulating
 * WhereBase and the value-accumulating ValueBase. Python's subclassing is
 * modelled by composition: each subclass holds its BaseBuilder in `base`.
 */
module SrcBase {
  import opened Wrappers
  import opened Statements
  import opened Sessions
  import opened Registries

  class BaseBuilder<F, V> {
    const session: Session<F, V>
    const model: Model
    var registry: Registry
    /** The scopes whose `boot(self)` this builder has called, in call order. */
    ghost var booted: seq<object>

    constructor (session: Session<F, V>, model: Model)
      ensures this.session == session && this.model == model
      ensures registry == Empty && booted == []
    {
      this.session := session;
      this.model := model;
      registry := Empty;
      booted := [];
    }

    /** `_commit`: one commit on the bound session, nothing executed. */
    method Commit()
      modifies session
      ensures session.commits == old(session.commits) + 1
      ensures session.executed == old(session.executed)
    {
      session.Commit();
    }

    /**
     * `boot_scopes(scopes)`: installs the table, resets `_on_delete` and calls
     * `boot(self)` once on every scope, in table order. What a scope's boot
     * does is that scope's own code (SoftDeleteScope.Boot); the builder's
     * part is the table and the calls, recorded in `booted`.
     */
    method BootScopes(table: seq<ScopeEntry>)
      modifies this
      ensures registry == old(registry).WithScopes(table)
      ensures booted == old(booted) + Instances(table)
    {
      registry := registry.WithScopes(table);
      for i := 0 to |table|
        invariant registry == old(registry).WithScopes(table)
        invariant booted == old(booted) + Instances(table[..i])
      {
        booted := booted + [table[i].scope];
        assert table[..i + 1] == table[..i] + [table[i]];
      }
      assert table[..|table|] == table;
    }

    /** `macro(name, callable_)`. */
    method Macro(name: string, arg: MacroArg)
      modifies this`registry
      ensures registry == old(registry).WithMacro(name, arg)
    {
      registry := registry.WithMacro(name, arg);
    }
  }

  /** A builder that accumulates predicates. */
  class WhereBase<F, V> {
    const base: BaseBuilder<F, V>
    var whereClauses: seq<Expr<F>>

    constructor (session: Session<F, V>, model: Model)
      ensures fresh(base) && base.session == session && base.model == model
      ensures base.registry == Empty && base.booted == [] && whereClauses == []
    {
      base := new BaseBuilder(session, model);
      whereClauses := [];
    }

    /** `where(*express)`: appends the predicates after the earlier ones. */
    method Where(predicates: seq<Expr<F>>)
      modifies this`whereClauses
      ensures whereClauses == old(whereClauses) + predicates
    {
      whereClauses := whereClauses + predicates;
    }
  }

  /** The values ValueBase stores: the first positional argument, or the keyword map. */
  datatype StoredValues<V> = Positional(value: V) | Keywords(kwargs: map<string, V>)

  /** What `values(*args, **kwargs)` stores. */
  function ValuesStored<V>(args: seq<V>, kwargs: map<string, V>): (r: StoredValues<V>)
    ensures |args| > 0 ==> r == Positional(args[0])
    ensures |args| == 0 ==> r == Keywords(kwargs)
  {
    if |args| > 0 then Positional(args[0]) else Keywords(kwargs)
  }

  /** A builder that accumulates the values and RETURNING entities of an INSERT or UPDATE. */
  class ValueBase<F, V> {
    const base: BaseBuilder<F, V>
    var values: Option<StoredValues<V>>
    var returning: seq<Expr<F>>

    constructor (session: Session<F, V>, model: Model)
      ensures fresh(base) && base.session == session && base.model == model
      ensures base.registry == Empty && base.booted == []
      ensures values == None && returning == []
    {
      base := new BaseBuilder(session, model);
      values := None;
      returning := [];
    }

    /** `values(*args, **kwargs)`: the new values replace the old ones; nothing is merged. */
    method Values(args: seq<V>, kwargs: map<string, V>)
      modifies this`values
      ensures values == Some(ValuesStored(args, kwargs))
    {
      values := Some(ValuesStored(args, kwargs));
    }

    /** `returning(*entities)`: appends the entities after the earlier ones. */
    method Returning(entities: seq<Expr<F>>)
      modifies this`returning
      ensures returning == old(returning) + entities
    {
      returning := returning + entities;
    }
  }
}
