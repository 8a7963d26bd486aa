/**
 * SoftDeleteScope of sqlalchemy_model/scopes/softdelete.py, the scope of
 * the QueryBuilder of sqlalchemy_model/builder.py: booting it registers its
 * `with_trashed` macro, applying it adds the `deleted_at IS NULL` predicate,
 * and its `_with_trashed` removes the scope from the builder's scope table.
 */
module ModelSoftDelete {
  import opened Wrappers
  import opened Statements
  import opened Registries
  import opened Attributes
  import ModelQuery

  /** `self.__class__` of the scope, as the key of the builder's scope table. */
  const Kind: string := "sqlalchemy_model.scopes.softdelete.SoftDeleteScope"

  class SoftDeleteScope<F, V> {
    var builder: ModelQuery.QueryBuilder?<F, V>

    constructor ()
      ensures builder == null
    {
      builder := null;
    }

    /** `boot(builder)`: remembers the builder and registers the bound `_with_trashed` as its `with_trashed` macro. */
    method Boot(b: ModelQuery.QueryBuilder<F, V>)
      modifies this, b`registry
      ensures builder == b
      ensures b.registry == old(b.registry).WithMacro("with_trashed", Callable(BoundMethod(this, "_with_trashed")))
    {
      builder := b;
      b.SetMacros("with_trashed", BoundMethod(this, "_with_trashed"));
    }

    /**
     * `apply()`: one `deleted_at IS NULL` predicate after the builder's
     * others; the builder's `_with_trashed` flag is not consulted. The model
     * must have the column, since its attribute is read.
     */
    method Apply() returns (r: ModelQuery.QueryBuilder<F, V>)
      requires builder != null && builder.model.hasDeletedAt
      modifies builder`whereClauses
      ensures r == builder
      ensures builder.Parts() == old(builder.Parts()).(wheres := old(builder.whereClauses) + [DeletedAtIsNull(builder.model)])
    {
      builder.Where([DeletedAtIsNull(builder.model)]);
      r := builder;
    }

    /**
     * `_with_trashed()`: removes this scope's class from the builder's scope
     * table. The predicates already added and the builder's own
     * `with_trashed` flag stay as they are.
     */
    method WithTrashed() returns (r: ModelQuery.QueryBuilder<F, V>)
      requires builder != null
      modifies builder`registry
      ensures r == builder
      ensures builder.registry == old(builder.registry).WithoutScope(Kind)
      ensures Kind !in KindsOf(builder.registry.scopes)
    {
      builder.RemoveScope(Kind);
      WithoutKeepsOthers(old(builder.registry.scopes), Kind);
      r := builder;
    }
  }

  /** The classes of a scope table. */
  function KindsOf(table: seq<ScopeEntry>): set<string> {
    set e | e in table :: e.kind
  }

  /**
   * An applied scope and the builder's own filter are independent: on a
   * soft-deletable model the built statement then carries the predicate
   * twice, and asking the builder for trashed rows afterwards drops only its
   * own copy.
   */
  lemma ApplyKeepsFilter<F>(model: Model, parts: ModelQuery.QueryParts<F>)
    requires model.hasDeletedAt && !parts.withTrashed
    ensures var applied := parts.(wheres := parts.wheres + [DeletedAtIsNull(model)]);
      && DataWhere(model, applied)
            == [DeletedAtIsNull(model)] + parts.wheres + [DeletedAtIsNull(model)]
      && DataWhere(model, applied.(withTrashed := true))
            == parts.wheres + [DeletedAtIsNull(model)]
  {
  }

  /** The predicates of the data statement built from `parts`. */
  function DataWhere<F>(model: Model, parts: ModelQuery.QueryParts<F>): seq<Expr<F>> {
    ModelQuery.GetStmtOf(model, parts, None, false).where
  }

  /**
   * Booting the scope and then calling its `with_trashed` macro: the macro is
   * registered, the scope's class leaves the scope table, and the builder's
   * clauses are untouched.
   */
  method BootThenWithTrashed<F, V>(b: ModelQuery.QueryBuilder<F, V>, scope: SoftDeleteScope<F, V>)
      returns (r: ModelQuery.QueryBuilder<F, V>)
    modifies scope, b`registry
    ensures scope.builder == b && r == b
    ensures b.registry
         == old(b.registry).WithMacro("with_trashed", Callable(BoundMethod(scope, "_with_trashed"))).WithoutScope(Kind)
    ensures b.Parts() == old(b.Parts())
  {
    scope.Boot(b);
    r := scope.WithTrashed();
  }

  /**
   * `boot(builder)` as written against sqlalchemy_model/builder.py: the
   * builder is stored, then `builder._set_macros` is looked up, which that
   * class does not define, so boot raises AttributeError and registers nothing.
   */
  method BootAsWritten<F, V>(scope: SoftDeleteScope<F, V>, b: ModelQuery.QueryBuilder<F, V>) returns (r: Result<()>)
    modifies scope
    ensures scope.builder == b
    ensures r == Err(AttributeError)
  {
    scope.builder := b;
    r := if GetAttr(QueryBuilderAttributes, "_set_macros").Err? then Err(AttributeError) else Ok(());
  }

  /**
   * `_with_trashed()` as written against sqlalchemy_model/builder.py:
   * `builder._remove_scope` is not defined there, so it raises
   * AttributeError and changes nothing.
   */
  method WithTrashedAsWritten<F, V>(scope: SoftDeleteScope<F, V>) returns (r: Result<()>)
    requires scope.builder != null
    ensures r == Err(AttributeError)
  {
    r := if GetAttr(QueryBuilderAttributes, "_remove_scope").Err? then Err(AttributeError) else Ok(());
  }
}
