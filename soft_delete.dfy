/**
 * SoftDeleteScope of src/scopes/softdelete.py and of
 * fluent_alchemy/scopes/softdelete.py, which differ only in the name of the
 * model accessor they call: booting it registers its `_delete_stmt` macro,
 * applying it adds the `deleted_at IS NULL` predicate unless trashed rows are
 * wanted, and `_delete_stmt` builds the UPDATE that marks the selected rows
 * deleted. The builder is the select builder, and its model is read
 * directly, as `get_model_class` of src/builders/base.py returns it; the
 * select builder's own base defines no such accessor.
 */
module SoftDelete {
  import opened Wrappers
  import opened Statements
  import opened Registries
  import opened Attributes
  import FluentSelect

  /** The key the scope is booted under: its class. */
  const Kind: string := "SoftDeleteScope"

  /**
   * The statement of `_delete_stmt`: an UPDATE of the model restricted by the
   * builder's predicates (none when it has none) that sets `deleted_at` to
   * `now`, and returns nothing.
   */
  function SoftDeleteStmt<F, V>(model: Model, wheres: seq<Expr<F>>, now: V): (r: DmlStmt<F, V>)
    ensures r.verb == Update && r.table == model
    ensures r.Predicates() == wheres
    ensures r.Assignments() == [ValuesArgs([], map["deleted_at" := now])]
    ensures r.Returned() == []
  {
    var s0 := DmlStmt(Update, model, []);
    var s1 := if |wheres| > 0 then s0.Then(WhereCall(wheres)) else s0;
    ThenExtends(s0, WhereCall(wheres));
    ThenExtends(s1, ValuesCall(ValuesArgs([], map["deleted_at" := now])));
    s1.Then(ValuesCall(ValuesArgs([], map["deleted_at" := now])))
  }

  class SoftDeleteScope<F, V> {
    var builder: FluentSelect.SelectBuilder?<F, V>

    constructor ()
      ensures builder == null
    {
      builder := null;
    }

    /** `boot(builder)`: remembers the builder and registers the bound `_delete_stmt` under that name. */
    method Boot(b: FluentSelect.SelectBuilder<F, V>)
      modifies this, b.base.base`registry
      ensures builder == b
      ensures b.base.base.registry == old(b.base.base.registry).WithMacro("_delete_stmt", Callable(BoundMethod(this, "_delete_stmt")))
    {
      builder := b;
      b.base.base.Macro("_delete_stmt", Callable(BoundMethod(this, "_delete_stmt")));
    }

    /**
     * `apply(with_trashed)`: one `deleted_at IS NULL` predicate after the
     * builder's others, or nothing when trashed rows are wanted. The model
     * must have the column when the predicate is built.
     */
    method Apply(withTrashed: bool := false)
      requires builder != null
      requires !withTrashed ==> builder.base.base.model.hasDeletedAt
      modifies builder.base`whereClauses
      ensures builder.base.whereClauses
           == old(builder.base.whereClauses) + (if withTrashed then [] else [DeletedAtIsNull(builder.base.base.model)])
      ensures ApplyVia("get_model_class", builder.base.base.model, old(builder.base.whereClauses), withTrashed)
           == Ok(builder.base.whereClauses)
    {
      if !withTrashed {
        builder.base.Where([DeletedAtIsNull(builder.base.base.model)]);
      }
    }

    /** `_delete_stmt()`, with `datetime.now()` passed in as `now`. */
    function DeleteStmt(now: V): (r: DmlStmt<F, V>)
      requires builder != null
      reads this, builder, builder.base
      ensures r.verb == Update && r.table == builder.base.base.model
      ensures r.Predicates() == builder.base.whereClauses
      ensures r.Assignments() == [ValuesArgs([], map["deleted_at" := now])] && r.Returned() == []
    {
      SoftDeleteStmt(builder.base.base.model, builder.base.whereClauses, now)
    }
  }

  /**
   * Applying the scope and then building the soft delete restricts the
   * UPDATE to the rows the builder selects and that are not yet deleted.
   */
  lemma AppliedDeleteSkipsTrashed<F, V>(model: Model, wheres: seq<Expr<F>>, now: V)
    ensures var r := SoftDeleteStmt(model, wheres + [DeletedAtIsNull(model)], now);
      && r.Predicates()[..|wheres|] == wheres
      && r.Predicates()[|wheres|] == DeletedAtIsNull(model)
  {
  }

  /** `apply` is not idempotent: applying the scope twice adds the predicate twice. */
  method ApplyTwice<F, V>(scope: SoftDeleteScope<F, V>)
    requires scope.builder != null && scope.builder.base.base.model.hasDeletedAt
    modifies scope.builder.base`whereClauses
    ensures scope.builder.base.whereClauses
         == old(scope.builder.base.whereClauses) + [DeletedAtIsNull(scope.builder.base.base.model), DeletedAtIsNull(scope.builder.base.base.model)]
  {
    scope.Apply(false);
    scope.Apply(false);
  }

  /**
   * `boot_scopes({SoftDeleteScope: scope})` on a select builder: the builder
   * installs the one-entry table and boots the scope, and that boot is what
   * registers `_delete_stmt`.
   */
  method BootScopesWithSoftDelete<F, V>(b: FluentSelect.SelectBuilder<F, V>, scope: SoftDeleteScope<F, V>)
    modifies b.base.base, scope
    ensures scope.builder == b
    ensures b.base.base.booted == old(b.base.base.booted) + [scope]
    ensures b.base.base.registry
         == old(b.base.base.registry).WithScopes([ScopeEntry(Kind, scope)])
                                    .WithMacro("_delete_stmt", Callable(BoundMethod(scope, "_delete_stmt")))
    ensures b.base.base.registry.scopes == [ScopeEntry(Kind, scope)]
    ensures b.base.base.registry.macros["_delete_stmt"] == BoundMethod(scope, "_delete_stmt")
  {
    b.base.base.BootScopes([ScopeEntry(Kind, scope)]);
    scope.Boot(b);
  }

  /**
   * `apply(with_trashed)` reaching the model through the builder method
   * `accessor`: the predicates it leaves, or the AttributeError of an
   * accessor the builder does not define.
   */
  function ApplyVia<F>(accessor: string, model: Model, wheres: seq<Expr<F>>, withTrashed: bool): (r: Result<seq<Expr<F>>>)
    ensures withTrashed ==> r == Ok(wheres)
    ensures !withTrashed && accessor in BuilderAccessors ==> r == Ok(wheres + [DeletedAtIsNull(model)])
    ensures !withTrashed && accessor !in BuilderAccessors ==> r == Err(AttributeError)
  {
    if withTrashed then Ok(wheres)
    else match GetAttr(BuilderAccessors, accessor)
      case Err(e) => Err(e)
      case Ok(_) => Ok(wheres + [DeletedAtIsNull(model)])
  }

  /** `_delete_stmt()` reaching the model through the builder method `accessor`. */
  function DeleteStmtVia<F, V>(accessor: string, model: Model, wheres: seq<Expr<F>>, now: V): (r: Result<DmlStmt<F, V>>)
    ensures accessor in BuilderAccessors ==> r == Ok(SoftDeleteStmt(model, wheres, now))
    ensures accessor !in BuilderAccessors ==> r == Err(AttributeError)
  {
    match GetAttr(BuilderAccessors, accessor)
    case Err(e) => Err(e)
    case Ok(_) => Ok(SoftDeleteStmt(model, wheres, now))
  }

  /**
   * fluent_alchemy/scopes/softdelete.py reaches the model through
   * `_get_model_class`, which no builder defines, so as written its
   * `apply(False)` and `_delete_stmt` raise AttributeError on every builder.
   * Through `get_model_class`, as src/scopes/softdelete.py does, `apply`
   * appends the filter and `_delete_stmt` builds the soft delete.
   */
  lemma FluentAccessorFinding<F, V>(model: Model, wheres: seq<Expr<F>>, now: V)
    ensures ApplyVia("_get_model_class", model, wheres, false) == Err(AttributeError)
    ensures DeleteStmtVia<F, V>("_get_model_class", model, wheres, now) == Err(AttributeError)
    ensures ApplyVia("get_model_class", model, wheres, false) == Ok(wheres + [DeletedAtIsNull(model)])
    ensures DeleteStmtVia("get_model_class", model, wheres, now) == Ok(SoftDeleteStmt(model, wheres, now))
  {
  }
}
