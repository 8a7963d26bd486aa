/**
 * DeleteBuilder of fluent_alchemy/builders/delete.py, over WhereBase of
 * src/builders/base.py (its predicates, session and `_commit`), held in
 * `base`. The DELETE statement is created on first need; `delete()` writes
 * the accumulated predicates into it before executing it. The Python field
 * holding the statement is named `_delete_stmt`, the name soft-delete scopes
 * register their macro under; this builder never looks that macro up.
 */
module FluentDelete {
  import opened Wrappers
  import opened Statements
  import opened Sessions
  import SrcBase

  /** `if self._where_clauses: stmt = stmt.where(*self._where_clauses)`. */
  function WithPredicates<F, V>(stmt: DmlStmt<F, V>, predicates: seq<Expr<F>>): (r: DmlStmt<F, V>)
    ensures r.verb == stmt.verb && r.table == stmt.table
    ensures r.Predicates() == stmt.Predicates() + predicates
    ensures r.Returned() == stmt.Returned() && r.Assignments() == stmt.Assignments()
    ensures |predicates| == 0 ==> r == stmt
  {
    ThenExtends(stmt, WhereCall(predicates));
    if |predicates| > 0 then stmt.Then(WhereCall(predicates)) else stmt
  }

  /**
   * The predicates are written into the stored statement, so a second
   * `delete()` on the same builder adds them once more.
   */
  lemma RepeatedDeleteRepeatsPredicates<F, V>(stmt: DmlStmt<F, V>, predicates: seq<Expr<F>>)
    ensures WithPredicates(WithPredicates(stmt, predicates), predicates).Predicates()
         == stmt.Predicates() + predicates + predicates
  {
  }

  class DeleteBuilder<F, V> {
    const base: SrcBase.WhereBase<F, V>
    var deleteStmt: Option<DmlStmt<F, V>>

    /** A stored statement is a DELETE from the builder's model. */
    ghost predicate Valid()
      reads this
    {
      deleteStmt.Some? ==> deleteStmt.value.verb == Verb.Delete && deleteStmt.value.table == base.base.model
    }

    constructor (session: Session<F, V>, model: Model)
      ensures Valid() && fresh(base) && fresh(base.base)
      ensures base.base.session == session && base.base.model == model
      ensures base.whereClauses == [] && deleteStmt == None
    {
      base := new SrcBase.WhereBase(session, model);
      deleteStmt := None;
    }

    /** `_delete_stmt_initial`: creates the statement the first time, keeps it afterwards. */
    method DeleteStmtInitial()
      requires Valid()
      modifies this`deleteStmt
      ensures Valid() && deleteStmt == Some(OrNew(old(deleteStmt), Verb.Delete, base.base.model))
    {
      if deleteStmt.None? {
        deleteStmt := Some(DmlStmt(Verb.Delete, base.base.model, []));
      }
    }

    /** `returning(*entities)`: the entities go into the (possibly new) statement, after the earlier ones. */
    method Returning(entities: seq<Expr<F>>)
      requires Valid()
      modifies this`deleteStmt
      ensures Valid() && deleteStmt == Some(OrNew(old(deleteStmt), Verb.Delete, base.base.model).Then(ReturningCall(entities)))
      ensures deleteStmt.value.Returned() == OrNew(old(deleteStmt), Verb.Delete, base.base.model).Returned() + entities
    {
      DeleteStmtInitial();
      ThenExtends(deleteStmt.value, ReturningCall(entities));
      deleteStmt := Some(deleteStmt.value.Then(ReturningCall(entities)));
    }

    /**
     * `delete(autocommit)`: the accumulated predicates are added to the stored
     * statement (so a second call adds them again), the statement is executed
     * once, and committed once only when `autocommit` is asked for.
     */
    method Delete(autocommit: bool := false) returns (h: Handle)
      requires Valid()
      modifies this`deleteStmt, base.base.session
      ensures Valid()
      ensures deleteStmt == Some(WithPredicates(OrNew(old(deleteStmt), Verb.Delete, base.base.model), base.whereClauses))
      ensures deleteStmt.value.Predicates() == OrNew(old(deleteStmt), Verb.Delete, base.base.model).Predicates() + base.whereClauses
      ensures h.index == |old(base.base.session.executed)|
      ensures base.base.session.executed == old(base.base.session.executed) + [Dml(deleteStmt.value)]
      ensures base.base.session.commits == old(base.base.session.commits) + (if autocommit then 1 else 0)
    {
      DeleteStmtInitial();
      deleteStmt := Some(WithPredicates(deleteStmt.value, base.whereClauses));
      h := base.base.session.Execute(Dml(deleteStmt.value));
      if autocommit {
        base.base.Commit();
      }
    }
  }
}
