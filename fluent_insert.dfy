/**
 * InsertBuilder of fluent_alchemy/builders/insert.py. The INSERT statement
 * is created on the first `values`, `returning` or `execution_options` call
 * and extended by every later one. The session and `_commit` it uses are
 * those of the base builder of src/builders/base.py, held in `base`.
 */
module FluentInsert {
  import opened Wrappers
  import opened Statements
  import opened Sessions
  import SrcBase

  class InsertBuilder<F, V> {
    const base: SrcBase.BaseBuilder<F, V>
    var insertStmt: Option<DmlStmt<F, V>>

    /** A stored statement is an INSERT into the builder's model. */
    ghost predicate Valid()
      reads this
    {
      insertStmt.Some? ==> insertStmt.value.verb == Insert && insertStmt.value.table == base.model
    }

    constructor (session: Session<F, V>, model: Model)
      ensures Valid() && fresh(base) && base.session == session && base.model == model
      ensures insertStmt == None
    {
      base := new SrcBase.BaseBuilder(session, model);
      insertStmt := None;
    }

    /** `_initial`: creates the statement the first time, keeps it afterwards. */
    method Initial()
      requires Valid()
      modifies this`insertStmt
      ensures Valid() && insertStmt == Some(OrNew(old(insertStmt), Insert, base.model))
    {
      if insertStmt.None? {
        insertStmt := Some(DmlStmt(Insert, base.model, []));
      }
    }

    /** Adds one clause call to the (possibly new) statement. */
    method Extend(c: DmlCall<F, V>)
      requires Valid()
      modifies this`insertStmt
      ensures Valid() && insertStmt == Some(OrNew(old(insertStmt), Insert, base.model).Then(c))
    {
      Initial();
      insertStmt := Some(insertStmt.value.Then(c));
    }

    method Returning(entities: seq<Expr<F>>)
      requires Valid()
      modifies this`insertStmt
      ensures Valid() && insertStmt == Some(OrNew(old(insertStmt), Insert, base.model).Then(ReturningCall(entities)))
      ensures insertStmt.value.Returned() == OrNew(old(insertStmt), Insert, base.model).Returned() + entities
      ensures insertStmt.value.Assignments() == OrNew(old(insertStmt), Insert, base.model).Assignments()
    {
      ThenExtends(OrNew(insertStmt, Insert, base.model), ReturningCall(entities));
      Extend(ReturningCall(entities));
    }

    method ExecutionOptions(options: map<string, V>)
      requires Valid()
      modifies this`insertStmt
      ensures Valid() && insertStmt == Some(OrNew(old(insertStmt), Insert, base.model).Then(ExecutionOptionsCall(options)))
    {
      Extend(ExecutionOptionsCall(options));
    }

    method Values(args: seq<V>, kwargs: map<string, V>)
      requires Valid()
      modifies this`insertStmt
      ensures Valid() && insertStmt == Some(OrNew(old(insertStmt), Insert, base.model).Then(ValuesCall(ValuesArgs(args, kwargs))))
      ensures insertStmt.value.Assignments() == OrNew(old(insertStmt), Insert, base.model).Assignments() + [ValuesArgs(args, kwargs)]
      ensures insertStmt.value.Returned() == OrNew(old(insertStmt), Insert, base.model).Returned()
    {
      ThenExtends(OrNew(insertStmt, Insert, base.model), ValuesCall(ValuesArgs(args, kwargs)));
      Extend(ValuesCall(ValuesArgs(args, kwargs)));
    }

    /**
     * `execute(autocommit)`: ValueError when no statement was ever started;
     * otherwise the stored statement is executed once, then committed once
     * when `autocommit` holds. Only the presence of a statement is checked,
     * not that values were given.
     */
    method Execute(autocommit: bool := true) returns (r: Result<Handle>)
      modifies base.session
      ensures old(insertStmt).None? ==> r == Err(ValueError) && unchanged(base.session)
      ensures old(insertStmt).Some? ==>
        && r == Ok(Handle(|old(base.session.executed)|))
        && base.session.executed == old(base.session.executed) + [Dml(insertStmt.value)]
        && base.session.commits == old(base.session.commits) + (if autocommit then 1 else 0)
    {
      if insertStmt.None? {
        return Err(ValueError);
      }
      var h := base.session.Execute(Dml(insertStmt.value));
      if autocommit {
        base.Commit();
      }
      r := Ok(h);
    }
  }
}
