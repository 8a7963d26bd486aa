/**
 * UpdateBuilder of fluent_alchemy/builders/update.py. The UPDATE statement
 * exists from construction on and every call extends it. The session and
 * `_commit` are those of the base builder of src/builders/base.py.
 */
module FluentUpdate {
  import opened Wrappers
  import opened Statements
  import opened Sessions
  import SrcBase

  class UpdateBuilder<F, V> {
    const base: SrcBase.BaseBuilder<F, V>
    var updateStmt: Option<DmlStmt<F, V>>

    /** The statement is present, and is an UPDATE of the builder's model. */
    ghost predicate Valid()
      reads this
    {
      updateStmt.Some? && updateStmt.value.verb == Update && updateStmt.value.table == base.model
    }

    /** The UPDATE is created eagerly, with no clause: no predicate, no values, no returning. */
    constructor (session: Session<F, V>, model: Model)
      ensures Valid() && fresh(base) && base.session == session && base.model == model
      ensures updateStmt.value.Predicates() == [] && updateStmt.value.Assignments() == [] && updateStmt.value.Returned() == []
    {
      base := new SrcBase.BaseBuilder(session, model);
      updateStmt := Some(DmlStmt(Update, model, []));
    }

    method Values(args: seq<V>, kwargs: map<string, V>)
      requires Valid()
      modifies this`updateStmt
      ensures Valid() && updateStmt == Some(old(updateStmt).value.Then(ValuesCall(ValuesArgs(args, kwargs))))
      ensures updateStmt.value.Assignments() == old(updateStmt).value.Assignments() + [ValuesArgs(args, kwargs)]
      ensures updateStmt.value.Predicates() == old(updateStmt).value.Predicates()
    {
      ThenExtends(updateStmt.value, ValuesCall(ValuesArgs(args, kwargs)));
      updateStmt := Some(updateStmt.value.Then(ValuesCall(ValuesArgs(args, kwargs))));
    }

    /** `where(*express)`: the predicates go straight into the statement, after the earlier ones. */
    method Where(predicates: seq<Expr<F>>)
      requires Valid()
      modifies this`updateStmt
      ensures Valid() && updateStmt == Some(old(updateStmt).value.Then(WhereCall(predicates)))
      ensures updateStmt.value.Predicates() == old(updateStmt).value.Predicates() + predicates
      ensures updateStmt.value.Assignments() == old(updateStmt).value.Assignments()
    {
      ThenExtends(updateStmt.value, WhereCall(predicates));
      updateStmt := Some(updateStmt.value.Then(WhereCall(predicates)));
    }

    method Returning(entities: seq<Expr<F>>)
      requires Valid()
      modifies this`updateStmt
      ensures Valid() && updateStmt == Some(old(updateStmt).value.Then(ReturningCall(entities)))
      ensures updateStmt.value.Returned() == old(updateStmt).value.Returned() + entities
    {
      ThenExtends(updateStmt.value, ReturningCall(entities));
      updateStmt := Some(updateStmt.value.Then(ReturningCall(entities)));
    }

    /**
     * `execute(autocommit)`: the ValueError branch belongs to a missing
     * statement, which a valid builder never has, so it never raises: the
     * statement is executed once, then committed once when `autocommit` holds.
     */
    method Execute(autocommit: bool := true) returns (r: Result<Handle>)
      modifies base.session
      ensures old(Valid()) ==> r.Ok?
      ensures old(updateStmt).None? ==> r == Err(ValueError) && unchanged(base.session)
      ensures old(updateStmt).Some? ==>
        && r == Ok(Handle(|old(base.session.executed)|))
        && base.session.executed == old(base.session.executed) + [Dml(updateStmt.value)]
        && base.session.commits == old(base.session.commits) + (if autocommit then 1 else 0)
    {
      if updateStmt.None? {
        return Err(ValueError);
      }
      var h := base.session.Execute(Dml(updateStmt.value));
      if autocommit {
        base.Commit();
      }
      r := Ok(h);
    }
  }
}
