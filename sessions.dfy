/**
 * The session collaborator. The database itself is outside the model: a
 * session only records, in order, the statements handed to it and how many
 * times it was asked to commit. The one number the builders read back, the
 * row count of a COUNT query, comes from `countOf`, an answer fixed when the
 * session is created.
 */
module Sessions {
  import opened Statements

  /** What a session call hands back: the result of the `index`-th statement it executed. */
  datatype Handle = Handle(index: nat)

  class Session<F, V> {
    var executed: seq<Stmt<F, V>>
    var commits: nat
    const countOf: SelectStmt<F> -> nat

    constructor (countOf: SelectStmt<F> -> nat)
      ensures executed == [] && commits == 0 && this.countOf == countOf
    {
      executed := [];
      commits := 0;
      this.countOf := countOf;
    }

    /** `session.execute(stmt)` (and `scalar`, `scalars`, which the model does not tell apart). */
    method Execute(s: Stmt<F, V>) returns (h: Handle)
      modifies this
      ensures executed == old(executed) + [s] && commits == old(commits)
      ensures h.index == |old(executed)| && executed[h.index] == s
    {
      h := Handle(|executed|);
      executed := executed + [s];
    }

    /** `session.commit()`. */
    method Commit()
      modifies this
      ensures commits == old(commits) + 1 && executed == old(executed)
    {
      commits := commits + 1;
    }
  }

  /**
   * An object offered as a session. `isOrmSession` says whether it is an
   * instance of the ORM's Session class; a `scoped_session` proxy is not.
   */
  datatype SessionRef<F, V> = SessionRef(target: Session<F, V>, isOrmSession: bool)
}
