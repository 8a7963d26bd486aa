/**
 * The builder bases of src/flex_alchemy/builders/base.py: a base bound to a
 * model and optionally to a session, which resolves the session of each
 * call, and BaseWhereBuilder, which adds predicates. As in the other bases,
 * the subclass holds its BaseBuilder in `base`.
 */
module FlexBase {
  import opened Wrappers
  import opened Statements
  import opened Sessions
  import opened Registries

  class BaseBuilder<F, V> {
    const model: Model
    /** The session given at construction, if any. */
    const session: Option<SessionRef<F, V>>
    var registry: Registry
    /** The scopes whose `boot(self)` this builder has called, in call order. */
    ghost var booted: seq<object>

    constructor (model: Model, session: Option<SessionRef<F, V>>)
      ensures this.model == model && this.session == session
      ensures registry == Empty && booted == []
    {
      this.model := model;
      this.session := session;
      registry := Empty;
      booted := [];
    }

    /** `session or self._session`: the object `get_session` goes on to check. */
    function Candidate(perCall: Option<SessionRef<F, V>>): Option<SessionRef<F, V>> {
      if perCall.Some? then perCall else session
    }

    /**
     * `get_session(session)`: the per-call session when one is given, the
     * bound one otherwise, and SessionNotProvided when the chosen object is
     * missing or is not an ORM Session. A per-call object that is not a
     * Session is not passed over in favour of the bound one.
     */
    function GetSession(perCall: Option<SessionRef<F, V>>): (r: Result<Session<F, V>>)
      ensures r.Ok? <==> ((perCall.Some? && perCall.value.isOrmSession) ||
                          (perCall.None? && session.Some? && session.value.isOrmSession))
      ensures r.Ok? && perCall.Some? ==> r.value == perCall.value.target
      ensures r.Ok? && perCall.None? ==> r.value == session.value.target
      ensures r.Err? ==> r.error == SessionNotProvided
    {
      var chosen := Candidate(perCall);
      if chosen.None? || !chosen.value.isOrmSession then Err(SessionNotProvided) else Ok(chosen.value.target)
    }

    /** The objects a terminal call that resolves its session through `GetSession(perCall)` may change. */
    function Reachable(perCall: Option<SessionRef<F, V>>): set<object> {
      var chosen := Candidate(perCall);
      if chosen.Some? then {chosen.value.target} else {}
    }

    /** `boot_scopes(scopes)`: installs the table, resets `_on_delete` and calls `boot(self)` once per scope, in order. */
    method BootScopes(table: seq<ScopeEntry>)
      modifies this
      ensures registry == old(registry).WithScopes(table)
      ensures booted == old(booted) + Instances(table)
    {
      registry := registry.WithScopes(table);
      for i := 0 to |table|
        invariant registry == old(registry).WithScopes(table)
        invariant booted == old(booted) + Instances(table[..i])
      {
        booted := booted + [table[i].scope];
        assert table[..i + 1] == table[..i] + [table[i]];
      }
      assert table[..|table|] == table;
    }

    /** `macro(name, callable_)`. */
    method Macro(name: string, arg: MacroArg)
      modifies this`registry
      ensures registry == old(registry).WithMacro(name, arg)
    {
      registry := registry.WithMacro(name, arg);
    }
  }

  /** A builder that accumulates predicates. */
  class BaseWhereBuilder<F, V> {
    const base: BaseBuilder<F, V>
    var whereClauses: seq<Expr<F>>

    constructor (model: Model, session: Option<SessionRef<F, V>>)
      ensures fresh(base) && base.model == model && base.session == session
      ensures base.registry == Empty && base.booted == [] && whereClauses == []
    {
      base := new BaseBuilder(model, session);
      whereClauses := [];
    }

    /** `where(*express)`: appends the predicates after the earlier ones. */
    method Where(predicates: seq<Expr<F>>)
      modifies this`whereClauses
      ensures whereClauses == old(whereClauses) + predicates
    {
      whereClauses := whereClauses + predicates;
    }
  }
}
