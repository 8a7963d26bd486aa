# flex-alchemy statement builders, modelled in Dafny

flex-alchemy wraps SQLAlchemy in fluent builder objects. A builder collects
query fragments in its fields: projection, predicates, grouping, having,
ordering, offset and limit, loader options, RETURNING entities, execution
options and values. It then assembles exactly one SELECT, INSERT, UPDATE or
DELETE from them and runs it on a session, committing when asked to. A
soft-delete scope attaches to a builder. It adds a `deleted_at IS NULL`
predicate, or it supplies an UPDATE that sets `deleted_at` in place of a
DELETE.

This project models that layer:

- SQLAlchemy fragments are an opaque type `F`. They are wrapped in
  `Statements.Expr<F>`, next to the few fragments the library builds itself:
  the whole model as a column, `deleted_at IS NULL` and `count(*)`.
- Bound values are an opaque type `V`.
- A SELECT is a record of clause lists (`Statements.SelectStmt`).
- An INSERT, UPDATE or DELETE is its verb, its table and the chain of clause
  calls made on it (`Statements.DmlStmt`). Its predicates, RETURNING entities
  and value assignments are read off that chain, in call order.
- A session is a class holding the log of executed statements and a commit
  counter (`Sessions.Session`). The answer a COUNT query gets is an oracle
  function fixed when the session is made.
- Builders are classes whose methods update their fields. Python subclassing
  is modelled by composition: a builder holds its base class's builder in a
  `base` field.
- Each build step is a pure function of those fields, and it is proved to
  place every fragment where the library puts it.

The repository's files come from several snapshots that do not line up, so
they are composed as the imports demand:

- `SelectBuilder` (fluent_alchemy/builders/select.py) is built on
  `BaseWhereBuilder` and `get_session` of src/flex_alchemy/builders/base.py.
- The insert, update and delete builders of fluent_alchemy/builders/ are
  built on `BaseBuilder` and `WhereBase` of src/builders/base.py. Only those
  define `_commit`.
- The scope of src/scopes/softdelete.py and the one of
  fluent_alchemy/scopes/softdelete.py differ in the name of the model
  accessor they call and in the builder type they name: the first names
  `SelectBuilder`, the second the composite `QueryBuilder` of
  fluent_alchemy/builders/query.py, whose bases are `SelectBuilder`,
  `DeleteBuilder` and `InsertBuilder` in that order. In both cases the
  `where` the scope calls is `BaseWhereBuilder.where`, reached through
  `SelectBuilder`, and the predicates go to the same `_where_clauses`. So
  one model, `SoftDelete.SoftDeleteScope`, serves both, attached to the
  select builder.

On these points the model follows the code:

- `select()` is additive and never raises.
- `delete()` commits only when `autocommit` is passed; the default is off.
- `get_session` accepts only an ORM `Session`. A per-call object that is not
  one, such as a `scoped_session`, raises `SessionNotProvidedError` even when
  a bound session exists.
- None of the builders in these files calls a scope's `apply`. The delete builder never looks up
  the `_delete_stmt` macro: in that builder the name is only its statement
  field.
- The scope of sqlalchemy_model/scopes/softdelete.py calls `_set_macros` and
  `_remove_scope`, which the builder of sqlalchemy_model/builder.py does not
  define. They are modelled on a `registry` field added to
  `ModelQuery.QueryBuilder`: `_set_macros` stores its argument
  unconditionally, and `_remove_scope` drops the entries of the scope's class.
  That builder's own `with_trashed` flag and filter are separate from this
  table. As written the calls raise AttributeError; both halves are under
  Findings.

## Model

| member | source | states |
|---|---|---|
| ModelQuery.QueryBuilder.constructor | sqlalchemy_model/builder.py:14-25 | a new builder has no entities, predicates, order clauses or options, no offset or limit, and `with_trashed` off |
| ModelQuery.QueryBuilder.Select | sqlalchemy_model/builder.py:27-30 | the entities are appended in call order and no other clause changes |
| ModelQuery.QueryBuilder.Where | sqlalchemy_model/builder.py:32-35 | the predicates are appended in call order and no other clause changes |
| ModelQuery.QueryBuilder.Offset | sqlalchemy_model/builder.py:37-40 | the offset is replaced by the new one, the rest unchanged |
| ModelQuery.QueryBuilder.Limit | sqlalchemy_model/builder.py:42-45 | the limit is replaced by the new one, the rest unchanged |
| ModelQuery.QueryBuilder.OrderBy | sqlalchemy_model/builder.py:66-69 | the order clauses are appended in call order and no other clause changes |
| ModelQuery.QueryBuilder.Options | sqlalchemy_model/builder.py:71-74 | the loader options are appended in call order and no other clause changes |
| ModelQuery.QueryBuilder.WithTrashed | sqlalchemy_model/builder.py:76-79 | sets the flag and nothing else |
| ModelQuery.QueryBuilder.First | sqlalchemy_model/builder.py:81-84 | a given statement runs exactly as given, else the built one; once, with no commit and no change to the builder |
| ModelQuery.QueryBuilder.Get | sqlalchemy_model/builder.py:86-89 | as `first`: one execution of the given or the built statement |
| ModelQuery.QueryBuilder.Paginate | sqlalchemy_model/builder.py:47-64 | stores offset (page-1)*per_page and limit per_page; runs the pageable COUNT query, then the data query; returns the page with total from the count, the given page and per_page, and last_page the ceiling of total/per_page; per_page 0 raises ZeroDivision after the COUNT query and before the data query |
| ModelQuery.GetStmtOf | sqlalchemy_model/builder.py:94-121 | a given statement keeps its projection and its clauses, in front; the predicates are the soft-delete filter, then the builder's own; pageable mode drops order, offset and limit and keeps predicates and options; otherwise the last offset and limit set win and an unset one adds nothing |
| ModelQuery.QueryBuilder.GetStmt | sqlalchemy_model/builder.py:94-121 | on the builder's current fields: the filter then the builder's predicates after those of the starting statement, the options appended; outside pageable mode the order clauses appended and the builder's offset and limit when set, the starting statement's otherwise; in pageable mode order, offset and limit are the starting statement's; a function, so building never writes the builder |
| ModelQuery.FreshStmt | sqlalchemy_model/builder.py:97-101 | without a given statement: the projection is the entities if any, else the model; the clauses are exactly the builder's, in order |
| ModelQuery.FilterIffSoftDeleted | sqlalchemy_model/builder.py:103-107 | the filter is the first predicate when it applies; when the builder's own predicates do not contain it, the statement has it exactly when it applies |
| ModelQuery.WhereAppends | sqlalchemy_model/builder.py:106-107 | one more `where` adds exactly its predicates at the end of the built statement's predicates |
| ModelQuery.CountMatchesData | sqlalchemy_model/builder.py:51-56 | the COUNT query counts over the model with the same predicates as the data query and has no order, offset or limit |
| ModelQuery.CeilDiv | sqlalchemy_model/builder.py:62 | the result is the ceiling of the exact quotient, for either sign of the divisor |
| ModelQuery.PageWindow | sqlalchemy_model/builder.py:47-63 | the data query of a page has offset (page-1)*per_page and limit per_page, whatever the builder's earlier offset and limit were |
| ModelQuery.QueryBuilder.SetMacros | sqlalchemy_model/scopes/softdelete.py:11 | the macro is stored under its name and the scope table is unchanged |
| ModelQuery.QueryBuilder.RemoveScope | sqlalchemy_model/scopes/softdelete.py:17 | the scope table loses the entries of the class and the macros are unchanged |
| ModelSoftDelete.SoftDeleteScope.constructor | sqlalchemy_model/scopes/softdelete.py:6-7 | a new scope has no builder |
| ModelSoftDelete.SoftDeleteScope.Boot | sqlalchemy_model/scopes/softdelete.py:9-11 | the scope holds the builder; the builder's `with_trashed` macro is the scope's bound `_with_trashed` |
| ModelSoftDelete.SoftDeleteScope.Apply | sqlalchemy_model/scopes/softdelete.py:13-14 | exactly one `deleted_at IS NULL` is appended, whatever the flag says; the same builder is returned |
| ModelSoftDelete.SoftDeleteScope.WithTrashed | sqlalchemy_model/scopes/softdelete.py:16-19 | only the scope's own class leaves the scope table, so none of its entries remain; the predicates stay; the same builder is returned |
| ModelSoftDelete.BootThenWithTrashed | sqlalchemy_model/scopes/softdelete.py:9-19 | boot then the `with_trashed` macro: the macro is registered, the class leaves the scope table, the builder's clauses are untouched and the builder is returned |
| ModelSoftDelete.BootAsWritten | sqlalchemy_model/scopes/softdelete.py:9-11 | against the builder of sqlalchemy_model/builder.py, boot stores the builder and then raises AttributeError |
| ModelSoftDelete.WithTrashedAsWritten | sqlalchemy_model/scopes/softdelete.py:16-19 | against that builder, `_with_trashed` raises AttributeError |
| ModelSoftDelete.ApplyKeepsFilter | sqlalchemy_model/scopes/softdelete.py:13-14 | on a soft-deletable model an applied scope makes the statement carry the filter twice; asking the builder for trashed rows afterwards drops only the builder's own copy |
| FluentBase.BaseBuilder.constructor | fluent_alchemy/builders/base.py:16-30 | every fragment list is empty; offset, limit and execution options are unset; the scope and macro tables are empty |
| FluentBase.BaseBuilder.Select | fluent_alchemy/builders/base.py:32-35 | the entities are appended in call order and nothing else changes |
| FluentBase.BaseBuilder.Where | fluent_alchemy/builders/base.py:37-40 | the predicates are appended in call order and nothing else changes |
| FluentBase.BaseBuilder.Offset | fluent_alchemy/builders/base.py:42-45 | the offset is replaced, not accumulated |
| FluentBase.BaseBuilder.Limit | fluent_alchemy/builders/base.py:47-50 | the limit is replaced, not accumulated |
| FluentBase.BaseBuilder.GroupBy | fluent_alchemy/builders/base.py:52-55 | the grouping entities are appended in call order and nothing else changes |
| FluentBase.BaseBuilder.Having | fluent_alchemy/builders/base.py:57-60 | the having predicates are appended in call order and nothing else changes |
| FluentBase.BaseBuilder.OrderBy | fluent_alchemy/builders/base.py:62-65 | the order clauses are appended in call order and nothing else changes |
| FluentBase.BaseBuilder.Returning | fluent_alchemy/builders/base.py:67-70 | the returning entities are appended in call order and nothing else changes |
| FluentBase.BaseBuilder.Options | fluent_alchemy/builders/base.py:72-75 | the loader options are appended in call order and nothing else changes |
| FluentBase.BaseBuilder.ExecutionOptions | fluent_alchemy/builders/base.py:77-83 | the map is created on first use and merged key by key |
| FluentBase.MergeOptions | fluent_alchemy/builders/base.py:77-83 | the keys are the old ones and the new ones together; a key given now has its new value; a key not given keeps its old value |
| FluentBase.BaseBuilder.Execute | fluent_alchemy/builders/base.py:85-86 | exactly the given statement is executed once on the bound session, with no commit |
| FluentBase.BaseBuilder.ApplyScopes | fluent_alchemy/builders/base.py:91-98 | the scope table is replaced, `_on_delete` is reset, and every scope is booted once, in table order; no fragment list, offset, limit or execution option changes; the builder's own code leaves the macros alone, and what each boot writes belongs to that scope's `Boot` |
| FluentBase.BaseBuilder.Macro | fluent_alchemy/builders/base.py:100-104 | a callable is stored under its name; anything else leaves the tables unchanged |
| Registries.Registry.WithMacro | src/flex_alchemy/builders/base.py:39-43 | a callable is stored under its name, replacing an earlier one; every other name keeps its entry; a non-callable changes nothing |
| Registries.Registry.WithScopes | src/flex_alchemy/builders/base.py:30-32 | the new table replaces the old one, `_on_delete` is reset and the macros are kept |
| Registries.Registry.WithoutScope | sqlalchemy_model/scopes/softdelete.py:17 | only the scope table changes |
| Registries.WithoutAppend | sqlalchemy_model/scopes/softdelete.py:17 | removal distributes over concatenation, so the entries left keep their order |
| Registries.WithoutSingle | sqlalchemy_model/scopes/softdelete.py:17 | one entry is dropped exactly when it is of the class |
| Registries.WithoutKeepsOthers | sqlalchemy_model/scopes/softdelete.py:17 | the entries left are exactly those of other classes; a table without the class is unchanged |
| FlexBase.BaseBuilder.constructor | src/flex_alchemy/builders/base.py:12-17 | the model and the optional session are bound; the scope and macro tables are empty |
| FlexBase.BaseBuilder.GetSession | src/flex_alchemy/builders/base.py:19-25 | succeeds exactly when the per-call session is given and is a Session, or none is given and the bound one is a Session; returns the per-call one, else the bound one; raises SessionNotProvided otherwise; nothing is stored |
| FlexBase.BaseBuilder.BootScopes | src/flex_alchemy/builders/base.py:30-37 | the scope table is replaced, `_on_delete` is reset, and every scope is booted once with this builder, in table order; the builder's own code leaves the macros alone, and what each boot writes belongs to that scope's `Boot` |
| FlexBase.BaseBuilder.Macro | src/flex_alchemy/builders/base.py:39-43 | a callable is registered or overwrites under its name; anything else is ignored |
| FlexBase.BaseWhereBuilder.constructor | src/flex_alchemy/builders/base.py:46-52 | a new builder has no predicates and empty tables |
| FlexBase.BaseWhereBuilder.Where | src/flex_alchemy/builders/base.py:49-52 | the predicates are appended in call order |
| SrcBase.BaseBuilder.Commit | src/builders/base.py:17-18 | exactly one commit on the bound session, with nothing executed |
| SrcBase.BaseBuilder.constructor | src/builders/base.py:10-15 | the session and model are bound; the scope and macro tables are empty and nothing was booted |
| SrcBase.BaseBuilder.BootScopes | src/builders/base.py:23-30 | the scope table is replaced, `_on_delete` is reset, and every scope is booted once, in order; the builder's own code leaves the macros alone, and what each boot writes belongs to that scope's `Boot` |
| SrcBase.BaseBuilder.Macro | src/builders/base.py:32-36 | a callable is stored or overwrites under its name; anything else is ignored |
| SrcBase.WhereBase.constructor | src/builders/base.py:39-40 | a new builder has no predicates and empty tables |
| SrcBase.WhereBase.Where | src/builders/base.py:42-45 | the predicates are appended in call order |
| SrcBase.ValueBase.constructor | src/builders/base.py:49-51 | no values are stored and no entities are returned |
| SrcBase.ValueBase.Values | src/builders/base.py:53-59 | the last call's values replace the earlier ones, with no merging |
| SrcBase.ValueBase.Returning | src/builders/base.py:61-64 | the entities are appended in call order |
| FluentSelect.SelectBuilder.constructor | fluent_alchemy/builders/select.py:14-23 | no entities, grouping, having, order clauses or options, and no offset or limit |
| FluentSelect.SelectBuilder.Select | fluent_alchemy/builders/select.py:25-28 | the entities are appended in call order; nothing raises |
| FluentSelect.SelectBuilder.Offset | fluent_alchemy/builders/select.py:30-33 | the offset is replaced |
| FluentSelect.SelectBuilder.Limit | fluent_alchemy/builders/select.py:35-38 | the limit is replaced |
| FluentSelect.SelectBuilder.GroupBy | fluent_alchemy/builders/select.py:40-43 | the grouping entities are appended in call order |
| FluentSelect.SelectBuilder.Having | fluent_alchemy/builders/select.py:45-48 | the having predicates are appended in call order; the grouping is untouched |
| FluentSelect.SelectBuilder.OrderBy | fluent_alchemy/builders/select.py:50-53 | the order clauses are appended in call order |
| FluentSelect.SelectBuilder.Options | fluent_alchemy/builders/select.py:55-58 | the loader options are appended in call order |
| FluentSelect.BuildStmt | fluent_alchemy/builders/select.py:60-87 | the projection is the entities if any, else the model; every clause is exactly the builder's fragments in order, so it is empty when none were given; offset and limit are the last values set; a having without group_by leaves the grouping empty |
| FluentSelect.SelectBuilder.Build | fluent_alchemy/builders/select.py:60-87 | the statement of the builder's current fields: its entities or the model, its predicates and each clause in order, its last offset and limit; a function, so building never writes the builder |
| FluentSelect.SelectBuilder.Execute | fluent_alchemy/builders/select.py:89-96 | the session is resolved first; if that fails it raises SessionNotProvided and runs nothing; otherwise the built statement runs exactly once on that session, with no commit |
| Statements.OrNew | fluent_alchemy/builders/insert.py:16-18 | a stored statement is kept; otherwise a new one for the model, with no predicates, returning or values |
| Statements.ThenExtends | fluent_alchemy/builders/update.py:17-30 | a chained clause call keeps the verb and table and adds exactly its own fragments after the earlier ones |
| FluentInsert.InsertBuilder.constructor | fluent_alchemy/builders/insert.py:11-14 | there is no statement until the first clause call |
| FluentInsert.InsertBuilder.Initial | fluent_alchemy/builders/insert.py:16-18 | an INSERT into the model is created the first time and never recreated |
| FluentInsert.InsertBuilder.Returning | fluent_alchemy/builders/insert.py:20-25 | the statement is created if needed, then the entities are appended in call order and the values are kept |
| FluentInsert.InsertBuilder.ExecutionOptions | fluent_alchemy/builders/insert.py:27-32 | the statement is created if needed, then extended by the options |
| FluentInsert.InsertBuilder.Values | fluent_alchemy/builders/insert.py:34-39 | the statement is created if needed, then the values are added to its assignments |
| FluentInsert.InsertBuilder.Execute | fluent_alchemy/builders/insert.py:41-51 | raises ValueError exactly when no statement was started, and then runs nothing; otherwise the statement runs once, then is committed once under autocommit (the default) and not otherwise |
| FluentUpdate.UpdateBuilder.constructor | fluent_alchemy/builders/update.py:12-15 | an UPDATE of the model exists from construction, with no predicate, assignment or returning |
| FluentUpdate.UpdateBuilder.Values | fluent_alchemy/builders/update.py:17-20 | the values become the statement's next column assignments; the predicates are kept |
| FluentUpdate.UpdateBuilder.Where | fluent_alchemy/builders/update.py:22-25 | the predicates are appended to the statement's in call order |
| FluentUpdate.UpdateBuilder.Returning | fluent_alchemy/builders/update.py:27-30 | the returning entities are appended in call order |
| FluentUpdate.UpdateBuilder.Execute | fluent_alchemy/builders/update.py:32-42 | on a builder whose statement exists, which is every builder, it never raises; it runs the statement once and commits once under autocommit (the default) and not otherwise |
| FluentDelete.WithPredicates | fluent_alchemy/builders/delete.py:31-32 | the accumulated predicates are appended to the statement in order; with none, the statement is unchanged |
| FluentDelete.RepeatedDeleteRepeatsPredicates | fluent_alchemy/builders/delete.py:31-32 | a second `delete()` adds the same predicates again |
| FluentDelete.DeleteBuilder.constructor | fluent_alchemy/builders/delete.py:12-15 | no predicates and no statement |
| FluentDelete.DeleteBuilder.DeleteStmtInitial | fluent_alchemy/builders/delete.py:17-19 | a DELETE from the model is created the first time and never recreated |
| FluentDelete.DeleteBuilder.Returning | fluent_alchemy/builders/delete.py:21-26 | the statement is created if needed, then the entities are appended in call order |
| FluentDelete.DeleteBuilder.Delete | fluent_alchemy/builders/delete.py:28-39 | the predicates are written into the stored statement in order; it runs once; it commits once only when autocommit is passed, the default being off |
| SoftDelete.SoftDeleteScope.constructor | src/scopes/softdelete.py:9-10 | a new scope has no builder |
| SoftDelete.SoftDeleteScope.Boot | src/scopes/softdelete.py:12-15 | the scope holds the builder, and exactly one macro, `_delete_stmt`, is registered as the scope's bound method |
| SoftDelete.SoftDeleteScope.Apply | src/scopes/softdelete.py:17-19 | without with_trashed, exactly one `deleted_at IS NULL` is appended after the predicates; with it, the predicates are unchanged; the result is the one `ApplyVia` gives through `get_model_class` |
| SoftDelete.SoftDeleteScope.DeleteStmt | src/scopes/softdelete.py:21-29 | on the bound builder: an UPDATE of its model under exactly its predicates, one assignment `deleted_at := now`, nothing returned; a function, so the builder is not modified |
| SoftDelete.BootScopesWithSoftDelete | src/flex_alchemy/builders/base.py:30-37 | booting a select builder with this one scope installs the one-entry table, boots the scope once, and leaves `_delete_stmt` registered as the scope's bound method |
| SoftDelete.FluentAccessorFinding | fluent_alchemy/scopes/softdelete.py:19 | through `_get_model_class` both operations raise; on a builder that defines `get_model_class`, as src/builders/base.py:20 does, they give the filter and the soft delete |
| SoftDelete.ApplyTwice | fluent_alchemy/scopes/softdelete.py:17-19 | applying twice appends the predicate twice |
| SoftDelete.SoftDeleteStmt | src/scopes/softdelete.py:21-29 | an UPDATE of the model with exactly the builder's predicates in order (none when there are none), exactly one assignment `deleted_at := now`, and nothing returned |
| SoftDelete.AppliedDeleteSkipsTrashed | fluent_alchemy/scopes/softdelete.py:17-29 | after `apply`, the soft delete is restricted by the builder's predicates and then by `deleted_at IS NULL` |

## Findings

| source | as written | input that shows it | evidently intended | confidence | as-written member | corrected member |
|---|---|---|---|---|---|---|
| fluent_alchemy/scopes/softdelete.py:19 | `apply` reaches the model through `_get_model_class`, which no builder defines | `apply(False)` on any builder | `get_model_class`, as src/scopes/softdelete.py:19 calls it | high; not executed | SoftDelete.FluentAccessorFinding | SoftDelete.SoftDeleteScope.Apply |
| fluent_alchemy/scopes/softdelete.py:22 | `_delete_stmt` reaches the model through `_get_model_class` | `_delete_stmt()` on any booted scope | `get_model_class`, as src/scopes/softdelete.py:22 calls it | high; not executed | SoftDelete.FluentAccessorFinding | SoftDelete.SoftDeleteStmt |
| sqlalchemy_model/scopes/softdelete.py:11 | `boot` calls `_set_macros`, which the QueryBuilder of sqlalchemy_model/builder.py does not define | `boot(QueryBuilder(session, model))` | the builder stores the macro under its name | medium; not executed | ModelSoftDelete.BootAsWritten | ModelSoftDelete.SoftDeleteScope.Boot |
| sqlalchemy_model/scopes/softdelete.py:17 | `_with_trashed` calls `_remove_scope`, which that QueryBuilder does not define | `_with_trashed()` on a booted scope | the builder drops the scope's class from its scope table | medium; not executed | ModelSoftDelete.WithTrashedAsWritten | ModelSoftDelete.SoftDeleteScope.WithTrashed |

The corrected members are the ones the rest of the model uses. For the
sqlalchemy_model scope they write to the `registry` field added to
`ModelQuery.QueryBuilder` (`SetMacros` and `RemoveScope`).

## Left out

- SQL semantics: statements are records, and what the library makes of them is not modelled. That covers the rows returned, the Row versus scalar shaping in `first`/`get`, and how repeated `.values()` or `.execution_options()` calls merge on a statement. The statement keeps the chain of calls instead.
- The results of `session.execute`, `scalar` and `scalars` are handles to the log entry. Only the COUNT result is a value, and it comes from the session's oracle.
- Returning `self` for chaining is not modelled: each setter is a method of the builder.
- `get_model_class` returns `self._model.__class__` (src/builders/base.py:20-21 and fluent_alchemy/builders/base.py:88-89); the builder's `Model` stands for that class. The `_get_model_class` call of fluent_alchemy/scopes/softdelete.py is under Findings.
- SoftDelete.SoftDeleteScope.Apply, SoftDelete.SoftDeleteScope.DeleteStmt: the scope is attached to the select builder, whose base in src/flex_alchemy/builders/base.py defines no `get_model_class`, so on that builder as composed `apply(False)` and `_delete_stmt` would raise AttributeError. The model reads the builder's model directly, as if the builder inherited the `get_model_class` of src/builders/base.py:20; it does not model the AttributeError of the composed host.
- `datetime.now()` is the `now` parameter of `SoftDelete.SoftDeleteScope.DeleteStmt`.
- `isinstance(session, Session)` is the `isOrmSession` flag of `Sessions.SessionRef`. The truthiness test in `session or self._session` is taken as "a session was given".
- FluentBase.BaseBuilder.ApplyScopes, FlexBase.BaseBuilder.BootScopes, SrcBase.BaseBuilder.BootScopes: `scope.boot(self)` calls into the scope's own class, which the builder modules cannot call back into. So these methods record the boots, in order, as the ghost trace `booted`, and state only what the builder's own code writes. Their macros-unchanged clause does not cover what the boots write. For the one scope class there is, `SoftDelete.BootScopesWithSoftDelete` joins the table installation and the boot and states the resulting macro table.
- The scope table is a dict keyed by class, so a class appears at most once. The model's sequence of entries does not enforce that, and `Without` drops every entry of the class.
- The default `scopes={}` of `boot_scopes`/`apply_scopes` is a Python aliasing quirk and is not modelled.
- `*args, **kwargs` forwarded to `session.execute` are not modelled.
- ModelQuery.CeilDiv: models `math.ceil(total / per_page)` as exact integer ceiling division, without the floating-point rounding of very large totals.
- ModelSoftDelete.SoftDeleteScope.Apply and SoftDelete.SoftDeleteScope.Apply require a model with `deleted_at` whenever they add the predicate, because the code reads that attribute and fails on other models.
- Macro dispatch through the registered tables and rollback on exceptions do not appear in the builders modelled here, so they are not modelled.
- The ActiveRecord facades, session setup, mixins, example models and test fixtures of the repository are not part of this model.
