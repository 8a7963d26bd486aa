/**
 * Python's method lookup, as far as the scopes depend on it: calling
 * `builder.name(...)` fails with AttributeError before anything runs when the
 * builder's class defines no attribute `name`.
 */
module Attributes {
  import opened Wrappers

  /** The lookup of `name` on an object whose class defines exactly `defined`. */
  function GetAttr(defined: set<string>, name: string): (r: Result<string>)
    ensures r.Ok? <==> name in defined
    ensures r.Ok? ==> r.value == name
    ensures r.Err? ==> r.error == AttributeError
  {
    if name in defined then Ok(name) else Err(AttributeError)
  }

  /**
   * The model-class accessor of the builder bases that define one:
   * `get_model_class`, in src/builders/base.py and
   * fluent_alchemy/builders/base.py. The base of src/flex_alchemy/builders/base.py
   * defines none.
   */
  const BuilderAccessors: set<string> := {"get_model_class"}

  /** The attributes the QueryBuilder class of sqlalchemy_model/builder.py defines. */
  const QueryBuilderAttributes: set<string> :=
    {"select", "where", "offset", "limit", "paginate", "order_by", "options",
     "with_trashed", "first", "get", "_is_softdeleted", "_get_stmt"}
}
