/**
 * The scope and macro tables every builder base class keeps: the scopes it
 * was booted with (a dict from scope class to scope instance, kept here as
 * its items in insertion order), the named macros scopes register, and the
 * `_on_delete` hook that booting resets.
 */
module Registries {
  import opened Wrappers

  /** One item of the scope dict: the scope's class name and its instance. */
  datatype ScopeEntry = ScopeEntry(kind: string, scope: object)

  /** A registered callable: a bound method `owner.name`. */
  datatype Macro = BoundMethod(owner: object, name: string)

  /** What is passed to `macro(name, callable_)`: Python accepts any object. */
  datatype MacroArg = Callable(target: Macro) | NotCallable

  datatype Registry = Registry(scopes: seq<ScopeEntry>, macros: map<string, Macro>, onDelete: Option<Macro>) {

    /** `macro(name, callable_)`: a callable is stored under `name`, replacing an earlier one; anything else is ignored. */
    function WithMacro(name: string, arg: MacroArg): (r: Registry)
      ensures r.scopes == scopes && r.onDelete == onDelete
      ensures arg.Callable? ==> name in r.macros && r.macros[name] == arg.target
      ensures arg.NotCallable? ==> r.macros == macros
      ensures forall n :: n != name ==> (n in r.macros <==> n in macros)
      ensures forall n :: n != name && n in macros ==> r.macros[n] == macros[n]
    {
      if arg.Callable? then this.(macros := macros[name := arg.target]) else this
    }

    /** The table part of `boot_scopes(scopes)`: the new table replaces the old one and `_on_delete` is reset. */
    function WithScopes(table: seq<ScopeEntry>): (r: Registry)
      ensures r.scopes == table && r.macros == macros && r.onDelete.None?
    {
      this.(scopes := table, onDelete := None)
    }

    /** The scope table without the entries of class `kind`. */
    function WithoutScope(kind: string): (r: Registry)
      ensures r.macros == macros && r.onDelete == onDelete
    {
      this.(scopes := Without(scopes, kind))
    }
  }

  /** The tables of a freshly constructed builder. */
  const Empty: Registry := Registry([], map[], None)

  /** The scope instances of a table, in table order. */
  function Instances(table: seq<ScopeEntry>): (r: seq<object>)
    ensures |r| == |table|
    ensures forall i :: 0 <= i < |table| ==> r[i] == table[i].scope
  {
    if |table| == 0 then [] else [table[0].scope] + Instances(table[1..])
  }

  /** `table` without the entries whose class is `kind`, the others in their order. */
  function Without(table: seq<ScopeEntry>, kind: string): seq<ScopeEntry> {
    if |table| == 0 then []
    else if table[0].kind == kind then Without(table[1..], kind)
    else [table[0]] + Without(table[1..], kind)
  }

  /**
   * Removing a kind is an order-preserving filter: it distributes over
   * concatenation (and, by WithoutSingle, drops one entry exactly when it
   * is of the kind).
   */
  lemma {:induction false} WithoutAppend(a: seq<ScopeEntry>, b: seq<ScopeEntry>, kind: string)
    ensures Without(a + b, kind) == Without(a, kind) + Without(b, kind)
  {
    if |a| == 0 {
      assert a + b == b;
    } else {
      var rest := Without(a[1..] + b, kind);
      assert (a + b)[1..] == a[1..] + b;
      assert (a + b)[0] == a[0];
      WithoutAppend(a[1..], b, kind);
      assert rest == Without(a[1..], kind) + Without(b, kind);
    }
  }

  lemma WithoutSingle(e: ScopeEntry, kind: string)
    ensures Without([e], kind) == (if e.kind == kind then [] else [e])
  {
    assert [e][1..] == [];
  }

  /**
   * Removing a kind keeps exactly the other entries: every entry of the
   * result is an entry of the table of another kind and conversely, and a
   * table without that kind is unchanged.
   */
  lemma {:induction false} WithoutKeepsOthers(table: seq<ScopeEntry>, kind: string)
    ensures forall e :: e in Without(table, kind) <==> e in table && e.kind != kind
    ensures |Without(table, kind)| <= |table|
    ensures (forall e :: e in table ==> e.kind != kind) ==> Without(table, kind) == table
  {
    if |table| > 0 {
      WithoutKeepsOthers(table[1..], kind);
      assert table == [table[0]] + table[1..];
    }
  }
}
