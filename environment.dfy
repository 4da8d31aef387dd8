/**
 * The Environment of go/environment/environment.go: a binding map that
 * `Define` and `Assign` update in place, and an optional enclosing
 * environment that `Get` and `Assign` fall through to.
 *
 * Repr is the chain of environments from this one outwards; `depth`
 * counts the links, so the chain has no cycle.  Scopes is the chain's
 * maps as a value, and every operation is proved against the functions
 * on such values in the Scopes module.
 */
module GoEnvironment {
  import opened Tokens
  import opened GoAst
  import opened Scopes

  class Environment {
    var values: map<string, Object>
    /** `Enclosing`: no code of the interpreter reassigns it. */
    const enclosing: Environment?
    ghost const Repr: set<object>
    ghost const depth: nat

    ghost predicate Valid()
      decreases depth
    {
      this in Repr &&
      (enclosing == null ==> Repr == {this} && depth == 0) &&
      (enclosing != null ==>
        depth == enclosing.depth + 1 && this !in enclosing.Repr &&
        Repr == {this} + enclosing.Repr && enclosing.Valid())
    }

    /** The binding maps from this environment outwards. */
    ghost function Scopes(): (r: Chain)
      requires Valid()
      reads Repr
      ensures |r| == depth + 1 && r[0] == values
      decreases depth
    {
      [values] + if enclosing == null then [] else enclosing.Scopes()
    }

    /** NewEnvironment */
    constructor (enclosing: Environment?)
      requires enclosing != null ==> enclosing.Valid()
      ensures Valid() && fresh(this)
      ensures Scopes() == [map[]] + if enclosing == null then [] else enclosing.Scopes()
      ensures this.enclosing == enclosing
    {
      this.enclosing := enclosing;
      values := map[];
      Repr := {this} + if enclosing == null then {} else enclosing.Repr;
      depth := if enclosing == null then 0 else enclosing.depth + 1;
    }

    /** Binds name in this environment, replacing a binding it may already have here. */
    method Define(name: string, value: Object)
      requires Valid()
      modifies this`values
      ensures Valid() && Scopes() == DefineIn(old(Scopes()), name, value)
    {
      values := values[name := value];
    }

    /** The innermost binding of name along the chain, None for `(nil, false)`. */
    function Get(name: string): (r: Option<Object>)
      requires Valid()
      reads Repr
      ensures r == Lookup(Scopes(), name)
      decreases depth
    {
      if name in values then Some(values[name])
      else if enclosing != null then enclosing.Get(name)
      else None
    }

    /** Rebinds name where it is innermost-bound; no environment on the chain binds it, nothing changes. */
    method Assign(name: string, value: Object)
      requires Valid()
      modifies Repr
      ensures Valid() && Scopes() == AssignIn(old(Scopes()), name, value)
      decreases depth
    {
      if name in values {
        values := values[name := value];
        return;
      }
      if enclosing != null {
        enclosing.Assign(name, value);
        return;
      }
    }
  }
}
