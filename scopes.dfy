/**
 * A chain of environments as a value: the binding maps from the innermost
 * scope outwards.  Lookup, DefineIn and AssignIn say what `Get`, `Define`
 * and `Assign` of go/environment/environment.go do to such a chain; the
 * class Environment is proved against them.
 */
module Scopes {
  import opened Tokens
  import opened GoAst

  type Chain = seq<map<string, Object>>

  /** The index of the innermost scope that binds name. */
  function Nearest(chain: Chain, name: string): (r: Option<nat>)
    ensures r.Some? ==> r.value < |chain| && name in chain[r.value]
    ensures r.Some? ==> forall k :: 0 <= k < r.value ==> name !in chain[k]
    ensures r.None? ==> forall k :: 0 <= k < |chain| ==> name !in chain[k]
  {
    if chain == [] then None
    else if name in chain[0] then Some(0)
    else
      match Nearest(chain[1..], name)
      case None => None
      case Some(k) => Some(k + 1)
  }

  /** `Get`: the binding in the receiver, else the enclosing chain's answer, else a miss. */
  function Lookup(chain: Chain, name: string): (r: Option<Object>)
    ensures r.None? <==> forall k :: 0 <= k < |chain| ==> name !in chain[k]
    ensures r.Some? ==> exists k :: 0 <= k < |chain| && name in chain[k] && r.value == chain[k][name]
  {
    if chain == [] then None
    else if name in chain[0] then Some(chain[0][name])
    else Lookup(chain[1..], name)
  }

  /** `Define`: bind name in the receiver, replacing any binding it has there. */
  function DefineIn(chain: Chain, name: string, value: Object): (r: Chain)
    requires |chain| > 0
    ensures |r| == |chain| && r[0] == chain[0][name := value] && r[1..] == chain[1..]
  {
    [chain[0][name := value]] + chain[1..]
  }

  /** `Assign`: rebind name in the innermost scope that binds it; no scope binds it, nothing happens. */
  function AssignIn(chain: Chain, name: string, value: Object): (r: Chain)
    ensures |r| == |chain|
  {
    if chain == [] then []
    else if name in chain[0] then [chain[0][name := value]] + chain[1..]
    else [chain[0]] + AssignIn(chain[1..], name, value)
  }

  /** A lookup finds the innermost binding, and misses only when no scope binds the name. */
  lemma {:induction false} LookupNearest(chain: Chain, name: string)
    ensures Lookup(chain, name) ==
      match Nearest(chain, name)
      case Some(k) => Some(chain[k][name])
      case None => None
  {
    if chain != [] && name !in chain[0] {
      LookupNearest(chain[1..], name);
    }
  }

  /** After `Define(n, v)`, `Get(n)` on the same environment answers v. */
  lemma DefineThenGet(chain: Chain, name: string, value: Object)
    requires |chain| > 0
    ensures Lookup(DefineIn(chain, name, value), name) == Some(value)
  {
  }

  /** `Define` of one name leaves the answer for every other name alone. */
  lemma DefineKeepsOthers(chain: Chain, name: string, value: Object, other: string)
    requires |chain| > 0 && other != name
    ensures Lookup(DefineIn(chain, name, value), other) == Lookup(chain, other)
  {
    var r := DefineIn(chain, name, value);
    assert r[1..] == chain[1..];
  }

  /** A binding in the receiver shadows every binding of the name further out. */
  lemma Shadowing(inner: map<string, Object>, outer: Chain, name: string)
    requires name in inner
    ensures Lookup([inner] + outer, name) == Some(inner[name])
  {
  }

  /** A name the receiver does not bind is looked up in the enclosing chain. */
  lemma FallThrough(inner: map<string, Object>, outer: Chain, name: string)
    requires name !in inner
    ensures Lookup([inner] + outer, name) == Lookup(outer, name)
  {
    assert ([inner] + outer)[1..] == outer;
  }

  /**
   * `Assign` rebinds name in its innermost scope and changes nothing else;
   * with no scope binding name, the chain is unchanged.
   */
  lemma {:induction false} AssignNearest(chain: Chain, name: string, value: Object)
    ensures var r := AssignIn(chain, name, value);
      match Nearest(chain, name)
      case Some(k) => r == chain[k := chain[k][name := value]]
      case None => r == chain
  {
    if chain != [] && name !in chain[0] {
      AssignNearest(chain[1..], name, value);
      var r := AssignIn(chain, name, value);
      match Nearest(chain[1..], name)
      case Some(k) =>
        ConsUpdate(chain, k, chain[k + 1][name := value]);
      case None =>
        assert r == [chain[0]] + chain[1..];
    }
  }

  /** Updating the tail of a non-empty chain is updating the chain one index further. */
  lemma ConsUpdate(chain: Chain, k: nat, scope: map<string, Object>)
    requires k + 1 < |chain|
    ensures [chain[0]] + chain[1..][k := scope] == chain[k + 1 := scope]
  {
  }

  /** `Get` and `Assign` never create a binding: every scope keeps its names. */
  lemma {:induction false} AssignKeepsNames(chain: Chain, name: string, value: Object)
    ensures var r := AssignIn(chain, name, value);
      forall k :: 0 <= k < |chain| ==> r[k].Keys == chain[k].Keys
  {
    AssignNearest(chain, name, value);
  }

  /** `Get` after `Assign` answers the assigned value if the name was bound anywhere, and misses otherwise. */
  lemma {:induction false} AssignThenGet(chain: Chain, name: string, value: Object)
    ensures Lookup(AssignIn(chain, name, value), name) ==
      if Lookup(chain, name).Some? then Some(value) else None
  {
    if chain != [] && name !in chain[0] {
      AssignThenGet(chain[1..], name, value);
      assert AssignIn(chain, name, value)[1..] == AssignIn(chain[1..], name, value);
    }
  }
}
