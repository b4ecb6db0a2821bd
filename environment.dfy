/**
 * Chained lexical scopes (Interpreter/Environment.cs).
 *
 * The abstract view of an environment chain is `Scopes`, the maps of the
 * chain listed innermost first. `Lookup`, `DefineIn` and `AssignIn` are the
 * reference definitions on that view; the `Environment` class keeps the
 * source's shape (a map, a link to the enclosing environment) and its
 * operations are proved to act on `Scopes` exactly as these functions say.
 */
module Environments {
  import opened Util
  import opened Tokens
  import opened Errors

  type Scopes = seq<map<string, Value>>

  /** The search `get` performs: the first scope, innermost first, holding the name. */
  function Lookup(scopes: Scopes, name: string): Option<Value> {
    if |scopes| == 0 then None
    else if name in scopes[0] then Some(scopes[0][name])
    else Lookup(scopes[1..], name)
  }

  /** Scope `i` is the innermost one that binds `name`. */
  ghost predicate Innermost(scopes: Scopes, name: string, i: nat) {
    i < |scopes| && name in scopes[i] && forall j :: 0 <= j < i ==> name !in scopes[j]
  }

  /** `define`: create or overwrite the binding in the innermost scope only. */
  function DefineIn(scopes: Scopes, name: string, v: Value): (r: Scopes)
    requires |scopes| > 0
    ensures |r| == |scopes| && r[1..] == scopes[1..]
    ensures r[0] == scopes[0][name := v]
    ensures Lookup(r, name) == Some(v)
    ensures forall m :: m != name ==> Lookup(r, m) == Lookup(scopes, m)
  {
    [scopes[0][name := v]] + scopes[1..]
  }

  /**
   * `assign`: overwrite the binding in the innermost scope that has the name;
   * `None` when no scope has it (the caller raises "Undefined variable").
   */
  function AssignIn(scopes: Scopes, name: string, v: Value): (r: Option<Scopes>)
    ensures r.Some? <==> Lookup(scopes, name).Some?
    ensures r.Some? ==> |r.value| == |scopes|
    ensures r.Some? ==> forall j :: 0 <= j < |scopes| ==> r.value[j].Keys == scopes[j].Keys
    ensures r.Some? ==> Lookup(r.value, name) == Some(v)
    ensures r.Some? ==> forall m :: m != name ==> Lookup(r.value, m) == Lookup(scopes, m)
  {
    if |scopes| == 0 then None
    else if name in scopes[0] then Some([scopes[0][name := v]] + scopes[1..])
    else
      match AssignIn(scopes[1..], name, v)
      case None => None
      case Some(rest) => Some([scopes[0]] + rest)
  }

  /** `get` returns the value of the innermost binding. */
  lemma {:induction false} LookupFindsInnermost(scopes: Scopes, name: string, i: nat)
    requires Innermost(scopes, name, i)
    ensures Lookup(scopes, name) == Some(scopes[i][name])
  {
    if i > 0 {
      assert Innermost(scopes[1..], name, i - 1) by {
        forall j | 0 <= j < i - 1 ensures name !in scopes[1..][j] {
          assert scopes[1..][j] == scopes[j + 1];
        }
      }
      LookupFindsInnermost(scopes[1..], name, i - 1);
    }
  }

  /** `get` fails exactly when no scope of the chain binds the name. */
  lemma {:induction false} LookupMissing(scopes: Scopes, name: string)
    ensures Lookup(scopes, name).None? <==> forall j :: 0 <= j < |scopes| ==> name !in scopes[j]
  {
    if |scopes| > 0 {
      LookupMissing(scopes[1..], name);
      assert forall j :: 1 <= j < |scopes| ==> scopes[j] == scopes[1..][j - 1];
    }
  }

  /** `assign` rewrites exactly the innermost binding and creates none. */
  lemma {:induction false} AssignUpdatesInnermost(scopes: Scopes, name: string, v: Value, i: nat)
    requires Innermost(scopes, name, i)
    ensures AssignIn(scopes, name, v) == Some(scopes[i := scopes[i][name := v]])
  {
    if i > 0 {
      assert Innermost(scopes[1..], name, i - 1) by {
        forall j | 0 <= j < i - 1 ensures name !in scopes[1..][j] {
          assert scopes[1..][j] == scopes[j + 1];
        }
      }
      AssignUpdatesInnermost(scopes[1..], name, v, i - 1);
      assert name !in scopes[0];
      assert [scopes[0]] + scopes[1..][i - 1 := scopes[i][name := v]] == scopes[i := scopes[i][name := v]];
    } else {
      assert [scopes[0][name := v]] + scopes[1..] == scopes[0 := scopes[0][name := v]];
    }
  }

  /** The outcome of `get`: the value, or the exception it throws. */
  datatype Fetched = Found(value: Value) | Undefined(error: RuntimeError)

  class Environment {
    var values: map<string, Value>
    /** The C# property has a setter, but nothing ever reassigns it. */
    const enclosing: Environment?
    /** The environments of the chain, this one first. */
    ghost const Repr: set<object>
    /** The chain's maps, innermost (this one's) first. */
    ghost var Scopes: Scopes

    ghost predicate Valid()
      reads this, Repr
      decreases Repr
    {
      && this in Repr
      && |Scopes| > 0 && Scopes[0] == values
      && (enclosing == null ==> |Scopes| == 1)
      && (enclosing != null ==>
            && enclosing in Repr && enclosing.Repr <= Repr && this !in enclosing.Repr
            && enclosing.Valid() && Scopes[1..] == enclosing.Scopes)
    }

    /** `new Environment()`: the global scope. */
    constructor Global()
      ensures Valid() && fresh(Repr)
      ensures enclosing == null && Scopes == [map[]]
    {
      values := map[];
      enclosing := null;
      Repr := {this};
      Scopes := [map[]];
    }

    /** `new Environment(enclosing)`: an empty scope inside `enclosing`. */
    constructor Nested(enclosing: Environment)
      requires enclosing.Valid()
      ensures Valid() && this.enclosing == enclosing
      ensures Repr == {this} + enclosing.Repr
      ensures Scopes == [map[]] + enclosing.Scopes
    {
      values := map[];
      this.enclosing := enclosing;
      Repr := {this} + enclosing.Repr;
      Scopes := [map[]] + enclosing.Scopes;
    }

    method Define(name: string, value: Value)
      requires Valid()
      modifies this
      ensures Valid()
      ensures Scopes == DefineIn(old(Scopes), name, value)
    {
      values := values[name := value];
      Scopes := [values] + Scopes[1..];
    }

    function Get(name: Token): (r: Fetched)
      requires Valid()
      reads this, Repr
      decreases Repr
      ensures r.Found? <==> Lookup(Scopes, name.lexeme).Some?
      ensures r.Found? ==> r.value == Lookup(Scopes, name.lexeme).value
      ensures r.Undefined? ==> r.error == UndefinedVariable(name)
    {
      if name.lexeme in values then Found(values[name.lexeme])
      else if enclosing != null then enclosing.Get(name)
      else Undefined(UndefinedVariable(name))
    }

    /** Returns the exception `assign` throws, or `None` when it succeeds. */
    method Assign(name: Token, value: Value) returns (r: Option<RuntimeError>)
      requires Valid()
      modifies Repr
      decreases Repr
      ensures Valid()
      ensures match AssignIn(old(Scopes), name.lexeme, value)
              case Some(after) => r.None? && Scopes == after
              case None => r == Some(UndefinedVariable(name)) && Scopes == old(Scopes)
    {
      if name.lexeme in values {
        values := values[name.lexeme := value];
        Scopes := [values] + Scopes[1..];
        return None;
      }
      if enclosing != null {
        r := enclosing.Assign(name, value);
        Scopes := [values] + enclosing.Scopes;
        return;
      }
      return Some(UndefinedVariable(name));
    }
  }
}
