/** The scope chain: a binding table with an optional enclosing table that the
    child holds by value (src/compiler/parser.rs, lines 60-137). */
module Environments {
  import opened Wrappers
  import opened Ast

  /** One scope: an owned copy of the enclosing scope, a node counter, and the
      bindings of this scope only. */
  datatype Env = Env(enclosing: Option<Env>, nodeCount: nat, vars: map<string, Expression>)

  /** The result of a scope operation together with the scope afterwards. */
  datatype Update = Update(result: ParseResult, env: Env)

  /** One table of a chain, seen from outside: its counter and its bindings. */
  datatype Frame = Frame(count: nat, bindings: map<string, Expression>)

  /** A root scope: one empty table, so no name is bound. */
  function NewEnv(): (e: Env)
    ensures Frames(e) == [Frame(0, map[])]
    ensures forall name :: GetValue(e, name).Failed?
  {
    Env(None, 0, map[])
  }

  /** A nested scope, holding a snapshot of `outer` taken now: an empty table
      in front of the outer chain, through which every lookup sees exactly
      what the outer scope sees. */
  function NewSub(outer: Env): (e: Env)
    ensures Frames(e) == [Frame(0, map[])] + Frames(outer)
    ensures forall name :: GetValue(e, name) == GetValue(outer, name)
  {
    Env(Some(outer), 0, map[])
  }

  /** The tables of a chain, innermost first. */
  function Frames(env: Env): (fs: seq<Frame>)
    ensures |fs| >= 1 && fs[0] == Frame(env.nodeCount, env.vars)
    ensures env.enclosing.None? ==> |fs| == 1
    ensures env.enclosing.Some? ==> fs[1..] == Frames(env.enclosing.value)
    decreases env
  {
    match env.enclosing
    case None => [Frame(env.nodeCount, env.vars)]
    case Some(outer) => [Frame(env.nodeCount, env.vars)] + Frames(outer)
  }

  /** Table `i` is the innermost one of the chain that binds `name`. */
  predicate IsNearest(fs: seq<Frame>, name: string, i: int) {
    && 0 <= i < |fs|
    && name in fs[i].bindings
    && forall j :: 0 <= j < i ==> name !in fs[j].bindings
  }

  predicate BoundInChain(fs: seq<Frame>, name: string) {
    exists i :: 0 <= i < |fs| && name in fs[i].bindings
  }

  /** Binds `name` in this table only; enclosing tables are not consulted, so a
      fresh nested scope may shadow an outer binding. */
  function Define(env: Env, name: string, value: Expression): (u: Update)
    ensures u.result.Failed? <==> name in env.vars
    ensures u.result.Failed? ==> u.env == env
    ensures u.result.Success? ==>
      && u.env.enclosing == env.enclosing
      && u.env.nodeCount == env.nodeCount + 1
      && u.env.vars.Keys == env.vars.Keys + {name}
      && (forall k :: k in env.vars ==> u.env.vars[k] == env.vars[k])
      && u.result.value == Expression(env.nodeCount + 1, LiteralExpression(name, value), value.returnType)
    ensures u.result.Success? ==> GetValue(u.env, name) == Success(value)
  {
    if name in env.vars then
      Update(Failed("Variable already defined"), env)
    else
      var env' := env.(nodeCount := env.nodeCount + 1, vars := env.vars[name := value]);
      Update(Success(Expression(env'.nodeCount, LiteralExpression(name, value), value.returnType)), env')
  }

  /** Replaces the binding of `name` in the innermost table that has one. */
  function AssignValue(env: Env, name: string, value: Expression): (u: Update)
    decreases env
  {
    if name in env.vars then
      var env' := env.(nodeCount := env.nodeCount + 1, vars := env.vars[name := value]);
      Update(Success(Expression(env'.nodeCount, LiteralExpression(name, value), value.returnType)), env')
    else
      match env.enclosing
      case Some(outer) =>
        var inner := AssignValue(outer, name, value);
        Update(inner.result, env.(enclosing := Some(inner.env)))
      case None => Update(Failed("Variable not defined"), env)
  }

  /** A copy of the binding of `name` in the innermost table that has one. */
  function GetValue(env: Env, name: string): ParseResult
    decreases env
  {
    if name in env.vars then Success(env.vars[name])
    else
      match env.enclosing
      case Some(outer) => GetValue(outer, name)
      case None => Failed("Variable doesn't exist")
  }

  /** Lookup succeeds exactly when some table of the chain binds the name. */
  lemma {:induction false} GetValueBound(env: Env, name: string)
    ensures GetValue(env, name).Success? <==> BoundInChain(Frames(env), name)
    decreases env
  {
    var fs := Frames(env);
    if name in env.vars {
      assert name in fs[0].bindings;
    } else if env.enclosing.Some? {
      var outer := env.enclosing.value;
      var gs := Frames(outer);
      GetValueBound(outer, name);
      if BoundInChain(fs, name) {
        var i :| 0 <= i < |fs| && name in fs[i].bindings;
        assert gs[i - 1] == fs[i];
      }
      if BoundInChain(gs, name) {
        var j :| 0 <= j < |gs| && name in gs[j].bindings;
        assert fs[j + 1] == gs[j];
      }
    }
  }

  /** A successful lookup yields the binding of the innermost table that binds
      the name. */
  lemma {:induction false} GetValueNearest(env: Env, name: string, i: nat)
    requires IsNearest(Frames(env), name, i)
    ensures GetValue(env, name) == Success(Frames(env)[i].bindings[name])
    decreases env
  {
    var fs := Frames(env);
    if i > 0 {
      assert name !in fs[0].bindings;
      var outer := env.enclosing.value;
      var gs := Frames(outer);
      assert fs == [fs[0]] + gs;
      assert IsNearest(gs, name, i - 1);
      GetValueNearest(outer, name, i - 1);
    }
  }

  /** Assignment to a name no table binds fails and changes nothing. */
  lemma {:induction false} AssignValueUnbound(env: Env, name: string, value: Expression)
    requires !BoundInChain(Frames(env), name)
    ensures AssignValue(env, name, value) == Update(Failed("Variable not defined"), env)
    decreases env
  {
    var fs := Frames(env);
    assert name !in fs[0].bindings;
    if env.enclosing.Some? {
      var outer := env.enclosing.value;
      AssignValueUnbound(outer, name, value);
    }
  }

  /** Assignment rewrites the one binding of the innermost table that has the
      name, bumps that table's counter, and leaves every other table as it was. */
  lemma {:induction false} AssignValueNearest(env: Env, name: string, value: Expression, i: nat)
    requires IsNearest(Frames(env), name, i)
    ensures AssignValue(env, name, value).result
      == Success(Expression(Frames(env)[i].count + 1, LiteralExpression(name, value), value.returnType))
    ensures Frames(AssignValue(env, name, value).env)
      == Frames(env)[i := Frame(Frames(env)[i].count + 1, Frames(env)[i].bindings[name := value])]
    decreases env
  {
    var fs := Frames(env);
    var u := AssignValue(env, name, value);
    if i > 0 {
      assert name !in fs[0].bindings;
      var outer := env.enclosing.value;
      var gs := Frames(outer);
      assert fs == [fs[0]] + gs;
      assert IsNearest(gs, name, i - 1);
      AssignValueNearest(outer, name, value, i - 1);
      var inner := AssignValue(outer, name, value);
      assert u.env == env.(enclosing := Some(inner.env));
      assert Frames(u.env) == [fs[0]] + Frames(inner.env);
      ConsUpdate(fs[0], gs, i - 1, Frame(fs[i].count + 1, fs[i].bindings[name := value]));
    } else {
      assert Frames(u.env)[1..] == fs[1..];
    }
  }

  lemma ConsUpdate<T>(a: T, s: seq<T>, k: nat, x: T)
    requires k < |s|
    ensures [a] + s[k := x] == ([a] + s)[k + 1 := x]
  {
  }

  /** After an assignment, lookup of the assigned name gives the new value and
      lookup of any other name is unchanged. */
  lemma {:induction false} AssignThenGet(env: Env, name: string, value: Expression, other: string)
    requires AssignValue(env, name, value).result.Success?
    ensures GetValue(AssignValue(env, name, value).env, name) == Success(value)
    ensures other != name ==>
      GetValue(AssignValue(env, name, value).env, other) == GetValue(env, other)
    decreases env
  {
    if name !in env.vars {
      match env.enclosing
      case Some(outer) =>
        AssignThenGet(outer, name, value, other);
      case None =>
    }
  }

  /** A fresh nested scope may bind a name its enclosing scope already binds;
      inside it the new binding hides the outer one, which is still there. */
  lemma FreshScopeShadows(outer: Env, name: string, value: Expression)
    ensures Define(NewSub(outer), name, value).result.Success?
    ensures GetValue(Define(NewSub(outer), name, value).env, name) == Success(value)
    ensures Define(NewSub(outer), name, value).env.enclosing == Some(outer)
  {
  }

  /** A nested scope holds a snapshot: a binding added to the enclosing scope
      after the nested scope was made is not visible through it. */
  lemma SnapshotIsolation(outer: Env, name: string, value: Expression)
    requires GetValue(outer, name).Failed?
    ensures GetValue(Define(outer, name, value).env, name) == Success(value)
    ensures GetValue(NewSub(outer), name).Failed?
  {
  }

  /** Every binding of every table obeys the expression typing discipline. */
  predicate EnvTyped(env: Env)
    decreases env
  {
    && (forall k :: k in env.vars ==> ExprTyped(env.vars[k]))
    && (env.enclosing.Some? ==> EnvTyped(env.enclosing.value))
  }

  lemma {:induction false} TypedLookup(env: Env, name: string)
    ensures EnvTyped(env) && GetValue(env, name).Success? ==> ExprTyped(GetValue(env, name).value)
    decreases env
  {
    if name !in env.vars {
      match env.enclosing
      case Some(outer) => TypedLookup(outer, name);
      case None =>
    }
  }
}
