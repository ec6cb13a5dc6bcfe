/** What the evaluator guarantees across statements, calls and loops. */
module EvaluatorFacts {
  import opened Wrappers
  import opened Errors
  import opened Ast
  import opened Values
  import opened Evaluator

  // ---------------------------------------------------------------------------
  // Fuel
  // ---------------------------------------------------------------------------

  /** More fuel never changes an outcome that did not run out of fuel. */
  lemma {:induction false} ExecStmtFuel(s: Stmt, st: State, f: nat, g: nat, fmt: real -> string)
    requires f <= g && ExecStmt(s, st, f, fmt) != OutOfFuel
    ensures ExecStmt(s, st, g, fmt) == ExecStmt(s, st, f, fmt)
    decreases f, 0
  {
    match s
    case Assign(_, _) =>
    case ExprStmt(_) =>
    case If(c, body) =>
      var v := Eval(c, st.env, fmt);
      var next := State(st.env, st.out + v.printed);
      if v.result.Ok? && v.result.value.Bool? && v.result.value.b {
        ExecBlockFuel(body, next, f - 1, g - 1, fmt);
      }
    case While(c, body) =>
      var v := Eval(c, st.env, fmt);
      var next := State(st.env, st.out + v.printed);
      if v.result.Ok? && v.result.value.Bool? {
        WhileLoopFuel(c, body, next, f - 1, g - 1, fmt);
      }
  }

  lemma {:induction false} ExecBlockFuel(ss: seq<Stmt>, st: State, f: nat, g: nat, fmt: real -> string)
    requires f <= g && ExecBlock(ss, st, f, fmt) != OutOfFuel
    ensures ExecBlock(ss, st, g, fmt) == ExecBlock(ss, st, f, fmt)
    decreases f, |ss| + 1
  {
    if ss != [] {
      var o := ExecStmt(ss[0], st, f, fmt);
      ExecStmtFuel(ss[0], st, f, g, fmt);
      if o.Done? {
        ExecBlockFuel(ss[1..], o.state, f, g, fmt);
      }
    }
  }

  lemma {:induction false} WhileLoopFuel(c: Expr, body: seq<Stmt>, st: State, f: nat, g: nat, fmt: real -> string)
    requires f <= g && WhileLoop(c, body, st, f, fmt) != OutOfFuel
    ensures WhileLoop(c, body, st, g, fmt) == WhileLoop(c, body, st, f, fmt)
    decreases f, 1
  {
    if Eval(c, st.env, fmt).result == Ok(Bool(true)) {
      IterationFuel(c, body, st, f, g, fmt);
    } else {
      WhileStopsAlike(c, body, st, f, g, fmt);
    }
  }

  /** A loop whose condition holds finishes the same way with more fuel, given that the body and the rest do. */
  lemma {:induction false} IterationFuel(c: Expr, body: seq<Stmt>, st: State, f: nat, g: nat, fmt: real -> string)
    requires f <= g && f > 0 && Eval(c, st.env, fmt).result == Ok(Bool(true))
    requires WhileLoop(c, body, st, f, fmt) != OutOfFuel
    ensures WhileLoop(c, body, st, g, fmt) == WhileLoop(c, body, st, f, fmt)
    decreases f, 0
  {
    var next := State(st.env, st.out + Eval(c, st.env, fmt).printed);
    var o := ExecBlock(body, next, f - 1, fmt);
    assert WhileLoop(c, body, st, f, fmt) == (if o.Done? then WhileLoop(c, body, o.state, f - 1, fmt) else o) by {
      WhileIterate(c, body, st, f, fmt);
    }
    assert ExecBlock(body, next, g - 1, fmt) == o by {
      ExecBlockFuel(body, next, f - 1, g - 1, fmt);
    }
    assert WhileLoop(c, body, st, g, fmt) == (if o.Done? then WhileLoop(c, body, o.state, g - 1, fmt) else o) by {
      WhileIterate(c, body, st, g, fmt);
    }
    if o.Done? {
      WhileLoopFuel(c, body, o.state, f - 1, g - 1, fmt);
    }
  }

  /** A loop whose condition does not hold, or fails, ends at once whatever the fuel. */
  lemma WhileStopsAlike(c: Expr, body: seq<Stmt>, st: State, f: nat, g: nat, fmt: real -> string)
    requires 0 < f <= g && Eval(c, st.env, fmt).result != Ok(Bool(true))
    ensures WhileLoop(c, body, st, g, fmt) == WhileLoop(c, body, st, f, fmt)
  {
  }

  /** One iteration of a loop whose condition holds: the body, then the loop again if the body ended normally. */
  lemma WhileIterate(c: Expr, body: seq<Stmt>, st: State, f: nat, fmt: real -> string)
    requires f > 0 && Eval(c, st.env, fmt).result == Ok(Bool(true))
    ensures var o := ExecBlock(body, State(st.env, st.out + Eval(c, st.env, fmt).printed), f - 1, fmt);
      WhileLoop(c, body, st, f, fmt) == (if o.Done? then WhileLoop(c, body, o.state, f - 1, fmt) else o)
  {
  }

  /** A run that finished (normally or with an error) finishes the same way with any larger bound. */
  lemma RunFuel(p: Program, fmt: real -> string, f: nat, g: nat)
    requires f <= g && RunProgram(p, fmt, f) != OutOfFuel
    ensures RunProgram(p, fmt, g) == RunProgram(p, fmt, f)
  {
    ExecBlockFuel(p.body, InitialState(), f, g, fmt);
  }

  // ---------------------------------------------------------------------------
  // Expressions
  // ---------------------------------------------------------------------------

  /** Two environments that agree on the names `e` reads. */
  predicate AgreeOn(names: set<string>, env1: map<string, Value>, env2: map<string, Value>)
  {
    forall x :: x in names ==> (x in env1 <==> x in env2) && (x in env1 ==> env1[x] == env2[x])
  }

  /** An expression without calls depends only on the bindings of the variables it reads. */
  lemma {:induction false} EvalReadsFreeVars(e: Expr, env1: map<string, Value>, env2: map<string, Value>, fmt: real -> string)
    requires CallFree(e) && AgreeOn(FreeVars(e), env1, env2)
    ensures Eval(e, env1, fmt) == Eval(e, env2, fmt)
  {
    match e
    case Num(_) =>
    case Var(_) =>
    case Paren(c) =>
      EvalReadsFreeVars(c, env1, env2, fmt);
    case Neg(x) =>
      EvalReadsFreeVars(x, env1, env2, fmt);
    case BinOp(l, _, r) =>
      EvalReadsFreeVars(l, env1, env2, fmt);
      EvalReadsFreeVars(r, env1, env2, fmt);
  }

  /** `(E)` evaluates exactly as `E`. */
  lemma ParenTransparent(e: Expr, env: map<string, Value>, fmt: real -> string)
    ensures Eval(Paren(e), env, fmt) == Eval(e, env, fmt)
  {
  }

  /** A variable is its binding, or the failure "No such variable". */
  lemma VariableLookup(x: string, env: map<string, Value>, fmt: real -> string)
    ensures x in env ==> Eval(Var(x), env, fmt) == Evaluated(Ok(env[x]), [])
    ensures x !in env ==> Eval(Var(x), env, fmt) == Evaluated(Err(NameError(NoSuchVariable(x))), [])
  {
  }

  /**
   * The left operand is evaluated first: when it fails the right one is never
   * evaluated; otherwise the output is the left operand's followed by the right one's,
   * and the Calculator sees both values.
   */
  lemma LeftOperandFirst(l: Expr, op: string, r: Expr, env: map<string, Value>, fmt: real -> string)
    ensures Eval(l, env, fmt).result.Err? ==> Eval(BinOp(l, op, r), env, fmt) == Eval(l, env, fmt)
    ensures Eval(l, env, fmt).result.Ok? ==>
      Eval(BinOp(l, op, r), env, fmt).printed == Eval(l, env, fmt).printed + Eval(r, env, fmt).printed
    ensures Eval(l, env, fmt).result.Ok? && Eval(r, env, fmt).result.Ok? ==>
      Eval(BinOp(l, op, r), env, fmt).result
        == Calculate(Eval(l, env, fmt).result.value, Eval(r, env, fmt).result.value, op)
  {
  }

  // ---------------------------------------------------------------------------
  // Calls
  // ---------------------------------------------------------------------------

  /** The lines printed by evaluating the first `n` arguments one after another. */
  function PrintedBy(items: seq<Expr>, n: nat, env: map<string, Value>, fmt: real -> string): seq<string>
    requires n <= |items|
  {
    if n == 0 then [] else Eval(items[0], env, fmt).printed + PrintedBy(items[1..], n - 1, env, fmt)
  }

  /**
   * The arguments are evaluated left to right: on success the output is every
   * argument's output in order; otherwise the error is that of the first
   * failing argument, every argument before it succeeded, and the output stops
   * after that argument's own.
   */
  lemma {:induction false} ArgumentsInOrder(items: seq<Expr>, env: map<string, Value>, fmt: real -> string)
    ensures var r := EvalArgs(items, env, fmt);
      r.result.Ok? ==> r.printed == PrintedBy(items, |items|, env, fmt)
    ensures var r := EvalArgs(items, env, fmt);
      r.result.Err? ==> exists k :: (
        && 0 <= k < |items|
        && Eval(items[k], env, fmt).result == Err(r.result.error)
        && (forall i :: 0 <= i < k ==> Eval(items[i], env, fmt).result.Ok?)
        && r.printed == PrintedBy(items, k + 1, env, fmt))
    decreases |items|
  {
    if items != [] {
      var v := Eval(items[0], env, fmt);
      var tail := items[1..];
      if v.result.Err? {
        assert PrintedBy(items, 1, env, fmt) == v.printed + PrintedBy(tail, 0, env, fmt);
        assert v.printed + [] == v.printed;
      } else {
        var rest := EvalArgs(tail, env, fmt);
        ArgumentsInOrder(tail, env, fmt);
        if rest.result.Err? {
          var k :| 0 <= k < |tail| && Eval(tail[k], env, fmt).result == Err(rest.result.error) &&
            (forall i :: 0 <= i < k ==> Eval(tail[i], env, fmt).result.Ok?) &&
            rest.printed == PrintedBy(tail, k + 1, env, fmt);
          assert items[k + 1] == tail[k];
          forall i | 0 <= i < k + 1
            ensures Eval(items[i], env, fmt).result.Ok?
          {
            if i > 0 { assert items[i] == tail[i - 1]; }
          }
          assert PrintedBy(items, k + 2, env, fmt) == v.printed + PrintedBy(tail, k + 1, env, fmt);
        }
      }
    }
  }

  /**
   * `print(a1, ..., an,)` with arguments that print nothing and are not null:
   * the output is `PRINT:` and one line per argument, and the value is null.
   */
  lemma PrintCall(f: Expr, items: seq<Expr>, vs: seq<Value>, env: map<string, Value>, fmt: real -> string)
    requires Eval(f, env, fmt) == Evaluated(Ok(PrintFn), [])
    requires "print" in env && env["print"] == PrintFn
    requires EvalArgs(items, env, fmt) == EvaluatedArgs(Ok(vs), [])
    requires forall i :: 0 <= i < |vs| ==> !vs[i].NoValue?
    ensures Eval(Call(f, Present(items)), env, fmt).result == Ok(NoValue)
    ensures var out := Eval(Call(f, Present(items)), env, fmt).printed;
      |out| == |vs| + 1 && out[0] == "PRINT:" &&
      forall i :: 0 <= i < |vs| ==> Display(vs[i], fmt) == Ok(out[i + 1])
  {
    HeaderThenLines(vs, fmt);
    PrintCallLines(f, items, vs, env, fmt);
  }

  /** `PRINT:` followed by the display lines of non-null values: one line per value, in order. */
  lemma HeaderThenLines(vs: seq<Value>, fmt: real -> string)
    requires forall i :: 0 <= i < |vs| ==> !vs[i].NoValue?
    ensures PrintLines(vs, fmt).result == Ok(NoValue)
    ensures var out := ["PRINT:"] + PrintLines(vs, fmt).printed;
      |out| == |vs| + 1 && out[0] == "PRINT:" &&
      forall i :: 0 <= i < |vs| ==> Display(vs[i], fmt) == Ok(out[i + 1])
  {
    var p := PrintLines(vs, fmt);
    var out := ["PRINT:"] + p.printed;
    forall i | 0 <= i < |vs|
      ensures Display(vs[i], fmt) == Ok(out[i + 1])
    {
      assert out[i + 1] == p.printed[i];
    }
  }

  lemma PrintCallLines(f: Expr, items: seq<Expr>, vs: seq<Value>, env: map<string, Value>, fmt: real -> string)
    requires Eval(f, env, fmt) == Evaluated(Ok(PrintFn), [])
    requires "print" in env && env["print"] == PrintFn
    requires EvalArgs(items, env, fmt) == EvaluatedArgs(Ok(vs), [])
    ensures Eval(Call(f, Present(items)), env, fmt) == Evaluated(PrintLines(vs, fmt).result, ["PRINT:"] + PrintLines(vs, fmt).printed)
  {
    var lines := PrintLines(vs, fmt).printed;
    assert [] + EvalArgs(items, env, fmt).printed + ["PRINT:"] + lines == ["PRINT:"] + lines;
    assert Eval(Call(f, Present(items)), env, fmt) == EvalCall(PrintFn, Present(items), env, fmt, []);
    EvalCallPrint(PrintFn, "print", items, vs, env, fmt, []);
  }

  /**
   * Calling the print function: the output so far, then what the arguments
   * printed, then `PRINT:` and the argument lines.
   */
  lemma EvalCallPrint(callee: Value, key: string, items: seq<Expr>, vs: seq<Value>, env: map<string, Value>, fmt: real -> string, before: seq<string>)
    requires Display(callee, fmt) == Ok(key) && key in env && env[key] == PrintFn
    requires EvalArgs(items, env, fmt).result == Ok(vs)
    ensures EvalCall(callee, Present(items), env, fmt, before)
         == Evaluated(PrintLines(vs, fmt).result, before + EvalArgs(items, env, fmt).printed + ["PRINT:"] + PrintLines(vs, fmt).printed)
  {
  }

  /** The function is found under the callee value's text, whatever the callee expression was. */
  lemma CallKeyIsDisplay(f: Expr, args: Args, env: map<string, Value>, fmt: real -> string, v: Value, key: string)
    requires Eval(f, env, fmt) == Evaluated(Ok(v), []) && Display(v, fmt) == Ok(key)
    ensures key !in env ==> Eval(Call(f, args), env, fmt) == Evaluated(Err(NameError(UnknownFunction(key))), [])
    ensures key in env && args.Absent? ==> Eval(Call(f, args), env, fmt) == Evaluated(Err(InternalError(NullReference)), [])
  {
  }

  /** A variable bound to the print function calls `print`, under whatever name it is bound. */
  lemma AliasCallsPrint(x: string, args: Args, env: map<string, Value>, fmt: real -> string)
    requires x in env && env[x] == PrintFn
    requires "print" in env && env["print"] == PrintFn
    ensures Eval(Call(Var(x), args), env, fmt) == EvalCall(PrintFn, args, env, fmt, [])
    ensures Eval(Call(Var(x), args), env, fmt) == Eval(Call(Var("print"), args), env, fmt)
  {
  }

  /** `true(...)`: the key of a Boolean is `True`, which the initial environment does not bind. */
  lemma CallOnBoolean(args: Args, fmt: real -> string)
    ensures Eval(Call(Var("true"), args), InitialEnv, fmt) == Evaluated(Err(NameError(UnknownFunction("True"))), [])
  {
    assert "True" !in InitialEnv;
  }

  /** `f()` builds an absent argument list, which the call cannot iterate. */
  lemma EmptyArgumentsFail(fmt: real -> string)
    ensures Eval(Call(Var("print"), Absent), InitialEnv, fmt) == Evaluated(Err(InternalError(NullReference)), [])
  {
  }

  /** A bound key whose value is not the print function cannot be called, after its arguments ran. */
  lemma CallOnNonFunction(f: Expr, items: seq<Expr>, env: map<string, Value>, fmt: real -> string, v: Value, key: string)
    requires Eval(f, env, fmt) == Evaluated(Ok(v), []) && Display(v, fmt) == Ok(key)
    requires key in env && !env[key].PrintFn?
    requires EvalArgs(items, env, fmt).result.Ok?
    ensures Eval(Call(f, Present(items)), env, fmt)
         == Evaluated(Err(InternalError(NullReference)), EvalArgs(items, env, fmt).printed)
  {
    assert [] + EvalArgs(items, env, fmt).printed == EvalArgs(items, env, fmt).printed;
  }

  /** The initial environment binds exactly `true`, `false` and `print`. */
  lemma InitialBindings(fmt: real -> string)
    ensures InitialEnv.Keys == {"true", "false", "print"}
    ensures Eval(Var("true"), InitialEnv, fmt).result == Ok(Bool(true))
    ensures Eval(Var("false"), InitialEnv, fmt).result == Ok(Bool(false))
    ensures Eval(Var("print"), InitialEnv, fmt).result == Ok(PrintFn)
  {
  }

  // ---------------------------------------------------------------------------
  // Assignment
  // ---------------------------------------------------------------------------

  /**
   * An assignment rebinds its target to the right-hand side's value and
   * leaves every other binding as it was; a failing right-hand side binds nothing
   * and aborts with its error.
   */
  lemma AssignFrame(x: string, e: Expr, st: State, fuel: nat, fmt: real -> string)
    requires fuel > 0
    ensures var v := Eval(e, st.env, fmt);
      var o := ExecStmt(Assign(x, e), st, fuel, fmt);
      (v.result.Err? <==> o.Failed?) &&
      (o.Failed? ==> o == Failed(v.result.error, st.out + v.printed)) &&
      (o.Done? ==>
        o.state.out == st.out + v.printed &&
        o.state.env.Keys == st.env.Keys + {x} && o.state.env[x] == v.result.value &&
        forall y :: y in st.env && y != x ==> o.state.env[y] == st.env[y])
  {
  }

  /** `x = E; x = E;` ends as `x = E;` when `E` has no call and does not read `x`. */
  lemma AssignTwice(x: string, e: Expr, st: State, fuel: nat, fmt: real -> string)
    requires CallFree(e) && x !in FreeVars(e)
    ensures ExecBlock([Assign(x, e), Assign(x, e)], st, fuel, fmt) == ExecBlock([Assign(x, e)], st, fuel, fmt)
  {
    var o := ExecStmt(Assign(x, e), st, fuel, fmt);
    if o.Done? {
      EvalReadsFreeVars(e, st.env, o.state.env, fmt);
      var o2 := ExecStmt(Assign(x, e), o.state, fuel, fmt);
      assert o2 == o;
      assert [Assign(x, e), Assign(x, e)][1..] == [Assign(x, e)];
    }
  }

  // ---------------------------------------------------------------------------
  // If and while
  // ---------------------------------------------------------------------------

  /** `if`: a false condition changes nothing but the output its condition printed. */
  lemma IfFalse(c: Expr, body: seq<Stmt>, st: State, fuel: nat, fmt: real -> string)
    requires fuel > 0 && Eval(c, st.env, fmt).result == Ok(Bool(false))
    ensures ExecStmt(If(c, body), st, fuel, fmt) == Done(State(st.env, st.out + Eval(c, st.env, fmt).printed))
  {
  }

  /** `if`: a true condition runs the body once. */
  lemma IfTrue(c: Expr, body: seq<Stmt>, st: State, fuel: nat, fmt: real -> string)
    requires fuel > 0 && Eval(c, st.env, fmt).result == Ok(Bool(true))
    ensures ExecStmt(If(c, body), st, fuel, fmt)
         == ExecBlock(body, State(st.env, st.out + Eval(c, st.env, fmt).printed), fuel - 1, fmt)
  {
  }

  /** `if` and `while`: a condition that is not a Boolean fails before anything runs. */
  lemma ConditionNotBoolean(c: Expr, body: seq<Stmt>, st: State, fuel: nat, fmt: real -> string)
    requires fuel > 0 && Eval(c, st.env, fmt).result.Ok? && !Eval(c, st.env, fmt).result.value.Bool?
    ensures ExecStmt(If(c, body), st, fuel, fmt) == Failed(TypeError(ConditionNotBool), st.out + Eval(c, st.env, fmt).printed)
    ensures ExecStmt(While(c, body), st, fuel, fmt) == Failed(TypeError(ConditionNotBool), st.out + Eval(c, st.env, fmt).printed)
  {
  }

  /** A `while` statement that ends normally ends on a condition that evaluated to false. */
  lemma WhileExit(c: Expr, body: seq<Stmt>, st: State, fuel: nat, fmt: real -> string)
    requires ExecStmt(While(c, body), st, fuel, fmt).Done?
    ensures Eval(c, ExecStmt(While(c, body), st, fuel, fmt).state.env, fmt).result == Ok(Bool(false))
  {
  }

  /**
   * The condition is evaluated once for the type check and again before the
   * first iteration, so what it prints appears twice even when the loop never runs.
   */
  lemma WhileChecksConditionTwice(c: Expr, body: seq<Stmt>, st: State, fuel: nat, fmt: real -> string)
    requires fuel > 1 && Eval(c, st.env, fmt).result == Ok(Bool(false))
    ensures var lines := Eval(c, st.env, fmt).printed;
      ExecStmt(While(c, body), st, fuel, fmt) == Done(State(st.env, st.out + lines + lines))
  {
  }

  /** A condition that stops being a Boolean after an iteration is read through a null reference. */
  lemma WhileLaterConditionNotBoolean(c: Expr, body: seq<Stmt>, st: State, fuel: nat, fmt: real -> string)
    requires fuel > 0 && Eval(c, st.env, fmt).result.Ok? && !Eval(c, st.env, fmt).result.value.Bool?
    ensures WhileLoop(c, body, st, fuel, fmt) == Failed(InternalError(NullReference), st.out + Eval(c, st.env, fmt).printed)
  {
  }

  /** `i < n` */
  function CountCond(n: nat): Expr
  {
    BinOp(Var("i"), "<", Expr.Num(n))
  }

  /** `i = i + 1;` */
  function CountBody(): seq<Stmt>
  {
    [Assign("i", BinOp(Var("i"), "+", Expr.Num(1)))]
  }

  /** `while (i < n) { i = i + 1; }` from `i == k <= n` stops with `i == n`, printing nothing. */
  lemma {:induction false} CountingLoop(n: nat, k: nat, st: State, fuel: nat, fmt: real -> string)
    requires k <= n && "i" in st.env && st.env["i"] == Value.Num(k as real)
    requires fuel >= n - k + 2
    ensures WhileLoop(CountCond(n), CountBody(), st, fuel, fmt) == Done(State(st.env["i" := Value.Num(n as real)], st.out))
    decreases n - k
  {
    var env := st.env;
    assert Eval(CountCond(n), env, fmt).result == Ok(Bool(k < n));
    assert st.out + [] == st.out;
    if k == n {
      assert env["i" := Value.Num(n as real)] == env;
    } else {
      var body := CountBody();
      var env' := env["i" := Value.Num((k + 1) as real)];
      assert Eval(body[0].value, env, fmt).result == Ok(Value.Num((k + 1) as real));
      assert ExecStmt(body[0], st, fuel - 1, fmt) == Done(State(env', st.out));
      assert ExecBlock(body, st, fuel - 1, fmt) == Done(State(env', st.out));
      CountingLoop(n, k + 1, State(env', st.out), fuel - 1, fmt);
      assert env'["i" := Value.Num(n as real)] == env["i" := Value.Num(n as real)];
    }
  }

  /** `i = 0; while (i < 3) { i = i + 1; }` ends with `i == 3` and no output. */
  lemma CountToThree(fmt: real -> string)
    ensures RunProgram(Program([Assign("i", Expr.Num(0)), While(CountCond(3), CountBody())]), fmt, 6)
         == Done(State(InitialEnv["i" := Value.Num(3.0)], []))
  {
    var body := [Assign("i", Expr.Num(0)), While(CountCond(3), CountBody())];
    var st := State(InitialEnv["i" := Value.Num(0.0)], []);
    var final := State(InitialEnv["i" := Value.Num(3.0)], []);
    CountStart(fmt);
    CountThenStop(st, fmt);
    assert ExecBlock(body[1..], st, 6, fmt) == Done(final);
  }

  lemma CountStart(fmt: real -> string)
    ensures ExecStmt(Assign("i", Expr.Num(0)), InitialState(), 6, fmt) == Done(State(InitialEnv["i" := Value.Num(0.0)], []))
  {
  }

  lemma CountThenStop(st: State, fmt: real -> string)
    requires st == State(InitialEnv["i" := Value.Num(0.0)], [])
    ensures ExecStmt(While(CountCond(3), CountBody()), st, 6, fmt) == Done(State(InitialEnv["i" := Value.Num(3.0)], []))
  {
    assert Eval(CountCond(3), st.env, fmt) == Evaluated(Ok(Bool(true)), []);
    CountingLoop(3, 0, st, 5, fmt);
    assert st.env["i" := Value.Num(3.0)] == InitialEnv["i" := Value.Num(3.0)];
  }
}
