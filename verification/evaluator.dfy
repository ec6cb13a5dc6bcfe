/**
 * The tree-walking evaluator: expressions are evaluated in a flat global
 * environment, statements update it, and `print` appends lines to an output
 * trace. Statements run on fuel, so a `while` loop that never stops is an
 * outcome the model can express (it runs out of fuel for every bound).
 */
module Evaluator {
  import opened Wrappers
  import opened Errors
  import opened Ast
  import opened Values

  /** The result of evaluating an expression, and the lines it printed on the way, even when it failed. */
  datatype Evaluated = Evaluated(result: Result<Value, Error>, printed: seq<string>)

  /** The result of evaluating an argument list left to right. */
  datatype EvaluatedArgs = EvaluatedArgs(result: Result<seq<Value>, Error>, printed: seq<string>)

  /** The global environment and everything printed so far. */
  datatype State = State(env: map<string, Value>, out: seq<string>)

  /**
   * How a statement ends: normally, with the first error (which aborts the
   * whole run, keeping the output written before it), or without enough fuel.
   */
  datatype Outcome =
    | Done(state: State)
    | Failed(error: Error, out: seq<string>)
    | OutOfFuel

  /** The environment every run starts with. */
  const InitialEnv: map<string, Value> := map["true" := Bool(true), "false" := Bool(false), "print" := PrintFn]

  /** A fresh evaluator: nothing printed yet, and only `true`, `false` and `print` bound, to their values. */
  function InitialState(): (r: State)
    ensures r.out == [] && r.env.Keys == {"true", "false", "print"}
    ensures r.env["true"] == Bool(true) && r.env["false"] == Bool(false) && r.env["print"] == PrintFn
  {
    State(InitialEnv, [])
  }

  // ---------------------------------------------------------------------------
  // Expressions
  // ---------------------------------------------------------------------------

  /**
   * `ExpressionVisitor<Value>`: a number is its value, a variable its binding,
   * a parenthesis its child; a binary operation evaluates the left operand,
   * then the right one, then calls the Calculator; a call looks the function up
   * under the display text of the callee's value.
   */
  function Eval(e: Expr, env: map<string, Value>, fmt: real -> string): (r: Evaluated)
    ensures CallFree(e) ==> r.printed == []
    ensures r.result.Err? ==> IsRuntime(r.result.error)
    decreases e
  {
    match e
    case Num(n) => Evaluated(Ok(Value.Num(n as real)), [])
    case Var(x) => Evaluated(if x in env then Ok(env[x]) else Err(NameError(NoSuchVariable(x))), [])
    case Paren(c) => Eval(c, env, fmt)
    case Neg(x) =>
      var v := Eval(x, env, fmt);
      if v.result.Err? then v
      else if v.result.value.Num? then Evaluated(Ok(Value.Num(-v.result.value.n)), v.printed)
      else Evaluated(Err(TypeError(UnaryMinusNotNumber)), v.printed)
    case BinOp(l, op, r) =>
      var a := Eval(l, env, fmt);
      if a.result.Err? then a
      else
        var b := Eval(r, env, fmt);
        Evaluated(if b.result.Err? then b.result else Calculate(a.result.value, b.result.value, op), a.printed + b.printed)
    case Call(f, args) =>
      var callee := Eval(f, env, fmt);
      if callee.result.Err? then callee
      else EvalCall(callee.result.value, args, env, fmt, callee.printed)
  }

  /**
   * `visit_func_call` after the callee was evaluated: its text is the key;
   * then the arguments (an absent list cannot be iterated); then the call,
   * which only the print function supports.
   */
  function EvalCall(callee: Value, args: Args, env: map<string, Value>, fmt: real -> string, before: seq<string>): (r: Evaluated)
    ensures |before| <= |r.printed| && r.printed[..|before|] == before
    ensures r.result.Err? ==> IsRuntime(r.result.error)
    ensures callee.NoValue? ==> r == Evaluated(Err(InternalError(NullReference)), before)
    ensures Display(callee, fmt).Ok? && Display(callee, fmt).value !in env ==>
      r == Evaluated(Err(NameError(UnknownFunction(Display(callee, fmt).value))), before)
    decreases args
  {
    match Display(callee, fmt)
    case Err(err) => Evaluated(Err(err), before)
    case Ok(key) =>
      if key !in env then Evaluated(Err(NameError(UnknownFunction(key))), before)
      else
        match args
        case Absent => Evaluated(Err(InternalError(NullReference)), before)
        case Present(items) =>
          var vs := EvalArgs(items, env, fmt);
          var sofar := before + vs.printed;
          if vs.result.Err? then Evaluated(Err(vs.result.error), sofar)
          else if !env[key].PrintFn? then Evaluated(Err(InternalError(NullReference)), sofar)
          else
            var p := PrintLines(vs.result.value, fmt);
            Evaluated(p.result, sofar + ["PRINT:"] + p.printed)
  }

  /** The arguments, left to right; the first failure stops the list. */
  function EvalArgs(items: seq<Expr>, env: map<string, Value>, fmt: real -> string): (r: EvaluatedArgs)
    ensures r.result.Ok? ==> |r.result.value| == |items|
    ensures r.result.Ok? ==> forall i {:trigger r.result.value[i]} :: 0 <= i < |items| ==> Eval(items[i], env, fmt).result == Ok(r.result.value[i])
    ensures r.result.Err? ==> IsRuntime(r.result.error)
    ensures (forall i :: 0 <= i < |items| ==> CallFree(items[i])) ==> r.printed == []
    decreases items
  {
    if items == [] then EvaluatedArgs(Ok([]), [])
    else
      var v := Eval(items[0], env, fmt);
      if v.result.Err? then EvaluatedArgs(Err(v.result.error), v.printed)
      else
        var rest := EvalArgs(items[1..], env, fmt);
        EvaluatedArgs(if rest.result.Err? then rest.result else Ok([v.result.value] + rest.result.value),
                      v.printed + rest.printed)
  }

  /**
   * `PrintFunction.Exec` after its `PRINT:` line: one line per argument, its
   * display text; a null argument cannot be displayed and stops the printing.
   * The result is the null reference.
   */
  function PrintLines(vs: seq<Value>, fmt: real -> string): (r: Evaluated)
    ensures r.result.Ok? <==> forall i :: 0 <= i < |vs| ==> !vs[i].NoValue?
    ensures r.result.Ok? ==> r.result.value == NoValue && |r.printed| == |vs|
    ensures r.result.Err? ==> r.result.error == InternalError(NullReference)
    ensures r.result.Err? ==> |r.printed| < |vs| && vs[|r.printed|].NoValue?
    ensures forall i :: 0 <= i < |r.printed| ==> Display(vs[i], fmt) == Ok(r.printed[i])
  {
    if vs == [] then Evaluated(Ok(NoValue), [])
    else
      match Display(vs[0], fmt)
      case Err(err) => Evaluated(Err(err), [])
      case Ok(line) =>
        var rest := PrintLines(vs[1..], fmt);
        Evaluated(rest.result, [line] + rest.printed)
  }

  // ---------------------------------------------------------------------------
  // Statements
  // ---------------------------------------------------------------------------

  /** Output is only ever appended to. */
  predicate Extends(out: seq<string>, o: Outcome)
  {
    match o
    case Done(st) => |out| <= |st.out| && st.out[..|out|] == out
    case Failed(_, out') => |out| <= |out'| && out'[..|out|] == out
    case OutOfFuel => true
  }

  /** No binding is ever removed. */
  predicate KeepsNames(env: map<string, Value>, o: Outcome)
  {
    o.Done? ==> env.Keys <= o.state.env.Keys
  }

  /** A program that runs can only fail at run time. */
  predicate RuntimeFailure(o: Outcome)
  {
    o.Failed? ==> IsRuntime(o.error)
  }

  /**
   * `StatementVisitor`: an assignment rebinds its target; `if` and `while`
   * need a Boolean condition. Each statement costs one unit of fuel.
   */
  function ExecStmt(s: Stmt, st: State, fuel: nat, fmt: real -> string): (r: Outcome)
    ensures Extends(st.out, r) && KeepsNames(st.env, r) && RuntimeFailure(r)
    decreases fuel, 0
  {
    if fuel == 0 then OutOfFuel
    else
      match s
      case Assign(x, e) =>
        var v := Eval(e, st.env, fmt);
        var out := st.out + v.printed;
        if v.result.Err? then Failed(v.result.error, out)
        else Done(State(st.env[x := v.result.value], out))
      case ExprStmt(e) =>
        var v := Eval(e, st.env, fmt);
        var out := st.out + v.printed;
        if v.result.Err? then Failed(v.result.error, out) else Done(State(st.env, out))
      case If(c, body) =>
        var v := Eval(c, st.env, fmt);
        var next := State(st.env, st.out + v.printed);
        if v.result.Err? then Failed(v.result.error, next.out)
        else if !v.result.value.Bool? then Failed(TypeError(ConditionNotBool), next.out)
        else if v.result.value.b then Within(st.out, next, ExecBlock(body, next, fuel - 1, fmt))
        else Done(next)
      case While(c, body) =>
        var v := Eval(c, st.env, fmt);
        var next := State(st.env, st.out + v.printed);
        if v.result.Err? then Failed(v.result.error, next.out)
        else if !v.result.value.Bool? then Failed(TypeError(ConditionNotBool), next.out)
        else Within(st.out, next, WhileLoop(c, body, next, fuel - 1, fmt))
  }

  /** The statements of a body in order; the first one that does not end normally ends the body. */
  function ExecBlock(ss: seq<Stmt>, st: State, fuel: nat, fmt: real -> string): (r: Outcome)
    ensures Extends(st.out, r) && KeepsNames(st.env, r) && RuntimeFailure(r)
    decreases fuel, |ss| + 1
  {
    if ss == [] then Done(st)
    else
      var o := ExecStmt(ss[0], st, fuel, fmt);
      if o.Done? then Within(st.out, o.state, ExecBlock(ss[1..], o.state, fuel, fmt)) else o
  }

  /**
   * The loop of `visit_while` after the first type check: the condition is
   * evaluated again before every iteration; a value that is not a Boolean
   * there is read through a null reference. Each iteration costs one unit of fuel.
   */
  function WhileLoop(c: Expr, body: seq<Stmt>, st: State, fuel: nat, fmt: real -> string): (r: Outcome)
    ensures Extends(st.out, r) && KeepsNames(st.env, r) && RuntimeFailure(r)
    ensures r.Done? ==> Eval(c, r.state.env, fmt).result == Ok(Bool(false))
    decreases fuel, 0
  {
    if fuel == 0 then OutOfFuel
    else
      var v := Eval(c, st.env, fmt);
      var next := State(st.env, st.out + v.printed);
      if v.result.Err? then Failed(v.result.error, next.out)
      else if !v.result.value.Bool? then Failed(InternalError(NullReference), next.out)
      else if !v.result.value.b then Done(next)
      else
        var o := ExecBlock(body, next, fuel - 1, fmt);
        if o.Done? then Within(st.out, next, Within(next.out, o.state, WhileLoop(c, body, o.state, fuel - 1, fmt)))
        else Within(st.out, next, o)
  }

  /**
   * The identity on `o`, carrying the fact that output extending `mid`, which
   * extends `out`, extends `out`; it keeps the statement functions' contracts
   * provable one step at a time.
   */
  function Within(out: seq<string>, mid: State, o: Outcome): (r: Outcome)
    requires |out| <= |mid.out| && mid.out[..|out|] == out
    requires Extends(mid.out, o)
    ensures r == o && Extends(out, r)
  {
    match o
    case Done(st) => assert st.out[..|out|] == st.out[..|mid.out|][..|out|]; o
    case Failed(_, out') => assert out'[..|out|] == out'[..|mid.out|][..|out|]; o
    case OutOfFuel => o
  }

  /** `visit_program` on a fresh evaluator. */
  function RunProgram(p: Program, fmt: real -> string, fuel: nat): (r: Outcome)
    ensures r.Done? ==> InitialEnv.Keys <= r.state.env.Keys
    ensures RuntimeFailure(r)
  {
    ExecBlock(p.body, InitialState(), fuel, fmt)
  }
}
