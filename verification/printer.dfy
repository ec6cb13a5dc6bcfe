/**
 * A token printer for the syntax tree, used as the parser's partner: every
 * tree of the shape the grammar produces, printed back to tokens, parses to
 * itself. The printed form uses the quirks of the parser: every argument is
 * followed by `,`, and an absent argument list prints as `(` `)`.
 */
module Printer {
  import opened Wrappers
  import opened Errors
  import opened Lexer
  import opened Ast
  import opened Parser

  function Punct(text: string): Token
  {
    Token(Punctuation, text)
  }

  function Word(name: string): Token
  {
    Token(Identifier, name)
  }

  /** The decimal digits of `n`, most significant first, without leading zeros. */
  function NatDigits(n: nat): (s: string)
    ensures |s| > 0 && forall i :: 0 <= i < |s| ==> IsDigit(s[i])
    ensures DecimalValue(s) == n
  {
    var d := ('0' as int + n % 10) as char;
    if n < 10 then
      assert [d][..0] == [];
      [d]
    else
      var s := NatDigits(n / 10) + [d];
      assert s[..|s| - 1] == NatDigits(n / 10);
      s
  }

  /** A name that lexes as one Identifier token and is not a statement keyword. */
  predicate IsVariableName(x: string)
  {
    |x| > 0 && (forall i :: 0 <= i < |x| ==> IsWordChar(x[i])) && !IsKeyword(x)
  }

  /** Every variable in the expression has a printable name. */
  predicate NamesOk(e: Expr)
  {
    match e
    case Num(_) => true
    case Var(x) => IsVariableName(x)
    case BinOp(l, _, r) => NamesOk(l) && NamesOk(r)
    case Paren(c) => NamesOk(c)
    case Call(f, a) => NamesOk(f) && (a.Present? ==> forall x :: x in a.items ==> NamesOk(x))
    case Neg(x) => NamesOk(x)
  }

  /** An expression the parser can build, with printable names. */
  predicate WfExpr(e: Expr)
  {
    IsExpression(e) && NamesOk(e)
  }

  predicate WfStmt(s: Stmt)
  {
    match s
    case Assign(x, e) => IsVariableName(x) && WfExpr(e)
    case If(c, b) => WfExpr(c) && forall t :: t in b ==> WfStmt(t)
    case While(c, b) => WfExpr(c) && forall t :: t in b ==> WfStmt(t)
    case ExprStmt(e) => WfExpr(e)
  }

  predicate WfProgram(p: Program)
  {
    forall s :: s in p.body ==> WfStmt(s)
  }

  // ---------------------------------------------------------------------------
  // Printing
  // ---------------------------------------------------------------------------

  function UExpr(e: Expr): seq<Token>
  {
    match e
    case Num(n) => [Token(Number, NatDigits(n))]
    case Var(x) => [Word(x)]
    case BinOp(l, op, r) => UExpr(l) + [Punct(op)] + UExpr(r)
    case Paren(c) => [Punct("(")] + UExpr(c) + [Punct(")")]
    case Call(f, a) => UExpr(f) + UArgs(a)
    case Neg(x) => [Punct("-")] + UExpr(x)
  }

  function UArgs(a: Args): seq<Token>
  {
    match a
    case Absent => [Punct("("), Punct(")")]
    case Present(items) => [Punct("(")] + UItems(items) + [Punct(")")]
  }

  /** Each argument followed by `,`, the last one included. */
  function UItems(items: seq<Expr>): seq<Token>
  {
    if items == [] then [] else UExpr(items[0]) + [Punct(",")] + UItems(items[1..])
  }

  function UStmt(s: Stmt): seq<Token>
  {
    match s
    case Assign(x, e) => [Word(x), Punct("=")] + UExpr(e) + [Punct(";")]
    case If(c, b) => UClause("if", c, b)
    case While(c, b) => UClause("while", c, b)
    case ExprStmt(e) => UExpr(e) + [Punct(";")]
  }

  /** `kw` `(` condition `)` `{` body `}`. */
  function UClause(kw: string, c: Expr, body: seq<Stmt>): seq<Token>
    decreases body, 1
  {
    [Word(kw), Punct("(")] + (UExpr(c) + ([Punct(")"), Punct("{")] + (UStmts(body) + [Punct("}")])))
  }

  function UStmts(ss: seq<Stmt>): seq<Token>
    decreases ss, 0
  {
    if ss == [] then [] else UStmt(ss[0]) + UStmts(ss[1..])
  }

  function UProgram(p: Program): seq<Token>
  {
    UStmts(p.body)
  }

  // ---------------------------------------------------------------------------
  // The printed form, described position by position
  // ---------------------------------------------------------------------------

  /** How many tokens the printed expression has. */
  function Width(e: Expr): nat
  {
    match e
    case Num(_) => 1
    case Var(_) => 1
    case BinOp(l, _, r) => Width(l) + 1 + Width(r)
    case Paren(c) => Width(c) + 2
    case Call(f, a) => Width(f) + ArgsWidth(a)
    case Neg(x) => Width(x) + 1
  }

  function ArgsWidth(a: Args): nat
  {
    match a
    case Absent => 2
    case Present(items) => ItemsWidth(items) + 2
  }

  function ItemsWidth(items: seq<Expr>): nat
  {
    if items == [] then 0 else Width(items[0]) + 1 + ItemsWidth(items[1..])
  }

  function StmtWidth(s: Stmt): nat
  {
    match s
    case Assign(_, e) => Width(e) + 3
    case If(c, b) => Width(c) + StmtsWidth(b) + 5
    case While(c, b) => Width(c) + StmtsWidth(b) + 5
    case ExprStmt(e) => Width(e) + 1
  }

  function StmtsWidth(ss: seq<Stmt>): nat
  {
    if ss == [] then 0 else StmtWidth(ss[0]) + StmtsWidth(ss[1..])
  }

  /** `toks` holds `t` at `p`. */
  predicate TokAt(toks: seq<Token>, p: nat, t: Token)
  {
    p < |toks| && toks[p] == t
  }

  /** `toks` holds the printed form of `e` from `pos` on. */
  predicate PrintedAt(toks: seq<Token>, pos: nat, e: Expr)
    decreases e
  {
    match e
    case Num(n) => TokAt(toks, pos, Token(Number, NatDigits(n)))
    case Var(x) => TokAt(toks, pos, Word(x))
    case BinOp(l, op, r) =>
      PrintedAt(toks, pos, l) && TokAt(toks, pos + Width(l), Punct(op)) && PrintedAt(toks, pos + Width(l) + 1, r)
    case Paren(c) =>
      TokAt(toks, pos, Punct("(")) && PrintedAt(toks, pos + 1, c) && TokAt(toks, pos + 1 + Width(c), Punct(")"))
    case Call(f, a) => PrintedAt(toks, pos, f) && ArgsAt(toks, pos + Width(f), a)
    case Neg(x) => TokAt(toks, pos, Punct("-")) && PrintedAt(toks, pos + 1, x)
  }

  predicate ArgsAt(toks: seq<Token>, pos: nat, a: Args)
    decreases a
  {
    match a
    case Absent => TokAt(toks, pos, Punct("(")) && TokAt(toks, pos + 1, Punct(")"))
    case Present(items) => TokAt(toks, pos, Punct("(")) && ItemsAt(toks, pos + 1, items)
  }

  /** The printed items, each followed by `,`, and then the closing `)`. */
  predicate ItemsAt(toks: seq<Token>, pos: nat, items: seq<Expr>)
    decreases items
  {
    if items == [] then TokAt(toks, pos, Punct(")"))
    else
      PrintedAt(toks, pos, items[0]) && TokAt(toks, pos + Width(items[0]), Punct(","))
      && ItemsAt(toks, pos + Width(items[0]) + 1, items[1..])
  }

  predicate StmtAt(toks: seq<Token>, pos: nat, s: Stmt)
    decreases s, 2
  {
    match s
    case Assign(x, e) =>
      TokAt(toks, pos, Word(x)) && TokAt(toks, pos + 1, Punct("=")) && PrintedAt(toks, pos + 2, e)
      && TokAt(toks, pos + 2 + Width(e), Punct(";"))
    case If(c, b) => ClauseAt(toks, pos, "if", c, b)
    case While(c, b) => ClauseAt(toks, pos, "while", c, b)
    case ExprStmt(e) => PrintedAt(toks, pos, e) && TokAt(toks, pos + Width(e), Punct(";"))
  }

  predicate ClauseAt(toks: seq<Token>, pos: nat, kw: string, c: Expr, b: seq<Stmt>)
    decreases b, 1
  {
    TokAt(toks, pos, Word(kw)) && TokAt(toks, pos + 1, Punct("(")) && PrintedAt(toks, pos + 2, c)
    && TokAt(toks, pos + 2 + Width(c), Punct(")")) && TokAt(toks, pos + 3 + Width(c), Punct("{"))
    && StmtsAt(toks, pos + 4 + Width(c), b) && TokAt(toks, pos + 4 + Width(c) + StmtsWidth(b), Punct("}"))
  }

  /** `toks` holds the printed statements one after the other from `pos` on. */
  predicate StmtsAt(toks: seq<Token>, pos: nat, ss: seq<Stmt>)
    decreases ss, 0
  {
    ss != [] ==> StmtAt(toks, pos, ss[0]) && StmtsAt(toks, pos + StmtWidth(ss[0]), ss[1..])
  }

  // ---------------------------------------------------------------------------
  // A token array that contains a printed form at a position
  // ---------------------------------------------------------------------------

  /** `toks` holds `u` starting at `pos`. */
  predicate At(toks: seq<Token>, pos: nat, u: seq<Token>)
  {
    pos + |u| <= |toks| && forall i :: 0 <= i < |u| ==> toks[pos + i] == u[i]
  }

  lemma AtSplit(toks: seq<Token>, pos: nat, a: seq<Token>, b: seq<Token>)
    requires At(toks, pos, a + b)
    ensures At(toks, pos, a) && At(toks, pos + |a|, b)
  {
    forall i | 0 <= i < |a|
      ensures toks[pos + i] == a[i]
    {
      assert (a + b)[i] == a[i];
    }
    forall i | 0 <= i < |b|
      ensures toks[pos + |a| + i] == b[i]
    {
      assert (a + b)[|a| + i] == b[i];
    }
  }

  lemma AtSplit3(toks: seq<Token>, pos: nat, a: seq<Token>, b: seq<Token>, c: seq<Token>)
    requires At(toks, pos, a + b + c)
    ensures At(toks, pos, a) && At(toks, pos + |a|, b) && At(toks, pos + |a| + |b|, c)
  {
    AtSplit(toks, pos, a + b, c);
    AtSplit(toks, pos, a, b);
  }

  lemma AtSingle(toks: seq<Token>, pos: nat, t: Token)
    requires At(toks, pos, [t])
    ensures TokAt(toks, pos, t)
  {
    assert toks[pos + 0] == [t][0];
  }

  lemma AtPair(toks: seq<Token>, pos: nat, a: Token, b: Token)
    requires At(toks, pos, [a, b])
    ensures TokAt(toks, pos, a) && TokAt(toks, pos + 1, b)
  {
    assert toks[pos + 0] == [a, b][0];
    assert toks[pos + 1] == [a, b][1];
  }

  /** The whole array holds itself. */
  lemma AtWhole(toks: seq<Token>)
    ensures At(toks, 0, toks)
  {
    forall i | 0 <= i < |toks|
      ensures toks[0 + i] == toks[i]
    {
    }
  }

  // ---------------------------------------------------------------------------
  // From the printed sequence to the position-by-position description
  // ---------------------------------------------------------------------------

  lemma {:induction false} PrintedAtOf(toks: seq<Token>, pos: nat, e: Expr)
    requires At(toks, pos, UExpr(e))
    ensures |UExpr(e)| == Width(e) && PrintedAt(toks, pos, e)
    decreases e, 1
  {
    match e
    case Num(n) =>
      AtSingle(toks, pos, Token(Number, NatDigits(n)));
    case Var(x) =>
      AtSingle(toks, pos, Word(x));
    case BinOp(l, op, r) =>
      BinOpAtOf(toks, pos, e);
    case Paren(c) =>
      AtSplit3(toks, pos, [Punct("(")], UExpr(c), [Punct(")")]);
      AtSingle(toks, pos, Punct("("));
      PrintedAtOf(toks, pos + 1, c);
      AtSingle(toks, pos + 1 + |UExpr(c)|, Punct(")"));
    case Call(f, a) =>
      AtSplit(toks, pos, UExpr(f), UArgs(a));
      PrintedAtOf(toks, pos, f);
      ArgsAtOf(toks, pos + |UExpr(f)|, a);
    case Neg(x) =>
      AtSplit(toks, pos, [Punct("-")], UExpr(x));
      AtSingle(toks, pos, Punct("-"));
      PrintedAtOf(toks, pos + 1, x);
  }

  lemma {:induction false} BinOpAtOf(toks: seq<Token>, pos: nat, e: Expr)
    requires e.BinOp? && At(toks, pos, UExpr(e))
    ensures |UExpr(e)| == Width(e) && PrintedAt(toks, pos, e)
    decreases e, 0
  {
    var l, op, r := e.left, e.op, e.right;
    AtSplit3(toks, pos, UExpr(l), [Punct(op)], UExpr(r));
    PrintedAtOf(toks, pos, l);
    AtSingle(toks, pos + |UExpr(l)|, Punct(op));
    PrintedAtOf(toks, pos + |UExpr(l)| + 1, r);
  }

  lemma {:induction false} ArgsAtOf(toks: seq<Token>, pos: nat, a: Args)
    requires At(toks, pos, UArgs(a))
    ensures |UArgs(a)| == ArgsWidth(a) && ArgsAt(toks, pos, a)
    decreases a
  {
    match a
    case Absent =>
      AtPair(toks, pos, Punct("("), Punct(")"));
    case Present(items) =>
      AtSplit3(toks, pos, [Punct("(")], UItems(items), [Punct(")")]);
      AtSingle(toks, pos, Punct("("));
      AtSingle(toks, pos + 1 + |UItems(items)|, Punct(")"));
      ItemsAtOf(toks, pos + 1, items);
  }

  lemma {:induction false} ItemsAtOf(toks: seq<Token>, pos: nat, items: seq<Expr>)
    requires At(toks, pos, UItems(items)) && TokAt(toks, pos + |UItems(items)|, Punct(")"))
    ensures |UItems(items)| == ItemsWidth(items) && ItemsAt(toks, pos, items)
    decreases items
  {
    if items != [] {
      var x := items[0];
      AtSplit3(toks, pos, UExpr(x), [Punct(",")], UItems(items[1..]));
      PrintedAtOf(toks, pos, x);
      AtSingle(toks, pos + |UExpr(x)|, Punct(","));
      ItemsAtOf(toks, pos + |UExpr(x)| + 1, items[1..]);
    }
  }

  lemma {:induction false} StmtAtOf(toks: seq<Token>, pos: nat, s: Stmt)
    requires At(toks, pos, UStmt(s))
    ensures |UStmt(s)| == StmtWidth(s) && StmtAt(toks, pos, s)
    decreases s, 2
  {
    match s
    case Assign(x, e) =>
      AtSplit3(toks, pos, [Word(x), Punct("=")], UExpr(e), [Punct(";")]);
      AtPair(toks, pos, Word(x), Punct("="));
      PrintedAtOf(toks, pos + 2, e);
      AtSingle(toks, pos + 2 + |UExpr(e)|, Punct(";"));
    case If(c, b) =>
      ClauseAtOf(toks, pos, "if", c, b);
    case While(c, b) =>
      ClauseAtOf(toks, pos, "while", c, b);
    case ExprStmt(e) =>
      AtSplit(toks, pos, UExpr(e), [Punct(";")]);
      PrintedAtOf(toks, pos, e);
      AtSingle(toks, pos + |UExpr(e)|, Punct(";"));
  }

  lemma {:induction false} ClauseAtOf(toks: seq<Token>, pos: nat, kw: string, c: Expr, b: seq<Stmt>)
    requires At(toks, pos, UClause(kw, c, b))
    ensures |UClause(kw, c, b)| == Width(c) + StmtsWidth(b) + 5 && ClauseAt(toks, pos, kw, c, b)
    decreases b, 1
  {
    var uc, ub := UExpr(c), UStmts(b);
    var mid, tail := [Punct(")"), Punct("{")], ub + [Punct("}")];
    AtSplit(toks, pos, [Word(kw), Punct("(")], uc + (mid + tail));
    AtPair(toks, pos, Word(kw), Punct("("));
    AtSplit(toks, pos + 2, uc, mid + tail);
    PrintedAtOf(toks, pos + 2, c);
    AtSplit(toks, pos + 2 + |uc|, mid, tail);
    AtPair(toks, pos + 2 + |uc|, Punct(")"), Punct("{"));
    AtSplit(toks, pos + 4 + |uc|, ub, [Punct("}")]);
    StmtsAtOf(toks, pos + 4 + |uc|, b);
    AtSingle(toks, pos + 4 + |uc| + |ub|, Punct("}"));
  }

  lemma {:induction false} StmtsAtOf(toks: seq<Token>, pos: nat, ss: seq<Stmt>)
    requires At(toks, pos, UStmts(ss))
    ensures |UStmts(ss)| == StmtsWidth(ss) && StmtsAt(toks, pos, ss)
    decreases ss, 0
  {
    if ss != [] {
      AtSplit(toks, pos, UStmt(ss[0]), UStmts(ss[1..]));
      StmtAtOf(toks, pos, ss[0]);
      StmtsAtOf(toks, pos + |UStmt(ss[0])|, ss[1..]);
    }
  }

  // ---------------------------------------------------------------------------
  // Facts about printed expressions
  // ---------------------------------------------------------------------------

  /** The tokens a printed expression can start with. */
  predicate StartsExpr(t: Token)
  {
    (t.kind == Punctuation && (t.text == "(" || t.text == "-"))
    || (t.kind == Number && |t.text| > 0 && IsDigit(t.text[0]))
    || (t.kind == Identifier && IsVariableName(t.text))
  }

  /** A printed expression starts with `(`, `-`, a number or a variable name. */
  lemma {:induction false} FirstToken(toks: seq<Token>, pos: nat, e: Expr)
    requires NamesOk(e) && PrintedAt(toks, pos, e)
    ensures pos < |toks| && StartsExpr(toks[pos])
  {
    match e
    case Num(n) =>
      assert IsDigit(NatDigits(n)[0]);
    case Var(x) =>
    case BinOp(l, _, r) =>
      FirstToken(toks, pos, l);
    case Paren(c) =>
    case Call(f, a) =>
      FirstToken(toks, pos, f);
    case Neg(x) =>
  }

  /** A token that starts an expression is neither a keyword nor a closing `)` or `}`. */
  lemma StartsExprIsNot(t: Token)
    requires StartsExpr(t)
    ensures !IsKeyword(t.text) && t.text != ")" && t.text != "}"
  {
    if t.kind == Punctuation {
      assert t.text[0] != ')' && t.text[0] != '}';
    } else if t.kind == Number {
      assert t.text[0] != ')' && t.text[0] != '}' && t.text[0] != 'i' && t.text[0] != 'w';
    } else {
      assert t.text[0] != ')' && t.text[0] != '}';
    }
  }

  /** A printed expression starts with a token that is neither a keyword nor `)` nor `}`. */
  lemma AtFirst(toks: seq<Token>, pos: nat, e: Expr)
    requires NamesOk(e) && PrintedAt(toks, pos, e)
    ensures pos < |toks| && !IsKeyword(toks[pos].text) && toks[pos].text != ")" && toks[pos].text != "}"
  {
    FirstToken(toks, pos, e);
    StartsExprIsNot(toks[pos]);
  }

  /** The leftmost operand of a comparison chain. */
  function ChainFirst(e: Expr): Expr
  {
    if e.BinOp? && e.op in ComparisonOps then ChainFirst(e.left) else e
  }

  lemma {:induction false} ChainFirstOf(e: Expr, op: string)
    requires IsChain(e, op) && op in ComparisonOps
    ensures IsChainOver(e, op, ChainFirst(e)) && IsSum(ChainFirst(e)) && e != ChainFirst(e)
  {
    ComparisonNotSum(e);
    if IsSum(e.left) {
      if e.left.BinOp? {
        SumNotComparison(e.left);
      }
      assert ChainFirst(e.left) == e.left;
    } else {
      ChainFirstOf(e.left, op);
    }
  }

  // ---------------------------------------------------------------------------
  // Which tokens stop which level
  // ---------------------------------------------------------------------------

  lemma ProductOpStops(toks: seq<Token>, p: nat)
    requires p < |toks| && toks[p].text in ProductOps
    ensures StopsPrimary(toks, p)
  {
  }

  lemma SumOpStops(toks: seq<Token>, p: nat)
    requires p < |toks| && toks[p].text in SumOps
    ensures StopsProduct(toks, p)
  {
  }

  lemma ComparisonOpStops(toks: seq<Token>, p: nat)
    requires p < |toks| && toks[p].text in ComparisonOps
    ensures StopsSum(toks, p)
  {
  }

  /** The tokens printed after a whole expression stop every level. */
  lemma DelimiterStops(toks: seq<Token>, p: nat)
    requires p < |toks| && toks[p].text in {")", ",", ";", "="}
    ensures StopsExpression(toks, p)
  {
  }

  /** Within a sum, an operator node carries a sum or product operator, never a comparison. */
  lemma SumNotComparison(e: Expr)
    requires IsSum(e) && e.BinOp?
    ensures e.op !in ComparisonOps
  {
    if IsProduct(e) {
      assert !IsPrimary(e);
      assert e.op == "*" || e.op == "/";
    } else {
      assert e.op == "+" || e.op == "-";
    }
  }

  /** A comparison node is not a sum. */
  lemma ComparisonNotSum(e: Expr)
    requires e.BinOp? && e.op in ComparisonOps
    ensures !IsSum(e)
  {
    if IsSum(e) {
      SumNotComparison(e);
    }
  }

  /** A variable is an expression of every level. */
  lemma VarIsExpression(x: string)
    ensures IsExpression(Var(x))
  {
    assert IsMain(Var(x)) && IsPrimary(Var(x)) && IsProduct(Var(x)) && IsSum(Var(x));
  }

  // ---------------------------------------------------------------------------
  // The parts of a non-trivial node at each level
  // ---------------------------------------------------------------------------

  lemma CallParts(e: Expr)
    requires IsPrimary(e) && NamesOk(e) && !IsMain(e)
    ensures e.Call? && IsPrimary(e.callee) && NamesOk(e.callee) && ArgsShape(e.args)
    ensures e.args.Present? ==> forall x :: x in e.args.items ==> NamesOk(x)
  {
  }

  lemma ProductParts(e: Expr)
    requires IsProduct(e) && NamesOk(e) && !IsPrimary(e)
    ensures e.BinOp? && e.op in ProductOps && IsProduct(e.left) && IsPrimary(e.right)
    ensures NamesOk(e.left) && NamesOk(e.right)
  {
  }

  lemma SumParts(e: Expr)
    requires IsSum(e) && NamesOk(e) && !IsProduct(e)
    ensures e.BinOp? && e.op in SumOps && IsSum(e.left) && IsProduct(e.right)
    ensures NamesOk(e.left) && NamesOk(e.right)
  {
  }

  lemma ChainParts(e: Expr, op: string, first: Expr)
    requires IsChainOver(e, op, first) && NamesOk(e) && e != first
    ensures e.BinOp? && e.op == op && IsChainOver(e.left, op, first) && IsSum(e.right)
    ensures NamesOk(e.left) && NamesOk(e.right)
  {
  }

  // ---------------------------------------------------------------------------
  // One step of the parser, in isolation
  // ---------------------------------------------------------------------------

  lemma MainNumber(toks: seq<Token>, pos: nat, n: nat)
    requires TokAt(toks, pos, Token(Number, NatDigits(n)))
    ensures ParseMain(toks, pos) == Ok(Parsed(Num(n), pos + 1))
  {
    assert IsDigit(NatDigits(n)[0]);
  }

  lemma MainVariable(toks: seq<Token>, pos: nat, x: string)
    requires TokAt(toks, pos, Word(x)) && x != "("
    ensures ParseMain(toks, pos) == Ok(Parsed(Var(x), pos + 1))
  {
  }

  lemma MainParen(toks: seq<Token>, pos: nat, c: Expr, end: nat)
    requires pos < |toks| && toks[pos].text == "("
    requires ParseExpression(toks, pos + 1) == Ok(Parsed(c, end))
    requires toks[end].text == ")"
    ensures ParseMain(toks, pos) == Ok(Parsed(Paren(c), end + 1))
  {
  }

  lemma PrimaryStart(toks: seq<Token>, pos: nat, e: Expr, end: nat)
    requires pos <= |toks| && ParseMain(toks, pos) == Ok(Parsed(e, end))
    ensures ParsePrimary(toks, pos) == CallLoop(toks, end, e)
  {
  }

  lemma CallLoopStep(toks: seq<Token>, pos: nat, f: Expr, a: Args, end: nat)
    requires pos < |toks| && toks[pos].text == "(" && ParseArguments(toks, pos) == Ok(Parsed(a, end))
    ensures CallLoop(toks, pos, f) == CallLoop(toks, end, Call(f, a))
  {
  }

  lemma CallLoopStop(toks: seq<Token>, pos: nat, f: Expr)
    requires StopsPrimary(toks, pos)
    ensures CallLoop(toks, pos, f) == Ok(Parsed(f, pos))
  {
  }

  lemma ArgumentsAbsent(toks: seq<Token>, pos: nat)
    requires pos + 1 < |toks| && toks[pos].text == "(" && toks[pos + 1].text == ")"
    ensures ParseArguments(toks, pos) == Ok(Parsed(Absent, pos + 2))
  {
  }

  lemma ArgumentsPresent(toks: seq<Token>, pos: nat, x: Expr, p1: nat, items: seq<Expr>, end: nat)
    requires pos + 1 < |toks| && toks[pos].text == "(" && toks[pos + 1].text != ")"
    requires ParseExpression(toks, pos + 1) == Ok(Parsed(x, p1))
    requires toks[p1].text == ","
    requires ArgumentLoop(toks, p1 + 1, [x]) == Ok(Parsed(items, end))
    ensures ParseArguments(toks, pos) == Ok(Parsed(Present(items), end))
  {
  }

  lemma ArgumentLoopClose(toks: seq<Token>, pos: nat, acc: seq<Expr>)
    requires pos < |toks| && toks[pos].text == ")"
    ensures ArgumentLoop(toks, pos, acc) == Ok(Parsed(acc, pos + 1))
  {
  }

  lemma ArgumentLoopStep(toks: seq<Token>, pos: nat, acc: seq<Expr>, x: Expr, p1: nat)
    requires pos < |toks| && toks[pos].text != ")"
    requires ParseExpression(toks, pos) == Ok(Parsed(x, p1))
    requires toks[p1].text == ","
    ensures ArgumentLoop(toks, pos, acc) == ArgumentLoop(toks, p1 + 1, acc + [x])
  {
  }

  lemma ProductStart(toks: seq<Token>, pos: nat, e: Expr, end: nat)
    requires pos <= |toks| && ParsePrimary(toks, pos) == Ok(Parsed(e, end))
    ensures ParseProduct(toks, pos) == ProductLoop(toks, end, e)
  {
  }

  lemma ProductLoopStep(toks: seq<Token>, pos: nat, l: Expr, op: string, r: Expr, end: nat)
    requires pos < |toks| && toks[pos].text == op && op in ProductOps
    requires ParsePrimary(toks, pos + 1) == Ok(Parsed(r, end))
    ensures ProductLoop(toks, pos, l) == ProductLoop(toks, end, BinOp(l, op, r))
  {
  }

  lemma ProductLoopStop(toks: seq<Token>, pos: nat, l: Expr)
    requires StopsProduct(toks, pos)
    ensures ProductLoop(toks, pos, l) == Ok(Parsed(l, pos))
  {
  }

  lemma SumStart(toks: seq<Token>, pos: nat, e: Expr, end: nat)
    requires pos <= |toks| && ParseProduct(toks, pos) == Ok(Parsed(e, end))
    ensures ParseSum(toks, pos) == SumLoop(toks, end, e)
  {
  }

  lemma SumLoopStep(toks: seq<Token>, pos: nat, l: Expr, op: string, r: Expr, end: nat)
    requires pos < |toks| && toks[pos].text == op && op in SumOps
    requires ParseProduct(toks, pos + 1) == Ok(Parsed(r, end))
    ensures SumLoop(toks, pos, l) == SumLoop(toks, end, BinOp(l, op, r))
  {
  }

  lemma SumLoopStop(toks: seq<Token>, pos: nat, l: Expr)
    requires StopsSum(toks, pos)
    ensures SumLoop(toks, pos, l) == Ok(Parsed(l, pos))
  {
  }

  lemma ComparisonStart(toks: seq<Token>, pos: nat, e: Expr, end: nat)
    requires pos <= |toks| && ParseSum(toks, pos) == Ok(Parsed(e, end))
    ensures end < |toks|
    ensures ParseExpression(toks, pos) == ComparisonLoop(toks, end, e, toks[end].text)
  {
    assert ParseExpression(toks, pos) == ParseComparison(toks, pos);
  }

  lemma ComparisonLoopStep(toks: seq<Token>, pos: nat, l: Expr, op: string, r: Expr, end: nat)
    requires pos < |toks| && toks[pos].text == op && op in ComparisonOps
    requires ParseSum(toks, pos + 1) == Ok(Parsed(r, end))
    ensures ComparisonLoop(toks, pos, l, op) == ComparisonLoop(toks, end, BinOp(l, op, r), op)
  {
  }

  lemma ComparisonLoopStop(toks: seq<Token>, pos: nat, l: Expr, op: string)
    requires StopsExpression(toks, pos)
    ensures ComparisonLoop(toks, pos, l, op) == Ok(Parsed(l, pos))
  {
  }

  // ---------------------------------------------------------------------------
  // The round trip for expressions, level by level
  // ---------------------------------------------------------------------------

  lemma {:induction false} MainRoundTrip(toks: seq<Token>, pos: nat, e: Expr)
    requires IsMain(e) && NamesOk(e) && PrintedAt(toks, pos, e)
    ensures ParseMain(toks, pos) == Ok(Parsed(e, pos + Width(e)))
    decreases e, 0
  {
    match e
    case Num(n) =>
      MainNumber(toks, pos, n);
    case Var(x) =>
      assert IsWordChar(x[0]) && x != "(";
      MainVariable(toks, pos, x);
    case Paren(c) =>
      var end := pos + 1 + Width(c);
      DelimiterStops(toks, end);
      ExprRoundTrip(toks, pos + 1, c);
      MainParen(toks, pos, c, end);
  }

  lemma {:induction false} PrimaryPrefix(toks: seq<Token>, pos: nat, e: Expr)
    requires IsPrimary(e) && NamesOk(e) && PrintedAt(toks, pos, e)
    ensures pos + Width(e) <= |toks| && ParsePrimary(toks, pos) == CallLoop(toks, pos + Width(e), e)
    decreases e, 2
  {
    if IsMain(e) {
      MainRoundTrip(toks, pos, e);
      PrimaryStart(toks, pos, e, pos + Width(e));
    } else {
      CallParts(e);
      PrimaryPrefix(toks, pos, e.callee);
      CallExtend(toks, pos, e);
    }
  }

  /** One more argument list after the printed callee. */
  lemma {:induction false} CallExtend(toks: seq<Token>, pos: nat, e: Expr)
    requires e.Call? && ArgsShape(e.args) && (e.args.Present? ==> forall x :: x in e.args.items ==> NamesOk(x))
    requires ArgsAt(toks, pos + Width(e.callee), e.args)
    ensures pos + Width(e) <= |toks|
    ensures CallLoop(toks, pos + Width(e.callee), e.callee) == CallLoop(toks, pos + Width(e), e)
    decreases e, 1
  {
    var p := pos + Width(e.callee);
    assert pos + Width(e) == p + ArgsWidth(e.args);
    ArgsRoundTrip(toks, p, e.args);
    CallLoopStep(toks, p, e.callee, e.args, p + ArgsWidth(e.args));
  }

  lemma {:induction false} PrimaryRoundTrip(toks: seq<Token>, pos: nat, e: Expr)
    requires IsPrimary(e) && NamesOk(e) && PrintedAt(toks, pos, e) && StopsPrimary(toks, pos + Width(e))
    ensures ParsePrimary(toks, pos) == Ok(Parsed(e, pos + Width(e)))
    decreases e, 3
  {
    PrimaryPrefix(toks, pos, e);
    CallLoopStop(toks, pos + Width(e), e);
  }

  lemma {:induction false} ArgsRoundTrip(toks: seq<Token>, pos: nat, a: Args)
    requires ArgsShape(a) && (a.Present? ==> forall x :: x in a.items ==> NamesOk(x))
    requires ArgsAt(toks, pos, a)
    ensures pos < |toks| && toks[pos].text == "("
    ensures ParseArguments(toks, pos) == Ok(Parsed(a, pos + ArgsWidth(a)))
    decreases a, 1
  {
    match a
    case Absent =>
      ArgumentsAbsent(toks, pos);
    case Present(items) =>
      PresentRoundTrip(toks, pos, items);
  }

  lemma {:induction false} PresentRoundTrip(toks: seq<Token>, pos: nat, items: seq<Expr>)
    requires items != [] && forall x :: x in items ==> IsExpression(x) && NamesOk(x)
    requires TokAt(toks, pos, Punct("(")) && ItemsAt(toks, pos + 1, items)
    ensures ParseArguments(toks, pos) == Ok(Parsed(Present(items), pos + ItemsWidth(items) + 2))
    decreases items, 1
  {
    var x := items[0];
    var p1 := pos + 1 + Width(x);
    assert [x] + items[1..] == items;
    ItemsTail(toks, pos + 1, items);
    AtFirst(toks, pos + 1, x);
    DelimiterStops(toks, p1);
    ItemsRoundTrip(toks, p1 + 1, [x], items[1..]);
    ExprRoundTrip(toks, pos + 1, x);
    ArgumentsPresent(toks, pos, x, p1, items, pos + ItemsWidth(items) + 2);
  }

  /** The argument loop, having parsed `done`, parses the printed `rest` and the closing `)`. */
  lemma {:induction false} ItemsRoundTrip(toks: seq<Token>, pos: nat, done: seq<Expr>, rest: seq<Expr>)
    requires forall x :: x in rest ==> IsExpression(x) && NamesOk(x)
    requires ItemsAt(toks, pos, rest)
    ensures ArgumentLoop(toks, pos, done) == Ok(Parsed(done + rest, pos + ItemsWidth(rest) + 1))
    decreases rest, 0
  {
    if rest == [] {
      assert done + rest == done;
      ArgumentLoopClose(toks, pos, done);
    } else {
      var x := rest[0];
      var p1 := pos + Width(x);
      ItemsTail(toks, pos, rest);
      AtFirst(toks, pos, x);
      DelimiterStops(toks, p1);
      assert done + [x] + rest[1..] == done + rest;
      ExprRoundTrip(toks, pos, x);
      ArgumentLoopStep(toks, pos, done, x, p1);
      ItemsRoundTrip(toks, p1 + 1, done + [x], rest[1..]);
    }
  }

  lemma ItemsTail(toks: seq<Token>, pos: nat, rest: seq<Expr>)
    requires rest != [] && (forall x :: x in rest ==> IsExpression(x) && NamesOk(x)) && ItemsAt(toks, pos, rest)
    ensures IsExpression(rest[0]) && NamesOk(rest[0]) && PrintedAt(toks, pos, rest[0])
    ensures TokAt(toks, pos + Width(rest[0]), Punct(","))
    ensures (forall x :: x in rest[1..] ==> IsExpression(x) && NamesOk(x))
    ensures ItemsAt(toks, pos + Width(rest[0]) + 1, rest[1..])
    ensures pos + ItemsWidth(rest) + 1 == pos + Width(rest[0]) + 1 + ItemsWidth(rest[1..]) + 1
  {
    assert rest[0] in rest;
  }

  lemma {:induction false} ProductPrefix(toks: seq<Token>, pos: nat, e: Expr)
    requires IsProduct(e) && NamesOk(e) && PrintedAt(toks, pos, e) && StopsPrimary(toks, pos + Width(e))
    ensures ParseProduct(toks, pos) == ProductLoop(toks, pos + Width(e), e)
    decreases e, 5
  {
    if IsPrimary(e) {
      PrimaryRoundTrip(toks, pos, e);
      ProductStart(toks, pos, e, pos + Width(e));
    } else {
      ProductParts(e);
      ProductOpStops(toks, pos + Width(e.left));
      ProductPrefix(toks, pos, e.left);
      ProductExtend(toks, pos, e);
    }
  }

  /** One more `*` or `/` operand after the printed left operand. */
  lemma {:induction false} ProductExtend(toks: seq<Token>, pos: nat, e: Expr)
    requires e.BinOp? && e.op in ProductOps && IsPrimary(e.right) && NamesOk(e.right)
    requires TokAt(toks, pos + Width(e.left), Punct(e.op)) && PrintedAt(toks, pos + Width(e.left) + 1, e.right)
    requires StopsPrimary(toks, pos + Width(e))
    ensures ProductLoop(toks, pos + Width(e.left), e.left) == ProductLoop(toks, pos + Width(e), e)
    decreases e, 4
  {
    var p := pos + Width(e.left);
    assert pos + Width(e) == p + 1 + Width(e.right) && StopsPrimary(toks, p + 1 + Width(e.right));
    PrimaryRoundTrip(toks, p + 1, e.right);
    ProductLoopStep(toks, p, e.left, e.op, e.right, p + 1 + Width(e.right));
  }

  lemma {:induction false} ProductRoundTrip(toks: seq<Token>, pos: nat, e: Expr)
    requires IsProduct(e) && NamesOk(e) && PrintedAt(toks, pos, e) && StopsProduct(toks, pos + Width(e))
    ensures ParseProduct(toks, pos) == Ok(Parsed(e, pos + Width(e)))
    decreases e, 6
  {
    ProductPrefix(toks, pos, e);
    ProductLoopStop(toks, pos + Width(e), e);
  }

  lemma {:induction false} SumPrefix(toks: seq<Token>, pos: nat, e: Expr)
    requires IsSum(e) && NamesOk(e) && PrintedAt(toks, pos, e) && StopsProduct(toks, pos + Width(e))
    ensures ParseSum(toks, pos) == SumLoop(toks, pos + Width(e), e)
    decreases e, 8
  {
    if IsProduct(e) {
      ProductRoundTrip(toks, pos, e);
      SumStart(toks, pos, e, pos + Width(e));
    } else {
      SumParts(e);
      SumOpStops(toks, pos + Width(e.left));
      SumPrefix(toks, pos, e.left);
      SumExtend(toks, pos, e);
    }
  }

  /** One more `+` or `-` operand after the printed left operand. */
  lemma {:induction false} SumExtend(toks: seq<Token>, pos: nat, e: Expr)
    requires e.BinOp? && e.op in SumOps && IsProduct(e.right) && NamesOk(e.right)
    requires TokAt(toks, pos + Width(e.left), Punct(e.op)) && PrintedAt(toks, pos + Width(e.left) + 1, e.right)
    requires StopsProduct(toks, pos + Width(e))
    ensures SumLoop(toks, pos + Width(e.left), e.left) == SumLoop(toks, pos + Width(e), e)
    decreases e, 7
  {
    var p := pos + Width(e.left);
    assert pos + Width(e) == p + 1 + Width(e.right) && StopsProduct(toks, p + 1 + Width(e.right));
    ProductRoundTrip(toks, p + 1, e.right);
    SumLoopStep(toks, p, e.left, e.op, e.right, p + 1 + Width(e.right));
  }

  lemma {:induction false} SumRoundTrip(toks: seq<Token>, pos: nat, e: Expr)
    requires IsSum(e) && NamesOk(e) && PrintedAt(toks, pos, e) && StopsSum(toks, pos + Width(e))
    ensures ParseSum(toks, pos) == Ok(Parsed(e, pos + Width(e)))
    decreases e, 9
  {
    SumPrefix(toks, pos, e);
    SumLoopStop(toks, pos + Width(e), e);
  }

  /**
   * The comparison loop, run from the end of the first operand of a printed
   * chain, reaches the end of the chain; the first operand parses as a sum.
   */
  lemma {:induction false} ChainPrefix(toks: seq<Token>, pos: nat, e: Expr, op: string, first: Expr)
    requires IsChainOver(e, op, first) && IsSum(first) && op in ComparisonOps && NamesOk(e)
    requires PrintedAt(toks, pos, e) && StopsSum(toks, pos + Width(e))
    ensures PrintedAt(toks, pos, first) && NamesOk(first)
    ensures ParseSum(toks, pos) == Ok(Parsed(first, pos + Width(first)))
    ensures ComparisonLoop(toks, pos + Width(first), first, op) == ComparisonLoop(toks, pos + Width(e), e, op)
    decreases e, 11
  {
    if e == first {
      SumRoundTrip(toks, pos, e);
    } else {
      ChainParts(e, op, first);
      ComparisonOpStops(toks, pos + Width(e.left));
      ChainPrefix(toks, pos, e.left, op, first);
      ChainExtend(toks, pos, e, op);
    }
  }

  /** One more comparison operand after the printed left operand. */
  lemma {:induction false} ChainExtend(toks: seq<Token>, pos: nat, e: Expr, op: string)
    requires e.BinOp? && e.op == op && op in ComparisonOps && IsSum(e.right) && NamesOk(e.right)
    requires TokAt(toks, pos + Width(e.left), Punct(op)) && PrintedAt(toks, pos + Width(e.left) + 1, e.right)
    requires StopsSum(toks, pos + Width(e))
    ensures ComparisonLoop(toks, pos + Width(e.left), e.left, op) == ComparisonLoop(toks, pos + Width(e), e, op)
    decreases e, 10
  {
    var p := pos + Width(e.left);
    var end := p + 1 + Width(e.right);
    assert pos + Width(e) == end && e == BinOp(e.left, op, e.right);
    assert ParseSum(toks, p + 1) == Ok(Parsed(e.right, end)) by {
      SumRoundTrip(toks, p + 1, e.right);
    }
    ComparisonLoopStep(toks, p, e.left, op, e.right, end);
  }

  /** In a printed chain, the token after the first operand is the chain's operator. */
  lemma {:induction false} ChainFirstFollowed(toks: seq<Token>, pos: nat, e: Expr, op: string, first: Expr)
    requires IsChainOver(e, op, first) && e != first && PrintedAt(toks, pos, e)
    ensures TokAt(toks, pos + Width(first), Punct(op))
  {
    if e.left != first {
      ChainFirstFollowed(toks, pos, e.left, op, first);
    }
  }

  /** A printed expression followed by a token that ends it parses back to itself. */
  lemma {:induction false} ExprRoundTrip(toks: seq<Token>, pos: nat, e: Expr)
    requires WfExpr(e) && PrintedAt(toks, pos, e) && StopsExpression(toks, pos + Width(e))
    ensures ParseExpression(toks, pos) == Ok(Parsed(e, pos + Width(e)))
    decreases e, 12
  {
    var end := pos + Width(e);
    if IsSum(e) {
      SumRoundTrip(toks, pos, e);
      ComparisonStart(toks, pos, e, end);
      ComparisonLoopStop(toks, end, e, toks[end].text);
    } else {
      var op := e.op;
      ChainFirstOf(e, op);
      var first := ChainFirst(e);
      ChainPrefix(toks, pos, e, op, first);
      ChainFirstFollowed(toks, pos, e, op, first);
      ComparisonStart(toks, pos, first, pos + Width(first));
      ComparisonLoopStop(toks, end, e, op);
    }
  }

  // ---------------------------------------------------------------------------
  // Statements: one step of the parser, in isolation
  // ---------------------------------------------------------------------------

  lemma AssignmentAssign(toks: seq<Token>, pos: nat, x: string, p: nat, e: Expr, end: nat)
    requires pos <= |toks| && ParseExpression(toks, pos) == Ok(Parsed(Var(x), p))
    requires toks[p].text == "=" && ParseExpression(toks, p + 1) == Ok(Parsed(e, end))
    ensures ParseAssignment(toks, pos) == Ok(Parsed(Assign(x, e), end))
  {
  }

  lemma AssignmentExpr(toks: seq<Token>, pos: nat, e: Expr, p: nat)
    requires pos <= |toks| && ParseExpression(toks, pos) == Ok(Parsed(e, p))
    requires toks[p].text == ";"
    ensures ParseAssignment(toks, pos) == Ok(Parsed(ExprStmt(e), p))
  {
  }

  lemma StatementSimple(toks: seq<Token>, pos: nat, s: Stmt, p: nat)
    requires pos < |toks| && toks[pos].text != "if" && toks[pos].text != "while"
    requires ParseAssignment(toks, pos) == Ok(Parsed(s, p)) && toks[p].text == ";"
    ensures ParseStatement(toks, pos) == Ok(Parsed(s, p + 1))
  {
    StatementDispatch(toks, pos);
    SimpleStatement(toks, pos, s, p);
  }

  lemma StatementDispatch(toks: seq<Token>, pos: nat)
    requires pos < |toks| && toks[pos].text != "if" && toks[pos].text != "while"
    ensures ParseStatement(toks, pos) == ParseSimpleStatement(toks, pos)
  {
  }

  lemma SimpleStatement(toks: seq<Token>, pos: nat, s: Stmt, p: nat)
    requires pos <= |toks| && ParseAssignment(toks, pos) == Ok(Parsed(s, p)) && toks[p].text == ";"
    ensures ParseSimpleStatement(toks, pos) == Ok(Parsed(s, p + 1))
  {
  }

  lemma StatementIf(toks: seq<Token>, pos: nat, c: Expr, b: seq<Stmt>, end: nat)
    requires pos < |toks| && toks[pos].text == "if"
    requires ParseClause(toks, pos + 1) == Ok(Parsed((c, b), end))
    ensures ParseStatement(toks, pos) == Ok(Parsed(If(c, b), end))
  {
  }

  lemma StatementWhile(toks: seq<Token>, pos: nat, c: Expr, b: seq<Stmt>, end: nat)
    requires pos < |toks| && toks[pos].text == "while"
    requires ParseClause(toks, pos + 1) == Ok(Parsed((c, b), end))
    ensures ParseStatement(toks, pos) == Ok(Parsed(While(c, b), end))
  {
  }

  lemma ClauseSteps(toks: seq<Token>, pos: nat, c: Expr, p: nat, b: seq<Stmt>, end: nat)
    requires pos < |toks| && toks[pos].text == "("
    requires ParseExpression(toks, pos + 1) == Ok(Parsed(c, p))
    requires p + 1 < |toks| && toks[p].text == ")" && toks[p + 1].text == "{"
    requires ParseBlock(toks, p + 2, []) == Ok(Parsed(b, end))
    ensures ParseClause(toks, pos) == Ok(Parsed((c, b), end))
  {
  }

  lemma BlockClose(toks: seq<Token>, pos: nat, acc: seq<Stmt>)
    requires pos < |toks| && toks[pos].text == "}"
    ensures ParseBlock(toks, pos, acc) == Ok(Parsed(acc, pos + 1))
  {
  }

  lemma BlockStep(toks: seq<Token>, pos: nat, acc: seq<Stmt>, s: Stmt, p: nat)
    requires pos < |toks| && toks[pos].text != "}"
    requires ParseStatement(toks, pos) == Ok(Parsed(s, p))
    ensures ParseBlock(toks, pos, acc) == ParseBlock(toks, p, acc + [s])
  {
  }

  lemma StatementsEnd(toks: seq<Token>, acc: seq<Stmt>)
    ensures ParseStatements(toks, |toks|, acc) == Ok(acc)
  {
  }

  lemma StatementsStep(toks: seq<Token>, pos: nat, acc: seq<Stmt>, s: Stmt, p: nat)
    requires pos < |toks| && ParseStatement(toks, pos) == Ok(Parsed(s, p))
    ensures ParseStatements(toks, pos, acc) == ParseStatements(toks, p, acc + [s])
  {
  }

  // ---------------------------------------------------------------------------
  // Statements: the round trip
  // ---------------------------------------------------------------------------

  /** A printed statement starts with `if` exactly when it is an `if`, and likewise `while`; never with `}`. */
  lemma StmtFirst(toks: seq<Token>, pos: nat, s: Stmt)
    requires WfStmt(s) && StmtAt(toks, pos, s)
    ensures pos < |toks| && toks[pos].text != "}"
    ensures toks[pos].text == "if" <==> s.If?
    ensures toks[pos].text == "while" <==> s.While?
  {
    match s
    case Assign(x, e) =>
      assert IsWordChar(x[0]) && x[0] != '}';
    case If(c, b) =>
    case While(c, b) =>
    case ExprStmt(e) =>
      AtFirst(toks, pos, e);
  }

  lemma {:induction false} StmtRoundTrip(toks: seq<Token>, pos: nat, s: Stmt)
    requires WfStmt(s) && StmtAt(toks, pos, s)
    ensures pos < |toks| && ParseStatement(toks, pos) == Ok(Parsed(s, pos + StmtWidth(s)))
    decreases s, 1
  {
    if s.Assign? {
      AssignRoundTrip(toks, pos, s);
    } else if s.ExprStmt? {
      ExprStmtRoundTrip(toks, pos, s);
    } else {
      KeywordRoundTrip(toks, pos, s);
    }
  }

  lemma AssignRoundTrip(toks: seq<Token>, pos: nat, s: Stmt)
    requires s.Assign? && WfStmt(s) && StmtAt(toks, pos, s)
    ensures pos < |toks| && ParseStatement(toks, pos) == Ok(Parsed(s, pos + StmtWidth(s)))
  {
    var x, e := s.target, s.value;
    assert IsWordChar(x[0]);
    VarIsExpression(x);
    DelimiterStops(toks, pos + 1);
    ExprRoundTrip(toks, pos, Var(x));
    DelimiterStops(toks, pos + 2 + Width(e));
    ExprRoundTrip(toks, pos + 2, e);
    AssignmentAssign(toks, pos, x, pos + 1, e, pos + 2 + Width(e));
    StatementSimple(toks, pos, Assign(x, e), pos + 2 + Width(e));
  }

  lemma ExprStmtRoundTrip(toks: seq<Token>, pos: nat, s: Stmt)
    requires s.ExprStmt? && WfStmt(s) && StmtAt(toks, pos, s)
    ensures pos < |toks| && ParseStatement(toks, pos) == Ok(Parsed(s, pos + StmtWidth(s)))
  {
    var e := s.expr;
    AtFirst(toks, pos, e);
    DelimiterStops(toks, pos + Width(e));
    ExprRoundTrip(toks, pos, e);
    AssignmentExpr(toks, pos, e, pos + Width(e));
    StatementSimple(toks, pos, ExprStmt(e), pos + Width(e));
  }

  lemma {:induction false} KeywordRoundTrip(toks: seq<Token>, pos: nat, s: Stmt)
    requires (s.If? || s.While?) && WfStmt(s) && StmtAt(toks, pos, s)
    ensures pos < |toks| && ParseStatement(toks, pos) == Ok(Parsed(s, pos + StmtWidth(s)))
    decreases s, 0
  {
    if s.If? {
      ClauseRoundTrip(toks, pos, "if", s.cond, s.body);
      StatementIf(toks, pos, s.cond, s.body, pos + StmtWidth(s));
    } else {
      ClauseRoundTrip(toks, pos, "while", s.cond, s.body);
      StatementWhile(toks, pos, s.cond, s.body, pos + StmtWidth(s));
    }
  }

  /** From the `(` after the keyword, the clause parses to the condition and the body. */
  lemma {:induction false} ClauseRoundTrip(toks: seq<Token>, pos: nat, kw: string, c: Expr, body: seq<Stmt>)
    requires WfExpr(c) && (forall t :: t in body ==> WfStmt(t)) && ClauseAt(toks, pos, kw, c, body)
    ensures ParseClause(toks, pos + 1) == Ok(Parsed((c, body), pos + 5 + Width(c) + StmtsWidth(body)))
    decreases body, 3
  {
    var p := pos + 2 + Width(c);
    assert p + 2 == pos + 4 + Width(c) && p + 2 + StmtsWidth(body) + 1 == pos + 5 + Width(c) + StmtsWidth(body);
    DelimiterStops(toks, p);
    ExprRoundTrip(toks, pos + 2, c);
    BodyRoundTrip(toks, p + 2, body);
    ClauseSteps(toks, pos + 1, c, p, body, pos + 5 + Width(c) + StmtsWidth(body));
  }

  /** A clause body: the block loop, started with no statements, parses the printed body and its `}`. */
  lemma {:induction false} BodyRoundTrip(toks: seq<Token>, pos: nat, body: seq<Stmt>)
    requires forall s :: s in body ==> WfStmt(s)
    requires StmtsAt(toks, pos, body) && TokAt(toks, pos + StmtsWidth(body), Punct("}"))
    ensures ParseBlock(toks, pos, []) == Ok(Parsed(body, pos + StmtsWidth(body) + 1))
    decreases body, 2
  {
    BlockRoundTrip(toks, pos, [], body);
    assert [] + body == body;
  }

  /** The block loop, having parsed `done`, parses the printed `rest` and the closing `}`. */
  lemma {:induction false} BlockRoundTrip(toks: seq<Token>, pos: nat, done: seq<Stmt>, rest: seq<Stmt>)
    requires forall s :: s in rest ==> WfStmt(s)
    requires StmtsAt(toks, pos, rest) && TokAt(toks, pos + StmtsWidth(rest), Punct("}"))
    ensures ParseBlock(toks, pos, done) == Ok(Parsed(done + rest, pos + StmtsWidth(rest) + 1))
    decreases rest, 1
  {
    if rest == [] {
      assert done + rest == done;
      BlockClose(toks, pos, done);
    } else {
      BlockCons(toks, pos, done, rest);
    }
  }

  lemma {:induction false} BlockCons(toks: seq<Token>, pos: nat, done: seq<Stmt>, rest: seq<Stmt>)
    requires rest != [] && forall s :: s in rest ==> WfStmt(s)
    requires StmtsAt(toks, pos, rest) && TokAt(toks, pos + StmtsWidth(rest), Punct("}"))
    ensures ParseBlock(toks, pos, done) == Ok(Parsed(done + rest, pos + StmtsWidth(rest) + 1))
    decreases rest, 0
  {
    var s, tail := rest[0], rest[1..];
    var p := pos + StmtWidth(s);
    BlockTail(toks, pos, rest);
    ConsAppend(done, rest);
    assert ParseBlock(toks, pos, done) == ParseBlock(toks, p, done + [s]) by {
      BlockHead(toks, pos, done, s);
    }
    BlockRoundTrip(toks, p, done + [s], tail);
  }

  /** The printed block body split into its first statement and the rest, still closed by `}`. */
  lemma BlockTail(toks: seq<Token>, pos: nat, rest: seq<Stmt>)
    requires rest != [] && forall s :: s in rest ==> WfStmt(s)
    requires StmtsAt(toks, pos, rest) && TokAt(toks, pos + StmtsWidth(rest), Punct("}"))
    ensures WfStmt(rest[0]) && StmtAt(toks, pos, rest[0])
    ensures var p := pos + StmtWidth(rest[0]);
      (forall s :: s in rest[1..] ==> WfStmt(s)) && StmtsAt(toks, p, rest[1..]) &&
      TokAt(toks, p + StmtsWidth(rest[1..]), Punct("}")) &&
      p + StmtsWidth(rest[1..]) == pos + StmtsWidth(rest)
  {
    StmtsTail(toks, pos, rest);
  }

  /** The block loop parses the printed statement at its cursor and goes on after it. */
  lemma BlockHead(toks: seq<Token>, pos: nat, done: seq<Stmt>, s: Stmt)
    requires WfStmt(s) && StmtAt(toks, pos, s)
    ensures pos + StmtWidth(s) <= |toks|
    ensures ParseBlock(toks, pos, done) == ParseBlock(toks, pos + StmtWidth(s), done + [s])
    decreases s, 2
  {
    StmtFirst(toks, pos, s);
    StmtRoundTrip(toks, pos, s);
    BlockStep(toks, pos, done, s, pos + StmtWidth(s));
  }

  /** The first printed statement, and the rest after it. */
  lemma StmtsTail(toks: seq<Token>, pos: nat, ss: seq<Stmt>)
    requires ss != [] && (forall s :: s in ss ==> WfStmt(s)) && StmtsAt(toks, pos, ss)
    ensures WfStmt(ss[0]) && StmtAt(toks, pos, ss[0])
    ensures (forall s :: s in ss[1..] ==> WfStmt(s)) && StmtsAt(toks, pos + StmtWidth(ss[0]), ss[1..])
    ensures StmtsWidth(ss) == StmtWidth(ss[0]) + StmtsWidth(ss[1..])
  {
    assert ss[0] in ss;
  }

  lemma ConsAppend(done: seq<Stmt>, rest: seq<Stmt>)
    requires rest != []
    ensures done + [rest[0]] + rest[1..] == done + rest
  {
    assert rest == [rest[0]] + rest[1..];
  }

  /** The top-level loop, having parsed `done`, parses the printed `rest` up to the end of the array. */
  lemma {:induction false} StatementsRoundTrip(toks: seq<Token>, pos: nat, done: seq<Stmt>, rest: seq<Stmt>)
    requires forall s :: s in rest ==> WfStmt(s)
    requires StmtsAt(toks, pos, rest) && pos + StmtsWidth(rest) == |toks|
    ensures ParseStatements(toks, pos, done) == Ok(done + rest)
    decreases rest
  {
    if rest == [] {
      assert done + rest == done;
      StatementsEnd(toks, done);
    } else {
      var s := rest[0];
      StmtsTail(toks, pos, rest);
      var p := pos + StmtWidth(s);
      ConsAppend(done, rest);
      StmtRoundTrip(toks, pos, s);
      StatementsStep(toks, pos, done, s, p);
      StatementsRoundTrip(toks, p, done + [s], rest[1..]);
    }
  }

  // ---------------------------------------------------------------------------
  // The round trip, stated on the printer
  // ---------------------------------------------------------------------------

  /** Every well-formed program, printed to tokens, parses back to itself. */
  lemma ProgramRoundTrip(p: Program)
    requires WfProgram(p)
    ensures ParseProgram(UProgram(p)) == Ok(p)
  {
    var toks := UProgram(p);
    ProgramPrinted(p);
    StatementsRoundTrip(toks, 0, [], p.body);
    assert [] + p.body == p.body;
  }

  /** The printed program, described position by position. */
  lemma ProgramPrinted(p: Program)
    ensures StmtsAt(UProgram(p), 0, p.body) && StmtsWidth(p.body) == |UProgram(p)|
  {
    AtWhole(UProgram(p));
    StmtsAtOf(UProgram(p), 0, p.body);
  }

  /** The printer emits no Space token. */
  predicate SpaceFree(ts: seq<Token>)
  {
    forall t :: t in ts ==> t.kind != Space
  }

  lemma {:induction false} ExprSpaceFree(e: Expr)
    ensures SpaceFree(UExpr(e))
    decreases e, 1
  {
    match e
    case Num(_) =>
    case Var(_) =>
    case BinOp(l, _, r) =>
      ExprSpaceFree(l);
      ExprSpaceFree(r);
    case Paren(c) =>
      ExprSpaceFree(c);
    case Call(f, a) =>
      ExprSpaceFree(f);
      ArgsSpaceFree(a);
    case Neg(x) =>
      ExprSpaceFree(x);
  }

  lemma {:induction false} ArgsSpaceFree(a: Args)
    ensures SpaceFree(UArgs(a))
    decreases a, 1
  {
    if a.Present? {
      ItemsSpaceFree(a.items);
    }
  }

  lemma {:induction false} ItemsSpaceFree(items: seq<Expr>)
    ensures SpaceFree(UItems(items))
    decreases items, 0
  {
    if items != [] {
      ExprSpaceFree(items[0]);
      ItemsSpaceFree(items[1..]);
    }
  }

  lemma {:induction false} StmtSpaceFree(s: Stmt)
    ensures SpaceFree(UStmt(s))
    decreases s, 1
  {
    match s
    case Assign(_, e) =>
      ExprSpaceFree(e);
    case If(c, b) =>
      ExprSpaceFree(c);
      StmtsSpaceFree(b);
    case While(c, b) =>
      ExprSpaceFree(c);
      StmtsSpaceFree(b);
    case ExprStmt(e) =>
      ExprSpaceFree(e);
  }

  lemma {:induction false} StmtsSpaceFree(ss: seq<Stmt>)
    ensures SpaceFree(UStmts(ss))
    decreases ss, 0
  {
    if ss != [] {
      StmtSpaceFree(ss[0]);
      StmtsSpaceFree(ss[1..]);
    }
  }

  /** The whole front half of the parser: a printed program, whitespace filtering included, parses back. */
  lemma ParseRoundTrip(p: Program)
    requires WfProgram(p)
    ensures Parse(UProgram(p)) == Ok(p)
  {
    StmtsSpaceFree(p.body);
    FilterSpacesKeeps(UProgram(p));
    ProgramRoundTrip(p);
  }

  /** Every well-formed expression, printed and followed by `;`, parses back to itself. */
  lemma ExpressionRoundTrip(e: Expr)
    requires WfExpr(e)
    ensures ParseExpression(UExpr(e) + [Punct(";")], 0) == Ok(Parsed(e, |UExpr(e)|))
  {
    var toks := UExpr(e) + [Punct(";")];
    PrintedWithSemicolon(e);
    DelimiterStops(toks, Width(e));
    ExprRoundTrip(toks, 0, e);
  }

  /** The printed expression followed by `;`, described position by position. */
  lemma PrintedWithSemicolon(e: Expr)
    ensures |UExpr(e)| == Width(e)
    ensures PrintedAt(UExpr(e) + [Punct(";")], 0, e) && TokAt(UExpr(e) + [Punct(";")], Width(e), Punct(";"))
  {
    var toks := UExpr(e) + [Punct(";")];
    AtWhole(toks);
    AtSplit(toks, 0, UExpr(e), [Punct(";")]);
    PrintedAtOf(toks, 0, e);
    AtSingle(toks, |UExpr(e)|, Punct(";"));
  }
}
