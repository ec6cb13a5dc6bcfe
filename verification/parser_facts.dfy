/**
 * Properties of the parser that relate several calls, and the grammar's
 * quirks pinned down on small token arrays.
 */
module ParserFacts {
  import opened Wrappers
  import opened Errors
  import opened Lexer
  import opened Ast
  import opened Parser
  import opened Printer

  /** Every program that parses ends in `;` or `}` (or is empty). */
  lemma {:induction false} LastTokenTerminates(toks: seq<Token>, pos: nat, acc: seq<Stmt>)
    requires pos < |toks| && ParseStatements(toks, pos, acc).Ok?
    ensures toks[|toks| - 1].text == ";" || toks[|toks| - 1].text == "}"
    decreases |toks| - pos
  {
    var s := ParseStatement(toks, pos);
    assert s.Ok?;
    if s.value.pos < |toks| {
      LastTokenTerminates(toks, s.value.pos, acc + [s.value.node]);
    }
  }

  lemma ProgramEndsInTerminator(toks: seq<Token>)
    requires |toks| > 0 && ParseProgram(toks).Ok?
    ensures toks[|toks| - 1].text == ";" || toks[|toks| - 1].text == "}"
  {
    LastTokenTerminates(toks, 0, []);
  }

  /** The empty token array is the empty program. */
  lemma EmptyProgram()
    ensures ParseProgram([]) == Ok(Program([]))
  {
  }

  /**
   * `parse_main` accepts only `(`, a Number token or an Identifier token; at
   * any other token it fails with "expected primary token".
   */
  lemma MainAcceptsOnly(toks: seq<Token>, pos: nat)
    requires pos <= |toks|
    ensures ParseMain(toks, pos).Ok? ==>
      pos < |toks| && (toks[pos].text == "(" || toks[pos].kind == Number || toks[pos].kind == Identifier)
    ensures pos < |toks| && toks[pos].text != "(" && toks[pos].kind != Number && toks[pos].kind != Identifier ==>
      ParseMain(toks, pos) == Err(ParseError(ExpectedPrimary))
  {
  }

  /** An Identifier token spelled like a keyword is still a variable where an operand is expected, as in `x = if;`. */
  lemma KeywordAsVariable()
    ensures ParseMain([Word("if")], 0) == Ok(Parsed(Var("if"), 1))
    ensures ParseMain([Word("while")], 0) == Ok(Parsed(Var("while"), 1))
  {
    MainVariable([Word("if")], 0, "if");
    MainVariable([Word("while")], 0, "while");
  }

  /** A parenthesis whose inner expression is not followed by `)` is rejected, not skipped ahead to a later `)`. */
  lemma ParenthesisUnclosed(toks: seq<Token>, pos: nat)
    requires pos <= |toks| && ParseExpression(toks, pos).Ok?
    requires toks[ParseExpression(toks, pos).value.pos].text != ")"
    ensures ParseParenthesis(toks, pos) == Err(ParseError(ExpectedClosingParen))
  {
  }

  /** When the inner expression is followed by `)`, the parenthesis ends right after that `)`. */
  lemma ParenthesisClosed(toks: seq<Token>, pos: nat)
    requires pos <= |toks| && ParseExpression(toks, pos).Ok?
    requires toks[ParseExpression(toks, pos).value.pos].text == ")"
    ensures var inner := ParseExpression(toks, pos).value;
      ParseParenthesis(toks, pos) == Ok(Parsed(Paren(inner.node), inner.pos + 1))
  {
  }

  /** There is no unary minus: an operand that starts with `-` is rejected by `parse_main`. */
  lemma MinusRejected(toks: seq<Token>, pos: nat)
    requires pos < |toks| && toks[pos] == Token(Punctuation, "-")
    ensures ParseExpression(toks, pos) == Err(ParseError(ExpectedPrimary))
  {
    assert ParseMain(toks, pos) == Err(ParseError(ExpectedPrimary));
    assert ParsePrimary(toks, pos) == Err(ParseError(ExpectedPrimary));
    assert ParseProduct(toks, pos) == Err(ParseError(ExpectedPrimary));
    assert ParseSum(toks, pos) == Err(ParseError(ExpectedPrimary));
    assert ParseComparison(toks, pos) == Err(ParseError(ExpectedPrimary));
  }

  /** A Number token is the literal whose value is the decimal value of its digits. */
  lemma NumberLiteral(toks: seq<Token>, pos: nat)
    requires pos < |toks| && toks[pos].kind == Number && toks[pos].text != "("
    ensures ParseMain(toks, pos) == Ok(Parsed(Num(DecimalValue(toks[pos].text)), pos + 1))
  {
  }

  /** Leading zeros do not change a literal's value: `007` is 7. */
  lemma {:induction false} LeadingZero(d: string)
    ensures DecimalValue(['0'] + d) == DecimalValue(d)
    decreases |d|
  {
    if d != [] {
      var z := ['0'] + d;
      assert z[..|z| - 1] == ['0'] + d[..|d| - 1] && z[|z| - 1] == d[|d| - 1];
      LeadingZero(d[..|d| - 1]);
    } else {
      assert (['0'] + d)[..0] == [];
    }
  }

  // ---------------------------------------------------------------------------
  // The quirks on small inputs (whitespace already filtered)
  // ---------------------------------------------------------------------------

  /** `f(a,);`: the trailing comma is part of every non-empty argument list. */
  lemma TrailingCommaAccepted()
    ensures ParseProgram(CallTokens()) == Ok(CallProgram())
  {
    CallProgramPrinted();
    CallProgramWellFormed();
    Printer.ProgramRoundTrip(CallProgram());
  }

  /** `f(a,);` as tokens, whitespace already filtered. */
  function CallTokens(): seq<Token>
  {
    [Word("f"), Punct("("), Word("a"), Punct(","), Punct(")"), Punct(";")]
  }

  /** The program `f(a,);` stands for: one call statement with one argument. */
  function CallProgram(): Program
  {
    Program([ExprStmt(Call(Var("f"), Present([Var("a")])))])
  }

  lemma CallProgramPrinted()
    ensures UProgram(CallProgram()) == CallTokens()
  {
    var e := Call(Var("f"), Present([Var("a")]));
    assert UExpr(Var("a")) == [Word("a")];
    assert UExpr(e) == [Word("f"), Punct("("), Word("a"), Punct(","), Punct(")")];
    assert UStmts([ExprStmt(e)]) == UStmt(ExprStmt(e)) + UStmts([]);
  }

  lemma CallProgramWellFormed()
    ensures WfProgram(CallProgram())
  {
    assert IsVariableName("a") && IsVariableName("f");
  }

  /**
   * Every argument must be followed by `,`: an argument that is followed by
   * anything else fails the argument list with "EXPECTED ,".
   */
  lemma ArgumentsMissingComma(toks: seq<Token>, pos: nat, x: Expr, p1: nat)
    requires pos + 1 < |toks| && toks[pos].text == "(" && toks[pos + 1].text != ")"
    requires ParseExpression(toks, pos + 1) == Ok(Parsed(x, p1))
    requires toks[p1].text != ","
    ensures ParseArguments(toks, pos) == Err(ParseError(ExpectedSymbol(",")))
  {
  }

  /** A failing primary fails the whole expression with the same error. */
  lemma PrimaryErrorPropagates(toks: seq<Token>, pos: nat, err: Error)
    requires pos <= |toks| && ParsePrimary(toks, pos) == Err(err)
    ensures ParseExpression(toks, pos) == Err(err)
  {
    assert ParseProduct(toks, pos) == Err(err);
    assert ParseSum(toks, pos) == Err(err);
    assert ParseComparison(toks, pos) == Err(err);
  }

  /**
   * A top-level statement that does not start with a keyword and whose first
   * expression fails makes the whole program fail with the same error.
   */
  lemma StatementErrorPropagates(toks: seq<Token>, pos: nat, acc: seq<Stmt>, err: Error)
    requires pos < |toks| && !IsKeyword(toks[pos].text)
    requires ParseExpression(toks, pos) == Err(err)
    ensures ParseStatements(toks, pos, acc) == Err(err)
  {
    assert ParseAssignment(toks, pos) == Err(err);
    assert ParseSimpleStatement(toks, pos) == Err(err);
    assert ParseStatement(toks, pos) == Err(err);
  }

  /**
   * After the first expression of a statement, `=` needs a bare variable
   * before it, and any token other than `=` and `;` leaves the statement unresolved.
   */
  lemma AssignmentRejects(toks: seq<Token>, pos: nat, e: Expr, p: nat)
    requires pos <= |toks| && ParseExpression(toks, pos) == Ok(Parsed(e, p))
    ensures p < |toks|
    ensures toks[p].text == "=" && !e.Var? ==> ParseAssignment(toks, pos) == Err(ParseError(LeftSideNotVariable))
    ensures toks[p].text != "=" && toks[p].text != ";" ==> ParseAssignment(toks, pos) == Err(ParseError(UnresolvedStatement))
  {
  }

  /** `f(a);`: without the trailing comma the argument list is rejected. */
  lemma MissingCommaRejected()
    ensures ParseProgram([Word("f"), Punct("("), Word("a"), Punct(")"), Punct(";")])
         == Err(ParseError(ExpectedSymbol(",")))
  {
    var toks := [Word("f"), Punct("("), Word("a"), Punct(")"), Punct(";")];
    var err := ParseError(ExpectedSymbol(","));
    assert IsVariableName("a") && IsVariableName("f");
    Printer.ExprRoundTrip(toks, 2, Var("a"));
    ArgumentsMissingComma(toks, 1, Var("a"), 3);
    assert CallLoop(toks, 1, Var("f")) == Err(err);
    Printer.MainVariable(toks, 0, "f");
    assert ParsePrimary(toks, 0) == Err(err);
    PrimaryErrorPropagates(toks, 0, err);
    StatementErrorPropagates(toks, 0, [], err);
  }

  /**
   * The loop of `parse_comparison` consumes any comparison operator but builds
   * the node with the operator captured before the loop.
   */
  lemma ComparisonKeepsFirstOperator(toks: seq<Token>, pos: nat, l: Expr, op: string, r: Expr, end: nat)
    requires pos < |toks| && toks[pos].text in ComparisonOps
    requires ParseSum(toks, pos + 1) == Ok(Parsed(r, end))
    ensures ComparisonLoop(toks, pos, l, op) == ComparisonLoop(toks, end, BinOp(l, op, r), op)
  {
  }

  /**
   * `x op1 y op2 z`: whatever the second comparison operator is, both nodes
   * carry `op1`, the operator that followed the first operand.
   */
  lemma MixedComparisonChain(toks: seq<Token>, pos: nat, x: string, op1: string, y: string, op2: string, z: string)
    requires IsVariableName(x) && IsVariableName(y) && IsVariableName(z)
    requires TokAt(toks, pos, Word(x)) && TokAt(toks, pos + 2, Word(y)) && TokAt(toks, pos + 4, Word(z))
    requires TokAt(toks, pos + 1, Punct(op1)) && op1 in ComparisonOps
    requires TokAt(toks, pos + 3, Punct(op2)) && op2 in ComparisonOps
    requires StopsExpression(toks, pos + 5)
    ensures ParseExpression(toks, pos) == Ok(Parsed(BinOp(BinOp(Var(x), op1, Var(y)), op1, Var(z)), pos + 5))
  {
    var xy := BinOp(Var(x), op1, Var(y));
    VarSum(toks, pos, x);
    Printer.ComparisonStart(toks, pos, Var(x), pos + 1);
    VarSum(toks, pos + 2, y);
    ComparisonKeepsFirstOperator(toks, pos + 1, Var(x), op1, Var(y), pos + 3);
    VarSum(toks, pos + 4, z);
    ComparisonKeepsFirstOperator(toks, pos + 3, xy, op1, Var(z), pos + 5);
    Printer.ComparisonLoopStop(toks, pos + 5, BinOp(xy, op1, Var(z)), op1);
  }

  /** A variable followed by something that cannot continue a sum is a whole sum. */
  lemma VarSum(toks: seq<Token>, pos: nat, x: string)
    requires IsVariableName(x) && TokAt(toks, pos, Word(x))
    requires pos + 1 < |toks| && toks[pos + 1].text != "(" && toks[pos + 1].text !in ProductOps && toks[pos + 1].text !in SumOps
    ensures ParseSum(toks, pos) == Ok(Parsed(Var(x), pos + 1))
  {
    assert IsMain(Var(x)) && Width(Var(x)) == 1;
    Printer.SumRoundTrip(toks, pos, Var(x));
  }

  /** `a < b == c;` parses as `(a < b) < c`. */
  lemma LessThenEqualsChain()
    ensures ParseExpression([Word("a"), Punct("<"), Word("b"), Punct("=="), Word("c"), Punct(";")], 0)
         == Ok(Parsed(BinOp(BinOp(Var("a"), "<", Var("b")), "<", Var("c")), 5))
  {
    assert IsVariableName("a") && IsVariableName("b") && IsVariableName("c");
    MixedComparisonChain([Word("a"), Punct("<"), Word("b"), Punct("=="), Word("c"), Punct(";")], 0, "a", "<", "b", "==", "c");
  }

  /**
   * `x` alone: after the identifier the call loop looks at the next token,
   * which does not exist, so the program fails at the end of input.
   */
  lemma MissingSemicolonRejected()
    ensures ParseProgram([Word("x")]) == Err(ParseError(EndOfInput))
  {
    var toks := [Word("x")];
    var err := ParseError(EndOfInput);
    assert IsVariableName("x");
    Printer.MainVariable(toks, 0, "x");
    assert CallLoop(toks, 1, Var("x")) == Err(err);
    assert ParsePrimary(toks, 0) == Err(err);
    PrimaryErrorPropagates(toks, 0, err);
    StatementErrorPropagates(toks, 0, [], err);
  }

  /** `f()()`: consecutive argument lists nest, the first list innermost. */
  lemma CallsNest()
    ensures ParseProgram(NestedCallTokens()) == Ok(NestedCallProgram())
  {
    NestedCallPrinted();
    assert IsVariableName("f");
    Printer.ProgramRoundTrip(NestedCallProgram());
  }

  lemma NestedCallPrinted()
    ensures UProgram(NestedCallProgram()) == NestedCallTokens()
  {
    var p := NestedCallProgram();
    assert UExpr(Call(Var("f"), Absent)) == [Word("f"), Punct("("), Punct(")")];
    assert UStmts(p.body) == UStmt(p.body[0]) + UStmts([]);
  }

  function NestedCallProgram(): Program
  {
    Program([ExprStmt(Call(Call(Var("f"), Absent), Absent))])
  }

  function NestedCallTokens(): seq<Token>
  {
    [Word("f"), Punct("("), Punct(")"), Punct("("), Punct(")"), Punct(";")]
  }

  /** `if (x) {`: the block runs into the end of input before its `}`. */
  lemma UnclosedBlockRejected()
    ensures ParseProgram(UnclosedTokens()) == Err(ParseError(EndOfInput))
  {
    var toks := UnclosedTokens();
    assert IsVariableName("x");
    Printer.ExprRoundTrip(toks, 2, Var("x"));
    assert ParseBlock(toks, 5, []) == Err(ParseError(EndOfInput));
    assert ParseClause(toks, 1) == Err(ParseError(EndOfInput));
    assert ParseStatement(toks, 0) == Err(ParseError(EndOfInput));
  }

  function UnclosedTokens(): seq<Token>
  {
    [Word("if"), Punct("("), Word("x"), Punct(")"), Punct("{")]
  }
}
