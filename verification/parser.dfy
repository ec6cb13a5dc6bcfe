/**
 * The parser: recursive descent with one token of lookahead over the token
 * array left after removing whitespace. Every function takes the position of the
 * current token and returns the node it built together with the position after
 * it; reading the current token at or past the end of the array is a failure.
 */
module Parser {
  import opened Wrappers
  import opened Errors
  import opened Lexer
  import opened Ast

  /** A node together with the position of the first token after it. */
  datatype Parsed<T> = Parsed(node: T, pos: nat)

  const ComparisonOps: set<string> := {"<", ">", "==", "!=", "<=", ">="}
  const SumOps: set<string> := {"+", "-"}
  const ProductOps: set<string> := {"*", "/"}

  // ---------------------------------------------------------------------------
  // The shapes the grammar can produce
  // ---------------------------------------------------------------------------

  /** `Main`: a number, a variable or a parenthesised expression. */
  predicate IsMain(e: Expr)
    decreases e, 1
  {
    e.Num? || e.Var? || (e.Paren? && IsExpression(e.child))
  }

  /** `Primary`: a main expression followed by argument lists, each non-empty list made of expressions. */
  predicate IsPrimary(e: Expr)
    decreases e, 2
  {
    IsMain(e) || (e.Call? && IsPrimary(e.callee) && ArgsShape(e.args))
  }

  /** An argument list is absent or a non-empty list of expressions. */
  predicate ArgsShape(args: Args)
    decreases args, 0
  {
    args.Present? ==> |args.items| > 0 && forall a :: a in args.items ==> IsExpression(a)
  }

  /** `Product`: a left-deep chain of `*` and `/` over primaries. */
  predicate IsProduct(e: Expr)
    decreases e, 3
  {
    IsPrimary(e) || (e.BinOp? && e.op in ProductOps && IsProduct(e.left) && IsPrimary(e.right))
  }

  /** `Sum`: a left-deep chain of `+` and `-` over products. */
  predicate IsSum(e: Expr)
    decreases e, 4
  {
    IsProduct(e) || (e.BinOp? && e.op in SumOps && IsSum(e.left) && IsProduct(e.right))
  }

  /** A left-deep comparison chain over sums whose every node carries the same operator `op`. */
  predicate IsChain(e: Expr, op: string)
    decreases e, 5
  {
    e.BinOp? && e.op == op && IsSum(e.right) && (IsSum(e.left) || IsChain(e.left, op))
  }

  /** `Expression`: a sum, or a comparison chain with one operator throughout. */
  predicate IsExpression(e: Expr)
    decreases e, 6
  {
    IsSum(e) || (e.BinOp? && e.op in ComparisonOps && IsChain(e, e.op))
  }

  // ---------------------------------------------------------------------------
  // Where each level stops: the token after a parsed level cannot continue it
  // ---------------------------------------------------------------------------

  predicate StopsPrimary(toks: seq<Token>, p: nat)
  {
    p < |toks| && toks[p].text != "("
  }

  predicate StopsProduct(toks: seq<Token>, p: nat)
  {
    StopsPrimary(toks, p) && toks[p].text !in ProductOps
  }

  predicate StopsSum(toks: seq<Token>, p: nat)
  {
    StopsProduct(toks, p) && toks[p].text !in SumOps
  }

  predicate StopsExpression(toks: seq<Token>, p: nat)
  {
    StopsSum(toks, p) && toks[p].text !in ComparisonOps
  }

  // ---------------------------------------------------------------------------
  // Token access
  // ---------------------------------------------------------------------------

  /** `filter_whitespaces`: drops the Space tokens and keeps every other token in order. */
  function FilterSpaces(ts: seq<Token>): (r: seq<Token>)
    ensures |r| <= |ts|
    ensures forall t :: t in r <==> t in ts && t.kind != Space
  {
    if ts == [] then []
    else (if ts[0].kind == Space then [] else [ts[0]]) + FilterSpaces(ts[1..])
  }

  /** Filtering a concatenation filters each part. */
  lemma {:induction false} FilterSpacesAppend(a: seq<Token>, b: seq<Token>)
    ensures FilterSpaces(a + b) == FilterSpaces(a) + FilterSpaces(b)
  {
    if a == [] {
      assert a + b == b;
    } else {
      assert (a + b)[1..] == a[1..] + b;
      FilterSpacesAppend(a[1..], b);
    }
  }

  /** An array without Space tokens is left as it is. */
  lemma {:induction false} FilterSpacesKeeps(ts: seq<Token>)
    requires forall t :: t in ts ==> t.kind != Space
    ensures FilterSpaces(ts) == ts
  {
    if ts != [] {
      assert ts[0] in ts;
      assert forall t :: t in ts[1..] ==> t in ts;
      FilterSpacesKeeps(ts[1..]);
      assert ts == [ts[0]] + ts[1..];
    }
  }

  /** `current_token`: the token at `pos`, a failure at or past the end of the array. */
  function Current(toks: seq<Token>, pos: nat): (r: Result<Token, Error>)
    ensures r.Ok? <==> pos < |toks|
    ensures r.Ok? ==> r.value == toks[pos]
    ensures r.Err? ==> r.error == ParseError(EndOfInput)
  {
    if pos < |toks| then Ok(toks[pos]) else Err(ParseError(EndOfInput))
  }

  /** `expect_required_token_value`: consumes a token whose text is `v`, or fails. */
  function Expect(toks: seq<Token>, pos: nat, v: string): (r: Result<nat, Error>)
    ensures r.Ok? <==> pos < |toks| && toks[pos].text == v
    ensures r.Ok? ==> r.value == pos + 1
  {
    var t :- Current(toks, pos);
    if t.text == v then Ok(pos + 1) else Err(ParseError(ExpectedSymbol(v)))
  }

  /** The decimal value of a digit string (each non-digit reads as 0): below ten to the number of digits. */
  function DecimalValue(digits: string): (r: nat)
    ensures r < Pow10(|digits|)
  {
    if digits == [] then 0
    else 10 * DecimalValue(digits[..|digits| - 1]) + DigitValue(digits[|digits| - 1])
  }

  function Pow10(n: nat): nat
  {
    if n == 0 then 1 else 10 * Pow10(n - 1)
  }

  function DigitValue(c: char): nat
  {
    if IsDigit(c) then (c as int - '0' as int) else 0
  }

  // ---------------------------------------------------------------------------
  // Expressions
  // ---------------------------------------------------------------------------

  /** `parse_expression`, which is `parse_comparison`. */
  function ParseExpression(toks: seq<Token>, pos: nat): (r: Result<Parsed<Expr>, Error>)
    requires pos <= |toks|
    ensures r.Ok? ==> pos < r.value.pos && StopsExpression(toks, r.value.pos)
    ensures r.Ok? ==> IsExpression(r.value.node)
    decreases |toks| - pos, 10
  {
    ParseComparison(toks, pos)
  }

  /**
   * `parse_comparison`: a sum, then a left-deep chain of comparisons; the
   * operator is the text of the token after the first sum, read once.
   */
  function ParseComparison(toks: seq<Token>, pos: nat): (r: Result<Parsed<Expr>, Error>)
    requires pos <= |toks|
    ensures r.Ok? ==> pos < r.value.pos && StopsExpression(toks, r.value.pos)
    ensures r.Ok? ==> IsExpression(r.value.node)
    decreases |toks| - pos, 9
  {
    var first :- ParseSum(toks, pos);
    // the sum stopped on a token, so reading the operator cannot fail
    var op := toks[first.pos].text;
    var r := ComparisonLoop(toks, first.pos, first.node, op);
    if r.Ok? then ChainOverIsExpression(r.value.node, op, first.node); r else r
  }

  /** The loop of `parse_comparison`: every node it builds carries `op`, whatever operator token it consumed. */
  function ComparisonLoop(toks: seq<Token>, pos: nat, left: Expr, op: string): (r: Result<Parsed<Expr>, Error>)
    requires pos <= |toks|
    ensures r.Ok? ==> pos <= r.value.pos < |toks| && toks[r.value.pos].text !in ComparisonOps
    ensures r.Ok? ==> r.value.pos == pos || StopsSum(toks, r.value.pos)
    ensures r.Ok? ==> IsChainOver(r.value.node, op, left)
    ensures r.Ok? && r.value.node != left ==> toks[pos].text in ComparisonOps
    decreases |toks| - pos, 8
  {
    var t :- Current(toks, pos);
    if t.text in ComparisonOps then
      var right :- ParseSum(toks, pos + 1);
      var r := ComparisonLoop(toks, right.pos, BinOp(left, op, right.node), op);
      if r.Ok? then ChainOverTrans(r.value.node, op, BinOp(left, op, right.node), left); r else r
    else
      Ok(Parsed(left, pos))
  }

  /** `e` is `first` extended on the right by zero or more comparisons with operator `op` over sums. */
  predicate IsChainOver(e: Expr, op: string, first: Expr)
  {
    e == first || (e.BinOp? && e.op == op && IsSum(e.right) && IsChainOver(e.left, op, first))
  }

  lemma {:induction false} ChainOverTrans(e: Expr, op: string, mid: Expr, first: Expr)
    requires IsChainOver(e, op, mid) && IsChainOver(mid, op, first)
    ensures IsChainOver(e, op, first)
  {
    if e != mid {
      ChainOverTrans(e.left, op, mid, first);
    }
  }

  lemma {:induction false} ChainOverIsExpression(e: Expr, op: string, first: Expr)
    requires IsChainOver(e, op, first) && IsSum(first)
    requires e != first ==> op in ComparisonOps
    ensures IsExpression(e)
    ensures e != first ==> IsChain(e, op)
  {
    if e != first {
      ChainOverIsExpression(e.left, op, first);
    }
  }

  /** `parse_sum`: a left-deep chain of `+` and `-` over products; the operator is re-read every time. */
  function ParseSum(toks: seq<Token>, pos: nat): (r: Result<Parsed<Expr>, Error>)
    requires pos <= |toks|
    ensures r.Ok? ==> pos < r.value.pos && StopsSum(toks, r.value.pos)
    ensures r.Ok? ==> IsSum(r.value.node)
    decreases |toks| - pos, 7
  {
    var first :- ParseProduct(toks, pos);
    SumLoop(toks, first.pos, first.node)
  }

  function SumLoop(toks: seq<Token>, pos: nat, left: Expr): (r: Result<Parsed<Expr>, Error>)
    requires pos <= |toks|
    ensures r.Ok? ==> pos <= r.value.pos < |toks| && toks[r.value.pos].text !in SumOps
    ensures r.Ok? ==> r.value.pos == pos || StopsProduct(toks, r.value.pos)
    ensures r.Ok? && IsSum(left) ==> IsSum(r.value.node)
    decreases |toks| - pos, 6
  {
    var t :- Current(toks, pos);
    if t.text in SumOps then
      var right :- ParseProduct(toks, pos + 1);
      SumLoop(toks, right.pos, BinOp(left, t.text, right.node))
    else
      Ok(Parsed(left, pos))
  }

  /** `parse_product`: a left-deep chain of `*` and `/` over primaries; the operator is re-read every time. */
  function ParseProduct(toks: seq<Token>, pos: nat): (r: Result<Parsed<Expr>, Error>)
    requires pos <= |toks|
    ensures r.Ok? ==> pos < r.value.pos && StopsProduct(toks, r.value.pos)
    ensures r.Ok? ==> IsProduct(r.value.node)
    decreases |toks| - pos, 5
  {
    var first :- ParsePrimary(toks, pos);
    ProductLoop(toks, first.pos, first.node)
  }

  function ProductLoop(toks: seq<Token>, pos: nat, left: Expr): (r: Result<Parsed<Expr>, Error>)
    requires pos <= |toks|
    ensures r.Ok? ==> pos <= r.value.pos < |toks| && toks[r.value.pos].text !in ProductOps
    ensures r.Ok? ==> r.value.pos == pos || StopsPrimary(toks, r.value.pos)
    ensures r.Ok? && IsProduct(left) ==> IsProduct(r.value.node)
    decreases |toks| - pos, 4
  {
    var t :- Current(toks, pos);
    if t.text in ProductOps then
      var right :- ParsePrimary(toks, pos + 1);
      ProductLoop(toks, right.pos, BinOp(left, t.text, right.node))
    else
      Ok(Parsed(left, pos))
  }

  /** `parse_primary`: a main expression followed by any number of argument lists. */
  function ParsePrimary(toks: seq<Token>, pos: nat): (r: Result<Parsed<Expr>, Error>)
    requires pos <= |toks|
    ensures r.Ok? ==> pos < r.value.pos && StopsPrimary(toks, r.value.pos)
    ensures r.Ok? ==> IsPrimary(r.value.node)
    decreases |toks| - pos, 3
  {
    var first :- ParseMain(toks, pos);
    CallLoop(toks, first.pos, first.node)
  }

  function CallLoop(toks: seq<Token>, pos: nat, callee: Expr): (r: Result<Parsed<Expr>, Error>)
    requires pos <= |toks|
    ensures r.Ok? ==> pos <= r.value.pos && StopsPrimary(toks, r.value.pos)
    ensures r.Ok? && IsPrimary(callee) ==> IsPrimary(r.value.node)
    decreases |toks| - pos, 2
  {
    var t :- Current(toks, pos);
    if t.text == "(" then
      var args :- ParseArguments(toks, pos);
      CallLoop(toks, args.pos, Call(callee, args.node))
    else
      Ok(Parsed(callee, pos))
  }

  /**
   * `parse_func_arguments`: `(` `)` gives the absent list; otherwise every
   * argument, the last included, must be followed by `,` before the closing `)`.
   */
  function ParseArguments(toks: seq<Token>, pos: nat): (r: Result<Parsed<Args>, Error>)
    requires pos <= |toks|
    ensures r.Ok? ==> pos <= r.value.pos <= |toks|
    ensures r.Ok? && pos < |toks| && toks[pos].text == "(" ==> pos + 2 <= r.value.pos
    ensures r.Ok? ==> ArgsShape(r.value.node)
    decreases |toks| - pos, 1
  {
    var t :- Current(toks, pos);
    if t.text != "(" then
      Ok(Parsed(Absent, pos))
    else
      var t2 :- Current(toks, pos + 1);
      if t2.text == ")" then
        Ok(Parsed(Absent, pos + 2))
      else
        var first :- ParseExpression(toks, pos + 1);
        var next :- Expect(toks, first.pos, ",");
        var rest :- ArgumentLoop(toks, next, [first.node]);
        Ok(Parsed(Present(rest.node), rest.pos))
  }

  /** The loop `while (!skip_if_value(")")) { expression; expect "," }`. */
  function ArgumentLoop(toks: seq<Token>, pos: nat, acc: seq<Expr>): (r: Result<Parsed<seq<Expr>>, Error>)
    requires pos <= |toks|
    ensures r.Ok? ==> pos < r.value.pos <= |toks| && toks[r.value.pos - 1].text == ")"
    ensures r.Ok? ==> |acc| <= |r.value.node| && r.value.node[..|acc|] == acc
    ensures r.Ok? ==> forall i :: |acc| <= i < |r.value.node| ==> IsExpression(r.value.node[i])
    decreases |toks| - pos, 11
  {
    var t :- Current(toks, pos);
    if t.text == ")" then
      Ok(Parsed(acc, pos + 1))
    else
      var arg :- ParseExpression(toks, pos);
      var next :- Expect(toks, arg.pos, ",");
      ArgumentLoop(toks, next, acc + [arg.node])
  }

  /** `parse_main`: `(` expression `)`, a Number token, or an Identifier token; anything else fails. */
  function ParseMain(toks: seq<Token>, pos: nat): (r: Result<Parsed<Expr>, Error>)
    requires pos <= |toks|
    ensures r.Ok? ==> pos < r.value.pos <= |toks|
    ensures r.Ok? ==> IsMain(r.value.node)
    decreases |toks| - pos, 0
  {
    var t :- Current(toks, pos);
    if t.text == "(" then
      ParseParenthesis(toks, pos + 1)
    else if t.kind == Number then
      Ok(Parsed(Num(DecimalValue(t.text)), pos + 1))
    else if t.kind == Identifier then
      Ok(Parsed(Var(t.text), pos + 1))
    else
      Err(ParseError(ExpectedPrimary))
  }

  /** `parse_parenthesis`: the expression after `(`, which must be followed by `)`. */
  function ParseParenthesis(toks: seq<Token>, pos: nat): (r: Result<Parsed<Expr>, Error>)
    requires pos <= |toks|
    ensures r.Ok? ==> pos < r.value.pos <= |toks| && toks[r.value.pos - 1].text == ")"
    ensures r.Ok? ==> r.value.node.Paren? && IsExpression(r.value.node.child)
    decreases |toks| - pos, 11
  {
    var inner :- ParseExpression(toks, pos);
    if toks[inner.pos].text == ")" then Ok(Parsed(Paren(inner.node), inner.pos + 1))
    else Err(ParseError(ExpectedClosingParen))
  }

  // ---------------------------------------------------------------------------
  // Statements
  // ---------------------------------------------------------------------------

  /** Whether a statement starts with a keyword, which makes it end in `}` rather than `;`. */
  predicate IsKeyword(text: string)
  {
    text == "if" || text == "while"
  }

  /**
   * `parse_statement`: `if` and `while` clauses by the current token's text,
   * otherwise an assignment or expression statement that must end in `;`.
   */
  function ParseStatement(toks: seq<Token>, pos: nat): (r: Result<Parsed<Stmt>, Error>)
    requires pos <= |toks|
    ensures r.Ok? ==> pos < r.value.pos <= |toks|
    ensures r.Ok? ==> toks[r.value.pos - 1].text == (if IsKeyword(toks[pos].text) then "}" else ";")
    decreases |toks| - pos, 0
  {
    var t :- Current(toks, pos);
    if t.text == "if" then
      var c :- ParseClause(toks, pos + 1);
      Ok(Parsed(If(c.node.0, c.node.1), c.pos))
    else if t.text == "while" then
      var c :- ParseClause(toks, pos + 1);
      Ok(Parsed(While(c.node.0, c.node.1), c.pos))
    else
      ParseSimpleStatement(toks, pos)
  }

  /** An assignment or expression statement, which must end in `;`. */
  function ParseSimpleStatement(toks: seq<Token>, pos: nat): (r: Result<Parsed<Stmt>, Error>)
    requires pos <= |toks|
    ensures r.Ok? ==> pos < r.value.pos <= |toks| && toks[r.value.pos - 1].text == ";"
  {
    var s :- ParseAssignment(toks, pos);
    var next :- Expect(toks, s.pos, ";");
    Ok(Parsed(s.node, next))
  }

  /**
   * `parse_assignment`: an expression; then `=` makes it an assignment, whose
   * target must be a bare variable, and `;` makes it an expression statement.
   */
  function ParseAssignment(toks: seq<Token>, pos: nat): (r: Result<Parsed<Stmt>, Error>)
    requires pos <= |toks|
    ensures r.Ok? ==> pos < r.value.pos && StopsExpression(toks, r.value.pos)
    ensures r.Ok? && r.value.node.ExprStmt? ==> toks[r.value.pos].text == ";"
  {
    var e :- ParseExpression(toks, pos);
    var t := toks[e.pos];
    if t.text == "=" then
      if !e.node.Var? then Err(ParseError(LeftSideNotVariable))
      else
        var rhs :- ParseExpression(toks, e.pos + 1);
        Ok(Parsed(Assign(e.node.name, rhs.node), rhs.pos))
    else if t.text == ";" then
      Ok(Parsed(ExprStmt(e.node), e.pos))
    else
      Err(ParseError(UnresolvedStatement))
  }

  /** `parse_if_clause` / `parse_while_clause` after the keyword: `(` condition `)` `{` statements `}`. */
  function ParseClause(toks: seq<Token>, pos: nat): (r: Result<Parsed<(Expr, seq<Stmt>)>, Error>)
    requires pos <= |toks|
    ensures r.Ok? ==> pos < r.value.pos <= |toks| && toks[r.value.pos - 1].text == "}"
    decreases |toks| - pos, 2
  {
    var open :- Expect(toks, pos, "(");
    var cond :- ParseExpression(toks, open);
    var close :- Expect(toks, cond.pos, ")");
    var brace :- Expect(toks, close, "{");
    var body :- ParseBlock(toks, brace, []);
    Ok(Parsed((cond.node, body.node), body.pos))
  }

  /** `parse_block_statement_list`: statements up to the matching `}`. */
  function ParseBlock(toks: seq<Token>, pos: nat, acc: seq<Stmt>): (r: Result<Parsed<seq<Stmt>>, Error>)
    requires pos <= |toks|
    ensures r.Ok? ==> pos < r.value.pos <= |toks| && toks[r.value.pos - 1].text == "}"
    ensures r.Ok? ==> |acc| <= |r.value.node| && r.value.node[..|acc|] == acc
    decreases |toks| - pos, 1
  {
    var t :- Current(toks, pos);
    if t.text == "}" then
      Ok(Parsed(acc, pos + 1))
    else
      var s :- ParseStatement(toks, pos);
      ParseBlock(toks, s.pos, acc + [s.node])
  }

  /** `parse_program_statement_list`: statements until every token is consumed. */
  function ParseStatements(toks: seq<Token>, pos: nat, acc: seq<Stmt>): (r: Result<seq<Stmt>, Error>)
    requires pos <= |toks|
    ensures r.Ok? ==> |acc| <= |r.value| && r.value[..|acc|] == acc
    ensures r.Ok? ==> (|r.value| == |acc| <==> pos == |toks|)
    decreases |toks| - pos
  {
    if pos == |toks| then
      Ok(acc)
    else
      var s :- ParseStatement(toks, pos);
      ParseStatements(toks, s.pos, acc + [s.node])
  }

  /** `parse_program`: the whole token array as one program. */
  function ParseProgram(toks: seq<Token>): (r: Result<Program, Error>)
    ensures r.Ok? ==> (r.value.body == [] <==> toks == [])
  {
    var body :- ParseStatements(toks, 0, []);
    Ok(Program(body))
  }

  /**
   * The parser's input: the tokens with the Space tokens filtered out. Only
   * whitespace (or nothing) parses to the empty program.
   */
  function Parse(tokens: seq<Token>): (r: Result<Program, Error>)
    ensures (forall i :: 0 <= i < |tokens| ==> tokens[i].kind == Space) ==> r == Ok(Program([]))
    ensures r.Ok? && r.value.body == [] ==> forall i :: 0 <= i < |tokens| ==> tokens[i].kind == Space
  {
    ParseProgram(FilterSpaces(tokens))
  }
}
