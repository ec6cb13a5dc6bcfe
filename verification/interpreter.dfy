/**
 * The whole pipeline: tokenize the source, drop the whitespace tokens, parse,
 * and run the program from the initial environment.
 */
module Interpreter {
  import opened Wrappers
  import opened Errors
  import opened Ast
  import Lexer
  import Parser
  import Printer
  import opened Evaluator

  /**
   * A lexing or parsing failure stops the pipeline before anything runs, so it
   * leaves no output; otherwise the outcome is the program's.
   */
  function Interpret(source: string, fmt: real -> string, fuel: nat): (r: Outcome)
    ensures Lexer.Tokenize(source).Err? ==> r == Failed(Lexer.Tokenize(source).error, [])
    ensures Lexer.Tokenize(source).Ok? && Parser.Parse(Lexer.Tokenize(source).value).Err? ==>
      r == Failed(Parser.Parse(Lexer.Tokenize(source).value).error, [])
    ensures r.Failed? && (r.error.LexError? || r.error.ParseError?) ==> r.out == []
  {
    match Lexer.Tokenize(source)
    case Err(e) => Failed(e, [])
    case Ok(tokens) =>
      match Parser.Parse(tokens)
      case Err(e) => Failed(e, [])
      case Ok(p) => RunProgram(p, fmt, fuel)
  }

  /** The empty source is the empty program, which ends at once with the initial environment. */
  lemma EmptySource(fmt: real -> string, fuel: nat)
    ensures Interpret("", fmt, fuel) == Done(InitialState())
  {
    assert Parser.Parse([]) == Ok(Program([]));
  }

  /**
   * A source whose tokens, once the whitespace is dropped, are the printed form
   * of a well-formed program runs that program.
   */
  lemma InterpretPrinted(source: string, p: Program, fmt: real -> string, fuel: nat)
    requires Printer.WfProgram(p)
    requires Lexer.Tokenize(source).Ok? && Parser.FilterSpaces(Lexer.Tokenize(source).value) == Printer.UProgram(p)
    ensures Interpret(source, fmt, fuel) == RunProgram(p, fmt, fuel)
  {
    Printer.ProgramRoundTrip(p);
  }

  /** The program `print(1,);`. */
  function PrintOneProgram(): Program
  {
    Program([ExprStmt(Call(Var("print"), Present([Num(1)])))])
  }

  /** `print(1,);` as tokens. */
  function PrintOneTokenList(): seq<Lexer.Token>
  {
    [Printer.Word("print"), Printer.Punct("("), Lexer.Token(Lexer.Number, "1"), Printer.Punct(","), Printer.Punct(")"), Printer.Punct(";")]
  }

  /** `print(1,);` prints the `PRINT:` line and the text of the number 1, and binds nothing. */
  lemma PrintOne(fmt: real -> string)
    ensures Interpret("print(1,);", fmt, 1) == Done(State(InitialEnv, ["PRINT:", fmt(1.0)]))
  {
    PrintOneTokens("print(1,);");
    PrintOnePrinted();
    InterpretPrinted("print(1,);", PrintOneProgram(), fmt, 1);
    PrintOneRuns(fmt);
  }

  lemma PrintOneTokens(s: string)
    requires |s| == 10 && s[..5] == "print" && s[5] == '(' && s[6] == '1' && s[7] == ',' && s[8] == ')' && s[9] == ';'
    ensures Lexer.Tokenize(s) == Ok(PrintOneTokenList())
  {
    var w, rest := s[..5], s[5..];
    PrintOneSuffix(rest);
    assert w + rest == s && w == "print";
    Lexer.WordThen(w, rest, PrintOneTokenList()[1..]);
    assert [Printer.Word("print")] + PrintOneTokenList()[1..] == PrintOneTokenList();
  }

  lemma PrintOneSuffix(s: string)
    requires |s| == 5 && s[0] == '(' && s[1] == '1' && s[2] == ',' && s[3] == ')' && s[4] == ';'
    ensures Lexer.Tokenize(s) == Ok(PrintOneTokenList()[1..])
  {
    var rest := PrintOneTokenList()[2..];
    PrintOneNumber(s[1..]);
    assert s[..1] == "(" && [Lexer.Token(Lexer.Punctuation, s[..1])] + rest == PrintOneTokenList()[1..];
    Lexer.PunctuationThen(s, rest);
  }

  lemma PrintOneNumber(s: string)
    requires |s| == 4 && s[0] == '1' && s[1] == ',' && s[2] == ')' && s[3] == ';'
    ensures Lexer.Tokenize(s) == Ok(PrintOneTokenList()[2..])
  {
    var d, rest := s[..1], s[1..];
    var tail := PrintOneTokenList()[3..];
    PrintOneTail(rest);
    assert d == "1" && d + rest == s;
    Lexer.NumberThen(d, rest, tail);
    assert [Lexer.Token(Lexer.Number, "1")] + tail == PrintOneTokenList()[2..];
  }

  lemma PrintOneTail(s: string)
    requires |s| == 3 && s[0] == ',' && s[1] == ')' && s[2] == ';'
    ensures Lexer.Tokenize(s) == Ok(PrintOneTokenList()[3..])
  {
    var p1, p2, p3 := Printer.Punct(","), Printer.Punct(")"), Printer.Punct(";");
    var b, c := s[1..], s[2..];
    assert c[1..] == [] && c[..1] == ";" && [Lexer.Token(Lexer.Punctuation, c[..1])] + [] == [p3];
    Lexer.PunctuationThen(c, []);
    assert b[1..] == c && b[..1] == ")" && [Lexer.Token(Lexer.Punctuation, b[..1])] + [p3] == [p2, p3];
    Lexer.PunctuationThen(b, [p3]);
    assert s[1..] == b && s[..1] == "," && [Lexer.Token(Lexer.Punctuation, s[..1])] + [p2, p3] == [p1, p2, p3];
    Lexer.PunctuationThen(s, [p2, p3]);
    assert PrintOneTokenList()[3..] == [p1, p2, p3];
  }

  lemma PrintOnePrinted()
    ensures Printer.WfProgram(PrintOneProgram())
    ensures Printer.UProgram(PrintOneProgram()) == PrintOneTokenList()
    ensures Parser.FilterSpaces(PrintOneTokenList()) == PrintOneTokenList()
  {
    PrintOneWellFormed();
    PrintOneUnparsed();
    Parser.FilterSpacesKeeps(PrintOneTokenList());
  }

  lemma PrintOneWellFormed()
    ensures Printer.WfProgram(PrintOneProgram())
  {
    assert Printer.IsVariableName("print");
  }

  lemma PrintOneUnparsed()
    ensures Printer.UProgram(PrintOneProgram()) == PrintOneTokenList()
  {
    var e := Call(Var("print"), Present([Num(1)]));
    assert Printer.NatDigits(1) == "1";
    assert Printer.UItems([Num(1)]) == [Lexer.Token(Lexer.Number, "1"), Printer.Punct(",")];
    assert Printer.UExpr(e) == PrintOneTokenList()[..5];
    assert Printer.UStmts([ExprStmt(e)]) == Printer.UStmt(ExprStmt(e)) + Printer.UStmts([]);
  }

  lemma PrintOneRuns(fmt: real -> string)
    ensures RunProgram(PrintOneProgram(), fmt, 1) == Done(State(InitialEnv, ["PRINT:", fmt(1.0)]))
  {
  }
}
