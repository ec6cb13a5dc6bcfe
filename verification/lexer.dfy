/**
 * The tokenizer: a first-match-wins scanner. At the cursor it tries the token
 * classes in a fixed priority order (comment, number, whitespace, punctuation,
 * identifier, string, `for` clause); the first class whose pattern matches a
 * non-empty prefix of the remaining text produces the next token, and the cursor
 * advances by that prefix's length. If no class matches at the cursor, lexing fails.
 */
module Lexer {
  import opened Wrappers
  import opened Errors

  /** Token kinds. `Operator` and `NoKind` exist in the source's enumeration but are never produced. */
  datatype Kind = Space | Operator | Punctuation | Identifier | Number | Comment | Str | ForCycle | NoKind

  datatype Token = Token(kind: Kind, text: string)

  /** The order in which the scanner tries the token classes. */
  const Priority: seq<Kind> := [Comment, Number, Space, Punctuation, Identifier, Str, ForCycle]

  // ---------------------------------------------------------------------------
  // Character classes
  // ---------------------------------------------------------------------------

  predicate IsDigit(c: char) {
    '0' <= c <= '9'
  }

  /** The regular-expression class `\s`: `\f \n \r \t \v`, U+0085 and the Unicode separators. */
  predicate IsWhitespace(c: char) {
    || c == ' ' || c == '\t' || c == '\n' || c == '\r' || c == '\U{000B}' || c == '\U{000C}'
    || c == '\U{0085}' || c == '\U{00A0}' || c == '\U{1680}'
    || ('\U{2000}' <= c <= '\U{200A}')
    || c == '\U{2028}' || c == '\U{2029}' || c == '\U{202F}' || c == '\U{205F}' || c == '\U{3000}'
  }

  /** The class `\w`, restricted to ASCII letters, digits and underscore. */
  predicate IsWordChar(c: char) {
    ('a' <= c <= 'z') || ('A' <= c <= 'Z') || IsDigit(c) || c == '_'
  }

  predicate NotNewline(c: char) {
    c != '\n'
  }

  predicate IsBlank(c: char) {
    c == ' '
  }

  /** The single-character punctuation class. */
  predicate IsPunctuationChar(c: char) {
    c in {'.', ';', '=', '{', '}', ',', '+', '-', '*', '/', '!', '(', ')', ':', '[', ']', '<', '>', '|', '?', '&'}
  }

  /** The two-character operators, tried before any single character. */
  predicate IsTwoCharOperator(s: string) {
    s == "==" || s == "!=" || s == "<=" || s == ">="
  }

  // ---------------------------------------------------------------------------
  // Prefix matchers: each returns the length of its match at the start of `s`,
  // 0 meaning "no match" (no class matches the empty string).
  // ---------------------------------------------------------------------------

  /** Length of the longest prefix of `s` all of whose characters satisfy `p`. */
  function Run(s: string, p: char -> bool): (n: nat)
    ensures n <= |s|
  {
    if s == [] || !p(s[0]) then 0 else 1 + Run(s[1..], p)
  }

  /** `Run` is the maximal prefix of `p`-characters: every character before it satisfies `p`, the next does not. */
  lemma {:induction false} RunMaximal(s: string, p: char -> bool)
    ensures forall i :: 0 <= i < Run(s, p) ==> p(s[i])
    ensures Run(s, p) == |s| || !p(s[Run(s, p)])
  {
    if s != [] && p(s[0]) {
      RunMaximal(s[1..], p);
    }
  }

  /** `Run` is empty exactly when the first character fails `p`. */
  lemma RunEmpty(s: string, p: char -> bool)
    ensures Run(s, p) == 0 <==> s == [] || !p(s[0])
  {
  }

  /** Index of the last occurrence of `c` in `s`, or -1. */
  function LastIndex(s: string, c: char): (i: int)
    ensures -1 <= i < |s|
    ensures 0 <= i ==> s[i] == c
  {
    if s == [] then -1
    else if s[|s| - 1] == c then |s| - 1
    else LastIndex(s[..|s| - 1], c)
  }

  /** Number of occurrences of `c` in `s`. */
  function Count(s: string, c: char): nat
  {
    if s == [] then 0 else (if s[0] == c then 1 else 0) + Count(s[1..], c)
  }

  /** `//[^\n]*\n`: from `//` through the first newline, inclusive. */
  function MatchComment(s: string): nat
  {
    if |s| >= 2 && s[0] == '/' && s[1] == '/' then
      var n := 2 + Run(s[2..], NotNewline);
      if n < |s| then n + 1 else 0
    else 0
  }

  /** `"[^\n]*"` or `@"[^\n]*"`: the greedy body reaches the last quote before the line ends. */
  function MatchString(s: string): (n: nat)
    ensures n > 0 ==> 2 <= n <= |s| && s[n - 1] == '"' && (s[0] == '"' || (n >= 3 && s[..2] == "@\""))
    ensures n > 0 ==> forall i :: 0 <= i < n ==> s[i] != '\n'
  {
    if |s| >= 1 && s[0] == '"' then QuotedTail(s, 1)
    else if |s| >= 2 && s[0] == '@' && s[1] == '"' then QuotedTail(s, 2)
    else 0
  }

  function QuotedTail(s: string, k: nat): (n: nat)
    requires k <= |s|
    ensures n == 0 || k < n <= |s|
    ensures n > 0 ==> s[n - 1] == '"' && forall i :: k <= i < n ==> s[i] != '\n'
  {
    RunMaximal(s[k..], NotNewline);
    var lineEnd := k + Run(s[k..], NotNewline);
    var j := LastIndex(s[k..lineEnd], '"');
    if j < 0 then 0 else k + j + 1
  }

  /** `==|!=|<=|>=|<|>|[...]`: two-character operators first, then one character of the class. */
  function MatchPunctuation(s: string): (n: nat)
    ensures n == 2 <==> |s| >= 2 && IsTwoCharOperator(s[..2])
    ensures n == 1 <==> !(|s| >= 2 && IsTwoCharOperator(s[..2])) && |s| >= 1 && IsPunctuationChar(s[0])
    ensures n <= 2
  {
    if |s| >= 2 && IsTwoCharOperator(s[..2]) then 2
    else if |s| >= 1 && IsPunctuationChar(s[0]) then 1
    else 0
  }

  /**
   * `for[ ]*\(.*;.*;.*\)` with `.` matching every character: after `for`, blanks
   * and `(`, the greedy match reaches the last `)` of the text provided at least two
   * `;` precede it.
   */
  function MatchFor(s: string): (n: nat)
    ensures n > 0 ==> 5 <= n <= |s| && s[..3] == "for" && s[n - 1] == ')'
  {
    if |s| >= 3 && s[..3] == "for" then
      var q := 3 + Run(s[3..], IsBlank);
      if q < |s| && s[q] == '(' then
        var u := s[q + 1..];
        var e := LastIndex(u, ')');
        if 0 <= e && Count(u[..e], ';') >= 2 then q + 1 + e + 1 else 0
      else 0
    else 0
  }

  /** The match length of token class `k` at the start of `s`. */
  function MatchLength(k: Kind, s: string): (n: nat)
    ensures n <= |s|
    ensures k in {Operator, NoKind} ==> n == 0
  {
    match k
    case Comment => MatchComment(s)
    case Number => Run(s, IsDigit)
    case Space => Run(s, IsWhitespace)
    case Punctuation => MatchPunctuation(s)
    case Identifier => Run(s, IsWordChar)
    case Str => MatchString(s)
    case ForCycle => MatchFor(s)
    case Operator => 0
    case NoKind => 0
  }

  /** The first class of `ks` that matches at the start of `s`, as a token. */
  function FirstMatch(s: string, ks: seq<Kind>): (r: Option<Token>)
    ensures r.Some? ==> 0 < |r.value.text| <= |s| && r.value.text == s[..|r.value.text|]
    ensures r.Some? ==> r.value.kind in ks && |r.value.text| == MatchLength(r.value.kind, s)
  {
    if ks == [] then None
    else
      var n := MatchLength(ks[0], s);
      if n > 0 then Some(Token(ks[0], s[..n]))
      else FirstMatch(s, ks[1..])
  }

  /** `GetNextToken`: the token at the cursor, or None when no class matches there. */
  function NextToken(s: string): (r: Option<Token>)
    ensures r.Some? ==> 0 < |r.value.text| <= |s| && r.value.text == s[..|r.value.text|]
  {
    FirstMatch(s, Priority)
  }

  /** The concatenation of the token texts. */
  function Texts(ts: seq<Token>): string
  {
    if ts == [] then [] else ts[0].text + Texts(ts[1..])
  }

  /**
   * `GetTokens`: the tokens of `s`, consumed from the front; fails with the
   * remaining text when no class matches at the cursor.
   */
  function Tokenize(s: string): (r: Result<seq<Token>, Error>)
    ensures r.Ok? ==> |r.value| <= |s|
    ensures r.Err? ==> r.error.LexError? && 0 < |r.error.rest| <= |s|
    decreases |s|
  {
    if s == [] then Ok([])
    else
      match NextToken(s)
      case None => Err(LexError(s))
      case Some(t) =>
        var rest :- Tokenize(s[|t.text|..]);
        Ok([t] + rest)
  }

  /** A successful tokenization's non-empty token texts concatenate back to the input. */
  lemma {:induction false} TokenizeRoundTrip(s: string)
    requires Tokenize(s).Ok?
    ensures Texts(Tokenize(s).value) == s
    ensures forall i :: 0 <= i < |Tokenize(s).value| ==> Tokenize(s).value[i].text != []
    decreases |s|
  {
    if s != [] {
      var t := NextToken(s).value;
      var rest := s[|t.text|..];
      TokenizeRoundTrip(rest);
      var ts := Tokenize(s).value;
      assert ts == [t] + Tokenize(rest).value;
      assert ts[1..] == Tokenize(rest).value;
      assert t.text + rest == s;
    }
  }

  /**
   * A failed tokenization stopped at a non-empty suffix of the input at whose
   * start no token class matches.
   */
  lemma {:induction false} TokenizeFailsAtCursor(s: string)
    requires Tokenize(s).Err?
    ensures Tokenize(s).error.LexError?
    ensures var rest := Tokenize(s).error.rest;
      0 < |rest| <= |s| && rest == s[|s| - |rest|..] && NextToken(rest).None?
    decreases |s|
  {
    if NextToken(s).Some? {
      var t := NextToken(s).value;
      var rest := s[|t.text|..];
      TokenizeFailsAtCursor(rest);
      var r := Tokenize(rest).error.rest;
      assert Tokenize(s).error.rest == r;
      assert s[|s| - |r|..] == rest[|rest| - |r|..];
    }
  }

  /** Prefixes the tokens of a successful result with `acc`. */
  function Prepend(acc: seq<Token>, r: Result<seq<Token>, Error>): Result<seq<Token>, Error>
  {
    if r.Ok? then Ok(acc + r.value) else r
  }

  /** One step of `Tokenize`: the token at the front, then the tokens of the rest. */
  lemma TokenizeStep(s: string)
    requires s != []
    ensures NextToken(s).None? ==> Tokenize(s) == Err(LexError(s))
    ensures NextToken(s).Some? ==>
      Tokenize(s) == Prepend([NextToken(s).value], Tokenize(s[|NextToken(s).value.text|..]))
  {
  }

  lemma PrependAssoc(a: seq<Token>, b: seq<Token>, r: Result<seq<Token>, Error>)
    ensures Prepend(a, Prepend(b, r)) == Prepend(a + b, r)
  {
    if r.Ok? {
      assert a + (b + r.value) == (a + b) + r.value;
    }
  }

  lemma PrependNil(r: Result<seq<Token>, Error>)
    ensures Prepend([], r) == r
  {
    if r.Ok? {
      assert [] + r.value == r.value;
    }
  }

  /**
   * The cursor loop of `GetTokens`, run to the end of the input: `rest` is the
   * text from the cursor `pos` on, and the tokens so far followed by those of
   * `rest` are the result.
   */
  method GetTokens(s: string) returns (r: Result<seq<Token>, Error>)
    ensures r == Tokenize(s)
  {
    var pos := 0;
    var rest := s;
    var acc: seq<Token> := [];
    PrependNil(Tokenize(s));
    while pos < |s|
      invariant pos + |rest| == |s|
      invariant Tokenize(s) == Prepend(acc, Tokenize(rest))
      decreases |rest|
    {
      var t := NextToken(rest);
      TokenizeStep(rest);
      if t.None? {
        return Err(LexError(rest));
      }
      var tok := t.value;
      PrependAssoc(acc, [tok], Tokenize(rest[|tok.text|..]));
      acc, pos, rest := acc + [tok], pos + |tok.text|, rest[|tok.text|..];
    }
    assert acc + [] == acc;
    r := Ok(acc);
  }

  // ---------------------------------------------------------------------------
  // Properties of the scanner
  // ---------------------------------------------------------------------------

  /** One step of the first-match search. */
  lemma FirstMatchCons(s: string, ks: seq<Kind>)
    requires ks != []
    ensures FirstMatch(s, ks) ==
      if MatchLength(ks[0], s) > 0 then Some(Token(ks[0], s[..MatchLength(ks[0], s)]))
      else FirstMatch(s, ks[1..])
  {
  }

  /** The token at the cursor as the explicit cascade over the classes in priority order. */
  lemma NextTokenCascade(s: string)
    ensures NextToken(s) ==
      if MatchComment(s) > 0 then Some(Token(Comment, s[..MatchComment(s)]))
      else if Run(s, IsDigit) > 0 then Some(Token(Number, s[..Run(s, IsDigit)]))
      else if Run(s, IsWhitespace) > 0 then Some(Token(Space, s[..Run(s, IsWhitespace)]))
      else if MatchPunctuation(s) > 0 then Some(Token(Punctuation, s[..MatchPunctuation(s)]))
      else if Run(s, IsWordChar) > 0 then Some(Token(Identifier, s[..Run(s, IsWordChar)]))
      else if MatchString(s) > 0 then Some(Token(Str, s[..MatchString(s)]))
      else if MatchFor(s) > 0 then Some(Token(ForCycle, s[..MatchFor(s)]))
      else None
  {
    var ks := Priority;
    FirstMatchCons(s, ks);
    assert ks[1..] == [Number, Space, Punctuation, Identifier, Str, ForCycle];
    FirstMatchCons(s, ks[1..]);
    assert ks[2..] == ks[1..][1..];
    FirstMatchCons(s, ks[2..]);
    assert ks[3..] == ks[2..][1..];
    FirstMatchCons(s, ks[3..]);
    assert ks[4..] == ks[3..][1..];
    FirstMatchCons(s, ks[4..]);
    assert ks[5..] == ks[4..][1..];
    FirstMatchCons(s, ks[5..]);
    assert ks[6..] == ks[5..][1..];
    FirstMatchCons(s, ks[6..]);
    assert ks[7..] == ks[6..][1..] == [];
  }

  /** Punctuation only ever starts with a character of the punctuation class. */
  lemma PunctuationStart(s: string)
    ensures MatchPunctuation(s) > 0 ==> IsPunctuationChar(s[0])
  {
    if |s| >= 2 && IsTwoCharOperator(s[..2]) {
      assert s[0] == s[..2][0];
    }
  }

  /** The `for` clause is shadowed by the identifier class: a `for (...;...;...)` always lexes as `for` first. */
  lemma ForCycleNeverWins(s: string)
    ensures NextToken(s).None? || NextToken(s).value.kind != ForCycle
  {
    if MatchFor(s) > 0 {
      assert s[0] == s[..3][0] == 'f';
      assert Run(s, IsWordChar) > 0;
    }
    NextTokenCascade(s);
  }

  /** A two-character operator at the cursor is one punctuation token, never two. */
  lemma TwoCharOperatorIsOneToken(s: string)
    requires |s| >= 2 && IsTwoCharOperator(s[..2])
    ensures NextToken(s) == Some(Token(Punctuation, s[..2]))
  {
    assert s[0] == s[..2][0];
    assert MatchComment(s) == 0;
    assert Run(s, IsDigit) == 0;
    assert Run(s, IsWhitespace) == 0;
    NextTokenCascade(s);
  }

  /** A punctuation character other than `/` and not followed by `=` is a token of its own. */
  lemma PunctuationCharIsOneToken(s: string)
    requires |s| > 0 && IsPunctuationChar(s[0]) && s[0] != '/'
    requires |s| >= 2 ==> s[1] != '='
    ensures NextToken(s) == Some(Token(Punctuation, s[..1]))
  {
    assert |s| >= 2 ==> s[..2][1] == s[1];
    assert MatchComment(s) == 0 && MatchPunctuation(s) == 1;
    assert !IsDigit(s[0]) && !IsWhitespace(s[0]);
    RunEmpty(s, IsDigit);
    RunEmpty(s, IsWhitespace);
    NextTokenCascade(s);
  }

  /** Such a punctuation character, then text that tokenizes, tokenizes to the character's token followed by that text's tokens. */
  lemma PunctuationThen(s: string, ts: seq<Token>)
    requires |s| > 0 && IsPunctuationChar(s[0]) && s[0] != '/'
    requires |s| >= 2 ==> s[1] != '='
    requires Tokenize(s[1..]) == Ok(ts)
    ensures Tokenize(s) == Ok([Token(Punctuation, s[..1])] + ts)
  {
    PunctuationCharIsOneToken(s);
    TokenizeStep(s);
  }

  /** A digit at the cursor starts a Number token holding the maximal run of digits. */
  lemma DigitStartsNumber(s: string)
    requires |s| > 0 && IsDigit(s[0])
    ensures NextToken(s) == Some(Token(Number, s[..Run(s, IsDigit)]))
  {
    assert MatchComment(s) == 0;
    NextTokenCascade(s);
  }

  /** A non-digit word character at the cursor starts an Identifier token holding the maximal word run. */
  lemma WordStartsIdentifier(s: string)
    requires |s| > 0 && IsWordChar(s[0]) && !IsDigit(s[0])
    ensures NextToken(s) == Some(Token(Identifier, s[..Run(s, IsWordChar)]))
  {
    assert MatchComment(s) == 0;
    PunctuationStart(s);
    assert !IsPunctuationChar(s[0]);
    RunEmpty(s, IsDigit);
    assert !IsWhitespace(s[0]);
    RunEmpty(s, IsWhitespace);
    RunEmpty(s, IsWordChar);
    NextTokenCascade(s);
  }

  /** `//` with no newline after it is not a comment: it lexes as a `/` punctuation token. */
  lemma SlashesWithoutNewline(s: string)
    requires |s| >= 2 && s[0] == '/' && s[1] == '/'
    requires forall i :: 2 <= i < |s| ==> s[i] != '\n'
    ensures NextToken(s) == Some(Token(Punctuation, "/"))
  {
    RunMaximal(s[2..], NotNewline);
    assert MatchComment(s) == 0;
    assert Run(s, IsDigit) == 0;
    assert Run(s, IsWhitespace) == 0;
    assert s[..2] == "//";
    assert MatchPunctuation(s) == 1;
    assert s[..1] == "/";
    NextTokenCascade(s);
  }

  /** The second `/` is a token of its own as well: `//` without a later newline is two `/` tokens. */
  lemma SlashesLexAsTwo(s: string)
    requires |s| >= 2 && s[0] == '/' && s[1] == '/'
    requires forall i :: 2 <= i < |s| ==> s[i] != '\n'
    ensures NextToken(s) == Some(Token(Punctuation, "/"))
    ensures NextToken(s[1..]) == Some(Token(Punctuation, "/"))
  {
    var t := s[1..];
    if |t| >= 2 && t[1] == '/' {
      SlashesWithoutNewline(t);
    } else {
      assert MatchComment(t) == 0 && MatchPunctuation(t) == 1 && t[..1] == "/";
      RunEmpty(t, IsDigit);
      RunEmpty(t, IsWhitespace);
      NextTokenCascade(t);
    }
    SlashesWithoutNewline(s);
  }

  /** A comment token runs from `//` through the first newline after it. */
  lemma CommentShape(s: string)
    requires NextToken(s).Some? && NextToken(s).value.kind == Comment
    ensures var t := NextToken(s).value.text;
      |t| >= 3 && t[0] == '/' && t[1] == '/' && t[|t| - 1] == '\n'
      && forall i :: 2 <= i < |t| - 1 ==> t[i] != '\n'
  {
    var n := 2 + Run(s[2..], NotNewline);
    RunMaximal(s[2..], NotNewline);
    assert MatchComment(s) == n + 1;
    NextTokenCascade(s);
  }

  /** Number tokens are digit runs; Space tokens are whitespace runs; Identifier tokens are word runs. */
  predicate TokenShape(t: Token)
  {
    && (t.kind == Number ==> forall i :: 0 <= i < |t.text| ==> IsDigit(t.text[i]))
    && (t.kind == Space ==> forall i :: 0 <= i < |t.text| ==> IsWhitespace(t.text[i]))
    && (t.kind == Identifier ==> forall i :: 0 <= i < |t.text| ==> IsWordChar(t.text[i]))
  }

  /** Whether character `c` would extend a Number, Space or Identifier token of kind `k`. */
  predicate ExtendsRun(k: Kind, c: char)
  {
    (k == Number && IsDigit(c)) || (k == Space && IsWhitespace(c)) || (k == Identifier && IsWordChar(c))
  }

  /** The runs are maximal: the token after a Number, Space or Identifier token cannot extend it. */
  predicate Maximal(t: Token, next: Token)
    requires next.text != []
  {
    !ExtendsRun(t.kind, next.text[0])
  }

  /** The produced kinds: never ForCycle, Operator or NoKind. */
  predicate ProducedKind(k: Kind)
  {
    k in {Comment, Number, Space, Punctuation, Identifier, Str}
  }

  /**
   * The comment class matches exactly when the text starts with `//` and a
   * newline follows; the match runs through the first such newline.
   */
  lemma CommentMatch(s: string)
    ensures MatchComment(s) > 0 <==>
      |s| >= 2 && s[0] == '/' && s[1] == '/' && exists j :: 2 <= j < |s| && s[j] == '\n'
    ensures var n := MatchComment(s);
      n > 0 ==> 3 <= n <= |s| && s[n - 1] == '\n' && forall i :: 2 <= i < n - 1 ==> s[i] != '\n'
  {
    if |s| >= 2 && s[0] == '/' && s[1] == '/' {
      RunMaximal(s[2..], NotNewline);
      var n := MatchComment(s);
      if n > 0 {
        assert s[n - 1] == '\n';
      }
    }
  }

  /** `LastIndex` finds the last occurrence: nothing after it is `c`, and -1 means `c` does not occur. */
  lemma {:induction false} LastIndexIsLast(s: string, c: char)
    ensures forall j :: LastIndex(s, c) < j < |s| ==> s[j] != c
    decreases |s|
  {
    if s != [] && s[|s| - 1] != c {
      var init := s[..|s| - 1];
      assert forall j :: 0 <= j < |init| ==> init[j] == s[j];
      LastIndexIsLast(init, c);
    }
  }

  /** No newline in `s[a..b]`. */
  predicate NoNewlineIn(s: string, a: nat, b: nat)
    requires a <= b <= |s|
  {
    forall i :: a <= i < b ==> s[i] != '\n'
  }

  /**
   * The quoted body after an opening of length `k` matches exactly when a quote
   * follows on the same line, and the match ends at the last quote before the
   * line ends: the greedy `[^\n]*` runs to the newline and backs up to a quote.
   */
  lemma QuotedTailMatch(s: string, k: nat)
    requires k <= |s|
    ensures QuotedTail(s, k) > 0 <==> exists j :: k <= j < |s| && s[j] == '"' && NoNewlineIn(s, k, j)
    ensures var n := QuotedTail(s, k);
      n > 0 ==> forall j :: n <= j < |s| && NoNewlineIn(s, k, j) ==> s[j] != '"'
  {
    RunMaximal(s[k..], NotNewline);
    var lineEnd := k + Run(s[k..], NotNewline);
    var u := s[k..lineEnd];
    LastIndexIsLast(u, '"');
    var e := LastIndex(u, '"');
    assert forall i :: k <= i < lineEnd ==> s[i] != '\n';
    // A quote on the first line lies before the line end, so it is a quote of `u`.
    forall j | k <= j < |s| && s[j] == '"' && NoNewlineIn(s, k, j)
      ensures j < lineEnd && u[j - k] == '"'
    {
    }
    if e >= 0 {
      assert s[k + e] == '"' && NoNewlineIn(s, k, k + e);
    }
  }

  /**
   * The string class: a `"` (or `@"`) opening matches exactly when a second
   * quote follows on the same line, and the match reaches the last such quote.
   */
  lemma StringMatch(s: string)
    requires |s| >= 1 && s[0] == '"'
    ensures MatchString(s) > 0 <==> exists j :: 1 <= j < |s| && s[j] == '"' && NoNewlineIn(s, 1, j)
    ensures MatchString(s) > 0 ==> forall j :: MatchString(s) <= j < |s| && NoNewlineIn(s, 1, j) ==> s[j] != '"'
  {
    QuotedTailMatch(s, 1);
  }

  lemma VerbatimStringMatch(s: string)
    requires |s| >= 2 && s[0] == '@' && s[1] == '"'
    ensures MatchString(s) > 0 <==> exists j :: 2 <= j < |s| && s[j] == '"' && NoNewlineIn(s, 2, j)
    ensures MatchString(s) > 0 ==> forall j :: MatchString(s) <= j < |s| && NoNewlineIn(s, 2, j) ==> s[j] != '"'
  {
    QuotedTailMatch(s, 2);
  }

  /** The token at the cursor has a produced kind and the shape of its class. */
  lemma NextTokenShape(s: string)
    requires NextToken(s).Some?
    ensures ProducedKind(NextToken(s).value.kind)
    ensures TokenShape(NextToken(s).value)
    ensures var t := NextToken(s).value;
      t.kind in {Number, Space, Identifier} ==> |t.text| == |s| || !ExtendsRun(t.kind, s[|t.text|])
  {
    ForCycleNeverWins(s);
    var t := NextToken(s).value;
    if t.kind == Number {
      RunMaximal(s, IsDigit);
    } else if t.kind == Space {
      RunMaximal(s, IsWhitespace);
    } else if t.kind == Identifier {
      RunMaximal(s, IsWordChar);
    }
    NextTokenCascade(s);
  }

  /** The first two tokens of a successful tokenization: the second cannot extend the first. */
  lemma FirstPairMaximal(s: string)
    requires Tokenize(s).Ok? && |Tokenize(s).value| >= 2
    ensures Tokenize(s).value[1].text != [] && Maximal(Tokenize(s).value[0], Tokenize(s).value[1])
  {
    var t := NextToken(s).value;
    var rest := s[|t.text|..];
    NextTokenShape(s);
    TokenizeRoundTrip(rest);
    var u := NextToken(rest).value;
    assert Tokenize(s).value[1] == u;
    assert u.text[0] == rest[0] == s[|t.text|];
  }

  /**
   * Every token of a successful tokenization has a produced kind (so no
   * `for` clause token) and the shape of its class, and each Number, Space or
   * Identifier token is a maximal run: the next token does not start with a
   * character of the same class.
   */
  lemma {:induction false} TokenizeShapes(s: string)
    requires Tokenize(s).Ok?
    ensures var ts := Tokenize(s).value;
      forall i :: 0 <= i < |ts| ==> ProducedKind(ts[i].kind) && TokenShape(ts[i])
    ensures var ts := Tokenize(s).value;
      forall i :: 0 < i < |ts| ==> ts[i].text != [] && Maximal(ts[i - 1], ts[i])
    decreases |s|
  {
    if s != [] {
      var t := NextToken(s).value;
      var rest := s[|t.text|..];
      NextTokenShape(s);
      TokenizeShapes(rest);
      var ts := Tokenize(s).value;
      var tail := Tokenize(rest).value;
      assert ts == [t] + tail;
      if tail != [] {
        FirstPairMaximal(s);
      }
      forall i | 0 < i < |ts|
        ensures ts[i].text != [] && Maximal(ts[i - 1], ts[i])
      {
        if i > 1 {
          assert ts[i - 1] == tail[i - 2] && ts[i] == tail[i - 1];
        }
      }
    }
  }

  /** `Run` over a block of `p`-characters followed by a character outside `p` is the block's length. */
  lemma {:induction false} RunOverBlock(d: string, w: string, p: char -> bool)
    requires forall i :: 0 <= i < |d| ==> p(d[i])
    requires w == [] || !p(w[0])
    ensures Run(d + w, p) == |d|
    decreases |d|
  {
    if d == [] {
      assert d + w == w;
      RunEmpty(w, p);
    } else {
      assert (d + w)[1..] == d[1..] + w;
      RunOverBlock(d[1..], w, p);
    }
  }

  /** `for (...;...;...)` lexes as the Identifier `for`, never as one `for`-clause token. */
  lemma ForClauseStartsWithIdentifier(t: string)
    requires t == [] || !IsWordChar(t[0])
    ensures NextToken("for" + t) == Some(Token(Identifier, "for"))
  {
    var s := "for" + t;
    assert s[0] == 'f';
    WordStartsIdentifier(s);
    RunOverBlock("for", t, IsWordChar);
    assert s[..3] == "for";
  }

  /** Input that is a single token tokenizes to that token alone. */
  lemma TokenizeWhole(w: string, t: Token)
    requires NextToken(w) == Some(t) && t.text == w
    ensures Tokenize(w) == Ok([t])
  {
    TokenizeStep(w);
    assert w[|w|..] == [];
    assert [t] + [] == [t];
  }

  /**
   * No class matches `$`, so lexing fails at the cursor, whatever follows, even
   * when the rest would lex on its own.
   */
  lemma DollarFails(t: string)
    ensures Tokenize(['$'] + t) == Err(LexError(['$'] + t))
  {
    var s := ['$'] + t;
    NextTokenCascade(s);
    assert MatchComment(s) == 0;
    PunctuationStart(s);
    RunEmpty(s, IsDigit);
    RunEmpty(s, IsWhitespace);
    RunEmpty(s, IsWordChar);
    assert MatchString(s) == 0;
    assert MatchFor(s) == 0 by {
      if |s| >= 3 {
        assert s[..3][0] == '$';
      }
    }
    TokenizeStep(s);
  }

  /**
   * Number before identifier: a run of digits followed by a word such as `12ab`
   * lexes as the Number `12` then the Identifier `ab`.
   */
  lemma DigitsThenWord(d: string, w: string)
    requires |d| > 0 && forall i :: 0 <= i < |d| ==> IsDigit(d[i])
    requires |w| > 0 && !IsDigit(w[0]) && forall i :: 0 <= i < |w| ==> IsWordChar(w[i])
    ensures Tokenize(d + w) == Ok([Token(Number, d), Token(Identifier, w)])
  {
    var s := d + w;
    assert s[0] == d[0];
    DigitStartsNumber(s);
    RunOverBlock(d, w, IsDigit);
    assert s[..|d|] == d && s[|d|..] == w;
    WordStartsIdentifier(w);
    assert w + [] == w;
    RunOverBlock(w, [], IsWordChar);
    assert w[..|w|] == w;
    TokenizeWhole(w, Token(Identifier, w));
    TokenizeStep(s);
    assert [Token(Number, d)] + [Token(Identifier, w)] == [Token(Number, d), Token(Identifier, w)];
  }

  /** A maximal run of digits, then text that tokenizes: one Number token, then that text's tokens. */
  lemma NumberThen(d: string, rest: string, ts: seq<Token>)
    requires |d| > 0 && forall i :: 0 <= i < |d| ==> IsDigit(d[i])
    requires rest == [] || !IsDigit(rest[0])
    requires Tokenize(rest) == Ok(ts)
    ensures Tokenize(d + rest) == Ok([Token(Number, d)] + ts)
  {
    var s := d + rest;
    assert s[0] == d[0];
    RunOverBlock(d, rest, IsDigit);
    assert s[..|d|] == d && s[|d|..] == rest;
    DigitStartsNumber(s);
    TokenizeStep(s);
  }

  /** A maximal run of word characters not starting with a digit, then text that tokenizes: one Identifier token first. */
  lemma WordThen(w: string, rest: string, ts: seq<Token>)
    requires |w| > 0 && !IsDigit(w[0]) && forall i :: 0 <= i < |w| ==> IsWordChar(w[i])
    requires rest == [] || !IsWordChar(rest[0])
    requires Tokenize(rest) == Ok(ts)
    ensures Tokenize(w + rest) == Ok([Token(Identifier, w)] + ts)
  {
    var s := w + rest;
    assert s[0] == w[0];
    RunOverBlock(w, rest, IsWordChar);
    assert s[..|w|] == w && s[|w|..] == rest;
    WordStartsIdentifier(s);
    TokenizeStep(s);
  }
}
