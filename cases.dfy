/** Worked cases of the lexer and the parser on small inputs, as documentation of the
    general contracts. */
module Cases {
  import opened Tokens
  import opened Errors
  import opened Ast
  import opened Lexer
  import Grammar
  import Printer
  import StrategyParser
  import PrintedText

  function Sym(kind: TokenType, c: char, pos: nat): Token {
    Token(kind, [c], 0, pos)
  }

  function Digit(v: Long, c: char, pos: nat): Token {
    Token(NUMBER, [c], v, pos)
  }

  /** Token lists shaped like `2^3^2`: number, `^`, number, `^`, number, end marker. */
  predicate PowerShaped(ts: seq<Token>) {
    && |ts| == 6 && ts[0].kind == NUMBER && ts[1].kind == CARET && ts[2].kind == NUMBER
    && ts[3].kind == CARET && ts[4].kind == NUMBER && ts[5].kind == EOF
  }

  /** `3^2` at the end of `2^3^2` is one power. */
  lemma InnerPower(ts: seq<Token>)
    requires PowerShaped(ts)
    ensures Grammar.Power(ts, 2) == Ok(Parsed(Binary(ts[3].lexeme, Num(ts[2].value), Num(ts[4].value)), 5))
  {
    assert Grammar.Power(ts, 4) == Ok(Parsed(Num(ts[4].value), 5));
  }

  /** `2^3^2`: `^` nests to the right. */
  lemma PowerNestsRight(ts: seq<Token>)
    requires PowerShaped(ts)
    ensures Grammar.Expression(ts, 0)
         == Ok(Parsed(Binary(ts[1].lexeme, Num(ts[0].value), Binary(ts[3].lexeme, Num(ts[2].value), Num(ts[4].value))), 5))
  {
    var e := Binary(ts[1].lexeme, Num(ts[0].value), Binary(ts[3].lexeme, Num(ts[2].value), Num(ts[4].value)));
    InnerPower(ts);
    assert Grammar.Power(ts, 0) == Ok(Parsed(e, 5));
    assert Grammar.MulDivModTail(ts, e, 5) == Ok(Parsed(e, 5));
    assert Grammar.MulDivMod(ts, 0) == Ok(Parsed(e, 5));
    assert Grammar.AddSubTail(ts, e, 5) == Ok(Parsed(e, 5));
  }

  /** Token lists shaped like `1+2*3`: number, `+`, number, `*`, number, end marker. */
  predicate SumShaped(ts: seq<Token>) {
    && |ts| == 6 && ts[0].kind == NUMBER && ts[1].kind == PLUS && ts[2].kind == NUMBER
    && ts[3].kind == STAR && ts[4].kind == NUMBER && ts[5].kind == EOF
  }

  /** `2*3` in `1+2*3` is one product. */
  lemma InnerProduct(ts: seq<Token>)
    requires SumShaped(ts)
    ensures Grammar.MulDivMod(ts, 2) == Ok(Parsed(Binary(ts[3].lexeme, Num(ts[2].value), Num(ts[4].value)), 5))
  {
    var e := Binary(ts[3].lexeme, Num(ts[2].value), Num(ts[4].value));
    assert Grammar.Power(ts, 2) == Ok(Parsed(Num(ts[2].value), 3));
    assert Grammar.Power(ts, 4) == Ok(Parsed(Num(ts[4].value), 5));
    assert Grammar.MulDivModTail(ts, e, 5) == Ok(Parsed(e, 5));
  }

  /** The first product of `1+2*3` is the number alone: the `*` loop stops at `+`. */
  lemma FirstProduct(ts: seq<Token>)
    requires SumShaped(ts)
    ensures Grammar.MulDivMod(ts, 0) == Ok(Parsed(Num(ts[0].value), 1))
  {
    assert Grammar.Power(ts, 0) == Ok(Parsed(Num(ts[0].value), 1));
  }

  /** After the first number of `1+2*3`, the `+` loop reads `2*3` and stops at the end. */
  lemma SumLoop(ts: seq<Token>)
    requires SumShaped(ts)
    ensures Grammar.AddSubTail(ts, Num(ts[0].value), 1)
         == Ok(Parsed(Binary(ts[1].lexeme, Num(ts[0].value), Binary(ts[3].lexeme, Num(ts[2].value), Num(ts[4].value))), 5))
  {
    var e := Binary(ts[1].lexeme, Num(ts[0].value), Binary(ts[3].lexeme, Num(ts[2].value), Num(ts[4].value)));
    InnerProduct(ts);
    assert Grammar.AddSubTail(ts, e, 5) == Ok(Parsed(e, 5));
  }

  /** `1+2*3`: `*` binds tighter than `+`. */
  lemma ProductBindsTighter(ts: seq<Token>)
    requires SumShaped(ts)
    ensures Grammar.Expression(ts, 0)
         == Ok(Parsed(Binary(ts[1].lexeme, Num(ts[0].value), Binary(ts[3].lexeme, Num(ts[2].value), Num(ts[4].value))), 5))
  {
    FirstProduct(ts);
    SumLoop(ts);
  }

  /** Token lists shaped like `x=nearby`: name, `=`, `nearby`, end marker. */
  predicate NearbyShaped(ts: seq<Token>) {
    |ts| == 4 && ts[0].kind == IDENT && ts[1].kind == EQUAL && ts[2].kind == NEARBY && ts[3].kind == EOF
  }

  /** `nearby` right before the end marker is missing its direction, and the failure
      cites `nearby` itself, since the cursor does not move past the end marker. */
  lemma NearbyAtEnd(ts: seq<Token>)
    requires NearbyShaped(ts)
    ensures Grammar.Expression(ts, 2) == Err(ErrorAt(ts[2], ExpectedDirection))
  {
    assert Grammar.DirectionAt(ts, 3) == Err(ErrorAt(ts[2], ExpectedDirection));
    assert Grammar.Primary(ts, 2) == Err(ErrorAt(ts[2], ExpectedDirection));
    assert Grammar.Power(ts, 2) == Err(ErrorAt(ts[2], ExpectedDirection));
    assert Grammar.MulDivMod(ts, 2) == Err(ErrorAt(ts[2], ExpectedDirection));
  }

  /** `x=nearby` fails with "expected direction" at `nearby`. */
  lemma NearbyWithoutDirection(ts: seq<Token>)
    requires NearbyShaped(ts)
    ensures Grammar.Statement(ts, 0) == Err(ErrorAt(ts[2], ExpectedDirection))
  {
    NearbyAtEnd(ts);
    assert Grammar.AssignmentStatement(ts, 0) == Err(ErrorAt(ts[2], ExpectedDirection));
  }

  /** The text `x=nearby`. */
  function NearbyText(): string {
    "x=nearby"
  }

  /** The word `nearby` in `x=nearby` is the keyword, and the scan ends right after it. */
  lemma NearbyTextWord()
    ensures Scan(NearbyText(), 2) == Ok([Token(NEARBY, "nearby", 0, 2), EofToken(8)])
  {
    var src := NearbyText();
    assert src[2..8] == "nearby";
    assert WordKind("nearby") == NEARBY;
    assert WordEnd(src, 8) == 8;
    assert WordEnd(src, 3) == 8;
    assert StepAt(src, 2) == Emit(Token(NEARBY, "nearby", 0, 2), 8);
    assert |src| == 8 && Scan(src, 8) == Ok([EofToken(8)]);
    assert [Token(NEARBY, "nearby", 0, 2)] + [EofToken(8)] == [Token(NEARBY, "nearby", 0, 2), EofToken(8)];
  }

  /** The name at the start of `x=nearby` is the one letter `x`. */
  lemma NearbyTextName()
    ensures StepAt(NearbyText(), 0) == Emit(Token(IDENT, "x", 0, 0), 1)
  {
    var src := NearbyText();
    assert src[0..1] == "x" && WordKind("x") == IDENT;
    assert WordEnd(src, 1) == 1;
  }

  /** After `x`, the scan reads `=`, then `nearby` and the end marker. */
  lemma NearbyTextTail()
    ensures Scan(NearbyText(), 1) == Ok([Sym(EQUAL, '=', 1), Token(NEARBY, "nearby", 0, 2), EofToken(8)])
  {
    var src := NearbyText();
    var eq, kw := Sym(EQUAL, '=', 1), Token(NEARBY, "nearby", 0, 2);
    NearbyTextWord();
    assert StepAt(src, 1) == Emit(eq, 2);
    assert [eq] + [kw, EofToken(8)] == [eq, kw, EofToken(8)];
  }

  /** `x=nearby` lexes to the name `x`, `=`, the keyword `nearby` and the end marker. */
  lemma NearbyTextScan()
    ensures Scan(NearbyText(), 0) == Ok([Token(IDENT, "x", 0, 0), Sym(EQUAL, '=', 1), Token(NEARBY, "nearby", 0, 2), EofToken(8)])
  {
    var name, eq, kw := Token(IDENT, "x", 0, 0), Sym(EQUAL, '=', 1), Token(NEARBY, "nearby", 0, 2);
    NearbyTextName();
    NearbyTextTail();
    assert [name] + [eq, kw, EofToken(8)] == [name, eq, kw, EofToken(8)];
  }

  /** The text `x=nearby`, read by the parser's entry point, fails with "expected
      direction" at `nearby`. */
  lemma NearbyTextFails()
    ensures StrategyParser.ParseText(NearbyText()) == Err(ErrorAt(Token(NEARBY, "nearby", 0, 2), ExpectedDirection))
  {
    var ts := [Token(IDENT, "x", 0, 0), Sym(EQUAL, '=', 1), Token(NEARBY, "nearby", 0, 2), EofToken(8)];
    NearbyTextScan();
    NearbyWithoutDirection(ts);
    assert Grammar.StatementsUntilEnd(ts, 0, []) == Err(ErrorAt(ts[2], ExpectedDirection));
  }

  /** The text `if1=2`. */
  function IfOneText(): string {
    "if1=2"
  }

  /** The word at the start of `if1=2` runs over the digit: it is the name `if1`. */
  lemma IfOneWord()
    ensures StepAt(IfOneText(), 0) == Emit(Token(IDENT, "if1", 0, 0), 3)
  {
    var src := IfOneText();
    assert src[0..3] == "if1";
    assert WordKind("if1") == IDENT;
    assert WordEnd(src, 3) == 3;
    assert WordEnd(src, 1) == 3;
  }

  /** The digit at the end of `if1=2` is the number 2. */
  lemma IfOneNumber()
    ensures StepAt(IfOneText(), 4) == Emit(Digit(2, '2', 4), 5)
  {
    var src := IfOneText();
    assert src[4..5] == "2";
    assert DecimalValue("2") == 2;
    assert DigitsEnd(src, 5) == 5;
    assert DigitsEnd(src, 4) == 5;
  }

  /** After `if1`, the scan reads `=` and `2`, then the end marker. */
  lemma IfOneTail()
    ensures Scan(IfOneText(), 3) == Ok([Sym(EQUAL, '=', 3), Digit(2, '2', 4), EofToken(5)])
  {
    var src := IfOneText();
    var eq, two := Sym(EQUAL, '=', 3), Digit(2, '2', 4);
    IfOneNumber();
    assert |src| == 5 && Scan(src, 5) == Ok([EofToken(5)]);
    assert [two] + [EofToken(5)] == [two, EofToken(5)];
    assert Scan(src, 4) == Ok([two, EofToken(5)]);
    assert StepAt(src, 3) == Emit(eq, 4);
    assert [eq] + [two, EofToken(5)] == [eq, two, EofToken(5)];
  }

  /** `if1=2`: a keyword followed by a digit is one identifier. */
  lemma KeywordPrefixIsName()
    ensures Scan(IfOneText(), 0) == Ok([Token(IDENT, "if1", 0, 0), Sym(EQUAL, '=', 3), Digit(2, '2', 4), EofToken(5)])
  {
    var src := IfOneText();
    var name, eq, two := Token(IDENT, "if1", 0, 0), Sym(EQUAL, '=', 3), Digit(2, '2', 4);
    IfOneWord();
    IfOneTail();
    assert [name] + [eq, two, EofToken(5)] == [name, eq, two, EofToken(5)];
  }

  /** `x = 1 + 2 * 3`, printed and parsed again, comes back unchanged. */
  lemma PrintedAssignmentReadsBack()
    ensures var s := Assign("x", Binary("+", Num(1), Binary("*", Num(2), Num(3))));
      StrategyParser.ParseText(Printer.Print([s])) == Ok([s])
  {
    var s := Assign("x", Binary("+", Num(1), Binary("*", Num(2), Num(3))));
    assert Printer.IsName("x") by {
      assert KeywordKind("x") == None;
    }
    assert WellShaped(s) && Printer.PrintableStmt(s);
    PrintedText.TextRoundTrip([s]);
  }
}
