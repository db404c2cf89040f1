/** What the whole pipeline guarantees: the lexer's operator tokens are spelled as the
    parser expects, so every strategy the parser returns has the precedence shapes; and
    a source with no statement in it is refused with "expected at least one statement". */
module ParseFacts {
  import opened Tokens
  import opened Errors
  import opened Ast
  import opened Lexer
  import opened LexerFacts
  import Grammar
  import StrategyParser

  /** A well-formed token of an operator type has that operator's character as its lexeme. */
  lemma WellFormedOperatorSpelled(t: Token)
    requires WellFormed(t)
    ensures Grammar.OperatorSpelled(t)
  {
    if IsWord(t.lexeme) && t.kind == WordKind(t.lexeme) {
      assert !Grammar.IsOperator(t.kind);
    } else if t.kind != NUMBER {
      assert |t.lexeme| == 1 && SymbolKind(t.lexeme[0]) == Some(t.kind);
      assert t.lexeme == [t.lexeme[0]];
    }
  }

  /** The lexer's tokens satisfy the parser's assumption about operator lexemes. */
  lemma LexedOperatorsSpelled(src: string, ts: seq<Token>)
    requires Scan(src, 0) == Ok(ts)
    ensures Grammar.OperatorsSpelled(ts)
  {
    LexSucceeded(src, ts);
    forall k | 0 <= k < |ts|
      ensures Grammar.OperatorSpelled(ts[k])
    {
      if k < |ts| - 1 {
        WellFormedOperatorSpelled(ts[k]);
      }
    }
  }

  /** Every strategy parsed from text is non-empty, and in every expression in it the
      operators are grouped as their precedence and associativity say. */
  lemma ParsedIsWellShaped(src: string)
    requires StrategyParser.ParseText(src).Ok?
    ensures |StrategyParser.ParseText(src).value| > 0
    ensures forall s | s in StrategyParser.ParseText(src).value :: WellShaped(s)
  {
    var ts := Scan(src, 0).value;
    LexedOperatorsSpelled(src, ts);
  }

  /** A strategy whose statement loop completes fails exactly when the loop read nothing,
      that is when the parse starts at the end marker. */
  lemma EmptyStrategyFails(ts: seq<Token>, i: nat)
    requires Grammar.At(ts, i) && Grammar.StatementsUntilEnd(ts, i, []).Ok?
    ensures Grammar.Strategy(ts, i).Err? <==> ts[i].kind == EOF
    ensures ts[i].kind == EOF ==> Grammar.Strategy(ts, i) == Err(ErrorAt(ts[i], ExpectedAtLeastOneStatement))
  {
  }

  /** A source made only of whitespace and comments is refused: the failure cites the end
      marker, whose lexeme is empty, at the end of the source. */
  lemma NothingToParse(src: string)
    requires Gap(src, 0, |src|)
    ensures StrategyParser.ParseText(src) == Err(Error(ExpectedAtLeastOneStatement, Some(""), |src|))
  {
    var ts := [EofToken(|src|)];
    assert ts[..|ts| - 1] == [];
    ScanIff(src, 0, ts);
  }

  /** An expression cannot start with any other token (a unary `+` or `-`, a missing
      operand): it then fails with "expected expression" at that token. A number, a name,
      `ally` and `opponent` are one-token operands. */
  lemma ExpressionStart(ts: seq<Token>, i: nat)
    requires Grammar.At(ts, i)
    ensures !Grammar.StartsPrimary(ts[i].kind) ==> Grammar.Expression(ts, i) == Err(ErrorAt(ts[i], ExpectedExpression))
    ensures ts[i].kind in {NUMBER, IDENT, ALLY, OPPONENT} ==> Grammar.Primary(ts, i).Ok? && Grammar.Primary(ts, i).value.next == i + 1
    ensures Grammar.Expression(ts, i).Ok? ==> Grammar.StartsPrimary(ts[i].kind)
  {
    assert Grammar.Expression(ts, i) == Grammar.AddSub(ts, i);
    if Grammar.Primary(ts, i).Err? {
      assert Grammar.Power(ts, i) == Err(Grammar.Primary(ts, i).error);
      assert Grammar.MulDivMod(ts, i) == Err(Grammar.Primary(ts, i).error);
    }
  }

  /** A statement starts with `if`, `while`, `{`, `done`, `move`, `shoot` or a name, and
      only a name starts an assignment: a keyword before `=` is not one. */
  lemma StatementStart(ts: seq<Token>, i: nat)
    requires Grammar.At(ts, i)
    ensures !Grammar.StartsStatement(ts[i].kind) ==> Grammar.Statement(ts, i) == Err(ErrorAt(ts[i], ExpectedStatement))
    ensures Grammar.Statement(ts, i).Ok? ==> Grammar.StartsStatement(ts[i].kind)
    ensures Grammar.Statement(ts, i).Ok? && Grammar.Statement(ts, i).value.value.Assign? ==> ts[i].kind == IDENT
  {
  }

  /** `nearby` is a piece of information only with a direction word after it; without
      one the failure cites the word after `nearby`, or `nearby` itself when the input
      ends there (the cursor does not step past the end marker). */
  lemma NearbyNeedsDirection(ts: seq<Token>, i: nat)
    requires Grammar.At(ts, i) && ts[i].kind == NEARBY
    ensures i + 1 < |ts|
    ensures Grammar.Primary(ts, i).Ok? <==> Grammar.DirectionOf(ts[i + 1].kind).Some?
    ensures Grammar.Primary(ts, i).Ok? ==>
      Grammar.Primary(ts, i).value == Parsed(Info(Nearby, Grammar.DirectionOf(ts[i + 1].kind)), i + 2)
    ensures Grammar.Primary(ts, i).Err? ==>
      Grammar.Primary(ts, i).error == ErrorAt(if ts[i + 1].kind == EOF then ts[i] else ts[i + 1], ExpectedDirection)
  {
  }

  /** `move` is a statement only with a direction word after it, failing like `nearby`. */
  lemma MoveNeedsDirection(ts: seq<Token>, i: nat)
    requires Grammar.At(ts, i) && ts[i].kind == MOVE
    ensures i + 1 < |ts|
    ensures Grammar.Statement(ts, i).Ok? <==> Grammar.DirectionOf(ts[i + 1].kind).Some?
    ensures Grammar.Statement(ts, i).Ok? ==>
      Grammar.Statement(ts, i).value == Parsed(Move(Grammar.DirectionOf(ts[i + 1].kind).value), i + 2)
    ensures Grammar.Statement(ts, i).Err? ==>
      Grammar.Statement(ts, i).error == ErrorAt(if ts[i + 1].kind == EOF then ts[i] else ts[i + 1], ExpectedDirection)
  {
  }
}
